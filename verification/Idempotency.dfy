/** What the sender-scoped idempotency key promises, in every run and under every interleaving. */
module Idempotency {
  import opened Prelude
  import opened Mailbox
  import opened MailboxSafety

  ghost function After(events: seq<Event>): State {
    Run(EMPTY, events)
  }

  lemma Reachable(events: seq<Event>)
    ensures Inv(After(events))
  {
    EmptyInv();
    RunInv(EMPTY, events);
  }

  /** All calls of one sender under one key that name a message carried the same payload and name the same message. */
  lemma OneMessagePerKey(events: seq<Event>, i: RequestId, j: RequestId)
    requires i in After(events).done && j in After(events).done
    requires var a, b := After(events).done[i], After(events).done[j];
             a.call.sender == b.call.sender && a.call.key == b.call.key && a.outcome.Sent? && b.outcome.Sent?
    ensures After(events).done[i].call.request == After(events).done[j].call.request
    ensures After(events).done[i].outcome.message == After(events).done[j].outcome.message
  {
    Reachable(events);
    assert Backed(After(events).db, After(events).done[i]) && Backed(After(events).db, After(events).done[j]);
  }

  /** Messages, deliveries and key rows are in bijection, and each key row describes its message. */
  lemma BijectionInEveryRun(events: seq<Event>)
    ensures OneDeliveryEach(After(events).db) && OneKeyEach(After(events).db)
  {
    Reachable(events);
  }

  /** The one step by which a request changes the database. */
  ghost predicate Commits(s: State, e: Event) {
    && e.Finish? && e.id in s.running && s.running[e.id].phase.Inserted?
    && FinishOutcome(s.db, s.running[e.id]) == Sent(s.running[e.id].phase.id, false)
  }

  ghost predicate OfRequest(e: Event) {
    e.Begin? || e.Resolve? || e.Lock? || e.Insert? || e.Finish? || e.Crash?
  }

  /** A request step that is not a commit leaves no message, delivery, key or bound attachment behind. */
  lemma FailureLeavesNothing(s: State, e: Event)
    requires OfRequest(e) && !Commits(s, e)
    ensures Step(s, e).db == s.db
  {
    StepRows(s, e);
    match e
    case Begin(_, _) =>
    case Resolve(_) =>
    case Lock(_) =>
    case Insert(_, _) =>
    case Finish(_) =>
    case Crash(_) =>
  }

  /** A commit adds one message with its delivery and key, binds its attachments, and touches nothing else. */
  lemma CommitAddsOne(s: State, e: Event)
    requires Inv(s) && Commits(s, e)
    ensures var x := s.running[e.id]; var db := Step(s, e).db;
            && x.phase.id !in s.db.messages && db.messages.Keys == s.db.messages.Keys + {x.phase.id}
            && x.phase.number !in s.db.deliveries && db.deliveries.Keys == s.db.deliveries.Keys + {x.phase.number}
            && (x.call.sender, x.call.key) !in s.db.keys
            && db.keys.Keys == s.db.keys.Keys + {(x.call.sender, x.call.key)}
            && db.agents == s.db.agents
            && (forall a | a in s.db.attachments && a !in x.call.request.content.attachments ::
                  a in db.attachments && db.attachments[a] == s.db.attachments[a])
    ensures Permits(s.db, s.running[e.id].call.sender, s.running[e.id].phase.recipient)
  {
    StepRows(s, e);
    var x := s.running[e.id];
    assert Uncommitted(s, x.phase) && Admitted(s.db, x);
  }

  /** The attachments of a stored key row's payload are bound, so they bind again only if there are none. */
  lemma StoredPayloadBound(db: Db, k: (AgentId, Key))
    requires OneKeyEach(db) && AttachmentsMatch(db) && k in db.keys
    ensures Bindable(db, k.0, db.keys[k].request.content.attachments) <==> db.keys[k].request.content.attachments == []
  {
    var row := db.keys[k];
    assert row.message in db.messages && Describes(k, row, db.messages[row.message]);
    if row.request.content.attachments != [] {
      var a := row.request.content.attachments[0];
      assert a in db.messages[row.message].content.attachments;
      assert db.attachments[a].message == Some(row.message);
    }
  }

  /**
    A request that reaches its finish after another one committed under its key is answered by
    the stored row: the same message for an equal payload, a conflict for a different one. When
    the payload lists attachments, binding fails first: the earlier commit already holds them.
   */
  lemma RacingRetry(s: State, id: RequestId)
    requires Inv(s) && id in s.running && s.running[id].phase.Inserted?
    requires (s.running[id].call.sender, s.running[id].call.key) in s.db.keys
    ensures var row := s.db.keys[(s.running[id].call.sender, s.running[id].call.key)];
            var request := s.running[id].call.request;
            var outcome := FinishOutcome(s.db, s.running[id]);
            && (row.request == request ==>
                  (outcome == Sent(row.message, true) <==> request.content.attachments == [])
                  && (outcome == AttachmentUnavailable <==> request.content.attachments != []))
            && (row.request != request ==> outcome == KeyConflict || outcome == AttachmentUnavailable)
  {
    var call := s.running[id].call;
    if s.db.keys[(call.sender, call.key)].request == call.request {
      StoredPayloadBound(s.db, (call.sender, call.key));
    }
  }

  /** Finishing records exactly that outcome, and a racing retry changes no row. */
  lemma RacingRetryRecorded(s: State, id: RequestId)
    requires Inv(s) && id in s.running && s.running[id].phase.Inserted?
    requires (s.running[id].call.sender, s.running[id].call.key) in s.db.keys
    ensures var t := Step(s, Finish(id));
            id in t.done && t.done[id] == Done(s.running[id].call, FinishOutcome(s.db, s.running[id])) && t.db == s.db
  {
    assert Uncommitted(s, s.running[id].phase);
    var k := (s.running[id].call.sender, s.running[id].call.key);
    assert s.db.keys[k].message in s.db.messages;
  }

  /** A repeated call that starts after the first committed is always answered from the key row. */
  lemma LaterRetry(s: State, id: RequestId, call: Call)
    requires Inv(s) && id !in s.running && id !in s.done && call.sender in s.db.agents && ValidKey(call.key)
    requires (call.sender, call.key) in s.db.keys
    ensures var row := s.db.keys[(call.sender, call.key)];
            var t := Step(s, Begin(id, call));
            && t.db == s.db && id in t.done
            && t.done[id].outcome == (if row.request == call.request then Sent(row.message, true) else KeyConflict)
  {
  }

  // ----- The racing retry that is refused -----

  const CAROL := Agent(1, 1, true, Public, {})
  const DAVE := Agent(2, 1, true, Public, {})
  const PARCEL := Call(0, "k", Send(2, Content(0, 0, TypeMessage, Normal, [0])))

  const RACE_ROWS: seq<Event> := [Register(CAROL), Register(DAVE), Upload(0, 0)]
  const RACE_BEGUN: seq<Event> := [Begin(0, PARCEL), Begin(1, PARCEL), Resolve(0), Resolve(1)]
  const RACE_SETUP := RACE_ROWS + RACE_BEGUN
  const RACE_FIRST: seq<Event> := [Lock(0), Insert(0, 0), Finish(0)]
  const RACE_SECOND: seq<Event> := [Lock(1), Insert(1, 0), Finish(1)]

  lemma RaceRows() returns (s: State)
    ensures s == Run(EMPTY, RACE_ROWS)
    ensures s.db == Db(map[0 := CAROL, 1 := DAVE], map[], map[], map[], map[0 := Attachment(0, None)])
    ensures s.counter == 0 && s.nextAgent == 2 && s.nextMessage == 0 && s.locks == map[] && s.done == map[]
    ensures s.running == map[]
  {
    var s1 := Step(EMPTY, Register(CAROL));
    var s2 := Step(s1, Register(DAVE));
    assert s2.db.agents == map[0 := CAROL, 1 := DAVE];
    s := Step(s2, Upload(0, 0));
    Steps(EMPTY, RACE_ROWS, [EMPTY, s1, s2, s]);
  }

  lemma RaceBegun(s0: State) returns (s: State)
    requires s0.db.agents == map[0 := CAROL, 1 := DAVE] && s0.db.keys == map[]
    requires s0.running == map[] && s0.done == map[]
    ensures s == Run(s0, RACE_BEGUN) && s == s0.(running := s.running)
    ensures s.running == map[0 := Running(PARCEL, Resolved(ByAddress(2), None)),
      1 := Running(PARCEL, Resolved(ByAddress(2), None))]
  {
    assert ValidKey("k");
    var s1 := Step(s0, Begin(0, PARCEL));
    var s2 := Step(s1, Begin(1, PARCEL));
    assert s2.running == map[0 := Running(PARCEL, LookedUp), 1 := Running(PARCEL, LookedUp)];
    var s3 := Step(s2, Resolve(0));
    s := Step(s3, Resolve(1));
    Steps(s0, RACE_BEGUN, [s0, s1, s2, s3, s]);
  }

  /** After the setup, both calls have looked the key up and resolved the recipient. */
  lemma RaceStart() returns (s: State)
    ensures s == Run(EMPTY, RACE_SETUP)
    ensures s.db == Db(map[0 := CAROL, 1 := DAVE], map[], map[], map[], map[0 := Attachment(0, None)])
    ensures s.counter == 0 && s.nextAgent == 2 && s.nextMessage == 0 && s.locks == map[] && s.done == map[]
    ensures s.running == map[0 := Running(PARCEL, Resolved(ByAddress(2), None)),
      1 := Running(PARCEL, Resolved(ByAddress(2), None))]
  {
    var rows := RaceRows();
    s := RaceBegun(rows);
    RunSplit(EMPTY, RACE_ROWS, RACE_BEGUN);
  }

  /** A listed trace of states is a run. */
  lemma {:induction false} Steps(s: State, events: seq<Event>, trace: seq<State>)
    requires |trace| == |events| + 1 && trace[0] == s
    requires forall i | 0 <= i < |events| :: trace[i + 1] == Step(trace[i], events[i])
    ensures Run(s, events) == trace[|events|]
    decreases |events|
  {
    if events != [] {
      assert trace[1] == Step(trace[0], events[0]);
      forall i | 0 <= i < |events[1..]| ensures trace[1..][i + 1] == Step(trace[1..][i], events[1..][i]) {
        assert trace[(i + 1) + 1] == Step(trace[i + 1], events[i + 1]);
      }
      Steps(trace[1], events[1..], trace[1..]);
    }
  }

  lemma {:induction false} RunSplit(s: State, first: seq<Event>, second: seq<Event>)
    ensures Run(s, first + second) == Run(Run(s, first), second)
    decreases |first|
  {
    if first == [] {
      assert first + second == second;
    } else {
      assert (first + second)[1..] == first[1..] + second;
      RunSplit(Step(s, first[0]), first[1..], second);
    }
  }

  /** Both recipients' rows are free or this request's own, so the lock step succeeds. */
  lemma LockDave(s: State, id: RequestId)
    requires s.db.agents == map[0 := CAROL, 1 := DAVE] && s.nextAgent == 2 && 1 !in s.locks
    requires id in s.running && s.running[id].call.sender == 0 && s.running[id].phase == Resolved(ByAddress(2), None)
    ensures Step(s, Lock(id)) == Advance(s, id, Locked(1, None)).(locks := s.locks[1 := id])
  {
    assert Located(s.db, ByAddress(2), 1);
    assert s.db.agents[1] == DAVE && s.db.agents[0] == CAROL;
    assert Refusal(s.db, 0, 1) == None;
  }

  /**
    The racing case does happen: of two calls with one key, one payload and an attachment, the
    first is accepted and the second is told the attachment is unavailable.
   */
  lemma RacingRetryRefused()
    ensures var done := After(RACE_SETUP + RACE_FIRST + RACE_SECOND).done;
            && 0 in done && done[0] == Done(PARCEL, Sent(0, false))
            && 1 in done && done[1] == Done(PARCEL, AttachmentUnavailable)
  {
    var s := RaceStart();
    var t := RaceFirst(s);
    var u := RaceSecond(t);
    RunSplit(EMPTY, RACE_SETUP, RACE_FIRST);
    RunSplit(EMPTY, RACE_SETUP + RACE_FIRST, RACE_SECOND);
  }

  lemma RaceFirst(s0: State) returns (s3: State)
    requires s0.db == Db(map[0 := CAROL, 1 := DAVE], map[], map[], map[], map[0 := Attachment(0, None)])
    requires s0.counter == 0 && s0.nextAgent == 2 && s0.nextMessage == 0 && s0.locks == map[] && s0.done == map[]
    requires s0.running == map[0 := Running(PARCEL, Resolved(ByAddress(2), None)),
      1 := Running(PARCEL, Resolved(ByAddress(2), None))]
    ensures s3 == Run(s0, RACE_FIRST)
    ensures s3.db.agents == s0.db.agents && s3.nextAgent == 2 && 1 !in s3.locks
    ensures s3.running == map[1 := Running(PARCEL, Resolved(ByAddress(2), None))]
    ensures s3.done == map[0 := Done(PARCEL, Sent(0, false))]
    ensures s3.db.attachments == map[0 := Attachment(0, Some(0))]
  {
    LockDave(s0, 0);
    var s1 := Step(s0, Lock(0));
    var s2 := Step(s1, Insert(0, 0));
    assert s2.running[0] == Running(PARCEL, Inserted(1, None, 1, 0, 0));
    s3 := Step(s2, Finish(0));
    Steps(s0, RACE_FIRST, [s0, s1, s2, s3]);
  }

  lemma RaceSecond(s3: State) returns (s6: State)
    requires s3.db.agents == map[0 := CAROL, 1 := DAVE] && s3.nextAgent == 2 && 1 !in s3.locks
    requires s3.running == map[1 := Running(PARCEL, Resolved(ByAddress(2), None))]
    requires s3.done == map[0 := Done(PARCEL, Sent(0, false))]
    requires s3.db.attachments == map[0 := Attachment(0, Some(0))]
    ensures s6 == Run(s3, RACE_SECOND)
    ensures s6.done == map[0 := Done(PARCEL, Sent(0, false)), 1 := Done(PARCEL, AttachmentUnavailable)]
  {
    LockDave(s3, 1);
    var s4 := Step(s3, Lock(1));
    var s5 := Step(s4, Insert(1, 0));
    assert s5.running[1].call == PARCEL && s5.running[1].phase.Inserted?;
    assert 0 in PARCEL.request.content.attachments;
    assert !Bindable(s5.db, 0, PARCEL.request.content.attachments);
    s6 := Step(s5, Finish(1));
    Steps(s3, RACE_SECOND, [s3, s4, s5, s6]);
  }
}
