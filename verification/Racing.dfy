/** How a call is answered when another one commits under its key after it looked the key up. */
module Racing {
  import opened Prelude
  import opened Mailbox
  import opened MailboxSafety
  import opened Idempotency

  function KeyOf(call: Call): (AgentId, Key) {
    (call.sender, call.key)
  }

  // ----- Key rows and parents -----

  lemma StepKeyRow(s: State, e: Event, k: (AgentId, Key))
    requires k in s.db.keys
    ensures k in Step(s, e).db.keys && Step(s, e).db.keys[k] == s.db.keys[k]
  {
    StepRows(s, e);
  }

  /** A reply may be sent to this parent by this sender. */
  ghost predicate ParentOk(db: Db, sender: AgentId, request: Request) {
    request.Reply? ==>
      && Visible(db, sender, request.parent)
      && (request.content.kind == TypeResult ==> db.messages[request.parent].content.kind == TypeTask)
  }

  lemma ParentKept(before: Db, after: Db, sender: AgentId, request: Request)
    requires Grows(before, after) && ParentOk(before, sender, request)
    ensures ParentOk(after, sender, request)
  {
    if request.Reply? && before.messages[request.parent].sender != sender {
      var n :| n in before.deliveries && before.deliveries[n].message == request.parent
          && before.deliveries[n].recipient == sender;
      assert after.deliveries[n].message == request.parent && after.deliveries[n].recipient == sender;
    }
  }

  ghost predicate CallOk(db: Db, x: Running) {
    !x.phase.LookedUp? ==> ParentOk(db, x.call.sender, x.call.request)
  }

  /** Stored requests, and those under way that were resolved, have a parent they may reply to. */
  ghost predicate ParentsOk(s: State) {
    && (forall k | k in s.db.keys :: ParentOk(s.db, k.0, s.db.keys[k].request))
    && (forall id | id in s.running :: CallOk(s.db, s.running[id]))
  }

  /** A request that is past its resolution was so before, or was resolved by this step. */
  lemma RunningOrigin(s: State, e: Event, id: RequestId)
    requires id in Step(s, e).running && !Step(s, e).running[id].phase.LookedUp?
    ensures id in s.running && s.running[id].call == Step(s, e).running[id].call
    ensures s.running[id].phase.LookedUp? ==>
              Step(s, e).db == s.db && ParentOk(s.db, s.running[id].call.sender, s.running[id].call.request)
  {
    match e
    case Begin(_, _) =>
    case Resolve(_) =>
    case Lock(_) =>
    case Insert(_, _) =>
    case Finish(_) =>
    case Crash(_) =>
    case _ =>
  }

  lemma KeyOrigin(s: State, e: Event, k: (AgentId, Key))
    requires k in Step(s, e).db.keys && k !in s.db.keys
    ensures e.Finish? && e.id in s.running && s.running[e.id].phase.Inserted?
    ensures KeyOf(s.running[e.id].call) == k && Step(s, e).db.keys[k].request == s.running[e.id].call.request
  {
    StepRows(s, e);
  }

  lemma StepParents(s: State, e: Event)
    requires NumbersFresh(s) && ParentsOk(s)
    ensures ParentsOk(Step(s, e))
  {
    var t := Step(s, e);
    StepGrows(s, e);
    forall k | k in t.db.keys ensures ParentOk(t.db, k.0, t.db.keys[k].request) {
      if k in s.db.keys {
        StepKeyRow(s, e, k);
        ParentKept(s.db, t.db, k.0, s.db.keys[k].request);
      } else {
        KeyOrigin(s, e, k);
        assert CallOk(s.db, s.running[e.id]);
        ParentKept(s.db, t.db, k.0, s.running[e.id].call.request);
      }
    }
    forall id | id in t.running && !t.running[id].phase.LookedUp?
      ensures ParentOk(t.db, t.running[id].call.sender, t.running[id].call.request)
    {
      RunningOrigin(s, e, id);
      assert CallOk(s.db, s.running[id]);
      ParentKept(s.db, t.db, s.running[id].call.sender, s.running[id].call.request);
    }
  }

  /** Resolving an equal request again succeeds: its parent is still there. */
  lemma EqualResolves(s: State, id: RequestId)
    requires NumbersFresh(s) && OneDeliveryEach(s.db) && id in s.running && s.running[id].phase.LookedUp?
    requires ParentOk(s.db, s.running[id].call.sender, s.running[id].call.request)
    ensures id in ResolveStep(s, id).running
  {
    var request := s.running[id].call.request;
    if request.Reply? {
      assert HasDelivery(s.db, request.parent);
      var n :| n in s.db.deliveries && s.db.deliveries[n].message == request.parent;
      assert n <= s.counter;
    }
  }

  // ----- The last step of a call -----

  /** The state and the event with which a running call ends. */
  ghost function Ending(s: State, events: seq<Event>, id: RequestId): (State, Event)
    requires id in s.running && id !in Run(s, events).running
    decreases |events|
  {
    if id !in Step(s, events[0]).running then (s, events[0]) else Ending(Step(s, events[0]), events[1..], id)
  }

  /** The recipient a call goes to, once resolved. */
  function Target(s: State, id: RequestId): Option<AgentId>
    requires id in s.running
  {
    match s.running[id].phase
    case LookedUp => None
    case Resolved(locator, _) => Find(s.db, locator, s.nextAgent)
    case Locked(recipient, _) => Some(recipient)
    case Inserted(recipient, _, _, _, _) => Some(recipient)
  }

  /** The recipient exists, is active, and its policy admits the sender. */
  predicate Allowed(s: State, id: RequestId)
    requires id in s.running
  {
    Target(s, id).Some? && Permits(s.db, s.running[id].call.sender, Target(s, id).value)
  }

  /** The answer of a call that is not allowed. */
  ghost predicate RefusedBy(s: State, id: RequestId, outcome: Outcome)
    requires id in s.running
  {
    var found, sender := Target(s, id), s.running[id].call.sender;
    if found.None? || found.value !in s.db.agents || !s.db.agents[found.value].active then outcome == RecipientNotFound
    else
      && sender in s.db.agents && Refusal(s.db, sender, found.value).Some?
      && outcome == Denied(Refusal(s.db, sender, found.value).value)
  }

  /** What ending with this step answers, when the key row is already stored. */
  ghost predicate AnsweredBy(s: State, e: Event, id: RequestId, outcome: Outcome)
    requires id in s.running && KeyOf(s.running[id].call) in s.db.keys
  {
    var call := s.running[id].call;
    var row := s.db.keys[KeyOf(call)];
    if e.Crash? then outcome == Lost
    else if s.running[id].phase.LookedUp? then
      row.request != call.request && (outcome == MessageNotFound || outcome == InvalidTransition)
    else if !Allowed(s, id) then RefusedBy(s, id, outcome)
    else if !Bindable(s.db, call.sender, call.request.content.attachments) then outcome == AttachmentUnavailable
    else outcome == if row.request == call.request then Sent(row.message, true) else KeyConflict
  }

  lemma LockEnds(s: State, id: RequestId)
    requires id in s.running && s.running[id].phase.Resolved? && id !in LockStep(s, id).running
    ensures var t := LockStep(s, id);
            id in t.done && t.done[id].call == s.running[id].call && !Allowed(s, id)
              && RefusedBy(s, id, t.done[id].outcome)
  {
  }

  lemma FinishEnds(s: State, id: RequestId)
    requires StillPermitted(s) && id in s.running && s.running[id].phase.Inserted?
      && KeyOf(s.running[id].call) in s.db.keys
    ensures var t := FinishStep(s, id);
            && id in t.done && t.done[id] == Done(s.running[id].call, FinishOutcome(s.db, s.running[id]))
            && Allowed(s, id)
  {
    assert Admitted(s.db, s.running[id]);
  }

  lemma ResolveStops(s: State, id: RequestId)
    requires id in s.running && s.running[id].phase.LookedUp? && id !in ResolveStep(s, id).running
    ensures var t := ResolveStep(s, id);
            && id in t.done && t.done[id].call == s.running[id].call
            && (t.done[id].outcome == MessageNotFound || t.done[id].outcome == InvalidTransition)
  {
  }

  lemma ResolveDiffers(s: State, id: RequestId)
    requires NumbersFresh(s) && OneDeliveryEach(s.db) && ParentsOk(s)
    requires id in s.running && s.running[id].phase.LookedUp? && KeyOf(s.running[id].call) in s.db.keys
    requires id !in ResolveStep(s, id).running
    ensures s.db.keys[KeyOf(s.running[id].call)].request != s.running[id].call.request
  {
    var call := s.running[id].call;
    assert ParentOk(s.db, KeyOf(call).0, s.db.keys[KeyOf(call)].request);
    if s.db.keys[KeyOf(call)].request == call.request { EqualResolves(s, id); }
  }

  /** The four steps a call can end with. */
  lemma EndsWith(s: State, e: Event, id: RequestId)
    requires id in s.running && id !in Step(s, e).running
    ensures || (e == Resolve(id) && s.running[id].phase.LookedUp?)
            || (e == Lock(id) && s.running[id].phase.Resolved?)
            || (e == Finish(id) && s.running[id].phase.Inserted?)
            || e == Crash(id)
  {
    match e
    case Begin(_, _) =>
    case Resolve(_) =>
    case Lock(_) =>
    case Insert(_, _) =>
    case Finish(_) =>
    case Crash(_) =>
    case _ =>
  }

  lemma StepEnds(s: State, e: Event, id: RequestId)
    requires NumbersFresh(s) && StillPermitted(s) && OneDeliveryEach(s.db) && ParentsOk(s)
    requires id in s.running && KeyOf(s.running[id].call) in s.db.keys && id !in Step(s, e).running
    ensures id in Step(s, e).done && Step(s, e).done[id].call == s.running[id].call
    ensures AnsweredBy(s, e, id, Step(s, e).done[id].outcome)
  {
    EndsWith(s, e, id);
    if e.Resolve? {
      ResolveStops(s, id);
      ResolveDiffers(s, id);
    } else if e.Lock? {
      LockEnds(s, id);
    } else if e.Finish? {
      FinishEnds(s, id);
    }
  }

  lemma StepRunning(s: State, e: Event, id: RequestId)
    requires id in s.running && id in Step(s, e).running
    ensures Step(s, e).running[id].call == s.running[id].call
  {
    match e
    case Begin(_, _) =>
    case Resolve(_) =>
    case Lock(_) =>
    case Insert(_, _) =>
    case Finish(_) =>
    case Crash(_) =>
    case _ =>
  }

  lemma {:induction false} DoneForGood(s: State, events: seq<Event>, id: RequestId)
    requires s.running.Keys !! s.done.Keys && id in s.done
    ensures id in Run(s, events).done && Run(s, events).done[id] == s.done[id]
    decreases |events|
  {
    if events != [] {
      StepAnsweredOnce(s, events[0]);
      DoneForGood(Step(s, events[0]), events[1..], id);
    }
  }

  /** The call's answer and the state of its last step. */
  ghost predicate Outcomes(s: State, events: seq<Event>, id: RequestId)
    requires id in s.running && KeyOf(s.running[id].call) in s.db.keys && id !in Run(s, events).running
  {
    var (t, e) := Ending(s, events, id);
    var k, u := KeyOf(s.running[id].call), Run(s, events);
    && id in t.running && t.running[id].call == s.running[id].call && k in t.db.keys && t.db.keys[k] == s.db.keys[k]
    && id in u.done && u.done[id].call == s.running[id].call && AnsweredBy(t, e, id, u.done[id].outcome)
  }

  lemma {:induction false} RunEnds(s: State, events: seq<Event>, id: RequestId)
    requires Inv(s) && ParentsOk(s) && id in s.running && KeyOf(s.running[id].call) in s.db.keys
    requires id !in Run(s, events).running
    ensures Outcomes(s, events, id)
    decreases |events|
  {
    var t := Step(s, events[0]);
    StepInv(s, events[0]);
    if id !in t.running {
      StepEnds(s, events[0], id);
      DoneForGood(t, events[1..], id);
    } else {
      StepRunning(s, events[0], id);
      StepKeyRow(s, events[0], KeyOf(s.running[id].call));
      StepParents(s, events[0]);
      RunEnds(t, events[1..], id);
    }
  }

  lemma {:induction false} RunParents(s: State, events: seq<Event>)
    requires Inv(s) && ParentsOk(s)
    ensures Inv(Run(s, events)) && ParentsOk(Run(s, events))
    decreases |events|
  {
    if events != [] {
      StepInv(s, events[0]);
      StepParents(s, events[0]);
      RunParents(Step(s, events[0]), events[1..]);
    }
  }

  /**
    A call is under way, in whatever phase, when another one has committed under its key. When it
    ends, `t` and `e` being its last state and step, it is answered with the stored message if and
    only if it did not crash, carries the same payload, lists no attachments, and is still allowed
    to deliver to its recipient. In all other cases: a crash loses it, a different payload may
    fail to resolve, a recipient that is gone or refuses says so, attachments are unavailable, or
    the key conflicts.
   */
  lemma RacingCall(before: seq<Event>, events: seq<Event>, id: RequestId)
    requires var s := Run(EMPTY, before);
             id in s.running && KeyOf(s.running[id].call) in s.db.keys && id !in Run(s, events).running
    ensures var s := Run(EMPTY, before);
            var call := s.running[id].call;
            var row := s.db.keys[KeyOf(call)];
            var (t, e) := Ending(s, events, id);
            var u := Run(s, events);
            && Outcomes(s, events, id)
            && (u.done[id].outcome == Sent(row.message, true) <==>
                  !e.Crash? && row.request == call.request && call.request.content.attachments == [] && Allowed(t, id))
  {
    EmptyInv();
    RunParents(EMPTY, before);
    RacingFrom(Run(EMPTY, before), events, id);
  }

  /** Such an answer is the stored message exactly under those four conditions. */
  lemma StoredAnswer(s: State, e: Event, id: RequestId, outcome: Outcome)
    requires OneKeyEach(s.db) && AttachmentsMatch(s.db) && id in s.running && KeyOf(s.running[id].call) in s.db.keys
    requires AnsweredBy(s, e, id, outcome)
    ensures var call := s.running[id].call;
            var row := s.db.keys[KeyOf(call)];
            outcome == Sent(row.message, true) <==>
              !e.Crash? && row.request == call.request && call.request.content.attachments == [] && Allowed(s, id)
  {
    StoredPayloadBound(s.db, KeyOf(s.running[id].call));
  }

  lemma RacingFrom(s: State, events: seq<Event>, id: RequestId)
    requires Inv(s) && ParentsOk(s) && id in s.running && KeyOf(s.running[id].call) in s.db.keys
    requires id !in Run(s, events).running
    ensures Outcomes(s, events, id)
    ensures var call := s.running[id].call;
            var row := s.db.keys[KeyOf(call)];
            var (t, e) := Ending(s, events, id);
            Run(s, events).done[id].outcome == Sent(row.message, true) <==>
              !e.Crash? && row.request == call.request && call.request.content.attachments == [] && Allowed(t, id)
  {
    RunEnds(s, events, id);
    var end := Ending(s, events, id);
    assert OneKeyEach(end.0.db) && AttachmentsMatch(end.0.db) by { EndingInv(s, events, id); }
    StoredAnswer(end.0, end.1, id, Run(s, events).done[id].outcome);
  }

  lemma {:induction false} EndingInv(s: State, events: seq<Event>, id: RequestId)
    requires Inv(s) && id in s.running && id !in Run(s, events).running
    ensures Inv(Ending(s, events, id).0)
    decreases |events|
  {
    StepInv(s, events[0]);
    if id in Step(s, events[0]).running { EndingInv(Step(s, events[0]), events[1..], id); }
  }

  // ----- An equal racing call without attachments that is refused -----

  const LETTER := Call(0, "k", Send(2, Content(0, 0, TypeMessage, Normal, [])))
  const LETTER_SETUP: seq<Event> :=
    [Register(CAROL), Register(DAVE), Begin(0, LETTER), Begin(1, LETTER), Resolve(0), Resolve(1)]
  const LETTER_FIRST: seq<Event> := [Lock(0), Insert(0, 0), Finish(0)]
  const LETTER_SECOND: seq<Event> := [SetAccess(1, Private, {}), Lock(1)]

  ghost predicate LetterReady(s: State) {
    && s.db == Db(map[0 := CAROL, 1 := DAVE], map[], map[], map[], map[])
    && s.counter == 0 && s.nextAgent == 2 && s.nextMessage == 0 && s.locks == map[] && s.done == map[]
    && s.running == map[0 := Running(LETTER, Resolved(ByAddress(2), None)),
      1 := Running(LETTER, Resolved(ByAddress(2), None))]
  }

  lemma LetterStart() returns (s: State)
    ensures s == Run(EMPTY, LETTER_SETUP) && LetterReady(s)
  {
    assert ValidKey("k");
    var s1 := Step(EMPTY, Register(CAROL));
    var s2 := Step(s1, Register(DAVE));
    assert s2.db.agents == map[0 := CAROL, 1 := DAVE];
    var s3 := Step(s2, Begin(0, LETTER));
    var s4 := Step(s3, Begin(1, LETTER));
    assert s4.running == map[0 := Running(LETTER, LookedUp), 1 := Running(LETTER, LookedUp)];
    var s5 := Step(s4, Resolve(0));
    s := Step(s5, Resolve(1));
    Steps(EMPTY, LETTER_SETUP, [EMPTY, s1, s2, s3, s4, s5, s]);
  }

  lemma LetterFirst(s0: State) returns (s3: State)
    requires LetterReady(s0)
    ensures s3 == Run(s0, LETTER_FIRST)
    ensures s3.db.agents == s0.db.agents && s3.nextAgent == 2 && 1 !in s3.locks
    ensures s3.running == map[1 := Running(LETTER, Resolved(ByAddress(2), None))]
    ensures s3.done == map[0 := Done(LETTER, Sent(0, false))]
    ensures (0, "k") in s3.db.keys && s3.db.keys[(0, "k")] == KeyRow(LETTER.request, 0)
  {
    LockDave(s0, 0);
    var s1 := Step(s0, Lock(0));
    assert s1.running[0] == Running(LETTER, Locked(1, None));
    var s2 := Step(s1, Insert(0, 0));
    assert s2.running[0] == Running(LETTER, Inserted(1, None, 1, 0, 0));
    s3 := Step(s2, Finish(0));
    Steps(s0, LETTER_FIRST, [s0, s1, s2, s3]);
  }

  lemma LetterSecond(s3: State) returns (s5: State)
    requires s3.db.agents == map[0 := CAROL, 1 := DAVE] && s3.nextAgent == 2 && 1 !in s3.locks
    requires s3.running == map[1 := Running(LETTER, Resolved(ByAddress(2), None))]
    requires s3.done == map[0 := Done(LETTER, Sent(0, false))]
    ensures s5 == Run(s3, LETTER_SECOND)
    ensures s5.done == map[0 := Done(LETTER, Sent(0, false)), 1 := Done(LETTER, Denied(PrivatePolicy))]
  {
    var s4 := Step(s3, SetAccess(1, Private, {}));
    assert s4.db.agents[1] == DAVE.(policy := Private, rules := {});
    assert Located(s4.db, ByAddress(2), 1) && Find(s4.db, ByAddress(2), 2) == Some(1);
    assert Refusal(s4.db, 0, 1) == Some(PrivatePolicy);
    s5 := Step(s4, Lock(1));
    Steps(s3, LETTER_SECOND, [s3, s4, s5]);
  }

  /**
    Of two calls with one key, one payload and no attachment the first is accepted, the recipient
    then turns private, and the second, past its key lookup already, is denied.
   */
  lemma RacingRetryDenied()
    ensures var s := Run(EMPTY, LETTER_SETUP + LETTER_FIRST + LETTER_SECOND);
            && 0 in s.done && s.done[0] == Done(LETTER, Sent(0, false))
            && 1 in s.done && s.done[1] == Done(LETTER, Denied(PrivatePolicy))
  {
    var s := LetterStart();
    var t := LetterFirst(s);
    var u := LetterSecond(t);
    RunSplit(EMPTY, LETTER_SETUP, LETTER_FIRST);
    RunSplit(EMPTY, LETTER_SETUP + LETTER_FIRST, LETTER_SECOND);
  }
}
