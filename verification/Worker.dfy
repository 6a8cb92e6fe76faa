/** The connector worker: an at-least-once consumer with a durable cursor, stopped anywhere and restarted. */
module Worker {
  import opened Prelude
  import opened Mailbox
  import opened MailboxSafety
  import opened Paging

  const NO_FILTER := Filters(None, None, None, None, None)

  datatype StopPoint = AtFetch | AtRead | AtHandler | AtAck | AtSave

  /** One iteration's surroundings: what others do before each server call, and where the run stops, if it does. */
  datatype Surroundings = Surroundings(
    beforeFetch: seq<Event>, beforeRead: seq<Event>, beforeHandler: seq<Event>,
    beforeAck: seq<Event>, beforeSave: seq<Event>, stop: Option<StopPoint>, at: int)

  datatype WorkerError = InvalidConfiguration | Stopped(point: StopPoint)

  ghost predicate Mine(db: Db, agent: AgentId, n: nat) {
    n in db.deliveries && db.deliveries[n].recipient == agent
  }

  /** Everything at or below the saved cursor has been handled and acked. */
  ghost predicate CursorCovered(db: Db, agent: AgentId, saved: nat, handled: seq<nat>) {
    forall n: nat | Mine(db, agent, n) && n <= saved :: n in handled && db.deliveries[n].status == Acked
  }

  /** Handler returns happen in inbox order, with repetitions but without gaps. */
  ghost predicate HandledInOrder(db: Db, agent: AgentId, handled: seq<nat>) {
    && (forall i, j | 0 <= i < j < |handled| :: handled[i] <= handled[j])
    && (forall h: nat | h in handled :: Mine(db, agent, h))
    && (forall h: nat, n: nat | h in handled && Mine(db, agent, n) && n <= h :: n in handled)
  }

  /** Nothing handled lies above the next delivery to fetch. */
  ghost predicate NotAhead(db: Db, agent: AgentId, saved: nat, handled: seq<nat>) {
    forall h: nat, n: nat | h in handled && Mine(db, agent, n) && saved < n :: h <= n
  }

  ghost predicate Consistent(s: State, agent: AgentId, saved: nat, handled: seq<nat>) {
    && Inv(s)
    && Boundary(s.db, agent, saved)
    && CursorCovered(s.db, agent, saved, handled)
    && HandledInOrder(s.db, agent, handled)
    && NotAhead(s.db, agent, saved, handled)
  }

  // What one event may do to an agent's deliveries: keep them, keep acks, and add above them.

  lemma StepMine(s: State, e: Event, agent: AgentId, n: nat)
    requires Inv(s) && Mine(s.db, agent, n)
    ensures Mine(Step(s, e).db, agent, n)
  {
    StepGrows(s, e);
  }

  lemma StepAcked(s: State, e: Event, n: nat)
    requires NumbersFresh(s) && n in s.db.deliveries && s.db.deliveries[n].status == Acked
    ensures n in Step(s, e).db.deliveries ==> Step(s, e).db.deliveries[n].status == Acked
  {
    StepRows(s, e);
  }

  lemma StepAbove(s: State, e: Event, agent: AgentId, n: nat, m: nat)
    requires Inv(s) && Mine(s.db, agent, n) && Mine(Step(s, e).db, agent, m) && !Mine(s.db, agent, m)
    ensures n < m
  {
    if m in s.db.deliveries {
      StepGrows(s, e);
    } else {
      CommitOrderIsNumberOrder(s, e, n, m);
    }
  }

  /** An agent's deliveries as one step leaves them. */
  ghost predicate MineKept(before: Db, after: Db, agent: AgentId) {
    && (forall n: nat | Mine(before, agent, n) :: Mine(after, agent, n))
    && (forall n: nat | Mine(before, agent, n) && before.deliveries[n].status == Acked ::
      after.deliveries[n].status == Acked)
    && (forall n: nat, m: nat | Mine(before, agent, n) && Mine(after, agent, m) && !Mine(before, agent, m) :: n < m)
    && (forall m: nat | Mine(after, agent, m) :: 0 < m)
  }

  lemma StepMineKept(s: State, e: Event, agent: AgentId)
    requires Inv(s)
    ensures MineKept(s.db, Step(s, e).db, agent)
  {
    var t := Step(s, e);
    assert forall m: nat | Mine(t.db, agent, m) :: 0 < m by {
      assert Inv(t) by { StepInv(s, e); }
      Positive(t, agent);
    }
    forall n: nat | Mine(s.db, agent, n)
      ensures Mine(t.db, agent, n)
      ensures s.db.deliveries[n].status == Acked ==> t.db.deliveries[n].status == Acked
    {
      StepMine(s, e, agent, n);
      if s.db.deliveries[n].status == Acked {
        StepAcked(s, e, n);
      }
    }
    forall n: nat, m: nat | Mine(s.db, agent, n) && Mine(t.db, agent, m) && !Mine(s.db, agent, m) ensures n < m {
      StepAbove(s, e, agent, n, m);
    }
  }

  lemma Positive(s: State, agent: AgentId)
    requires Inv(s)
    ensures forall m: nat | Mine(s.db, agent, m) :: 0 < m
  {
  }

  lemma ConsistentKept(before: Db, after: Db, agent: AgentId, saved: nat, handled: seq<nat>)
    requires MineKept(before, after, agent) && Boundary(before, agent, saved)
    requires CursorCovered(before, agent, saved, handled)
    requires HandledInOrder(before, agent, handled) && NotAhead(before, agent, saved, handled)
    ensures Boundary(after, agent, saved)
    ensures CursorCovered(after, agent, saved, handled)
    ensures HandledInOrder(after, agent, handled) && NotAhead(after, agent, saved, handled)
  {
    assert saved == 0 || Mine(before, agent, saved);
  }

  lemma StepConsistent(s: State, e: Event, agent: AgentId, saved: nat, handled: seq<nat>)
    requires Consistent(s, agent, saved, handled)
    ensures Consistent(Step(s, e), agent, saved, handled)
  {
    var t := Step(s, e);
    assert Inv(t) by { StepInv(s, e); }
    assert MineKept(s.db, t.db, agent) by { StepMineKept(s, e, agent); }
    ConsistentKept(s.db, t.db, agent, saved, handled);
  }

  lemma {:induction false} RunConsistent(s: State, events: seq<Event>, agent: AgentId, saved: nat, handled: seq<nat>)
    requires Consistent(s, agent, saved, handled)
    ensures Consistent(Run(s, events), agent, saved, handled)
    decreases |events|
  {
    if events != [] {
      StepConsistent(s, events[0], agent, saved, handled);
      RunConsistent(Step(s, events[0]), events[1..], agent, saved, handled);
    }
  }

  // ----- One iteration -----

  /** The page holds the agent's next delivery above the cursor, if there is one. */
  ghost predicate NextOnPage(db: Db, agent: AgentId, saved: nat, page: Page) {
    && (page.items == [] ==> forall n: nat | Mine(db, agent, n) :: n <= saved)
    && (page.items != [] ==>
          var n := page.items[0];
          && page.items == [n] && page.next == Some(n)
          && Mine(db, agent, n) && saved < n
          && (forall m: nat | Mine(db, agent, m) && saved < m :: n <= m)
          && (!page.more ==> forall m: nat | Mine(db, agent, m) :: m <= n))
  }

  lemma ListedNext(s: State, agent: AgentId, saved: nat)
    requires forall m: nat | Mine(s.db, agent, m) :: m <= s.counter && Selected(s.db, agent, NO_FILTER, m)
    ensures NextOnPage(s.db, agent, saved, ListInbox(s, agent, NO_FILTER, 1, saved))
  {
    var rows := Numbers(s.db, agent, NO_FILTER, saved, s.counter);
    forall m: nat | Mine(s.db, agent, m) && saved < m ensures m in rows && rows[0] <= m {
    }
  }

  lemma NextPage(s: State, agent: AgentId, saved: nat)
    requires Inv(s)
    ensures NextOnPage(s.db, agent, saved, ListInbox(s, agent, NO_FILTER, 1, saved))
  {
    forall m: nat | Mine(s.db, agent, m) ensures m <= s.counter && Selected(s.db, agent, NO_FILTER, m) {
      assert m <= s.counter && s.db.deliveries[m].message in s.db.messages;
    }
    ListedNext(s, agent, saved);
  }

  /** The handler returned for the next delivery above the cursor. */
  lemma HandlerReturned(s: State, agent: AgentId, saved: nat, handled: seq<nat>, n: nat)
    requires Consistent(s, agent, saved, handled)
    requires Mine(s.db, agent, n) && saved < n
    requires forall m: nat | Mine(s.db, agent, m) && saved < m :: n <= m
    ensures Consistent(s, agent, saved, handled + [n])
  {
    OneMoreHandled(s.db, agent, saved, handled, n);
  }

  lemma OneMoreHandled(db: Db, agent: AgentId, saved: nat, handled: seq<nat>, n: nat)
    requires CursorCovered(db, agent, saved, handled) && HandledInOrder(db, agent, handled)
      && NotAhead(db, agent, saved, handled)
    requires Mine(db, agent, n) && saved < n
    requires forall m: nat | Mine(db, agent, m) && saved < m :: n <= m
    ensures CursorCovered(db, agent, saved, handled + [n])
    ensures HandledInOrder(db, agent, handled + [n]) && NotAhead(db, agent, saved, handled + [n])
  {
    var longer := handled + [n];
    forall h: nat, m: nat | h in longer && Mine(db, agent, m) && m <= h ensures m in longer {
      if h == n && m != n {
        assert m <= saved && m in handled;
      } else if h in handled {
        assert m in handled;
      }
    }
    forall i, j | 0 <= i < j < |longer| ensures longer[i] <= longer[j] {
      if j == |handled| {
        assert handled[i] in handled;
      }
    }
  }

  /** Saving the cursor of a delivery that is handled and acked. */
  lemma CursorSaved(s: State, agent: AgentId, saved: nat, handled: seq<nat>, n: nat)
    requires Consistent(s, agent, saved, handled)
    requires Mine(s.db, agent, n) && saved < n && n in handled && s.db.deliveries[n].status == Acked
    requires forall m: nat | Mine(s.db, agent, m) && saved < m :: n <= m
    ensures Consistent(s, agent, n, handled)
  {
  }

  /** `n` is still the next delivery above the cursor, and has been acked if it had been. */
  ghost predicate Next(db: Db, agent: AgentId, saved: nat, n: nat, message: MessageId) {
    && Mine(db, agent, n) && saved < n && db.deliveries[n].message == message
    && forall m: nat | Mine(db, agent, m) && saved < m :: n <= m
  }

  lemma StepNext(s: State, e: Event, agent: AgentId, saved: nat, n: nat, message: MessageId)
    requires Inv(s) && Next(s.db, agent, saved, n, message)
    ensures Next(Step(s, e).db, agent, saved, n, message)
    ensures s.db.deliveries[n].status == Acked ==> Step(s, e).db.deliveries[n].status == Acked
  {
    var after := Step(s, e).db;
    assert Grows(s.db, after) by { StepGrows(s, e); }
    assert MineKept(s.db, after, agent) by { StepMineKept(s, e, agent); }
  }

  lemma {:induction false} RunNext(s: State, events: seq<Event>, agent: AgentId, saved: nat, n: nat, message: MessageId)
    requires Inv(s) && Next(s.db, agent, saved, n, message)
    ensures Next(Run(s, events).db, agent, saved, n, message)
    ensures s.db.deliveries[n].status == Acked ==> Run(s, events).db.deliveries[n].status == Acked
    decreases |events|
  {
    if events != [] {
      var t := Step(s, events[0]);
      assert Inv(t) by { StepInv(s, events[0]); }
      StepNext(s, events[0], agent, saved, n, message);
      RunNext(t, events[1..], agent, saved, n, message);
    }
  }

  lemma {:induction false} RunMine(s: State, events: seq<Event>, agent: AgentId, n: nat)
    requires Inv(s) && Mine(s.db, agent, n)
    ensures Mine(Run(s, events).db, agent, n)
    decreases |events|
  {
    if events != [] {
      var t := Step(s, events[0]);
      assert Inv(t) by { StepInv(s, events[0]); }
      StepMine(s, events[0], agent, n);
      RunMine(t, events[1..], agent, n);
    }
  }

  /** A read or ack of the agent's own delivery leaves it read or acked. */
  lemma OwnTransition(s: State, agent: AgentId, n: nat, message: MessageId, command: Command, at: int)
    requires Inv(s) && Mine(s.db, agent, n) && s.db.deliveries[n].message == message
    ensures var after := Step(s, Transition(agent, message, command, at)).db.deliveries;
            n in after && (command == AckCommand ==> after[n].status == Acked)
  {
    assert Staged(s.db.deliveries[n]);
  }

  // ----- The worker -----

  /** The world after the given events and nothing else, with every worker fact carried along. */
  method Meanwhile(world: State, events: seq<Event>, agent: AgentId, ghost saved: nat, ghost handled: seq<nat>,
                   ghost next: Option<(nat, MessageId)>)
    returns (later: State)
    requires Consistent(world, agent, saved, handled)
    requires next.Some? ==> Next(world.db, agent, saved, next.value.0, next.value.1)
    ensures later == Run(world, events) && Consistent(later, agent, saved, handled)
    ensures forall n: nat | Mine(world.db, agent, n) :: Mine(later.db, agent, n)
    ensures next.Some? ==>
              && Next(later.db, agent, saved, next.value.0, next.value.1)
              && (world.db.deliveries[next.value.0].status == Acked ==>
                later.db.deliveries[next.value.0].status == Acked)
  {
    later := Run(world, events);
    RunConsistent(world, events, agent, saved, handled);
    forall n: nat | Mine(world.db, agent, n) ensures Mine(later.db, agent, n) { RunMine(world, events, agent, n); }
    if next.Some? {
      RunNext(world, events, agent, saved, next.value.0, next.value.1);
    }
  }

  /** Read the fetched message unless it was read already. */
  method ReadFirst(fetched: State, agent: AgentId, ghost saved: nat, ghost handled: seq<nat>, n: nat,
      message: MessageId,
                   fetchedStatus: Status, around: Surroundings)
    returns (world: State, status: Status)
    requires Consistent(fetched, agent, saved, handled) && Next(fetched.db, agent, saved, n, message)
    requires fetchedStatus == Acked ==> fetched.db.deliveries[n].status == Acked
    ensures Consistent(world, agent, saved, handled) && Next(world.db, agent, saved, n, message)
    ensures forall m: nat | Mine(fetched.db, agent, m) :: Mine(world.db, agent, m)
    ensures status == Acked ==> world.db.deliveries[n].status == Acked
  {
    status := fetchedStatus;
    world := fetched;
    if status == Delivered {
      world := Meanwhile(world, [Transition(agent, message, ReadCommand, around.at)], agent, saved, handled,
        Some((n, message)));
      status := world.db.deliveries[n].status;
    }
    world := Meanwhile(world, around.beforeHandler, agent, saved, handled, Some((n, message)));
  }

  /** Ack the handled message unless the copy in hand already says acked. */
  method AckAfter(handledWorld: State, agent: AgentId, ghost saved: nat, ghost handled: seq<nat>, n: nat,
      message: MessageId,
                  status: Status, around: Surroundings)
    returns (world: State)
    requires Consistent(handledWorld, agent, saved, handled) && Next(handledWorld.db, agent, saved, n, message)
    requires status == Acked ==> handledWorld.db.deliveries[n].status == Acked
    ensures Consistent(world, agent, saved, handled) && Next(world.db, agent, saved, n, message)
    ensures forall m: nat | Mine(handledWorld.db, agent, m) :: Mine(world.db, agent, m)
    ensures world.db.deliveries[n].status == Acked
  {
    world := handledWorld;
    if status != Acked {
      OwnTransition(world, agent, n, message, AckCommand, around.at);
      world := Meanwhile(world, [Transition(agent, message, AckCommand, around.at)], agent, saved, handled,
        Some((n, message)));
    }
    world := Meanwhile(world, around.beforeSave, agent, saved, handled, Some((n, message)));
  }

  /** Read, hand over, ack: the body of one iteration, which may stop before any of its calls. */
  method Process(fetched: State, agent: AgentId, ghost saved: nat, ghost handled0: seq<nat>, n: nat, message: MessageId,
                 around: Surroundings)
    returns (world: State, ghost handled: seq<nat>, stopped: Option<StopPoint>)
    requires Consistent(fetched, agent, saved, handled0) && Next(fetched.db, agent, saved, n, message)
    ensures Consistent(world, agent, saved, handled) && Next(world.db, agent, saved, n, message)
    ensures forall m: nat | Mine(fetched.db, agent, m) :: Mine(world.db, agent, m)
    ensures handled == handled0 || handled == handled0 + [n]
    ensures stopped == None ==> handled == handled0 + [n] && world.db.deliveries[n].status == Acked
  {
    handled := handled0;
    var fetchedStatus := fetched.db.deliveries[n].status;
    world := Meanwhile(fetched, around.beforeRead, agent, saved, handled, Some((n, message)));
    if around.stop == Some(AtRead) {
      return world, handled, Some(AtRead);
    }
    var status;
    world, status := ReadFirst(world, agent, saved, handled, n, message, fetchedStatus, around);
    if around.stop == Some(AtHandler) {
      return world, handled, Some(AtHandler);
    }
    HandlerReturned(world, agent, saved, handled, n);
    handled := handled + [n];
    world := Meanwhile(world, around.beforeAck, agent, saved, handled, Some((n, message)));
    if around.stop == Some(AtAck) {
      return world, handled, Some(AtAck);
    }
    world := AckAfter(world, agent, saved, handled, n, message, status, around);
    stopped := if around.stop == Some(AtSave) then Some(AtSave) else None;
  }

  /**
    One run of the worker. Whatever others do between its server calls, wherever it stops, and
    whether or not the handler returns, the cursor it leaves behind covers only handled and acked
    deliveries. A run that ends by itself with fewer than the requested messages has drained
    every delivery committed before it started.
   */
  method RunOnce(start: State, agent: AgentId, saved0: nat, ghost handled0: seq<nat>, maxMessages: int,
                 surroundings: nat -> Surroundings)
    returns (world: State, saved: nat, ghost handled: seq<nat>, outcome: Result<nat, WorkerError>)
    requires Consistent(start, agent, saved0, handled0)
    ensures Consistent(world, agent, saved, handled)
    ensures saved0 <= saved && handled0 <= handled
    ensures outcome.Err? && outcome.error == InvalidConfiguration <==> !(1 <= maxMessages <= 100)
    ensures !(1 <= maxMessages <= 100) ==> world == start && saved == saved0
    ensures outcome.Ok? ==> outcome.value <= maxMessages && |handled| == |handled0| + outcome.value
    ensures outcome.Ok? && outcome.value < maxMessages ==> forall n: nat | Mine(start.db, agent, n) :: n <= saved
  {
    world, saved, handled := start, saved0, handled0;
    if maxMessages < 1 || maxMessages > 100 {
      return world, saved, handled, Err(InvalidConfiguration);
    }
    var cursor := saved;
    var processed := 0;
    while processed < maxMessages
      invariant Consistent(world, agent, saved, handled)
      invariant cursor == saved && saved0 <= saved && handled0 <= handled
      invariant 0 <= processed <= maxMessages && |handled| == |handled0| + processed
      invariant forall n: nat | Mine(start.db, agent, n) :: Mine(world.db, agent, n)
    {
      var around := surroundings(processed);
      world := Meanwhile(world, around.beforeFetch, agent, saved, handled, None);
      if around.stop == Some(AtFetch) {
        return world, saved, handled, Err(Stopped(AtFetch));
      }
      var page := ListInbox(world, agent, NO_FILTER, 1, cursor);
      NextPage(world, agent, saved);
      if page.items == [] {
        break;
      }
      var n := page.items[0];
      var message := world.db.deliveries[n].message;

      var stopped;
      world, handled, stopped := Process(world, agent, saved, handled, n, message, around);
      if stopped.Some? {
        return world, saved, handled, Err(Stopped(stopped.value));
      }
      CursorSaved(world, agent, saved, handled, n);
      cursor := page.next.value;
      saved := cursor;
      processed := processed + 1;
      if !page.more {
        break;
      }
    }
    outcome := Ok(processed);
  }

  datatype Launch = Launch(meanwhile: seq<Event>, maxMessages: int, surroundings: nat -> Surroundings)

  /** How one run of the worker began and ended. */
  datatype Launched = Launched(start: State, end: State, cursor: nat, outcome: Result<nat, WorkerError>)

  function EndOf(runs: seq<Launched>): State {
    if runs == [] then EMPTY else runs[|runs| - 1].end
  }

  function CursorOf(runs: seq<Launched>): nat {
    if runs == [] then 0 else runs[|runs| - 1].cursor
  }

  /** The run began where the one before it had ended, after whatever happened in between. */
  ghost predicate Continues(launches: seq<Launch>, runs: seq<Launched>, i: nat)
    requires i < |runs| <= |launches|
  {
    runs[i].start == Run(EndOf(runs[..i]), launches[i].meanwhile)
  }

  /** Everything up to the cursor is acked, and if the run drained the inbox it passed all that was there. */
  ghost predicate CoveredAndDrained(agent: AgentId, launch: Launch, run: Launched) {
    && (forall n: nat | Mine(run.end.db, agent, n) && n <= run.cursor :: run.end.db.deliveries[n].status == Acked)
    && (run.outcome.Ok? && run.outcome.value < launch.maxMessages ==>
          forall n: nat | Mine(run.start.db, agent, n) :: n <= run.cursor)
  }

  ghost predicate Chained(agent: AgentId, launches: seq<Launch>, runs: seq<Launched>) {
    && |runs| <= |launches|
    && forall i | 0 <= i < |runs| :: Continues(launches, runs, i) && CoveredAndDrained(agent, launches[i], runs[i])
  }

  lemma ChainedMore(agent: AgentId, launches: seq<Launch>, runs: seq<Launched>, run: Launched)
    requires Chained(agent, launches, runs) && |runs| < |launches|
    requires run.start == Run(EndOf(runs), launches[|runs|].meanwhile)
      && CoveredAndDrained(agent, launches[|runs|], run)
    ensures Chained(agent, launches, runs + [run])
  {
    assert (runs + [run])[..|runs|] == runs;
    forall j | 0 <= j < |runs| ensures Continues(launches, runs + [run], j) {
      assert Continues(launches, runs, j) && (runs + [run])[..j] == runs[..j];
    }
  }

  ghost predicate Progress(agent: AgentId, launches: seq<Launch>, runs: seq<Launched>, handled: seq<nat>) {
    Consistent(EndOf(runs), agent, CursorOf(runs), handled) && Chained(agent, launches, runs)
  }

  lemma NoRunsYet(agent: AgentId, launches: seq<Launch>)
    ensures Progress(agent, launches, [], [])
  {
    EmptyInv();
  }

  method RunLaunch(world: State, agent: AgentId, saved0: nat, ghost handled0: seq<nat>, launch: Launch)
    returns (run: Launched, ghost handled: seq<nat>)
    requires Consistent(world, agent, saved0, handled0)
    ensures Consistent(run.end, agent, run.cursor, handled) && handled0 <= handled
    ensures run.start == Run(world, launch.meanwhile) && CoveredAndDrained(agent, launch, run)
  {
    var start := Meanwhile(world, launch.meanwhile, agent, saved0, handled0, None);
    var end, cursor, outcome;
    end, cursor, handled, outcome := RunOnce(start, agent, saved0, handled0, launch.maxMessages, launch.surroundings);
    run := Launched(start, end, cursor, outcome);
  }

  method NextLaunch(agent: AgentId, launches: seq<Launch>, before: seq<Launched>, ghost handled0: seq<nat>)
    returns (runs: seq<Launched>, ghost handled: seq<nat>)
    requires Progress(agent, launches, before, handled0) && |before| < |launches|
    ensures Progress(agent, launches, runs, handled) && |runs| == |before| + 1
  {
    var run;
    run, handled := RunLaunch(EndOf(before), agent, CursorOf(before), handled0, launches[|before|]);
    ChainedMore(agent, launches, before, run);
    runs := before + [run];
  }

  /**
    Any number of runs, each resuming from the cursor the previous one saved, starting with the
    empty database: at every restart the saved cursor covers only handled and acked deliveries,
    and a run that ended by itself with fewer than the requested messages drained everything
    committed before it started.
   */
  method Restarted(agent: AgentId, launches: seq<Launch>) returns (ghost handled: seq<nat>, runs: seq<Launched>)
    ensures |runs| == |launches| && Chained(agent, launches, runs)
    ensures Inv(EndOf(runs)) && CursorCovered(EndOf(runs).db, agent, CursorOf(runs), handled)
    ensures HandledInOrder(EndOf(runs).db, agent, handled)
  {
    handled, runs := [], [];
    NoRunsYet(agent, launches);
    while |runs| < |launches|
      invariant Progress(agent, launches, runs, handled)
    {
      runs, handled := NextLaunch(agent, launches, runs, handled);
    }
  }
}
