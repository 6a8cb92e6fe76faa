/** What holds in every run of the wake dispatcher, with any number of workers, crashes and races. */
module WakeSafety {
  import opened Prelude
  import opened Wake

  ghost predicate RowOk(max: nat, row: Delivery) {
    && row.attempts <= max
    && (row.status == Pending ==> row.attempts < max && !row.noticed)
    && row.attempts <= row.claims && row.calls <= row.claims && |row.starts| == row.claims
    && row.notices <= (if row.noticed then 1 else 0)
  }

  /** The row of a delivery in flight is not pending, so nobody else can claim it. */
  ghost predicate FlightOk(s: State, flight: Flight) {
    && flight.delivery in s.deliveries
    && var row := s.deliveries[flight.delivery];
    && row.status != Pending
    && flight.attempt == row.attempts && 1 <= flight.attempt
    && (row.noticed <==> flight.kind == Notification)
    && (!flight.called ==> row.calls < row.claims && row.notices == 0)
  }

  ghost predicate SeenOk(s: State, worker: Worker) {
    worker.seen.Some? ==>
      && worker.seen.value.delivery in s.deliveries
      && worker.seen.value.attempts < s.maxAttempts
      && worker.seen.value.attempts <= s.deliveries[worker.seen.value.delivery].claims
  }

  ghost predicate Core(s: State) {
    && s.maxAttempts >= 1
    && (forall d | d in s.deliveries :: RowOk(s.maxAttempts, s.deliveries[d]))
    && (forall f | f in s.flights :: f < s.nextFlight && FlightOk(s, s.flights[f]))
    && (forall w | w in s.workers :: SeenOk(s, s.workers[w]))
    && (forall f, g | f in s.flights && g in s.flights && f != g :: s.flights[f].delivery != s.flights[g].delivery)
  }

  // ----- Each event keeps the core -----

  /** Rows leave the pending state, or are new; counters and flights stay. */
  lemma RetiredCore(s: State, t: State)
    requires Core(s) && t.maxAttempts == s.maxAttempts && t.workers == s.workers
    requires t.flights == s.flights && t.nextFlight == s.nextFlight
    requires s.deliveries.Keys <= t.deliveries.Keys
    requires forall d | d in s.deliveries ::
               t.deliveries[d] == s.deliveries[d]
               || (t.deliveries[d] == s.deliveries[d].(status := t.deliveries[d].status)
                 && t.deliveries[d].status != Pending)
    requires forall d | d in t.deliveries && d !in s.deliveries :: RowOk(s.maxAttempts, t.deliveries[d])
    ensures Core(t)
  {
    forall f | f in t.flights ensures f < t.nextFlight && FlightOk(t, t.flights[f]) {
      assert FlightOk(s, s.flights[f]);
    }
    forall d | d in t.deliveries ensures RowOk(t.maxAttempts, t.deliveries[d]) {
      if d in s.deliveries {
        assert RowOk(s.maxAttempts, s.deliveries[d]);
      }
    }
    forall w | w in t.workers ensures SeenOk(t, t.workers[w]) {
      assert SeenOk(s, s.workers[w]);
    }
  }

  lemma FewerFlightsCore(s: State, t: State)
    requires Core(s) && t == s.(workers := t.workers, flights := t.flights)
    requires forall f | f in t.flights :: f in s.flights && t.flights[f] == s.flights[f]
    requires forall w | w in t.workers :: SeenOk(s, t.workers[w])
    ensures Core(t)
  {
    forall f | f in t.flights ensures f < t.nextFlight && FlightOk(t, t.flights[f]) {
      assert FlightOk(s, s.flights[f]);
    }
    forall w | w in t.workers ensures SeenOk(t, t.workers[w]) {
      assert SeenOk(s, t.workers[w]);
    }
  }

  lemma LookCore(s: State, w: WorkerId, d: DeliveryId)
    requires Core(s)
    ensures Core(LookStep(s, w, d))
  {
    if w in s.workers && d in s.workers[w].rows && d in s.deliveries {
      assert RowOk(s.maxAttempts, s.deliveries[d]);
      FewerFlightsCore(s, LookStep(s, w, d));
    }
  }

  lemma SkipCore(s: State, w: WorkerId)
    requires Core(s)
    ensures Core(SkipStep(s, w))
  {
    if Saw(s, w) {
      var t := s.(workers := Unsee(s, w));
      FewerFlightsCore(s, t);
      RetiredCore(t, SkipStep(s, w));
    }
  }

  lemma PostponeCore(s: State, w: WorkerId, clock: int)
    requires Core(s)
    ensures Core(PostponeStep(s, w, clock))
  {
    var t := PostponeStep(s, w, clock);
    if t != s {
      forall f | f in t.flights ensures f < t.nextFlight && FlightOk(t, t.flights[f]) {
        assert FlightOk(s, s.flights[f]);
      }
      var d := s.workers[w].seen.value.delivery;
      assert RowOk(s.maxAttempts, s.deliveries[d]);
      forall v | v in t.workers ensures SeenOk(t, t.workers[v]) {
        assert SeenOk(s, s.workers[v]);
      }
    }
  }

  lemma ClaimCore(s: State, w: WorkerId, clock: int)
    requires Core(s)
    ensures Core(ClaimStep(s, w, clock))
  {
    if Claimable(s, w, clock) {
      var t := ClaimStep(s, w, clock);
      var seen := s.workers[w].seen.value;
      var row := s.deliveries[seen.delivery];
      assert RowOk(s.maxAttempts, row) && SeenOk(s, s.workers[w]);
      if row.status != Pending {
        FewerFlightsCore(s, t);
      } else {
        forall f | f in s.flights ensures s.flights[f].delivery != seen.delivery {
          assert FlightOk(s, s.flights[f]);
        }
        forall f | f in t.flights ensures f < t.nextFlight && FlightOk(t, t.flights[f]) {
          if f in s.flights {
            assert FlightOk(s, s.flights[f]);
          }
        }
        forall v | v in t.workers ensures SeenOk(t, t.workers[v]) {
          assert SeenOk(s, s.workers[v]);
        }
      }
    }
  }

  lemma CallCore(s: State, f: FlightId)
    requires Core(s)
    ensures Core(CallStep(s, f))
  {
    var t := CallStep(s, f);
    if t != s {
      assert FlightOk(s, s.flights[f]);
      assert RowOk(s.maxAttempts, s.deliveries[s.flights[f].delivery]);
      forall g | g in t.flights ensures g < t.nextFlight && FlightOk(t, t.flights[g]) {
        assert FlightOk(s, s.flights[g]);
      }
      forall v | v in t.workers ensures SeenOk(t, t.workers[v]) {
        assert SeenOk(s, s.workers[v]);
      }
    }
  }

  lemma WriteCore(s: State, f: FlightId, outcome: Outcome)
    requires Core(s)
    ensures Core(WriteStep(s, f, outcome))
  {
    var t := WriteStep(s, f, outcome);
    if t != s {
      assert FlightOk(s, s.flights[f]);
      assert RowOk(s.maxAttempts, s.deliveries[s.flights[f].delivery]);
      forall g | g in t.flights ensures g < t.nextFlight && FlightOk(t, t.flights[g]) {
        assert FlightOk(s, s.flights[g]);
      }
      forall v | v in t.workers ensures SeenOk(t, t.workers[v]) {
        assert SeenOk(s, s.workers[v]);
      }
    }
  }

  lemma SettingsCore(s: State, e: Event)
    requires Core(s) && (e.Configure? || e.Disable?)
    ensures Core(Step(s, e))
  {
    RetiredCore(s, Step(s, e));
  }

  lemma ChannelCore(s: State, e: Event)
    requires Core(s) && (e.MarkChannel? || e.Test?)
    ensures Core(Step(s, e))
  {
    RetiredCore(s, Step(s, e));
  }

  lemma QueueCore(s: State, e: Event)
    requires Core(s) && (e.Enqueue? || e.Sweep? || e.StartBatch?)
    ensures Core(Step(s, e))
  {
    var t := Step(s, e);
    match e
    case Enqueue(_, _, _, _) => RetiredCore(s, t);
    case Sweep(_) => RetiredCore(s, t);
    case StartBatch(_, _, _) => FewerFlightsCore(s, t);
  }

  lemma StepCore(s: State, e: Event)
    requires Core(s)
    ensures Core(Step(s, e))
  {
    match e
    case Look(w, d) => LookCore(s, w, d);
    case Skip(w) => SkipCore(s, w);
    case Postpone(w, clock) => PostponeCore(s, w, clock);
    case Claim(w, clock) => ClaimCore(s, w, clock);
    case Call(f) => CallCore(s, f);
    case Write(f, outcome) => WriteCore(s, f, outcome);
    case Lose(_) => FewerFlightsCore(s, Step(s, e));
    case Crash(_) => FewerFlightsCore(s, Step(s, e));
    case _ =>
      if e.Enqueue? || e.Sweep? || e.StartBatch? {
        QueueCore(s, e);
      } else if e.Configure? || e.Disable? {
        SettingsCore(s, e);
      } else {
        ChannelCore(s, e);
      }
  }

  lemma {:induction false} RunCore(s: State, events: seq<Event>)
    requires Core(s)
    ensures Core(Run(s, events))
    decreases |events|
  {
    if events != [] {
      StepCore(s, events[0]);
      RunCore(Step(s, events[0]), events[1..]);
    }
  }

  lemma {:induction false} MaxFixed(s: State, events: seq<Event>)
    ensures Run(s, events).maxAttempts == s.maxAttempts
    decreases |events|
  {
    if events != [] {
      MaxFixed(Step(s, events[0]), events[1..]);
    }
  }

  lemma StartCore(max: nat)
    requires max >= 1
    ensures Core(Start(max))
  {
  }

  /**
    In every run at most one worker is in flight for a delivery, a pending delivery has nobody in
    flight and attempts left, the attempt count never exceeds the maximum, calls never exceed
    claims, and a notification channel has called for each delivery at most once.
   */
  lemma InEveryRun(max: nat, events: seq<Event>)
    requires max >= 1
    ensures var s := Run(Start(max), events);
            && (forall f, g | f in s.flights && g in s.flights && f != g ::
              s.flights[f].delivery != s.flights[g].delivery)
            && (forall f | f in s.flights ::
                  s.flights[f].delivery in s.deliveries && s.deliveries[s.flights[f].delivery].status != Pending)
            && (forall d | d in s.deliveries ::
                  var row := s.deliveries[d];
                  && row.attempts <= max && (row.status == Pending ==> row.attempts < max)
                  && row.calls <= row.claims && row.notices <= 1)
  {
    StartCore(max);
    MaxFixed(Start(max), events);
    RunCore(Start(max), events);
    var s := Run(Start(max), events);
    forall f | f in s.flights
      ensures s.flights[f].delivery in s.deliveries && s.deliveries[s.flights[f].delivery].status != Pending
    {
      assert FlightOk(s, s.flights[f]);
    }
    forall d | d in s.deliveries ensures RowOk(s.maxAttempts, s.deliveries[d]) {}
  }

  // ----- What the attempt count counts -----

  /** The event claims this delivery. */
  ghost predicate Claims(s: State, e: Event, d: DeliveryId) {
    && e.Claim? && Claimable(s, e.worker, e.clock)
    && s.workers[e.worker].seen.value.delivery == d && s.deliveries[d].status == Pending
  }

  ghost predicate Based(bases: seq<nat>) {
    forall i | 0 <= i < |bases| :: bases[i] <= i
  }

  /** The last claim, the last one before its worker's refresh, and so on: how many there are. */
  ghost function Chain(bases: seq<nat>): nat
    requires Based(bases)
    decreases |bases|
  {
    if bases == [] then 0 else 1 + Chain(bases[..bases[|bases| - 1]])
  }

  /** The claims this chain jumps over: each was made between a refresh and the claim that followed it. */
  ghost function Skipped(bases: seq<nat>): nat
    requires Based(bases)
    decreases |bases|
  {
    if bases == [] then 0
    else |bases| - 1 - bases[|bases| - 1] + Skipped(bases[..bases[|bases| - 1]])
  }

  lemma {:induction false} ChainAndSkipped(bases: seq<nat>)
    requires Based(bases)
    ensures Chain(bases) + Skipped(bases) == |bases|
    decreases |bases|
  {
    if bases != [] { ChainAndSkipped(bases[..bases[|bases| - 1]]); }
  }

  ghost predicate RowCounted(row: Delivery) {
    |row.bases| == row.claims && Based(row.bases) && row.attempts == Chain(row.bases)
  }

  ghost predicate SeenCounted(s: State, worker: Worker) {
    worker.seen.Some? ==>
      var seen := worker.seen.value;
      && seen.delivery in s.deliveries
      && var bases := s.deliveries[seen.delivery].bases;
      seen.since <= |bases| && Based(bases) && seen.attempts == Chain(bases[..seen.since])
  }

  ghost predicate Counted(s: State) {
    && (forall d | d in s.deliveries :: RowCounted(s.deliveries[d]))
    && (forall w | w in s.workers :: SeenCounted(s, s.workers[w]))
  }

  /** Only a claim of the row changes its counters. */
  ghost predicate SameCounters(before: Delivery, after: Delivery) {
    && after.attempts == before.attempts && after.claims == before.claims && after.bases == before.bases
    && after.starts == before.starts && after.clocks == before.clocks && after.noticed == before.noticed
  }

  lemma CountersKept(s: State, e: Event, d: DeliveryId)
    requires d in s.deliveries && !Claims(s, e, d)
    ensures d in Step(s, e).deliveries && SameCounters(s.deliveries[d], Step(s, e).deliveries[d])
  {
    match e
    case Configure(_, _, _) =>
    case Disable(_, _) =>
    case Sweep(_) =>
    case Skip(_) =>
    case Postpone(_, _) =>
    case Claim(_, _) =>
    case Call(_) =>
    case Write(_, _) =>
    case _ =>
  }

  lemma ClaimCounts(s: State, e: Event, d: DeliveryId)
    requires Claims(s, e, d)
    ensures d in s.deliveries && d in Step(s, e).deliveries
    ensures var row, after, seen := s.deliveries[d], Step(s, e).deliveries[d], s.workers[e.worker].seen.value;
            after.attempts == seen.attempts + 1 && after.claims == row.claims + 1
              && after.bases == row.bases + [seen.since]
  {
  }

  /** A new row starts with no attempt and no claim. */
  lemma NewRowsCounted(s: State, e: Event, d: DeliveryId)
    requires d !in s.deliveries && d in Step(s, e).deliveries
    ensures var row := Step(s, e).deliveries[d]; row.attempts == 0 == row.claims && row.bases == []
  {
    match e
    case Configure(_, _, _) =>
    case Disable(_, _) =>
    case Sweep(_) =>
    case Skip(_) =>
    case Postpone(_, _) =>
    case Call(_) =>
    case Write(_, _) =>
    case _ =>
  }

  /** What a worker holds after a step it held before, or its own refresh just read. */
  lemma SeenOrigin(s: State, e: Event, w: WorkerId)
    requires w in Step(s, e).workers && Step(s, e).workers[w].seen.Some?
    ensures var seen := Step(s, e).workers[w].seen.value;
            || (w in s.workers && s.workers[w].seen == Some(seen) && !(Refreshes(s, e) && e.worker == w)
                && !(e.Claim? && e.worker == w && Step(s, e) != s))
            || (Refreshes(s, e) && e.worker == w && Step(s, e).deliveries == s.deliveries
              && seen.delivery in s.deliveries
                && seen.attempts == s.deliveries[seen.delivery].attempts
                && seen.since == s.deliveries[seen.delivery].claims)
  {
    match e
    case Configure(_, _, _) =>
    case Disable(_, _) =>
    case Skip(_) =>
    case Look(_, _) =>
    case Claim(_, _) =>
    case Write(_, _) =>
    case _ =>
  }

  /** Claims are only ever appended. */
  lemma BasesGrow(s: State, e: Event, d: DeliveryId)
    requires d in s.deliveries
    ensures d in Step(s, e).deliveries && s.deliveries[d].bases <= Step(s, e).deliveries[d].bases
  {
    if Claims(s, e, d) { ClaimCounts(s, e, d); } else { CountersKept(s, e, d); }
  }

  lemma ChainExtended(bases: seq<nat>, since: nat)
    requires Based(bases) && since <= |bases|
    ensures Based(bases + [since]) && Chain(bases + [since]) == 1 + Chain(bases[..since])
  {
    assert (bases + [since])[..since] == bases[..since];
  }

  lemma StepRowCounted(s: State, e: Event, d: DeliveryId)
    requires Counted(s) && d in Step(s, e).deliveries
    ensures RowCounted(Step(s, e).deliveries[d])
  {
    if d !in s.deliveries {
      NewRowsCounted(s, e, d);
    } else {
      assert RowCounted(s.deliveries[d]);
      if Claims(s, e, d) {
        ClaimCounts(s, e, d);
        assert SeenCounted(s, s.workers[e.worker]);
        ChainExtended(s.deliveries[d].bases, s.workers[e.worker].seen.value.since);
      } else {
        CountersKept(s, e, d);
      }
    }
  }

  lemma StepSeenCounted(s: State, e: Event, w: WorkerId)
    requires Counted(s) && w in Step(s, e).workers
    requires forall d | d in Step(s, e).deliveries :: RowCounted(Step(s, e).deliveries[d])
    ensures SeenCounted(Step(s, e), Step(s, e).workers[w])
  {
    var t := Step(s, e);
    if t.workers[w].seen.Some? {
      SeenOrigin(s, e, w);
      var seen := t.workers[w].seen.value;
      if w in s.workers && s.workers[w].seen == Some(seen) {
        assert SeenCounted(s, s.workers[w]);
        BasesGrow(s, e, seen.delivery);
        assert t.deliveries[seen.delivery].bases[..seen.since] == s.deliveries[seen.delivery].bases[..seen.since];
      } else {
        assert RowCounted(s.deliveries[seen.delivery]);
        var bases := s.deliveries[seen.delivery].bases;
        assert bases[..|bases|] == bases;
      }
    }
  }

  lemma StepCounted(s: State, e: Event)
    requires Counted(s)
    ensures Counted(Step(s, e))
  {
    var t := Step(s, e);
    forall d | d in t.deliveries ensures RowCounted(t.deliveries[d]) { StepRowCounted(s, e, d); }
    forall w | w in t.workers ensures SeenCounted(t, t.workers[w]) { StepSeenCounted(s, e, w); }
  }

  lemma {:induction false} RunCounted(s: State, events: seq<Event>)
    requires Counted(s)
    ensures Counted(Run(s, events))
    decreases |events|
  {
    if events != [] {
      StepCounted(s, events[0]);
      RunCounted(Step(s, events[0]), events[1..]);
    }
  }

  /**
    In every run the attempts of a delivery are its claims less those made between a refresh and
    the claim that followed it on the chain that ends in the last claim. So its calls are within
    its attempts exactly when at least that many claims made no call.
   */
  lemma CallsWithinAttempts(max: nat, events: seq<Event>, d: DeliveryId)
    requires max >= 1 && d in Run(Start(max), events).deliveries
    ensures var row := Run(Start(max), events).deliveries[d];
            && |row.bases| == row.claims && Based(row.bases)
            && row.claims == row.attempts + Skipped(row.bases)
            && (row.calls <= row.attempts <==> Skipped(row.bases) <= row.claims - row.calls)
  {
    RunCounted(Start(max), events);
    var row := Run(Start(max), events).deliveries[d];
    assert RowCounted(row);
    ChainAndSkipped(row.bases);
  }

  // ----- When attempts are claims -----

  /** The event is a worker's refresh of a row of its batch. */
  ghost predicate Refreshes(s: State, e: Event) {
    e.Look? && e.worker in s.workers && e.delivery in s.workers[e.worker].rows && e.delivery in s.deliveries
  }

  /** The workers whose refresh of this delivery is older than its last claim. */
  ghost function Outdated(s: State, e: Event, d: DeliveryId, outdated: set<WorkerId>): set<WorkerId> {
    if Claims(s, e, d) then s.workers.Keys
    else if Refreshes(s, e) then outdated - {e.worker}
    else outdated
  }

  /** No claim of this delivery comes after another one that came after its worker's refresh. */
  ghost predicate NoStaleClaim(s: State, events: seq<Event>, d: DeliveryId, outdated: set<WorkerId>)
    decreases |events|
  {
    events == [] ||
    (!(Claims(s, events[0], d) && events[0].worker in outdated)
     && NoStaleClaim(Step(s, events[0]), events[1..], d, Outdated(s, events[0], d, outdated)))
  }

  /** The set tells a worker's stale refresh by what it counted. */
  ghost predicate Tracks(s: State, d: DeliveryId, outdated: set<WorkerId>) {
    forall w | w in s.workers && s.workers[w].seen.Some? && s.workers[w].seen.value.delivery == d ::
      d in s.deliveries && (w in outdated <==> s.workers[w].seen.value.since < s.deliveries[d].claims)
  }

  lemma StepTracks(s: State, e: Event, d: DeliveryId, outdated: set<WorkerId>)
    requires Counted(s) && Tracks(s, d, outdated)
    ensures Tracks(Step(s, e), d, Outdated(s, e, d, outdated))
  {
    var t := Step(s, e);
    forall w | w in t.workers && t.workers[w].seen.Some? && t.workers[w].seen.value.delivery == d
      ensures d in t.deliveries
      ensures w in Outdated(s, e, d, outdated) <==> t.workers[w].seen.value.since < t.deliveries[d].claims
    {
      SeenOrigin(s, e, w);
      if !(Refreshes(s, e) && e.worker == w) {
        assert SeenCounted(s, s.workers[w]) && RowCounted(s.deliveries[d]);
        if Claims(s, e, d) { ClaimCounts(s, e, d); } else { CountersKept(s, e, d); }
      } else {
        CountersKept(s, e, d);
      }
    }
  }

  ghost predicate Exact(s: State, d: DeliveryId) {
    d in s.deliveries ==> s.deliveries[d].attempts == s.deliveries[d].claims
  }

  /** A chain that reaches every claim jumped over none, so it ends in every prefix as well. */
  lemma ExactStep(s: State, e: Event, d: DeliveryId, outdated: set<WorkerId>)
    requires Counted(s) && Tracks(s, d, outdated)
    ensures Exact(Step(s, e), d) <==> Exact(s, d) && !(Claims(s, e, d) && e.worker in outdated)
  {
    if d !in s.deliveries {
      if d in Step(s, e).deliveries { NewRowsCounted(s, e, d); }
    } else if Claims(s, e, d) {
      ClaimCounts(s, e, d);
      var row, seen := s.deliveries[d], s.workers[e.worker].seen.value;
      assert RowCounted(row) && SeenCounted(s, s.workers[e.worker]);
      ChainAndSkipped(row.bases);
      ChainAndSkipped(row.bases[..seen.since]);
      assert row.bases[..|row.bases|] == row.bases;
    } else {
      CountersKept(s, e, d);
    }
  }

  lemma {:induction false} RunExact(s: State, events: seq<Event>, d: DeliveryId, outdated: set<WorkerId>)
    requires Counted(s) && Tracks(s, d, outdated)
    ensures Exact(Run(s, events), d) <==> Exact(s, d) && NoStaleClaim(s, events, d, outdated)
    decreases |events|
  {
    if events != [] {
      StepCounted(s, events[0]);
      StepTracks(s, events[0], d, outdated);
      ExactStep(s, events[0], d, outdated);
      RunExact(Step(s, events[0]), events[1..], d, Outdated(s, events[0], d, outdated));
    }
  }

  /**
    For each delivery by itself: its attempts equal its claims if and only if no claim of it came
    between another worker's refresh of it and that worker's claim.
   */
  lemma AttemptsAreClaims(max: nat, events: seq<Event>, d: DeliveryId)
    requires d in Run(Start(max), events).deliveries
    ensures var row := Run(Start(max), events).deliveries[d];
            row.attempts == row.claims <==> NoStaleClaim(Start(max), events, d, {})
  {
    RunExact(Start(max), events, d, {});
  }

  /** Then its calls never exceed its attempts, and these never the maximum, whatever happens to other deliveries. */
  lemma CallsBounded(max: nat, events: seq<Event>, d: DeliveryId)
    requires max >= 1 && NoStaleClaim(Start(max), events, d, {}) && d in Run(Start(max), events).deliveries
    ensures var row := Run(Start(max), events).deliveries[d];
            row.calls <= row.attempts <= max
  {
    MaxFixed(Start(max), events);
    StartCore(max);
    AttemptsAreClaims(max, events, d);
    RunCore(Start(max), events);
    assert RowOk(Run(Start(max), events).maxAttempts, Run(Start(max), events).deliveries[d]);
  }

  // ----- A refresh that goes stale before its claim -----

  const QUEUED: seq<Event> :=
    [Configure(0, Aily, true), Enqueue(0, 0, 0, 0), Enqueue(1, 0, 1, 0), StartBatch(0, 0, {0, 1})]
  const FIRST_BATCH: seq<Event> := [Look(0, 1), Claim(0, 0), Call(0), Write(0, Success), Look(0, 0)]
  const SECOND_BATCH: seq<Event> :=
    [StartBatch(1, 0, {0}), Look(1, 0), Claim(1, 0), Call(1), Write(1, Failure)]
  const STALE_CLAIM: seq<Event> := [Claim(0, 0), Call(2)]

  lemma {:induction false} Steps(s: State, events: seq<Event>, trace: seq<State>)
    requires |trace| == |events| + 1 && trace[0] == s
    requires forall i | 0 <= i < |events| :: trace[i + 1] == Step(trace[i], events[i])
    ensures Run(s, events) == trace[|events|]
    decreases |events|
  {
    if events != [] {
      assert trace[1] == Step(trace[0], events[0]);
      forall i | 0 <= i < |events[1..]| ensures trace[1..][i + 1] == Step(trace[1..][i], events[1..][i]) {
        assert trace[(i + 1) + 1] == Step(trace[i + 1], events[i + 1]);
      }
      Steps(trace[1], events[1..], trace[1..]);
    }
  }

  lemma {:induction false} RunSplit(s: State, first: seq<Event>, second: seq<Event>)
    ensures Run(s, first + second) == Run(Run(s, first), second)
    decreases |first|
  {
    if first == [] {
      assert first + second == second;
    } else {
      assert (first + second)[1..] == first[1..] + second;
      RunSplit(Step(s, first[0]), first[1..], second);
    }
  }

  ghost predicate Holding(s: State, seen: int, next: int) {
    && s.maxAttempts == 5
    && 0 in s.channels && s.channels[0].kind == Aily && s.channels[0].connector
    && 0 in s.deliveries && s.deliveries[0].channel == 0
    && 0 in s.workers && s.workers[0].seen == Some(Seen(0, 0, Aily, 0))
    && s.flights == map[] && s.nextFlight == next
    && s.deliveries[0].calls == seen && s.deliveries[0].attempts == seen && s.deliveries[0].status == Pending
    && s.deliveries[0].availableAt <= 0 + seen * Backoff(1)
  }

  lemma Queued() returns (s: State)
    ensures s == Run(Start(5), QUEUED) && s.maxAttempts == 5
    ensures s.channels == map[0 := Channel(Aily, true, Configured, None, [])]
    ensures s.deliveries == map[0 := Delivery(0, 0, Pending, 0, 0, None, 0, 0, false, 0, [], [], []),
                                1 := Delivery(0, 1, Pending, 0, 0, None, 0, 0, false, 0, [], [], [])]
    ensures s.workers == map[0 := Worker(0, {0, 1}, None)] && s.flights == map[] && s.nextFlight == 0
  {
    var s0 := Start(5);
    var s1 := Step(s0, QUEUED[0]);
    var s2 := Step(s1, QUEUED[1]);
    var s3 := Step(s2, QUEUED[2]);
    s := Step(s3, QUEUED[3]);
    Steps(s0, QUEUED, [s0, s1, s2, s3, s]);
  }

  lemma FirstBatch(s0: State) returns (s: State)
    requires s0.maxAttempts == 5 && s0.channels == map[0 := Channel(Aily, true, Configured, None, [])]
    requires s0.deliveries == map[0 := Delivery(0, 0, Pending, 0, 0, None, 0, 0, false, 0, [], [], []),
                                  1 := Delivery(0, 1, Pending, 0, 0, None, 0, 0, false, 0, [], [], [])]
    requires s0.workers == map[0 := Worker(0, {0, 1}, None)] && s0.flights == map[] && s0.nextFlight == 0
    ensures s == Run(s0, FIRST_BATCH) && Holding(s, 0, 1)
  {
    var s1 := Step(s0, FIRST_BATCH[0]);
    assert s1.workers[0] == Worker(0, {0}, Some(Seen(1, 0, Aily, 0)));
    var s2 := Step(s1, FIRST_BATCH[1]);
    assert s2.flights == map[0 := Flight(0, 1, Aily, 1, 0, false)];
    var s3 := Step(s2, FIRST_BATCH[2]);
    var s4 := Step(s3, FIRST_BATCH[3]);
    assert s4.flights == map[];
    s := Step(s4, FIRST_BATCH[4]);
    Steps(s0, FIRST_BATCH, [s0, s1, s2, s3, s4, s]);
  }

  lemma SecondBatch(s: State) returns (t: State)
    requires Holding(s, 0, 1)
    ensures t == Run(s, SECOND_BATCH) && Holding(t, 1, 2)
  {
    var s1 := Step(s, SECOND_BATCH[0]);
    assert s1.workers[1] == Worker(0, {0}, None);
    var s2 := Step(s1, SECOND_BATCH[1]);
    var s3 := Step(s2, SECOND_BATCH[2]);
    assert s3.flights == map[1 := Flight(1, 0, Aily, 1, 0, false)];
    var s4 := Step(s3, SECOND_BATCH[3]);
    t := Step(s4, SECOND_BATCH[4]);
    assert t.flights == map[];
    Steps(s, SECOND_BATCH, [s, s1, s2, s3, s4, t]);
  }

  lemma StaleClaim(t: State) returns (u: State)
    requires Holding(t, 1, 2)
    ensures u == Run(t, STALE_CLAIM)
    ensures 0 in u.deliveries && u.deliveries[0].calls == 2 && u.deliveries[0].attempts == 1
  {
    var t1 := Step(t, STALE_CLAIM[0]);
    assert t1.flights[2].delivery == 0 && t1.deliveries[0].attempts == 1;
    u := Step(t1, STALE_CLAIM[1]);
    Steps(t, STALE_CLAIM, [t, t1, u]);
  }

  /**
    The bound does need its condition: when a refresh reads the row before another worker claims
    it, and the claim comes after that worker's failed outcome, two calls count as one attempt.
   */
  lemma StaleClaimUndercounts()
    ensures var s := Run(Start(5), QUEUED + FIRST_BATCH + SECOND_BATCH + STALE_CLAIM);
            0 in s.deliveries && s.deliveries[0].calls == 2 && s.deliveries[0].attempts == 1
  {
    var s := Queued();
    s := FirstBatch(s);
    s := SecondBatch(s);
    s := StaleClaim(s);
    RunSplit(Start(5), QUEUED, FIRST_BATCH);
    RunSplit(Start(5), QUEUED + FIRST_BATCH, SECOND_BATCH);
    RunSplit(Start(5), QUEUED + FIRST_BATCH + SECOND_BATCH, STALE_CLAIM);
  }
}
