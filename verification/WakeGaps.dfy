/** How long a single dispatcher really waits between two claims of one delivery. */
module WakeGaps {
  import opened Prelude
  import opened Wake
  import opened WakeSafety
  import opened WakeTiming

  // ----- The gap between the claims -----

  /** The clock readings of a dispatcher: at the start of a batch, and at each reservation or claim. */
  function Reading(e: Event): Option<int> {
    match e
    case StartBatch(_, now, _) => Some(now)
    case Sweep(now) => Some(now)
    case Postpone(_, clock) => Some(clock)
    case Claim(_, clock) => Some(clock)
    case _ => None
  }

  function LaterReading(from: int, e: Event): int {
    if Reading(e).Some? then Reading(e).value else from
  }

  /** The readings of the run, from a first one on, never go back. */
  ghost predicate Monotone(from: int, events: seq<Event>)
    decreases |events|
  {
    events == [] || (from <= LaterReading(from, events[0]) && Monotone(LaterReading(from, events[0]), events[1..]))
  }

  ghost function LastReading(from: int, events: seq<Event>): int
    decreases |events|
  {
    if events == [] then from else LastReading(LaterReading(from, events[0]), events[1..])
  }

  /** Every claim was made at its batch clock or later, and up to now. */
  ghost predicate RowClocked(row: Delivery, latest: int) {
    && |row.clocks| == |row.starts|
    && forall i | 0 <= i < |row.clocks| :: row.starts[i] <= row.clocks[i] <= latest
  }

  ghost predicate Clocked(s: State, latest: int) {
    && (forall d | d in s.deliveries :: RowClocked(s.deliveries[d], latest))
    && (forall w | w in s.workers :: s.workers[w].now <= latest)
  }

  lemma WorkersClocked(s: State, e: Event, latest: int, w: WorkerId)
    requires Clocked(s, latest) && latest <= LaterReading(latest, e) && w in Step(s, e).workers
    ensures Step(s, e).workers[w].now <= LaterReading(latest, e)
  {
    match e
    case StartBatch(_, _, _) =>
    case Look(_, _) =>
    case Skip(_) =>
    case Postpone(_, _) =>
    case Claim(_, _) =>
    case Crash(_) =>
    case _ =>
  }

  lemma NewRowClocked(s: State, e: Event, d: DeliveryId)
    requires d !in s.deliveries && d in Step(s, e).deliveries
    ensures Step(s, e).deliveries[d].clocks == [] && Step(s, e).deliveries[d].starts == []
  {
    match e
    case Configure(_, _, _) =>
    case Disable(_, _) =>
    case Sweep(_) =>
    case Skip(_) =>
    case Postpone(_, _) =>
    case Call(_) =>
    case Write(_, _) =>
    case _ =>
  }

  lemma StepClocked(s: State, e: Event, latest: int)
    requires Clocked(s, latest) && latest <= LaterReading(latest, e)
    ensures Clocked(Step(s, e), LaterReading(latest, e))
  {
    var t := Step(s, e);
    forall w | w in t.workers ensures t.workers[w].now <= LaterReading(latest, e) { WorkersClocked(s, e, latest, w); }
    forall d | d in t.deliveries ensures RowClocked(t.deliveries[d], LaterReading(latest, e)) {
      if d !in s.deliveries {
        NewRowClocked(s, e, d);
      } else {
        assert RowClocked(s.deliveries[d], latest);
        if !Claims(s, e, d) { CountersKept(s, e, d); }
      }
    }
  }

  lemma {:induction false} RunClocked(s: State, events: seq<Event>, latest: int)
    requires Clocked(s, latest) && Monotone(latest, events)
    ensures Clocked(Run(s, events), LastReading(latest, events))
    decreases |events|
  {
    if events != [] {
      StepClocked(s, events[0], latest);
      RunClocked(Step(s, events[0]), events[1..], LaterReading(latest, events[0]));
    }
  }

  /**
    With one dispatcher and a clock that never goes back, claim k + 1 comes at least 5 * 2^k
    seconds after claim k, less the time claim k came after the start of its batch.
   */
  lemma ClaimGaps(max: nat, events: seq<Event>, w: WorkerId, from: int, d: DeliveryId, k: nat)
    requires Sole(w, events) && Monotone(from, events) && d in Run(Start(max), events).deliveries
    requires 0 < k < |Run(Start(max), events).deliveries[d].clocks|
    ensures var row := Run(Start(max), events).deliveries[d];
            && |row.starts| == |row.clocks| && row.starts[k - 1] <= row.clocks[k - 1]
            && row.clocks[k] - row.clocks[k - 1] >= 5 * Power2(k) * SECOND - (row.clocks[k - 1] - row.starts[k - 1])
  {
    RunAlone(Start(max), events, w);
    RunClocked(Start(max), events, from);
    var row := Run(Start(max), events).deliveries[d];
    assert BacksOff(row) && RowClocked(row, LastReading(from, events));
  }

  // ----- When the full gap is certain -----

  ghost predicate FullGap(s: State, d: DeliveryId, k: nat) {
    d in s.deliveries && (0 < k < |s.deliveries[d].clocks| ==>
      s.deliveries[d].clocks[k] - s.deliveries[d].clocks[k - 1] >= Backoff(k))
  }

  /** Whatever this dispatcher does next, claim k + 1 waits the full time after claim k. */
  ghost predicate GapCertain(s: State, w: WorkerId, from: int, d: DeliveryId, k: nat) {
    forall more: seq<Event> | Sole(w, more) && Monotone(from, more) :: FullGap(Run(s, more), d, k)
  }

  /** A row that may not be claimed again: it was sent as a notification, or its attempts are used up. */
  ghost predicate Finished(row: Delivery, max: nat) {
    row.noticed || row.attempts >= max
  }

  lemma {:induction false} FinishedStays(s: State, events: seq<Event>, d: DeliveryId)
    requires Core(s) && d in s.deliveries && Finished(s.deliveries[d], s.maxAttempts)
    ensures d in Run(s, events).deliveries && Run(s, events).deliveries[d].clocks == s.deliveries[d].clocks
    decreases |events|
  {
    if events != [] {
      assert RowOk(s.maxAttempts, s.deliveries[d]);
      CountersKept(s, events[0], d);
      StepCore(s, events[0]);
      MaxFixed(s, [events[0]]);
      OneEvent(s, events[0]);
      FinishedStays(Step(s, events[0]), events[1..], d);
    }
  }

  lemma OneEvent(s: State, e: Event)
    ensures Run(s, [e]) == Step(s, e)
  {
    assert [e][1..] == [];
  }

  lemma {:induction false} ClocksExtend(s: State, events: seq<Event>, d: DeliveryId)
    requires d in s.deliveries
    ensures d in Run(s, events).deliveries && s.deliveries[d].clocks <= Run(s, events).deliveries[d].clocks
    ensures |s.deliveries[d].starts| == |s.deliveries[d].clocks| ==>
      s.deliveries[d].starts <= Run(s, events).deliveries[d].starts
    decreases |events|
  {
    if events != [] {
      var e := events[0];
      if Claims(s, e, d) { assert d in Step(s, e).deliveries; } else { CountersKept(s, e, d); }
      ClocksExtend(Step(s, e), events[1..], d);
    }
  }

  // A continuation after a claim: it fails, its batch crashes, and the next batch claims at once.

  function Retry(f: FlightId, c: ChannelId, w: WorkerId, d: DeliveryId, at: int): seq<Event> {
    [Call(f), Write(f, Failure), Crash(w), Configure(c, Aily, true), StartBatch(w, at, {d}), Look(w, d), Claim(w, at)]
  }

  /** The claim is about to be made of an Aily row that has attempts left. */
  ghost predicate AboutToClaim(s: State, w: WorkerId, clock: int) {
    && Claimable(s, w, clock)
    && var seen := s.workers[w].seen.value;
    s.deliveries[seen.delivery].status == Pending && seen.kind == Aily && seen.attempts + 1 < s.maxAttempts
  }

  /** One row of a state after the claim failed. */
  lemma FailedRow(s: State, w: WorkerId, clock: int) returns (t: State)
    requires AboutToClaim(s, w, clock) && s.nextFlight !in s.flights
    ensures var seen, f := s.workers[w].seen.value, s.nextFlight;
            var row, now := s.deliveries[seen.delivery], s.workers[w].now;
            && t == Step(Step(ClaimStep(s, w, clock), Call(f)), Write(f, Failure))
            && seen.delivery in t.deliveries && t.deliveries[seen.delivery].status == Pending
            && t.deliveries[seen.delivery].availableAt == now + Backoff(seen.attempts + 1)
            && t.deliveries[seen.delivery].clocks == row.clocks + [clock]
            && t.deliveries[seen.delivery].channel == row.channel
            && row.channel in t.channels && t.maxAttempts == s.maxAttempts
            && (forall g | g in t.flights :: g in s.flights && t.flights[g] == s.flights[g])
  {
    var f := s.nextFlight;
    var s1 := ClaimStep(s, w, clock);
    assert s1.flights[f].kind == Aily && !s1.flights[f].called;
    var s2 := Step(s1, Call(f));
    assert s2.flights[f] == s1.flights[f].(called := true);
    t := Step(s2, Write(f, Failure));
  }

  /** From a pending row and no flights of others, a crash and a batch at `at` claim it at `at`. */
  lemma ClaimedAgain(t: State, w: WorkerId, d: DeliveryId, at: int) returns (u: State)
    requires d in t.deliveries && t.deliveries[d].status == Pending && t.deliveries[d].availableAt <= at
    requires t.deliveries[d].channel in t.channels
    requires forall f | f in t.flights :: t.flights[f].worker == w
    ensures var c := t.deliveries[d].channel;
            u == Step(Step(Step(Step(Step(t, Crash(w)), Configure(c, Aily, true)), StartBatch(w, at, {d})),
              Look(w, d)), Claim(w, at))
    ensures d in u.deliveries && u.deliveries[d].clocks == t.deliveries[d].clocks + [at]
  {
    var c := t.deliveries[d].channel;
    var t1 := Step(t, Crash(w));
    assert t1.flights.Keys == {};
    var t2 := Step(t1, Configure(c, Aily, true));
    assert t2.deliveries == t1.deliveries && t2.channels[c].kind == Aily;
    var t3 := Step(t2, StartBatch(w, at, {d}));
    assert t3.workers[w] == Worker(at, {d}, None) by { assert !Busy(t2, w) && Due(t2, d, at); }
    var t4 := Step(t3, Look(w, d));
    assert t4.workers[w].seen.Some? && t4.workers[w].seen.value.delivery == d && t4.workers[w].seen.value.kind == Aily;
    u := Step(t4, Claim(w, at));
  }

  lemma RetryRuns(s: State, f: FlightId, c: ChannelId, w: WorkerId, d: DeliveryId, at: int)
    ensures var t := Step(Step(s, Call(f)), Write(f, Failure));
            Run(s, Retry(f, c, w, d, at))
              == Step(Step(Step(Step(Step(t, Crash(w)), Configure(c, Aily, true)), StartBatch(w, at, {d})),
                Look(w, d)), Claim(w, at))
  {
    var events := Retry(f, c, w, d, at);
    var s1 := Step(s, events[0]);
    var s2 := Step(s1, events[1]);
    var s3 := Step(s2, events[2]);
    var s4 := Step(s3, events[3]);
    var s5 := Step(s4, events[4]);
    var s6 := Step(s5, events[5]);
    var s7 := Step(s6, events[6]);
    Steps(s, events, [s, s1, s2, s3, s4, s5, s6, s7]);
  }

  lemma RetryIsOwn(f: FlightId, c: ChannelId, w: WorkerId, d: DeliveryId, at: int, from: int)
    requires from <= at
    ensures Sole(w, Retry(f, c, w, d, at)) && Monotone(from, Retry(f, c, w, d, at))
  {
    var events := Retry(f, c, w, d, at);
    ThreeReadings(from, Write(f, Failure), Crash(w), Configure(c, Aily, true));
    ThreeReadings(from, StartBatch(w, at, {d}), Look(w, d), Claim(w, at));
    MonotoneJoins(from, [Write(f, Failure), Crash(w), Configure(c, Aily, true)],
      [StartBatch(w, at, {d}), Look(w, d), Claim(w, at)]);
    assert events[1..] == [Write(f, Failure), Crash(w), Configure(c, Aily, true)]
        + [StartBatch(w, at, {d}), Look(w, d), Claim(w, at)];
  }

  lemma OneReading(from: int, e: Event, rest: seq<Event>)
    ensures var next := LaterReading(from, e);
            && (Monotone(from, [e] + rest) <==> from <= next && Monotone(next, rest))
            && LastReading(from, [e] + rest) == LastReading(next, rest)
  {
    assert ([e] + rest)[1..] == rest;
  }

  lemma ThreeReadings(from: int, a: Event, b: Event, c: Event)
    ensures var first := LaterReading(from, a);
            var second := LaterReading(first, b);
            var third := LaterReading(second, c);
            && (from <= first <= second <= third ==> Monotone(from, [a, b, c]))
            && LastReading(from, [a, b, c]) == third
  {
    var first := LaterReading(from, a);
    OneReading(from, a, [b, c]);
    OneReading(first, b, [c]);
    OneReading(LaterReading(first, b), c, []);
    assert [a] + [b, c] == [a, b, c] && [b] + [c] == [b, c] && [c] + [] == [c];
  }

  lemma {:induction false} MonotoneJoins(from: int, a: seq<Event>, b: seq<Event>)
    requires Monotone(from, a) && Monotone(LastReading(from, a), b)
    ensures Monotone(from, a + b) && LastReading(from, a + b) == LastReading(LastReading(from, a), b)
    decreases |a|
  {
    if a == [] {
      assert a + b == b;
    } else {
      MonotoneJoins(LaterReading(from, a[0]), a[1..], b);
      assert (a + b)[1..] == a[1..] + b;
    }
  }

  /** After a claim later than its batch clock, the next one can come before the full gap has passed. */
  lemma GapCanBeShort(s: State, w: WorkerId, clock: int)
    requires Core(s) && Alone(s, w) && AboutToClaim(s, w, clock) && s.workers[w].now < clock
    requires RowClocked(s.deliveries[s.workers[w].seen.value.delivery], clock)
    ensures var d := s.workers[w].seen.value.delivery;
            !GapCertain(ClaimStep(s, w, clock), w, clock, d, |s.deliveries[d].clocks| + 1)
  {
    var seen, f := s.workers[w].seen.value, s.nextFlight;
    var d, c := seen.delivery, s.deliveries[seen.delivery].channel;
    var k := |s.deliveries[d].clocks| + 1;
    assert BacksOff(s.deliveries[d]);
    var due := s.workers[w].now + Backoff(k);
    var at := if clock < due then due else clock;
    var t := FailedRow(s, w, clock);
    forall g | g in t.flights ensures t.flights[g].worker == w { assert FlightSole(s, w, s.flights[g]); }
    var u := ClaimedAgain(t, w, d, at);
    RetryRuns(ClaimStep(s, w, clock), f, c, w, d, at);
    RetryIsOwn(f, c, w, d, at, clock);
    assert !FullGap(Run(ClaimStep(s, w, clock), Retry(f, c, w, d, at)), d, k);
  }

  lemma PunctualGap(s: State, w: WorkerId, from: int, d: DeliveryId, k: nat, more: seq<Event>)
    requires Alone(s, w) && Clocked(s, from) && d in s.deliveries && Sole(w, more) && Monotone(from, more)
    requires var row := s.deliveries[d]; k == |row.starts| > 0 && row.clocks[k - 1] == row.starts[k - 1]
    ensures FullGap(Run(s, more), d, k)
  {
    assert RowClocked(s.deliveries[d], from);
    RunAlone(s, more, w);
    RunClocked(s, more, from);
    ClocksExtend(s, more, d);
    var before, after := s.deliveries[d], Run(s, more).deliveries[d];
    assert BacksOff(after) && RowClocked(after, LastReading(from, more));
    assert after.starts[k - 1] == before.starts[k - 1] && after.clocks[k - 1] == before.clocks[k - 1];
  }

  lemma ClaimedRow(s: State, w: WorkerId, clock: int)
    requires Claimable(s, w, clock) && s.deliveries[s.workers[w].seen.value.delivery].status == Pending
    ensures var seen, t := s.workers[w].seen.value, ClaimStep(s, w, clock);
            && seen.delivery in t.deliveries && t.maxAttempts == s.maxAttempts
            && t.deliveries[seen.delivery] == Claimed(s.deliveries[seen.delivery], seen, s.workers[w].now, clock)
  {
  }

  /** The claim of one dispatcher, made at a clock reading no earlier than its earlier ones. */
  lemma ClaimedGap(s: State, w: WorkerId, latest: int, clock: int)
    requires Core(s) && Alone(s, w) && Clocked(s, latest) && latest <= clock
    requires Claimable(s, w, clock) && s.deliveries[s.workers[w].seen.value.delivery].status == Pending
    ensures var seen := s.workers[w].seen.value;
            GapCertain(ClaimStep(s, w, clock), w, clock, seen.delivery, |s.deliveries[seen.delivery].clocks| + 1) <==>
              clock == s.workers[w].now || seen.kind == Notification || seen.attempts + 1 >= s.maxAttempts
  {
    var seen, t := s.workers[w].seen.value, ClaimStep(s, w, clock);
    var d, k := seen.delivery, |s.deliveries[seen.delivery].clocks| + 1;
    assert RowClocked(s.deliveries[d], latest);
    ClaimedRow(s, w, clock);
    StepCore(s, Claim(w, clock));
    StepAlone(s, Claim(w, clock), w);
    StepClocked(s, Claim(w, clock), latest);
    if Finished(t.deliveries[d], t.maxAttempts) {
      forall more: seq<Event> | Sole(w, more) && Monotone(clock, more) ensures FullGap(Run(t, more), d, k) {
        FinishedStays(t, more, d);
      }
    } else if clock == s.workers[w].now {
      forall more: seq<Event> | Sole(w, more) && Monotone(clock, more) ensures FullGap(Run(t, more), d, k) {
        PunctualGap(t, w, clock, d, k, more);
      }
    } else {
      GapCanBeShort(s, w, clock);
    }
  }

  lemma Dispatched(max: nat, events: seq<Event>, w: WorkerId, from: int)
    requires max >= 1 && Sole(w, events) && Monotone(from, events)
    ensures var s := Run(Start(max), events);
            Core(s) && Alone(s, w) && Clocked(s, LastReading(from, events)) && s.maxAttempts == max
  {
    StartCore(max);
    RunCore(Start(max), events);
    MaxFixed(Start(max), events);
    RunAlone(Start(max), events, w);
    RunClocked(Start(max), events, from);
  }

  /**
    With one dispatcher and a clock that never goes back: whatever happens after a claim, the next
    claim of that delivery waits the full backoff after it, if and only if the claim was made at
    the very clock reading of its batch, or no further claim can follow it.
   */
  lemma FullGapIffAtBatchClock(max: nat, events: seq<Event>, w: WorkerId, from: int, clock: int)
    requires max >= 1 && Sole(w, events) && Monotone(from, events) && LastReading(from, events) <= clock
    requires Claimable(Run(Start(max), events), w, clock)
    requires var s := Run(Start(max), events); s.deliveries[s.workers[w].seen.value.delivery].status == Pending
    ensures var s := Run(Start(max), events);
            var seen := s.workers[w].seen.value;
            GapCertain(ClaimStep(s, w, clock), w, clock, seen.delivery, |s.deliveries[seen.delivery].clocks| + 1) <==>
              clock == s.workers[w].now || seen.kind == Notification || seen.attempts + 1 >= max
  {
    Dispatched(max, events, w, from);
    ClaimedGap(Run(Start(max), events), w, LastReading(from, events), clock);
  }

  const LATE_START: seq<Event> := [Configure(0, Aily, true), Enqueue(0, 0, 0, 0), StartBatch(0, 0, {0}), Look(0, 0)]
  const LATE_CLAIM: seq<Event> := [Claim(0, 8 * SECOND), Call(0), Write(0, Failure)]
  const NEXT_CLAIM: seq<Event> := [StartBatch(0, 10 * SECOND, {0}), Look(0, 0), Claim(0, 10 * SECOND)]
  const LATE_RUN := LATE_START + LATE_CLAIM + NEXT_CLAIM

  const QUEUED_ROW := Delivery(0, 0, Pending, 0, 0, None, 0, 0, false, 0, [], [], [])
  const FAILED_ROW := Delivery(0, 0, Pending, 1, 10 * SECOND, Some(0), 1, 1, false, 0, [0], [8 * SECOND], [0])

  ghost predicate OneRow(s: State, row: Delivery) {
    && s.maxAttempts == 5 && s.flights == map[] && s.nextFlight == row.claims
    && s.channels == map[0 := Channel(Aily, true, Configured, None, [])] && s.deliveries == map[0 := row]
  }

  lemma LateStart() returns (s: State)
    ensures s == Run(Start(5), LATE_START) && OneRow(s, QUEUED_ROW)
    ensures s.workers == map[0 := Worker(0, {}, Some(Seen(0, 0, Aily, 0)))]
  {
    var s0 := Start(5);
    var s1 := Step(s0, LATE_START[0]);
    var s2 := Step(s1, LATE_START[1]);
    var s3 := Step(s2, LATE_START[2]);
    assert s3.workers[0].rows - {0} == {};
    s := Step(s3, LATE_START[3]);
    Steps(s0, LATE_START, [s0, s1, s2, s3, s]);
  }

  lemma LateClaim(s: State) returns (t: State)
    requires OneRow(s, QUEUED_ROW) && s.workers == map[0 := Worker(0, {}, Some(Seen(0, 0, Aily, 0)))]
    ensures t == Run(s, LATE_CLAIM) && OneRow(t, FAILED_ROW)
  {
    var s1 := Step(s, LATE_CLAIM[0]);
    assert s1.flights == map[0 := Flight(0, 0, Aily, 1, 0, false)];
    var s2 := Step(s1, LATE_CLAIM[1]);
    t := Step(s2, LATE_CLAIM[2]);
    assert Power2(0) == 1 && Power2(1) == 2;
    assert s1.deliveries[0] == Claimed(QUEUED_ROW, Seen(0, 0, Aily, 0), 0, 8 * SECOND);
    assert s2.deliveries[0] == s1.deliveries[0].(calls := 1);
    assert t.deliveries[0] == FAILED_ROW;
    Steps(s, LATE_CLAIM, [s, s1, s2, t]);
  }

  lemma NextClaim(s: State) returns (u: State)
    requires OneRow(s, FAILED_ROW)
    ensures u == Run(s, NEXT_CLAIM) && 0 in u.deliveries
    ensures u.deliveries[0].starts == [0, 10 * SECOND] && u.deliveries[0].clocks == [8 * SECOND, 10 * SECOND]
  {
    var s1 := Step(s, NEXT_CLAIM[0]);
    assert s1.workers[0] == Worker(10 * SECOND, {0}, None) by { assert !Busy(s, 0) && Due(s, 0, 10 * SECOND); }
    var s2 := Step(s1, NEXT_CLAIM[1]);
    u := Step(s2, NEXT_CLAIM[2]);
    Steps(s, NEXT_CLAIM, [s, s1, s2, u]);
  }

  lemma LateRunIsOwn()
    ensures Sole(0, LATE_RUN) && Monotone(0, LATE_RUN)
  {
    ThreeReadings(0, LATE_START[1], LATE_START[2], LATE_START[3]);
    assert LATE_START[1..] == [LATE_START[1], LATE_START[2], LATE_START[3]];
    ThreeReadings(0, LATE_CLAIM[0], LATE_CLAIM[1], LATE_CLAIM[2]);
    ThreeReadings(8 * SECOND, NEXT_CLAIM[0], NEXT_CLAIM[1], NEXT_CLAIM[2]);
    MonotoneJoins(0, LATE_START, LATE_CLAIM);
    MonotoneJoins(0, LATE_START + LATE_CLAIM, NEXT_CLAIM);
  }

  /** A run of one dispatcher in which two claims are two seconds apart, not ten. */
  lemma LateClaimShortensGap()
    ensures var s := Run(Start(5), LATE_RUN);
            && Sole(0, LATE_RUN) && Monotone(0, LATE_RUN)
            && 0 in s.deliveries && s.deliveries[0].clocks == [8 * SECOND, 10 * SECOND] && 2 * SECOND < Backoff(1)
  {
    var s := LateStart();
    var t := LateClaim(s);
    var u := NextClaim(t);
    RunSplit(Start(5), LATE_START, LATE_CLAIM);
    RunSplit(Start(5), LATE_START + LATE_CLAIM, NEXT_CLAIM);
    LateRunIsOwn();
  }
}
