/** When the dispatcher may send: the minute between notifications, and the backoff between attempts. */
module WakeTiming {
  import opened Prelude
  import opened Wake
  import opened WakeSafety

  // ----- One chargeable send per channel and minute -----

  ghost predicate Spaced(times: seq<int>) {
    forall i | 0 < i < |times| :: times[i - 1] + 60 * SECOND <= times[i]
  }

  /** A channel's dispatch time is its last reservation, and reservations are a minute apart. */
  ghost predicate ChannelOk(channel: Channel) {
    && Spaced(channel.reservations)
    && channel.lastDispatch ==
       (if channel.reservations == [] then None else Some(channel.reservations[|channel.reservations| - 1]))
  }

  ghost function NoticedOn(s: State, c: ChannelId): set<DeliveryId> {
    set d | d in s.deliveries && s.deliveries[d].noticed && s.deliveries[d].channel == c
  }

  /** Each delivery a channel was charged for has its own reservation; tests reserve on top. */
  ghost predicate Reserved(s: State) {
    && (forall c | c in s.channels :: ChannelOk(s.channels[c]) && |NoticedOn(s, c)| <= |s.channels[c].reservations|)
    && (forall d | d in s.deliveries :: s.deliveries[d].channel in s.channels)
  }

  lemma ReserveOk(channel: Channel, clock: int)
    requires ChannelOk(channel) && Reservable(channel, clock)
    ensures ChannelOk(Reserve(channel, clock))
  {
  }

  ghost predicate SameCharges(before: Channel, after: Channel) {
    after.reservations == before.reservations && after.lastDispatch == before.lastDispatch
  }

  ghost predicate SameNotice(before: Delivery, after: Delivery) {
    after.channel == before.channel && after.noticed == before.noticed
  }

  /** A step that neither charges a delivery nor touches a channel's reservations. */
  ghost predicate Uncharged(s: State, t: State) {
    && s.channels.Keys <= t.channels.Keys && s.deliveries.Keys <= t.deliveries.Keys
    && (forall c | c in s.channels :: SameCharges(s.channels[c], t.channels[c]))
    && (forall c | c in t.channels && c !in s.channels ::
      t.channels[c].reservations == [] && t.channels[c].lastDispatch == None)
    && (forall d | d in s.deliveries :: SameNotice(s.deliveries[d], t.deliveries[d]))
    && (forall d | d in t.deliveries && d !in s.deliveries ::
      !t.deliveries[d].noticed && t.deliveries[d].channel in t.channels)
  }

  lemma UnchargedReserved(s: State, t: State)
    requires Reserved(s) && Uncharged(s, t)
    ensures Reserved(t)
  {
    forall c | c in t.channels ensures ChannelOk(t.channels[c]) && |NoticedOn(t, c)| <= |t.channels[c].reservations| {
      assert NoticedOn(t, c) == NoticedOn(s, c);
      if c in s.channels {
        assert ChannelOk(s.channels[c]) && SameCharges(s.channels[c], t.channels[c]);
      } else {
        assert NoticedOn(s, c) == {};
      }
    }
    forall d | d in t.deliveries ensures t.deliveries[d].channel in t.channels {
      if d in s.deliveries {
        assert SameNotice(s.deliveries[d], t.deliveries[d]);
      }
    }
  }

  lemma TestReserved(s: State, c: ChannelId, clock: int)
    requires Reserved(s)
    ensures Reserved(TestStep(s, c, clock))
  {
    var t := TestStep(s, c, clock);
    if t != s {
      ReserveOk(s.channels[c], clock);
      forall b | b in t.channels ensures ChannelOk(t.channels[b]) && |NoticedOn(t, b)| <= |t.channels[b].reservations| {
        assert NoticedOn(t, b) == NoticedOn(s, b);
      }
    }
  }

  lemma NoticedGrows(s: State, t: State, d: DeliveryId, c: ChannelId)
    requires d in s.deliveries && t.deliveries.Keys == s.deliveries.Keys
    requires t.deliveries[d].channel == s.deliveries[d].channel
    requires forall b | b in s.deliveries && b != d :: SameNotice(s.deliveries[b], t.deliveries[b])
    ensures |NoticedOn(t, c)| <= |NoticedOn(s, c)| + if c == s.deliveries[d].channel then 1 else 0
  {
    var more := if c == s.deliveries[d].channel then NoticedOn(s, c) + {d} else NoticedOn(s, c);
    forall b | b in NoticedOn(t, c) ensures b in more {
      assert b == d || SameNotice(s.deliveries[b], t.deliveries[b]);
    }
    Subset(NoticedOn(t, c), more);
  }

  lemma Subset<T>(a: set<T>, b: set<T>)
    requires a <= b
    ensures |a| <= |b|
  {
    assert b == a + (b - a);
  }

  lemma ChargedReserved(s: State, t: State, d: DeliveryId, clock: int)
    requires Reserved(s) && d in s.deliveries && Reservable(s.channels[s.deliveries[d].channel], clock)
    requires var own := s.deliveries[d].channel; t.channels == s.channels[own := Reserve(s.channels[own], clock)]
    requires t.deliveries.Keys == s.deliveries.Keys && t.deliveries[d].noticed
    requires t.deliveries[d].channel == s.deliveries[d].channel
    requires forall b | b in s.deliveries && b != d :: SameNotice(s.deliveries[b], t.deliveries[b])
    ensures Reserved(t)
  {
    var own := s.deliveries[d].channel;
    ReserveOk(s.channels[own], clock);
    forall c | c in t.channels ensures ChannelOk(t.channels[c]) && |NoticedOn(t, c)| <= |t.channels[c].reservations| {
      NoticedGrows(s, t, d, c);
      assert ChannelOk(s.channels[c]);
    }
    forall b | b in t.deliveries ensures t.deliveries[b].channel in t.channels {
      assert b == d || SameNotice(s.deliveries[b], t.deliveries[b]);
    }
  }

  lemma ClaimReserved(s: State, w: WorkerId, clock: int)
    requires Reserved(s)
    ensures Reserved(ClaimStep(s, w, clock))
  {
    var t := ClaimStep(s, w, clock);
    if Claimable(s, w, clock) {
      var seen := s.workers[w].seen.value;
      if s.deliveries[seen.delivery].status == Pending {
        if seen.kind == Notification {
          ChargedReserved(s, t, seen.delivery, clock);
        } else {
          UnchargedReserved(s, t);
        }
      }
    }
  }

  lemma ChannelUncharged(s: State, e: Event)
    requires e.Configure? || e.Disable? || e.MarkChannel?
    ensures Uncharged(s, Step(s, e))
  {
  }

  lemma BatchUncharged(s: State, e: Event)
    requires e.Enqueue? || e.Sweep? || e.StartBatch? || e.Look? || e.Skip? || e.Postpone?
    ensures Uncharged(s, Step(s, e))
  {
  }

  lemma FlightUncharged(s: State, e: Event)
    requires e.Call? || e.Write? || e.Lose? || e.Crash?
    ensures Uncharged(s, Step(s, e))
  {
  }

  lemma StepReserved(s: State, e: Event)
    requires Reserved(s)
    ensures Reserved(Step(s, e))
  {
    if e.Test? {
      TestReserved(s, e.channel, e.clock);
    } else if e.Claim? {
      ClaimReserved(s, e.worker, e.clock);
    } else if e.Configure? || e.Disable? || e.MarkChannel? {
      ChannelUncharged(s, e);
      UnchargedReserved(s, Step(s, e));
    } else if e.Call? || e.Write? || e.Lose? || e.Crash? {
      FlightUncharged(s, e);
      UnchargedReserved(s, Step(s, e));
    } else {
      BatchUncharged(s, e);
      UnchargedReserved(s, Step(s, e));
    }
  }

  lemma {:induction false} RunReserved(s: State, events: seq<Event>)
    requires Reserved(s)
    ensures Reserved(Run(s, events))
    decreases |events|
  {
    if events != [] {
      StepReserved(s, events[0]);
      RunReserved(Step(s, events[0]), events[1..]);
    }
  }

  /** How many of the times lie between `from` and `to`. */
  function CountWithin(times: seq<int>, from: int, to: int): nat {
    if times == [] then 0
    else
      var last := times[|times| - 1];
      CountWithin(times[..|times| - 1], from, to) + if from <= last <= to then 1 else 0
  }

  lemma {:induction false} CountNone(times: seq<int>, from: int, to: int)
    requires forall i | 0 <= i < |times| :: times[i] < from
    ensures CountWithin(times, from, to) == 0
    decreases |times|
  {
    if times != [] {
      CountNone(times[..|times| - 1], from, to);
    }
  }

  lemma {:induction false} CountSame(times: seq<int>, from: int, to: int, lower: int)
    requires lower <= to && forall i | 0 <= i < |times| :: times[i] <= lower
    ensures CountWithin(times, from, to) == CountWithin(times, from, lower)
    decreases |times|
  {
    if times != [] {
      CountSame(times[..|times| - 1], from, to, lower);
    }
  }

  lemma {:induction false} SpacedAscending(times: seq<int>, i: int, j: int)
    requires Spaced(times) && 0 <= i < j < |times|
    ensures times[i] + 60 * SECOND <= times[j]
    decreases j
  {
    if i < j - 1 {
      SpacedAscending(times, i, j - 1);
    }
  }

  lemma {:induction false} SpacedCount(times: seq<int>, from: int, to: int)
    requires Spaced(times) && from <= to
    ensures CountWithin(times, from, to) * (60 * SECOND) <= to - from + 60 * SECOND
    decreases |times|
  {
    if times != [] {
      var n := |times| - 1;
      var last, before := times[n], times[..n];
      forall i | 0 <= i < n ensures before[i] <= last - 60 * SECOND { SpacedAscending(times, i, n); }
      if last < from {
        CountNone(before, from, to);
      } else if last <= to {
        if last - 60 * SECOND < from {
          CountNone(before, from, to);
        } else {
          CountSame(before, from, to, last - 60 * SECOND);
          SpacedCount(before, from, last - 60 * SECOND);
        }
      } else {
        SpacedCount(before, from, to);
      }
    }
  }

  /**
    In every run, over dispatches, tests and reconfigurations together: a span of `t` seconds
    holds at most floor(t / 60) + 1 committed reservations of a channel, and no more deliveries
    were sent through it as notifications than it has reservations.
   */
  lemma NotificationsPerSpan(max: nat, events: seq<Event>, c: ChannelId, from: int, t: nat)
    requires c in Run(Start(max), events).channels
    ensures var s := Run(Start(max), events);
            && CountWithin(s.channels[c].reservations, from, from + t * SECOND) <= t / 60 + 1
            && |NoticedOn(s, c)| <= |s.channels[c].reservations|
  {
    RunReserved(Start(max), events);
    var s := Run(Start(max), events);
    assert ChannelOk(s.channels[c]);
    var count := CountWithin(s.channels[c].reservations, from, from + t * SECOND);
    SpacedCount(s.channels[c].reservations, from, from + t * SECOND);
    assert count * 60 <= t + 60;
  }

  // ----- A single dispatcher -----

  /** All batch steps are this worker's. */
  ghost predicate By(w: WorkerId, e: Event) {
    match e
    case StartBatch(v, _, _) => v == w
    case Look(v, _) => v == w
    case Skip(v) => v == w
    case Postpone(v, _) => v == w
    case Claim(v, _) => v == w
    case _ => true
  }

  ghost predicate Sole(w: WorkerId, events: seq<Event>) {
    forall i | 0 <= i < |events| :: By(w, events[i])
  }

  /** Attempt k failed at the earliest when it started, and the next start waits 5 * 2^k seconds from there. */
  ghost predicate BacksOff(row: Delivery) {
    && row.attempts == row.claims == |row.starts|
    && (forall i | 0 < i < |row.starts| :: row.starts[i - 1] + Backoff(i) <= row.starts[i])
    && (row.status == Pending && row.starts != [] ==>
          row.starts[|row.starts| - 1] + Backoff(|row.starts|) <= row.availableAt)
  }

  ghost predicate FlightSole(s: State, w: WorkerId, flight: Flight) {
    && flight.worker == w
    && flight.delivery in s.deliveries
    && var row := s.deliveries[flight.delivery];
    && row.status != Pending
    && row.starts != [] && flight.attempt == |row.starts| && flight.now == row.starts[|row.starts| - 1]
    && (w in s.workers ==>
          flight.delivery !in s.workers[w].rows
          && (s.workers[w].seen.Some? ==> s.workers[w].seen.value.delivery != flight.delivery))
  }

  /** A row the worker still has to claim was due when the batch started, and nobody else claims it. */
  ghost predicate DueInBatch(s: State, worker: Worker, d: DeliveryId) {
    d in s.deliveries && (s.deliveries[d].status == Pending ==> s.deliveries[d].availableAt <= worker.now)
  }

  ghost predicate Alone(s: State, w: WorkerId) {
    && (forall v | v in s.workers :: v == w)
    && (forall d | d in s.deliveries :: BacksOff(s.deliveries[d]))
    && (forall f | f in s.flights :: FlightSole(s, w, s.flights[f]))
    && (forall f, g | f in s.flights && g in s.flights && f != g :: s.flights[f].delivery != s.flights[g].delivery)
    && (w in s.workers ==>
          && (forall d | d in s.workers[w].rows :: DueInBatch(s, s.workers[w], d))
          && (s.workers[w].seen.Some? ==>
                var seen := s.workers[w].seen.value;
                && DueInBatch(s, s.workers[w], seen.delivery)
                && seen.delivery !in s.workers[w].rows
                && seen.attempts == s.deliveries[seen.delivery].attempts))
  }

  ghost predicate RetiredRow(before: Delivery, after: Delivery) {
    && after.attempts == before.attempts && after.claims == before.claims
    && after.starts == before.starts && after.availableAt == before.availableAt
    && (after.status == before.status || after.status != Pending)
  }

  /** Rows leave the pending state or are new, and nothing else that matters changes. */
  ghost predicate Retired(s: State, t: State) {
    && t.workers == s.workers && t.flights.Keys == s.flights.Keys
    && (forall f | f in s.flights :: t.flights[f] == s.flights[f].(called := t.flights[f].called))
    && s.deliveries.Keys <= t.deliveries.Keys
    && (forall d | d in s.deliveries :: RetiredRow(s.deliveries[d], t.deliveries[d]))
    && (forall d | d in t.deliveries && d !in s.deliveries :: BacksOff(t.deliveries[d]))
  }

  lemma RetiredBacksOff(s: State, t: State, d: DeliveryId)
    requires Retired(s, t) && d in t.deliveries && (d in s.deliveries ==> BacksOff(s.deliveries[d]))
    ensures BacksOff(t.deliveries[d])
  {
    if d in s.deliveries {
      assert RetiredRow(s.deliveries[d], t.deliveries[d]);
    }
  }

  lemma RetiredFlightSole(s: State, t: State, w: WorkerId, f: FlightId)
    requires Retired(s, t) && f in s.flights && FlightSole(s, w, s.flights[f])
    ensures FlightSole(t, w, t.flights[f])
  {
    assert RetiredRow(s.deliveries[s.flights[f].delivery], t.deliveries[s.flights[f].delivery]);
  }

  lemma RetiredDueInBatch(s: State, t: State, worker: Worker, d: DeliveryId)
    requires Retired(s, t) && DueInBatch(s, worker, d)
    ensures DueInBatch(t, worker, d) && t.deliveries[d].attempts == s.deliveries[d].attempts
  {
    assert RetiredRow(s.deliveries[d], t.deliveries[d]);
  }

  lemma RetiredAlone(s: State, t: State, w: WorkerId)
    requires Alone(s, w) && Retired(s, t)
    ensures Alone(t, w)
  {
    forall d | d in t.deliveries ensures BacksOff(t.deliveries[d]) {
      RetiredBacksOff(s, t, d);
    }
    forall f | f in t.flights ensures FlightSole(t, w, t.flights[f]) {
      RetiredFlightSole(s, t, w, f);
    }
    if w in t.workers {
      forall d | d in t.workers[w].rows ensures DueInBatch(t, t.workers[w], d) {
        RetiredDueInBatch(s, t, s.workers[w], d);
      }
      if t.workers[w].seen.Some? {
        RetiredDueInBatch(s, t, s.workers[w], t.workers[w].seen.value.delivery);
      }
    }
  }

  lemma NotBusy(s: State, w: WorkerId)
    requires Alone(s, w) && !Busy(s, w)
    ensures s.flights.Keys == {}
  {
    if f :| f in s.flights {
      assert FlightSole(s, w, s.flights[f]) && Busy(s, w);
    }
  }

  lemma StartAlone(s: State, w: WorkerId, now: int, rows: set<DeliveryId>)
    requires Alone(s, w)
    ensures Alone(StartStep(s, w, now, rows), w)
  {
    var t := StartStep(s, w, now, rows);
    if t != s {
      NotBusy(s, w);
      forall d | d in rows ensures DueInBatch(t, t.workers[w], d) {
        assert Due(s, d, now);
      }
    }
  }

  lemma LookAlone(s: State, w: WorkerId, d: DeliveryId)
    requires Alone(s, w)
    ensures Alone(LookStep(s, w, d), w)
  {
    var t := LookStep(s, w, d);
    if t != s {
      assert DueInBatch(s, s.workers[w], d);
      forall f | f in t.flights ensures FlightSole(t, w, t.flights[f]) {
        assert FlightSole(s, w, s.flights[f]);
      }
      forall b | b in t.workers[w].rows ensures DueInBatch(t, t.workers[w], b) {
        assert DueInBatch(s, s.workers[w], b);
      }
    }
  }

  lemma SkipAlone(s: State, w: WorkerId)
    requires Alone(s, w)
    ensures Alone(SkipStep(s, w), w)
  {
    if Saw(s, w) {
      var t := s.(workers := Unsee(s, w));
      UnseenAlone(s, w);
      assert Retired(t, SkipStep(s, w));
      RetiredAlone(t, SkipStep(s, w), w);
    }
  }

  lemma UnseenAlone(s: State, w: WorkerId)
    requires Alone(s, w) && w in s.workers
    ensures Alone(s.(workers := Unsee(s, w)), w)
  {
    var t := s.(workers := Unsee(s, w));
    forall f | f in t.flights ensures FlightSole(t, w, t.flights[f]) {
      assert FlightSole(s, w, s.flights[f]);
    }
    forall b | b in t.workers[w].rows ensures DueInBatch(t, t.workers[w], b) {
      assert DueInBatch(s, s.workers[w], b);
    }
  }

  lemma FewerFlightsAlone(s: State, t: State, w: WorkerId)
    requires Alone(s, w) && t == s.(workers := t.workers, flights := t.flights)
    requires forall f | f in t.flights :: f in s.flights && t.flights[f] == s.flights[f]
    requires forall v | v in t.workers :: v in s.workers && t.workers[v] == s.workers[v]
    ensures Alone(t, w)
  {
    forall f | f in t.flights ensures FlightSole(t, w, t.flights[f]) {
      assert FlightSole(s, w, s.flights[f]);
    }
    if w in t.workers {
      forall d | d in t.workers[w].rows ensures DueInBatch(t, t.workers[w], d) {
        assert DueInBatch(s, s.workers[w], d);
      }
    }
  }

  lemma PostponeAlone(s: State, w: WorkerId, clock: int)
    requires Alone(s, w)
    ensures Alone(PostponeStep(s, w, clock), w)
  {
    var t := PostponeStep(s, w, clock);
    if t != s {
      var d := s.workers[w].seen.value.delivery;
      assert BacksOff(s.deliveries[d]) && DueInBatch(s, s.workers[w], d);
      forall f | f in t.flights ensures FlightSole(t, w, t.flights[f]) {
        assert FlightSole(s, w, s.flights[f]);
      }
      forall b | b in t.workers[w].rows ensures DueInBatch(t, t.workers[w], b) {
        assert DueInBatch(s, s.workers[w], b);
      }
    }
  }

  lemma ClaimAlone(s: State, w: WorkerId, clock: int)
    requires Alone(s, w)
    ensures Alone(ClaimStep(s, w, clock), w)
  {
    var t := ClaimStep(s, w, clock);
    if Claimable(s, w, clock) {
      var seen := s.workers[w].seen.value;
      var row := s.deliveries[seen.delivery];
      if row.status != Pending {
        UnseenAlone(s, w);
        FewerFlightsAlone(s.(workers := Unsee(s, w)), t, w);
      } else {
        ClaimedBacksOff(row, seen, s.workers[w].now, clock);
        forall f | f in t.flights ensures FlightSole(t, w, t.flights[f]) {
          if f in s.flights && f != s.nextFlight {
            assert FlightSole(s, w, s.flights[f]);
          }
        }
        forall b | b in t.workers[w].rows ensures DueInBatch(t, t.workers[w], b) {
          assert DueInBatch(s, s.workers[w], b);
        }
        forall f | f in s.flights ensures s.flights[f].delivery != seen.delivery {
          assert FlightSole(s, w, s.flights[f]);
        }
      }
    }
  }

  lemma ClaimedBacksOff(row: Delivery, seen: Seen, now: int, clock: int)
    requires BacksOff(row) && row.status == Pending && row.availableAt <= now && seen.attempts == row.attempts
    ensures BacksOff(Claimed(row, seen, now, clock))
  {
  }

  /** Rewriting a row that nobody has in flight, selected or seen. */
  lemma FreeRowAlone(s: State, w: WorkerId, d: DeliveryId, row: Delivery)
    requires Alone(s, w) && d in s.deliveries && BacksOff(row)
    requires forall f | f in s.flights :: s.flights[f].delivery != d
    requires w in s.workers ==>
               d !in s.workers[w].rows && (s.workers[w].seen.Some? ==> s.workers[w].seen.value.delivery != d)
    ensures Alone(s.(deliveries := s.deliveries[d := row]), w)
  {
    var t := s.(deliveries := s.deliveries[d := row]);
    forall g | g in t.flights ensures FlightSole(t, w, t.flights[g]) {
      assert FlightSole(s, w, s.flights[g]);
    }
    if w in t.workers {
      forall b | b in t.workers[w].rows ensures DueInBatch(t, t.workers[w], b) {
        assert DueInBatch(s, s.workers[w], b);
      }
    }
  }

  lemma WrittenBacksOff(s: State, f: FlightId, outcome: Outcome, w: WorkerId)
    requires f in s.flights && FlightSole(s, w, s.flights[f]) && BacksOff(s.deliveries[s.flights[f].delivery])
    ensures BacksOff(Written(s, s.deliveries[s.flights[f].delivery], s.flights[f], outcome))
  {
  }

  lemma WriteAlone(s: State, f: FlightId, outcome: Outcome, w: WorkerId)
    requires Alone(s, w)
    ensures Alone(WriteStep(s, f, outcome), w)
  {
    var t := WriteStep(s, f, outcome);
    if t != s {
      var d := s.flights[f].delivery;
      assert FlightSole(s, w, s.flights[f]) && BacksOff(s.deliveries[d]);
      assert Alone(DropFlight(s, f), w) by { FewerFlightsAlone(s, DropFlight(s, f), w); }
      WrittenBacksOff(s, f, outcome, w);
      FreeRowAlone(DropFlight(s, f), w, d, Written(s, s.deliveries[d], s.flights[f], outcome));
    }
  }

  lemma ChannelRetires(s: State, e: Event)
    requires e.Configure? || e.Disable? || e.MarkChannel? || e.Test?
    ensures Retired(s, Step(s, e))
  {
  }

  lemma QueueRetires(s: State, e: Event)
    requires e.Enqueue? || e.Sweep? || e.Call?
    ensures Retired(s, Step(s, e))
  {
  }

  lemma StepAlone(s: State, e: Event, w: WorkerId)
    requires Alone(s, w) && By(w, e)
    ensures Alone(Step(s, e), w)
  {
    match e
    case StartBatch(_, now, rows) => StartAlone(s, w, now, rows);
    case Look(_, d) => LookAlone(s, w, d);
    case Skip(_) => SkipAlone(s, w);
    case Postpone(_, clock) => PostponeAlone(s, w, clock);
    case Claim(_, clock) => ClaimAlone(s, w, clock);
    case Write(f, outcome) => WriteAlone(s, f, outcome, w);
    case Lose(_) => FewerFlightsAlone(s, Step(s, e), w);
    case Crash(_) => FewerFlightsAlone(s, Step(s, e), w);
    case _ =>
      if e.Enqueue? || e.Sweep? || e.Call? { QueueRetires(s, e); } else { ChannelRetires(s, e); }
      RetiredAlone(s, Step(s, e), w);
  }

  lemma {:induction false} RunAlone(s: State, events: seq<Event>, w: WorkerId)
    requires Alone(s, w) && Sole(w, events)
    ensures Alone(Run(s, events), w)
    decreases |events|
  {
    if events != [] {
      assert By(w, events[0]);
      StepAlone(s, events[0], w);
      RunAlone(Step(s, events[0]), events[1..], w);
    }
  }

  lemma {:induction false} StartsAfter(starts: seq<int>, n: nat)
    requires n < |starts|
    requires forall i | 0 < i < |starts| :: starts[i - 1] + Backoff(i) <= starts[i]
    ensures starts[0] + 5 * (Power2(n + 1) - 2) * SECOND <= starts[n]
  {
    if n > 0 {
      StartsAfter(starts, n - 1);
    }
  }

  /**
    With a single dispatcher, by the batch clock that the row records, attempt k + 1 starts at
    least 5 * 2^k seconds after attempt k, so attempt n starts at least 5 * (2^n - 2) seconds after
    the first. Its calls also stay within its attempts.
   */
  lemma SoleDispatcherBacksOff(max: nat, events: seq<Event>, w: WorkerId, d: DeliveryId, n: nat)
    requires max >= 1 && Sole(w, events) && d in Run(Start(max), events).deliveries
    requires 1 <= n <= |Run(Start(max), events).deliveries[d].starts|
    ensures var row := Run(Start(max), events).deliveries[d];
            && |row.starts| == row.attempts && row.calls <= row.attempts <= max
            && (forall k | 0 < k < |row.starts| :: row.starts[k - 1] + 5 * Power2(k) * SECOND <= row.starts[k])
            && row.starts[0] + 5 * (Power2(n) - 2) * SECOND <= row.starts[n - 1]
  {
    RunAlone(Start(max), events, w);
    StartCore(max);
    RunCore(Start(max), events);
    MaxFixed(Start(max), events);
    assert RowOk(Run(Start(max), events).maxAttempts, Run(Start(max), events).deliveries[d]);
    var row := Run(Start(max), events).deliveries[d];
    assert BacksOff(row);
    StartsAfter(row.starts, n - 1);
  }
}
