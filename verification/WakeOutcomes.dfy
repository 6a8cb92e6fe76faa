/** How a wake delivery got its status: which steps give it which one, and what stands behind it in every run. */
module WakeOutcomes {
  import opened Prelude
  import opened Wake
  import opened WakeSafety

  // ----- One step -----

  /** The worker has refreshed this row and not yet settled it. */
  ghost predicate Sees(s: State, w: WorkerId, d: DeliveryId) {
    w in s.workers && s.workers[w].seen.Some? && s.workers[w].seen.value.delivery == d && d in s.deliveries
  }

  /** The row's channel exists, and a notification channel sent nothing within the last minute. */
  ghost predicate MinuteFree(s: State, w: WorkerId, d: DeliveryId, clock: int)
    requires Sees(s, w, d)
  {
    var c := s.deliveries[d].channel;
    && c in s.channels
    && (s.workers[w].seen.value.kind == Notification && s.channels[c].lastDispatch.Some? ==>
          clock >= s.channels[c].lastDispatch.value + 60 * SECOND)
  }

  ghost predicate Enabled(s: State, c: ChannelId) {
    c in s.channels && s.channels[c].status != Disabled
  }

  /** Why a step cancels the row: its run or channel is gone, its channel is disabled, or becomes a notification one. */
  ghost predicate Cancels(s: State, e: Event, d: DeliveryId)
    requires d in s.deliveries
  {
    match e
    case Skip(w) => Sees(s, w, d)
    case Disable(c, hit) =>
      && Enabled(s, c) && s.deliveries[d].channel == c
      && (s.deliveries[d].status == Pending || s.deliveries[d].status == Sending || d in hit)
    case Configure(c, kind, _) =>
      kind == Notification && s.deliveries[d].channel == c && s.deliveries[d].status == Pending
    case _ => false
  }

  /** The outcome of a flight of this row is written; only a refused endpoint was not called. */
  ghost predicate Writes(s: State, e: Event, d: DeliveryId) {
    && e.Write? && e.flight in s.flights && s.flights[e.flight].delivery == d
    && s.flights[e.flight].called == (e.outcome != EndpointRefused)
  }

  /** A failed call is final for a notification and at the last attempt. */
  ghost predicate Final(s: State, flight: Flight) {
    flight.kind == Notification || flight.attempt >= s.maxAttempts
  }

  ghost predicate Fails(s: State, e: Event, d: DeliveryId)
    requires d in s.deliveries
  {
    var row := s.deliveries[d];
    || (Writes(s, e, d) && (e.outcome == EndpointRefused || (e.outcome == Failure && Final(s, s.flights[e.flight]))))
    || (e.Sweep? && row.status == Sending && row.lastAttempt.Some? && row.lastAttempt.value + 120 * SECOND < e.now)
  }

  ghost predicate Delivers(s: State, e: Event, d: DeliveryId) {
    Writes(s, e, d) && e.outcome == Success
  }

  ghost predicate Retries(s: State, e: Event, d: DeliveryId) {
    Writes(s, e, d) && e.outcome == Failure && !Final(s, s.flights[e.flight])
  }

  ghost predicate Takes(s: State, e: Event, d: DeliveryId) {
    e.Claim? && Sees(s, e.worker, d) && s.deliveries[d].status == Pending && MinuteFree(s, e.worker, d, e.clock)
  }

  /** The status of an existing row after a step. */
  ghost function Fate(s: State, e: Event, d: DeliveryId): Status
    requires d in s.deliveries
  {
    if Cancels(s, e, d) then Cancelled
    else if Delivers(s, e, d) then Delivered
    else if Fails(s, e, d) then Failed
    else if Retries(s, e, d) then Pending
    else if Takes(s, e, d) then Sending
    else s.deliveries[d].status
  }

  lemma ChannelFate(s: State, e: Event, d: DeliveryId)
    requires d in s.deliveries && (e.Configure? || e.Disable? || e.MarkChannel? || e.Test? || e.Enqueue? || e.Sweep?)
    ensures d in Step(s, e).deliveries && Step(s, e).deliveries[d].status == Fate(s, e, d)
  {
  }

  lemma BatchFate(s: State, e: Event, d: DeliveryId)
    requires d in s.deliveries && (e.StartBatch? || e.Look? || e.Skip? || e.Postpone?)
    ensures d in Step(s, e).deliveries && Step(s, e).deliveries[d].status == Fate(s, e, d)
  {
  }

  lemma ClaimFate(s: State, e: Event, d: DeliveryId)
    requires d in s.deliveries && e.Claim?
    ensures d in Step(s, e).deliveries && Step(s, e).deliveries[d].status == Fate(s, e, d)
  {
  }

  lemma FlightFate(s: State, e: Event, d: DeliveryId)
    requires d in s.deliveries && (e.Call? || e.Write? || e.Lose? || e.Crash?)
    ensures d in Step(s, e).deliveries && Step(s, e).deliveries[d].status == Fate(s, e, d)
  {
  }

  /** Every step moves the status of every row exactly so. */
  lemma StatusMoves(s: State, e: Event, d: DeliveryId)
    requires d in s.deliveries
    ensures d in Step(s, e).deliveries && Step(s, e).deliveries[d].status == Fate(s, e, d)
  {
    if e.Claim? {
      ClaimFate(s, e, d);
    } else if e.StartBatch? || e.Look? || e.Skip? || e.Postpone? {
      BatchFate(s, e, d);
    } else if e.Call? || e.Write? || e.Lose? || e.Crash? {
      FlightFate(s, e, d);
    } else {
      ChannelFate(s, e, d);
    }
  }

  /** When a row that waits is due again. */
  ghost function DueAgain(s: State, e: Event, d: DeliveryId): int
    requires d in s.deliveries
  {
    if Retries(s, e, d) then s.flights[e.flight].now + 5 * Power2(s.flights[e.flight].attempt) * SECOND
    else if e.Postpone? && Sees(s, e.worker, d) && s.deliveries[d].channel in s.channels
        && !MinuteFree(s, e.worker, d, e.clock) then s.workers[e.worker].now + 60 * SECOND
    else s.deliveries[d].availableAt
  }

  lemma BatchDue(s: State, e: Event, d: DeliveryId)
    requires d in s.deliveries && (e.Skip? || e.Postpone? || e.Claim?)
    ensures d in Step(s, e).deliveries && Step(s, e).deliveries[d].availableAt == DueAgain(s, e, d)
  {
  }

  lemma FlightDue(s: State, e: Event, d: DeliveryId)
    requires d in s.deliveries && (e.Call? || e.Write?)
    ensures d in Step(s, e).deliveries && Step(s, e).deliveries[d].availableAt == DueAgain(s, e, d)
  {
  }

  lemma OtherDue(s: State, e: Event, d: DeliveryId)
    requires d in s.deliveries && !e.Skip? && !e.Postpone? && !e.Claim? && !e.Call? && !e.Write?
    ensures d in Step(s, e).deliveries && Step(s, e).deliveries[d].availableAt == DueAgain(s, e, d)
  {
    match e
    case Configure(_, _, _) =>
    case Disable(_, _) =>
    case Sweep(_) =>
    case _ =>
  }

  lemma DueMoves(s: State, e: Event, d: DeliveryId)
    requires d in s.deliveries
    ensures d in Step(s, e).deliveries && Step(s, e).deliveries[d].availableAt == DueAgain(s, e, d)
  {
    if e.Skip? || e.Postpone? || e.Claim? {
      BatchDue(s, e, d);
    } else if e.Call? || e.Write? {
      FlightDue(s, e, d);
    } else {
      OtherDue(s, e, d);
    }
  }

  /** A new row waits, is the only one of its run, and its channel takes it. */
  lemma NewRowWaits(s: State, e: Event, d: DeliveryId)
    requires d !in s.deliveries && d in Step(s, e).deliveries
    ensures var row := Step(s, e).deliveries[d];
            && e.Enqueue? && e.delivery == d && row.run == e.run && row.channel == e.channel
            && row.status == Pending && row.availableAt == e.at && row.attempts == 0
            && Enabled(s, row.channel)
            && (s.channels[row.channel].kind == Notification ==> s.channels[row.channel].status == Active)
            && forall b | b in s.deliveries :: s.deliveries[b].run != row.run
  {
    match e
    case Configure(_, _, _) =>
    case Disable(_, _) =>
    case Sweep(_) =>
    case Skip(_) =>
    case Postpone(_, _) =>
    case Claim(_, _) =>
    case Call(_) =>
    case Write(_, _) =>
    case _ =>
  }

  // ----- Channels -----

  /** The channel's minute is free for a send at this time. */
  ghost predicate Free(channel: Channel, clock: int) {
    channel.lastDispatch.Some? ==> clock >= channel.lastDispatch.value + 60 * SECOND
  }

  /** The step sends through the channel, as a test or for a notification it claims. */
  ghost predicate SendsThrough(s: State, e: Event, c: ChannelId)
    requires c in s.channels
  {
    match e
    case Test(x, clock) =>
      x == c && s.channels[c].status != Disabled && s.channels[c].kind == Notification && Free(s.channels[c], clock)
    case Claim(w, clock) =>
      && w in s.workers && s.workers[w].seen.Some? && s.workers[w].seen.value.kind == Notification
      && Takes(s, e, s.workers[w].seen.value.delivery)
      && s.deliveries[s.workers[w].seen.value.delivery].channel == c
    case _ => false
  }

  /** A channel after a step. Saving or disabling it keeps the time of its last send. */
  ghost function ChannelAfter(s: State, e: Event, c: ChannelId): Channel
    requires c in s.channels
  {
    var row := s.channels[c];
    if SendsThrough(s, e, c) then
      row.(lastDispatch := Some(e.clock), reservations := row.reservations + [e.clock])
    else
      match e
      case Configure(x, kind, connector) =>
        if x == c then row.(kind := kind, connector := connector, status := Configured) else row
      case Disable(x, _) => if x == c then row.(status := Disabled) else row
      case MarkChannel(x, status) => if x == c then row.(status := status) else row
      case _ => row
  }

  lemma ClaimedChannel(s: State, e: Event, c: ChannelId)
    requires c in s.channels && e.Claim?
    ensures c in Step(s, e).channels && Step(s, e).channels[c] == ChannelAfter(s, e, c)
  {
  }

  /** Every step moves every channel exactly so. */
  lemma ChannelsMove(s: State, e: Event, c: ChannelId)
    requires c in s.channels
    ensures c in Step(s, e).channels && Step(s, e).channels[c] == ChannelAfter(s, e, c)
  {
    match e
    case Configure(_, _, _) =>
    case Disable(_, _) =>
    case MarkChannel(_, _) =>
    case Test(_, _) =>
    case Postpone(_, _) =>
    case Claim(_, _) => ClaimedChannel(s, e, c);
    case _ =>
  }

  lemma NewChannel(s: State, e: Event, c: ChannelId)
    requires c !in s.channels && c in Step(s, e).channels
    ensures e.Configure? && e.channel == c
    ensures Step(s, e).channels[c] == Channel(e.kind, e.connector, Configured, None, [])
  {
    match e
    case Claim(_, _) =>
    case Postpone(_, _) =>
    case _ =>
  }

  // ----- Workers and their flights -----

  /** The claim finds its row taken or gone: its transaction is rolled back. */
  ghost predicate RollsBack(s: State, e: Event, w: WorkerId) {
    && e.Claim? && e.worker == w && w in s.workers && s.workers[w].seen.Some?
    && var d := s.workers[w].seen.value.delivery;
    Sees(s, w, d) && MinuteFree(s, w, d, e.clock) && s.deliveries[d].status != Pending
  }

  /** An outcome is written or lost, by itself, with its worker, or with a transaction that is rolled back. */
  ghost predicate EndsFlight(s: State, e: Event, f: FlightId)
    requires f in s.flights
  {
    || (Writes(s, e, s.flights[f].delivery) && s.flights[f].delivery in s.deliveries && e.flight == f)
    || e == Lose(f) || e == Crash(s.flights[f].worker) || RollsBack(s, e, s.flights[f].worker)
  }

  lemma FlightsMove(s: State, e: Event, f: FlightId)
    requires f in s.flights && f < s.nextFlight
    ensures var t := Step(s, e);
            && (f in t.flights <==> !EndsFlight(s, e, f))
            && (f in t.flights ==>
                  t.flights[f] == s.flights[f].(called := s.flights[f].called
                    || (e == Call(f) && s.flights[f].delivery in s.deliveries)))
  {
    match e
    case Claim(_, _) => ClaimFlights(s, e, f);
    case Call(_) =>
    case Write(_, _) =>
    case Lose(_) =>
    case Crash(_) =>
    case Postpone(_, _) =>
    case Skip(_) =>
    case _ =>
  }

  lemma ClaimFlights(s: State, e: Event, f: FlightId)
    requires f in s.flights && f < s.nextFlight && e.Claim?
    ensures var t := Step(s, e);
            (f in t.flights <==> !EndsFlight(s, e, f)) && (f in t.flights ==> t.flights[f] == s.flights[f])
  {
  }

  /** A new flight is that of a row taken, at the attempt after the one that was seen. */
  lemma NewFlight(s: State, e: Event, f: FlightId)
    requires f !in s.flights && f in Step(s, e).flights
    ensures e.Claim? && e.worker in s.workers && s.workers[e.worker].seen.Some?
    ensures var seen := s.workers[e.worker].seen.value;
            && Takes(s, e, seen.delivery)
            && Step(s, e).flights[f] ==
              Flight(e.worker, seen.delivery, seen.kind, seen.attempts + 1, s.workers[e.worker].now, false)
  {
    match e
    case Call(_) =>
    case Write(_, _) =>
    case Postpone(_, _) =>
    case _ =>
  }

  /** What a worker's refresh of a row of its batch shows. */
  ghost function Shown(s: State, d: DeliveryId): Option<Seen>
    requires d in s.deliveries
  {
    var row := s.deliveries[d];
    if row.status == Pending && row.channel in s.channels
    then Some(Seen(d, row.attempts, s.channels[row.channel].kind, row.claims)) else None
  }

  /** The row seen is settled by this step, one way or the other. */
  ghost predicate Settles(s: State, e: Event, w: WorkerId) {
    && w in s.workers && s.workers[w].seen.Some?
    && var d := s.workers[w].seen.value.delivery;
    && d in s.deliveries
    && match e
       case Skip(v) => v == w
       case Postpone(v, clock) =>
         v == w && s.workers[w].seen.value.kind == Notification && s.deliveries[d].channel in s.channels
           && !MinuteFree(s, w, d, clock)
       case Claim(v, clock) => v == w && MinuteFree(s, w, d, clock)
       case _ => false
  }

  /** A worker after a step: none before its first batch and after a crash. */
  ghost function WorkerAfter(s: State, e: Event, w: WorkerId): Option<Worker> {
    var before := if w in s.workers then Some(s.workers[w]) else None;
    if e == Crash(w) then None
    else if e.StartBatch? && e.worker == w && (forall f | f in s.flights :: s.flights[f].worker != w)
        && (forall d | d in e.rows ::
          d in s.deliveries && s.deliveries[d].status == Pending && s.deliveries[d].availableAt <= e.now)
    then Some(Worker(e.now, e.rows, None))
    else if e.Look? && e.worker == w && w in s.workers && e.delivery in s.workers[w].rows && e.delivery in s.deliveries
    then Some(Worker(s.workers[w].now, s.workers[w].rows - {e.delivery}, Shown(s, e.delivery)))
    else if Settles(s, e, w) then Some(s.workers[w].(seen := None))
    else before
  }

  lemma WorkersMove(s: State, e: Event, w: WorkerId)
    ensures WorkerAfter(s, e, w) == if w in Step(s, e).workers then Some(Step(s, e).workers[w]) else None
  {
    match e
    case StartBatch(v, now, rows) => BatchStarts(s, v, now, rows);
    case Look(_, _) =>
    case Skip(_) =>
    case Postpone(_, _) =>
    case Claim(_, _) =>
    case Crash(_) =>
    case _ =>
  }

  lemma BatchStarts(s: State, w: WorkerId, now: int, rows: set<DeliveryId>)
    ensures Busy(s, w) <==> !forall f | f in s.flights :: s.flights[f].worker != w
    ensures (exists d | d in rows :: !Due(s, d, now)) <==>
              !forall d | d in rows ::
                d in s.deliveries && s.deliveries[d].status == Pending && s.deliveries[d].availableAt <= now
  {
  }

  // ----- Every run -----

  /** The step stands behind this status of the row. */
  ghost predicate Gives(s: State, e: Event, d: DeliveryId, status: Status) {
    d in s.deliveries &&
    match status
    case Pending => Retries(s, e, d)
    case Sending => Takes(s, e, d)
    case Delivered => Delivers(s, e, d)
    case Failed => Fails(s, e, d)
    case Cancelled => Cancels(s, e, d)
  }

  ghost predicate GivenAt(start: State, events: seq<Event>, i: nat, d: DeliveryId, status: Status) {
    i < |events| && Gives(Run(start, events[..i]), events[i], d, status)
  }

  ghost predicate HasStatus(s: State, d: DeliveryId, status: Status) {
    d in s.deliveries && s.deliveries[d].status == status
  }

  /** This step gave the row its status, which it has had ever since. */
  ghost predicate LastGiven(start: State, events: seq<Event>, i: nat, d: DeliveryId, status: Status) {
    && GivenAt(start, events, i, d, status)
    && forall j | i < j <= |events| :: HasStatus(Run(start, events[..j]), d, status)
  }

  lemma {:induction false} RunSnoc(s: State, events: seq<Event>, e: Event)
    ensures Run(s, events + [e]) == Step(Run(s, events), e)
    decreases |events|
  {
    if events == [] {
      assert events + [e] == [e] && [e][1..] == [];
    } else {
      assert (events + [e])[1..] == events[1..] + [e];
      RunSnoc(Step(s, events[0]), events[1..], e);
    }
  }

  lemma GivenEarlier(start: State, init: seq<Event>, e: Event, i: nat, d: DeliveryId, status: Status)
    requires LastGiven(start, init, i, d, status) && HasStatus(Step(Run(start, init), e), d, status)
    ensures LastGiven(start, init + [e], i, d, status)
  {
    var events := init + [e];
    RunSnoc(start, init, e);
    assert GivenAt(start, events, i, d, status) by { assert events[..i] == init[..i] && events[i] == init[i]; }
    StatusKept(start, init, e, i, d, status);
  }

  lemma StatusKept(start: State, init: seq<Event>, e: Event, i: nat, d: DeliveryId, status: Status)
    requires forall j | i < j <= |init| :: HasStatus(Run(start, init[..j]), d, status)
    requires HasStatus(Run(start, init + [e]), d, status)
    ensures forall j | i < j <= |init| + 1 :: HasStatus(Run(start, (init + [e])[..j]), d, status)
  {
    forall j | i < j <= |init| + 1 ensures HasStatus(Run(start, (init + [e])[..j]), d, status) {
      assert (init + [e])[..j] == if j <= |init| then init[..j] else init + [e];
    }
  }

  lemma GivenNow(start: State, init: seq<Event>, e: Event, d: DeliveryId, status: Status)
    requires Gives(Run(start, init), e, d, status) && HasStatus(Step(Run(start, init), e), d, status)
    ensures LastGiven(start, init + [e], |init|, d, status)
  {
    var events := init + [e];
    RunSnoc(start, init, e);
    assert events[..|init|] == init && events[..|events|] == events;
  }

  /**
    In every run, a row that is no longer pending got its status from a step that stands behind
    it, and kept it since: delivered from a call that was made and accepted, failed from a refused
    endpoint, a final failure or an interrupted call, cancelled from a disabled or changed channel
    or a run that is gone.
   */
  lemma {:induction false} EveryStatusHasItsCause(max: nat, events: seq<Event>, d: DeliveryId)
    requires d in Run(Start(max), events).deliveries && Run(Start(max), events).deliveries[d].status != Pending
    ensures exists i: nat :: LastGiven(Start(max), events, i, d, Run(Start(max), events).deliveries[d].status)
    decreases |events|
  {
    var start := Start(max);
    if events != [] {
      var init, e := events[..|events| - 1], events[|events| - 1];
      assert events == init + [e];
      RunSnoc(start, init, e);
      var s := Run(start, init);
      var status := Step(s, e).deliveries[d].status;
      if d !in s.deliveries {
        NewRowWaits(s, e, d);
      } else {
        StatusMoves(s, e, d);
        if status == s.deliveries[d].status {
          EveryStatusHasItsCause(max, init, d);
          var i: nat :| LastGiven(start, init, i, d, status);
          GivenEarlier(start, init, e, i, d, status);
        } else {
          GivenNow(start, init, e, d, status);
        }
      }
    }
  }

  /** A run of the agent is announced at most once. */
  ghost predicate OncePerRun(s: State) {
    forall c, d | c in s.deliveries && d in s.deliveries && c != d :: s.deliveries[c].run != s.deliveries[d].run
  }

  lemma RunKept(s: State, e: Event, d: DeliveryId)
    requires d in s.deliveries
    ensures d in Step(s, e).deliveries && Step(s, e).deliveries[d].run == s.deliveries[d].run
    ensures Step(s, e).deliveries[d].channel == s.deliveries[d].channel
  {
    match e
    case Configure(_, _, _) =>
    case Disable(_, _) =>
    case Sweep(_) =>
    case Skip(_) =>
    case Postpone(_, _) =>
    case Claim(_, _) =>
    case Call(_) =>
    case Write(_, _) =>
    case _ =>
  }

  lemma StepOncePerRun(s: State, e: Event)
    requires OncePerRun(s)
    ensures OncePerRun(Step(s, e))
  {
    var t := Step(s, e);
    forall c, d | c in t.deliveries && d in t.deliveries && c != d ensures t.deliveries[c].run != t.deliveries[d].run {
      if c in s.deliveries { RunKept(s, e, c); } else { NewRowWaits(s, e, c); }
      if d in s.deliveries { RunKept(s, e, d); } else { NewRowWaits(s, e, d); }
    }
  }

  /** In every run of the dispatcher each agent run has at most one delivery. */
  lemma {:induction false} OneDeliveryPerRun(s: State, events: seq<Event>)
    requires OncePerRun(s)
    ensures OncePerRun(Run(s, events))
    decreases |events|
  {
    if events != [] {
      StepOncePerRun(s, events[0]);
      OneDeliveryPerRun(Step(s, events[0]), events[1..]);
    }
  }
}
