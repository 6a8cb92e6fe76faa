/**
  The wake tables as one mutable store and the dispatch loop over it. The loop's effect is a run
  of the dispatcher's own steps, so everything proved of runs holds of it.
 */
module WakeOutbox {
  import opened Prelude
  import opened Wake
  import opened WakeOutcomes

  /** What a batch finds outside the tables for one row: can it go out, the clock, the sender's answer. */
  datatype Turn = Turn(deliverable: bool, clock: int, outcome: Outcome)

  /** How many outcomes of a run say that the sender delivered. */
  function Successes(events: seq<Event>): nat {
    if events == [] then 0
    else Successes(events[..|events| - 1]) + if events[|events| - 1].Write?
        && events[|events| - 1].outcome == Success then 1 else 0
  }

  lemma SuccessesSnoc(events: seq<Event>, e: Event)
    ensures Successes(events + [e]) == Successes(events) + if e.Write? && e.outcome == Success then 1 else 0
  {
    assert (events + [e])[..|events|] == events;
  }

  // ----- The steps of a pass, decided by what each row's turn finds -----

  function SendEvents(f: FlightId, outcome: Outcome): seq<Event> {
    if outcome == EndpointRefused then [Write(f, outcome)] else [Call(f), Write(f, outcome)]
  }

  function SettleEvents(s: State, w: WorkerId, turn: Turn): seq<Event> {
    if !turn.deliverable then [Skip(w)]
    else if !Claimable(s, w, turn.clock) then [Postpone(w, turn.clock)]
    else [Claim(w, turn.clock)] + SendEvents(s.nextFlight, turn.outcome)
  }

  function RowEvents(s: State, w: WorkerId, d: DeliveryId, turn: Turn): seq<Event> {
    var t := Step(s, Look(w, d));
    [Look(w, d)] + if Saw(t, w) then SettleEvents(t, w, turn) else []
  }

  function RowsEvents(s: State, w: WorkerId, rows: seq<DeliveryId>, turns: seq<Turn>): seq<Event>
    requires |turns| == |rows|
  {
    if rows == [] then []
    else
      var n := |rows| - 1;
      var earlier := RowsEvents(s, w, rows[..n], turns[..n]);
      earlier + RowEvents(Run(s, earlier), w, rows[n], turns[n])
  }

  function PassEvents(s: State, w: WorkerId, now: int, rows: seq<DeliveryId>, turns: seq<Turn>): seq<Event>
    requires |turns| == |rows|
  {
    var opening := [Sweep(now), StartBatch(w, now, set i | 0 <= i < |rows| :: rows[i])];
    opening + RowsEvents(Run(s, opening), w, rows, turns)
  }

  // ----- What a turn makes of its row -----

  /** The status an outcome gives a row claimed at this attempt. */
  function After(outcome: Outcome, kind: Kind, attempt: nat, max: nat): Status {
    match outcome
    case Success => Delivered
    case EndpointRefused => Failed
    case Failure => if kind == Aily && attempt < max then Pending else Failed
  }

  /** A notification channel that was reserved less than a minute before takes nothing. */
  predicate MustWait(channel: Channel, clock: int) {
    channel.kind == Notification && channel.lastDispatch.Some? && clock < channel.lastDispatch.value + 60 * SECOND
  }

  /** The status a pending row has after its turn. */
  function TurnFate(channel: Channel, attempts: nat, max: nat, turn: Turn): Status {
    if !turn.deliverable then Cancelled
    else if MustWait(channel, turn.clock) then Pending
    else After(turn.outcome, channel.kind, attempts + 1, max)
  }

  /** Only this row moved, and of the channels only the times of their reservations. */
  ghost predicate OnlyRow(s: State, t: State, d: DeliveryId) {
    && t.deliveries.Keys == s.deliveries.Keys && t.channels.Keys == s.channels.Keys
    && (forall b | b in s.deliveries && b != d :: t.deliveries[b] == s.deliveries[b])
    && (forall c | c in s.channels :: t.channels[c].kind == s.channels[c].kind)
    && (d in s.deliveries ==> t.deliveries[d].channel == s.deliveries[d].channel)
  }

  /** What a pass makes of a pending row: its turn settles it, or its channel has to wait. */
  ghost predicate SettledAs(s: State, t: State, d: DeliveryId, turn: Turn) {
    && d in s.deliveries && d in t.deliveries
    && var row := s.deliveries[d];
    if row.channel !in s.channels then t.deliveries[d] == row
       else if !turn.deliverable then t.deliveries[d].status == Cancelled
       else
         || t.deliveries[d].status == After(turn.outcome, s.channels[row.channel].kind, row.attempts + 1, s.maxAttempts)
         || (s.channels[row.channel].kind == Notification && t.deliveries[d].status == Pending)
  }

  /** Rows that a pass was not given keep what they were. */
  ghost predicate OthersStay(s: State, t: State, rows: seq<DeliveryId>) {
    && t.deliveries.Keys == s.deliveries.Keys && t.channels.Keys == s.channels.Keys
    && (forall c | c in s.channels :: t.channels[c].kind == s.channels[c].kind)
    && forall b | b in s.deliveries && b !in rows :: t.deliveries[b] == s.deliveries[b]
  }

  /** The given rows that are delivered. */
  function Arrived(deliveries: map<DeliveryId, Delivery>, rows: seq<DeliveryId>): set<DeliveryId> {
    set d | d in rows && d in deliveries && deliveries[d].status == Delivered
  }

  /** One more step at the end of a run. */
  lemma Extended(s: State, events: seq<Event>, t: State, e: Event)
    requires t == Run(s, events)
    ensures Step(t, e) == Run(s, events + [e])
    ensures Successes(events + [e]) == Successes(events) + if e.Write? && e.outcome == Success then 1 else 0
  {
    RunSnoc(s, events, e);
    SuccessesSnoc(events, e);
  }

  class Outbox {
    const maxAttempts: nat
    var channels: map<ChannelId, Channel>
    var deliveries: map<DeliveryId, Delivery>
    var workers: map<WorkerId, Worker>
    var flights: map<FlightId, Flight>
    var nextFlight: FlightId

    function View(): State
      reads this
    {
      State(maxAttempts, channels, deliveries, workers, flights, nextFlight)
    }

    constructor (bound: nat)
      ensures View() == Start(bound)
    {
      maxAttempts, channels, deliveries, workers, flights, nextFlight := bound, map[], map[], map[], map[], 0;
    }

    /** Fail every call that was interrupted two minutes ago. */
    method SweepStale(now: int)
      modifies this`deliveries
      ensures View() == Step(old(View()), Sweep(now))
    {
      deliveries := map d | d in deliveries ::
        if Stale(deliveries[d], now) then deliveries[d].(status := Failed) else deliveries[d];
    }

    method BeginBatch(w: WorkerId, now: int, rows: set<DeliveryId>)
      requires !Busy(View(), w) && forall d | d in rows :: Due(View(), d, now)
      modifies this`workers
      ensures View() == Step(old(View()), StartBatch(w, now, rows))
      ensures workers == old(workers)[w := Worker(now, rows, None)]
    {
      workers := workers[w := Worker(now, rows, None)];
    }

    /** Refresh a row: true when it is still pending and its channel exists. */
    method RefreshRow(w: WorkerId, d: DeliveryId) returns (pending: bool)
      requires w in workers && d in workers[w].rows && d in deliveries
      modifies this`workers
      ensures View() == Step(old(View()), Look(w, d))
      ensures pending == Saw(View(), w) && (pending ==> workers[w].seen.value.delivery == d)
      ensures pending <==> deliveries[d].status == Pending && deliveries[d].channel in channels
      ensures pending ==> workers[w].seen.value.attempts == deliveries[d].attempts
      ensures pending ==> workers[w].seen.value.kind == channels[deliveries[d].channel].kind
      ensures w in workers && workers[w].rows == old(workers)[w].rows - {d}
    {
      var row := deliveries[d];
      pending := row.status == Pending && row.channel in channels;
      var seen := if pending then Some(Seen(d, row.attempts, channels[row.channel].kind, row.claims)) else None;
      workers := workers[w := workers[w].(rows := workers[w].rows - {d}, seen := seen)];
    }

    method CancelSeen(w: WorkerId)
      requires Saw(View(), w)
      modifies this`workers, this`deliveries
      ensures View() == Step(old(View()), Skip(w))
      ensures deliveries.Keys == old(deliveries).Keys && w in workers && workers[w].rows == old(workers)[w].rows
      ensures var d := old(workers[w].seen.value.delivery);
              OnlyRow(old(View()), View(), d) && deliveries[d].status == Cancelled
    {
      var d := workers[w].seen.value.delivery;
      workers := workers[w := workers[w].(seen := None)];
      deliveries := deliveries[d := deliveries[d].(status := Cancelled)];
    }

    /** Try to take the channel's minute: a notification channel that just sent refuses. */
    method MayReserve(w: WorkerId, clock: int) returns (free: bool)
      requires Saw(View(), w)
      ensures free == Claimable(View(), w, clock)
    {
      var seen := workers[w].seen.value;
      var c := deliveries[seen.delivery].channel;
      free := c in channels && (seen.kind == Aily || Reservable(channels[c], clock));
    }

    method PostponeSeen(w: WorkerId, clock: int)
      requires Saw(View(), w) && !Claimable(View(), w, clock)
        && deliveries[workers[w].seen.value.delivery].channel in channels
      modifies this`workers, this`deliveries
      ensures View() == Step(old(View()), Postpone(w, clock))
      ensures deliveries.Keys == old(deliveries).Keys && w in workers && workers[w].rows == old(workers)[w].rows
      ensures var d := old(workers[w].seen.value.delivery);
              && OnlyRow(old(View()), View(), d) && deliveries[d].status == old(deliveries[d].status)
              && deliveries[d].availableAt == old(workers[w].now) + 60 * SECOND
    {
      var d := workers[w].seen.value.delivery;
      deliveries := deliveries[d := deliveries[d].(availableAt := workers[w].now + 60 * SECOND)];
      workers := workers[w := workers[w].(seen := None)];
    }

    /**
      Reserve the channel and claim the row in one transaction. A row that is no longer pending
      rolls it back, and with it every outcome this worker has not committed.
     */
    method ClaimSeen(w: WorkerId, clock: int) returns (flight: Option<FlightId>)
      requires Claimable(View(), w, clock)
      modifies this`channels, this`deliveries, this`workers, this`flights, this`nextFlight
      ensures View() == Step(old(View()), Claim(w, clock))
      ensures deliveries.Keys == old(deliveries).Keys && w in workers && workers[w].rows == old(workers)[w].rows
      ensures flight.Some? <==> old(deliveries[workers[w].seen.value.delivery]).status == Pending
      ensures flight.Some? ==>
                && flight.value == old(nextFlight) && flight.value in flights && !flights[flight.value].called
                && flights[flight.value].delivery in deliveries
      ensures var seen := old(workers[w].seen.value);
              && OnlyRow(old(View()), View(), seen.delivery)
              && (flight.Some? ==>
                    && deliveries[seen.delivery].status == Sending
                    && deliveries[seen.delivery].attempts == seen.attempts + 1
                    && deliveries[seen.delivery].lastAttempt == Some(old(workers[w].now))
                    && flights[flight.value] ==
                      Flight(w, seen.delivery, seen.kind, seen.attempts + 1, old(workers[w].now), false))
              && (flight.None? ==> deliveries[seen.delivery] == old(deliveries[seen.delivery]))
    {
      var seen := workers[w].seen.value;
      var row := deliveries[seen.delivery];
      var reserved := channels;
      if seen.kind == Notification {
        channels := channels[row.channel := Reserve(channels[row.channel], clock)];
      }
      if row.status != Pending {
        channels := reserved;
        flights := map f | f in flights && flights[f].worker != w :: flights[f];
        workers := workers[w := workers[w].(seen := None)];
        return None;
      }
      deliveries := deliveries[seen.delivery := Claimed(row, seen, workers[w].now, clock)];
      flights := flights[nextFlight := Flight(w, seen.delivery, seen.kind, seen.attempts + 1, workers[w].now, false)];
      workers := workers[w := workers[w].(seen := None)];
      flight := Some(nextFlight);
      nextFlight := nextFlight + 1;
    }

    method CallSender(f: FlightId)
      requires f in flights && !flights[f].called && flights[f].delivery in deliveries
      modifies this`deliveries, this`flights
      ensures View() == Step(old(View()), Call(f))
      ensures f in flights && flights[f].called && flights[f].delivery in deliveries
      ensures flights[f] == old(flights[f]).(called := true) && OnlyRow(old(View()), View(), flights[f].delivery)
    {
      var flight := flights[f];
      var row := deliveries[flight.delivery];
      flights := flights[f := flight.(called := true)];
      deliveries := deliveries[flight.delivery :=
        row.(calls := row.calls + 1, notices := row.notices + if flight.kind == Notification then 1 else 0)];
    }

    method WriteOutcome(f: FlightId, outcome: Outcome)
      requires f in flights && flights[f].delivery in deliveries && flights[f].called == (outcome != EndpointRefused)
      modifies this`deliveries, this`flights
      ensures View() == Step(old(View()), Write(f, outcome))
      ensures var flight := old(flights[f]);
              && f !in flights && OnlyRow(old(View()), View(), flight.delivery)
              && deliveries[flight.delivery].status == After(outcome, flight.kind, flight.attempt, maxAttempts)
              && (deliveries[flight.delivery].status == Pending ==>
                    deliveries[flight.delivery].availableAt == flight.now + 5 * Power2(flight.attempt) * SECOND)
    {
      var flight := flights[f];
      deliveries := deliveries[flight.delivery := Written(View(), deliveries[flight.delivery], flight, outcome)];
      flights := flights - {f};
    }

    /** A claimed row: call the sender unless its endpoint is refused, then write the outcome. */
    method SendClaimed(f: FlightId, outcome: Outcome)
      requires f in flights && !flights[f].called && flights[f].delivery in deliveries
      modifies this`deliveries, this`flights
      ensures View() == Run(old(View()), SendEvents(f, outcome))
      ensures var flight := old(flights[f]);
              && OnlyRow(old(View()), View(), flight.delivery)
              && deliveries[flight.delivery].status == After(outcome, flight.kind, flight.attempt, maxAttempts)
    {
      RunOne(View(), Write(f, outcome));
      if outcome != EndpointRefused {
        RunTwo(View(), Call(f), Write(f, outcome));
        CallSender(f);
      }
      WriteOutcome(f, outcome);
    }

    /** A row seen pending: cancel it, postpone it, or claim and send it. */
    method SettleSeen(w: WorkerId, turn: Turn) returns (delivered: bool)
      requires Saw(View(), w)
      requires var row := deliveries[workers[w].seen.value.delivery]; row.status == Pending && row.channel in channels
      modifies this`channels, this`deliveries, this`workers, this`flights, this`nextFlight
      ensures View() == Run(old(View()), SettleEvents(old(View()), w, turn))
      ensures delivered == (turn.deliverable && Claimable(old(View()), w, turn.clock) && turn.outcome == Success)
      ensures w in workers && workers[w].rows == old(workers)[w].rows
      ensures var seen := old(workers[w].seen.value);
              && OnlyRow(old(View()), View(), seen.delivery)
              && (delivered <==> deliveries[seen.delivery].status == Delivered)
              && (seen.kind == old(channels[deliveries[seen.delivery].channel].kind) ==>
                    deliveries[seen.delivery].status ==
                      TurnFate(old(channels[deliveries[seen.delivery].channel]), seen.attempts, maxAttempts, turn))
    {
      ghost var s := View();
      delivered := false;
      if !turn.deliverable {
        RunOne(s, Skip(w));
        CancelSeen(w);
        return;
      }
      var free := MayReserve(w, turn.clock);
      if !free {
        RunOne(s, Postpone(w, turn.clock));
        PostponeSeen(w, turn.clock);
        return;
      }
      RunOne(s, Claim(w, turn.clock));
      Joined(s, [Claim(w, turn.clock)], SendEvents(s.nextFlight, turn.outcome));
      var f := ClaimSeen(w, turn.clock);
      SendClaimed(f.value, turn.outcome);
      delivered := turn.outcome == Success;
    }

    /** One selected row, refreshed first; a row that is no longer pending is passed over. */
    method DispatchRow(w: WorkerId, d: DeliveryId, turn: Turn) returns (delivered: bool)
      requires w in workers && d in workers[w].rows && d in deliveries
      modifies this`channels, this`deliveries, this`workers, this`flights, this`nextFlight
      ensures View() == Run(old(View()), RowEvents(old(View()), w, d, turn))
      ensures (if delivered then 1 else 0) == Successes(RowEvents(old(View()), w, d, turn))
      ensures w in workers && workers[w].rows == old(workers)[w].rows - {d}
      ensures TurnTaken(old(View()), View(), d, turn, delivered)
    {
      ghost var s := View();
      RunOne(s, Look(w, d));
      RowSuccesses(s, w, d, turn);
      var pending := RefreshRow(w, d);
      delivered := false;
      if pending {
        Joined(s, [Look(w, d)], SettleEvents(View(), w, turn));
        delivered := SettleSeen(w, turn);
      }
    }

    /** Every selected row in turn. */
    method DispatchRows(w: WorkerId, rows: seq<DeliveryId>, turns: seq<Turn>) returns (delivered: nat)
      requires w in workers && |turns| == |rows|
      requires forall i | 0 <= i < |rows| :: rows[i] in workers[w].rows && rows[i] in deliveries
      requires forall i | 0 <= i < |rows| :: deliveries[rows[i]].status == Pending
      requires forall i, j | 0 <= i < j < |rows| :: rows[i] != rows[j]
      modifies this`channels, this`deliveries, this`workers, this`flights, this`nextFlight
      ensures View() == Run(old(View()), RowsEvents(old(View()), w, rows, turns))
      ensures delivered == Successes(RowsEvents(old(View()), w, rows, turns))
      ensures Progress(old(View()), View(), rows, turns, delivered)
    {
      ghost var s := View();
      delivered := 0;
      NoProgress(s);
      for i := 0 to |rows|
        invariant PassSoFar(s, View(), w, rows[..i], turns[..i], delivered)
        invariant w in workers
        invariant Progress(s, View(), rows[..i], turns[..i], delivered)
        invariant forall j | i <= j < |rows| :: rows[j] in workers[w].rows
      {
        ghost var t := View();
        var sent := DispatchRow(w, rows[i], turns[i]);
        assert PassSoFar(s, View(), w, rows[..i + 1], turns[..i + 1], delivered + if sent then 1 else 0) by {
          PassNext(s, t, View(), w, rows, turns, i, delivered, sent);
        }
        assert Progress(s, View(), rows[..i + 1], turns[..i + 1], delivered + if sent then 1 else 0) by {
          NextRow(s, t, View(), rows, turns, i, delivered, sent);
        }
        delivered := delivered + if sent then 1 else 0;
      }
      assert rows[..|rows|] == rows && turns[..|rows|] == turns;
    }

    /** Start a batch on the given rows and work through them. */
    method DispatchBatch(w: WorkerId, now: int, rows: seq<DeliveryId>, turns: seq<Turn>) returns (delivered: nat)
      requires |turns| == |rows| && !Busy(View(), w)
      requires forall i | 0 <= i < |rows| :: Due(View(), rows[i], now)
      requires forall i, j | 0 <= i < j < |rows| :: rows[i] != rows[j]
      modifies this`channels, this`deliveries, this`workers, this`flights, this`nextFlight
      ensures var t := Step(old(View()), StartBatch(w, now, set i | 0 <= i < |rows| :: rows[i]));
              && View() == Run(t, RowsEvents(t, w, rows, turns))
              && delivered == Successes(RowsEvents(t, w, rows, turns))
      ensures Progress(old(View()), View(), rows, turns, delivered)
    {
      ghost var s := View();
      var selected := set i | 0 <= i < |rows| :: rows[i];
      BeginBatch(w, now, selected);
      ghost var t := View();
      forall i | 0 <= i < |rows| ensures rows[i] in selected && t.deliveries[rows[i]].status == Pending {
        assert Due(s, rows[i], now);
      }
      delivered := DispatchRows(w, rows, turns);
      StartedAt(s, t, View(), rows, turns, delivered);
    }

    /**
      A dispatch pass: sweep what was interrupted, select due rows, and work through them. Its
      effect is the run of its steps. Each given row is settled as its turn says, others stay as
      the sweep left them, and the count is that of the given rows that are delivered afterwards.
     */
    method DispatchPending(w: WorkerId, now: int, rows: seq<DeliveryId>, turns: seq<Turn>) returns (delivered: nat)
      requires |turns| == |rows| && !Busy(View(), w)
      requires forall i | 0 <= i < |rows| :: Due(Step(View(), Sweep(now)), rows[i], now)
      requires forall i, j | 0 <= i < j < |rows| :: rows[i] != rows[j]
      modifies this`channels, this`deliveries, this`workers, this`flights, this`nextFlight
      ensures View() == Run(old(View()), PassEvents(old(View()), w, now, rows, turns))
      ensures delivered == Successes(PassEvents(old(View()), w, now, rows, turns)) == |Arrived(deliveries, rows)|
      ensures Progress(Step(old(View()), Sweep(now)), View(), rows, turns, delivered)
    {
      ghost var s := View();
      PassRuns(s, w, now, rows, turns);
      SweepStale(now);
      delivered := DispatchBatch(w, now, rows, turns);
    }
  }

  /** The rows so far were a run of their steps. */
  ghost predicate PassSoFar(s: State, t: State, w: WorkerId, rows: seq<DeliveryId>, turns: seq<Turn>, delivered: nat) {
    && |turns| == |rows| && t == Run(s, RowsEvents(s, w, rows, turns))
    && delivered == Successes(RowsEvents(s, w, rows, turns))
  }

  lemma PassNext(s: State, t: State, u: State, w: WorkerId, rows: seq<DeliveryId>, turns: seq<Turn>, i: nat,
      delivered: nat, sent: bool)
    requires i < |rows| == |turns| && PassSoFar(s, t, w, rows[..i], turns[..i], delivered)
    requires u == Run(t, RowEvents(t, w, rows[i], turns[i]))
    requires (if sent then 1 else 0) == Successes(RowEvents(t, w, rows[i], turns[i]))
    ensures PassSoFar(s, u, w, rows[..i + 1], turns[..i + 1], delivered + if sent then 1 else 0)
  {
    RowsNext(s, w, rows, turns, i);
  }

  lemma PassRuns(s: State, w: WorkerId, now: int, rows: seq<DeliveryId>, turns: seq<Turn>)
    requires |turns| == |rows|
    ensures var t := Step(Step(s, Sweep(now)), StartBatch(w, now, set i | 0 <= i < |rows| :: rows[i]));
            && Run(s, PassEvents(s, w, now, rows, turns)) == Run(t, RowsEvents(t, w, rows, turns))
            && Successes(PassEvents(s, w, now, rows, turns)) == Successes(RowsEvents(t, w, rows, turns))
  {
    var selected := set i | 0 <= i < |rows| :: rows[i];
    var t := Step(Step(s, Sweep(now)), StartBatch(w, now, selected));
    RunTwo(s, Sweep(now), StartBatch(w, now, selected));
    Joined(s, [Sweep(now), StartBatch(w, now, selected)], RowsEvents(t, w, rows, turns));
    NoSuccess(Sweep(now), StartBatch(w, now, selected));
  }

  lemma NextRow(s: State, t: State, u: State, rows: seq<DeliveryId>, turns: seq<Turn>, i: nat, delivered: nat,
      sent: bool)
    requires i < |rows| == |turns| && Progress(s, t, rows[..i], turns[..i], delivered)
    requires TurnTaken(t, u, rows[i], turns[i], sent)
    requires forall j, k | 0 <= j < k < |rows| :: rows[j] != rows[k]
    requires rows[i] in s.deliveries && s.deliveries[rows[i]].status == Pending
    ensures Progress(s, u, rows[..i + 1], turns[..i + 1], delivered + if sent then 1 else 0)
  {
    ProgressNext(s, t, u, rows[..i], turns[..i], delivered, rows[i], turns[i], sent);
    assert rows[..i + 1] == rows[..i] + [rows[i]] && turns[..i + 1] == turns[..i] + [turns[i]];
  }

  // ----- One more row of a pass -----

  /** The row's turn has come and gone. */
  ghost predicate TurnTaken(t: State, u: State, d: DeliveryId, turn: Turn, sent: bool) {
    && d in t.deliveries && OnlyRow(t, u, d) && u.maxAttempts == t.maxAttempts
    && var row := t.deliveries[d];
    if row.status == Pending && row.channel in t.channels
    then
      && u.deliveries[d].status == TurnFate(t.channels[row.channel], row.attempts, t.maxAttempts, turn)
      && (sent <==> u.deliveries[d].status == Delivered)
    else !sent && u.deliveries[d] == row
  }

  lemma OthersNext(s: State, t: State, u: State, rows: seq<DeliveryId>, d: DeliveryId)
    requires OthersStay(s, t, rows) && OnlyRow(t, u, d)
    ensures OthersStay(s, u, rows + [d])
  {
  }

  lemma SettledNow(s: State, t: State, u: State, rows: seq<DeliveryId>, d: DeliveryId, turn: Turn, sent: bool)
    requires OthersStay(s, t, rows) && d !in rows && d in s.deliveries && s.deliveries[d].status == Pending
    requires TurnTaken(t, u, d, turn, sent) && t.maxAttempts == s.maxAttempts
    ensures SettledAs(s, u, d, turn)
  {
    assert t.deliveries[d] == s.deliveries[d];
  }

  lemma SettledBefore(s: State, t: State, u: State, d: DeliveryId, b: DeliveryId, turn: Turn)
    requires SettledAs(s, t, b, turn) && OnlyRow(t, u, d) && b != d
    ensures SettledAs(s, u, b, turn)
  {
  }

  lemma ArrivedNext(before: map<DeliveryId, Delivery>, after: map<DeliveryId, Delivery>, rows: seq<DeliveryId>,
      d: DeliveryId, sent: bool)
    requires d !in rows && after.Keys == before.Keys && d in after
    requires forall b | b in before && b != d :: after[b] == before[b]
    requires sent <==> after[d].status == Delivered
    ensures |Arrived(after, rows + [d])| == |Arrived(before, rows)| + if sent then 1 else 0
  {
    var earlier, now := Arrived(before, rows), Arrived(after, rows + [d]);
    forall b | b != d ensures b in now <==> b in earlier {
      assert b in rows + [d] <==> b in rows;
    }
    assert d in rows + [d] && d !in earlier;
    assert now == earlier + if sent then {d} else {};
  }

  /** What a pass has done after some of its rows. */
  ghost predicate Progress(s: State, t: State, rows: seq<DeliveryId>, turns: seq<Turn>, delivered: nat) {
    && |turns| == |rows| && t.maxAttempts == s.maxAttempts && OthersStay(s, t, rows)
    && delivered == |Arrived(t.deliveries, rows)|
    && forall j | 0 <= j < |rows| :: SettledAs(s, t, rows[j], turns[j])
  }

  lemma ProgressNext(s: State, t: State, u: State, rows: seq<DeliveryId>, turns: seq<Turn>, delivered: nat,
      d: DeliveryId, turn: Turn, sent: bool)
    requires Progress(s, t, rows, turns, delivered) && TurnTaken(t, u, d, turn, sent)
    requires d !in rows && d in s.deliveries && s.deliveries[d].status == Pending
    ensures Progress(s, u, rows + [d], turns + [turn], delivered + if sent then 1 else 0)
  {
    OthersNext(s, t, u, rows, d);
    SettledNow(s, t, u, rows, d, turn, sent);
    assert t.deliveries[d] == s.deliveries[d];
    ArrivedNext(t.deliveries, u.deliveries, rows, d, sent);
    var more, later := rows + [d], turns + [turn];
    forall j | 0 <= j < |more| ensures SettledAs(s, u, more[j], later[j]) {
      if j < |rows| { SettledBefore(s, t, u, d, rows[j], turns[j]); }
    }
  }

  /** Starting a batch is no progress on its rows. */
  lemma StartedAt(s: State, t: State, u: State, rows: seq<DeliveryId>, turns: seq<Turn>, delivered: nat)
    requires t == s.(workers := t.workers) && Progress(t, u, rows, turns, delivered)
    ensures Progress(s, u, rows, turns, delivered)
  {
    forall j | 0 <= j < |rows| ensures SettledAs(s, u, rows[j], turns[j]) {
      assert SettledAs(t, u, rows[j], turns[j]);
    }
  }

  lemma NoProgress(s: State)
    ensures Progress(s, s, [], [], 0)
  {
    assert Arrived(s.deliveries, []) == {};
  }

  lemma RunOne(s: State, e: Event)
    ensures Run(s, [e]) == Step(s, e)
    ensures Successes([e]) == if e.Write? && e.outcome == Success then 1 else 0
  {
    Extended(s, [], s, e);
    assert [] + [e] == [e];
  }

  lemma RunTwo(s: State, e: Event, f: Event)
    ensures Run(s, [e, f]) == Step(Step(s, e), f)
    ensures Successes([e, f]) == Successes([e]) + if f.Write? && f.outcome == Success then 1 else 0
  {
    RunOne(s, e);
    Extended(s, [e], Step(s, e), f);
    assert [e] + [f] == [e, f];
  }

  lemma NoSuccess(e: Event, f: Event)
    requires !e.Write? && !f.Write?
    ensures Successes([e, f]) == 0
  {
    RunTwo(Start(0), e, f);
    RunOne(Start(0), e);
  }

  lemma SendSuccesses(f: FlightId, outcome: Outcome)
    ensures Successes(SendEvents(f, outcome)) == if outcome == Success then 1 else 0
  {
    RunOne(Start(0), Call(f));
    RunTwo(Start(0), Call(f), Write(f, outcome));
    RunOne(Start(0), Write(f, outcome));
  }

  lemma RowSuccesses(s: State, w: WorkerId, d: DeliveryId, turn: Turn)
    ensures var t := Step(s, Look(w, d));
            Successes(RowEvents(s, w, d, turn)) ==
              if Saw(t, w) && turn.deliverable && Claimable(t, w, turn.clock) && turn.outcome == Success then 1 else 0
  {
    var t := Step(s, Look(w, d));
    RunOne(s, Look(w, d));
    RunOne(t, Skip(w));
    RunOne(t, Postpone(w, turn.clock));
    RunOne(t, Claim(w, turn.clock));
    SendSuccesses(t.nextFlight, turn.outcome);
    Joined(t, [Claim(w, turn.clock)], SendEvents(t.nextFlight, turn.outcome));
    if Saw(t, w) {
      Joined(s, [Look(w, d)], SettleEvents(t, w, turn));
    } else {
      assert RowEvents(s, w, d, turn) == [Look(w, d)];
    }
  }

  lemma RowsNext(s: State, w: WorkerId, rows: seq<DeliveryId>, turns: seq<Turn>, i: nat)
    requires i < |rows| == |turns|
    ensures var earlier := RowsEvents(s, w, rows[..i], turns[..i]);
            var more := RowEvents(Run(s, earlier), w, rows[i], turns[i]);
            && RowsEvents(s, w, rows[..i + 1], turns[..i + 1]) == earlier + more
            && Run(s, earlier + more) == Run(Run(s, earlier), more)
            && Successes(earlier + more) == Successes(earlier) + Successes(more)
  {
    assert rows[..i + 1][..i] == rows[..i] && turns[..i + 1][..i] == turns[..i];
    var earlier := RowsEvents(s, w, rows[..i], turns[..i]);
    Joined(s, earlier, RowEvents(Run(s, earlier), w, rows[i], turns[i]));
  }

  lemma {:induction false} Joined(s: State, first: seq<Event>, second: seq<Event>)
    ensures Run(s, first + second) == Run(Run(s, first), second)
    ensures Successes(first + second) == Successes(first) + Successes(second)
    decreases |second|
  {
    if second == [] {
      assert first + second == first;
    } else {
      var n := |second| - 1;
      Joined(s, first, second[..n]);
      assert second == second[..n] + [second[n]];
      assert first + second == first + second[..n] + [second[n]];
      Extended(s, first + second[..n], Run(s, first + second[..n]), second[n]);
      Extended(Run(s, first), second[..n], Run(Run(s, first), second[..n]), second[n]);
    }
  }
}
