/**
  The wake dispatcher as a retrying outbox. Several workers run batches at once; each claims a
  delivery, calls the external sender and writes the outcome in separate steps, and may crash or
  lose its outcome in between. Times are in microseconds.

  Rows also carry what happened to them, which no decision reads: the `calls` and `claims` of a
  delivery, and for each claim the batch clock (`starts`), the clock when it was made (`clocks`)
  and how many claims had been made when its worker refreshed the row (`bases`); and the
  `reservations` of a channel.
 */
module Wake {
  import opened Prelude

  type ChannelId = nat
  type DeliveryId = nat
  type WorkerId = nat
  type FlightId = nat

  const SECOND: int := 1_000_000

  datatype Kind = Aily | Notification
  datatype ChannelStatus = Configured | Active | Error | Disabled
  datatype Channel = Channel(
    kind: Kind, connector: bool, status: ChannelStatus, lastDispatch: Option<int>, reservations: seq<int>)

  datatype Status = Pending | Sending | Delivered | Failed | Cancelled
  datatype Delivery = Delivery(
    channel: ChannelId, run: nat, status: Status, attempts: nat, availableAt: int, lastAttempt: Option<int>,
    claims: nat, calls: nat, noticed: bool, notices: nat, starts: seq<int>, clocks: seq<int>, bases: seq<nat>)

  /** What a worker's refresh saw before it tries to claim; `since` counts the claims made until then. */
  datatype Seen = Seen(delivery: DeliveryId, attempts: nat, kind: Kind, since: nat)

  /** A running batch: its clock was read once, when it started. */
  datatype Worker = Worker(now: int, rows: set<DeliveryId>, seen: Option<Seen>)

  /** A claimed delivery whose outcome is not written yet. */
  datatype Flight = Flight(worker: WorkerId, delivery: DeliveryId, kind: Kind, attempt: nat, now: int, called: bool)

  datatype Outcome = Success | Failure | EndpointRefused

  datatype State = State(
    maxAttempts: nat,
    channels: map<ChannelId, Channel>,
    deliveries: map<DeliveryId, Delivery>,
    workers: map<WorkerId, Worker>,
    flights: map<FlightId, Flight>,
    nextFlight: FlightId)

  datatype Event =
    | Configure(channel: ChannelId, kind: Kind, connector: bool)
    | Disable(channel: ChannelId, hit: set<DeliveryId>)
    | MarkChannel(channel: ChannelId, status: ChannelStatus)
    | Enqueue(delivery: DeliveryId, channel: ChannelId, run: nat, at: int)
    | Test(channel: ChannelId, clock: int)
    | Sweep(now: int)
    | StartBatch(worker: WorkerId, now: int, rows: set<DeliveryId>)
    | Look(worker: WorkerId, delivery: DeliveryId)
    | Skip(worker: WorkerId)
    | Postpone(worker: WorkerId, clock: int)
    | Claim(worker: WorkerId, clock: int)
    | Call(flight: FlightId)
    | Write(flight: FlightId, outcome: Outcome)
    | Lose(flight: FlightId)
    | Crash(worker: WorkerId)

  // ----- Channels -----

  /** Saving a channel keeps its dispatch time; a notification channel drops its pending deliveries. */
  function ConfigureStep(s: State, c: ChannelId, kind: Kind, connector: bool): State {
    var channel :=
      if c in s.channels then s.channels[c].(kind := kind, connector := connector, status := Configured)
      else Channel(kind, connector, Configured, None, []);
    var t := s.(channels := s.channels[c := channel]);
    if kind == Aily then t
    else t.(deliveries := map d | d in s.deliveries :: CancelIf(s.deliveries[d], c, s.deliveries[d].status == Pending))
  }

  function CancelIf(d: Delivery, c: ChannelId, condition: bool): Delivery {
    if d.channel == c && condition then d.(status := Cancelled) else d
  }

  /** The loaded rows are cancelled even if another commit has changed them since: `hit` are those. */
  function DisableStep(s: State, c: ChannelId, hit: set<DeliveryId>): State {
    if c !in s.channels || s.channels[c].status == Disabled then s
    else
      s.(channels := s.channels[c := s.channels[c].(status := Disabled)],
         deliveries := map d | d in s.deliveries ::
           CancelIf(s.deliveries[d], c, s.deliveries[d].status in {Pending, Sending} || d in hit))
  }

  predicate Reservable(channel: Channel, clock: int) {
    channel.lastDispatch == None || channel.lastDispatch.value <= clock - 60 * SECOND
  }

  function Reserve(channel: Channel, clock: int): Channel {
    channel.(lastDispatch := Some(clock), reservations := channel.reservations + [clock])
  }

  function TestStep(s: State, c: ChannelId, clock: int): State {
    if c !in s.channels || s.channels[c].status == Disabled || s.channels[c].kind == Aily
       || !Reservable(s.channels[c], clock)
    then s
    else s.(channels := s.channels[c := Reserve(s.channels[c], clock)])
  }

  // ----- Deliveries -----

  predicate RunQueued(s: State, run: nat) {
    exists d | d in s.deliveries :: s.deliveries[d].run == run
  }

  /** One delivery per run, and only while the channel takes it. */
  function EnqueueStep(s: State, d: DeliveryId, c: ChannelId, run: nat, at: int): State {
    if c !in s.channels || s.channels[c].status == Disabled
       || (s.channels[c].kind == Notification && s.channels[c].status != Active)
       || d in s.deliveries || RunQueued(s, run)
    then s
    else s.(deliveries := s.deliveries[d := Delivery(c, run, Pending, 0, at, None, 0, 0, false, 0, [], [], [])])
  }

  predicate Stale(d: Delivery, now: int) {
    d.status == Sending && d.lastAttempt.Some? && d.lastAttempt.value < now - 120 * SECOND
  }

  /** An interrupted call has an unknown outcome, so it is failed and never replayed. */
  function SweepStep(s: State, now: int): State {
    s.(deliveries := map d | d in s.deliveries ::
         if Stale(s.deliveries[d], now) then s.deliveries[d].(status := Failed) else s.deliveries[d])
  }

  // ----- A worker's batch -----

  predicate Busy(s: State, w: WorkerId) {
    exists f | f in s.flights :: s.flights[f].worker == w
  }

  predicate Due(s: State, d: DeliveryId, now: int) {
    d in s.deliveries && s.deliveries[d].status == Pending && s.deliveries[d].availableAt <= now
  }

  /** Select due rows. A worker starts a batch only after its previous one has ended or crashed. */
  function StartStep(s: State, w: WorkerId, now: int, rows: set<DeliveryId>): State {
    if Busy(s, w) || exists d | d in rows :: !Due(s, d, now) then s
    else s.(workers := s.workers[w := Worker(now, rows, None)])
  }

  /** Refresh one selected row and its channel; a row that is no longer pending is passed over. */
  function LookStep(s: State, w: WorkerId, d: DeliveryId): State {
    if w !in s.workers || d !in s.workers[w].rows || d !in s.deliveries then s
    else
      var worker := s.workers[w].(rows := s.workers[w].rows - {d}, seen := None);
      var row := s.deliveries[d];
      if row.status != Pending || row.channel !in s.channels then s.(workers := s.workers[w := worker])
      else
        s.(workers := s.workers[w := worker.(seen := Some(Seen(d, row.attempts, s.channels[row.channel].kind,
          row.claims)))])
  }

  predicate Saw(s: State, w: WorkerId) {
    w in s.workers && s.workers[w].seen.Some? && s.workers[w].seen.value.delivery in s.deliveries
  }

  function Unsee(s: State, w: WorkerId): map<WorkerId, Worker>
    requires w in s.workers
  {
    s.workers[w := s.workers[w].(seen := None)]
  }

  /** The channel cannot send or the run is no longer queued: the row seen is cancelled. */
  function SkipStep(s: State, w: WorkerId): State {
    if !Saw(s, w) then s
    else
      var d := s.workers[w].seen.value.delivery;
      s.(workers := Unsee(s, w), deliveries := s.deliveries[d := s.deliveries[d].(status := Cancelled)])
  }

  /** The channel sent within the last minute: the row seen waits another minute. */
  function PostponeStep(s: State, w: WorkerId, clock: int): State {
    if !Saw(s, w) || s.workers[w].seen.value.kind == Aily then s
    else
      var d := s.workers[w].seen.value.delivery;
      var c := s.deliveries[d].channel;
      if c !in s.channels || Reservable(s.channels[c], clock) then s
      else
        s.(workers := Unsee(s, w),
           deliveries := s.deliveries[d := s.deliveries[d].(availableAt := s.workers[w].now + 60 * SECOND)])
  }

  /** A failed claim rolls back, and with it every outcome the worker has not committed. */
  function RollBack(s: State, w: WorkerId): State
    requires w in s.workers
  {
    s.(workers := Unsee(s, w), flights := map f | f in s.flights && s.flights[f].worker != w :: s.flights[f])
  }

  predicate Claimable(s: State, w: WorkerId, clock: int) {
    && Saw(s, w)
    && var seen := s.workers[w].seen.value;
    var row := s.deliveries[seen.delivery];
    && row.channel in s.channels
    && (seen.kind == Notification ==> Reservable(s.channels[row.channel], clock))
  }

  /**
    Reserve the channel and take the row with a conditional update, in one transaction. The new
    attempt count is the one the refresh saw, plus one.
   */
  function ClaimStep(s: State, w: WorkerId, clock: int): State {
    if !Claimable(s, w, clock) then s
    else
      var seen := s.workers[w].seen.value;
      var row := s.deliveries[seen.delivery];
      if row.status != Pending then RollBack(s, w)
      else
        s.(channels :=
             if seen.kind == Notification
             then s.channels[row.channel := Reserve(s.channels[row.channel], clock)] else s.channels,
           deliveries := s.deliveries[seen.delivery := Claimed(row, seen, s.workers[w].now, clock)],
           workers := Unsee(s, w),
           flights := s.flights[s.nextFlight :=
             Flight(w, seen.delivery, seen.kind, seen.attempts + 1, s.workers[w].now, false)],
           nextFlight := s.nextFlight + 1)
  }

  function Claimed(row: Delivery, seen: Seen, now: int, clock: int): Delivery {
    row.(status := Sending, attempts := seen.attempts + 1, lastAttempt := Some(now),
         claims := row.claims + 1, noticed := row.noticed || seen.kind == Notification,
         starts := row.starts + [now], clocks := row.clocks + [clock], bases := row.bases + [seen.since])
  }

  // ----- Flights -----

  function CallStep(s: State, f: FlightId): State {
    if f !in s.flights || s.flights[f].called || s.flights[f].delivery !in s.deliveries then s
    else
      var flight := s.flights[f];
      var row := s.deliveries[flight.delivery];
      s.(flights := s.flights[f := flight.(called := true)],
         deliveries := s.deliveries[flight.delivery :=
           row.(calls := row.calls + 1, notices := row.notices + if flight.kind == Notification then 1 else 0)])
  }

  function Power2(n: nat): (p: int)
    ensures p >= 1
  {
    if n == 0 then 1 else 2 * Power2(n - 1)
  }

  function Backoff(attempt: nat): int {
    5 * Power2(attempt) * SECOND
  }

  /** What an outcome makes of the row: only a failed call of an Aily flight with attempts left retries. */
  function Written(s: State, row: Delivery, flight: Flight, outcome: Outcome): Delivery {
    match outcome
    case Success => row.(status := Delivered)
    case EndpointRefused => row.(status := Failed)
    case Failure =>
      if flight.kind == Notification || flight.attempt >= s.maxAttempts then row.(status := Failed)
      else row.(status := Pending, availableAt := flight.now + Backoff(flight.attempt))
  }

  function DropFlight(s: State, f: FlightId): State {
    s.(flights := s.flights - {f})
  }

  /** The outcome overwrites the row whatever a sweep or a disable made of it meanwhile. */
  function WriteStep(s: State, f: FlightId, outcome: Outcome): State {
    if f !in s.flights || s.flights[f].delivery !in s.deliveries
        || s.flights[f].called != (outcome != EndpointRefused) then s
    else
      var flight := s.flights[f];
      DropFlight(s, f).(deliveries :=
        s.deliveries[flight.delivery := Written(s, s.deliveries[flight.delivery], flight, outcome)])
  }

  function CrashStep(s: State, w: WorkerId): State {
    s.(workers := s.workers - {w}, flights := map f | f in s.flights && s.flights[f].worker != w :: s.flights[f])
  }

  function Step(s: State, e: Event): State {
    match e
    case Configure(c, kind, connector) => ConfigureStep(s, c, kind, connector)
    case Disable(c, hit) => DisableStep(s, c, hit)
    case MarkChannel(c, status) =>
      if c !in s.channels then s
      else s.(channels := s.channels[c := s.channels[c].(status := status)])
    case Enqueue(d, c, run, at) => EnqueueStep(s, d, c, run, at)
    case Test(c, clock) => TestStep(s, c, clock)
    case Sweep(now) => SweepStep(s, now)
    case StartBatch(w, now, rows) => StartStep(s, w, now, rows)
    case Look(w, d) => LookStep(s, w, d)
    case Skip(w) => SkipStep(s, w)
    case Postpone(w, clock) => PostponeStep(s, w, clock)
    case Claim(w, clock) => ClaimStep(s, w, clock)
    case Call(f) => CallStep(s, f)
    case Write(f, outcome) => WriteStep(s, f, outcome)
    case Lose(f) => DropFlight(s, f)
    case Crash(w) => CrashStep(s, w)
  }

  function Run(s: State, events: seq<Event>): State
    decreases |events|
  {
    if events == [] then s else Run(Step(s, events[0]), events[1..])
  }

  function Start(maxAttempts: nat): State {
    State(maxAttempts, map[], map[], map[], map[], 0)
  }
}
