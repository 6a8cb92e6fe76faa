/** How often a device code can answer "pending". */
module DevicePolls {
  import opened Prelude
  import opened Credentials
  import opened RefreshFamilies

  /** The step answers "pending" to the device code, on either token endpoint. */
  ghost predicate SaysPending(s: State, e: Event, p: PairingId) {
    && ((e.IssueKey? && e.pairing == p) || (e.ExchangeDevice? && e.pairing == p))
    && Serve(s, e).1 == IsPending
  }

  /** The times of the "pending" answers of a run. */
  ghost function PendingTimes(s: State, events: seq<Event>, p: PairingId): seq<int>
    decreases |events|
  {
    if events == [] then []
    else (if SaysPending(s, events[0], p) then [s.now] else []) + PendingTimes(Step(s, events[0]), events[1..], p)
  }

  function Recorded(s: State, p: PairingId): seq<int> {
    if p in s.pairings then s.pairings[p].answers else []
  }

  lemma RedeemRecords(s: State, e: Event, p: PairingId)
    requires e.IssueKey? || e.ExchangeDevice? || e.ExchangeCode?
    ensures Recorded(Step(s, e), p) == Recorded(s, p) + if SaysPending(s, e, p) then [s.now] else []
  {
    match e
    case IssueKey(_) =>
    case ExchangeDevice(_, _) =>
    case ExchangeCode(_, _, _, _) =>
  }

  lemma OtherRecords(s: State, e: Event, p: PairingId)
    requires !e.IssueKey? && !e.ExchangeDevice? && !e.ExchangeCode?
    requires forall q | q in s.pairings :: q < s.next
    ensures Recorded(Step(s, e), p) == Recorded(s, p)
  {
    match e
    case Decide(_, _, _, _) =>
    case Complete(_, _) =>
    case RefreshTokens(_, _) =>
    case RevokeConnector(_, _) =>
    case DisableAgent(_, _, _) =>
    case _ =>
  }

  lemma {:induction false} RunRecords(s: State, events: seq<Event>, p: PairingId)
    requires forall q | q in s.pairings :: q < s.next
    ensures Recorded(Run(s, events), p) == Recorded(s, p) + PendingTimes(s, events, p)
    decreases |events|
  {
    if events != [] {
      var e := events[0];
      if e.IssueKey? || e.ExchangeDevice? || e.ExchangeCode? { RedeemRecords(s, e, p); } else { OtherRecords(s, e, p); }
      StepDrawn(s, e);
      RunRecords(Step(s, e), events[1..], p);
    }
  }

  // ----- Spacing -----

  ghost predicate Spaced(answers: seq<int>, interval: nat) {
    forall i, j | 0 <= i < j < |answers| :: answers[i] + interval <= answers[j]
  }

  ghost predicate Within(answers: seq<int>, from: int, to: int) {
    forall i | 0 <= i < |answers| :: from <= answers[i] < to
  }

  ghost predicate PollOk(row: Pairing, settings: Settings, now: int) {
    && row.createdAt <= now && (row.lastPolled.Some? ==> row.lastPolled.value <= now)
    && (row.status == Pending ==> row.expiresAt == row.createdAt + settings.pairingTtl)
    && Spaced(row.answers, settings.pollInterval)
    && Within(row.answers, row.createdAt, row.createdAt + settings.pairingTtl)
    && (row.answers != [] ==> row.lastPolled.Some?)
    && (forall i | 0 <= i < |row.answers| :: row.answers[i] <= row.lastPolled.value)
  }

  ghost predicate Polls(s: State) {
    forall p | p in s.pairings :: PollOk(s.pairings[p], s.settings, s.now)
  }

  lemma PolledOk(s: State, row: Pairing)
    requires PollOk(row, s.settings, s.now) && row.status == Pending && !TooSoon(s, row) && s.now < row.expiresAt
    ensures PollOk(Polled(s, row), s.settings, s.now)
  {
  }

  ghost predicate PollsKept(before: Pairing, after: Pairing) {
    && after.createdAt == before.createdAt && after.lastPolled == before.lastPolled && after.answers == before.answers
    && (after.status == Pending ==> before.status == Pending && after.expiresAt == before.expiresAt)
  }

  lemma OnePoll(s: State, p: PairingId, row: Pairing)
    requires Polls(s) && p in s.pairings
    requires PollsKept(s.pairings[p], row) || PollOk(row, s.settings, s.now)
    ensures Polls(SetPairing(s, p, row))
  {
    assert PollOk(s.pairings[p], s.settings, s.now);
  }

  lemma LaterPolls(s: State, t: State)
    requires Polls(s) && t.pairings == s.pairings && t.settings == s.settings && s.now <= t.now
    ensures Polls(t)
  {
    forall p | p in t.pairings ensures PollOk(t.pairings[p], t.settings, t.now) {
      assert PollOk(s.pairings[p], s.settings, s.now);
    }
  }

  lemma IssueKeyPolls(s: State, p: PairingId)
    requires Polls(s)
    ensures Polls(IssueKeyStep(s, p).0)
  {
    var t := IssueKeyStep(s, p).0;
    if t != s {
      var row := s.pairings[p];
      assert PollOk(row, s.settings, s.now);
      if IssueKeyStep(s, p).1 == IsPending { PolledOk(s, row); }
      OnePoll(s, p, t.pairings[p]);
      LaterPolls(SetPairing(s, p, t.pairings[p]), t);
    }
  }

  lemma SlowedOk(s: State, row: Pairing)
    requires PollOk(row, s.settings, s.now)
    ensures PollOk(row.(lastPolled := Some(s.now)), s.settings, s.now)
  {
  }

  lemma ExchangeDevicePolls(s: State, client: Client, p: PairingId)
    requires Polls(s)
    ensures Polls(ExchangeDeviceStep(s, client, p).0)
  {
    var (t, answer) := ExchangeDeviceStep(s, client, p);
    if t != s {
      var row := s.pairings[p];
      assert PollOk(row, s.settings, s.now);
      if answer == IsPending { PolledOk(s, row); }
      if answer.SlowDown? { SlowedOk(s, row); }
      OnePoll(s, p, t.pairings[p]);
      LaterPolls(SetPairing(s, p, t.pairings[p]), t);
    }
  }

  lemma ExchangeCodePolls(s: State, client: Client, code: nat, redirect: nat, verifier: nat)
    requires Polls(s)
    ensures Polls(ExchangeCodeStep(s, client, code, redirect, verifier).0)
  {
    var t := ExchangeCodeStep(s, client, code, redirect, verifier).0;
    var found := RequestOf(s, code);
    if t != s && found.Some? {
      var p := s.requests[found.value].pairing;
      OnePoll(s, p, t.pairings[p]);
      LaterPolls(SetPairing(s, p, t.pairings[p]), t);
    }
  }

  lemma DecidePolls(s: State, p: PairingId, human: HumanId, approve: bool, target: Option<AgentId>)
    requires Polls(s)
    ensures Polls(DecideStep(s, p, human, approve, target))
  {
    var t := DecideStep(s, p, human, approve, target);
    if t != s {
      OnePoll(s, p, t.pairings[p]);
      LaterPolls(SetPairing(s, p, t.pairings[p]), t);
    }
  }

  lemma CreationPolls(s: State, e: Event)
    requires Polls(s) && (e.CreatePairing? || e.StartAuthorization?) && forall p | p in s.pairings :: p < s.next
    ensures Polls(Step(s, e))
  {
    var t := Step(s, e);
    forall p | p in t.pairings ensures PollOk(t.pairings[p], t.settings, t.now) {
      if p in s.pairings { assert PollOk(s.pairings[p], s.settings, s.now); }
    }
  }

  lemma OtherPolls(s: State, e: Event)
    requires Polls(s)
    requires e.Tick? || e.Register? || e.SetOwner? || e.Complete? || e.RefreshTokens? || e.RevokeConnector?
      || e.Rotate? || e.DisableAgent?
    ensures Polls(Step(s, e))
  {
    LaterPolls(s, Step(s, e));
  }

  lemma StepPolls(s: State, e: Event)
    requires Polls(s) && forall p | p in s.pairings :: p < s.next
    ensures Polls(Step(s, e))
  {
    match e
    case Decide(p, human, approve, target) => DecidePolls(s, p, human, approve, target);
    case IssueKey(p) => IssueKeyPolls(s, p);
    case ExchangeDevice(client, p) => ExchangeDevicePolls(s, client, p);
    case ExchangeCode(client, code, redirect, verifier) => ExchangeCodePolls(s, client, code, redirect, verifier);
    case CreatePairing(_) => CreationPolls(s, e);
    case StartAuthorization(_, _, _) => CreationPolls(s, e);
    case _ => OtherPolls(s, e);
  }

  lemma StepSettings(s: State, e: Event)
    ensures Step(s, e).settings == s.settings
  {
    match e
    case Decide(_, _, _, _) =>
    case IssueKey(_) =>
    case ExchangeDevice(_, _) =>
    case ExchangeCode(_, _, _, _) =>
    case _ =>
  }

  lemma {:induction false} RunPolls(s: State, events: seq<Event>)
    requires Polls(s) && forall p | p in s.pairings :: p < s.next
    ensures Polls(Run(s, events)) && Run(s, events).settings == s.settings
    decreases |events|
  {
    if events != [] {
      StepPolls(s, events[0]);
      StepDrawn(s, events[0]);
      StepSettings(s, events[0]);
      RunPolls(Step(s, events[0]), events[1..]);
    }
  }

  // ----- The bound -----

  lemma {:induction false} SpacedLength(answers: seq<int>, interval: nat, from: int, ttl: nat)
    requires answers != [] && Spaced(answers, interval) && Within(answers, from, from + ttl)
    ensures from + (|answers| - 1) * interval <= answers[|answers| - 1] < from + ttl
    decreases |answers|
  {
    var n := |answers| - 1;
    if n > 0 {
      SpacedLength(answers[..n], interval, from, ttl);
      assert n * interval == (n - 1) * interval + interval;
    }
  }

  function CeilDiv(a: nat, b: nat): (r: nat)
    requires b > 0
  {
    (a + b - 1) / b
  }

  lemma CeilBound(n: nat, a: nat, b: nat)
    requires b > 0 && (n > 0 ==> (n - 1) * b < a)
    ensures n <= CeilDiv(a, b)
  {
    assert a <= CeilDiv(a, b) * b;
  }

  lemma SpacedCount(times: seq<int>, interval: nat, from: int, ttl: nat)
    requires Spaced(times, interval) && Within(times, from, from + ttl) && interval > 0
    ensures |times| <= CeilDiv(ttl, interval)
  {
    if times != [] { SpacedLength(times, interval, from, ttl); }
    CeilBound(|times|, ttl, interval);
  }

  lemma WithinFirst(times: seq<int>, from: int, ttl: nat)
    requires Within(times, from, from + ttl) && times != []
    ensures times[0] >= from
  {
  }

  /** The recorded times of a code, as the invariant has them. */
  lemma RecordedTimes(settings: Settings, now: int, events: seq<Event>, p: PairingId) returns (from: int)
    ensures var times := PendingTimes(Start(settings, now), events, p);
            Spaced(times, settings.pollInterval) && Within(times, from, from + settings.pairingTtl)
  {
    var s := Run(Start(settings, now), events);
    RunRecords(Start(settings, now), events, p);
    RunPolls(Start(settings, now), events);
    from := if p in s.pairings then s.pairings[p].createdAt else 0;
    assert PendingTimes(Start(settings, now), events, p) == Recorded(s, p);
    assert p in s.pairings ==> PollOk(s.pairings[p], s.settings, s.now);
  }

  /**
    The "pending" answers one device code receives in a run, on either endpoint, are at least the
    poll interval apart, all within one lifetime of the code, and at most ceil(ttl / interval) in
    number.
   */
  lemma PendingAnswersBounded(settings: Settings, now: int, events: seq<Event>, p: PairingId)
    ensures var times := PendingTimes(Start(settings, now), events, p);
            && Spaced(times, settings.pollInterval)
            && (times != [] ==> Within(times, times[0], times[0] + settings.pairingTtl))
            && (settings.pollInterval > 0 ==> |times| <= CeilDiv(settings.pairingTtl, settings.pollInterval))
  {
    var times := PendingTimes(Start(settings, now), events, p);
    var from := RecordedTimes(settings, now, events, p);
    if times != [] { FirstOnward(times, settings.pollInterval, from, settings.pairingTtl); }
    if settings.pollInterval > 0 { SpacedCount(times, settings.pollInterval, from, settings.pairingTtl); }
  }

  lemma FirstOnward(times: seq<int>, interval: nat, from: int, ttl: nat)
    requires Spaced(times, interval) && Within(times, from, from + ttl) && times != []
    ensures Within(times, times[0], times[0] + ttl)
  {
    WithinFirst(times, from, ttl);
    forall i | 0 <= i < |times| ensures times[0] <= times[i] < times[0] + ttl {
      assert i > 0 ==> times[0] + interval <= times[i];
    }
  }
}
