/** An authorization code is redeemed at most once. */
module CodeExchange {
  import opened Prelude
  import opened Credentials
  import opened RefreshFamilies

  /** Codes are drawn from the counter, and no two requests have the same. */
  ghost predicate Codes(requests: map<RequestId, Authorization>, next: nat) {
    && (forall r | r in requests :: r < next && (requests[r].code.Some? ==> requests[r].code.value < next))
    && (forall r, q | r in requests && q in requests && r != q && requests[r].code.Some? ::
      requests[r].code != requests[q].code)
  }

  /** The request that was given this code, and can no longer be redeemed. */
  ghost predicate Spent(requests: map<RequestId, Authorization>, r: RequestId, code: nat) {
    r in requests && requests[r].code == Some(code) && requests[r].status != RequestApproved
  }

  lemma RowSet(requests: map<RequestId, Authorization>, next: nat, later: nat, r: RequestId, row: Authorization)
    requires Codes(requests, next) && next <= later && r in requests && row.code == requests[r].code
    ensures Codes(requests[r := row], later)
  {
  }

  lemma CodeGiven(requests: map<RequestId, Authorization>, next: nat, r: RequestId, row: Authorization)
    requires Codes(requests, next) && r in requests && row.code == Some(next)
    ensures Codes(requests[r := row], next + 1)
  {
  }

  lemma RequestAdded(requests: map<RequestId, Authorization>, next: nat, row: Authorization)
    requires Codes(requests, next) && row.code == None
    ensures Codes(requests[next + 1 := row], next + 2)
  {
  }

  lemma CompleteCodes(s: State, r: RequestId, human: HumanId)
    requires Codes(s.requests, s.next)
    ensures var t := CompleteStep(s, r, human).0; Codes(t.requests, t.next)
  {
    var t := CompleteStep(s, r, human).0;
    if t != s {
      if t.next == s.next {
        RowSet(s.requests, s.next, t.next, r, t.requests[r]);
      } else {
        CodeGiven(s.requests, s.next, r, t.requests[r]);
      }
    }
  }

  lemma ExchangeCodes(s: State, client: Client, code: nat, redirect: nat, verifier: nat)
    requires Codes(s.requests, s.next)
    ensures var t := ExchangeCodeStep(s, client, code, redirect, verifier).0; Codes(t.requests, t.next)
  {
    var t := ExchangeCodeStep(s, client, code, redirect, verifier).0;
    var found := RequestOf(s, code);
    if t != s && found.Some? { RowSet(s.requests, s.next, t.next, found.value, t.requests[found.value]); }
  }

  lemma SameRequestRows(s: State, e: Event)
    requires !e.Complete? && !e.ExchangeCode? && !e.StartAuthorization?
    ensures Step(s, e).requests == s.requests
  {
    match e
    case Decide(_, _, _, _) =>
    case IssueKey(_) =>
    case ExchangeDevice(_, _) =>
    case _ =>
  }

  lemma StepCodes(s: State, e: Event)
    requires Codes(s.requests, s.next)
    ensures Codes(Step(s, e).requests, Step(s, e).next)
  {
    match e
    case Complete(r, human) => CompleteCodes(s, r, human);
    case ExchangeCode(client, code, redirect, verifier) => ExchangeCodes(s, client, code, redirect, verifier);
    case StartAuthorization(dynamicId, redirect, challenge) =>
      RequestAdded(s.requests, s.next, Step(s, e).requests[s.next + 1]);
    case _ =>
      SameRequestRows(s, e);
      StepNext(s, e);
  }

  lemma StepSpent(s: State, e: Event, r: RequestId, code: nat)
    requires Codes(s.requests, s.next) && Spent(s.requests, r, code)
    ensures Spent(Step(s, e).requests, r, code)
  {
    match e
    case Complete(_, _) =>
    case ExchangeCode(_, _, _, _) =>
    case StartAuthorization(_, _, _) =>
    case _ => SameRequestRows(s, e);
  }

  lemma {:induction false} RunSpent(s: State, events: seq<Event>, r: RequestId, code: nat)
    requires Codes(s.requests, s.next) && Spent(s.requests, r, code)
    ensures Codes(Run(s, events).requests, Run(s, events).next) && Spent(Run(s, events).requests, r, code)
    decreases |events|
  {
    if events != [] {
      StepCodes(s, events[0]);
      StepSpent(s, events[0], r, code);
      RunSpent(Step(s, events[0]), events[1..], r, code);
    }
  }

  lemma {:induction false} RunCodes(s: State, events: seq<Event>)
    requires Codes(s.requests, s.next)
    ensures Codes(Run(s, events).requests, Run(s, events).next)
    decreases |events|
  {
    if events != [] {
      StepCodes(s, events[0]);
      RunCodes(Step(s, events[0]), events[1..]);
    }
  }

  lemma SpentRefused(s: State, r: RequestId, client: Client, code: nat, redirect: nat, verifier: nat)
    requires Codes(s.requests, s.next) && Spent(s.requests, r, code)
    ensures ExchangeCodeStep(s, client, code, redirect, verifier) == (s, Invalid)
  {
    var found := RequestOf(s, code);
    assert CodeMatches(s.requests[r], code);
    assert found == Some(r);
  }

  lemma Redeemed(s: State, client: Client, code: nat, redirect: nat, verifier: nat) returns (r: RequestId)
    requires ExchangeCodeStep(s, client, code, redirect, verifier).1.Tokens?
    ensures r in s.requests && Spent(ExchangeCodeStep(s, client, code, redirect, verifier).0.requests, r, code)
    ensures s.requests[r].client == client && s.requests[r].redirect == redirect && s.requests[r].challenge == verifier
  {
    r := RequestOf(s, code).value;
  }

  /**
    A code that was redeemed once is refused for good: whoever presents it again, with whatever
    redirect and verifier, changes nothing.
   */
  lemma CodeRedeemedOnce(
      settings: Settings, now: int, before: seq<Event>, after: seq<Event>,
      client: Client, code: nat, redirect: nat, verifier: nat, client2: Client, redirect2: nat, verifier2: nat)
    ensures var (t, first) := ExchangeCodeStep(Run(Start(settings, now), before), client, code, redirect, verifier);
            first.Tokens? ==>
              var u := Run(t, after);
              ExchangeCodeStep(u, client2, code, redirect2, verifier2) == (u, Invalid)
  {
    var s := Run(Start(settings, now), before);
    var (t, first) := ExchangeCodeStep(s, client, code, redirect, verifier);
    if first.Tokens? {
      RunCodes(Start(settings, now), before);
      ExchangeCodes(s, client, code, redirect, verifier);
      var r := Redeemed(s, client, code, redirect, verifier);
      RunSpent(t, after, r, code);
      SpentRefused(Run(t, after), r, client2, code, redirect2, verifier2);
    }
  }

  /** Only the client that was given the code, with its redirect and the verifier of its challenge, redeems it. */
  lemma OthersCannotRedeem(
      settings: Settings, now: int, events: seq<Event>, r: RequestId, client: Client, code: nat, redirect: nat,
      verifier: nat)
    ensures var s := Run(Start(settings, now), events);
            && r in s.requests && s.requests[r].code == Some(code)
            && (s.requests[r].client != client || s.requests[r].redirect != redirect
              || s.requests[r].challenge != verifier
                || s.requests[r].codeExpiresAt <= s.now)
            ==> ExchangeCodeStep(s, client, code, redirect, verifier) == (s, Invalid)
  {
    var s := Run(Start(settings, now), events);
    RunCodes(Start(settings, now), events);
    if r in s.requests && s.requests[r].code == Some(code) {
      assert CodeMatches(s.requests[r], code);
      assert RequestOf(s, code) == Some(r);
    }
  }
}
