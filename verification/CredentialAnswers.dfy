/** What each credential call answers and writes, said of the rows it finds. */
module CredentialAnswers {
  import opened Prelude
  import opened Credentials
  import opened CredentialSafety
  import opened RefreshFamilies
  import opened PairingLineage
  import opened Redemptions
  import opened PairingDecisions
  import opened CodeExchange

  // ----- Redeeming a pairing for an API key -----

  /** The pairing's connector is active and is the one its agent is bound to. */
  ghost predicate Connects(h: Hosts, row: Pairing) {
    && row.agent.Some? && row.connector.Some? && row.connector.value in h.connectors
    && h.connectors[row.connector.value].status == Active
    && row.agent.value in h.bindings && h.bindings[row.agent.value] == row.connector.value
  }

  ghost predicate KeyLost(v: Vault, c: ConnectorId) {
    exists k :: k in v.apiKeys && v.apiKeys[k].connector == c && v.apiKeys[k].revoked
  }

  ghost predicate InTime(s: State, row: Pairing) {
    (row.status == Pending || row.status == Approved) ==> s.now < row.expiresAt
  }

  ghost predicate PolledLately(s: State, row: Pairing) {
    row.lastPolled.Some? && s.now < row.lastPolled.value + s.settings.pollInterval
  }

  /** When an issue of the pairing's key answers what. */
  ghost predicate KeyAnswer(s: State, row: Pairing, p: PairingId, answer: Answer) {
    && (answer == IsExpired <==> row.status == Expired || !InTime(s, row))
    && (answer == IsPending <==> row.status == Pending && InTime(s, row) && !PolledLately(s, row))
    && (answer.SlowDown? <==> row.status == Pending && InTime(s, row) && PolledLately(s, row))
    && (answer.SlowDown? ==>
          answer.retryAfter >= 1 && s.now + answer.retryAfter == row.lastPolled.value + s.settings.pollInterval)
    && (answer.Key? <==>
          row.status in {Approved, Consumed} && InTime(s, row) && Connects(s.hosts, row)
          && !KeyLost(s.vault, row.connector.value))
    && (answer.Key? ==> answer.secret == Derived(p, row.connector.value))
    && (answer == IsDenied <==>
          row.status == Denied
          || (row.status in {Approved, Consumed} && InTime(s, row)
            && (!Connects(s.hosts, row) || KeyLost(s.vault, row.connector.value))))
  }

  /** After an answered key the pairing is consumed and its connector has one key row, unrevoked, of its agent. */
  ghost predicate KeyWritten(s: State, t: State, p: PairingId) {
    && p in s.pairings && Connects(s.hosts, s.pairings[p])
    && var row := s.pairings[p];
    && t.pairings == s.pairings[p := row.(status := Consumed)] && t.hosts == s.hosts && t.requests == s.requests
    && t.vault.access == s.vault.access && t.vault.refresh == s.vault.refresh
    && (forall k | k in s.vault.apiKeys :: k in t.vault.apiKeys && t.vault.apiKeys[k] == s.vault.apiKeys[k])
    && (forall k | k in t.vault.apiKeys && k !in s.vault.apiKeys ::
          t.vault.apiKeys[k] ==
            ApiKey(row.agent.value, row.connector.value, Derived(p, row.connector.value), false, p))
    && exists k :: KeyFor(t.vault, row.connector.value, k) && !t.vault.apiKeys[k].revoked
  }

  lemma LostIsRevoked(v: Vault, pairings: map<PairingId, Pairing>, c: ConnectorId)
    requires KeyOrigins(pairings, v.apiKeys)
    ensures KeyLost(v, c) <==> KeyOf(v, c).Some? && v.apiKeys[KeyOf(v, c).value].revoked
    ensures KeyOf(v, c).None? ==> forall k | k in v.apiKeys :: v.apiKeys[k].connector != c
  {
    if k :| k in v.apiKeys && v.apiKeys[k].connector == c { assert KeyFor(v, c, k); }
    forall k | k in v.apiKeys && KeyOf(v, c).None? ensures v.apiKeys[k].connector != c { assert !KeyFor(v, c, k); }
  }

  lemma KeyAnswered(s: State, p: PairingId)
    requires KeyOrigins(s.pairings, s.vault.apiKeys)
    ensures p !in s.pairings || s.pairings[p].mode != ApiKeyMode ==> IssueKeyStep(s, p) == (s, Invalid)
    ensures p in s.pairings && s.pairings[p].mode == ApiKeyMode ==>
      KeyAnswer(s, s.pairings[p], p, IssueKeyStep(s, p).1)
  {
    if p in s.pairings && s.pairings[p].connector.Some? {
      LostIsRevoked(s.vault, s.pairings, s.pairings[p].connector.value);
    }
  }

  lemma KeyIsWritten(s: State, p: PairingId)
    requires KeyOrigins(s.pairings, s.vault.apiKeys) && KeysDrawn(s.vault.apiKeys, s.next)
    requires IssueKeyStep(s, p).1.Key?
    ensures KeyWritten(s, IssueKeyStep(s, p).0, p)
  {
    var t := IssueKeyStep(s, p).0;
    var c := s.pairings[p].connector.value;
    LostIsRevoked(s.vault, s.pairings, c);
    var k := if KeyOf(s.vault, c).Some? then KeyOf(s.vault, c).value else s.next;
    assert KeyFor(t.vault, c, k) && !t.vault.apiKeys[k].revoked;
  }

  lemma KeyElseIdle(s: State, p: PairingId)
    requires !IssueKeyStep(s, p).1.Key?
    ensures var t := IssueKeyStep(s, p).0;
            && t == s.(pairings := t.pairings)
            && (p in s.pairings ==>
                  && p in t.pairings && t.pairings == s.pairings[p := t.pairings[p]]
                  && (t.pairings[p].status == Expired <==>
                        s.pairings[p].status == Expired
                        || (s.pairings[p].mode == ApiKeyMode && !InTime(s, s.pairings[p])))
                  && (t.pairings[p].status != Expired ==> t.pairings[p].status == s.pairings[p].status))
  {
  }

  // ----- Redeeming a pairing for tokens -----

  /** One new access and one new refresh token of this family, and no other. */
  ghost predicate PairAdded(s: State, after: Vault, a: Token, b: Token, agent: AgentId, c: ConnectorId,
      client: Client, family: FamilyId, p: PairingId) {
    && a !in s.vault.access && b !in s.vault.refresh && after.apiKeys == s.vault.apiKeys
    && after.access.Keys == s.vault.access.Keys + {a} && after.refresh.Keys == s.vault.refresh.Keys + {b}
    && after.access[a].agent == agent && after.access[a].connector == c && after.access[a].client == client
    && after.access[a].family == family && !after.access[a].revoked && after.access[a].origin == p
    && after.access[a].expiresAt == s.now + s.settings.accessTtl
    && after.refresh[b].agent == agent && after.refresh[b].connector == c && after.refresh[b].client == client
    && after.refresh[b].family == family && !after.refresh[b].revoked && !after.refresh[b].consumed
    && after.refresh[b].origin == p && after.refresh[b].expiresAt == s.now + s.settings.refreshTtl
  }

  ghost predicate TokensStay(before: Vault, after: Vault) {
    && (forall x | x in before.access :: x in after.access && after.access[x] == before.access[x])
    && (forall x | x in before.refresh :: x in after.refresh && after.refresh[x] == before.refresh[x])
  }

  ghost predicate FreshFamily(v: Vault, family: FamilyId) {
    && (forall x | x in v.access :: v.access[x].family != family)
    && (forall x | x in v.refresh :: v.refresh[x].family != family)
  }

  /** A first pair of tokens of a new family; the pairing is consumed. */
  ghost predicate PairWritten(s: State, t: State, p: PairingId, client: Client, a: Token, b: Token) {
    && p in s.pairings && Connects(s.hosts, s.pairings[p]) && t.hosts == s.hosts
    && t.pairings == s.pairings[p := s.pairings[p].(status := Consumed)]
    && TokensStay(s.vault, t.vault)
    && exists family :: FreshFamily(s.vault, family)
        && PairAdded(s, t.vault, a, b, s.pairings[p].agent.value, s.pairings[p].connector.value, client, family, p)
  }

  /** Both device-derived tokens are as they were issued. */
  ghost predicate StillHeld(v: Vault, x: Token) {
    && x in v.access && !v.access[x].revoked
    && x in v.refresh && !v.refresh[x].revoked && !v.refresh[x].consumed
  }

  /** When an exchange of the pairing's device code answers what. */
  ghost predicate DeviceAnswer(s: State, row: Pairing, p: PairingId, answer: Answer) {
    && (answer == IsExpired <==> row.expiresAt <= s.now)
    && (answer == IsDenied <==> s.now < row.expiresAt && row.status == Denied)
    && (answer == IsPending <==> s.now < row.expiresAt && row.status == Pending && !PolledLately(s, row))
    && (answer.SlowDown? <==> s.now < row.expiresAt && row.status == Pending && PolledLately(s, row))
    && (answer.SlowDown? ==>
          answer.retryAfter >= 1 && s.now + answer.retryAfter == row.lastPolled.value + s.settings.pollInterval)
    && (answer.Tokens? <==>
          s.now < row.expiresAt && Connects(s.hosts, row)
          && (row.status == Approved
              || (row.status == Consumed && StillHeld(s.vault, Derived(p, row.connector.value)))))
    && (answer.Tokens? ==>
          answer == Tokens(Derived(p, row.connector.value), Derived(p, row.connector.value)))
  }

  lemma DeviceAnswered(s: State, client: Client, p: PairingId)
    ensures var answer := ExchangeDeviceStep(s, client, p).1;
            if client != Official || p !in s.pairings || s.pairings[p].mode != OAuthMode(Official) then
              ExchangeDeviceStep(s, client, p) == (s, Invalid)
            else DeviceAnswer(s, s.pairings[p], p, answer)
  {
  }

  lemma RedeemedPair(s: State, t: State, p: PairingId, client: Client, a: Token, b: Token)
    requires Families(s) && p in s.pairings && Redeemable(s, s.pairings[p])
    requires a !in s.vault.access && b !in s.vault.refresh
    requires t.vault == RedeemTokens(s, p, client, a, b).vault && t.hosts == s.hosts
    requires t.pairings == RedeemTokens(s, p, client, a, b).pairings
    ensures PairWritten(s, t, p, client, a, b)
  {
    var row := s.pairings[p];
    forall x | x in s.vault.access ensures s.vault.access[x].family != s.next {
      assert Drawn(x, s.vault.access[x].family, s.vault.access[x].serial, s.next);
    }
    forall x | x in s.vault.refresh ensures s.vault.refresh[x].family != s.next {
      assert Drawn(x, s.vault.refresh[x].family, s.vault.refresh[x].serial, s.next);
    }
    assert PairAdded(s, t.vault, a, b, row.agent.value, row.connector.value, client, s.next, p);
  }

  lemma DeviceWrites(s: State, client: Client, p: PairingId)
    requires Families(s) && p in s.pairings && ExchangeDeviceStep(s, client, p).1.Tokens?
    ensures var (t, answer) := ExchangeDeviceStep(s, client, p);
            if s.pairings[p].status == Approved
            then PairWritten(s, t, p, client, answer.accessToken, answer.refreshToken) else t == s
  {
    if s.pairings[p].status == Approved {
      var token := Derived(p, s.pairings[p].connector.value);
      DerivedUnused(s, p, s.pairings[p].connector.value);
      RedeemedPair(s, ExchangeDeviceStep(s, client, p).0, p, client, token, token);
    }
  }

  // ----- The authorization code -----

  /** When the completion of an authorization request answers what. */
  ghost predicate CompletionAnswer(s: State, r: Authorization, row: Pairing, human: HumanId, answer: Answer) {
    && (answer == IsExpired <==> r.expiresAt <= s.now)
    && (answer == IsDenied <==> s.now < r.expiresAt && row.decidedBy == Some(human) && row.status == Denied)
    && (answer.Code? <==>
          s.now < r.expiresAt && row.decidedBy == Some(human) && row.status == Approved && row.connector.Some?
          && r.code == None)
    && (answer == IsPending <==>
          s.now < r.expiresAt && row.decidedBy == Some(human) && row.status != Denied
          && (row.status != Approved || row.connector == None))
  }

  lemma CompletionAnswered(s: State, r: RequestId, human: HumanId)
    requires Codes(s.requests, s.next)
    ensures var (t, answer) := CompleteStep(s, r, human);
            if r !in s.requests || s.requests[r].pairing !in s.pairings then (t, answer) == (s, Invalid)
            else
              && CompletionAnswer(s, s.requests[r], s.pairings[s.requests[r].pairing], human, answer)
              && t.pairings == s.pairings && t.vault == s.vault && t.hosts == s.hosts
              && t.requests == s.requests[r := t.requests[r]]
              && (answer.Code? ==>
                    && (forall q | q in s.requests :: s.requests[q].code != Some(answer.code))
                    && t.requests[r] == s.requests[r].(status := RequestApproved, code := Some(answer.code),
                      codeExpiresAt := s.now + s.settings.codeTtl))
  {
  }

  /** The request was given this code, it is still good, and everything about the call matches it. */
  ghost predicate CodeGood(s: State, r: RequestId, client: Client, code: nat, redirect: nat, verifier: nat) {
    && r in s.requests && s.requests[r].code == Some(code) && s.requests[r].status == RequestApproved
    && s.now < s.requests[r].codeExpiresAt
    && s.requests[r].client == client && s.requests[r].redirect == redirect && s.requests[r].challenge == verifier
    && s.requests[r].pairing in s.pairings
    && s.pairings[s.requests[r].pairing].status == Approved && Connects(s.hosts, s.pairings[s.requests[r].pairing])
  }

  lemma CodeAnswered(s: State, client: Client, code: nat, redirect: nat, verifier: nat)
    requires Codes(s.requests, s.next)
    ensures var (t, answer) := ExchangeCodeStep(s, client, code, redirect, verifier);
            && (answer.Tokens? <==> exists r :: CodeGood(s, r, client, code, redirect, verifier))
            && (!answer.Tokens? ==> (t, answer) == (s, Invalid))
  {
    if r :| CodeGood(s, r, client, code, redirect, verifier) {
      assert CodeMatches(s.requests[r], code);
      assert RequestOf(s, code) == Some(r);
    }
    var found := RequestOf(s, code);
    if ExchangeCodeStep(s, client, code, redirect, verifier).1.Tokens? {
      assert CodeGood(s, found.value, client, code, redirect, verifier);
    }
  }

  lemma CodeWrites(s: State, r: RequestId, client: Client, code: nat, redirect: nat, verifier: nat)
    requires Codes(s.requests, s.next) && Families(s) && CodeGood(s, r, client, code, redirect, verifier)
    ensures var (t, answer) := ExchangeCodeStep(s, client, code, redirect, verifier);
            && answer.Tokens? && t.requests == s.requests[r := s.requests[r].(status := RequestConsumed)]
            && PairWritten(s, t, s.requests[r].pairing, client, answer.accessToken, answer.refreshToken)
  {
    assert CodeMatches(s.requests[r], code);
    assert RequestOf(s, code) == Some(r);
    var p := s.requests[r].pairing;
    FreshAccess(s.vault.access, s.next, s.next + 1);
    FreshRefresh(s.vault.refresh, s.next, s.next + 2);
    RedeemedPair(s, ExchangeCodeStep(s, client, code, redirect, verifier).0, p, client,
      Random(s.next + 1), Random(s.next + 2));
  }

  // ----- Refreshing -----

  /** The token can be refreshed by this client. */
  ghost predicate Live(s: State, client: Client, x: Token) {
    && x in s.vault.refresh && s.vault.refresh[x].client == client
    && !s.vault.refresh[x].consumed && !s.vault.refresh[x].revoked && s.now < s.vault.refresh[x].expiresAt
  }

  /** The family is revoked, an earlier reason stays, and only `y` is consumed in addition. */
  ghost predicate FamilyEnded(before: Vault, after: Vault, family: FamilyId, y: Option<Token>) {
    && (forall x | x in before.access ::
          x in after.access && after.access[x]
            == before.access[x].(revoked := before.access[x].revoked || before.access[x].family == family))
    && (forall x | x in before.refresh :: x in after.refresh
          && after.refresh[x].revoked == (before.refresh[x].revoked || before.refresh[x].family == family)
          && after.refresh[x].consumed == (before.refresh[x].consumed || y == Some(x))
          && (before.refresh[x].reason.Some? ==> after.refresh[x].reason == before.refresh[x].reason)
          && after.refresh[x]
            == before.refresh[x].(revoked := after.refresh[x].revoked, consumed := after.refresh[x].consumed,
                reason := after.refresh[x].reason))
  }

  ghost predicate NoneAdded(before: Vault, after: Vault) {
    && after.apiKeys == before.apiKeys
    && after.access.Keys == before.access.Keys && after.refresh.Keys == before.refresh.Keys
  }

  /** The family is revoked, the presented token consumed, and one new pair continues the family. */
  ghost predicate Continued(s: State, after: Vault, x: Token, a: Token, b: Token) {
    && x in s.vault.refresh
    && var row := s.vault.refresh[x];
    && FamilyEnded(s.vault, after, row.family, Some(x))
    && PairAdded(s, after, a, b, row.agent, row.connector, row.client, row.family, row.origin)
  }

  /** The next tokens are new, and a live one's connector is bound. */
  ghost predicate RefreshReady(s: State, x: Token) {
    && Random(s.next) !in s.vault.access && Random(s.next + 1) !in s.vault.refresh
    && (x in s.vault.refresh && !s.vault.refresh[x].revoked ==>
          Bound(s.hosts, s.vault.refresh[x].agent, s.vault.refresh[x].connector))
  }

  lemma ReadyToRefresh(s: State, x: Token)
    requires Bindings(s) && Families(s)
    ensures RefreshReady(s, x)
  {
    UnrevokedIsBound(s, x);
    FreshAccess(s.vault.access, s.next, s.next);
    FreshRefresh(s.vault.refresh, s.next, s.next + 1);
  }

  lemma RotationContinues(s: State, x: Token)
    requires RefreshReady(s, x) && x in s.vault.refresh
    ensures Continued(s, RotateFamily(s, x), x, Random(s.next), Random(s.next + 1))
  {
  }

  lemma RefreshAnswered(s: State, client: Client, x: Token)
    requires RefreshReady(s, x)
    ensures var (t, answer) := RefreshStep(s, client, x);
            && (answer.Tokens? <==> Live(s, client, x)) && (!answer.Tokens? ==> answer == Invalid)
            && t == s.(vault := t.vault, next := t.next)
  {
  }

  lemma RefreshContinues(s: State, client: Client, x: Token)
    requires RefreshReady(s, x) && RefreshStep(s, client, x).1.Tokens?
    ensures var (t, answer) := RefreshStep(s, client, x);
            Continued(s, t.vault, x, answer.accessToken, answer.refreshToken)
  {
    RotationContinues(s, x);
  }

  /** A refused refresh changes nothing, but a replayed token takes its family along. */
  lemma RefusedRefresh(s: State, client: Client, x: Token)
    requires RefreshReady(s, x) && !RefreshStep(s, client, x).1.Tokens?
    ensures RefusalCosts(s, RefreshStep(s, client, x).0, client, x)
  {
  }

  ghost predicate RefusalCosts(s: State, t: State, client: Client, x: Token) {
    if x in s.vault.refresh && s.vault.refresh[x].client == client && s.vault.refresh[x].consumed
    then FamilyEnded(s.vault, t.vault, s.vault.refresh[x].family, None) && NoneAdded(s.vault, t.vault)
    else t == s
  }

  // ----- Ending a connector, rotating its key -----

  /** The human owns the agent of this connector. */
  ghost predicate Controls(h: Hosts, human: HumanId, c: ConnectorId) {
    c in h.connectors && h.connectors[c].agent in h.agents && h.agents[h.connectors[c].agent].owner == Some(human)
  }

  /** The connector is revoked and unbound, its credentials with it, and nothing else of the hosts changes. */
  ghost predicate Disconnected(s: State, t: State, agent: AgentId, c: ConnectorId) {
    && c in s.hosts.connectors && t.hosts.bindings == s.hosts.bindings - {agent}
    && t.hosts.connectors == s.hosts.connectors[c := s.hosts.connectors[c].(status := Revoked)]
    && Ended(s.vault, t.vault, c) && t.pairings == s.pairings && t.requests == s.requests
  }

  /** Only the owner of its agent ends a connector, and only one that still works. */
  lemma ConnectorRevoked(s: State, human: HumanId, c: ConnectorId)
    requires Bindings(s)
    ensures var (t, answer) := RevokeConnectorStep(s, human, c);
            && (answer == Done <==> Controls(s.hosts, human, c) && s.hosts.connectors[c].status != Replaced)
            && (answer != Done ==> answer == Invalid && t == s)
            && (Controls(s.hosts, human, c) && s.hosts.connectors[c].status == Active ==>
                  t.hosts.agents == s.hosts.agents && Disconnected(s, t, s.hosts.connectors[c].agent, c))
            && (Controls(s.hosts, human, c) && s.hosts.connectors[c].status == Revoked ==> t == s)
  {
    if c in s.hosts.connectors { assert ConnectorOk(s.hosts, c); }
  }

  /** The agent is inactive, and its connector, if it had one, is ended. */
  lemma AgentDisabled(s: State, human: HumanId, agent: AgentId, completes: bool)
    requires Bindings(s)
    ensures var (t, answer) := DisableStep(s, human, agent, completes);
            var owned := agent in s.hosts.agents && s.hosts.agents[agent].owner == Some(human);
            && (answer == Done <==> owned && (completes || !s.hosts.agents[agent].active))
            && (answer != Done ==> answer == Invalid && t == s)
            && (answer == Done && !s.hosts.agents[agent].active ==> t == s)
            && (answer == Done && s.hosts.agents[agent].active ==>
                  && t.hosts.agents == s.hosts.agents[agent := s.hosts.agents[agent].(active := false)]
                  && (agent in s.hosts.bindings ==> Disconnected(s, t, agent, s.hosts.bindings[agent]))
                  && (agent !in s.hosts.bindings ==> t == s.(hosts := s.hosts.(agents := t.hosts.agents))))
  {
    if agent in s.hosts.bindings { assert BindingOk(s.hosts, agent); }
  }

  /** Random secrets of keys were drawn from the counter. */
  ghost predicate SecretsDrawn(keys: map<KeyId, ApiKey>, next: nat) {
    forall k | k in keys && keys[k].secret.Random? :: keys[k].secret.id < next
  }

  /** A key's secret is as it was, derived from its pairing, or drawn by this step's rotation. */
  ghost predicate SecretOrigin(s: State, t: State, k: KeyId)
    requires k in t.vault.apiKeys
  {
    || t.vault.apiKeys[k].secret.Derived?
    || (k in s.vault.apiKeys && t.vault.apiKeys[k].secret == s.vault.apiKeys[k].secret)
    || (t.vault.apiKeys[k].secret == Random(s.next) && s.next < t.next)
  }

  lemma KeySecretOrigin(s: State, e: Event, k: KeyId)
    requires k in Step(s, e).vault.apiKeys && (e.IssueKey? || e.Rotate?)
    ensures SecretOrigin(s, Step(s, e), k)
  {
    match e
    case IssueKey(_) =>
    case Rotate(_, _) =>
  }

  lemma OtherSecretOrigin(s: State, e: Event, k: KeyId)
    requires k in Step(s, e).vault.apiKeys && !e.IssueKey? && !e.Rotate?
    ensures SecretOrigin(s, Step(s, e), k)
  {
    match e
    case Decide(_, _, _, _) =>
    case RevokeConnector(_, _) =>
    case DisableAgent(_, _, _) =>
    case Complete(_, _) =>
    case ExchangeDevice(_, _) => TokensLeaveKeys(s, e);
    case ExchangeCode(_, _, _, _) => TokensLeaveKeys(s, e);
    case RefreshTokens(_, _) => TokensLeaveKeys(s, e);
    case _ =>
  }

  lemma {:induction false} RunSecretsDrawn(s: State, events: seq<Event>)
    requires SecretsDrawn(s.vault.apiKeys, s.next)
    ensures SecretsDrawn(Run(s, events).vault.apiKeys, Run(s, events).next)
    decreases |events|
  {
    if events != [] {
      var e := events[0];
      StepNext(s, e);
      forall k | k in Step(s, e).vault.apiKeys ensures SecretOrigin(s, Step(s, e), k) {
        if e.IssueKey? || e.Rotate? { KeySecretOrigin(s, e, k); } else { OtherSecretOrigin(s, e, k); }
      }
      RunSecretsDrawn(Step(s, e), events[1..]);
    }
  }

  /** An agent's key that still works gets a secret no key had before, and the old one is gone. */
  lemma KeyRotated(s: State, agent: AgentId, k: KeyId)
    requires Bindings(s) && SecretsDrawn(s.vault.apiKeys, s.next)
    ensures var (t, answer) := RotateStep(s, agent, k);
            && (answer.Key? <==>
                  k in s.vault.apiKeys && s.vault.apiKeys[k].agent == agent && !s.vault.apiKeys[k].revoked)
            && (!answer.Key? ==> answer == Invalid && t == s)
            && (answer.Key? ==>
                  && (forall l | l in s.vault.apiKeys :: s.vault.apiKeys[l].secret != answer.secret)
                  && t.vault == s.vault.(apiKeys :=
                    s.vault.apiKeys[k := s.vault.apiKeys[k].(secret := answer.secret)])
                  && t.pairings == s.pairings && t.requests == s.requests && t.hosts.bindings == s.hosts.bindings)
  {
    if k in s.vault.apiKeys && s.vault.apiKeys[k].agent == agent && !s.vault.apiKeys[k].revoked {
      var row := s.vault.apiKeys[k];
      assert CredentialOk(s.hosts.connectors, row.agent, row.connector, row.revoked);
      assert ConnectorOk(s.hosts, row.connector);
    }
  }

  // ----- Starting a pairing -----

  /** A pairing that nobody has polled or decided, open for its lifetime. */
  ghost predicate Fresh(s: State, row: Pairing, mode: Mode) {
    && row.mode == mode && row.status == Pending && row.createdAt == s.now
    && row.expiresAt == s.now + s.settings.pairingTtl
    && row.lastPolled == None && Undecided(row) && row.answers == []
  }

  ghost predicate OnlyAdds(s: State, t: State, p: PairingId, mode: Mode) {
    && p !in s.pairings && t.hosts == s.hosts && t.vault == s.vault && t.now == s.now
    && p in t.pairings && t.pairings == s.pairings[p := t.pairings[p]] && Fresh(s, t.pairings[p], mode)
  }

  /** A device pairing is for API keys or for the official client; another client's is not started this way. */
  lemma PairingCreated(s: State, mode: Mode)
    requires forall p | p in s.pairings :: p < s.next
    ensures var t := Step(s, CreatePairing(mode));
            if mode in {ApiKeyMode, OAuthMode(Official)}
            then t.requests == s.requests && OnlyAdds(s, t, s.next, mode) else t == s
  {
  }

  /** An authorization request starts a pairing of its own client, with which it expires. */
  lemma AuthorizationStarted(s: State, dynamicId: nat, redirect: nat, challenge: nat)
    requires Codes(s.requests, s.next) && forall p | p in s.pairings :: p < s.next
    ensures var t := Step(s, StartAuthorization(dynamicId, redirect, challenge));
            && OnlyAdds(s, t, s.next, OAuthMode(Dynamic(dynamicId)))
            && exists r: RequestId :: r !in s.requests
                && t.requests == s.requests[r := Authorization(s.next, Dynamic(dynamicId), redirect, challenge,
                  RequestPending, s.now + s.settings.pairingTtl, None, 0)]
  {
    assert s.next + 1 !in s.requests;
  }

  /** Agents arrive active and unowned, owners are set as given, and time passes; nothing else changes. */
  lemma DeskWrites(s: State, e: Event)
    ensures var t := Step(s, e);
            match e
            case Tick(elapsed) => t == s.(now := s.now + elapsed)
            case Register =>
              t.hosts == s.hosts.(agents := s.hosts.agents[s.next := Agent(true, None)])
              && t.vault == s.vault && t.pairings == s.pairings && t.requests == s.requests
            case SetOwner(agent, owner) =>
              if agent !in s.hosts.agents then t == s
              else t == s.(hosts := s.hosts.(agents :=
                s.hosts.agents[agent := s.hosts.agents[agent].(owner := owner)]))
            case _ => true
  {
  }

  // ----- In every run -----

  /** What every reachable state satisfies. */
  ghost predicate Lawful(s: State) {
    Traced(s) && Codes(s.requests, s.next) && SecretsDrawn(s.vault.apiKeys, s.next)
  }

  lemma RunLawful(settings: Settings, now: int, events: seq<Event>)
    ensures Lawful(Run(Start(settings, now), events))
  {
    RunTraced(Start(settings, now), events);
    RunCodes(Start(settings, now), events);
    RunSecretsDrawn(Start(settings, now), events);
  }

  lemma RunReady(settings: Settings, now: int, events: seq<Event>, x: Token)
    ensures RefreshReady(Run(Start(settings, now), events), x)
  {
    RunTraced(Start(settings, now), events);
    ReadyToRefresh(Run(Start(settings, now), events), x);
  }

  /** In every run, what an issue of a pairing's API key answers and writes. */
  lemma KeyRedemption(settings: Settings, now: int, events: seq<Event>, p: PairingId)
    ensures var s := Run(Start(settings, now), events);
            var (t, answer) := Serve(s, IssueKey(p));
            if p !in s.pairings || s.pairings[p].mode != ApiKeyMode then (t, answer) == (s, Invalid)
            else
              && KeyAnswer(s, s.pairings[p], p, answer)
              && (answer.Key? ==> KeyWritten(s, t, p)) && (!answer.Key? ==> t == s.(pairings := t.pairings))
  {
    var s := Run(Start(settings, now), events);
    assert KeyOrigins(s.pairings, s.vault.apiKeys) && KeysDrawn(s.vault.apiKeys, s.next) by {
      RunLawful(settings, now, events);
    }
    KeyAnswered(s, p);
    if IssueKeyStep(s, p).1.Key? { KeyIsWritten(s, p); } else { KeyElseIdle(s, p); }
  }

  /** In every run, what an exchange of a device code answers and writes. */
  lemma DeviceRedemption(settings: Settings, now: int, events: seq<Event>, client: Client, p: PairingId)
    ensures var s := Run(Start(settings, now), events);
            var (t, answer) := Serve(s, ExchangeDevice(client, p));
            if client != Official || p !in s.pairings || s.pairings[p].mode != OAuthMode(Official)
            then (t, answer) == (s, Invalid)
            else
              && DeviceAnswer(s, s.pairings[p], p, answer)
              && (answer.Tokens? && s.pairings[p].status == Approved ==>
                    PairWritten(s, t, p, client, answer.accessToken, answer.refreshToken))
              && (answer.Tokens? && s.pairings[p].status != Approved ==> t == s)
              && (!answer.Tokens? ==> t == s.(pairings := t.pairings))
  {
    var s := Run(Start(settings, now), events);
    assert Families(s) by { RunLawful(settings, now, events); }
    DeviceAnswered(s, client, p);
    if ExchangeDeviceStep(s, client, p).1.Tokens? { DeviceWrites(s, client, p); }
  }

  /** In every run, an authorization code is exchanged for tokens exactly when everything about it matches. */
  lemma CodeRedemption(settings: Settings, now: int, events: seq<Event>, client: Client, code: nat, redirect: nat,
      verifier: nat)
    ensures var s := Run(Start(settings, now), events);
            var (t, answer) := Serve(s, ExchangeCode(client, code, redirect, verifier));
            && (answer.Tokens? <==> exists r :: CodeGood(s, r, client, code, redirect, verifier))
            && (!answer.Tokens? ==> (t, answer) == (s, Invalid))
            && forall r | CodeGood(s, r, client, code, redirect, verifier) ::
              && t.requests == s.requests[r := s.requests[r].(status := RequestConsumed)]
              && PairWritten(s, t, s.requests[r].pairing, client, answer.accessToken, answer.refreshToken)
  {
    var s := Run(Start(settings, now), events);
    assert Families(s) && Codes(s.requests, s.next) by { RunLawful(settings, now, events); }
    CodeAnswered(s, client, code, redirect, verifier);
    forall r | CodeGood(s, r, client, code, redirect, verifier)
      ensures var (t, answer) := ExchangeCodeStep(s, client, code, redirect, verifier);
              && answer.Tokens? && t.requests == s.requests[r := s.requests[r].(status := RequestConsumed)]
              && PairWritten(s, t, s.requests[r].pairing, client, answer.accessToken, answer.refreshToken)
    {
      CodeWrites(s, r, client, code, redirect, verifier);
    }
  }

  /** A new pair, exactly for a live token of the client; else a refusal, which only a replay makes cost something. */
  ghost predicate Refreshed(s: State, t: State, answer: Answer, client: Client, x: Token) {
    && t == s.(vault := t.vault, next := t.next)
    && (Live(s, client, x) ==>
          answer.Tokens? && Continued(s, t.vault, x, answer.accessToken, answer.refreshToken))
    && (!Live(s, client, x) ==> answer == Invalid && RefusalCosts(s, t, client, x))
  }

  lemma RefreshLaw(s: State, client: Client, x: Token)
    requires RefreshReady(s, x)
    ensures Refreshed(s, RefreshStep(s, client, x).0, RefreshStep(s, client, x).1, client, x)
  {
    RefreshAnswered(s, client, x);
    if Live(s, client, x) { RefreshContinues(s, client, x); } else { RefusedRefresh(s, client, x); }
  }

  /** In every run, what a refresh answers and writes. */
  lemma Refreshing(settings: Settings, now: int, events: seq<Event>, client: Client, x: Token)
    ensures var s := Run(Start(settings, now), events);
            var (t, answer) := Serve(s, RefreshTokens(client, x));
            Refreshed(s, t, answer, client, x)
  {
    var s := Run(Start(settings, now), events);
    RunReady(settings, now, events, x);
    RefreshLaw(s, client, x);
  }

  // ----- From the decision to the credential -----

  lemma ApprovedRedeems(s: State, p: PairingId, human: HumanId, target: Option<AgentId>, wait: nat)
    requires Lawful(s) && Approvable(s, p, human, target) && Undecided(s.pairings[p])
    requires wait < s.settings.pairingTtl
    ensures var t := Step(Step(s, Decide(p, human, true, target)), Tick(wait));
            && (s.pairings[p].mode == ApiKeyMode ==> IssueKeyStep(t, p).1.Key?)
            && (s.pairings[p].mode == OAuthMode(Official) ==> ExchangeDeviceStep(t, Official, p).1.Tokens?)
            && forall r | r in s.requests && s.requests[r].pairing == p && s.requests[r].code == None
                && t.now < s.requests[r].expiresAt :: CompleteStep(t, r, human).1.Code?
  {
    var u := Step(s, Decide(p, human, true, target));
    var t := Step(u, Tick(wait));
    var agent, c := ApprovalConnects(s, p, human, target);
    ApprovedConnects(s, u, p, human, target, agent, c);
    assert KeyOrigins(t.pairings, t.vault.apiKeys) by { StepTraced(s, Decide(p, human, true, target)); }
    KeyAnswered(t, p);
    DeviceAnswered(t, Official, p);
  }

  lemma ApprovedConnects(s: State, u: State, p: PairingId, human: HumanId, target: Option<AgentId>, agent: AgentId,
      c: ConnectorId)
    requires Bindings(s) && ApprovalOf(s, u, p, human, target, agent, c)
    ensures p in u.pairings && Connects(u.hosts, u.pairings[p]) && !KeyLost(u.vault, c)
  {
    forall k | k in s.vault.apiKeys ensures s.vault.apiKeys[k].connector != c {
      assert CredentialOk(s.hosts.connectors, s.vault.apiKeys[k].agent, s.vault.apiKeys[k].connector,
          s.vault.apiKeys[k].revoked);
    }
  }

  /** A pending pairing of a run carries no decision yet. */
  lemma OpenIsUndecided(settings: Settings, now: int, events: seq<Event>, p: PairingId)
    requires OpenTo(Run(Start(settings, now), events), p)
    ensures Undecided(Run(Start(settings, now), events).pairings[p])
  {
    RunExplained(settings, now, events, p);
  }

  /**
    In every run: approving an open pairing binds a new active connector to the agent, and until
    the pairing lapses its next redemption is answered with a key, with tokens, or with the code
    for tokens, according to its mode.
   */
  lemma ApprovalIsRedeemable(settings: Settings, now: int, events: seq<Event>, p: PairingId, human: HumanId,
      target: Option<AgentId>, wait: nat)
    requires var s := Run(Start(settings, now), events); Approvable(s, p, human, target) && wait < s.settings.pairingTtl
    ensures var s := Run(Start(settings, now), events);
            var u := Step(s, Decide(p, human, true, target));
            var t := Step(u, Tick(wait));
            && (exists agent, c :: ApprovalOf(s, u, p, human, target, agent, c))
            && (s.pairings[p].mode == ApiKeyMode ==> IssueKeyStep(t, p).1.Key?)
            && (s.pairings[p].mode == OAuthMode(Official) ==> ExchangeDeviceStep(t, Official, p).1.Tokens?)
            && forall r | r in s.requests && s.requests[r].pairing == p && s.requests[r].code == None
                && t.now < s.requests[r].expiresAt :: CompleteStep(t, r, human).1.Code?
  {
    var s := Run(Start(settings, now), events);
    OpenIsUndecided(settings, now, events, p);
    RunLawful(settings, now, events);
    var agent, c := ApprovalConnects(s, p, human, target);
    ApprovedRedeems(s, p, human, target, wait);
  }

  lemma {:induction false} StaysDenied(s: State, events: seq<Event>, p: PairingId)
    requires Traced(s) && p in s.pairings && s.pairings[p].status == Denied
    ensures p in Run(s, events).pairings && Run(s, events).pairings[p].status == Denied
    decreases |events|
  {
    if events != [] {
      StepTraced(s, events[0]);
      assert p in Step(s, events[0]).pairings by { StepPairings(s, events[0]); }
      assert StepOrigin(s, events[0], p) by { StepOrigins(s, events[0], p); }
      StaysDenied(Step(s, events[0]), events[1..], p);
    }
  }

  /** A denied pairing never yields a key, a token or a code: whoever asks, whenever. */
  lemma DeniedYieldsNothing(s: State, p: PairingId)
    requires p in s.pairings && s.pairings[p].status == Denied
    ensures IssueKeyStep(s, p) == (s, if s.pairings[p].mode == ApiKeyMode then IsDenied else Invalid)
    ensures forall client :: !ExchangeDeviceStep(s, client, p).1.Tokens? && ExchangeDeviceStep(s, client, p).0 == s
    ensures forall r, human | r in s.requests && s.requests[r].pairing == p :: !CompleteStep(s, r, human).1.Code?
    ensures forall r, client, code, redirect, verifier | r in s.requests && s.requests[r].pairing == p ::
              !CodeGood(s, r, client, code, redirect, verifier)
  {
  }

  /** In every run: denying an open pairing writes its row and nothing else, and it stays denied for good. */
  lemma DenialHolds(settings: Settings, now: int, events: seq<Event>, p: PairingId, human: HumanId,
      target: Option<AgentId>, later: seq<Event>)
    requires OpenTo(Run(Start(settings, now), events), p)
    ensures var s := Run(Start(settings, now), events);
            var t := Step(s, Decide(p, human, false, target));
            var u := Run(t, later);
            && t == s.(pairings := s.pairings[p := s.pairings[p].(status := Denied, decidedBy := Some(human))])
            && p in u.pairings && u.pairings[p].status == Denied
            && IssueKeyStep(u, p) == (u, if u.pairings[p].mode == ApiKeyMode then IsDenied else Invalid)
            && (forall client :: !ExchangeDeviceStep(u, client, p).1.Tokens?)
            && forall r, client, code, redirect, verifier | r in u.requests && u.requests[r].pairing == p ::
              !CodeGood(u, r, client, code, redirect, verifier)
  {
    var s := Run(Start(settings, now), events);
    OpenIsUndecided(settings, now, events, p);
    RunLawful(settings, now, events);
    DenialOnlyDenies(s, p, human, target);
    StepTraced(s, Decide(p, human, false, target));
    StaysDenied(Step(s, Decide(p, human, false, target)), later, p);
    DeniedYieldsNothing(Run(Step(s, Decide(p, human, false, target)), later), p);
  }
}
