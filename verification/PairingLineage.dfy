/** What one pairing can be redeemed for, over all three redemption paths and any retries. */
module PairingLineage {
  import opened Prelude
  import opened Credentials
  import opened CredentialSafety
  import opened RefreshFamilies

  // ----- A pairing's fate -----

  /** A decided pairing keeps its agent and connector, and a consumed one stays consumed. */
  ghost predicate RowMoved(before: Pairing, after: Pairing) {
    && after.mode == before.mode
    && (before.status != Pending ==>
          after.status != Pending && after.connector == before.connector && after.agent == before.agent)
    && (after.status == Pending ==> after.connector == before.connector)
    && (before.status == Consumed ==> after.status == Consumed && after.expiresAt == before.expiresAt)
  }

  ghost predicate PairingsMoved(before: map<PairingId, Pairing>, after: map<PairingId, Pairing>) {
    forall p | p in before :: p in after && RowMoved(before[p], after[p])
  }

  lemma DecideMoves(s: State, p: PairingId, human: HumanId, approve: bool, target: Option<AgentId>)
    ensures PairingsMoved(s.pairings, DecideStep(s, p, human, approve, target).pairings)
  {
  }

  lemma IssueKeyMoves(s: State, p: PairingId)
    ensures PairingsMoved(s.pairings, IssueKeyStep(s, p).0.pairings)
  {
  }

  lemma ExchangeDeviceMoves(s: State, client: Client, p: PairingId)
    ensures PairingsMoved(s.pairings, ExchangeDeviceStep(s, client, p).0.pairings)
  {
  }

  lemma ExchangeCodeMoves(s: State, client: Client, code: nat, redirect: nat, verifier: nat)
    ensures PairingsMoved(s.pairings, ExchangeCodeStep(s, client, code, redirect, verifier).0.pairings)
  {
  }

  lemma CreationMoves(s: State, e: Event)
    requires e.CreatePairing? || e.StartAuthorization?
    requires forall p | p in s.pairings :: p < s.next
    ensures PairingsMoved(s.pairings, Step(s, e).pairings)
  {
  }

  lemma OthersMove(s: State, e: Event)
    requires e.Tick? || e.Register? || e.SetOwner? || e.Complete? || e.RefreshTokens? || e.RevokeConnector?
      || e.Rotate? || e.DisableAgent?
    ensures Step(s, e).pairings == s.pairings
  {
  }

  lemma StepPairings(s: State, e: Event)
    requires forall p | p in s.pairings :: p < s.next
    ensures PairingsMoved(s.pairings, Step(s, e).pairings)
  {
    match e
    case Decide(p, human, approve, target) => DecideMoves(s, p, human, approve, target);
    case IssueKey(p) => IssueKeyMoves(s, p);
    case ExchangeDevice(client, p) => ExchangeDeviceMoves(s, client, p);
    case ExchangeCode(client, code, redirect, verifier) => ExchangeCodeMoves(s, client, code, redirect, verifier);
    case CreatePairing(_) => CreationMoves(s, e);
    case StartAuthorization(_, _, _) => CreationMoves(s, e);
    case _ => OthersMove(s, e);
  }

  lemma MovedTwice(a: map<PairingId, Pairing>, b: map<PairingId, Pairing>, c: map<PairingId, Pairing>)
    requires PairingsMoved(a, b) && PairingsMoved(b, c)
    ensures PairingsMoved(a, c)
  {
    forall p | p in a ensures p in c && RowMoved(a[p], c[p]) {
      assert RowMoved(a[p], b[p]) && RowMoved(b[p], c[p]);
    }
  }

  lemma {:induction false} RunPairings(s: State, events: seq<Event>)
    requires forall p | p in s.pairings :: p < s.next
    ensures PairingsMoved(s.pairings, Run(s, events).pairings)
    decreases |events|
  {
    if events != [] {
      StepPairings(s, events[0]);
      StepDrawn(s, events[0]);
      RunPairings(Step(s, events[0]), events[1..]);
      MovedTwice(s.pairings, Step(s, events[0]).pairings, Run(s, events).pairings);
    }
  }

  // ----- One lineage per pairing -----

  /** The row stems from a consumed pairing of the right mode and carries its agent and connector. */
  ghost predicate OriginOk(pairings: map<PairingId, Pairing>, origin: PairingId, agent: AgentId,
      connector: ConnectorId, oauth: bool) {
    && origin in pairings && pairings[origin].status == Consumed && pairings[origin].mode.OAuthMode? == oauth
    && pairings[origin].agent == Some(agent) && pairings[origin].connector == Some(connector)
  }

  ghost predicate RefreshOrigin(pairings: map<PairingId, Pairing>, x: Token, row: Refresh) {
    && OriginOk(pairings, row.origin, row.agent, row.connector, true)
    && (x.Derived? ==> x == Derived(row.origin, row.connector))
  }

  ghost predicate RefreshOrigins(pairings: map<PairingId, Pairing>, refresh: map<Token, Refresh>) {
    && (forall x | x in refresh :: RefreshOrigin(pairings, x, refresh[x]))
    && (forall x, y | x in refresh && y in refresh && refresh[x].origin == refresh[y].origin ::
      refresh[x].family == refresh[y].family)
  }

  ghost predicate KeyOrigins(pairings: map<PairingId, Pairing>, keys: map<KeyId, ApiKey>) {
    && (forall k | k in keys :: OriginOk(pairings, keys[k].origin, keys[k].agent, keys[k].connector, false))
    && (forall k, l | k in keys && l in keys && k != l :: keys[k].connector != keys[l].connector)
  }

  /** Each connector was made by one decision. */
  ghost predicate ConnectorsOnce(pairings: map<PairingId, Pairing>, next: nat) {
    && (forall p | p in pairings && pairings[p].connector.Some? :: pairings[p].connector.value < next)
    && (forall p, q | p in pairings && q in pairings && p != q && pairings[p].connector.Some? ::
          pairings[p].connector != pairings[q].connector)
  }

  ghost predicate Lineage(s: State) {
    && RefreshOrigins(s.pairings, s.vault.refresh) && KeyOrigins(s.pairings, s.vault.apiKeys)
  }

  ghost predicate SameRefreshOrigin(before: Refresh, after: Refresh) {
    after.origin == before.origin && after.agent == before.agent && after.connector == before.connector
      && after.family == before.family
  }

  ghost predicate SameKeyOrigin(before: ApiKey, after: ApiKey) {
    after.origin == before.origin && after.agent == before.agent && after.connector == before.connector
  }

  lemma OriginKept(before: map<PairingId, Pairing>, after: map<PairingId, Pairing>, p: PairingId, agent: AgentId,
      c: ConnectorId, oauth: bool)
    requires PairingsMoved(before, after) && OriginOk(before, p, agent, c, oauth)
    ensures OriginOk(after, p, agent, c, oauth)
  {
    assert RowMoved(before[p], after[p]);
  }

  lemma RefreshKept(before: map<PairingId, Pairing>, after: map<PairingId, Pairing>, r: map<Token, Refresh>,
      t: map<Token, Refresh>)
    requires RefreshOrigins(before, r) && PairingsMoved(before, after) && t.Keys == r.Keys
    requires forall x | x in r :: SameRefreshOrigin(r[x], t[x])
    ensures RefreshOrigins(after, t)
  {
    forall x | x in t ensures RefreshOrigin(after, x, t[x]) {
      assert RefreshOrigin(before, x, r[x]) && SameRefreshOrigin(r[x], t[x]);
      OriginKept(before, after, r[x].origin, r[x].agent, r[x].connector, true);
    }
    forall x, y | x in t && y in t && t[x].origin == t[y].origin ensures t[x].family == t[y].family {
      assert SameRefreshOrigin(r[x], t[x]) && SameRefreshOrigin(r[y], t[y]);
    }
  }

  lemma KeysKept(before: map<PairingId, Pairing>, after: map<PairingId, Pairing>, keys: map<KeyId, ApiKey>,
      t: map<KeyId, ApiKey>)
    requires KeyOrigins(before, keys) && PairingsMoved(before, after) && t.Keys == keys.Keys
    requires forall k | k in keys :: SameKeyOrigin(keys[k], t[k])
    ensures KeyOrigins(after, t)
  {
    forall k | k in t ensures OriginOk(after, t[k].origin, t[k].agent, t[k].connector, false) {
      assert SameKeyOrigin(keys[k], t[k]);
      OriginKept(before, after, keys[k].origin, keys[k].agent, keys[k].connector, false);
    }
    forall k, l | k in t && l in t && k != l ensures t[k].connector != t[l].connector {
      assert SameKeyOrigin(keys[k], t[k]) && SameKeyOrigin(keys[l], t[l]);
    }
  }

  /** Redeeming an approved pairing of the OAuth mode starts its one family. */
  lemma FamilyStarted(before: map<PairingId, Pairing>, after: map<PairingId, Pairing>, refresh: map<Token, Refresh>,
      x: Token, row: Refresh)
    requires RefreshOrigins(before, refresh) && PairingsMoved(before, after) && x !in refresh
    requires row.origin in before && before[row.origin].status != Consumed && RefreshOrigin(after, x, row)
    ensures RefreshOrigins(after, refresh[x := row])
  {
    RefreshKept(before, after, refresh, refresh) by {
      forall y | y in refresh ensures SameRefreshOrigin(refresh[y], refresh[y]) {}
    }
    forall y | y in refresh ensures refresh[y].origin != row.origin { assert RefreshOrigin(before, y, refresh[y]); }
  }

  /** Rotation extends a family within its origin. */
  lemma FamilyExtended(pairings: map<PairingId, Pairing>, refresh: map<Token, Refresh>, token: Token, x: Token,
      row: Refresh)
    requires RefreshOrigins(pairings, refresh) && token in refresh && x.Random? && x !in refresh
      && SameRefreshOrigin(refresh[token], row)
    ensures RefreshOrigins(pairings, refresh[x := row])
  {
    assert RefreshOrigin(pairings, token, refresh[token]);
  }

  lemma KeyAdded(pairings: map<PairingId, Pairing>, keys: map<KeyId, ApiKey>, k: KeyId, row: ApiKey)
    requires KeyOrigins(pairings, keys) && k !in keys && OriginOk(pairings, row.origin, row.agent, row.connector, false)
    requires forall l | l in keys :: keys[l].connector != row.connector
    ensures KeyOrigins(pairings, keys[k := row])
  {
  }

  // ----- Every step -----

  lemma RedeemTokensLineage(s: State, t: State, p: PairingId, client: Client, a: Token, b: Token)
    requires Lineage(s) && p in s.pairings && Redeemable(s, s.pairings[p])
    requires s.pairings[p].status == Approved && s.pairings[p].mode.OAuthMode? && b !in s.vault.refresh
    requires b.Derived? ==> b == Derived(p, s.pairings[p].connector.value)
    requires t.vault == RedeemTokens(s, p, client, a, b).vault
      && t.pairings == RedeemTokens(s, p, client, a, b).pairings
    ensures Lineage(t)
  {
    var row := s.pairings[p];
    FamilyStarted(s.pairings, t.pairings, s.vault.refresh, b,
      NewRefresh(s, row.agent.value, row.connector.value, client, s.next, s.next, p));
    KeysKept(s.pairings, t.pairings, s.vault.apiKeys, t.vault.apiKeys) by {
      forall k | k in s.vault.apiKeys ensures SameKeyOrigin(s.vault.apiKeys[k], s.vault.apiKeys[k]) {}
    }
  }

  lemma IdleLineage(s: State, t: State)
    requires Lineage(s) && PairingsMoved(s.pairings, t.pairings)
    requires t.vault.refresh.Keys == s.vault.refresh.Keys && t.vault.apiKeys.Keys == s.vault.apiKeys.Keys
    requires forall x | x in s.vault.refresh :: SameRefreshOrigin(s.vault.refresh[x], t.vault.refresh[x])
    requires forall k | k in s.vault.apiKeys :: SameKeyOrigin(s.vault.apiKeys[k], t.vault.apiKeys[k])
    ensures Lineage(t)
  {
    RefreshKept(s.pairings, t.pairings, s.vault.refresh, t.vault.refresh);
    KeysKept(s.pairings, t.pairings, s.vault.apiKeys, t.vault.apiKeys);
  }

  lemma IssueKeyLineage(s: State, p: PairingId)
    requires Lineage(s) && s.next !in s.vault.apiKeys
    ensures Lineage(IssueKeyStep(s, p).0)
  {
    var t := IssueKeyStep(s, p).0;
    IssueKeyMoves(s, p);
    if t.vault == s.vault {
      IdleLineage(s, t);
    } else {
      var row := s.pairings[p];
      var c := row.connector.value;
      RefreshKept(s.pairings, t.pairings, s.vault.refresh, t.vault.refresh);
      KeysKept(s.pairings, t.pairings, s.vault.apiKeys, s.vault.apiKeys);
      forall l | l in s.vault.apiKeys ensures s.vault.apiKeys[l].connector != c { assert !KeyFor(s.vault, c, l); }
      KeyAdded(t.pairings, s.vault.apiKeys, s.next, ApiKey(row.agent.value, c, Derived(p, c), false, p));
    }
  }

  /** A device-derived token is unused while its pairing is not consumed. */
  lemma DerivedUnused(s: State, p: PairingId, c: ConnectorId)
    requires DerivedConsumed(s.vault, s.pairings) && p in s.pairings && s.pairings[p].status != Consumed
    ensures Derived(p, c) !in s.vault.refresh && Derived(p, c) !in s.vault.access
  {
  }

  lemma ExchangeDeviceLineage(s: State, client: Client, p: PairingId)
    requires Lineage(s) && DerivedConsumed(s.vault, s.pairings)
    ensures Lineage(ExchangeDeviceStep(s, client, p).0)
  {
    var t := ExchangeDeviceStep(s, client, p).0;
    ExchangeDeviceMoves(s, client, p);
    if t.vault == s.vault {
      IdleLineage(s, t);
    } else {
      var token := Derived(p, s.pairings[p].connector.value);
      DerivedUnused(s, p, s.pairings[p].connector.value);
      RedeemTokensLineage(s, t, p, client, token, token);
    }
  }

  /** An authorization request belongs to a pairing of the OAuth mode. */
  ghost predicate RequestModes(requests: map<RequestId, Authorization>, pairings: map<PairingId, Pairing>) {
    forall r | r in requests ::
      requests[r].pairing in pairings && pairings[requests[r].pairing].mode == OAuthMode(requests[r].client)
  }

  lemma ExchangeCodeLineage(s: State, client: Client, code: nat, redirect: nat, verifier: nat)
    requires Lineage(s) && RequestModes(s.requests, s.pairings) && RefreshChains(s.vault.refresh, s.next)
    ensures Lineage(ExchangeCodeStep(s, client, code, redirect, verifier).0)
  {
    var t := ExchangeCodeStep(s, client, code, redirect, verifier).0;
    var found := RequestOf(s, code);
    if found.Some? && t != s {
      var p := s.requests[found.value].pairing;
      FreshRefresh(s.vault.refresh, s.next, s.next + 2);
      RedeemTokensLineage(s, t, p, client, Random(s.next + 1), Random(s.next + 2));
    }
  }

  lemma RevokedLineage(s: State, t: State, family: FamilyId, reason: Reason)
    requires Lineage(s) && t.vault == RevokeFamily(s.vault, family, reason) && t.pairings == s.pairings
    ensures Lineage(t)
  {
    IdleLineage(s, t);
  }

  lemma RotatedLineage(s: State, token: Token)
    requires Lineage(s) && RefreshChains(s.vault.refresh, s.next) && token in s.vault.refresh
    ensures RefreshOrigins(s.pairings, RotateFamily(s, token).refresh)
  {
    var row := s.vault.refresh[token];
    var revoked := RevokeFamily(s.vault, row.family, Rotated).refresh;
    RotatedShape(s, token, revoked);
    var marked := revoked[token := revoked[token].(consumed := true)];
    RefreshKept(s.pairings, s.pairings, s.vault.refresh, marked);
    FreshRefresh(s.vault.refresh, s.next, s.next + 1);
    FamilyExtended(s.pairings, marked, token, Random(s.next + 1),
      NewRefresh(s, row.agent, row.connector, row.client, row.family, s.next, row.origin));
  }

  lemma RefreshLineage(s: State, client: Client, token: Token)
    requires Lineage(s) && RefreshChains(s.vault.refresh, s.next)
    ensures Lineage(RefreshStep(s, client, token).0)
  {
    if token in s.vault.refresh {
      var row := s.vault.refresh[token];
      RotatedLineage(s, token);
      RevokedLineage(s, s.(vault := RevokeFamily(s.vault, row.family, Replayed)), row.family, Replayed);
      RevokedLineage(s, s.(vault := RevokeFamily(s.vault, row.family, ConnectorReplaced)), row.family,
        ConnectorReplaced);
    }
  }

  lemma EndedLineage(s: State, t: State, c: ConnectorId, reason: Reason)
    requires Lineage(s) && t.vault == RevokeCredentials(s.vault, c, reason) && PairingsMoved(s.pairings, t.pairings)
    ensures Lineage(t)
  {
    IdleLineage(s, t);
  }

  lemma SameVaultLineage(s: State, t: State)
    requires Lineage(s) && t.vault == s.vault && PairingsMoved(s.pairings, t.pairings)
    ensures Lineage(t)
  {
    IdleLineage(s, t);
  }

  lemma DecideLineage(s: State, p: PairingId, human: HumanId, approve: bool, target: Option<AgentId>)
    requires Lineage(s)
    ensures Lineage(DecideStep(s, p, human, approve, target))
  {
    var t := DecideStep(s, p, human, approve, target);
    DecideMoves(s, p, human, approve, target);
    if t.vault == s.vault {
      SameVaultLineage(s, t);
    } else {
      EndedLineage(s, t, WithTarget(s.hosts, human, target, s.next).bindings[TargetAgent(target, s.next)],
        ConnectorReplaced);
    }
  }

  lemma EndLineage(s: State, e: Event)
    requires Lineage(s) && (e.RevokeConnector? || e.DisableAgent?)
    ensures Lineage(Step(s, e))
  {
    var t := Step(s, e);
    OthersMove(s, e);
    forall p | p in s.pairings ensures RowMoved(s.pairings[p], s.pairings[p]) {}
    if t.vault == s.vault {
      SameVaultLineage(s, t);
    } else if e.RevokeConnector? {
      EndedLineage(s, t, e.connector, ConnectorRevoked);
    } else {
      EndedLineage(s, t, s.hosts.bindings[e.agent], AgentDeleted);
    }
  }

  lemma RotateKeyLineage(s: State, agent: AgentId, key: KeyId)
    requires Lineage(s)
    ensures Lineage(RotateStep(s, agent, key).0)
  {
    var t := RotateStep(s, agent, key).0;
    forall p | p in s.pairings ensures RowMoved(s.pairings[p], s.pairings[p]) {}
    if t.vault == s.vault {
      SameVaultLineage(s, t);
    } else {
      KeysKept(s.pairings, s.pairings, s.vault.apiKeys, t.vault.apiKeys);
    }
  }

  lemma IdleStepLineage(s: State, e: Event)
    requires Lineage(s) && (e.Tick? || e.Register? || e.SetOwner? || e.CreatePairing? || e.StartAuthorization?
      || e.Complete?)
    requires forall p | p in s.pairings :: p < s.next
    ensures Lineage(Step(s, e))
  {
    StepPairings(s, e);
    SameVaultLineage(s, Step(s, e));
  }

  lemma StepLineage(s: State, e: Event)
    requires Lineage(s) && Families(s) && RequestModes(s.requests, s.pairings)
    requires s.next !in s.vault.apiKeys && forall p | p in s.pairings :: p < s.next
    ensures Lineage(Step(s, e))
  {
    match e
    case Decide(p, human, approve, target) => DecideLineage(s, p, human, approve, target);
    case IssueKey(p) => IssueKeyLineage(s, p);
    case ExchangeDevice(client, p) => ExchangeDeviceLineage(s, client, p);
    case ExchangeCode(client, code, redirect, verifier) => ExchangeCodeLineage(s, client, code, redirect, verifier);
    case RefreshTokens(client, token) => RefreshLineage(s, client, token);
    case RevokeConnector(_, _) => EndLineage(s, e);
    case DisableAgent(_, _, _) => EndLineage(s, e);
    case Rotate(agent, key) => RotateKeyLineage(s, agent, key);
    case _ => IdleStepLineage(s, e);
  }

  // ----- Every run -----

  lemma RequestsKept(s: State, t: State)
    requires RequestModes(s.requests, s.pairings) && PairingsMoved(s.pairings, t.pairings)
    requires forall r | r in t.requests :: r in s.requests
               && t.requests[r].pairing == s.requests[r].pairing && t.requests[r].client == s.requests[r].client
    ensures RequestModes(t.requests, t.pairings)
  {
    forall r | r in t.requests
      ensures t.requests[r].pairing in t.pairings
        && t.pairings[t.requests[r].pairing].mode == OAuthMode(t.requests[r].client)
    {
      assert RowMoved(s.pairings[s.requests[r].pairing], t.pairings[s.requests[r].pairing]);
    }
  }

  lemma ExchangeCodeRequests(s: State, client: Client, code: nat, redirect: nat, verifier: nat)
    requires RequestModes(s.requests, s.pairings)
    ensures var t := ExchangeCodeStep(s, client, code, redirect, verifier).0; RequestModes(t.requests, t.pairings)
  {
    ExchangeCodeMoves(s, client, code, redirect, verifier);
    RequestsKept(s, ExchangeCodeStep(s, client, code, redirect, verifier).0);
  }

  lemma CompleteKeeps(s: State, r: RequestId, human: HumanId)
    ensures var t := CompleteStep(s, r, human).0;
            && t.pairings == s.pairings && t.requests.Keys == s.requests.Keys
            && forall q | q in s.requests ::
                 t.requests[q].pairing == s.requests[q].pairing && t.requests[q].client == s.requests[q].client
  {
  }

  lemma CompleteRequests(s: State, r: RequestId, human: HumanId)
    requires RequestModes(s.requests, s.pairings)
    ensures var t := CompleteStep(s, r, human).0; RequestModes(t.requests, t.pairings)
  {
    CompleteKeeps(s, r, human);
  }

  lemma StartRequests(s: State, dynamicId: nat, redirect: nat, challenge: nat)
    requires RequestModes(s.requests, s.pairings) && forall p | p in s.pairings :: p < s.next
    ensures var t := StartAuthorizationStep(s, dynamicId, redirect, challenge); RequestModes(t.requests, t.pairings)
  {
  }

  lemma SameRequests(s: State, e: Event)
    requires !e.ExchangeCode? && !e.Complete? && !e.StartAuthorization?
    ensures Step(s, e).requests == s.requests
  {
    match e
    case Decide(_, _, _, _) =>
    case IssueKey(_) =>
    case ExchangeDevice(_, _) =>
    case _ =>
  }

  lemma StepRequests(s: State, e: Event)
    requires RequestModes(s.requests, s.pairings) && forall p | p in s.pairings :: p < s.next
    ensures RequestModes(Step(s, e).requests, Step(s, e).pairings)
  {
    match e
    case ExchangeCode(client, code, redirect, verifier) => ExchangeCodeRequests(s, client, code, redirect, verifier);
    case Complete(r, human) => CompleteRequests(s, r, human);
    case StartAuthorization(dynamicId, redirect, challenge) => StartRequests(s, dynamicId, redirect, challenge);
    case _ =>
      SameRequests(s, e);
      StepPairings(s, e);
      RequestsKept(s, Step(s, e));
  }

  ghost predicate KeysDrawn(keys: map<KeyId, ApiKey>, next: nat) {
    forall k | k in keys :: k < next
  }

  lemma SameKeyIds(s: State, e: Event)
    requires !e.IssueKey?
    ensures Step(s, e).vault.apiKeys.Keys == s.vault.apiKeys.Keys
  {
    match e
    case Decide(_, _, _, _) =>
    case ExchangeDevice(_, _) =>
    case ExchangeCode(_, _, _, _) =>
    case RefreshTokens(_, _) =>
    case RevokeConnector(_, _) =>
    case DisableAgent(_, _, _) =>
    case Rotate(_, _) =>
    case _ =>
  }

  lemma StepKeysDrawn(s: State, e: Event)
    requires KeysDrawn(s.vault.apiKeys, s.next)
    ensures KeysDrawn(Step(s, e).vault.apiKeys, Step(s, e).next)
  {
    StepNext(s, e);
    if !e.IssueKey? { SameKeyIds(s, e); }
  }

  // ----- One connector per pairing -----

  ghost predicate SameConnectors(before: map<PairingId, Pairing>, after: map<PairingId, Pairing>) {
    forall p | p in after :: after[p].connector == if p in before then before[p].connector else None
  }

  lemma ConnectorsKeptOnce(before: map<PairingId, Pairing>, after: map<PairingId, Pairing>, next: nat, later: nat)
    requires ConnectorsOnce(before, next) && next <= later && SameConnectors(before, after)
    ensures ConnectorsOnce(after, later)
  {
  }

  lemma ConnectorMade(before: map<PairingId, Pairing>, p: PairingId, row: Pairing, next: nat)
    requires ConnectorsOnce(before, next) && row.connector == Some(next + 1)
    ensures ConnectorsOnce(before[p := row], next + 2)
  {
  }

  lemma DecideConnectors(s: State, p: PairingId, human: HumanId, approve: bool, target: Option<AgentId>)
    requires ConnectorsOnce(s.pairings, s.next)
    ensures var t := DecideStep(s, p, human, approve, target); ConnectorsOnce(t.pairings, t.next)
  {
    var t := DecideStep(s, p, human, approve, target);
    if p in s.pairings {
      if t.next == s.next {
        ConnectorsKeptOnce(s.pairings, t.pairings, s.next, t.next);
      } else {
        ConnectorMade(s.pairings, p, t.pairings[p], s.next);
      }
    }
  }

  lemma RedeemConnectors(s: State, e: Event)
    requires e.IssueKey? || e.ExchangeDevice? || e.ExchangeCode?
    ensures SameConnectors(s.pairings, Step(s, e).pairings)
  {
    match e
    case IssueKey(p) => IssueKeyConnectors(s, p);
    case ExchangeDevice(client, p) => ExchangeDeviceConnectors(s, client, p);
    case ExchangeCode(client, code, redirect, verifier) => ExchangeCodeConnectors(s, client, code, redirect, verifier);
  }

  lemma IssueKeyConnectors(s: State, p: PairingId)
    ensures SameConnectors(s.pairings, IssueKeyStep(s, p).0.pairings)
  {
  }

  lemma ExchangeDeviceConnectors(s: State, client: Client, p: PairingId)
    ensures SameConnectors(s.pairings, ExchangeDeviceStep(s, client, p).0.pairings)
  {
  }

  lemma ExchangeCodeConnectors(s: State, client: Client, code: nat, redirect: nat, verifier: nat)
    ensures SameConnectors(s.pairings, ExchangeCodeStep(s, client, code, redirect, verifier).0.pairings)
  {
  }

  lemma StepConnectors(s: State, e: Event)
    requires ConnectorsOnce(s.pairings, s.next) && forall p | p in s.pairings :: p < s.next
    ensures ConnectorsOnce(Step(s, e).pairings, Step(s, e).next)
  {
    match e
    case Decide(p, human, approve, target) => DecideConnectors(s, p, human, approve, target);
    case _ =>
      StepNext(s, e);
      if e.IssueKey? || e.ExchangeDevice? || e.ExchangeCode? {
        RedeemConnectors(s, e);
      } else if !e.CreatePairing? && !e.StartAuthorization? {
        OthersMove(s, e);
      }
      ConnectorsKeptOnce(s.pairings, Step(s, e).pairings, s.next, Step(s, e).next);
  }

  // ----- The theorem -----

  ghost predicate Traced(s: State) {
    && Lineage(s) && Families(s) && Bindings(s) && RequestModes(s.requests, s.pairings)
    && KeysDrawn(s.vault.apiKeys, s.next) && ConnectorsOnce(s.pairings, s.next)
    && forall p | p in s.pairings :: p < s.next
  }

  lemma StepTraced(s: State, e: Event)
    requires Traced(s)
    ensures Traced(Step(s, e))
  {
    StepLineage(s, e);
    StepFamilies(s, e);
    StepBindings(s, e);
    StepRequests(s, e);
    StepKeysDrawn(s, e);
    StepConnectors(s, e);
    StepDrawn(s, e);
  }

  lemma {:induction false} RunTraced(s: State, events: seq<Event>)
    requires Traced(s)
    ensures Traced(Run(s, events))
    decreases |events|
  {
    if events != [] {
      StepTraced(s, events[0]);
      RunTraced(Step(s, events[0]), events[1..]);
    }
  }

  /**
    In every run each pairing has at most one credential lineage, over all redemption paths and
    retries: one API-key row or one refresh family, never both, and no lineage has two pairings.
   */
  lemma OneLineagePerPairing(settings: Settings, now: int, events: seq<Event>)
    ensures var v := Run(Start(settings, now), events).vault;
            && (forall k, l | k in v.apiKeys && l in v.apiKeys && v.apiKeys[k].origin == v.apiKeys[l].origin :: k == l)
            && (forall x, y | x in v.refresh && y in v.refresh ::
                  v.refresh[x].origin == v.refresh[y].origin <==> v.refresh[x].family == v.refresh[y].family)
            && (forall k, x | k in v.apiKeys && x in v.refresh :: v.apiKeys[k].origin != v.refresh[x].origin)
  {
    RunTraced(Start(settings, now), events);
    var s := Run(Start(settings, now), events);
    var v := s.vault;
    forall k, l | k in v.apiKeys && l in v.apiKeys && v.apiKeys[k].origin == v.apiKeys[l].origin ensures k == l {
      assert OriginOk(s.pairings, v.apiKeys[k].origin, v.apiKeys[k].agent, v.apiKeys[k].connector, false);
      assert OriginOk(s.pairings, v.apiKeys[l].origin, v.apiKeys[l].agent, v.apiKeys[l].connector, false);
    }
    forall x, y | x in v.refresh && y in v.refresh && x != y
      ensures v.refresh[x].origin == v.refresh[y].origin <==> v.refresh[x].family == v.refresh[y].family
    {
      assert RefreshPair(v.refresh[x], v.refresh[y]);
    }
    forall k, x | k in v.apiKeys && x in v.refresh ensures v.apiKeys[k].origin != v.refresh[x].origin {
      assert OriginOk(s.pairings, v.apiKeys[k].origin, v.apiKeys[k].agent, v.apiKeys[k].connector, false);
      assert RefreshOrigin(s.pairings, x, v.refresh[x]);
    }
  }
}
