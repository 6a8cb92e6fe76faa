/** Repeated redemptions of one pairing: what each answers, and for how long. */
module Redemptions {
  import opened Prelude
  import opened Credentials
  import opened CredentialSafety
  import opened RefreshFamilies
  import opened PairingLineage

  // ----- The API key -----

  lemma KeyAnswer(s: State, p: PairingId)
    requires IssueKeyStep(s, p).1.Key?
    ensures p in s.pairings && s.pairings[p].connector.Some? && s.pairings[p].agent.Some?
    ensures IssueKeyStep(s, p).1 == Key(Derived(p, s.pairings[p].connector.value))
    ensures var t := IssueKeyStep(s, p).0;
            p in t.pairings && t.pairings[p].status == Consumed && t.pairings[p].connector == s.pairings[p].connector
  {
  }

  /** However often and whenever a pairing's key is issued, it is the same string. */
  lemma SameKeyEveryTime(settings: Settings, now: int, before: seq<Event>, between: seq<Event>, p: PairingId)
    ensures var (t, first) := Serve(Run(Start(settings, now), before), IssueKey(p));
            var (_, second) := Serve(Run(t, between), IssueKey(p));
            first.Key? && second.Key? ==> first == second
  {
    var s := Run(Start(settings, now), before);
    var (t, first) := Serve(s, IssueKey(p));
    var u := Run(t, between);
    if first.Key? && Serve(u, IssueKey(p)).1.Key? {
      RunTraced(Start(settings, now), before);
      StepTraced(s, IssueKey(p));
      RunPairings(t, between);
      KeyAnswer(s, p);
      KeyAnswer(u, p);
      assert RowMoved(t.pairings[p], u.pairings[p]);
    }
  }

  /** A stored secret is the derived one exactly while its connector was never rotated. */
  ghost predicate SecretOk(connectors: map<ConnectorId, Connector>, row: ApiKey) {
    && row.connector in connectors
    && if connectors[row.connector].rotated then row.secret.Random?
       else row.secret == Derived(row.origin, row.connector)
  }

  ghost predicate Secrets(h: Hosts, v: Vault) {
    && (forall k | k in v.apiKeys :: SecretOk(h.connectors, v.apiKeys[k]))
    && (forall c | c in h.connectors && h.connectors[c].rotated :: exists k :: KeyFor(v, c, k))
  }

  ghost predicate HostsGrow(before: map<ConnectorId, Connector>, after: map<ConnectorId, Connector>) {
    && (forall c | c in before :: c in after && after[c].rotated == before[c].rotated)
    && (forall c | c in after && c !in before :: !after[c].rotated)
  }

  ghost predicate SecretsKept(before: map<KeyId, ApiKey>, after: map<KeyId, ApiKey>) {
    && after.Keys == before.Keys
    && forall k | k in before :: SameKeyOrigin(before[k], after[k]) && after[k].secret == before[k].secret
  }

  lemma KeptSecrets(s: State, t: State)
    requires Secrets(s.hosts, s.vault) && HostsGrow(s.hosts.connectors, t.hosts.connectors)
    requires SecretsKept(s.vault.apiKeys, t.vault.apiKeys)
    ensures Secrets(t.hosts, t.vault)
  {
    forall k | k in t.vault.apiKeys ensures SecretOk(t.hosts.connectors, t.vault.apiKeys[k]) {
      assert SecretOk(s.hosts.connectors, s.vault.apiKeys[k]) && SameKeyOrigin(s.vault.apiKeys[k], t.vault.apiKeys[k]);
    }
    forall c | c in t.hosts.connectors && t.hosts.connectors[c].rotated ensures exists k :: KeyFor(t.vault, c, k) {
      var k :| KeyFor(s.vault, c, k);
      assert SameKeyOrigin(s.vault.apiKeys[k], t.vault.apiKeys[k]);
      assert KeyFor(t.vault, c, k);
    }
  }

  lemma IssueKeySecrets(s: State, p: PairingId)
    requires Secrets(s.hosts, s.vault) && KeysDrawn(s.vault.apiKeys, s.next)
    ensures var t := IssueKeyStep(s, p).0; Secrets(t.hosts, t.vault)
  {
    var t := IssueKeyStep(s, p).0;
    if t.vault == s.vault {
      KeptSecrets(s, t);
    } else {
      var c := s.pairings[p].connector.value;
      forall k | k in s.vault.apiKeys ensures s.vault.apiKeys[k].connector != c { assert !KeyFor(s.vault, c, k); }
      forall b | b in t.hosts.connectors && t.hosts.connectors[b].rotated ensures exists k :: KeyFor(t.vault, b, k) {
        var k :| KeyFor(s.vault, b, k);
        assert KeyFor(t.vault, b, k);
      }
    }
  }

  lemma RotateSecrets(s: State, agent: AgentId, key: KeyId)
    requires Secrets(s.hosts, s.vault) && KeyOrigins(s.pairings, s.vault.apiKeys)
    ensures var t := RotateStep(s, agent, key).0; Secrets(t.hosts, t.vault)
  {
    var t := RotateStep(s, agent, key).0;
    if t != s {
      var c := s.vault.apiKeys[key].connector;
      forall k | k in t.vault.apiKeys ensures SecretOk(t.hosts.connectors, t.vault.apiKeys[k]) {
        assert SecretOk(s.hosts.connectors, s.vault.apiKeys[k]);
      }
      forall b | b in t.hosts.connectors && t.hosts.connectors[b].rotated ensures exists k :: KeyFor(t.vault, b, k) {
        if b == c {
          assert KeyFor(t.vault, c, key);
        } else {
          var k :| KeyFor(s.vault, b, k);
          assert KeyFor(t.vault, b, k);
        }
      }
    }
  }

  lemma RevokedKeys(v: Vault, c: ConnectorId, reason: Reason)
    ensures SecretsKept(v.apiKeys, RevokeCredentials(v, c, reason).apiKeys)
  {
  }

  lemma SameKeys(keys: map<KeyId, ApiKey>)
    ensures SecretsKept(keys, keys)
  {
  }

  lemma UnboundGrows(h: Hosts, agent: AgentId, c: ConnectorId)
    requires c in h.connectors
    ensures HostsGrow(h.connectors, Unbind(h, agent, c).connectors)
  {
  }

  lemma BoundGrows(h: Hosts, agent: AgentId, c: ConnectorId)
    requires c !in h.connectors
    ensures HostsGrow(h.connectors, BindNew(h, agent, c).connectors)
  {
  }

  lemma EndSecrets(s: State, e: Event)
    requires Secrets(s.hosts, s.vault) && (e.RevokeConnector? || e.DisableAgent?)
    ensures Secrets(Step(s, e).hosts, Step(s, e).vault)
  {
    SameKeys(s.vault.apiKeys);
    KeptSecrets(s, Step(s, e)) by {
      match e
      case RevokeConnector(_, c) =>
        RevokedKeys(s.vault, c, ConnectorRevoked);
        if c in s.hosts.connectors { UnboundGrows(s.hosts, s.hosts.connectors[c].agent, c); }
      case DisableAgent(_, agent, _) =>
        if HasCurrent(s.hosts, agent) {
          RevokedKeys(s.vault, s.hosts.bindings[agent], AgentDeleted);
          UnboundGrows(s.hosts, agent, s.hosts.bindings[agent]);
        }
    }
  }

  lemma ReplacedKeys(h: Hosts, v: Vault, agent: AgentId)
    ensures SecretsKept(v.apiKeys, WithoutCurrent(h, v, agent).apiKeys)
  {
    SameKeys(v.apiKeys);
    if HasCurrent(h, agent) { RevokedKeys(v, h.bindings[agent], ConnectorReplaced); }
  }

  /** A decision adds at most one unrotated connector and revokes keys without changing them. */
  lemma DecideGrows(s: State, p: PairingId, human: HumanId, approve: bool, target: Option<AgentId>)
    requires s.next + 1 !in s.hosts.connectors
    ensures var t := DecideStep(s, p, human, approve, target);
            && HostsGrow(s.hosts.connectors, t.hosts.connectors)
            && SecretsKept(s.vault.apiKeys, t.vault.apiKeys)
  {
    var hosts, agent := WithTarget(s.hosts, human, target, s.next), TargetAgent(target, s.next);
    SameKeys(s.vault.apiKeys);
    if DecideStep(s, p, human, approve, target).next != s.next {
      BoundGrows(hosts, agent, s.next + 1);
      ReplacedKeys(hosts, s.vault, agent);
    }
  }

  lemma DecideSecrets(s: State, p: PairingId, human: HumanId, approve: bool, target: Option<AgentId>)
    requires Secrets(s.hosts, s.vault) && s.next + 1 !in s.hosts.connectors
    ensures var t := DecideStep(s, p, human, approve, target); Secrets(t.hosts, t.vault)
  {
    DecideGrows(s, p, human, approve, target);
    KeptSecrets(s, DecideStep(s, p, human, approve, target));
  }

  /** Redeeming and refreshing tokens touches neither connectors nor API keys. */
  lemma TokensLeaveKeys(s: State, e: Event)
    requires e.ExchangeDevice? || e.ExchangeCode? || e.RefreshTokens?
    ensures Step(s, e).hosts == s.hosts && Step(s, e).vault.apiKeys == s.vault.apiKeys
  {
    match e
    case ExchangeDevice(_, _) =>
    case ExchangeCode(_, _, _, _) =>
    case RefreshTokens(_, _) =>
  }

  lemma TokenSecrets(s: State, e: Event)
    requires Secrets(s.hosts, s.vault) && (e.ExchangeDevice? || e.ExchangeCode? || e.RefreshTokens?)
    ensures Secrets(Step(s, e).hosts, Step(s, e).vault)
  {
    TokensLeaveKeys(s, e);
    SameKeys(s.vault.apiKeys);
    KeptSecrets(s, Step(s, e));
  }

  lemma IdleSecrets(s: State, e: Event)
    requires Secrets(s.hosts, s.vault)
    requires e.Tick? || e.Register? || e.SetOwner? || e.CreatePairing? || e.StartAuthorization? || e.Complete?
    ensures Secrets(Step(s, e).hosts, Step(s, e).vault)
  {
    SameKeys(s.vault.apiKeys);
    KeptSecrets(s, Step(s, e));
  }

  lemma StepSecrets(s: State, e: Event)
    requires Secrets(s.hosts, s.vault) && KeyOrigins(s.pairings, s.vault.apiKeys) && KeysDrawn(s.vault.apiKeys, s.next)
    requires HostsOk(s.hosts, s.next)
    ensures Secrets(Step(s, e).hosts, Step(s, e).vault)
  {
    match e
    case Decide(p, human, approve, target) => DecideSecrets(s, p, human, approve, target);
    case IssueKey(p) => IssueKeySecrets(s, p);
    case ExchangeDevice(_, _) => TokenSecrets(s, e);
    case ExchangeCode(_, _, _, _) => TokenSecrets(s, e);
    case RefreshTokens(_, _) => TokenSecrets(s, e);
    case RevokeConnector(_, _) => EndSecrets(s, e);
    case DisableAgent(_, _, _) => EndSecrets(s, e);
    case Rotate(agent, key) => RotateSecrets(s, agent, key);
    case _ => IdleSecrets(s, e);
  }

  lemma {:induction false} RunSecrets(s: State, events: seq<Event>)
    requires Secrets(s.hosts, s.vault) && Traced(s)
    ensures Secrets(Run(s, events).hosts, Run(s, events).vault)
    decreases |events|
  {
    if events != [] {
      StepSecrets(s, events[0]);
      StepTraced(s, events[0]);
      RunSecrets(Step(s, events[0]), events[1..]);
    }
  }

  ghost predicate Authenticates(v: Vault, secret: Token) {
    exists k :: k in v.apiKeys && v.apiKeys[k].secret == secret && !v.apiKeys[k].revoked
  }

  /** Key rows carry the pairing that made their connector, and the secret that goes with it. */
  ghost predicate KeysInOrder(s: State) {
    Secrets(s.hosts, s.vault) && KeyOrigins(s.pairings, s.vault.apiKeys) && ConnectorsOnce(s.pairings, s.next)
  }

  lemma StepInOrder(s: State, e: Event)
    requires Traced(s) && Secrets(s.hosts, s.vault)
    ensures KeysInOrder(Step(s, e))
  {
    StepSecrets(s, e);
    var t := Step(s, e);
    assert Traced(t) by { StepTraced(s, e); }
    assert Lineage(t);
  }

  lemma KeysInOrderAfter(settings: Settings, now: int, events: seq<Event>, e: Event)
    ensures KeysInOrder(Step(Run(Start(settings, now), events), e))
  {
    RunTraced(Start(settings, now), events);
    RunSecrets(Start(settings, now), events);
    StepInOrder(Run(Start(settings, now), events), e);
  }

  lemma IssuedRow(s: State, p: PairingId) returns (k: KeyId)
    requires IssueKeyStep(s, p).1.Key?
    ensures var v := IssueKeyStep(s, p).0.vault;
            s.pairings[p].connector.Some? && KeyFor(v, s.pairings[p].connector.value, k) && !v.apiKeys[k].revoked
  {
    var existing := KeyOf(s.vault, s.pairings[p].connector.value);
    k := if existing.Some? then existing.value else s.next;
  }

  /** With one key row for the pairing's connector, the derived string works until a rotation. */
  lemma DerivedWorksIffUnrotated(h: Hosts, v: Vault, p: PairingId, k: KeyId)
    requires Secrets(h, v) && k in v.apiKeys && !v.apiKeys[k].revoked && v.apiKeys[k].origin == p
    ensures v.apiKeys[k].connector in h.connectors
    ensures Authenticates(v, Derived(p, v.apiKeys[k].connector)) <==> !h.connectors[v.apiKeys[k].connector].rotated
  {
    var c := v.apiKeys[k].connector;
    assert SecretOk(h.connectors, v.apiKeys[k]);
    if Authenticates(v, Derived(p, c)) {
      var l :| l in v.apiKeys && v.apiKeys[l].secret == Derived(p, c) && !v.apiKeys[l].revoked;
      assert SecretOk(h.connectors, v.apiKeys[l]);
    }
  }

  lemma IssuedOrigin(pairings: map<PairingId, Pairing>, next: nat, keys: map<KeyId, ApiKey>, p: PairingId, k: KeyId)
    requires KeyOrigins(pairings, keys) && ConnectorsOnce(pairings, next)
    requires k in keys && p in pairings && pairings[p].connector == Some(keys[k].connector)
    ensures keys[k].origin == p
  {
    assert OriginOk(pairings, keys[k].origin, keys[k].agent, keys[k].connector, false);
  }

  lemma IssueKeepsHosts(s: State, p: PairingId)
    ensures IssueKeyStep(s, p).0.hosts == s.hosts
  {
  }

  lemma IssuedKey(s: State, p: PairingId)
    requires IssueKeyStep(s, p).1.Key?
    requires KeysInOrder(IssueKeyStep(s, p).0)
    ensures p in s.pairings && s.pairings[p].connector.Some? && s.pairings[p].connector.value in s.hosts.connectors
    ensures Authenticates(IssueKeyStep(s, p).0.vault, IssueKeyStep(s, p).1.secret) <==>
              !s.hosts.connectors[s.pairings[p].connector.value].rotated
  {
    var t := IssueKeyStep(s, p).0;
    KeyAnswer(s, p);
    IssueKeepsHosts(s, p);
    var k := IssuedRow(s, p);
    IssuedOrigin(t.pairings, t.next, t.vault.apiKeys, p, k);
    DerivedWorksIffUnrotated(t.hosts, t.vault, p, k);
  }

  /**
    The string a pairing hands out authenticates exactly when its connector's credential was
    never rotated: after a rotation a repeated call still succeeds, and returns a dead string.
   */
  lemma IssuedKeyWorksIffUnrotated(settings: Settings, now: int, events: seq<Event>, p: PairingId)
    ensures var s := Run(Start(settings, now), events);
            var (t, answer) := Serve(s, IssueKey(p));
            answer.Key? ==>
              && p in s.pairings && s.pairings[p].connector.Some? && s.pairings[p].connector.value in s.hosts.connectors
              && (Authenticates(t.vault, answer.secret) <==> !s.hosts.connectors[s.pairings[p].connector.value].rotated)
  {
    var s := Run(Start(settings, now), events);
    KeysInOrderAfter(settings, now, events, IssueKey(p));
    if IssueKeyStep(s, p).1.Key? { IssuedKey(s, p); }
  }
}
