/** Bindings are exactly the active connectors, and only they carry unrevoked credentials. */
module CredentialSafety {
  import opened Prelude
  import opened Credentials

  // ----- Hosts -----

  ghost predicate BindingOk(h: Hosts, agent: AgentId) {
    && agent in h.bindings && h.bindings[agent] in h.connectors
    && h.connectors[h.bindings[agent]].status == Active && h.connectors[h.bindings[agent]].agent == agent
    && agent in h.agents && h.agents[agent].active
  }

  ghost predicate ConnectorOk(h: Hosts, c: ConnectorId) {
    && c in h.connectors && h.connectors[c].agent in h.agents
    && (h.connectors[c].status == Active ==>
          h.connectors[c].agent in h.bindings && h.bindings[h.connectors[c].agent] == c)
  }

  /** Bindings and active connectors determine each other, and a bound agent is active. */
  ghost predicate HostsOk(h: Hosts, next: nat) {
    && (forall a | a in h.bindings :: BindingOk(h, a))
    && (forall c | c in h.connectors :: c < next && ConnectorOk(h, c))
    && (forall a | a in h.agents :: a < next)
  }

  lemma AgentRowsHosts(h: Hosts, next: nat, agent: AgentId, row: Agent)
    requires HostsOk(h, next) && agent < next && (agent in h.bindings ==> row.active)
    ensures HostsOk(h.(agents := h.agents[agent := row]), next)
  {
    var t := h.(agents := h.agents[agent := row]);
    forall a | a in t.bindings ensures BindingOk(t, a) { assert BindingOk(h, a); }
    forall c | c in t.connectors ensures c < next && ConnectorOk(t, c) { assert ConnectorOk(h, c); }
  }

  lemma BindNewHosts(h: Hosts, next: nat, agent: AgentId, connector: ConnectorId)
    requires HostsOk(h, next) && agent in h.agents && h.agents[agent].active && connector !in h.connectors
      && connector < next
    ensures HostsOk(BindNew(h, agent, connector), next)
  {
    var t := BindNew(h, agent, connector);
    forall a | a in t.bindings ensures BindingOk(t, a) {
      if a in h.bindings { assert BindingOk(h, a); }
    }
    forall c | c in t.connectors ensures c < next && ConnectorOk(t, c) {
      if c in h.connectors { assert ConnectorOk(h, c); }
    }
  }

  lemma UnbindHosts(h: Hosts, next: nat, agent: AgentId, connector: ConnectorId)
    requires HostsOk(h, next) && agent in h.bindings && h.bindings[agent] == connector
    ensures connector in h.connectors && HostsOk(Unbind(h, agent, connector), next)
  {
    assert BindingOk(h, agent);
    var t := Unbind(h, agent, connector);
    forall a | a in t.bindings ensures BindingOk(t, a) { assert BindingOk(h, a); }
    forall c | c in t.connectors ensures c < next && ConnectorOk(t, c) { assert ConnectorOk(h, c); }
  }

  lemma MarkRotatedHosts(h: Hosts, next: nat, c: ConnectorId)
    requires HostsOk(h, next) && c in h.connectors
    ensures HostsOk(MarkRotated(h, c), next)
  {
    var t := MarkRotated(h, c);
    forall a | a in t.bindings ensures BindingOk(t, a) { assert BindingOk(h, a); }
    forall b | b in t.connectors ensures b < next && ConnectorOk(t, b) { assert ConnectorOk(h, b); }
  }

  lemma LaterHosts(h: Hosts, next: nat, later: nat)
    requires HostsOk(h, next) && next <= later
    ensures HostsOk(h, later)
  {
  }

  // ----- Credentials of connectors -----

  /** A credential names its connector's agent, and is unrevoked only while that connector is active. */
  ghost predicate CredentialOk(connectors: map<ConnectorId, Connector>, agent: AgentId, c: ConnectorId, revoked: bool) {
    && c in connectors && connectors[c].agent == agent
    && (!revoked ==> connectors[c].status == Active)
  }

  ghost predicate AccessOk(connectors: map<ConnectorId, Connector>, access: map<Token, Access>) {
    forall t | t in access :: CredentialOk(connectors, access[t].agent, access[t].connector, access[t].revoked)
  }

  ghost predicate RefreshOk(connectors: map<ConnectorId, Connector>, refresh: map<Token, Refresh>) {
    forall t | t in refresh :: CredentialOk(connectors, refresh[t].agent, refresh[t].connector, refresh[t].revoked)
  }

  ghost predicate KeysOk(connectors: map<ConnectorId, Connector>, keys: map<KeyId, ApiKey>) {
    forall k | k in keys :: CredentialOk(connectors, keys[k].agent, keys[k].connector, keys[k].revoked)
  }

  ghost predicate VaultOk(connectors: map<ConnectorId, Connector>, v: Vault) {
    AccessOk(connectors, v.access) && RefreshOk(connectors, v.refresh) && KeysOk(connectors, v.apiKeys)
  }

  /** A connector stops being active only together with its credentials. */
  lemma RevokedVault(before: map<ConnectorId, Connector>, after: map<ConnectorId, Connector>, v: Vault,
      c: ConnectorId, reason: Reason)
    requires VaultOk(before, v) && before.Keys <= after.Keys
    requires forall b | b in before ::
      after[b].agent == before[b].agent && (b != c ==> after[b].status == before[b].status)
    ensures VaultOk(after, RevokeCredentials(v, c, reason))
  {
    var t := RevokeCredentials(v, c, reason);
    forall x | x in t.access
      ensures CredentialOk(after, t.access[x].agent, t.access[x].connector, t.access[x].revoked)
    {
      assert CredentialOk(before, v.access[x].agent, v.access[x].connector, v.access[x].revoked);
    }
    forall x | x in t.refresh
      ensures CredentialOk(after, t.refresh[x].agent, t.refresh[x].connector, t.refresh[x].revoked)
    {
      assert CredentialOk(before, v.refresh[x].agent, v.refresh[x].connector, v.refresh[x].revoked);
    }
    forall k | k in t.apiKeys
      ensures CredentialOk(after, t.apiKeys[k].agent, t.apiKeys[k].connector, t.apiKeys[k].revoked)
    {
      assert CredentialOk(before, v.apiKeys[k].agent, v.apiKeys[k].connector, v.apiKeys[k].revoked);
    }
  }

  lemma MoreConnectorsVault(before: map<ConnectorId, Connector>, after: map<ConnectorId, Connector>, v: Vault)
    requires VaultOk(before, v) && before.Keys <= after.Keys
    requires forall b | b in before :: after[b].agent == before[b].agent && after[b].status == before[b].status
    ensures VaultOk(after, v)
  {
    forall x | x in v.access
      ensures CredentialOk(after, v.access[x].agent, v.access[x].connector, v.access[x].revoked)
    {
      assert CredentialOk(before, v.access[x].agent, v.access[x].connector, v.access[x].revoked);
    }
    forall x | x in v.refresh
      ensures CredentialOk(after, v.refresh[x].agent, v.refresh[x].connector, v.refresh[x].revoked)
    {
      assert CredentialOk(before, v.refresh[x].agent, v.refresh[x].connector, v.refresh[x].revoked);
    }
    forall k | k in v.apiKeys
      ensures CredentialOk(after, v.apiKeys[k].agent, v.apiKeys[k].connector, v.apiKeys[k].revoked)
    {
      assert CredentialOk(before, v.apiKeys[k].agent, v.apiKeys[k].connector, v.apiKeys[k].revoked);
    }
  }

  lemma FamilyVault(connectors: map<ConnectorId, Connector>, v: Vault, family: FamilyId, reason: Reason)
    requires VaultOk(connectors, v)
    ensures VaultOk(connectors, RevokeFamily(v, family, reason))
  {
    var t := RevokeFamily(v, family, reason);
    forall x | x in t.access
      ensures CredentialOk(connectors, t.access[x].agent, t.access[x].connector, t.access[x].revoked)
    {
      assert CredentialOk(connectors, v.access[x].agent, v.access[x].connector, v.access[x].revoked);
    }
    forall x | x in t.refresh
      ensures CredentialOk(connectors, t.refresh[x].agent, t.refresh[x].connector, t.refresh[x].revoked)
    {
      assert CredentialOk(connectors, v.refresh[x].agent, v.refresh[x].connector, v.refresh[x].revoked);
    }
  }

  lemma GrantVault(connectors: map<ConnectorId, Connector>, v: Vault, a: Access, at: Token, r: Refresh, rt: Token)
    requires VaultOk(connectors, v)
    requires CredentialOk(connectors, a.agent, a.connector, a.revoked)
      && CredentialOk(connectors, r.agent, r.connector, r.revoked)
    ensures VaultOk(connectors, Grant(v, a, at, r, rt))
  {
  }

  // ----- Every step -----

  ghost predicate Bindings(s: State) {
    HostsOk(s.hosts, s.next) && VaultOk(s.hosts.connectors, s.vault)
  }

  lemma BoundIsOk(h: Hosts, next: nat, agent: AgentId, c: ConnectorId)
    requires HostsOk(h, next) && Bound(h, agent, c)
    ensures CredentialOk(h.connectors, agent, c, false) && agent in h.agents && h.agents[agent].active
  {
    assert BindingOk(h, agent);
  }

  lemma UnusedAgent(h: Hosts, next: nat)
    requires HostsOk(h, next)
    ensures next !in h.bindings && next !in h.agents
  {
    forall a | a in h.bindings ensures a < next { assert BindingOk(h, a); }
  }

  lemma WithTargetHosts(h: Hosts, next: nat, human: HumanId, target: Option<AgentId>)
    requires HostsOk(h, next) && TargetAllowed(h, human, target)
    ensures var hosts := WithTarget(h, human, target, next);
            && HostsOk(hosts, next + 2)
            && TargetAgent(target, next) in hosts.agents && hosts.agents[TargetAgent(target, next)].active
  {
    LaterHosts(h, next, next + 2);
    if target.None? {
      UnusedAgent(h, next);
      AgentRowsHosts(h, next + 2, next, Agent(true, Some(human)));
    }
  }

  lemma ReplacedVault(h: Hosts, v: Vault, agent: AgentId, connector: ConnectorId)
    requires VaultOk(h.connectors, v) && connector !in h.connectors
    ensures VaultOk(BindNew(h, agent, connector).connectors, WithoutCurrent(h, v, agent))
  {
    var after := BindNew(h, agent, connector).connectors;
    if HasCurrent(h, agent) {
      RevokedVault(h.connectors, after, v, h.bindings[agent], ConnectorReplaced);
    } else {
      MoreConnectorsVault(h.connectors, after, v);
    }
  }

  lemma ApprovedHosts(h: Hosts, next: nat, human: HumanId, target: Option<AgentId>)
    requires HostsOk(h, next) && TargetAllowed(h, human, target)
    ensures HostsOk(BindNew(WithTarget(h, human, target, next), TargetAgent(target, next), next + 1), next + 2)
  {
    WithTargetHosts(h, next, human, target);
    BindNewHosts(WithTarget(h, human, target, next), next + 2, TargetAgent(target, next), next + 1);
  }

  lemma ApprovedVault(h: Hosts, v: Vault, next: nat, human: HumanId, target: Option<AgentId>)
    requires VaultOk(h.connectors, v) && next + 1 !in h.connectors
    ensures var hosts := WithTarget(h, human, target, next);
            VaultOk(BindNew(hosts, TargetAgent(target, next), next + 1).connectors,
                    WithoutCurrent(hosts, v, TargetAgent(target, next)))
  {
    ReplacedVault(WithTarget(h, human, target, next), v, TargetAgent(target, next), next + 1);
  }

  lemma ApproveHostsOk(s: State, p: PairingId, human: HumanId, target: Option<AgentId>)
    requires HostsOk(s.hosts, s.next) && p in s.pairings && TargetAllowed(s.hosts, human, target)
    ensures var t := ApproveStep(s, p, human, target); HostsOk(t.hosts, t.next)
  {
    ApprovedHosts(s.hosts, s.next, human, target);
  }

  lemma ApproveVaultOk(s: State, p: PairingId, human: HumanId, target: Option<AgentId>)
    requires VaultOk(s.hosts.connectors, s.vault) && p in s.pairings && s.next + 1 !in s.hosts.connectors
    ensures var t := ApproveStep(s, p, human, target); VaultOk(t.hosts.connectors, t.vault)
  {
    ApprovedVault(s.hosts, s.vault, s.next, human, target);
  }

  lemma RedeemKeyBindings(s: State, p: PairingId)
    requires Bindings(s) && p in s.pairings && Redeemable(s, s.pairings[p])
    ensures Bindings(RedeemKey(s, p).0)
  {
    var row := s.pairings[p];
    BoundIsOk(s.hosts, s.next, row.agent.value, row.connector.value);
    LaterHosts(s.hosts, s.next, s.next + 1);
  }

  lemma RedeemTokensBindings(s: State, p: PairingId, client: Client, a: Token, b: Token)
    requires Bindings(s) && p in s.pairings && Redeemable(s, s.pairings[p])
    ensures Bindings(RedeemTokens(s, p, client, a, b))
  {
    var row := s.pairings[p];
    BoundIsOk(s.hosts, s.next, row.agent.value, row.connector.value);
    LaterHosts(s.hosts, s.next, s.next + 3);
    GrantVault(s.hosts.connectors, s.vault,
      NewAccess(s, row.agent.value, row.connector.value, client, s.next, s.next, p), a,
      NewRefresh(s, row.agent.value, row.connector.value, client, s.next, s.next, p), b);
  }

  lemma RotateBindings(s: State, token: Token)
    requires Bindings(s) && token in s.vault.refresh
    requires Bound(s.hosts, s.vault.refresh[token].agent, s.vault.refresh[token].connector)
    ensures VaultOk(s.hosts.connectors, RotateFamily(s, token))
  {
    var row := s.vault.refresh[token];
    BoundIsOk(s.hosts, s.next, row.agent, row.connector);
    FamilyVault(s.hosts.connectors, s.vault, row.family, Rotated);
    var revoked := RevokeFamily(s.vault, row.family, Rotated);
    var marked := revoked.(refresh := revoked.refresh[token := RevokedRefresh(row, Rotated).(consumed := true)]);
    GrantVault(s.hosts.connectors, marked,
      NewAccess(s, row.agent, row.connector, row.client, row.family, s.next, row.origin), Random(s.next),
      NewRefresh(s, row.agent, row.connector, row.client, row.family, s.next, row.origin), Random(s.next + 1));
  }

  lemma RefreshBindings(s: State, client: Client, token: Token)
    requires Bindings(s)
    ensures Bindings(RefreshStep(s, client, token).0)
  {
    if token in s.vault.refresh {
      var row := s.vault.refresh[token];
      FamilyVault(s.hosts.connectors, s.vault, row.family, Replayed);
      FamilyVault(s.hosts.connectors, s.vault, row.family, ConnectorReplaced);
      LaterHosts(s.hosts, s.next, s.next + 2);
      if Bound(s.hosts, row.agent, row.connector) {
        RotateBindings(s, token);
      }
    }
  }

  lemma UnbindBindings(s: State, agent: AgentId, reason: Reason)
    requires Bindings(s) && agent in s.hosts.bindings
    ensures s.hosts.bindings[agent] in s.hosts.connectors
    ensures Bindings(s.(hosts := Unbind(s.hosts, agent, s.hosts.bindings[agent]),
                        vault := RevokeCredentials(s.vault, s.hosts.bindings[agent], reason)))
  {
    var c := s.hosts.bindings[agent];
    UnbindHosts(s.hosts, s.next, agent, c);
    RevokedVault(s.hosts.connectors, Unbind(s.hosts, agent, c).connectors, s.vault, c, reason);
  }

  lemma DisableBindings(s: State, human: HumanId, agent: AgentId, completes: bool)
    requires Bindings(s)
    ensures Bindings(DisableStep(s, human, agent, completes).0)
  {
    var h := s.hosts;
    if agent in h.agents {
      var disabled := h.agents[agent].(active := false);
      if agent in h.bindings {
        assert BindingOk(h, agent);
        UnbindBindings(s, agent, AgentDeleted);
        AgentRowsHosts(Unbind(h, agent, h.bindings[agent]), s.next, agent, disabled);
      } else {
        assert h.(bindings := h.bindings - {agent}) == h;
        AgentRowsHosts(h, s.next, agent, disabled);
      }
    }
  }

  lemma RotateKeyBindings(s: State, agent: AgentId, key: KeyId)
    requires Bindings(s)
    ensures Bindings(RotateStep(s, agent, key).0)
  {
    var keys := s.vault.apiKeys;
    if key in keys && keys[key].connector in s.hosts.connectors {
      var c := keys[key].connector;
      LaterHosts(s.hosts, s.next, s.next + 1);
      MarkRotatedHosts(s.hosts, s.next + 1, c);
      var v := s.vault.(apiKeys := keys[key := keys[key].(secret := Random(s.next))]);
      forall k | k in v.apiKeys
        ensures CredentialOk(s.hosts.connectors, v.apiKeys[k].agent, v.apiKeys[k].connector, v.apiKeys[k].revoked)
      {
        assert CredentialOk(s.hosts.connectors, keys[k].agent, keys[k].connector, keys[k].revoked);
      }
      MoreConnectorsVault(s.hosts.connectors, MarkRotated(s.hosts, c).connectors, v);
    }
  }

  /** Steps that touch neither hosts nor credentials. */
  lemma DeskBindings(s: State, t: State)
    requires Bindings(s) && t.hosts == s.hosts && t.vault == s.vault && s.next <= t.next
    ensures Bindings(t)
  {
    LaterHosts(s.hosts, s.next, t.next);
  }

  lemma IssueKeyBindings(s: State, p: PairingId)
    requires Bindings(s)
    ensures Bindings(IssueKeyStep(s, p).0)
  {
    if p in s.pairings && Redeemable(s, s.pairings[p]) {
      RedeemKeyBindings(s, p);
    }
    forall row ensures Bindings(SetPairing(s, p, row)) { DeskBindings(s, SetPairing(s, p, row)); }
  }

  lemma ExchangeDeviceBindings(s: State, client: Client, p: PairingId)
    requires Bindings(s)
    ensures Bindings(ExchangeDeviceStep(s, client, p).0)
  {
    if p in s.pairings && Redeemable(s, s.pairings[p]) {
      var token := Derived(p, s.pairings[p].connector.value);
      RedeemTokensBindings(s, p, client, token, token);
    }
    forall row ensures Bindings(SetPairing(s, p, row)) { DeskBindings(s, SetPairing(s, p, row)); }
  }

  lemma ExchangeCodeBindings(s: State, client: Client, code: nat, redirect: nat, verifier: nat)
    requires Bindings(s)
    ensures Bindings(ExchangeCodeStep(s, client, code, redirect, verifier).0)
  {
    var t := ExchangeCodeStep(s, client, code, redirect, verifier).0;
    var found := RequestOf(s, code);
    if found.Some? && t != s {
      var p := s.requests[found.value].pairing;
      var redeemed := RedeemTokens(s, p, client, Random(s.next + 1), Random(s.next + 2));
      RedeemTokensBindings(s, p, client, Random(s.next + 1), Random(s.next + 2));
      DeskBindings(redeemed, t);
    }
  }

  lemma DecideBindings(s: State, p: PairingId, human: HumanId, approve: bool, target: Option<AgentId>)
    requires Bindings(s)
    ensures Bindings(DecideStep(s, p, human, approve, target))
  {
    if p in s.pairings && TargetAllowed(s.hosts, human, target) {
      ApproveHostsOk(s, p, human, target);
      ApproveVaultOk(s, p, human, target);
    }
    forall row ensures Bindings(SetPairing(s, p, row)) { DeskBindings(s, SetPairing(s, p, row)); }
  }

  lemma OwnerBindings(s: State, e: Event)
    requires Bindings(s) && (e.Register? || e.SetOwner?)
    ensures Bindings(Step(s, e))
  {
    match e
    case Register =>
      UnusedAgent(s.hosts, s.next);
      LaterHosts(s.hosts, s.next, s.next + 1);
      AgentRowsHosts(s.hosts, s.next + 1, s.next, Agent(true, None));
    case SetOwner(agent, owner) =>
      if agent in s.hosts.agents {
        if agent in s.hosts.bindings { assert BindingOk(s.hosts, agent); }
        AgentRowsHosts(s.hosts, s.next, agent, s.hosts.agents[agent].(owner := owner));
      }
  }

  lemma RevokeConnectorBindings(s: State, human: HumanId, connector: ConnectorId)
    requires Bindings(s)
    ensures Bindings(RevokeConnectorStep(s, human, connector).0)
  {
    if connector in s.hosts.connectors {
      var agent := s.hosts.connectors[connector].agent;
      if Bound(s.hosts, agent, connector) {
        UnbindBindings(s, agent, ConnectorRevoked);
      }
    }
  }

  lemma StepBindings(s: State, e: Event)
    requires Bindings(s)
    ensures Bindings(Step(s, e))
  {
    match e
    case Register => OwnerBindings(s, e);
    case SetOwner(_, _) => OwnerBindings(s, e);
    case Decide(p, human, approve, target) => DecideBindings(s, p, human, approve, target);
    case IssueKey(p) => IssueKeyBindings(s, p);
    case ExchangeDevice(client, p) => ExchangeDeviceBindings(s, client, p);
    case ExchangeCode(client, code, redirect, verifier) => ExchangeCodeBindings(s, client, code, redirect, verifier);
    case RefreshTokens(client, token) => RefreshBindings(s, client, token);
    case RevokeConnector(human, connector) => RevokeConnectorBindings(s, human, connector);
    case Rotate(agent, key) => RotateKeyBindings(s, agent, key);
    case DisableAgent(human, agent, completes) => DisableBindings(s, human, agent, completes);
    case Tick(_) => DeskBindings(s, Step(s, e));
    case CreatePairing(_) => DeskBindings(s, Step(s, e));
    case StartAuthorization(_, _, _) => DeskBindings(s, Step(s, e));
    case Complete(_, _) => DeskBindings(s, Step(s, e));
  }

  lemma {:induction false} RunBindings(s: State, events: seq<Event>)
    requires Bindings(s)
    ensures Bindings(Run(s, events))
    decreases |events|
  {
    if events != [] {
      StepBindings(s, events[0]);
      RunBindings(Step(s, events[0]), events[1..]);
    }
  }

  /** In every run the bindings are exactly the active connectors, one per agent, each of an active agent. */
  lemma BindingsAreActiveConnectors(settings: Settings, now: int, events: seq<Event>)
    ensures var h := Run(Start(settings, now), events).hosts;
            && (forall c, a | c in h.connectors && a == h.connectors[c].agent ::
                  h.connectors[c].status == Active <==> a in h.bindings && h.bindings[a] == c)
            && (forall a | a in h.bindings ::
                  h.bindings[a] in h.connectors && h.connectors[h.bindings[a]].agent == a && a in h.agents
                    && h.agents[a].active)
  {
    RunBindings(Start(settings, now), events);
    var h := Run(Start(settings, now), events).hosts;
    forall a | a in h.bindings ensures BindingOk(h, a) {}
    forall c | c in h.connectors ensures ConnectorOk(h, c) {}
  }

  /** An unrevoked token always belongs to its agent's bound connector. */
  lemma UnrevokedIsBound(s: State, token: Token)
    requires Bindings(s)
    ensures token in s.vault.access && !s.vault.access[token].revoked ==>
              Bound(s.hosts, s.vault.access[token].agent, s.vault.access[token].connector)
              && s.vault.access[token].agent in s.hosts.agents && s.hosts.agents[s.vault.access[token].agent].active
    ensures token in s.vault.refresh && !s.vault.refresh[token].revoked ==>
              Bound(s.hosts, s.vault.refresh[token].agent, s.vault.refresh[token].connector)
  {
    if token in s.vault.access && !s.vault.access[token].revoked {
      var row := s.vault.access[token];
      assert CredentialOk(s.hosts.connectors, row.agent, row.connector, row.revoked);
      assert ConnectorOk(s.hosts, row.connector) && BindingOk(s.hosts, row.agent);
    }
    if token in s.vault.refresh && !s.vault.refresh[token].revoked {
      var row := s.vault.refresh[token];
      assert CredentialOk(s.hosts.connectors, row.agent, row.connector, row.revoked);
      assert ConnectorOk(s.hosts, row.connector);
    }
  }

  /** The use-time check accepts exactly the unrevoked, unexpired tokens: its other guards never decide. */
  lemma ResolvesIffLive(settings: Settings, now: int, events: seq<Event>, token: Token)
    ensures var s := Run(Start(settings, now), events);
            Resolves(s, token) <==>
              token in s.vault.access && !s.vault.access[token].revoked && s.now < s.vault.access[token].expiresAt
  {
    RunBindings(Start(settings, now), events);
    UnrevokedIsBound(Run(Start(settings, now), events), token);
  }

  /** Refreshing an unrevoked, unexpired, unconsumed token of its client always rotates. */
  lemma RefreshNeverFindsReplacement(settings: Settings, now: int, events: seq<Event>, client: Client, token: Token)
    requires var s := Run(Start(settings, now), events);
             && token in s.vault.refresh && s.vault.refresh[token].client == client
             && !s.vault.refresh[token].revoked && !s.vault.refresh[token].consumed
             && s.now < s.vault.refresh[token].expiresAt
    ensures RefreshStep(Run(Start(settings, now), events), client, token).1.Tokens?
  {
    RunBindings(Start(settings, now), events);
    UnrevokedIsBound(Run(Start(settings, now), events), token);
  }
}
