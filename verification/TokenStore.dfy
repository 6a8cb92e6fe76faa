/**
  The token tables as one mutable store: revocation walks the rows of a family or of a connector
  and changes them in place; a refresh checks, revokes, consumes and adds.
 */
module TokenStore {
  import opened Prelude
  import opened Credentials
  import PairingDecisions

  class Tokens {
    const settings: Settings
    var now: int
    var next: nat
    var hosts: Hosts
    var apiKeys: map<KeyId, ApiKey>
    var access: map<Token, Access>
    var refresh: map<Token, Refresh>
    var pairings: map<PairingId, Pairing>
    var requests: map<RequestId, Authorization>

    function Rows(): Vault
      reads this
    {
      Vault(apiKeys, access, refresh)
    }

    function View(): State
      reads this
    {
      State(settings, now, next, hosts, Rows(), pairings, requests)
    }

    constructor (rules: Settings, start: int)
      ensures View() == Start(rules, start)
    {
      settings, now, next := rules, start, 0;
      hosts := Hosts(map[], map[], map[]);
      apiKeys, access, refresh, pairings, requests := map[], map[], map[], map[], map[];
    }

    // A loop over the rows of one table: `todo` are the selected rows still to be marked.

    method RevokeFamilyAccess(family: FamilyId)
      modifies this`access
      ensures access == RevokeFamily(old(Rows()), family, Rotated).access
    {
      var todo := set t | t in access && access[t].family == family;
      while todo != {}
        invariant access.Keys == old(access).Keys && todo <= access.Keys
        invariant forall t | t in todo :: old(access)[t].family == family && access[t] == old(access)[t]
        invariant forall t | t in access && t !in todo ::
                    access[t] == if old(access)[t].family == family then old(access)[t].(revoked := true)
                      else old(access)[t]
        decreases |todo|
      {
        var t :| t in todo;
        access := access[t := access[t].(revoked := true)];
        todo := todo - {t};
      }
    }

    method RevokeFamilyRefresh(family: FamilyId, reason: Reason)
      modifies this`refresh
      ensures refresh == RevokeFamily(old(Rows()), family, reason).refresh
    {
      var todo := set t | t in refresh && refresh[t].family == family;
      while todo != {}
        invariant refresh.Keys == old(refresh).Keys && todo <= refresh.Keys
        invariant forall t | t in todo :: old(refresh)[t].family == family && refresh[t] == old(refresh)[t]
        invariant forall t | t in refresh && t !in todo ::
                    refresh[t] == if old(refresh)[t].family == family then RevokedRefresh(old(refresh)[t], reason)
                      else old(refresh)[t]
        decreases |todo|
      {
        var t :| t in todo;
        refresh := refresh[t := RevokedRefresh(refresh[t], reason)];
        todo := todo - {t};
      }
    }

    /** Mark every token of the family; a row already marked keeps its reason. */
    method RevokeFamilyRows(family: FamilyId, reason: Reason)
      modifies this`access, this`refresh
      ensures Rows() == RevokeFamily(old(Rows()), family, reason)
    {
      RevokeFamilyAccess(family);
      RevokeFamilyRefresh(family, reason);
    }

    method RevokeKeys(connector: ConnectorId)
      modifies this`apiKeys
      ensures apiKeys == RevokeCredentials(old(Rows()), connector, ConnectorRevoked).apiKeys
    {
      var todo := set k | k in apiKeys && apiKeys[k].connector == connector;
      while todo != {}
        invariant apiKeys.Keys == old(apiKeys).Keys && todo <= apiKeys.Keys
        invariant forall k | k in todo :: old(apiKeys)[k].connector == connector && apiKeys[k] == old(apiKeys)[k]
        invariant forall k | k in apiKeys && k !in todo ::
                    apiKeys[k] == if old(apiKeys)[k].connector == connector then old(apiKeys)[k].(revoked := true)
                      else old(apiKeys)[k]
        decreases |todo|
      {
        var k :| k in todo;
        apiKeys := apiKeys[k := apiKeys[k].(revoked := true)];
        todo := todo - {k};
      }
    }

    method RevokeConnectorAccess(connector: ConnectorId)
      modifies this`access
      ensures access == RevokeCredentials(old(Rows()), connector, ConnectorRevoked).access
    {
      var todo := set t | t in access && access[t].connector == connector && !access[t].revoked;
      while todo != {}
        invariant access.Keys == old(access).Keys && todo <= access.Keys
        invariant forall t | t in todo :: old(access)[t].connector == connector && access[t] == old(access)[t]
        invariant forall t | t in access && t !in todo ::
                    access[t] == if old(access)[t].connector == connector then old(access)[t].(revoked := true)
                      else old(access)[t]
        decreases |todo|
      {
        var t :| t in todo;
        access := access[t := access[t].(revoked := true)];
        todo := todo - {t};
      }
    }

    method RevokeConnectorRefresh(connector: ConnectorId, reason: Reason)
      modifies this`refresh
      ensures refresh == RevokeCredentials(old(Rows()), connector, reason).refresh
    {
      var todo := set t | t in refresh && refresh[t].connector == connector && !refresh[t].revoked;
      while todo != {}
        invariant refresh.Keys == old(refresh).Keys && todo <= refresh.Keys
        invariant forall t | t in todo ::
          old(refresh)[t].connector == connector && !old(refresh)[t].revoked && refresh[t] == old(refresh)[t]
        invariant forall t | t in refresh && t !in todo :: refresh[t] == Ended(old(refresh)[t], connector, reason)
        decreases |todo|
      {
        var t :| t in todo;
        refresh := refresh[t := refresh[t].(revoked := true, reason := Some(reason))];
        todo := todo - {t};
      }
    }

    /** Mark the API keys of the connector, and every unrevoked token of it. */
    method RevokeConnectorRows(connector: ConnectorId, reason: Reason)
      modifies this`apiKeys, this`access, this`refresh
      ensures Rows() == RevokeCredentials(old(Rows()), connector, reason)
    {
      RevokeKeys(connector);
      RevokeConnectorAccess(connector);
      RevokeConnectorRefresh(connector, reason);
    }

    /** Present a refresh token: a consumed one ends its family, the live one is rotated. */
    method RefreshAccessToken(client: Client, token: Token) returns (answer: Answer)
      modifies this`next, this`access, this`refresh
      ensures (View(), answer) == RefreshStep(old(View()), client, token)
    {
      if token !in refresh || refresh[token].client != client { return Invalid; }
      var row := refresh[token];
      if row.consumed {
        RevokeFamilyRows(row.family, Replayed);
        return Invalid;
      }
      if row.revoked || row.expiresAt <= now { return Invalid; }
      if !Bound(hosts, row.agent, row.connector) {
        RevokeFamilyRows(row.family, ConnectorReplaced);
        return Invalid;
      }
      ghost var s := View();
      RevokeFamilyRows(row.family, Rotated);
      refresh := refresh[token := refresh[token].(consumed := true)];
      access := access[Random(next) := Access(row.agent, row.connector, row.family, row.client, now
        + settings.accessTtl, false, next, row.origin)];
      refresh := refresh[Random(next + 1) :=
        Refresh(row.agent, row.connector, row.family, row.client, now + settings.refreshTtl, false, false, None, next,
          row.origin)];
      answer := Answer.Tokens(Random(next), Random(next + 1));
      next := next + 2;
      assert Rows() == RotateFamily(s, token);
    }

    /**
      A human's decision: a denial marks the pairing; an approval binds a new connector and ends
      the one it replaces.
     */
    method DecidePairing(p: PairingId, human: HumanId, approve: bool, target: Option<AgentId>)
      modifies this`pairings, this`hosts, this`next, this`apiKeys, this`access, this`refresh
      ensures View() == DecideStep(old(View()), p, human, approve, target)
      ensures PairingDecisions.Sound(old(View()), p) ==>
                PairingDecisions.Decision(old(View()), View(), p, human, approve, target)
    {
      DecisionIsWhole(View(), p, human, approve, target);
      if p !in pairings { return; }
      var row := pairings[p];
      if row.decidedBy.Some? && row.decidedBy != Some(human) { return; }
      if Lapsed(View(), row) {
        pairings := pairings[p := row.(status := Expired)];
        return;
      }
      if row.status != Pending { return; }
      if !approve {
        pairings := pairings[p := row.(status := Denied, decidedBy := Some(human))];
        return;
      }
      if !TargetAllowed(hosts, human, target) { return; }
      Approve(p, human, target);
    }

    method Approve(p: PairingId, human: HumanId, target: Option<AgentId>)
      requires p in pairings
      modifies this`pairings, this`hosts, this`next, this`apiKeys, this`access, this`refresh
      ensures View() == ApproveStep(old(View()), p, human, target)
    {
      var agent := TargetAgent(target, next);
      var connector := next + 1;
      hosts := WithTarget(hosts, human, target, next);
      var previous := if HasCurrent(hosts, agent) then Some(hosts.bindings[agent]) else None;
      hosts := BindNew(hosts, agent, connector);
      if previous.Some? {
        RevokeConnectorRows(previous.value, ConnectorReplaced);
      }
      pairings := pairings[p := pairings[p].(
        status := Approved, decidedBy := Some(human), agent := Some(agent), connector := Some(connector),
        expiresAt := now + settings.pairingTtl)];
      next := next + 2;
    }

    method RevokeConnector(human: HumanId, connector: ConnectorId) returns (answer: Answer)
      modifies this`hosts, this`apiKeys, this`access, this`refresh
      ensures (View(), answer) == RevokeConnectorStep(old(View()), human, connector)
    {
      if connector !in hosts.connectors { return Invalid; }
      var agent := hosts.connectors[connector].agent;
      if agent !in hosts.agents || hosts.agents[agent].owner != Some(human) { return Invalid; }
      if hosts.connectors[connector].status == Revoked { return Done; }
      if !Bound(hosts, agent, connector) { return Invalid; }
      hosts := Unbind(hosts, agent, connector);
      RevokeConnectorRows(connector, ConnectorRevoked);
      answer := Done;
    }

    method RotateConnectorCredential(agent: AgentId, key: KeyId) returns (answer: Answer)
      modifies this`hosts, this`apiKeys, this`next
      ensures (View(), answer) == RotateStep(old(View()), agent, key)
    {
      if key !in apiKeys || apiKeys[key].revoked || apiKeys[key].agent != agent
          || !Bound(hosts, agent, apiKeys[key].connector) {
        return Invalid;
      }
      var secret := Random(next);
      hosts := MarkRotated(hosts, apiKeys[key].connector);
      apiKeys := apiKeys[key := apiKeys[key].(secret := secret)];
      next := next + 1;
      answer := Key(secret);
    }
  }

  lemma DecisionIsWhole(s: State, p: PairingId, human: HumanId, approve: bool, target: Option<AgentId>)
    ensures PairingDecisions.Sound(s, p) ==>
              PairingDecisions.Decision(s, DecideStep(s, p, human, approve, target), p, human, approve, target)
  {
    if PairingDecisions.Sound(s, p) {
      PairingDecisions.DecisionIsWhole(s, p, human, approve, target);
    }
  }

  function Ended(row: Refresh, connector: ConnectorId, reason: Reason): Refresh {
    if row.connector == connector && !row.revoked then row.(revoked := true, reason := Some(reason)) else row
  }
}
