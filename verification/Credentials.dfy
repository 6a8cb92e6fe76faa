/**
  The credential lifecycle: pairing sessions, connectors and their single current binding, API
  keys, OAuth authorization requests, access tokens and refresh families. Each service call is
  one atomic step on the tables, made at the current time, which only moves forward.

  Digests are injective, so rows keep the secrets; a device code is named by its pairing. `serial`,
  `origin` and `answers` are histories that no decision reads.
 */
module Credentials {
  import opened Prelude

  type HumanId = nat
  type AgentId = nat
  type ConnectorId = nat
  type PairingId = nat
  type FamilyId = nat
  type RequestId = nat
  type KeyId = nat

  /** A secret is derived from a device code and a connector, or random. */
  datatype Token = Derived(pairing: PairingId, connector: ConnectorId) | Random(id: nat)

  datatype Client = Official | Dynamic(id: nat)

  datatype Agent = Agent(active: bool, owner: Option<HumanId>)

  datatype ConnectorStatus = Active | Replaced | Revoked
  datatype Connector = Connector(agent: AgentId, status: ConnectorStatus, rotated: bool)

  datatype Mode = ApiKeyMode | OAuthMode(client: Client)
  datatype PairingStatus = Pending | Approved | Denied | Expired | Consumed
  datatype Pairing = Pairing(
    mode: Mode, status: PairingStatus, createdAt: int, expiresAt: int, lastPolled: Option<int>,
    decidedBy: Option<HumanId>, agent: Option<AgentId>, connector: Option<ConnectorId>, answers: seq<int>)

  datatype ApiKey = ApiKey(agent: AgentId, connector: ConnectorId, secret: Token, revoked: bool, origin: PairingId)

  datatype Reason = Rotated | Replayed | ConnectorReplaced | ConnectorRevoked | AgentDeleted

  datatype Access = Access(
    agent: AgentId, connector: ConnectorId, family: FamilyId, client: Client, expiresAt: int, revoked: bool,
    serial: nat, origin: PairingId)
  datatype Refresh = Refresh(
    agent: AgentId, connector: ConnectorId, family: FamilyId, client: Client, expiresAt: int,
    consumed: bool, revoked: bool, reason: Option<Reason>, serial: nat, origin: PairingId)

  datatype RequestStatus = RequestPending | RequestApproved | RequestDenied | RequestConsumed | RequestExpired
  datatype Authorization = Authorization(
    pairing: PairingId, client: Client, redirect: nat, challenge: nat, status: RequestStatus, expiresAt: int,
    code: Option<nat>, codeExpiresAt: int)

  datatype Settings = Settings(pairingTtl: nat, pollInterval: nat, accessTtl: nat, refreshTtl: nat, codeTtl: nat)

  /** Agents, their connectors, and the one current connector of each. */
  datatype Hosts = Hosts(
    agents: map<AgentId, Agent>, connectors: map<ConnectorId, Connector>, bindings: map<AgentId, ConnectorId>)

  datatype Vault = Vault(apiKeys: map<KeyId, ApiKey>, access: map<Token, Access>, refresh: map<Token, Refresh>)

  datatype State = State(
    settings: Settings,
    now: int,
    next: nat,
    hosts: Hosts,
    vault: Vault,
    pairings: map<PairingId, Pairing>,
    requests: map<RequestId, Authorization>)

  datatype Answer =
    | Done
    | Invalid
    | IsPending
    | SlowDown(retryAfter: int)
    | IsExpired
    | IsDenied
    | Key(secret: Token)
    | Code(code: nat)
    | Tokens(accessToken: Token, refreshToken: Token)

  datatype Event =
    | Tick(elapsed: nat)
    | Register
    | SetOwner(agent: AgentId, owner: Option<HumanId>)
    | CreatePairing(mode: Mode)
    | StartAuthorization(dynamicId: nat, redirect: nat, challenge: nat)
    | Decide(pairing: PairingId, human: HumanId, approve: bool, target: Option<AgentId>)
    | IssueKey(pairing: PairingId)
    | ExchangeDevice(client: Client, pairing: PairingId)
    | Complete(request: RequestId, human: HumanId)
    | ExchangeCode(client: Client, code: nat, redirect: nat, verifier: nat)
    | RefreshTokens(client: Client, token: Token)
    | RevokeConnector(human: HumanId, connector: ConnectorId)
    | Rotate(agent: AgentId, key: KeyId)
    | DisableAgent(human: HumanId, agent: AgentId, completes: bool)

  // ----- Revocation -----

  predicate Bound(h: Hosts, agent: AgentId, connector: ConnectorId) {
    && connector in h.connectors && h.connectors[connector].status == Active
    && agent in h.bindings && h.bindings[agent] == connector
  }

  function RevokedRefresh(r: Refresh, reason: Reason): Refresh {
    r.(revoked := true, reason := if r.reason.Some? then r.reason else Some(reason))
  }

  function RevokeFamily(v: Vault, family: FamilyId, reason: Reason): Vault {
    v.(access := map t | t in v.access ::
         if v.access[t].family == family then v.access[t].(revoked := true) else v.access[t],
       refresh := map t | t in v.refresh ::
         if v.refresh[t].family == family then RevokedRefresh(v.refresh[t], reason) else v.refresh[t])
  }

  /** Revoke the unrevoked tokens of one connector, and its API keys. */
  function RevokeCredentials(v: Vault, connector: ConnectorId, reason: Reason): Vault {
    Vault(
      map k | k in v.apiKeys ::
        if v.apiKeys[k].connector == connector then v.apiKeys[k].(revoked := true) else v.apiKeys[k],
      map t | t in v.access ::
        if v.access[t].connector == connector then v.access[t].(revoked := true) else v.access[t],
      map t | t in v.refresh ::
        if v.refresh[t].connector == connector && !v.refresh[t].revoked
        then v.refresh[t].(revoked := true, reason := Some(reason)) else v.refresh[t])
  }

  // ----- Pairings -----

  function NewPairing(s: State, mode: Mode): Pairing {
    Pairing(mode, Pending, s.now, s.now + s.settings.pairingTtl, None, None, None, None, [])
  }

  function CreatePairingStep(s: State, mode: Mode): State {
    if mode.OAuthMode? && mode.client != Official then s
    else s.(pairings := s.pairings[s.next := NewPairing(s, mode)], next := s.next + 1)
  }

  function StartAuthorizationStep(s: State, dynamicId: nat, redirect: nat, challenge: nat): State {
    s.(pairings := s.pairings[s.next := NewPairing(s, OAuthMode(Dynamic(dynamicId)))],
       requests := s.requests[s.next + 1 :=
         Authorization(s.next, Dynamic(dynamicId), redirect, challenge, RequestPending,
                       s.now + s.settings.pairingTtl, None, 0)],
       next := s.next + 2)
  }

  function SetPairing(s: State, p: PairingId, row: Pairing): State {
    s.(pairings := s.pairings[p := row])
  }

  predicate Lapsed(s: State, row: Pairing) {
    (row.status == Pending || row.status == Approved) && row.expiresAt <= s.now
  }

  /** The agent an approval binds: an owned active one, or a new one owned by the deciding human. */
  predicate TargetAllowed(h: Hosts, human: HumanId, target: Option<AgentId>) {
    target.Some? ==> target.value in h.agents && h.agents[target.value] == Agent(true, Some(human))
  }

  predicate HasCurrent(h: Hosts, agent: AgentId) {
    agent in h.bindings && h.bindings[agent] in h.connectors
  }

  /** Bind a new connector to the agent; the one bound before is replaced. */
  function BindNew(h: Hosts, agent: AgentId, connector: ConnectorId): Hosts {
    var connectors :=
      if HasCurrent(h, agent)
      then h.connectors[h.bindings[agent] := h.connectors[h.bindings[agent]].(status := Replaced)]
      else h.connectors;
    h.(connectors := connectors[connector := Connector(agent, Active, false)],
       bindings := h.bindings[agent := connector])
  }

  function TargetAgent(target: Option<AgentId>, unused: AgentId): AgentId {
    if target.Some? then target.value else unused
  }

  function WithTarget(h: Hosts, human: HumanId, target: Option<AgentId>, unused: AgentId): Hosts {
    if target.Some? then h else h.(agents := h.agents[unused := Agent(true, Some(human))])
  }

  /** The credentials of the agent's current connector are revoked when another takes its place. */
  function WithoutCurrent(h: Hosts, v: Vault, agent: AgentId): Vault {
    if HasCurrent(h, agent) then RevokeCredentials(v, h.bindings[agent], ConnectorReplaced) else v
  }

  function ApproveStep(s: State, p: PairingId, human: HumanId, target: Option<AgentId>): State
    requires p in s.pairings
  {
    var agent := TargetAgent(target, s.next);
    var hosts := WithTarget(s.hosts, human, target, s.next);
    var row := s.pairings[p].(
      status := Approved, decidedBy := Some(human), agent := Some(agent), connector := Some(s.next + 1),
      expiresAt := s.now + s.settings.pairingTtl);
    s.(next := s.next + 2,
       hosts := BindNew(hosts, agent, s.next + 1),
       vault := WithoutCurrent(hosts, s.vault, agent),
       pairings := s.pairings[p := row])
  }

  function DecideStep(s: State, p: PairingId, human: HumanId, approve: bool, target: Option<AgentId>): State {
    if p !in s.pairings then s
    else
      var row := s.pairings[p];
      if row.decidedBy.Some? && row.decidedBy != Some(human) then s
      else if Lapsed(s, row) then SetPairing(s, p, row.(status := Expired))
      else if row.status != Pending then s
      else if !approve then SetPairing(s, p, row.(status := Denied, decidedBy := Some(human)))
      else if !TargetAllowed(s.hosts, human, target) then s
      else ApproveStep(s, p, human, target)
  }

  function RetryAfter(s: State, elapsed: int): int {
    var wait := s.settings.pollInterval - elapsed;
    if wait < 1 then 1 else wait
  }

  predicate TooSoon(s: State, row: Pairing) {
    row.lastPolled.Some? && s.now - row.lastPolled.value < s.settings.pollInterval
  }

  function Polled(s: State, row: Pairing): Pairing {
    row.(lastPolled := Some(s.now), answers := row.answers + [s.now])
  }

  // ----- The API-key redemption -----

  ghost predicate KeyFor(v: Vault, connector: ConnectorId, k: KeyId) {
    k in v.apiKeys && v.apiKeys[k].connector == connector
  }

  ghost function KeyOf(v: Vault, connector: ConnectorId): Option<KeyId> {
    if exists k :: KeyFor(v, connector, k) then
      var k :| KeyFor(v, connector, k);
      Some(k)
    else None
  }

  ghost predicate Redeemable(s: State, row: Pairing) {
    row.agent.Some? && row.connector.Some? && Bound(s.hosts, row.agent.value, row.connector.value)
  }

  /** An approved pairing creates the key row; a consumed one gets the same string again. */
  ghost function RedeemKey(s: State, p: PairingId): (State, Answer)
    requires p in s.pairings && Redeemable(s, s.pairings[p])
  {
    var row := s.pairings[p];
    var c := row.connector.value;
    var existing := KeyOf(s.vault, c);
    if existing.Some? && s.vault.apiKeys[existing.value].revoked then (s, IsDenied)
    else
      var t := SetPairing(s, p, row.(status := Consumed));
      if existing.Some? then (t, Key(Derived(p, c)))
      else
        var key := ApiKey(row.agent.value, c, Derived(p, c), false, p);
        (t.(vault := s.vault.(apiKeys := s.vault.apiKeys[s.next := key]), next := s.next + 1),
         Key(Derived(p, c)))
  }

  ghost function IssueKeyStep(s: State, p: PairingId): (State, Answer) {
    if p !in s.pairings || s.pairings[p].mode != ApiKeyMode then (s, Invalid)
    else
      var row := s.pairings[p];
      if Lapsed(s, row) then (SetPairing(s, p, row.(status := Expired)), IsExpired)
      else
        match row.status
        case Expired => (s, IsExpired)
        case Denied => (s, IsDenied)
        case Pending =>
          if TooSoon(s, row) then (s, SlowDown(RetryAfter(s, s.now - row.lastPolled.value)))
          else (SetPairing(s, p, Polled(s, row)), IsPending)
        case _ => if Redeemable(s, row) then RedeemKey(s, p) else (s, IsDenied)
  }

  // ----- The OAuth redemptions -----

  /** One access and one refresh token under the same serial. */
  function Grant(v: Vault, a: Access, accessToken: Token, r: Refresh, refreshToken: Token): Vault {
    v.(access := v.access[accessToken := a], refresh := v.refresh[refreshToken := r])
  }

  function NewAccess(s: State, agent: AgentId, connector: ConnectorId, client: Client, family: FamilyId, serial: nat,
      origin: PairingId): Access {
    Access(agent, connector, family, client, s.now + s.settings.accessTtl, false, serial, origin)
  }

  function NewRefresh(s: State, agent: AgentId, connector: ConnectorId, client: Client, family: FamilyId,
      serial: nat, origin: PairingId): Refresh {
    Refresh(agent, connector, family, client, s.now + s.settings.refreshTtl, false, false, None, serial, origin)
  }

  /** Consume an approved pairing into a new family with its first pair of tokens. */
  ghost function RedeemTokens(s: State, p: PairingId, client: Client, a: Token, b: Token): State
    requires p in s.pairings && Redeemable(s, s.pairings[p])
  {
    var row := s.pairings[p];
    SetPairing(s, p, row.(status := Consumed)).(
      vault := Grant(s.vault,
        NewAccess(s, row.agent.value, row.connector.value, client, s.next, s.next, p), a,
        NewRefresh(s, row.agent.value, row.connector.value, client, s.next, s.next, p), b),
      next := s.next + 3)
  }

  predicate StillWhole(v: Vault, token: Token) {
    && token in v.access && token in v.refresh
    && !v.access[token].revoked && !v.refresh[token].revoked && !v.refresh[token].consumed
  }

  ghost function ExchangeDeviceStep(s: State, client: Client, p: PairingId): (State, Answer) {
    if client != Official || p !in s.pairings || s.pairings[p].mode != OAuthMode(client) then (s, Invalid)
    else
      var row := s.pairings[p];
      if row.expiresAt <= s.now then
        (if Lapsed(s, row) then SetPairing(s, p, row.(status := Expired)) else s, IsExpired)
      else if row.status == Denied then (s, IsDenied)
      else if row.status == Pending then
        if TooSoon(s, row) then
          (SetPairing(s, p, row.(lastPolled := Some(s.now))), SlowDown(RetryAfter(s, s.now - row.lastPolled.value)))
        else (SetPairing(s, p, Polled(s, row)), IsPending)
      else if !Redeemable(s, row) then (s, Invalid)
      else
        var token := Derived(p, row.connector.value);
        match row.status
        case Consumed => (s, if StillWhole(s.vault, token) then Tokens(token, token) else Invalid)
        case Approved => (RedeemTokens(s, p, client, token, token), Tokens(token, token))
        case _ => (s, Invalid)
  }

  function SetRequest(s: State, r: RequestId, row: Authorization): State {
    s.(requests := s.requests[r := row])
  }

  function CompleteStep(s: State, r: RequestId, human: HumanId): (State, Answer) {
    if r !in s.requests || s.requests[r].pairing !in s.pairings then (s, Invalid)
    else
      var request := s.requests[r];
      var row := s.pairings[request.pairing];
      if request.expiresAt <= s.now then (SetRequest(s, r, request.(status := RequestExpired)), IsExpired)
      else if row.decidedBy != Some(human) then (s, Invalid)
      else if row.status == Denied then (SetRequest(s, r, request.(status := RequestDenied)), IsDenied)
      else if row.status != Approved || row.connector == None then (s, IsPending)
      else if request.code.Some? then (s, Invalid)
      else
        var given := request.(
          status := RequestApproved, code := Some(s.next), codeExpiresAt := s.now + s.settings.codeTtl);
        (SetRequest(s, r, given).(next := s.next + 1),
         Code(s.next))
  }

  predicate CodeMatches(request: Authorization, code: nat) {
    request.code == Some(code)
  }

  ghost function RequestOf(s: State, code: nat): Option<RequestId> {
    if exists r :: r in s.requests && CodeMatches(s.requests[r], code) then
      var r :| r in s.requests && CodeMatches(s.requests[r], code);
      Some(r)
    else None
  }

  /** The proof key matches when the verifier hashes to the challenge; the hash is injective. */
  ghost function ExchangeCodeStep(s: State, client: Client, code: nat, redirect: nat, verifier: nat): (State, Answer) {
    var found := RequestOf(s, code);
    if found == None then (s, Invalid)
    else
      var request := s.requests[found.value];
      if request.client != client || request.redirect != redirect || request.status != RequestApproved
         || request.codeExpiresAt <= s.now || request.challenge != verifier || request.pairing !in s.pairings
      then (s, Invalid)
      else
        var row := s.pairings[request.pairing];
        if row.status != Approved || !Redeemable(s, row) then (s, Invalid)
        else
          var a, b := Random(s.next + 1), Random(s.next + 2);
          (SetRequest(RedeemTokens(s, request.pairing, client, a, b), found.value, request.(status := RequestConsumed)),
           Tokens(a, b))
  }

  /** Rotation: revoke the family, mark the presented token consumed, and add one new pair. */
  function RotateFamily(s: State, token: Token): Vault
    requires token in s.vault.refresh
  {
    var row := s.vault.refresh[token];
    var revoked := RevokeFamily(s.vault, row.family, Rotated);
    Grant(revoked.(refresh := revoked.refresh[token := RevokedRefresh(row, Rotated).(consumed := true)]),
      NewAccess(s, row.agent, row.connector, row.client, row.family, s.next, row.origin), Random(s.next),
      NewRefresh(s, row.agent, row.connector, row.client, row.family, s.next, row.origin), Random(s.next + 1))
  }

  function RefreshStep(s: State, client: Client, token: Token): (State, Answer) {
    if token !in s.vault.refresh || s.vault.refresh[token].client != client then (s, Invalid)
    else
      var row := s.vault.refresh[token];
      if row.consumed then (s.(vault := RevokeFamily(s.vault, row.family, Replayed)), Invalid)
      else if row.revoked || row.expiresAt <= s.now then (s, Invalid)
      else if !Bound(s.hosts, row.agent, row.connector) then
        (s.(vault := RevokeFamily(s.vault, row.family, ConnectorReplaced)), Invalid)
      else (s.(vault := RotateFamily(s, token), next := s.next + 2), Tokens(Random(s.next), Random(s.next + 1)))
  }

  /** The use-time check of an access token: its row, its expiry, its agent and its connector. */
  predicate Resolves(s: State, token: Token) {
    && token in s.vault.access
    && var row := s.vault.access[token];
    && !row.revoked && s.now < row.expiresAt
    && row.agent in s.hosts.agents && s.hosts.agents[row.agent].active
    && Bound(s.hosts, row.agent, row.connector)
  }

  // ----- Ending a connector -----

  function Unbind(h: Hosts, agent: AgentId, connector: ConnectorId): Hosts
    requires connector in h.connectors
  {
    h.(bindings := h.bindings - {agent},
       connectors := h.connectors[connector := h.connectors[connector].(status := Revoked)])
  }

  function RevokeConnectorStep(s: State, human: HumanId, connector: ConnectorId): (State, Answer) {
    var h := s.hosts;
    if connector !in h.connectors || h.connectors[connector].agent !in h.agents
       || h.agents[h.connectors[connector].agent].owner != Some(human)
    then (s, Invalid)
    else
      var agent := h.connectors[connector].agent;
      if h.connectors[connector].status == Revoked then (s, Done)
      else if !Bound(h, agent, connector) then (s, Invalid)
      else
        (s.(hosts := Unbind(h, agent, connector), vault := RevokeCredentials(s.vault, connector, ConnectorRevoked)),
          Done)
  }

  function MarkRotated(h: Hosts, c: ConnectorId): Hosts
    requires c in h.connectors
  {
    h.(connectors := h.connectors[c := h.connectors[c].(rotated := true)])
  }

  /** The current credential gets a new random secret in place. */
  function RotateStep(s: State, agent: AgentId, key: KeyId): (State, Answer) {
    var keys := s.vault.apiKeys;
    if key !in keys || keys[key].revoked || keys[key].agent != agent || !Bound(s.hosts, agent, keys[key].connector)
    then (s, Invalid)
    else
      (s.(vault := s.vault.(apiKeys := keys[key := keys[key].(secret := Random(s.next))]),
          hosts := MarkRotated(s.hosts, keys[key].connector), next := s.next + 1),
       Key(Random(s.next)))
  }

  function DisableAgentRow(h: Hosts, agent: AgentId): Hosts
    requires agent in h.agents
  {
    h.(agents := h.agents[agent := h.agents[agent].(active := false)])
  }

  function DisableStep(s: State, human: HumanId, agent: AgentId, completes: bool): (State, Answer) {
    var h := s.hosts;
    if agent !in h.agents || h.agents[agent].owner != Some(human) then (s, Invalid)
    else if !h.agents[agent].active then (s, Done)
    else if !completes then (s, Invalid)
    else if HasCurrent(h, agent) then
      (s.(hosts := DisableAgentRow(Unbind(h, agent, h.bindings[agent]), agent),
          vault := RevokeCredentials(s.vault, h.bindings[agent], AgentDeleted)), Done)
    else (s.(hosts := DisableAgentRow(h.(bindings := h.bindings - {agent}), agent)), Done)
  }

  // ----- Runs -----

  ghost function Serve(s: State, e: Event): (State, Answer) {
    match e
    case Tick(elapsed) => (s.(now := s.now + elapsed), Done)
    case Register =>
      (s.(hosts := s.hosts.(agents := s.hosts.agents[s.next := Agent(true, None)]), next := s.next + 1), Done)
    case SetOwner(agent, owner) =>
      if agent !in s.hosts.agents then (s, Invalid)
      else (s.(hosts := s.hosts.(agents := s.hosts.agents[agent := s.hosts.agents[agent].(owner := owner)])), Done)
    case CreatePairing(mode) => (CreatePairingStep(s, mode), Done)
    case StartAuthorization(dynamicId, redirect, challenge) =>
      (StartAuthorizationStep(s, dynamicId, redirect, challenge), Done)
    case Decide(p, human, approve, target) => (DecideStep(s, p, human, approve, target), Done)
    case IssueKey(p) => IssueKeyStep(s, p)
    case ExchangeDevice(client, p) => ExchangeDeviceStep(s, client, p)
    case Complete(r, human) => CompleteStep(s, r, human)
    case ExchangeCode(client, code, redirect, verifier) => ExchangeCodeStep(s, client, code, redirect, verifier)
    case RefreshTokens(client, token) => RefreshStep(s, client, token)
    case RevokeConnector(human, connector) => RevokeConnectorStep(s, human, connector)
    case Rotate(agent, key) => RotateStep(s, agent, key)
    case DisableAgent(human, agent, completes) => DisableStep(s, human, agent, completes)
  }

  ghost function Step(s: State, e: Event): State {
    Serve(s, e).0
  }

  ghost function Run(s: State, events: seq<Event>): State
    decreases |events|
  {
    if events == [] then s else Run(Step(s, events[0]), events[1..])
  }

  function Start(settings: Settings, now: int): State {
    State(settings, now, 0, Hosts(map[], map[], map[]), Vault(map[], map[], map[]), map[], map[])
  }
}
