/** An ended connector never comes back, and no token outlives its lifetime. */
module Revocation {
  import opened Prelude
  import opened Credentials
  import opened CredentialSafety
  import opened RefreshFamilies
  import opened PairingLineage

  // ----- Connectors -----

  ghost predicate EndedStay(before: map<ConnectorId, Connector>, after: map<ConnectorId, Connector>) {
    forall c | c in before && before[c].status != Active :: c in after && after[c].status != Active
  }

  lemma DecideEnded(s: State, p: PairingId, human: HumanId, approve: bool, target: Option<AgentId>)
    requires s.next + 1 !in s.hosts.connectors
    ensures EndedStay(s.hosts.connectors, DecideStep(s, p, human, approve, target).hosts.connectors)
  {
  }

  lemma EndEnded(s: State, e: Event)
    requires e.RevokeConnector? || e.DisableAgent? || e.Rotate?
    ensures EndedStay(s.hosts.connectors, Step(s, e).hosts.connectors)
  {
  }

  lemma SameConnectorRows(s: State, e: Event)
    requires !e.Decide? && !e.RevokeConnector? && !e.DisableAgent? && !e.Rotate?
    ensures Step(s, e).hosts.connectors == s.hosts.connectors
  {
    match e
    case IssueKey(_) =>
    case ExchangeDevice(_, _) =>
    case ExchangeCode(_, _, _, _) =>
    case Complete(_, _) =>
    case RefreshTokens(_, _) =>
    case _ =>
  }

  lemma StepEnded(s: State, e: Event)
    requires HostsOk(s.hosts, s.next)
    ensures EndedStay(s.hosts.connectors, Step(s, e).hosts.connectors)
  {
    match e
    case Decide(p, human, approve, target) => DecideEnded(s, p, human, approve, target);
    case RevokeConnector(_, _) => EndEnded(s, e);
    case DisableAgent(_, _, _) => EndEnded(s, e);
    case Rotate(_, _) => EndEnded(s, e);
    case _ => SameConnectorRows(s, e);
  }

  lemma {:induction false} RunEnded(s: State, events: seq<Event>)
    requires Bindings(s)
    ensures EndedStay(s.hosts.connectors, Run(s, events).hosts.connectors)
    decreases |events|
  {
    if events != [] {
      StepEnded(s, events[0]);
      StepBindings(s, events[0]);
      RunEnded(Step(s, events[0]), events[1..]);
    }
  }

  /** Nothing of the connector works: every credential is revoked. */
  ghost predicate NothingWorks(s: State, c: ConnectorId) {
    && (forall t | t in s.vault.access && s.vault.access[t].connector == c ::
      s.vault.access[t].revoked && !Resolves(s, t))
    && (forall t | t in s.vault.refresh && s.vault.refresh[t].connector == c :: s.vault.refresh[t].revoked)
    && (forall k | k in s.vault.apiKeys && s.vault.apiKeys[k].connector == c :: s.vault.apiKeys[k].revoked)
  }

  lemma NotActiveIsDead(s: State, c: ConnectorId)
    requires Bindings(s) && c in s.hosts.connectors && s.hosts.connectors[c].status != Active
    ensures NothingWorks(s, c)
  {
    var connectors := s.hosts.connectors;
    forall t | t in s.vault.access && s.vault.access[t].connector == c ensures s.vault.access[t].revoked {
      assert CredentialOk(connectors, s.vault.access[t].agent, s.vault.access[t].connector, s.vault.access[t].revoked);
    }
    forall t | t in s.vault.refresh && s.vault.refresh[t].connector == c ensures s.vault.refresh[t].revoked {
      assert CredentialOk(connectors, s.vault.refresh[t].agent, s.vault.refresh[t].connector,
          s.vault.refresh[t].revoked);
    }
    forall k | k in s.vault.apiKeys && s.vault.apiKeys[k].connector == c ensures s.vault.apiKeys[k].revoked {
      assert CredentialOk(connectors, s.vault.apiKeys[k].agent, s.vault.apiKeys[k].connector,
          s.vault.apiKeys[k].revoked);
    }
  }

  /** A connector that was replaced, revoked or deleted with its agent never works again, in any run. */
  lemma EndedForGood(settings: Settings, now: int, before: seq<Event>, after: seq<Event>, c: ConnectorId)
    ensures var s := Run(Start(settings, now), before);
            c in s.hosts.connectors && s.hosts.connectors[c].status != Active ==> NothingWorks(Run(s, after), c)
  {
    var s := Run(Start(settings, now), before);
    RunBindings(Start(settings, now), before);
    RunBindings(s, after);
    RunEnded(s, after);
    if c in s.hosts.connectors && s.hosts.connectors[c].status != Active { NotActiveIsDead(Run(s, after), c); }
  }

  // ----- Lifetimes -----

  ghost predicate Timely(s: State) {
    && (forall t | t in s.vault.access :: s.vault.access[t].expiresAt <= s.now + s.settings.accessTtl)
    && (forall t | t in s.vault.refresh :: s.vault.refresh[t].expiresAt <= s.now + s.settings.refreshTtl)
  }

  ghost predicate SameExpiry(v: Vault, w: Vault) {
    && w.access.Keys == v.access.Keys && w.refresh.Keys == v.refresh.Keys
    && (forall t | t in v.access :: w.access[t].expiresAt == v.access[t].expiresAt)
    && (forall t | t in v.refresh :: w.refresh[t].expiresAt == v.refresh[t].expiresAt)
  }

  lemma KeptTimely(s: State, t: State)
    requires Timely(s) && SameExpiry(s.vault, t.vault) && t.settings == s.settings && s.now <= t.now
    ensures Timely(t)
  {
  }

  lemma FamilyExpiry(v: Vault, family: FamilyId, reason: Reason)
    ensures SameExpiry(v, RevokeFamily(v, family, reason))
  {
  }

  lemma CredentialExpiry(v: Vault, c: ConnectorId, reason: Reason)
    ensures SameExpiry(v, RevokeCredentials(v, c, reason))
  {
  }

  lemma RotatedTimely(s: State, token: Token)
    requires Timely(s) && token in s.vault.refresh
    ensures Timely(s.(vault := RotateFamily(s, token), next := s.next + 2))
  {
    FamilyExpiry(s.vault, s.vault.refresh[token].family, Rotated);
  }

  lemma RefreshTimely(s: State, client: Client, token: Token)
    requires Timely(s)
    ensures Timely(RefreshStep(s, client, token).0)
  {
    if token in s.vault.refresh {
      RotatedTimely(s, token);
      FamilyExpiry(s.vault, s.vault.refresh[token].family, Replayed);
      FamilyExpiry(s.vault, s.vault.refresh[token].family, ConnectorReplaced);
    }
  }

  lemma RedeemTimely(s: State, e: Event)
    requires Timely(s) && (e.ExchangeDevice? || e.ExchangeCode?)
    ensures Timely(Step(s, e))
  {
    match e
    case ExchangeDevice(_, _) =>
    case ExchangeCode(_, _, _, _) =>
  }

  lemma DecideExpiry(s: State, p: PairingId, human: HumanId, approve: bool, target: Option<AgentId>)
    ensures SameExpiry(s.vault, DecideStep(s, p, human, approve, target).vault)
  {
    var hosts, agent := WithTarget(s.hosts, human, target, s.next), TargetAgent(target, s.next);
    if HasCurrent(hosts, agent) { CredentialExpiry(s.vault, hosts.bindings[agent], ConnectorReplaced); }
  }

  lemma EndExpiry(s: State, e: Event)
    requires e.RevokeConnector? || e.DisableAgent?
    ensures SameExpiry(s.vault, Step(s, e).vault)
  {
    match e
    case RevokeConnector(_, c) => CredentialExpiry(s.vault, c, ConnectorRevoked);
    case DisableAgent(_, agent, _) =>
      if HasCurrent(s.hosts, agent) { CredentialExpiry(s.vault, s.hosts.bindings[agent], AgentDeleted); }
  }

  lemma IdleTimely(s: State, e: Event)
    requires Timely(s)
    requires e.Tick? || e.Register? || e.SetOwner? || e.CreatePairing? || e.StartAuthorization? || e.Complete?
      || e.Rotate? || e.IssueKey?
    ensures Timely(Step(s, e))
  {
    KeptTimely(s, Step(s, e));
  }

  lemma StepTimely(s: State, e: Event)
    requires Timely(s)
    ensures Timely(Step(s, e))
  {
    match e
    case RefreshTokens(client, token) => RefreshTimely(s, client, token);
    case ExchangeDevice(_, _) => RedeemTimely(s, e);
    case ExchangeCode(_, _, _, _) => RedeemTimely(s, e);
    case RevokeConnector(_, _) => EndExpiry(s, e); StepClock(s, e); KeptTimely(s, Step(s, e));
    case DisableAgent(_, _, _) => EndExpiry(s, e); StepClock(s, e); KeptTimely(s, Step(s, e));
    case Decide(p, human, approve, target) =>
      DecideExpiry(s, p, human, approve, target);
      StepClock(s, e);
      KeptTimely(s, Step(s, e));
    case _ => IdleTimely(s, e);
  }

  lemma StepClock(s: State, e: Event)
    ensures Step(s, e).settings == s.settings && s.now <= Step(s, e).now
  {
    match e
    case Decide(_, _, _, _) =>
    case IssueKey(_) =>
    case ExchangeDevice(_, _) =>
    case ExchangeCode(_, _, _, _) =>
    case _ =>
  }

  lemma {:induction false} RunTimely(s: State, events: seq<Event>)
    requires Timely(s)
    ensures Timely(Run(s, events)) && Run(s, events).settings == s.settings && s.now <= Run(s, events).now
    decreases |events|
  {
    if events != [] {
      StepTimely(s, events[0]);
      StepClock(s, events[0]);
      RunTimely(Step(s, events[0]), events[1..]);
    }
  }

  // Rows are added under names not used before, so a token keeps its deadline.

  ghost predicate DeadlinesKept(v: Vault, w: Vault) {
    && (forall t | t in v.access :: t in w.access && w.access[t].expiresAt == v.access[t].expiresAt)
    && (forall t | t in v.refresh :: t in w.refresh && w.refresh[t].expiresAt == v.refresh[t].expiresAt)
  }

  lemma SameDeadlines(v: Vault, w: Vault)
    requires SameExpiry(v, w)
    ensures DeadlinesKept(v, w)
  {
  }

  lemma RotateDeadlines(s: State, token: Token)
    requires Families(s) && token in s.vault.refresh
    ensures DeadlinesKept(s.vault, RotateFamily(s, token))
  {
    FreshAccess(s.vault.access, s.next, s.next);
    FreshRefresh(s.vault.refresh, s.next, s.next + 1);
  }

  lemma FamilyDeadlines(v: Vault, family: FamilyId, reason: Reason)
    ensures DeadlinesKept(v, RevokeFamily(v, family, reason))
  {
    FamilyExpiry(v, family, reason);
    SameDeadlines(v, RevokeFamily(v, family, reason));
  }

  lemma RefreshDeadlines(s: State, client: Client, token: Token)
    requires Families(s)
    ensures DeadlinesKept(s.vault, RefreshStep(s, client, token).0.vault)
  {
    if token in s.vault.refresh {
      RotateDeadlines(s, token);
      FamilyDeadlines(s.vault, s.vault.refresh[token].family, Replayed);
      FamilyDeadlines(s.vault, s.vault.refresh[token].family, ConnectorReplaced);
    }
  }

  lemma RedeemDeadlines(s: State, p: PairingId, client: Client, a: Token, b: Token)
    requires p in s.pairings && Redeemable(s, s.pairings[p]) && a !in s.vault.access && b !in s.vault.refresh
    ensures DeadlinesKept(s.vault, RedeemTokens(s, p, client, a, b).vault)
  {
  }

  lemma DeviceDeadlines(s: State, client: Client, p: PairingId)
    requires Families(s)
    ensures DeadlinesKept(s.vault, ExchangeDeviceStep(s, client, p).0.vault)
  {
    var t := ExchangeDeviceStep(s, client, p).0;
    if t.vault != s.vault {
      var token := Derived(p, s.pairings[p].connector.value);
      DerivedUnused(s, p, s.pairings[p].connector.value);
      RedeemDeadlines(s, p, client, token, token);
    }
  }

  lemma CodeDeadlines(s: State, client: Client, code: nat, redirect: nat, verifier: nat)
    requires Families(s)
    ensures DeadlinesKept(s.vault, ExchangeCodeStep(s, client, code, redirect, verifier).0.vault)
  {
    var t := ExchangeCodeStep(s, client, code, redirect, verifier).0;
    var found := RequestOf(s, code);
    if t.vault != s.vault && found.Some? {
      FreshAccess(s.vault.access, s.next, s.next + 1);
      FreshRefresh(s.vault.refresh, s.next, s.next + 2);
      RedeemDeadlines(s, s.requests[found.value].pairing, client, Random(s.next + 1), Random(s.next + 2));
    }
  }

  lemma StepDeadlines(s: State, e: Event)
    requires Families(s)
    ensures DeadlinesKept(s.vault, Step(s, e).vault)
  {
    match e
    case RefreshTokens(client, token) => RefreshDeadlines(s, client, token);
    case ExchangeDevice(client, p) => DeviceDeadlines(s, client, p);
    case ExchangeCode(client, code, redirect, verifier) => CodeDeadlines(s, client, code, redirect, verifier);
    case RevokeConnector(_, _) => EndExpiry(s, e); SameDeadlines(s.vault, Step(s, e).vault);
    case DisableAgent(_, _, _) => EndExpiry(s, e); SameDeadlines(s.vault, Step(s, e).vault);
    case Decide(p, human, approve, target) =>
      DecideExpiry(s, p, human, approve, target);
      SameDeadlines(s.vault, Step(s, e).vault);
    case _ => IdleDeadlines(s, e);
  }

  lemma IdleDeadlines(s: State, e: Event)
    requires e.Tick? || e.Register? || e.SetOwner? || e.CreatePairing? || e.StartAuthorization? || e.Complete?
      || e.Rotate? || e.IssueKey?
    ensures DeadlinesKept(s.vault, Step(s, e).vault)
  {
  }

  lemma {:induction false} RunDeadlines(s: State, events: seq<Event>)
    requires Families(s) && forall p | p in s.pairings :: p < s.next
    ensures DeadlinesKept(s.vault, Run(s, events).vault)
    decreases |events|
  {
    if events != [] {
      StepDeadlines(s, events[0]);
      StepFamilies(s, events[0]);
      StepDrawn(s, events[0]);
      RunDeadlines(Step(s, events[0]), events[1..]);
    }
  }

  /** A token in the tables at some time neither resolves nor refreshes once a lifetime has passed since. */
  lemma TokensExpire(settings: Settings, now: int, before: seq<Event>, after: seq<Event>, client: Client, token: Token)
    ensures var s := Run(Start(settings, now), before);
            var u := Run(s, after);
            && (token in s.vault.access && u.now >= s.now + settings.accessTtl ==> !Resolves(u, token))
            && (token in s.vault.refresh && u.now >= s.now + settings.refreshTtl ==>
              !RefreshStep(u, client, token).1.Tokens?)
  {
    var s := Run(Start(settings, now), before);
    RunTimely(Start(settings, now), before);
    RunFamilies(Start(settings, now), before);
    RunDeadlines(s, after);
  }
}
