/** What a device code answers when it is exchanged again. */
module DeviceExchange {
  import opened Prelude
  import opened Credentials
  import opened CredentialSafety
  import opened RefreshFamilies
  import opened PairingLineage

  // ----- The two tokens of a device exchange -----

  ghost predicate Twin(v: Vault, x: Token) {
    && (x in v.access <==> x in v.refresh)
    && (x in v.access ==>
          v.access[x].family == v.refresh[x].family && v.access[x].agent == v.refresh[x].agent
          && v.access[x].connector == v.refresh[x].connector)
  }

  /** A device exchange grants one access and one refresh token under one name. */
  ghost predicate Twins(v: Vault) {
    forall x: Token | x.Derived? :: Twin(v, x)
  }

  ghost predicate TwinsKept(v: Vault, t: Vault) {
    && t.access.Keys == v.access.Keys && t.refresh.Keys == v.refresh.Keys
    && (forall x | x in v.access :: t.access[x].family == v.access[x].family
          && t.access[x].agent == v.access[x].agent && t.access[x].connector == v.access[x].connector)
    && (forall x | x in v.refresh :: SameRefreshOrigin(v.refresh[x], t.refresh[x]))
  }

  lemma KeptTwins(v: Vault, t: Vault)
    requires Twins(v) && TwinsKept(v, t)
    ensures Twins(t)
  {
    forall x: Token | x.Derived? ensures Twin(t, x) {
      assert Twin(v, x);
      if x in v.refresh { assert SameRefreshOrigin(v.refresh[x], t.refresh[x]); }
    }
  }

  lemma RedeemTwins(s: State, e: Event)
    requires Twins(s.vault) && (e.ExchangeDevice? || e.ExchangeCode?)
    ensures Twins(Step(s, e).vault)
  {
    var t := Step(s, e);
    forall x: Token | x.Derived? ensures Twin(t.vault, x) {
      assert Twin(s.vault, x);
    }
  }

  lemma RotatedTwins(s: State, token: Token)
    requires Twins(s.vault) && token in s.vault.refresh
    ensures Twins(RotateFamily(s, token))
  {
    var t := RotateFamily(s, token);
    forall x: Token | x.Derived? ensures Twin(t, x) {
      assert Twin(s.vault, x);
    }
  }

  lemma FamilyTwins(v: Vault, family: FamilyId, reason: Reason)
    requires Twins(v)
    ensures Twins(RevokeFamily(v, family, reason))
  {
    KeptTwins(v, RevokeFamily(v, family, reason));
  }

  lemma CredentialTwins(v: Vault, c: ConnectorId, reason: Reason)
    requires Twins(v)
    ensures Twins(RevokeCredentials(v, c, reason))
  {
    KeptTwins(v, RevokeCredentials(v, c, reason));
  }

  lemma RefreshTwins(s: State, client: Client, token: Token)
    requires Twins(s.vault)
    ensures Twins(RefreshStep(s, client, token).0.vault)
  {
    if token in s.vault.refresh {
      var row := s.vault.refresh[token];
      FamilyTwins(s.vault, row.family, Replayed);
      FamilyTwins(s.vault, row.family, ConnectorReplaced);
      RotatedTwins(s, token);
    }
  }

  lemma DecideTwins(s: State, p: PairingId, human: HumanId, approve: bool, target: Option<AgentId>)
    requires Twins(s.vault)
    ensures Twins(DecideStep(s, p, human, approve, target).vault)
  {
    var hosts, agent := WithTarget(s.hosts, human, target, s.next), TargetAgent(target, s.next);
    if HasCurrent(hosts, agent) { CredentialTwins(s.vault, hosts.bindings[agent], ConnectorReplaced); }
  }

  lemma EndTwins(s: State, e: Event)
    requires Twins(s.vault) && (e.RevokeConnector? || e.DisableAgent?)
    ensures Twins(Step(s, e).vault)
  {
    match e
    case RevokeConnector(_, c) => CredentialTwins(s.vault, c, ConnectorRevoked);
    case DisableAgent(_, agent, _) =>
      if HasCurrent(s.hosts, agent) { CredentialTwins(s.vault, s.hosts.bindings[agent], AgentDeleted); }
  }

  lemma StepTwins(s: State, e: Event)
    requires Twins(s.vault)
    ensures Twins(Step(s, e).vault)
  {
    match e
    case Decide(p, human, approve, target) => DecideTwins(s, p, human, approve, target);
    case ExchangeDevice(_, _) => RedeemTwins(s, e);
    case ExchangeCode(_, _, _, _) => RedeemTwins(s, e);
    case RefreshTokens(client, token) => RefreshTwins(s, client, token);
    case RevokeConnector(_, _) => EndTwins(s, e);
    case DisableAgent(_, _, _) => EndTwins(s, e);
    case IssueKey(_) => assert Step(s, e).vault.access == s.vault.access && Step(s, e).vault.refresh == s.vault.refresh;
    case _ =>
  }

  // ----- What ends a pair -----

  /** The step presents a token of the family that its client may use: it rotates or replays. */
  ghost predicate Presented(s: State, e: Event, family: FamilyId) {
    && e.RefreshTokens? && e.token in s.vault.refresh
    && s.vault.refresh[e.token].family == family && s.vault.refresh[e.token].client == e.client
    && (s.vault.refresh[e.token].consumed || s.now < s.vault.refresh[e.token].expiresAt)
  }

  /** Revoking a family ends its pair and no other. */
  lemma FamilyEndsPair(v: Vault, family: FamilyId, reason: Reason, x: Token)
    requires StillWhole(v, x) && Twin(v, x)
    ensures StillWhole(RevokeFamily(v, family, reason), x) <==> v.refresh[x].family != family
  {
  }

  lemma RotationEndsPair(s: State, token: Token, x: Token)
    requires StillWhole(s.vault, x) && Twin(s.vault, x) && x.Derived? && token in s.vault.refresh
    ensures StillWhole(RotateFamily(s, token), x) <==> s.vault.refresh[x].family != s.vault.refresh[token].family
  {
    FamilyEndsPair(s.vault, s.vault.refresh[token].family, Rotated, x);
  }

  /** Of the family of a whole pair, every token but the pair's own is consumed. */
  lemma PresentedLive(s: State, token: Token, x: Token)
    requires StillWhole(s.vault, x) && RefreshChains(s.vault.refresh, s.next) && token in s.vault.refresh
    requires s.vault.refresh[token].family == s.vault.refresh[x].family
    ensures token == x || s.vault.refresh[token].consumed
  {
    if token != x { OthersConsumed(s.vault.refresh, s.next, x, token); }
  }

  lemma RefreshEndsPair(s: State, e: Event, x: Token)
    requires StillWhole(s.vault, x) && x.Derived? && Twin(s.vault, x) && e.RefreshTokens?
    requires RefreshChains(s.vault.refresh, s.next)
    requires Bound(s.hosts, s.vault.refresh[x].agent, s.vault.refresh[x].connector)
    ensures StillWhole(Step(s, e).vault, x) <==> !Presented(s, e, s.vault.refresh[x].family)
  {
    if e.token in s.vault.refresh {
      var row := s.vault.refresh[e.token];
      FamilyEndsPair(s.vault, row.family, Replayed, x);
      FamilyEndsPair(s.vault, row.family, ConnectorReplaced, x);
      RotationEndsPair(s, e.token, x);
      if row.family == s.vault.refresh[x].family { PresentedLive(s, e.token, x); }
    }
  }

  lemma RefreshKeepsHosts(s: State, e: Event)
    requires e.RefreshTokens? || e.ExchangeDevice? || e.ExchangeCode?
    ensures Step(s, e).hosts == s.hosts
  {
    match e
    case ExchangeDevice(_, _) =>
    case ExchangeCode(_, _, _, _) =>
    case RefreshTokens(_, _) =>
  }

  lemma RedeemKeepsPair(s: State, e: Event, x: Token)
    requires StillWhole(s.vault, x) && x.Derived? && DerivedConsumed(s.vault, s.pairings)
      && (e.ExchangeDevice? || e.ExchangeCode?)
    ensures StillWhole(Step(s, e).vault, x)
  {
    match e
    case ExchangeDevice(_, _) =>
    case ExchangeCode(_, _, _, _) =>
  }

  /** Revoking a connector's credentials ends exactly its pairs. */
  lemma EndedPair(v: Vault, c: ConnectorId, reason: Reason, x: Token)
    requires StillWhole(v, x) && Twin(v, x)
    ensures StillWhole(RevokeCredentials(v, c, reason), x) <==> v.refresh[x].connector != c
  {
  }

  lemma RevokeEndsPair(s: State, e: Event, x: Token)
    requires StillWhole(s.vault, x) && Twin(s.vault, x) && Bindings(s) && e.RevokeConnector?
    ensures StillWhole(Step(s, e).vault, x) <==>
      Bound(Step(s, e).hosts, s.vault.refresh[x].agent, s.vault.refresh[x].connector)
  {
    UnrevokedIsBound(s, x);
    if Step(s, e).vault != s.vault {
      EndedPair(s.vault, e.connector, ConnectorRevoked, x);
    }
  }

  lemma DisableEndsPair(s: State, e: Event, x: Token)
    requires StillWhole(s.vault, x) && Twin(s.vault, x) && Bindings(s) && e.DisableAgent?
    ensures StillWhole(Step(s, e).vault, x) <==>
      Bound(Step(s, e).hosts, s.vault.refresh[x].agent, s.vault.refresh[x].connector)
  {
    UnrevokedIsBound(s, x);
    if e.agent in s.hosts.bindings {
      assert BindingOk(s.hosts, e.agent);
      EndedPair(s.vault, s.hosts.bindings[e.agent], AgentDeleted, x);
    }
  }

  /** A new connector takes over from exactly the one its agent was bound to. */
  lemma BindEnds(h: Hosts, next: nat, human: HumanId, target: Option<AgentId>, agent: AgentId, c: ConnectorId)
    requires HostsOk(h, next) && Bound(h, agent, c) && TargetAllowed(h, human, target)
    ensures var hosts, made := WithTarget(h, human, target, next), TargetAgent(target, next);
            Bound(BindNew(hosts, made, next + 1), agent, c) <==> !(HasCurrent(hosts, made) && hosts.bindings[made] == c)
  {
    UnusedAgent(h, next);
    assert BindingOk(h, agent) && ConnectorOk(h, c);
    var made := TargetAgent(target, next);
    if made in h.bindings { assert BindingOk(h, made); }
  }

  lemma ApproveEndsPair(s: State, p: PairingId, human: HumanId, target: Option<AgentId>, x: Token)
    requires StillWhole(s.vault, x) && Twin(s.vault, x) && Bindings(s) && p in s.pairings
      && TargetAllowed(s.hosts, human, target)
    ensures var t := ApproveStep(s, p, human, target);
            StillWhole(t.vault, x) <==> Bound(t.hosts, s.vault.refresh[x].agent, s.vault.refresh[x].connector)
  {
    UnrevokedIsBound(s, x);
    var agent := TargetAgent(target, s.next);
    var hosts := WithTarget(s.hosts, human, target, s.next);
    BindEnds(s.hosts, s.next, human, target, s.vault.refresh[x].agent, s.vault.refresh[x].connector);
    if HasCurrent(hosts, agent) { EndedPair(s.vault, hosts.bindings[agent], ConnectorReplaced, x); }
  }

  lemma DecideEndsPair(s: State, e: Event, x: Token)
    requires StillWhole(s.vault, x) && Twin(s.vault, x) && Bindings(s) && e.Decide?
    ensures StillWhole(Step(s, e).vault, x) <==>
      Bound(Step(s, e).hosts, s.vault.refresh[x].agent, s.vault.refresh[x].connector)
  {
    UnrevokedIsBound(s, x);
    if e.pairing in s.pairings && TargetAllowed(s.hosts, e.human, e.target) {
      ApproveEndsPair(s, e.pairing, e.human, e.target, x);
    }
  }

  lemma IdlePair(s: State, e: Event, x: Token)
    requires StillWhole(s.vault, x)
    requires e.Tick? || e.Register? || e.SetOwner? || e.CreatePairing? || e.StartAuthorization? || e.Complete?
      || e.Rotate? || e.IssueKey?
    ensures StillWhole(Step(s, e).vault, x)
    ensures forall a, c :: Bound(s.hosts, a, c) ==> Bound(Step(s, e).hosts, a, c)
  {
  }

  /** Exactly the two ways a step ends a whole pair. */
  lemma StepPair(s: State, e: Event, x: Token)
    requires StillWhole(s.vault, x) && x.Derived? && Families(s) && Bindings(s) && Twins(s.vault)
    ensures StillWhole(Step(s, e).vault, x) <==>
              !Presented(s, e, s.vault.refresh[x].family)
              && Bound(Step(s, e).hosts, s.vault.refresh[x].agent, s.vault.refresh[x].connector)
  {
    assert Twin(s.vault, x);
    UnrevokedIsBound(s, x);
    match e
    case RefreshTokens(_, _) => RefreshKeepsHosts(s, e); RefreshEndsPair(s, e, x);
    case ExchangeDevice(_, _) => RefreshKeepsHosts(s, e); RedeemKeepsPair(s, e, x);
    case ExchangeCode(_, _, _, _) => RefreshKeepsHosts(s, e); RedeemKeepsPair(s, e, x);
    case Decide(_, _, _, _) => DecideEndsPair(s, e, x);
    case RevokeConnector(_, _) => RevokeEndsPair(s, e, x);
    case DisableAgent(_, _, _) => DisableEndsPair(s, e, x);
    case _ => IdlePair(s, e, x);
  }

  // ----- A pair once broken stays broken -----

  /** Rows are never removed, and never come back to life. */
  ghost predicate Ages(v: Vault, t: Vault, x: Token) {
    && (x in v.access ==> x in t.access && (v.access[x].revoked ==> t.access[x].revoked))
    && (x in v.refresh ==> x in t.refresh && (v.refresh[x].revoked ==> t.refresh[x].revoked)
                           && (v.refresh[x].consumed ==> t.refresh[x].consumed)
                           && SameRefreshOrigin(v.refresh[x], t.refresh[x]))
  }

  lemma RedeemAges(s: State, e: Event, x: Token)
    requires x.Derived? && DerivedConsumed(s.vault, s.pairings) && (e.ExchangeDevice? || e.ExchangeCode?)
    ensures Ages(s.vault, Step(s, e).vault, x)
  {
    match e
    case ExchangeDevice(_, _) =>
    case ExchangeCode(_, _, _, _) =>
  }

  lemma FamilyAges(v: Vault, family: FamilyId, reason: Reason, x: Token)
    ensures Ages(v, RevokeFamily(v, family, reason), x)
  {
  }

  lemma RotateAges(s: State, token: Token, x: Token)
    requires x.Derived? && token in s.vault.refresh
    ensures Ages(s.vault, RotateFamily(s, token), x)
  {
  }

  lemma RefreshAges(s: State, e: Event, x: Token)
    requires x.Derived? && e.RefreshTokens?
    ensures Ages(s.vault, Step(s, e).vault, x)
  {
    if e.token in s.vault.refresh {
      FamilyAges(s.vault, s.vault.refresh[e.token].family, Replayed, x);
      FamilyAges(s.vault, s.vault.refresh[e.token].family, ConnectorReplaced, x);
      RotateAges(s, e.token, x);
    }
  }

  lemma CredentialsAge(v: Vault, c: ConnectorId, reason: Reason, x: Token)
    ensures Ages(v, RevokeCredentials(v, c, reason), x)
  {
  }

  lemma DecideAges(s: State, p: PairingId, human: HumanId, approve: bool, target: Option<AgentId>, x: Token)
    ensures Ages(s.vault, DecideStep(s, p, human, approve, target).vault, x)
  {
    var hosts, agent := WithTarget(s.hosts, human, target, s.next), TargetAgent(target, s.next);
    if HasCurrent(hosts, agent) { CredentialsAge(s.vault, hosts.bindings[agent], ConnectorReplaced, x); }
  }

  lemma EndAges(s: State, e: Event, x: Token)
    requires e.RevokeConnector? || e.DisableAgent?
    ensures Ages(s.vault, Step(s, e).vault, x)
  {
    match e
    case RevokeConnector(_, c) => CredentialsAge(s.vault, c, ConnectorRevoked, x);
    case DisableAgent(_, agent, _) =>
      if HasCurrent(s.hosts, agent) { CredentialsAge(s.vault, s.hosts.bindings[agent], AgentDeleted, x); }
  }

  lemma IdleAges(s: State, e: Event, x: Token)
    requires e.Tick? || e.Register? || e.SetOwner? || e.CreatePairing? || e.StartAuthorization? || e.Complete?
      || e.Rotate? || e.IssueKey?
    ensures Ages(s.vault, Step(s, e).vault, x)
  {
  }

  lemma StepAges(s: State, e: Event, x: Token)
    requires x.Derived? && DerivedConsumed(s.vault, s.pairings)
    ensures Ages(s.vault, Step(s, e).vault, x)
  {
    match e
    case RefreshTokens(_, _) => RefreshAges(s, e, x);
    case ExchangeDevice(_, _) => RedeemAges(s, e, x);
    case ExchangeCode(_, _, _, _) => RedeemAges(s, e, x);
    case Decide(p, human, approve, target) => DecideAges(s, p, human, approve, target, x);
    case RevokeConnector(_, _) => EndAges(s, e, x);
    case DisableAgent(_, _, _) => EndAges(s, e, x);
    case _ => IdleAges(s, e, x);
  }

  ghost predicate Paired(s: State) {
    Traced(s) && Twins(s.vault)
  }

  lemma StepPaired(s: State, e: Event)
    requires Paired(s)
    ensures Paired(Step(s, e))
  {
    StepTraced(s, e);
    StepTwins(s, e);
  }

  lemma {:induction false} RunPaired(s: State, events: seq<Event>)
    requires Paired(s)
    ensures Paired(Run(s, events))
    decreases |events|
  {
    if events != [] {
      StepPaired(s, events[0]);
      RunPaired(Step(s, events[0]), events[1..]);
    }
  }

  lemma {:induction false} RunBroken(s: State, events: seq<Event>, x: Token)
    requires Paired(s) && x.Derived? && x in s.vault.access && x in s.vault.refresh && !StillWhole(s.vault, x)
    ensures !StillWhole(Run(s, events).vault, x)
    decreases |events|
  {
    if events != [] {
      StepAges(s, events[0], x);
      StepPaired(s, events[0]);
      RunBroken(Step(s, events[0]), events[1..], x);
    }
  }

  /** No token of the family is presented, and its connector stays the bound one. */
  ghost predicate Undisturbed(s: State, events: seq<Event>, family: FamilyId, agent: AgentId, connector: ConnectorId)
    decreases |events|
  {
    events == [] ||
    (!Presented(s, events[0], family) && Bound(Step(s, events[0]).hosts, agent, connector)
     && Undisturbed(Step(s, events[0]), events[1..], family, agent, connector))
  }

  lemma {:induction false} RunPair(s: State, events: seq<Event>, x: Token)
    requires Paired(s) && x.Derived? && StillWhole(s.vault, x)
    ensures StillWhole(Run(s, events).vault, x) <==>
              Undisturbed(s, events, s.vault.refresh[x].family, s.vault.refresh[x].agent, s.vault.refresh[x].connector)
    decreases |events|
  {
    if events != [] {
      var e := events[0];
      StepPair(s, e, x);
      StepPaired(s, e);
      StepAges(s, e, x);
      if StillWhole(Step(s, e).vault, x) {
        RunPair(Step(s, e), events[1..], x);
      } else {
        RunBroken(Step(s, e), events[1..], x);
      }
    }
  }

  lemma FirstExchange(s: State, p: PairingId)
    requires ExchangeDeviceStep(s, Official, p).1.Tokens? && Paired(s)
    ensures p in s.pairings && s.pairings[p].connector.Some? && s.pairings[p].mode == OAuthMode(Official)
    ensures var (t, answer) := ExchangeDeviceStep(s, Official, p);
            var x := Derived(p, s.pairings[p].connector.value);
            && answer == Tokens(x, x) && StillWhole(t.vault, x)
            && p in t.pairings && t.pairings[p].status == Consumed && t.pairings[p].mode == s.pairings[p].mode
            && t.pairings[p].connector == s.pairings[p].connector
  {
  }

  lemma LaterExchange(s: State, p: PairingId)
    requires Paired(s) && p in s.pairings && s.pairings[p].status == Consumed
      && s.pairings[p].mode == OAuthMode(Official)
    requires s.pairings[p].connector.Some?
    ensures var x := Derived(p, s.pairings[p].connector.value);
            ExchangeDeviceStep(s, Official, p) ==
              (s, if s.pairings[p].expiresAt <= s.now then IsExpired
                  else if StillWhole(s.vault, x) then Tokens(x, x) else Invalid)
  {
    var x := Derived(p, s.pairings[p].connector.value);
    if StillWhole(s.vault, x) {
      UnrevokedIsBound(s, x);
      assert RefreshOrigin(s.pairings, x, s.vault.refresh[x]);
    }
  }

  ghost predicate SameAnswer(t: State, first: Answer, between: seq<Event>, p: PairingId) {
    && first.Tokens? && p in t.pairings && first.accessToken in t.vault.refresh
    && var row := t.vault.refresh[first.accessToken];
    && var u := Run(t, between);
    ExchangeDeviceStep(u, Official, p) ==
      (u, if t.pairings[p].expiresAt <= u.now then IsExpired
          else if Undisturbed(t, between, row.family, row.agent, row.connector) then first
          else Invalid)
  }

  lemma RepeatedFrom(t: State, first: Answer, between: seq<Event>, p: PairingId)
    requires Paired(t) && p in t.pairings && t.pairings[p].status == Consumed
      && t.pairings[p].mode == OAuthMode(Official)
    requires t.pairings[p].connector.Some?
    requires var x := Derived(p, t.pairings[p].connector.value); first == Tokens(x, x) && StillWhole(t.vault, x)
    ensures SameAnswer(t, first, between, p)
  {
    var u := Run(t, between);
    RunPaired(t, between);
    RunPair(t, between, first.accessToken);
    RunPairings(t, between);
    assert RowMoved(t.pairings[p], u.pairings[p]);
    LaterExchange(u, p);
  }

  lemma ExchangePaired(s: State, p: PairingId)
    requires Paired(s)
    ensures Paired(ExchangeDeviceStep(s, Official, p).0)
  {
    assert ExchangeDeviceStep(s, Official, p).0 == Step(s, ExchangeDevice(Official, p));
    StepPaired(s, ExchangeDevice(Official, p));
  }

  lemma StartPaired(settings: Settings, now: int)
    ensures Paired(Start(settings, now))
  {
  }

  /**
    After a device exchange answered a token pair, exchanging the same code again changes nothing
    and answers the very same pair: until the code's deadline, and exactly while no refresh
    presented a token of the family and the connector remained the bound one of its agent.
   */
  lemma RepeatedDeviceExchange(settings: Settings, now: int, before: seq<Event>, between: seq<Event>, p: PairingId)
    ensures var (t, first) := ExchangeDeviceStep(Run(Start(settings, now), before), Official, p);
            first.Tokens? ==> SameAnswer(t, first, between, p)
  {
    var s := Run(Start(settings, now), before);
    StartPaired(settings, now);
    RunPaired(Start(settings, now), before);
    RepeatedAt(s, between, p);
  }

  lemma RepeatedAt(s: State, between: seq<Event>, p: PairingId)
    requires Paired(s)
    ensures var (t, first) := ExchangeDeviceStep(s, Official, p);
            first.Tokens? ==> SameAnswer(t, first, between, p)
  {
    var answer := ExchangeDeviceStep(s, Official, p);
    if answer.1.Tokens? {
      FirstExchange(s, p);
      ExchangePaired(s, p);
      RepeatedFrom(answer.0, answer.1, between, p);
    }
  }
}
