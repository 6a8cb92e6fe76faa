/** Every refresh family is a linear chain of which only the newest link can be live. */
module RefreshFamilies {
  import opened Prelude
  import opened Credentials
  import opened CredentialSafety

  ghost predicate Drawn(token: Token, family: FamilyId, serial: nat, next: nat) {
    family < next && serial < next && (token.Random? ==> token.id < next)
  }

  /** Of two tokens of one family the older has been consumed. */
  ghost predicate RefreshPair(x: Refresh, y: Refresh) {
    x.family == y.family ==>
      && x.serial != y.serial && (x.serial < y.serial ==> x.consumed)
      && x.origin == y.origin && x.connector == y.connector && x.agent == y.agent
  }

  ghost predicate AccessPair(x: Access, y: Access) {
    x.family == y.family ==> x.serial != y.serial && (x.serial < y.serial ==> x.revoked)
  }

  ghost predicate Succeeded(refresh: map<Token, Refresh>, x: Token) {
    exists y :: y in refresh && x in refresh && refresh[y].family == refresh[x].family
      && refresh[x].serial < refresh[y].serial
  }

  ghost predicate LinkOk(refresh: map<Token, Refresh>, x: Token) {
    x in refresh && (refresh[x].consumed ==> refresh[x].revoked && Succeeded(refresh, x))
  }

  ghost predicate RefreshChains(refresh: map<Token, Refresh>, next: nat) {
    && (forall x | x in refresh :: Drawn(x, refresh[x].family, refresh[x].serial, next) && LinkOk(refresh, x))
    && (forall x, y | x in refresh && y in refresh && x != y :: RefreshPair(refresh[x], refresh[y]))
  }

  ghost predicate AccessChains(access: map<Token, Access>, next: nat) {
    && (forall x | x in access :: Drawn(x, access[x].family, access[x].serial, next))
    && (forall x, y | x in access && y in access && x != y :: AccessPair(access[x], access[y]))
  }

  /** Device-derived tokens exist only for consumed pairings. */
  ghost predicate DerivedConsumed(v: Vault, pairings: map<PairingId, Pairing>) {
    && (forall x | x in v.access && x.Derived? :: x.pairing in pairings && pairings[x.pairing].status == Consumed)
    && (forall x | x in v.refresh && x.Derived? :: x.pairing in pairings && pairings[x.pairing].status == Consumed)
  }

  ghost predicate Families(s: State) {
    RefreshChains(s.vault.refresh, s.next) && AccessChains(s.vault.access, s.next)
      && DerivedConsumed(s.vault, s.pairings)
  }

  // ----- Revocation keeps chains -----

  ghost predicate RevokedFrom(before: Refresh, after: Refresh) {
    after == before.(revoked := after.revoked, reason := after.reason) && (before.revoked ==> after.revoked)
  }

  lemma RevokedRefreshChains(before: map<Token, Refresh>, after: map<Token, Refresh>, next: nat, later: nat)
    requires RefreshChains(before, next) && next <= later && after.Keys == before.Keys
    requires forall x | x in before :: RevokedFrom(before[x], after[x])
    ensures RefreshChains(after, later)
  {
    forall x | x in after ensures Drawn(x, after[x].family, after[x].serial, later) && LinkOk(after, x) {
      assert LinkOk(before, x) && RevokedFrom(before[x], after[x]);
      if after[x].consumed {
        var y :| y in before && before[y].family == before[x].family && before[x].serial < before[y].serial;
        assert RevokedFrom(before[y], after[y]);
      }
    }
    forall x, y | x in after && y in after && x != y ensures RefreshPair(after[x], after[y]) {
      assert RefreshPair(before[x], before[y]) && RevokedFrom(before[x], after[x]) && RevokedFrom(before[y], after[y]);
    }
  }

  lemma RevokedAccessChains(before: map<Token, Access>, after: map<Token, Access>, next: nat, later: nat)
    requires AccessChains(before, next) && next <= later && after.Keys == before.Keys
    requires forall x | x in before :: after[x] == before[x] || after[x] == before[x].(revoked := true)
    ensures AccessChains(after, later)
  {
    forall x, y | x in after && y in after && x != y ensures AccessPair(after[x], after[y]) {
      assert AccessPair(before[x], before[y]);
    }
  }

  lemma FamilyRevoked(v: Vault, next: nat, family: FamilyId, reason: Reason)
    requires RefreshChains(v.refresh, next) && AccessChains(v.access, next)
    ensures var t := RevokeFamily(v, family, reason);
            RefreshChains(t.refresh, next) && AccessChains(t.access, next)
  {
    var t := RevokeFamily(v, family, reason);
    RevokedRefreshChains(v.refresh, t.refresh, next, next);
    RevokedAccessChains(v.access, t.access, next, next);
  }

  lemma ConnectorRevoked0(v: Vault, next: nat, later: nat, c: ConnectorId, reason: Reason)
    requires RefreshChains(v.refresh, next) && AccessChains(v.access, next) && next <= later
    ensures var t := RevokeCredentials(v, c, reason);
            RefreshChains(t.refresh, later) && AccessChains(t.access, later)
  {
    var t := RevokeCredentials(v, c, reason);
    RevokedRefreshChains(v.refresh, t.refresh, next, later);
    RevokedAccessChains(v.access, t.access, next, later);
  }

  // ----- New links -----

  /** A link on top of a family whose other links are all consumed. */
  lemma LinkAdded(refresh: map<Token, Refresh>, next: nat, later: nat, token: Token, row: Refresh)
    requires RefreshChains(refresh, next) && next <= later && token !in refresh
    requires Drawn(token, row.family, row.serial, later) && row.serial >= next && !row.consumed
    requires forall x | x in refresh && refresh[x].family == row.family ::
               refresh[x].consumed && refresh[x].origin == row.origin && refresh[x].connector == row.connector
                 && refresh[x].agent == row.agent
    ensures RefreshChains(refresh[token := row], later)
  {
    var after := refresh[token := row];
    forall x | x in after ensures Drawn(x, after[x].family, after[x].serial, later) && LinkOk(after, x) {
      if x != token {
        assert LinkOk(refresh, x) && Drawn(x, refresh[x].family, refresh[x].serial, next);
        if refresh[x].consumed {
          var y :| y in refresh && refresh[y].family == refresh[x].family && refresh[x].serial < refresh[y].serial;
          assert after[y] == refresh[y];
        }
      }
    }
    forall x, y | x in after && y in after && x != y ensures RefreshPair(after[x], after[y]) {
      if x != token && y != token {
        assert RefreshPair(refresh[x], refresh[y]);
      } else if x == token {
        assert Drawn(y, refresh[y].family, refresh[y].serial, next);
      } else {
        assert Drawn(x, refresh[x].family, refresh[x].serial, next);
      }
    }
  }

  lemma AccessAdded(access: map<Token, Access>, next: nat, later: nat, token: Token, row: Access)
    requires AccessChains(access, next) && next <= later && token !in access
    requires Drawn(token, row.family, row.serial, later) && row.serial >= next
    requires forall x | x in access && access[x].family == row.family :: access[x].revoked
    ensures AccessChains(access[token := row], later)
  {
    var after := access[token := row];
    forall x, y | x in after && y in after && x != y ensures AccessPair(after[x], after[y]) {
      if x != token && y != token {
        assert AccessPair(access[x], access[y]);
      } else if x == token {
        assert Drawn(y, access[y].family, access[y].serial, next);
      } else {
        assert Drawn(x, access[x].family, access[x].serial, next);
      }
    }
  }

  /** Beside an unconsumed token every other token of its family is consumed. */
  lemma OthersConsumed(refresh: map<Token, Refresh>, next: nat, token: Token, x: Token)
    requires RefreshChains(refresh, next) && token in refresh && !refresh[token].consumed
    requires x in refresh && x != token && refresh[x].family == refresh[token].family
    ensures refresh[x].consumed
  {
    assert RefreshPair(refresh[x], refresh[token]) && RefreshPair(refresh[token], refresh[x]);
  }

  /** Rotation consumes the newest link of a family and puts a new one on top. */
  lemma RotatedRefresh(s: State, token: Token)
    requires RefreshChains(s.vault.refresh, s.next) && token in s.vault.refresh && !s.vault.refresh[token].consumed
    ensures RefreshChains(RotateFamily(s, token).refresh, s.next + 2)
  {
    var row := s.vault.refresh[token];
    var revoked := RevokeFamily(s.vault, row.family, Rotated).refresh;
    RevokedRefreshChains(s.vault.refresh, revoked, s.next, s.next);
    forall x | x in revoked && x != token && revoked[x].family == row.family ensures revoked[x].consumed {
      OthersConsumed(s.vault.refresh, s.next, token, x);
    }
    RotatedOnTop(s, token, revoked);
  }

  lemma RotatedShape(s: State, token: Token, revoked: map<Token, Refresh>)
    requires token in s.vault.refresh
      && revoked == RevokeFamily(s.vault, s.vault.refresh[token].family, Rotated).refresh
    ensures token in revoked && revoked[token] == RevokedRefresh(s.vault.refresh[token], Rotated)
    ensures var row := s.vault.refresh[token];
            RotateFamily(s, token).refresh ==
              revoked[token := revoked[token].(consumed := true)]
                     [Random(s.next + 1) := NewRefresh(s, row.agent, row.connector, row.client, row.family, s.next,
                       row.origin)]
  {
  }

  lemma RotatedOnTop(s: State, token: Token, revoked: map<Token, Refresh>)
    requires token in s.vault.refresh
      && revoked == RevokeFamily(s.vault, s.vault.refresh[token].family, Rotated).refresh
    requires RefreshChains(revoked, s.next)
    requires forall x | x in revoked && x != token && revoked[x].family == s.vault.refresh[token].family ::
      revoked[x].consumed
    ensures RefreshChains(RotateFamily(s, token).refresh, s.next + 2)
  {
    var row := s.vault.refresh[token];
    var added := NewRefresh(s, row.agent, row.connector, row.client, row.family, s.next, row.origin);
    RotatedShape(s, token, revoked);
    TopConsumed(revoked, s.next, token, added, Random(s.next + 1));
  }

  lemma TopConsumed(revoked: map<Token, Refresh>, next: nat, token: Token, row: Refresh, added: Token)
    requires RefreshChains(revoked, next) && token in revoked && revoked[token].revoked && added == Random(next + 1)
    requires row.serial == next && !row.consumed && row.family == revoked[token].family
      && row.origin == revoked[token].origin
    requires row.connector == revoked[token].connector && row.agent == revoked[token].agent
    requires forall x | x in revoked && x != token && revoked[x].family == row.family :: revoked[x].consumed
    ensures RefreshChains(revoked[token := revoked[token].(consumed := true)][added := row], next + 2)
  {
    FreshRefresh(revoked, next, next + 1);
    var after := revoked[token := revoked[token].(consumed := true)][added := row];
    forall x | x in after ensures Drawn(x, after[x].family, after[x].serial, next + 2) && LinkOk(after, x) {
      if x != added {
        assert LinkOk(revoked, x) && Drawn(x, revoked[x].family, revoked[x].serial, next);
        if x == token {
          assert after[added].serial > after[x].serial;
        } else if revoked[x].consumed {
          var y :| y in revoked && revoked[y].family == revoked[x].family && revoked[x].serial < revoked[y].serial;
          assert after[y].family == revoked[y].family && after[y].serial == revoked[y].serial;
        }
      }
    }
    forall x, y | x in after && y in after && x != y ensures RefreshPair(after[x], after[y]) {
      if x != added && y != added {
        assert RefreshPair(revoked[x], revoked[y]);
      } else if x == added {
        assert RefreshLinked(revoked, next, token, y, row);
      } else {
        assert RefreshLinked(revoked, next, token, x, row);
      }
    }
  }

  ghost predicate RefreshLinked(revoked: map<Token, Refresh>, next: nat, token: Token, x: Token, row: Refresh)
    requires RefreshChains(revoked, next) && token in revoked && x in revoked
  {
    && Drawn(x, revoked[x].family, revoked[x].serial, next)
    && (x != token ==> RefreshPair(revoked[x], revoked[token]))
  }

  lemma RotatedAccess(s: State, token: Token)
    requires AccessChains(s.vault.access, s.next) && token in s.vault.refresh
    requires s.vault.refresh[token].family < s.next
    ensures AccessChains(RotateFamily(s, token).access, s.next + 2)
  {
    var row := s.vault.refresh[token];
    var revoked := RevokeFamily(s.vault, row.family, Rotated).access;
    RevokedAccessChains(s.vault.access, revoked, s.next, s.next);
    assert Random(s.next) !in revoked by { FreshAccess(revoked, s.next, s.next); }
    AccessAdded(revoked, s.next, s.next + 2, Random(s.next),
      NewAccess(s, row.agent, row.connector, row.client, row.family, s.next, row.origin));
  }

  lemma FreshRefresh(refresh: map<Token, Refresh>, next: nat, id: nat)
    requires RefreshChains(refresh, next) && id >= next
    ensures Random(id) !in refresh
  {
  }

  lemma FreshAccess(access: map<Token, Access>, next: nat, id: nat)
    requires AccessChains(access, next) && id >= next
    ensures Random(id) !in access
  {
  }

  // ----- Every step -----

  lemma RotateFamilies(s: State, token: Token)
    requires Families(s) && token in s.vault.refresh && !s.vault.refresh[token].consumed
    ensures Families(s.(vault := RotateFamily(s, token), next := s.next + 2))
  {
    assert Drawn(token, s.vault.refresh[token].family, s.vault.refresh[token].serial, s.next);
    RotatedRefresh(s, token);
    RotatedAccess(s, token);
    RotatedDerived(s, token);
  }

  lemma RotatedDerived(s: State, token: Token)
    requires DerivedConsumed(s.vault, s.pairings) && token in s.vault.refresh
    ensures DerivedConsumed(RotateFamily(s, token), s.pairings)
  {
  }

  lemma RevokedFamilies(s: State, family: FamilyId, reason: Reason)
    requires Families(s)
    ensures Families(s.(vault := RevokeFamily(s.vault, family, reason)))
  {
    FamilyRevoked(s.vault, s.next, family, reason);
  }

  lemma RefreshStepFamilies(s: State, client: Client, token: Token)
    requires Families(s)
    ensures Families(RefreshStep(s, client, token).0)
  {
    if token in s.vault.refresh {
      var row := s.vault.refresh[token];
      if row.consumed {
        RevokedFamilies(s, row.family, Replayed);
      } else {
        RevokedFamilies(s, row.family, ConnectorReplaced);
        RotateFamilies(s, token);
      }
    }
  }

  /** Revoking one connector's credentials, while pairings and ids move on. */
  lemma EndedFamilies(s: State, t: State, c: ConnectorId, reason: Reason)
    requires Families(s) && s.next <= t.next && t.vault == RevokeCredentials(s.vault, c, reason)
    requires forall p | p in s.pairings && s.pairings[p].status == Consumed ::
      p in t.pairings && t.pairings[p].status == Consumed
    ensures Families(t)
  {
    ConnectorRevoked0(s.vault, s.next, t.next, c, reason);
  }

  /** Steps that leave access and refresh tokens alone. */
  ghost predicate TokensKept(s: State, t: State) {
    && s.next <= t.next && t.vault.access == s.vault.access && t.vault.refresh == s.vault.refresh
    && forall p | p in s.pairings && s.pairings[p].status == Consumed ::
      p in t.pairings && t.pairings[p].status == Consumed
  }

  lemma TokensKeptFamilies(s: State, t: State)
    requires Families(s) && TokensKept(s, t)
    ensures Families(t)
  {
    RevokedRefreshChains(s.vault.refresh, t.vault.refresh, s.next, t.next);
    RevokedAccessChains(s.vault.access, t.vault.access, s.next, t.next);
  }

  lemma RedeemFamilies(s: State, p: PairingId, client: Client, a: Token, b: Token)
    requires Families(s) && p in s.pairings && Redeemable(s, s.pairings[p])
    requires a !in s.vault.access && b !in s.vault.refresh
    requires a.Derived? ==> a.pairing == p
    requires b.Derived? ==> b.pairing == p
    requires a.Random? ==> a.id < s.next + 3
    requires b.Random? ==> b.id < s.next + 3
    ensures Families(RedeemTokens(s, p, client, a, b))
  {
    var row := s.pairings[p];
    LinkAdded(s.vault.refresh, s.next, s.next + 3, b,
      NewRefresh(s, row.agent.value, row.connector.value, client, s.next, s.next, p)) by {
      forall x | x in s.vault.refresh ensures s.vault.refresh[x].family != s.next {
        assert Drawn(x, s.vault.refresh[x].family, s.vault.refresh[x].serial, s.next);
      }
    }
    AccessAdded(s.vault.access, s.next, s.next + 3, a,
      NewAccess(s, row.agent.value, row.connector.value, client, s.next, s.next, p)) by {
      forall x | x in s.vault.access ensures s.vault.access[x].family != s.next {
        assert Drawn(x, s.vault.access[x].family, s.vault.access[x].serial, s.next);
      }
    }
    RedeemDerived(s, p, client, a, b);
  }

  lemma RedeemDerived(s: State, p: PairingId, client: Client, a: Token, b: Token)
    requires DerivedConsumed(s.vault, s.pairings) && p in s.pairings && Redeemable(s, s.pairings[p])
    requires a.Derived? ==> a.pairing == p
    requires b.Derived? ==> b.pairing == p
    ensures var t := RedeemTokens(s, p, client, a, b); DerivedConsumed(t.vault, t.pairings)
  {
  }

  lemma ExchangeDeviceFamilies(s: State, client: Client, p: PairingId)
    requires Families(s)
    ensures Families(ExchangeDeviceStep(s, client, p).0)
  {
    if p in s.pairings {
      var row := s.pairings[p];
      if Redeemable(s, row) && row.status == Approved {
        var token := Derived(p, row.connector.value);
        RedeemFamilies(s, p, client, token, token);
      }
      forall changed: Pairing | row.status != Consumed ensures Families(SetPairing(s, p, changed)) {
        TokensKeptFamilies(s, SetPairing(s, p, changed));
      }
    }
  }

  lemma ExchangeCodeFamilies(s: State, client: Client, code: nat, redirect: nat, verifier: nat)
    requires Families(s)
    ensures Families(ExchangeCodeStep(s, client, code, redirect, verifier).0)
  {
    var t := ExchangeCodeStep(s, client, code, redirect, verifier).0;
    var found := RequestOf(s, code);
    if found.Some? && t != s {
      var p := s.requests[found.value].pairing;
      var a, b := Random(s.next + 1), Random(s.next + 2);
      FreshAccess(s.vault.access, s.next, s.next + 1);
      FreshRefresh(s.vault.refresh, s.next, s.next + 2);
      RedeemFamilies(s, p, client, a, b);
      TokensKeptFamilies(RedeemTokens(s, p, client, a, b), t);
    }
  }

  lemma DecideFamilies(s: State, p: PairingId, human: HumanId, approve: bool, target: Option<AgentId>)
    requires Families(s)
    ensures Families(DecideStep(s, p, human, approve, target))
  {
    var t := DecideStep(s, p, human, approve, target);
    if t != s {
      var hosts, agent := WithTarget(s.hosts, human, target, s.next), TargetAgent(target, s.next);
      if t.vault == s.vault {
        TokensKeptFamilies(s, t);
      } else {
        EndedFamilies(s, t, hosts.bindings[agent], ConnectorReplaced);
      }
    }
  }

  lemma EndFamilies(s: State, e: Event)
    requires Families(s) && (e.RevokeConnector? || e.DisableAgent?)
    ensures Families(Step(s, e))
  {
    match e
    case RevokeConnector(_, c) =>
      if Step(s, e) != s { EndedFamilies(s, Step(s, e), c, ConnectorRevoked); }
    case DisableAgent(_, agent, _) =>
      if Step(s, e) != s {
        if HasCurrent(s.hosts, agent) {
          EndedFamilies(s, Step(s, e), s.hosts.bindings[agent], AgentDeleted);
        } else {
          TokensKeptFamilies(s, Step(s, e));
        }
      }
  }

  lemma DeskFamilies(s: State, e: Event)
    requires Families(s) && (e.Register? || e.SetOwner? || e.Tick? || e.CreatePairing? || e.StartAuthorization?)
    requires forall p | p in s.pairings :: p < s.next
    ensures Families(Step(s, e))
  {
    TokensKeptFamilies(s, Step(s, e));
  }

  lemma IssueKeyKeepsTokens(s: State, p: PairingId)
    ensures TokensKept(s, IssueKeyStep(s, p).0)
  {
  }

  lemma CompleteKeepsTokens(s: State, r: RequestId, human: HumanId)
    ensures TokensKept(s, CompleteStep(s, r, human).0)
  {
  }

  lemma RotateKeepsTokens(s: State, agent: AgentId, key: KeyId)
    ensures TokensKept(s, RotateStep(s, agent, key).0)
  {
  }

  lemma KeptFamilies(s: State, e: Event)
    requires Families(s) && (e.IssueKey? || e.Complete? || e.Rotate?)
    ensures Families(Step(s, e))
  {
    match e
    case IssueKey(p) => IssueKeyKeepsTokens(s, p);
    case Complete(r, human) => CompleteKeepsTokens(s, r, human);
    case Rotate(agent, key) => RotateKeepsTokens(s, agent, key);
    TokensKeptFamilies(s, Step(s, e));
  }

  lemma StepFamilies(s: State, e: Event)
    requires Families(s)
    requires forall p | p in s.pairings :: p < s.next
    ensures Families(Step(s, e))
  {
    match e
    case Decide(p, human, approve, target) => DecideFamilies(s, p, human, approve, target);
    case ExchangeDevice(client, p) => ExchangeDeviceFamilies(s, client, p);
    case ExchangeCode(client, code, redirect, verifier) => ExchangeCodeFamilies(s, client, code, redirect, verifier);
    case RefreshTokens(client, token) => RefreshStepFamilies(s, client, token);
    case RevokeConnector(_, _) => EndFamilies(s, e);
    case DisableAgent(_, _, _) => EndFamilies(s, e);
    case IssueKey(_) => KeptFamilies(s, e);
    case Complete(_, _) => KeptFamilies(s, e);
    case Rotate(_, _) => KeptFamilies(s, e);
    case _ => DeskFamilies(s, e);
  }

  /** Pairing ids are drawn from the counter, in every run. */
  lemma StepDrawn(s: State, e: Event)
    requires forall p | p in s.pairings :: p < s.next
    ensures forall p | p in Step(s, e).pairings :: p < Step(s, e).next
    ensures s.next <= Step(s, e).next
  {
    match e
    case Decide(_, _, _, _) =>
    case IssueKey(_) =>
    case ExchangeDevice(_, _) =>
    case ExchangeCode(_, _, _, _) =>
    case Complete(_, _) =>
    case RevokeConnector(_, _) =>
    case DisableAgent(_, _, _) =>
    case _ =>
  }

  lemma {:induction false} RunFamilies(s: State, events: seq<Event>)
    requires Families(s) && forall p | p in s.pairings :: p < s.next
    ensures Families(Run(s, events)) && forall p | p in Run(s, events).pairings :: p < Run(s, events).next
    decreases |events|
  {
    if events != [] {
      StepFamilies(s, events[0]);
      StepDrawn(s, events[0]);
      RunFamilies(Step(s, events[0]), events[1..]);
    }
  }

  /** Nothing of the family is unrevoked. */
  ghost predicate Dead(v: Vault, family: FamilyId) {
    && (forall x | x in v.access && v.access[x].family == family :: v.access[x].revoked)
    && (forall x | x in v.refresh && v.refresh[x].family == family :: v.refresh[x].revoked)
  }

  /**
    In every run each family is a linear chain: all links but the newest are consumed and
    revoked, and at most one refresh and one access token of it are unrevoked.
   */
  lemma FamiliesAreChains(settings: Settings, now: int, events: seq<Event>)
    ensures var v := Run(Start(settings, now), events).vault;
            && (forall x, y | x in v.refresh && y in v.refresh && v.refresh[x].family == v.refresh[y].family
                              && v.refresh[x].serial < v.refresh[y].serial ::
                  v.refresh[x].consumed && v.refresh[x].revoked)
            && (forall x | x in v.refresh && v.refresh[x].consumed :: Succeeded(v.refresh, x))
            && (forall x, y | x in v.refresh && y in v.refresh && x != y
              && v.refresh[x].family == v.refresh[y].family ::
                  v.refresh[x].revoked || v.refresh[y].revoked)
            && (forall x, y | x in v.access && y in v.access && x != y && v.access[x].family == v.access[y].family ::
                  v.access[x].revoked || v.access[y].revoked)
  {
    RunFamilies(Start(settings, now), events);
    var v := Run(Start(settings, now), events).vault;
    forall x, y | x in v.refresh && y in v.refresh && x != y && v.refresh[x].family == v.refresh[y].family
      ensures v.refresh[x].serial < v.refresh[y].serial ==> v.refresh[x].consumed && v.refresh[x].revoked
      ensures v.refresh[x].revoked || v.refresh[y].revoked
    {
      assert LinkOk(v.refresh, x) && LinkOk(v.refresh, y);
      assert RefreshPair(v.refresh[x], v.refresh[y]) && RefreshPair(v.refresh[y], v.refresh[x]);
    }
    forall x, y | x in v.access && y in v.access && x != y && v.access[x].family == v.access[y].family
      ensures v.access[x].revoked || v.access[y].revoked
    {
      assert AccessPair(v.access[x], v.access[y]) && AccessPair(v.access[y], v.access[x]);
    }
    forall x | x in v.refresh && v.refresh[x].consumed ensures Succeeded(v.refresh, x) { assert LinkOk(v.refresh, x); }
  }

  /** Presenting a consumed token is refused and leaves its family with nothing unrevoked. */
  lemma ReplayKillsFamily(s: State, client: Client, token: Token)
    requires token in s.vault.refresh && s.vault.refresh[token].client == client && s.vault.refresh[token].consumed
    ensures var (t, answer) := RefreshStep(s, client, token);
            answer == Invalid && Dead(t.vault, s.vault.refresh[token].family)
  {
  }

  lemma RefreshKeepsDead(s: State, client: Client, token: Token, family: FamilyId)
    requires Dead(s.vault, family)
    ensures Dead(RefreshStep(s, client, token).0.vault, family)
  {
  }

  lemma RedeemKeepsDead(s: State, e: Event, family: FamilyId)
    requires Dead(s.vault, family) && family < s.next && (e.ExchangeDevice? || e.ExchangeCode?)
    ensures Dead(Step(s, e).vault, family)
  {
    match e
    case ExchangeDevice(_, _) =>
    case ExchangeCode(_, _, _, _) =>
  }

  lemma EndKeepsDead(s: State, e: Event, family: FamilyId)
    requires Dead(s.vault, family) && (e.Decide? || e.RevokeConnector? || e.DisableAgent?)
    ensures Dead(Step(s, e).vault, family)
  {
    match e
    case Decide(_, _, _, _) =>
    case RevokeConnector(_, _) =>
    case DisableAgent(_, _, _) =>
  }

  /** A dead family never regains a live token. */
  lemma DeadStays(s: State, e: Event, family: FamilyId)
    requires family < s.next && Dead(s.vault, family)
    ensures Dead(Step(s, e).vault, family) && family < Step(s, e).next
  {
    StepNext(s, e);
    match e
    case RefreshTokens(client, token) => RefreshKeepsDead(s, client, token, family);
    case ExchangeDevice(_, _) => RedeemKeepsDead(s, e, family);
    case ExchangeCode(_, _, _, _) => RedeemKeepsDead(s, e, family);
    case Decide(_, _, _, _) => EndKeepsDead(s, e, family);
    case RevokeConnector(_, _) => EndKeepsDead(s, e, family);
    case DisableAgent(_, _, _) => EndKeepsDead(s, e, family);
    case IssueKey(_) =>
    case _ =>
  }

  lemma StepNext(s: State, e: Event)
    ensures s.next <= Step(s, e).next
  {
    match e
    case Decide(_, _, _, _) =>
    case IssueKey(_) =>
    case ExchangeDevice(_, _) =>
    case ExchangeCode(_, _, _, _) =>
    case Complete(_, _) =>
    case _ =>
  }

  lemma {:induction false} DeadForever(s: State, events: seq<Event>, family: FamilyId)
    requires family < s.next && Dead(s.vault, family)
    ensures Dead(Run(s, events).vault, family)
    decreases |events|
  {
    if events != [] {
      DeadStays(s, events[0], family);
      DeadForever(Step(s, events[0]), events[1..], family);
    }
  }
}
