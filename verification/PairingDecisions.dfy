/** What a human's decision on a pairing does, and what every later credential goes back to. */
module PairingDecisions {
  import opened Prelude
  import opened Credentials
  import opened CredentialSafety
  import opened RefreshFamilies
  import opened PairingLineage
  import opened Redemptions

  // ----- Every credential goes back to an approval -----

  /** The pairing is open to this human's decision. */
  ghost predicate OpenTo(s: State, p: PairingId) {
    p in s.pairings && s.pairings[p].status == Pending && s.now < s.pairings[p].expiresAt
  }

  /** The agent that an approval gives: the active one of that human that was chosen, or one not there before. */
  ghost predicate Given(h: Hosts, human: HumanId, target: Option<AgentId>, agent: AgentId) {
    match target
    case Some(chosen) =>
      agent == chosen && chosen in h.agents && h.agents[chosen].active && h.agents[chosen].owner == Some(human)
    case None => agent !in h.agents
  }

  /** The row is what this decision, taken in this state, made of the pairing or led to. */
  ghost predicate FromDecision(s: State, e: Event, p: PairingId, row: Pairing) {
    && e.Decide? && e.pairing == p && OpenTo(s, p) && row.decidedBy == Some(e.human)
    && if e.approve
       then row.status in {Approved, Consumed, Expired} && row.agent.Some? && row.connector.Some?
         && Given(s.hosts, e.human, e.target, row.agent.value)
       else row.status == Denied && row.agent == None && row.connector == None
  }

  ghost predicate Undecided(row: Pairing) {
    row.status in {Pending, Expired} && row.decidedBy == None && row.agent == None && row.connector == None
  }

  ghost predicate DecidedAt(start: State, events: seq<Event>, i: nat, p: PairingId, row: Pairing) {
    i < |events| && FromDecision(Run(start, events[..i]), events[i], p, row)
  }

  /** Nothing but its status and its polls changes of a pairing that is not decided by this step. */
  ghost predicate Moves(before: Pairing, after: Pairing) {
    && after.decidedBy == before.decidedBy && after.agent == before.agent && after.connector == before.connector
    && (after.status == before.status
        || (before.status == Pending && after.status == Expired)
        || (before.status == Approved && after.status in {Consumed, Expired}))
  }

  ghost predicate StepOrigin(s: State, e: Event, p: PairingId) {
    && p in Step(s, e).pairings
    && var row := Step(s, e).pairings[p];
    || FromDecision(s, e, p, row)
    || (p in s.pairings && Moves(s.pairings[p], row))
    || (p !in s.pairings && Undecided(row))
  }

  lemma DecideOrigin(s: State, e: Event, p: PairingId)
    requires e.Decide? && p in Step(s, e).pairings && HostsOk(s.hosts, s.next)
    requires p in s.pairings && s.pairings[p].status == Pending ==> Undecided(s.pairings[p])
    ensures StepOrigin(s, e, p)
  {
    UnusedAgent(s.hosts, s.next);
  }

  lemma RedemptionOrigin(s: State, e: Event, p: PairingId)
    requires e.IssueKey? || e.ExchangeDevice? || e.ExchangeCode?
    requires p in Step(s, e).pairings
    ensures StepOrigin(s, e, p)
  {
    match e
    case IssueKey(q) =>
    case ExchangeDevice(client, q) =>
    case ExchangeCode(client, code, redirect, verifier) =>
  }

  lemma OtherOrigin(s: State, e: Event, p: PairingId)
    requires !e.Decide? && !e.IssueKey? && !e.ExchangeDevice? && !e.ExchangeCode?
    requires p in Step(s, e).pairings && forall q | q in s.pairings :: q < s.next
    ensures StepOrigin(s, e, p)
  {
    match e
    case Complete(_, _) =>
    case RefreshTokens(_, _) =>
    case RevokeConnector(_, _) =>
    case Rotate(_, _) =>
    case DisableAgent(_, _, _) =>
    case _ =>
  }

  lemma StepOrigins(s: State, e: Event, p: PairingId)
    requires HostsOk(s.hosts, s.next) && p in Step(s, e).pairings && forall q | q in s.pairings :: q < s.next
    requires p in s.pairings && s.pairings[p].status == Pending ==> Undecided(s.pairings[p])
    ensures StepOrigin(s, e, p)
  {
    if e.Decide? {
      DecideOrigin(s, e, p);
    } else if e.IssueKey? || e.ExchangeDevice? || e.ExchangeCode? {
      RedemptionOrigin(s, e, p);
    } else {
      OtherOrigin(s, e, p);
    }
  }

  /** The row is undecided, or some decision of the run led to it. */
  ghost predicate Explained(start: State, events: seq<Event>, p: PairingId, row: Pairing) {
    Undecided(row) || exists i: nat :: DecidedAt(start, events, i, p, row)
  }

  lemma FromEarlier(start: State, events: seq<Event>, p: PairingId, before: Pairing, after: Pairing)
    requires events != [] && Explained(start, events[..|events| - 1], p, before) && Moves(before, after)
    ensures Explained(start, events, p, after)
  {
    var init := events[..|events| - 1];
    if i: nat :| DecidedAt(start, init, i, p, before) {
      assert events[..i] == init[..i] && events[i] == init[i];
      assert DecidedAt(start, events, i, p, after);
    }
  }

  lemma RunLast(s: State, events: seq<Event>)
    requires events != []
    ensures Run(s, events) == Step(Run(s, events[..|events| - 1]), events[|events| - 1])
    decreases |events|
  {
    var init, last := events[..|events| - 1], events[|events| - 1];
    if |events| == 1 {
      assert events[1..] == [] && init == [];
    } else {
      RunLast(Step(s, events[0]), events[1..]);
      assert events[1..][..|events[1..]| - 1] == init[1..];
    }
  }

  lemma {:induction false} RunExplained(settings: Settings, now: int, events: seq<Event>, p: PairingId)
    requires p in Run(Start(settings, now), events).pairings
    ensures Explained(Start(settings, now), events, p, Run(Start(settings, now), events).pairings[p])
    decreases |events|
  {
    var start := Start(settings, now);
    if events != [] {
      var init, e := events[..|events| - 1], events[|events| - 1];
      var s := Run(start, init);
      RunLast(start, events);
      assert HostsOk(s.hosts, s.next) && forall q | q in s.pairings :: q < s.next by { RunTraced(start, init); }
      if p in s.pairings { RunExplained(settings, now, init, p); }
      StepOrigins(s, e, p);
      var row := Step(s, e).pairings[p];
      if FromDecision(s, e, p, row) {
        assert DecidedAt(start, events, |init|, p, row);
      } else if p in s.pairings && Moves(s.pairings[p], row) {
        FromEarlier(start, events, p, s.pairings[p], row);
      }
    }
  }

  /** In every run an approved or redeemed pairing was approved, and a denied one denied, by who is said to have. */
  lemma DecisionsWereMade(settings: Settings, now: int, events: seq<Event>, p: PairingId)
    requires p in Run(Start(settings, now), events).pairings
    requires Run(Start(settings, now), events).pairings[p].status in {Approved, Consumed, Denied}
    ensures var row := Run(Start(settings, now), events).pairings[p];
            exists i: nat :: DecidedAt(Start(settings, now), events, i, p, row)
              && (events[i].approve <==> row.status != Denied)
  {
    RunExplained(settings, now, events, p);
    var row := Run(Start(settings, now), events).pairings[p];
    var i: nat :| DecidedAt(Start(settings, now), events, i, p, row);
    assert events[i].approve <==> row.status != Denied;
  }

  /** The approval, by a human who owned the agent or got a new one, that a credential goes back to. */
  ghost predicate ApprovedAt(start: State, events: seq<Event>, i: nat, p: PairingId, agent: AgentId, c: ConnectorId) {
    && i < |events| && events[i].Decide? && events[i].approve && events[i].pairing == p
    && OpenTo(Run(start, events[..i]), p)
    && Given(Run(start, events[..i]).hosts, events[i].human, events[i].target, agent)
    && p in Run(start, events).pairings
    && var row := Run(start, events).pairings[p];
    row.decidedBy == Some(events[i].human) && row.agent == Some(agent) && row.connector == Some(c)
  }

  lemma OriginWasApproved(settings: Settings, now: int, events: seq<Event>, p: PairingId, agent: AgentId,
      c: ConnectorId, oauth: bool)
    requires OriginOk(Run(Start(settings, now), events).pairings, p, agent, c, oauth)
    ensures exists i: nat :: ApprovedAt(Start(settings, now), events, i, p, agent, c)
  {
    var row := Run(Start(settings, now), events).pairings[p];
    DecisionsWereMade(settings, now, events, p);
    var i: nat :| DecidedAt(Start(settings, now), events, i, p, row) && (events[i].approve <==> row.status != Denied);
    assert ApprovedAt(Start(settings, now), events, i, p, agent, c);
  }

  /** In every run each API key and each refresh token, revoked or not, goes back to such an approval. */
  lemma EveryCredentialWasApproved(settings: Settings, now: int, events: seq<Event>)
    ensures var start := Start(settings, now); var v := Run(start, events).vault;
            && (forall k | k in v.apiKeys :: exists i: nat ::
                  ApprovedAt(start, events, i, v.apiKeys[k].origin, v.apiKeys[k].agent, v.apiKeys[k].connector))
            && (forall x | x in v.refresh :: exists i: nat ::
                  ApprovedAt(start, events, i, v.refresh[x].origin, v.refresh[x].agent, v.refresh[x].connector))
  {
    var s := Run(Start(settings, now), events);
    assert Lineage(s) by { RunTraced(Start(settings, now), events); }
    forall k | k in s.vault.apiKeys ensures exists i: nat :: ApprovedAt(Start(settings, now), events, i,
        s.vault.apiKeys[k].origin, s.vault.apiKeys[k].agent, s.vault.apiKeys[k].connector)
    {
      var row := s.vault.apiKeys[k];
      OriginWasApproved(settings, now, events, row.origin, row.agent, row.connector, false);
    }
    forall x | x in s.vault.refresh ensures exists i: nat :: ApprovedAt(Start(settings, now), events, i,
        s.vault.refresh[x].origin, s.vault.refresh[x].agent, s.vault.refresh[x].connector)
    {
      var row := s.vault.refresh[x];
      assert RefreshOrigin(s.pairings, x, row);
      OriginWasApproved(settings, now, events, row.origin, row.agent, row.connector, true);
    }
  }

  // ----- What a decision does -----

  /** A pairing is decided only while it is pending, unexpired, and the approved agent is the human's to give. */
  ghost predicate Approvable(s: State, p: PairingId, human: HumanId, target: Option<AgentId>) {
    OpenTo(s, p) && (target.Some? ==> Given(s.hosts, human, target, target.value))
  }

  /** A denial writes the pairing row and nothing else. */
  lemma DenialOnlyDenies(s: State, p: PairingId, human: HumanId, target: Option<AgentId>)
    requires OpenTo(s, p) && Undecided(s.pairings[p])
    ensures Step(s, Decide(p, human, false, target))
              == s.(pairings := s.pairings[p := s.pairings[p].(status := Denied, decidedBy := Some(human))])
  {
  }

  /** Every credential of the connector is revoked, and of no other one. */
  ghost predicate Ended(before: Vault, after: Vault, c: ConnectorId) {
    && after.apiKeys.Keys == before.apiKeys.Keys && after.access.Keys == before.access.Keys
    && after.refresh.Keys == before.refresh.Keys
    && (forall k | k in before.apiKeys ::
          after.apiKeys[k]
            == before.apiKeys[k].(revoked := before.apiKeys[k].revoked || before.apiKeys[k].connector == c))
    && (forall x | x in before.access ::
          after.access[x] == before.access[x].(revoked := before.access[x].revoked || before.access[x].connector == c))
    && (forall x | x in before.refresh ::
          after.refresh[x].revoked == (before.refresh[x].revoked || before.refresh[x].connector == c)
          && after.refresh[x]
            == before.refresh[x].(revoked := after.refresh[x].revoked, reason := after.refresh[x].reason)
          && (before.refresh[x].revoked ==> after.refresh[x].reason == before.refresh[x].reason))
  }

  /** The connector `c` is new, active and bound to the agent; the one it takes the place of is replaced. */
  ghost predicate Connected(before: Hosts, after: Hosts, agent: AgentId, c: ConnectorId) {
    && c !in before.connectors && after.bindings == before.bindings[agent := c]
    && after.connectors.Keys == before.connectors.Keys + {c}
    && after.connectors[c] == Connector(agent, Active, false)
    && forall b | b in before.connectors ::
      after.connectors[b] == if agent in before.bindings && before.bindings[agent] == b
        then before.connectors[b].(status := Replaced) else before.connectors[b]
  }

  /** What an approval of an open pairing does: the agent gets a new connector, and the pairing carries both. */
  ghost predicate ApprovalOf(s: State, t: State, p: PairingId, human: HumanId, target: Option<AgentId>, agent: AgentId,
      c: ConnectorId) {
    && Given(s.hosts, human, target, agent)
    && t.hosts.agents == (if target.Some? then s.hosts.agents else s.hosts.agents[agent := Agent(true, Some(human))])
    && Connected(s.hosts, t.hosts, agent, c)
    && (if agent in s.hosts.bindings then Ended(s.vault, t.vault, s.hosts.bindings[agent]) else t.vault == s.vault)
    && t.requests == s.requests && t.now == s.now && p in s.pairings
    && t.pairings == s.pairings[p := s.pairings[p].(
      status := Approved, decidedBy := Some(human), agent := Some(agent), connector := Some(c),
      expiresAt := s.now + s.settings.pairingTtl)]
  }

  lemma ApprovalConnects(s: State, p: PairingId, human: HumanId, target: Option<AgentId>)
    returns (agent: AgentId, c: ConnectorId)
    requires HostsOk(s.hosts, s.next) && Approvable(s, p, human, target) && Undecided(s.pairings[p])
    ensures ApprovalOf(s, Step(s, Decide(p, human, true, target)), p, human, target, agent, c)
  {
    agent, c := TargetAgent(target, s.next), s.next + 1;
    UnusedAgent(s.hosts, s.next);
    if agent in s.hosts.bindings { assert BindingOk(s.hosts, agent); }
  }

  /** Any other decision changes nothing, except that a lapsed pairing is marked expired. */
  lemma OtherDecisionsDoNothing(s: State, p: PairingId, human: HumanId, approve: bool, target: Option<AgentId>)
    requires p in s.pairings ==> !OpenTo(s, p) || (approve && !Approvable(s, p, human, target))
    ensures var t := Step(s, Decide(p, human, approve, target));
            || t == s
            || (p in s.pairings && s.pairings[p].status in {Pending, Approved} && s.pairings[p].expiresAt <= s.now
                && t == s.(pairings := s.pairings[p := s.pairings[p].(status := Expired)]))
  {
  }

  /** A decision call, whole: a denial, an approval, or nothing but the mark of a lapsed pairing. */
  ghost predicate Decision(s: State, t: State, p: PairingId, human: HumanId, approve: bool, target: Option<AgentId>) {
    if !approve && OpenTo(s, p) then
      t == s.(pairings := s.pairings[p := s.pairings[p].(status := Denied, decidedBy := Some(human))])
    else if approve && Approvable(s, p, human, target) then
      exists agent, c :: ApprovalOf(s, t, p, human, target, agent, c)
    else
      || t == s
      || (p in s.pairings && s.pairings[p].status in {Pending, Approved} && s.pairings[p].expiresAt <= s.now
          && t == s.(pairings := s.pairings[p := s.pairings[p].(status := Expired)]))
  }

  /** As in every reachable state. */
  ghost predicate Sound(s: State, p: PairingId) {
    HostsOk(s.hosts, s.next) && (OpenTo(s, p) ==> Undecided(s.pairings[p]))
  }

  lemma DecisionIsWhole(s: State, p: PairingId, human: HumanId, approve: bool, target: Option<AgentId>)
    requires Sound(s, p)
    ensures Decision(s, DecideStep(s, p, human, approve, target), p, human, approve, target)
  {
    if !approve && OpenTo(s, p) {
      DenialOnlyDenies(s, p, human, target);
    } else if approve && Approvable(s, p, human, target) {
      var agent, c := ApprovalConnects(s, p, human, target);
    } else {
      OtherDecisionsDoNothing(s, p, human, approve, target);
    }
  }
}
