/** What a human may access after each call, said of the ownership and grant tables. */
module AccessLaws {
  import opened Prelude
  import opened Ownership

  datatype Entry = Entry(agent: AgentId, role: Role)

  /** An owner has a row in the ownership table, any other role one in the grant table. */
  predicate HasAccess(s: State, human: HumanId, e: Entry) {
    if e.role == Owner then e.agent in s.agents && e.agent in s.titles && s.titles[e.agent].human == human
    else (human, e.agent) in s.grants && s.grants[(human, e.agent)] == e.role
  }

  /** The role a human has on an agent, if any. */
  function RoleOn(s: State, human: HumanId, agent: AgentId): Option<Role> {
    if HasAccess(s, human, Entry(agent, Owner)) then Some(Owner)
    else if (human, agent) in s.grants then Some(s.grants[(human, agent)])
    else None
  }

  lemma RoleIsEntry(s: State, human: HumanId, e: Entry)
    requires Inv(s)
    ensures HasAccess(s, human, e) <==> RoleOn(s, human, e.agent) == Some(e.role)
  {
    var g := (human, e.agent);
    assert g in s.grants ==> !Owns(s, g.0, g.1);
  }

  ghost predicate Known(s: State, human: HumanId, agent: AgentId) {
    human in s.defaults && agent in s.agents
  }

  /** The role on an agent after a call; only one human owns an agent at a time. */
  ghost function RoleAfter(s: State, e: Event, human: HumanId, agent: AgentId): Option<Role> {
    var before := RoleOn(s, human, agent);
    match e
    case Grant(h, a, role) =>
      if a != agent || !Known(s, h, a) then before
      else if h == human then Some(role)
      else if role == Owner && before == Some(Owner) then None
      else before
    case Revoke(h, a) => if h == human && a == agent && Known(s, h, a) then None else before
    case ApproveNew(h, a, _) =>
      if h == human && a == agent && h in s.defaults && a !in s.agents then Some(Owner) else before
    case _ => before
  }

  lemma GrantMoves(s: State, h: HumanId, a: AgentId, role: Role, human: HumanId, agent: AgentId)
    requires Inv(s)
    ensures RoleOn(GrantStep(s, h, a, role), human, agent) == RoleAfter(s, Grant(h, a, role), human, agent)
  {
    var g := (human, agent);
    assert g in s.grants ==> g.1 in s.agents && !Owns(s, g.0, g.1);
  }

  lemma RevokeMoves(s: State, h: HumanId, a: AgentId, human: HumanId, agent: AgentId)
    requires Inv(s)
    ensures RoleOn(RevokeStep(s, h, a), human, agent) == RoleAfter(s, Revoke(h, a), human, agent)
  {
    var g := (human, agent);
    assert g in s.grants ==> g.1 in s.agents && !Owns(s, g.0, g.1);
  }

  lemma OthersMove(s: State, e: Event, human: HumanId, agent: AgentId)
    requires Inv(s) && !e.Grant? && !e.Revoke?
    ensures RoleOn(Step(s, e), human, agent) == RoleAfter(s, e, human, agent)
  {
    var g := (human, agent);
    assert g in s.grants ==> g.1 in s.agents;
    assert agent in s.titles ==> agent in s.agents;
    match e
    case SetDefault(_, _) =>
    case Disable(_, _, _) =>
    case ApproveExisting(_, _) =>
    case ApproveNew(_, _, _) =>
    case _ =>
  }

  /** Every call moves every human's role on every agent exactly so. */
  lemma RolesMove(s: State, e: Event, human: HumanId, agent: AgentId)
    requires Inv(s)
    ensures RoleOn(Step(s, e), human, agent) == RoleAfter(s, e, human, agent)
  {
    match e
    case Grant(h, a, role) => GrantMoves(s, h, a, role, human, agent);
    case Revoke(h, a) => RevokeMoves(s, h, a, human, agent);
    case _ => OthersMove(s, e, human, agent);
  }

  // ----- Every run -----

  /** This call gave the human the role. */
  ghost predicate GivesRole(s: State, e: Event, human: HumanId, agent: AgentId, role: Role) {
    match e
    case Grant(h, a, given) => h == human && a == agent && given == role && Known(s, h, a)
    case ApproveNew(h, a, _) => h == human && a == agent && role == Owner && h in s.defaults && a !in s.agents
    case _ => false
  }

  /** This call took the human's role, or gave another one. */
  ghost predicate TakesRole(s: State, e: Event, human: HumanId, agent: AgentId, role: Role) {
    match e
    case Grant(h, a, given) =>
      a == agent && Known(s, h, a) && if h == human then given != role else given == Owner && role == Owner
    case Revoke(h, a) => h == human && a == agent && Known(s, h, a)
    case _ => false
  }

  /** Call `i` gave the role, and no later call of the run took it. */
  ghost predicate GivenAt(start: State, events: seq<Event>, i: nat, human: HumanId, agent: AgentId, role: Role) {
    && i < |events| && GivesRole(Run(start, events[..i]), events[i], human, agent, role)
    && forall j | i < j < |events| :: !TakesRole(Run(start, events[..j]), events[j], human, agent, role)
  }

  lemma {:induction false} RunSnoc(s: State, events: seq<Event>, e: Event)
    ensures Run(s, events + [e]) == Step(Run(s, events), e)
    decreases |events|
  {
    if events == [] {
      assert events + [e] == [e] && [e][1..] == [];
    } else {
      assert (events + [e])[1..] == events[1..] + [e];
      RunSnoc(Step(s, events[0]), events[1..], e);
    }
  }

  lemma GivenBefore(start: State, init: seq<Event>, e: Event, i: nat, human: HumanId, agent: AgentId, role: Role)
    requires i < |init|
    ensures GivenAt(start, init + [e], i, human, agent, role)
            <==> GivenAt(start, init, i, human, agent, role) && !TakesRole(Run(start, init), e, human, agent, role)
  {
    var events := init + [e];
    assert events[..i] == init[..i] && events[i] == init[i];
    assert events[..|init|] == init && events[|init|] == e;
    assert forall j | i < j < |init| :: events[..j] == init[..j] && events[j] == init[j];
  }

  lemma GivenLast(start: State, init: seq<Event>, e: Event, human: HumanId, agent: AgentId, role: Role)
    ensures GivenAt(start, init + [e], |init|, human, agent, role)
            <==> GivesRole(Run(start, init), e, human, agent, role)
  {
    assert (init + [e])[..|init|] == init && (init + [e])[|init|] == e;
  }

  lemma RoleMoves(s: State, e: Event, human: HumanId, agent: AgentId, role: Role)
    requires Inv(s)
    ensures RoleOn(Step(s, e), human, agent) == Some(role) <==>
              GivesRole(s, e, human, agent, role)
              || (RoleOn(s, human, agent) == Some(role) && !TakesRole(s, e, human, agent, role))
  {
    RolesMove(s, e, human, agent);
  }

  /**
    After any sequence of calls a human has a role on an agent if and only if a grant gave it, or
    an approved pairing made them the owner of a new agent, and no later call took it or gave
    another: a revocation, another role, or another owner.
   */
  lemma {:induction false} AccessIffGiven(now: int, events: seq<Event>, human: HumanId, agent: AgentId, role: Role)
    ensures HasAccess(Run(Start(now), events), human, Entry(agent, role)) <==>
              exists i: nat :: GivenAt(Start(now), events, i, human, agent, role)
    decreases |events|
  {
    var start := Start(now);
    RunInv(start, events);
    RoleIsEntry(Run(start, events), human, Entry(agent, role));
    if events != [] {
      var init, e := events[..|events| - 1], events[|events| - 1];
      assert events == init + [e];
      RunSnoc(start, init, e);
      RunInv(start, init);
      RoleMoves(Run(start, init), e, human, agent, role);
      RoleIsEntry(Run(start, init), human, Entry(agent, role));
      AccessIffGiven(now, init, human, agent, role);
      LastGiven(start, init, e, human, agent, role);
    }
  }

  lemma LastGiven(start: State, init: seq<Event>, e: Event, human: HumanId, agent: AgentId, role: Role)
    ensures (exists i: nat :: GivenAt(start, init + [e], i, human, agent, role)) <==>
              GivesRole(Run(start, init), e, human, agent, role)
              || ((exists i: nat :: GivenAt(start, init, i, human, agent, role))
                && !TakesRole(Run(start, init), e, human, agent, role))
  {
    GivenLast(start, init, e, human, agent, role);
    if i: nat :| GivenAt(start, init + [e], i, human, agent, role) && i < |init| {
      GivenBefore(start, init, e, i, human, agent, role);
    }
    if i: nat :| GivenAt(start, init, i, human, agent, role) {
      GivenBefore(start, init, e, i, human, agent, role);
    }
  }

  // ----- One call -----

  /** The human's entries for other agents, and every other human's, are what they were. */
  ghost predicate OnlyAccess(s: State, t: State, human: HumanId, agent: AgentId) {
    && (forall e: Entry | e.agent != agent :: HasAccess(t, human, e) <==> HasAccess(s, human, e))
    && (forall h, e: Entry | h != human :: HasAccess(t, h, e) <==> HasAccess(s, h, e))
  }

  /** Addresses and activity of agents are untouched. */
  ghost predicate SameAgents(s: State, t: State) {
    && t.agents.Keys == s.agents.Keys
    && forall a | a in s.agents ::
      t.agents[a].address == s.agents[a].address && t.agents[a].active == s.agents[a].active
  }

  /** The human has this role on the agent and no other; an owner takes the agent from whoever owned it. */
  ghost predicate Granted(s: State, t: State, human: HumanId, agent: AgentId, role: Role) {
    && (forall e: Entry | e.agent == agent :: HasAccess(t, human, e) <==> e.role == role)
    && (forall e: Entry | e.agent != agent :: HasAccess(t, human, e) <==> HasAccess(s, human, e))
    && (forall h, e: Entry | h != human ::
          HasAccess(t, h, e) <==> HasAccess(s, h, e) && !(role == Owner && e == Entry(agent, Owner)))
    && (role == Owner ==> agent in t.titles && t.titles[agent].assignedAt == s.now)
    && SameAgents(s, t) && t.now == s.now
  }

  lemma GrantGives(s: State, human: HumanId, agent: AgentId, role: Role)
    ensures if Known(s, human, agent) then Granted(s, GrantStep(s, human, agent, role), human, agent, role)
            else GrantStep(s, human, agent, role) == s
  {
  }

  /** No role of the human on the agent is left. */
  lemma RevokeRemoves(s: State, human: HumanId, agent: AgentId)
    ensures var t := RevokeStep(s, human, agent);
            if Known(s, human, agent)
            then
              && (forall e: Entry | e.agent == agent :: !HasAccess(t, human, e)) && OnlyAccess(s, t, human, agent)
              && SameAgents(s, t) && t.now == s.now
            else t == s
  {
  }

  /** The human owns this agent, and it is active. */
  ghost predicate OwnerOfActive(s: State, human: HumanId, agent: AgentId) {
    agent in s.agents && s.agents[agent].active && HasAccess(s, human, Entry(agent, Owner))
  }

  lemma DefaultIsSet(s: State, human: HumanId, agent: AgentId)
    ensures SetDefaultStep(s, human, agent)
              == if human in s.defaults && OwnerOfActive(s, human, agent)
                 then s.(defaults := s.defaults[human := Some(agent)]) else s
  {
  }

  /** The agent is inactive and only the human's default may move; who has access stays as it was. */
  lemma DisableInactivates(s: State, human: HumanId, agent: AgentId, completes: bool)
    ensures var t := DisableStep(s, human, agent, completes);
            if human in s.defaults && OwnerOfActive(s, human, agent) && completes
            then
              && t == s.(agents := s.agents[agent := s.agents[agent].(active := false)], defaults := t.defaults)
              && t.defaults.Keys == s.defaults.Keys && t.defaults[human] != Some(agent)
              && forall h | h in s.defaults && h != human :: t.defaults[h] == s.defaults[h]
            else t == s
  {
    if human in s.defaults && OwnerOfActive(s, human, agent) { ReplacementIffOwner(SetInactive(s, agent), human); }
  }

  /** A new agent is active and the human's own, and their default if they had none. */
  lemma PairingNewOwns(s: State, human: HumanId, agent: AgentId, address: nat)
    ensures var t := ApproveNewStep(s, human, agent, address);
            if human in s.defaults && agent !in s.agents
            then
              && t.agents == s.agents[agent := Agent(address, true, Some(human))]
              && t.titles == s.titles[agent := Title(human, s.now)] && t.grants == s.grants && t.now == s.now
              && t.defaults == s.defaults[human :=
                if s.defaults[human].Some? then s.defaults[human] else Some(agent)]
            else t == s
  {
  }

  // ----- Which agent answers by default -----

  /** Of two agents the one assigned earlier comes first, then the one of the lower address, then of the lower id. */
  ghost predicate Sooner(s: State, a: AgentId, b: AgentId) {
    && a in s.agents && a in s.titles && b in s.agents && b in s.titles
    && var (x, y) := (s.titles[a].assignedAt, s.titles[b].assignedAt);
    && x <= y
    && (x == y ==> s.agents[a].address <= s.agents[b].address)
    && (x == y && s.agents[a].address == s.agents[b].address ==> a <= b)
  }

  /** The earliest of the human's own active agents. */
  ghost predicate Earliest(s: State, human: HumanId, a: AgentId) {
    OwnerOfActive(s, human, a) && forall b | OwnerOfActive(s, human, b) :: Sooner(s, a, b)
  }

  lemma FirstIsEarliest(s: State, human: HumanId, a: AgentId)
    ensures First(s, human, a) <==> Earliest(s, human, a)
  {
    forall b ensures OwnerOfActive(s, human, b) <==> b in s.agents && OwnsActive(s, human, b) {}
    if First(s, human, a) {
      forall b | OwnerOfActive(s, human, b) ensures Sooner(s, a, b) {
        assert OwnsActive(s, human, b) && Before(s, a, b);
      }
    }
    if Earliest(s, human, a) {
      forall b | b in s.agents && OwnsActive(s, human, b) ensures Before(s, a, b) {
        assert OwnerOfActive(s, human, b) && Sooner(s, a, b);
      }
    }
  }

  /**
    In every run, unless a human chooses one, a call leaves their default agent alone while they
    own it and it is active, and otherwise makes it the earliest of their own active agents, or
    none if they own none.
   */
  lemma DefaultIsEarliest(now: int, events: seq<Event>, e: Event, human: HumanId)
    requires human in Run(Start(now), events).defaults && !(e.SetDefault? && e.human == human)
    ensures var s := Run(Start(now), events);
            var t := Step(s, e);
            && human in t.defaults
            && (s.defaults[human].Some? && OwnerOfActive(t, human, s.defaults[human].value) ==>
                  t.defaults[human] == s.defaults[human])
            && (!(s.defaults[human].Some? && OwnerOfActive(t, human, s.defaults[human].value)) ==>
                  (t.defaults[human].Some? && Earliest(t, human, t.defaults[human].value))
                  || (t.defaults[human].None? && forall a :: !OwnerOfActive(t, human, a)))
  {
    var s := Run(Start(now), events);
    RunInv(Start(now), events);
    DefaultMovesOnlyWhenLost(s, e, human);
    Rederived(s, Step(s, e), human);
  }

  lemma Rederived(s: State, t: State, human: HumanId)
    requires SettledFrom(s, t, human)
    ensures s.defaults[human].Some? && OwnerOfActive(t, human, s.defaults[human].value) ==>
              t.defaults[human] == s.defaults[human]
    ensures !(s.defaults[human].Some? && OwnerOfActive(t, human, s.defaults[human].value)) ==>
              (t.defaults[human].Some? && Earliest(t, human, t.defaults[human].value))
              || (t.defaults[human].None? && forall a :: !OwnerOfActive(t, human, a))
  {
    ReplacementIffOwner(t, human);
    forall a ensures OwnerOfActive(t, human, a) <==> OwnsActive(t, human, a) {}
    if Replacement(t, human).Some? { FirstIsEarliest(t, human, Replacement(t, human).value); }
  }

  /** A new agent is active and nobody's; a new human has no default; time passes. */
  lemma Arrivals(s: State, e: Event)
    ensures var t := Step(s, e);
            match e
            case Register(agent, address) =>
              if agent in s.agents then t == s
              else t == s.(agents := s.agents[agent := Agent(address, true, None)])
            case AddHuman(human) =>
              if human in s.defaults then t == s else t == s.(defaults := s.defaults[human := None])
            case Tick(elapsed) => t == s.(now := s.now + elapsed)
            case _ => t.now == s.now && s.defaults.Keys == t.defaults.Keys && s.agents.Keys <= t.agents.Keys
  {
  }
}
