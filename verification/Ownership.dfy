/**
  Who owns an agent, who else may see it, and which agent answers for a human by default.
  Each service call is one atomic step. An agent's address is a number whose order stands for
  the order of addresses.
 */
module Ownership {
  import opened Prelude

  type HumanId = nat
  type AgentId = nat

  datatype Role = Owner | Operator | Viewer | Auditor
  datatype Agent = Agent(address: nat, active: bool, ownerId: Option<HumanId>)
  datatype Title = Title(human: HumanId, assignedAt: int)

  datatype State = State(
    now: int,
    agents: map<AgentId, Agent>,
    titles: map<AgentId, Title>,
    grants: map<(HumanId, AgentId), Role>,
    defaults: map<HumanId, Option<AgentId>>)

  datatype Event =
    | Tick(elapsed: nat)
    | AddHuman(human: HumanId)
    | Register(agent: AgentId, address: nat)
    | Grant(human: HumanId, agent: AgentId, role: Role)
    | Revoke(human: HumanId, agent: AgentId)
    | SetDefault(human: HumanId, agent: AgentId)
    | Disable(human: HumanId, agent: AgentId, completes: bool)
    | ApproveExisting(human: HumanId, agent: AgentId)
    | ApproveNew(human: HumanId, agent: AgentId, address: nat)

  predicate Owns(s: State, human: HumanId, agent: AgentId) {
    agent in s.agents && agent in s.titles && s.titles[agent].human == human
  }

  predicate OwnsActive(s: State, human: HumanId, agent: AgentId) {
    Owns(s, human, agent) && s.agents[agent].active
  }

  // ----- The default agent -----

  /** Order by assignment, then address, then id. */
  predicate Before(s: State, a: AgentId, b: AgentId)
    requires a in s.agents && b in s.agents && a in s.titles && b in s.titles
  {
    var x, y := s.titles[a].assignedAt, s.titles[b].assignedAt;
    var p, q := s.agents[a].address, s.agents[b].address;
    x < y || (x == y && (p < q || (p == q && a <= b)))
  }

  ghost predicate First(s: State, human: HumanId, a: AgentId) {
    OwnsActive(s, human, a) && forall b | b in s.agents && OwnsActive(s, human, b) :: Before(s, a, b)
  }

  ghost function Replacement(s: State, human: HumanId): Option<AgentId> {
    if exists a :: First(s, human, a) then
      var a :| First(s, human, a);
      Some(a)
    else None
  }

  /** Keep a default that is an active owned agent, else take the first such agent. */
  ghost function Settled(s: State, human: HumanId, current: Option<AgentId>): Option<AgentId> {
    if current.Some? && OwnsActive(s, human, current.value) then current else Replacement(s, human)
  }

  ghost function EnsureDefault(s: State, human: HumanId): State
    requires human in s.defaults
  {
    s.(defaults := s.defaults[human := Settled(s, human, s.defaults[human])])
  }

  // ----- The calls -----

  function SetTitle(s: State, agent: AgentId, title: Title): State
    requires agent in s.agents
  {
    s.(titles := s.titles[agent := title], agents := s.agents[agent := s.agents[agent].(ownerId := Some(title.human))])
  }

  function DropTitle(s: State, agent: AgentId): State
    requires agent in s.agents
  {
    s.(titles := s.titles - {agent}, agents := s.agents[agent := s.agents[agent].(ownerId := None)])
  }

  ghost function GrantOwner(s: State, human: HumanId, agent: AgentId): State
    requires human in s.defaults && agent in s.agents
  {
    var t := EnsureDefault(SetTitle(s.(grants := s.grants - {(human, agent)}), agent, Title(human, s.now)), human);
    if agent in s.titles && s.titles[agent].human != human && s.titles[agent].human in s.defaults
    then EnsureDefault(t, s.titles[agent].human) else t
  }

  ghost function DropOwned(s: State, human: HumanId, agent: AgentId): State
    requires human in s.defaults && agent in s.agents
  {
    if Owns(s, human, agent) then EnsureDefault(DropTitle(s, agent), human) else s
  }

  ghost function GrantStep(s: State, human: HumanId, agent: AgentId, role: Role): State {
    if human !in s.defaults || agent !in s.agents then s
    else if role == Owner then GrantOwner(s, human, agent)
    else
      var t := DropOwned(s, human, agent);
      t.(grants := t.grants[(human, agent) := role])
  }

  ghost function RevokeStep(s: State, human: HumanId, agent: AgentId): State {
    if human !in s.defaults || agent !in s.agents then s
    else if !Owns(s, human, agent) && (human, agent) !in s.grants then s
    else
      var t := DropOwned(s, human, agent);
      t.(grants := t.grants - {(human, agent)})
  }

  function SetDefaultStep(s: State, human: HumanId, agent: AgentId): State {
    if human in s.defaults && OwnsActive(s, human, agent) then s.(defaults := s.defaults[human := Some(agent)]) else s
  }

  function SetInactive(s: State, agent: AgentId): State
    requires agent in s.agents
  {
    s.(agents := s.agents[agent := s.agents[agent].(active := false)])
  }

  ghost function DisableStep(s: State, human: HumanId, agent: AgentId, completes: bool): State {
    if human in s.defaults && OwnsActive(s, human, agent) && completes
    then EnsureDefault(SetInactive(s, agent), human) else s
  }

  function DefaultIfNone(s: State, human: HumanId, agent: AgentId): State
    requires human in s.defaults
  {
    if s.defaults[human] == None then s.(defaults := s.defaults[human := Some(agent)]) else s
  }

  function ApproveExistingStep(s: State, human: HumanId, agent: AgentId): State {
    if human in s.defaults && OwnsActive(s, human, agent) then DefaultIfNone(s, human, agent) else s
  }

  function ApproveNewStep(s: State, human: HumanId, agent: AgentId, address: nat): State {
    if human !in s.defaults || agent in s.agents then s
    else
      DefaultIfNone(SetTitle(s.(agents := s.agents[agent := Agent(address, true, None)]), agent, Title(human, s.now)),
        human, agent)
  }

  ghost function Step(s: State, e: Event): State {
    match e
    case Tick(elapsed) => s.(now := s.now + elapsed)
    case AddHuman(human) => if human in s.defaults then s else s.(defaults := s.defaults[human := None])
    case Register(agent, address) =>
      if agent in s.agents then s else s.(agents := s.agents[agent := Agent(address, true, None)])
    case Grant(human, agent, role) => GrantStep(s, human, agent, role)
    case Revoke(human, agent) => RevokeStep(s, human, agent)
    case SetDefault(human, agent) => SetDefaultStep(s, human, agent)
    case Disable(human, agent, completes) => DisableStep(s, human, agent, completes)
    case ApproveExisting(human, agent) => ApproveExistingStep(s, human, agent)
    case ApproveNew(human, agent, address) => ApproveNewStep(s, human, agent, address)
  }

  ghost function Run(s: State, events: seq<Event>): State
    decreases |events|
  {
    if events == [] then s else Run(Step(s, events[0]), events[1..])
  }

  function Start(now: int): State {
    State(now, map[], map[], map[], map[])
  }

  // ----- The first agent exists and is unique -----

  lemma FirstUnique(s: State, human: HumanId, a: AgentId, b: AgentId)
    requires First(s, human, a) && First(s, human, b)
    ensures a == b
  {
    assert Before(s, a, b) && Before(s, b, a);
  }

  lemma {:induction false} FirstOf(s: State, human: HumanId, candidates: set<AgentId>) returns (a: AgentId)
    requires candidates != {} && forall b | b in candidates :: OwnsActive(s, human, b)
    ensures a in candidates && OwnsActive(s, human, a)
    ensures forall b | b in candidates :: OwnsActive(s, human, b) && Before(s, a, b)
    decreases |candidates|
  {
    var c :| c in candidates;
    var rest := candidates - {c};
    if rest == {} {
      a := c;
      assert candidates == {c};
    } else {
      var d := FirstOf(s, human, rest);
      a := if Before(s, c, d) then c else d;
      forall b | b in candidates ensures Before(s, a, b) {
        assert b == c || b in rest;
      }
    }
  }

  /** There is a replacement exactly when the human owns an active agent. */
  lemma ReplacementIffOwner(s: State, human: HumanId)
    ensures Replacement(s, human).Some? <==> exists a :: OwnsActive(s, human, a)
    ensures Replacement(s, human).Some? ==> First(s, human, Replacement(s, human).value)
  {
    if a0 :| OwnsActive(s, human, a0) {
      var candidates := set b | b in s.agents && OwnsActive(s, human, b);
      assert a0 in candidates;
      var a := FirstOf(s, human, candidates);
      assert First(s, human, a);
    }
  }

  // ----- The invariants -----

  /** The default is an active owned agent, or there is none to take. */
  ghost predicate DefaultOk(s: State, human: HumanId) {
    && human in s.defaults
    && (s.defaults[human].Some? ==> OwnsActive(s, human, s.defaults[human].value))
    && (s.defaults[human].None? ==> forall a | a in s.agents :: !OwnsActive(s, human, a))
  }

  ghost predicate Mirrors(s: State) {
    && (forall a | a in s.agents :: s.agents[a].ownerId == if a in s.titles then Some(s.titles[a].human) else None)
    && (forall a | a in s.titles :: a in s.agents && s.titles[a].human in s.defaults)
  }

  ghost predicate OneRole(s: State) {
    forall g | g in s.grants :: g.1 in s.agents && !Owns(s, g.0, g.1)
  }

  ghost predicate GrantRoles(s: State) {
    forall g | g in s.grants :: s.grants[g] != Owner
  }

  ghost predicate Inv(s: State) {
    (forall h | h in s.defaults :: DefaultOk(s, h)) && Mirrors(s) && OneRole(s) && GrantRoles(s)
  }

  lemma EnsureMakesOk(s: State, human: HumanId)
    requires human in s.defaults
    ensures DefaultOk(EnsureDefault(s, human), human)
  {
    ReplacementIffOwner(s, human);
    var t := EnsureDefault(s, human);
    forall a | a in s.agents && OwnsActive(s, human, a) ensures t.defaults[human].Some? {}
    forall a ensures OwnsActive(t, human, a) == OwnsActive(s, human, a) {}
  }

  /** What a human owns and defaults to decides DefaultOk. */
  lemma SameHoldings(s: State, t: State, human: HumanId)
    requires DefaultOk(s, human) && human in t.defaults && t.defaults[human] == s.defaults[human]
    requires forall a :: OwnsActive(t, human, a) <==> OwnsActive(s, human, a)
    ensures DefaultOk(t, human)
  {
  }

  lemma GrantOwnerTables(s: State, human: HumanId, agent: AgentId)
    requires Mirrors(s) && OneRole(s) && GrantRoles(s) && human in s.defaults && agent in s.agents
    ensures var t := GrantOwner(s, human, agent); Mirrors(t) && OneRole(t) && GrantRoles(t)
  {
  }

  lemma GrantOwnerDefault(s: State, human: HumanId, agent: AgentId, h: HumanId)
    requires DefaultOk(s, h) && human in s.defaults && agent in s.agents
    ensures DefaultOk(GrantOwner(s, human, agent), h)
  {
    var t := GrantOwner(s, human, agent);
    var titled := SetTitle(s.(grants := s.grants - {(human, agent)}), agent, Title(human, s.now));
    var ensured := EnsureDefault(titled, human);
    if h == human {
      EnsureMakesOk(titled, human);
      SameHoldings(ensured, t, h);
    } else if agent in s.titles && s.titles[agent].human == h {
      EnsureMakesOk(ensured, h);
    } else {
      SameHoldings(s, t, h);
    }
  }

  lemma GrantOwnerInv(s: State, human: HumanId, agent: AgentId)
    requires Inv(s) && human in s.defaults && agent in s.agents
    ensures Inv(GrantOwner(s, human, agent))
  {
    var t := GrantOwner(s, human, agent);
    GrantOwnerTables(s, human, agent);
    forall h | h in t.defaults ensures DefaultOk(t, h) { GrantOwnerDefault(s, human, agent, h); }
  }

  lemma DropOwnedInv(s: State, human: HumanId, agent: AgentId)
    requires Inv(s) && human in s.defaults && agent in s.agents
    ensures Inv(DropOwned(s, human, agent)) && !Owns(DropOwned(s, human, agent), human, agent)
  {
    var t := DropOwned(s, human, agent);
    if Owns(s, human, agent) {
      EnsureMakesOk(DropTitle(s, agent), human);
      forall h | h in t.defaults ensures DefaultOk(t, h) {
        if h != human { SameHoldings(s, t, h); }
      }
    }
  }

  lemma GrantsInv(s: State, t: State)
    requires Inv(s) && t == s.(grants := t.grants) && OneRole(t) && GrantRoles(t)
    ensures Inv(t)
  {
    forall h | h in t.defaults ensures DefaultOk(t, h) { SameHoldings(s, t, h); }
  }

  lemma GrantInv(s: State, human: HumanId, agent: AgentId, role: Role)
    requires Inv(s)
    ensures Inv(GrantStep(s, human, agent, role))
  {
    if human in s.defaults && agent in s.agents {
      GrantOwnerInv(s, human, agent);
      DropOwnedInv(s, human, agent);
      var t := DropOwned(s, human, agent);
      if role != Owner { GrantsInv(t, t.(grants := t.grants[(human, agent) := role])); }
    }
  }

  lemma RevokeInv(s: State, human: HumanId, agent: AgentId)
    requires Inv(s)
    ensures Inv(RevokeStep(s, human, agent))
  {
    if human in s.defaults && agent in s.agents {
      DropOwnedInv(s, human, agent);
      var t := DropOwned(s, human, agent);
      GrantsInv(t, t.(grants := t.grants - {(human, agent)}));
    }
  }

  lemma DisableInv(s: State, human: HumanId, agent: AgentId, completes: bool)
    requires Inv(s)
    ensures Inv(DisableStep(s, human, agent, completes))
  {
    var t := DisableStep(s, human, agent, completes);
    if t != s {
      EnsureMakesOk(SetInactive(s, agent), human);
      forall h | h in t.defaults ensures DefaultOk(t, h) {
        if h != human { SameHoldings(s, t, h); }
      }
    }
  }

  lemma SetDefaultInv(s: State, human: HumanId, agent: AgentId)
    requires Inv(s)
    ensures Inv(SetDefaultStep(s, human, agent))
  {
    var t := SetDefaultStep(s, human, agent);
    forall h | h in t.defaults ensures DefaultOk(t, h) {
      if h != human { SameHoldings(s, t, h); } else { assert DefaultOk(s, h); }
    }
  }

  /** Pairing an agent one owns never has to set the default: there already is one. */
  lemma ApproveExistingKeeps(s: State, human: HumanId, agent: AgentId)
    requires Inv(s)
    ensures ApproveExistingStep(s, human, agent) == s
  {
    assert human in s.defaults ==> DefaultOk(s, human);
  }

  lemma ApproveNewTables(s: State, human: HumanId, agent: AgentId, address: nat)
    requires Mirrors(s) && OneRole(s) && GrantRoles(s)
    ensures var t := ApproveNewStep(s, human, agent, address); Mirrors(t) && OneRole(t) && GrantRoles(t)
  {
  }

  lemma ApproveNewInv(s: State, human: HumanId, agent: AgentId, address: nat)
    requires Inv(s)
    ensures Inv(ApproveNewStep(s, human, agent, address))
  {
    var t := ApproveNewStep(s, human, agent, address);
    if t != s {
      ApproveNewTables(s, human, agent, address);
      forall h | h in t.defaults ensures DefaultOk(t, h) {
        assert DefaultOk(s, h);
        if h != human { SameHoldings(s, t, h); }
      }
    }
  }

  lemma ArrivalInv(s: State, e: Event)
    requires Inv(s) && (e.Tick? || e.AddHuman? || e.Register?)
    ensures Inv(Step(s, e))
  {
    var t := Step(s, e);
    forall h | h in t.defaults ensures DefaultOk(t, h) {
      if h in s.defaults {
        SameHoldings(s, t, h);
      } else {
        forall a | a in t.agents ensures !OwnsActive(t, h, a) {}
      }
    }
  }

  lemma StepInv(s: State, e: Event)
    requires Inv(s)
    ensures Inv(Step(s, e))
  {
    match e
    case Grant(human, agent, role) => GrantInv(s, human, agent, role);
    case Revoke(human, agent) => RevokeInv(s, human, agent);
    case SetDefault(human, agent) => SetDefaultInv(s, human, agent);
    case Disable(human, agent, completes) => DisableInv(s, human, agent, completes);
    case ApproveExisting(human, agent) => ApproveExistingKeeps(s, human, agent);
    case ApproveNew(human, agent, address) => ApproveNewInv(s, human, agent, address);
    case _ => ArrivalInv(s, e);
  }

  lemma {:induction false} RunInv(s: State, events: seq<Event>)
    requires Inv(s)
    ensures Inv(Run(s, events))
    decreases |events|
  {
    if events != [] {
      StepInv(s, events[0]);
      RunInv(Step(s, events[0]), events[1..]);
    }
  }

  /**
    After any sequence of calls: a human's default agent is an active agent they own, and is
    missing only when they own none; the agent's owner field mirrors the ownership table; and
    nobody both owns an agent and holds a grant on it.
   */
  lemma OwnershipConsistent(now: int, events: seq<Event>)
    ensures var s := Run(Start(now), events);
            && (forall h | h in s.defaults ::
                  if s.defaults[h].Some? then OwnsActive(s, h, s.defaults[h].value)
                  else forall a :: !OwnsActive(s, h, a))
            && (forall a, h: HumanId | a in s.agents :: s.agents[a].ownerId == Some(h) <==> Owns(s, h, a))
            && (forall h, a | (h, a) in s.grants :: !Owns(s, h, a))
  {
    var s := Run(Start(now), events);
    RunInv(Start(now), events);
    forall h | h in s.defaults
      ensures if s.defaults[h].Some? then OwnsActive(s, h, s.defaults[h].value) else forall a :: !OwnsActive(s, h, a)
    {
      assert DefaultOk(s, h);
    }
    forall h, a | (h, a) in s.grants ensures !Owns(s, h, a) {
      assert !Owns(s, (h, a).0, (h, a).1);
    }
  }

  // ----- When a default moves -----

  lemma SameReplacement(s: State, t: State, human: HumanId)
    requires s.agents == t.agents && s.titles == t.titles
    ensures Replacement(s, human) == Replacement(t, human)
  {
    ReplacementIffOwner(s, human);
    ReplacementIffOwner(t, human);
    forall a ensures OwnsActive(s, human, a) == OwnsActive(t, human, a) && First(s, human, a) == First(t, human, a) {
      if First(s, human, a) {
        forall b | b in t.agents && OwnsActive(t, human, b) ensures Before(t, a, b) { assert OwnsActive(s, human, b); }
      }
      if First(t, human, a) {
        forall b | b in s.agents && OwnsActive(s, human, b) ensures Before(s, a, b) { assert OwnsActive(t, human, b); }
      }
    }
    if Replacement(s, human).Some? { FirstUnique(s, human, Replacement(s, human).value, Replacement(t, human).value); }
  }

  ghost predicate SettledFrom(s: State, t: State, human: HumanId) {
    human in s.defaults && human in t.defaults && t.defaults[human] == Settled(t, human, s.defaults[human])
  }

  lemma UnmovedSettled(s: State, t: State, human: HumanId)
    requires DefaultOk(t, human) && human in s.defaults && t.defaults[human] == s.defaults[human]
    ensures SettledFrom(s, t, human)
  {
    ReplacementIffOwner(t, human);
  }

  /** Later changes of grants or of other humans' defaults leave a settled default settled. */
  lemma EnsuredSettled(s: State, u: State, t: State, human: HumanId)
    requires human in s.defaults && human in u.defaults && human in t.defaults && u.defaults[human] == s.defaults[human]
    requires u.agents == t.agents && u.titles == t.titles
      && t.defaults[human] == EnsureDefault(u, human).defaults[human]
    ensures SettledFrom(s, t, human)
  {
    SameReplacement(u, t, human);
  }

  lemma GrantOwnerSettled(s: State, human: HumanId, agent: AgentId, h: HumanId)
    requires Inv(s) && human in s.defaults && agent in s.agents && h in s.defaults
    ensures SettledFrom(s, GrantOwner(s, human, agent), h)
  {
    var t := GrantOwner(s, human, agent);
    var titled := SetTitle(s.(grants := s.grants - {(human, agent)}), agent, Title(human, s.now));
    GrantOwnerInv(s, human, agent);
    assert DefaultOk(t, h);
    if h == human {
      EnsuredSettled(s, titled, t, h);
    } else if agent in s.titles && s.titles[agent].human == h {
      EnsuredSettled(s, EnsureDefault(titled, human), t, h);
    } else {
      UnmovedSettled(s, t, h);
    }
  }

  lemma DropOwnedSettled(s: State, t: State, human: HumanId, agent: AgentId, h: HumanId)
    requires Inv(s) && human in s.defaults && agent in s.agents && h in s.defaults
    requires t == DropOwned(s, human, agent).(grants := t.grants) && DefaultOk(t, h)
    ensures SettledFrom(s, t, h)
  {
    if h == human && Owns(s, human, agent) {
      EnsuredSettled(s, DropTitle(s, agent), t, h);
    } else {
      UnmovedSettled(s, t, h);
    }
  }

  lemma ApproveNewSettled(s: State, human: HumanId, agent: AgentId, address: nat, h: HumanId)
    requires Inv(s) && h in s.defaults
    ensures SettledFrom(s, ApproveNewStep(s, human, agent, address), h)
  {
    var t := ApproveNewStep(s, human, agent, address);
    ApproveNewInv(s, human, agent, address);
    assert DefaultOk(t, h) && DefaultOk(s, h);
    if t.defaults[h] == s.defaults[h] {
      UnmovedSettled(s, t, h);
    } else {
      forall b | b in t.agents && OwnsActive(t, h, b)
        ensures b == agent
      {
        assert b in s.agents ==> !OwnsActive(s, h, b);
      }
      assert First(t, h, agent);
      ReplacementIffOwner(t, h);
      FirstUnique(t, h, agent, Replacement(t, h).value);
    }
  }

  lemma StepDefault(s: State, e: Event, h: HumanId)
    requires Inv(s) && h in s.defaults
    ensures DefaultOk(s, h) && DefaultOk(Step(s, e), h)
  {
    StepInv(s, e);
    assert h in Step(s, e).defaults;
  }

  /**
    Apart from a human choosing one, every call leaves every human's default as if it had been
    re-derived: kept while it is an active agent they own, else the first such agent by
    assignment, address and id. So it is re-derived everywhere it has to be.
   */
  lemma DefaultMovesOnlyWhenLost(s: State, e: Event, h: HumanId)
    requires Inv(s) && h in s.defaults && !(e.SetDefault? && e.human == h)
    ensures SettledFrom(s, Step(s, e), h)
  {
    var t := Step(s, e);
    StepDefault(s, e, h);
    match e
    case Grant(human, agent, role) =>
      if t != s {
        if role == Owner {
          GrantOwnerSettled(s, human, agent, h);
        } else {
          DropOwnedSettled(s, t, human, agent, h);
        }
      } else {
        UnmovedSettled(s, t, h);
      }
    case Revoke(human, agent) =>
      if t != s { DropOwnedSettled(s, t, human, agent, h); } else { UnmovedSettled(s, t, h); }
    case Disable(human, agent, _) =>
      if t != s && h == human { EnsuredSettled(s, SetInactive(s, agent), t, h); } else { UnmovedSettled(s, t, h); }
    case ApproveNew(human, agent, address) => ApproveNewSettled(s, human, agent, address, h);
    case ApproveExisting(human, agent) => ApproveExistingKeeps(s, human, agent); UnmovedSettled(s, t, h);
    case _ =>
      UnmovedSettled(s, t, h);
  }
}
