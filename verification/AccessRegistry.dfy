/**
  The ownership tables as one mutable store, and the merged list of what a human may access.
 */
module AccessRegistry {
  import opened Prelude
  import opened Ownership
  import opened AccessLaws

  // ----- The merged list -----

  function Priority(role: Role): nat {
    match role
    case Owner => 4
    case Operator => 3
    case Viewer => 2
    case Auditor => 1
  }

  /** The two queries together list every ownership and every grant of the human once. */
  ghost predicate Lists(entries: seq<Entry>, s: State, human: HumanId) {
    && (forall e :: e in entries <==> HasAccess(s, human, e))
    && (forall i, j | 0 <= i < j < |entries| :: entries[i] != entries[j])
  }

  lemma OneEntry(s: State, human: HumanId, e: Entry, f: Entry)
    requires Inv(s) && HasAccess(s, human, e) && HasAccess(s, human, f)
    ensures e.agent == f.agent ==> e == f
  {
    var g := (human, e.agent);
    assert g in s.grants ==> !Owns(s, g.0, g.1);
  }

  lemma DistinctEntries(s: State, entries: seq<Entry>, human: HumanId)
    requires Inv(s) && Lists(entries, s, human)
    ensures forall i, j | 0 <= i < j < |entries| :: entries[i].agent != entries[j].agent
  {
    forall i, j | 0 <= i < j < |entries| ensures entries[i].agent != entries[j].agent {
      assert entries[i] in entries && entries[j] in entries;
      OneEntry(s, human, entries[i], entries[j]);
    }
  }

  /** No agent occurs twice, so merging never has to choose. */
  lemma MergeNeverChooses(now: int, events: seq<Event>, entries: seq<Entry>, human: HumanId)
    requires Lists(entries, Run(Start(now), events), human)
    ensures forall i, j | 0 <= i < j < |entries| :: entries[i].agent != entries[j].agent
  {
    RunInv(Start(now), events);
    DistinctEntries(Run(Start(now), events), entries, human);
  }

  /** Keep, for each agent, the entry of the highest priority. */
  method MergeAccess(entries: seq<Entry>) returns (merged: map<AgentId, Entry>)
    ensures forall a :: a in merged <==> exists e :: e in entries && e.agent == a
    ensures forall a | a in merged ::
              merged[a] in entries && merged[a].agent == a
              && forall e | e in entries && e.agent == a :: Priority(e.role) <= Priority(merged[a].role)
  {
    merged := map[];
    for i := 0 to |entries|
      invariant forall a :: a in merged <==> exists e :: e in entries[..i] && e.agent == a
      invariant forall a | a in merged ::
                  merged[a] in entries[..i] && merged[a].agent == a
                  && forall e | e in entries[..i] && e.agent == a :: Priority(e.role) <= Priority(merged[a].role)
    {
      var entry := entries[i];
      assert entries[..i + 1] == entries[..i] + [entry];
      if entry.agent !in merged || Priority(entry.role) > Priority(merged[entry.agent].role) {
        merged := merged[entry.agent := entry];
      }
    }
    assert entries[..|entries|] == entries;
  }

  // ----- The store -----

  class Registry {
    var now: int
    var agents: map<AgentId, Agent>
    var titles: map<AgentId, Title>
    var grants: map<(HumanId, AgentId), Role>
    var defaults: map<HumanId, Option<AgentId>>

    function View(): State
      reads this
    {
      State(now, agents, titles, grants, defaults)
    }

    constructor (start: int)
      ensures View() == Start(start)
    {
      now, agents, titles, grants, defaults := start, map[], map[], map[], map[];
    }

    /** The list a human gets: exactly the ownerships and grants, one entry per agent. */
    method ListAgentAccess(human: HumanId, direct: seq<Entry>) returns (merged: map<AgentId, Entry>)
      requires Inv(View()) && Lists(direct, View(), human)
      ensures forall e :: HasAccess(View(), human, e) <==> e.agent in merged && merged[e.agent] == e
    {
      merged := MergeAccess(direct);
      forall e | e in direct ensures e.agent in merged && merged[e.agent] == e {
        OneEntry(View(), human, e, merged[e.agent]);
      }
    }

    /** Keep the default pointed at an active owned agent. */
    method EnsureHumanDefaultAgent(human: HumanId)
      requires human in defaults
      modifies this`defaults
      ensures View() == EnsureDefault(old(View()), human)
    {
      if defaults[human].Some? && OwnsActive(View(), human, defaults[human].value) { return; }
      ReplacementIffOwner(View(), human);
      if a :| a in agents && OwnsActive(View(), human, a) && forall b | b in agents && OwnsActive(View(), human, b) ::
          Before(View(), a, b) {
        FirstUnique(View(), human, a, Replacement(View(), human).value);
        defaults := defaults[human := Some(a)];
      } else {
        assert !exists a :: First(View(), human, a);
        defaults := defaults[human := None];
      }
    }

    method GrantAgentAccess(human: HumanId, agent: AgentId, role: Role) returns (found: bool)
      modifies this`agents, this`titles, this`grants, this`defaults
      ensures View() == GrantStep(old(View()), human, agent, role)
      ensures found == (human in old(defaults) && agent in old(agents))
      ensures if found then Granted(old(View()), View(), human, agent, role) else View() == old(View())
    {
      GrantGives(View(), human, agent, role);
      if human !in defaults || agent !in agents { return false; }
      found := true;
      var previous := if agent in titles then Some(titles[agent].human) else None;
      if role == Owner {
        titles := titles - {agent};
        grants := grants - {(human, agent)};
        titles := titles[agent := Title(human, now)];
        agents := agents[agent := agents[agent].(ownerId := Some(human))];
        assert View() == SetTitle(old(View()).(grants := grants), agent, Title(human, now)) by {
          assert titles == old(titles)[agent := Title(human, now)];
        }
        EnsureHumanDefaultAgent(human);
        if previous.Some? && previous.value != human && previous.value in defaults {
          EnsureHumanDefaultAgent(previous.value);
        }
      } else {
        DropOwnership(human, agent);
        grants := grants[(human, agent) := role];
      }
    }

    method DropOwnership(human: HumanId, agent: AgentId)
      requires human in defaults && agent in agents
      modifies this`agents, this`titles, this`defaults
      ensures View() == DropOwned(old(View()), human, agent)
    {
      if agent in titles && titles[agent].human == human {
        titles := titles - {agent};
        agents := agents[agent := agents[agent].(ownerId := None)];
        EnsureHumanDefaultAgent(human);
      }
    }

    method RevokeAgentAccess(human: HumanId, agent: AgentId) returns (removed: bool)
      modifies this`agents, this`titles, this`grants, this`defaults
      ensures View() == RevokeStep(old(View()), human, agent)
      ensures removed <==> human in old(defaults) && agent in old(agents)
                           && (Owns(old(View()), human, agent) || (human, agent) in old(grants))
      ensures removed ==>
                && (forall e: Entry | e.agent == agent :: !HasAccess(View(), human, e))
                && OnlyAccess(old(View()), View(), human, agent)
      ensures !removed ==> View() == old(View())
    {
      RevokeRemoves(View(), human, agent);
      if human !in defaults || agent !in agents { return false; }
      removed := agent in titles && titles[agent].human == human;
      DropOwnership(human, agent);
      if (human, agent) in grants {
        removed := true;
      }
      grants := grants - {(human, agent)};
      if !removed { assert grants == old(grants); }
    }

    method SetHumanDefaultAgent(human: HumanId, agent: AgentId) returns (allowed: bool)
      modifies this`defaults
      ensures View() == SetDefaultStep(old(View()), human, agent)
      ensures allowed == (human in old(defaults) && OwnsActive(old(View()), human, agent))
      ensures allowed <==> human in old(defaults) && OwnerOfActive(old(View()), human, agent)
      ensures View() == if allowed then old(View()).(defaults := old(defaults)[human := Some(agent)]) else old(View())
    {
      allowed := human in defaults && OwnsActive(View(), human, agent);
      if allowed {
        defaults := defaults[human := Some(agent)];
      }
    }

    method DisableOwnedAgent(human: HumanId, agent: AgentId, completes: bool) returns (allowed: bool)
      modifies this`agents, this`defaults
      ensures View() == DisableStep(old(View()), human, agent, completes)
      ensures allowed == (human in old(defaults) && Owns(old(View()), human, agent))
      ensures allowed <==> human in old(defaults) && HasAccess(old(View()), human, Entry(agent, Owner))
      ensures allowed && completes ==> agent in agents && !agents[agent].active && titles == old(titles)
      ensures allowed && completes && old(agents[agent].active) ==> defaults[human] != Some(agent)
      ensures !allowed || !completes ==> View() == old(View())
    {
      DisableInactivates(View(), human, agent, completes);
      allowed := human in defaults && Owns(View(), human, agent);
      if allowed && agents[agent].active && completes {
        agents := agents[agent := agents[agent].(active := false)];
        EnsureHumanDefaultAgent(human);
      }
    }
  }
}
