/**
  Who may deliver to whom and where a message goes, said of the rows alone: of the recipient's
  rules and policy, of earlier deliveries, of addresses and parents.
 */
module Admission {
  import opened Prelude
  import opened Mailbox
  import opened MailboxSafety
  import Idempotency

  // ----- The policy -----

  /** The owner has a rule of this effect for the sender's address or for its domain. */
  ghost predicate HasRule(owner: Agent, effect: Effect, from: Agent) {
    Rule(effect, SubjectAgent(from.address)) in owner.rules || Rule(effect, SubjectDomain(from.domain)) in owner.rules
  }

  ghost predicate Went(db: Db, n: nat, from: AgentId, to: AgentId) {
    && n in db.deliveries && db.deliveries[n].recipient == to
    && db.deliveries[n].message in db.messages && db.messages[db.deliveries[n].message].sender == from
  }

  /** A delivery went between the two agents, in one direction or the other. */
  ghost predicate InContact(db: Db, a: AgentId, b: AgentId) {
    exists n :: Went(db, n, a, b) || Went(db, n, b, a)
  }

  ghost predicate Blocked(db: Db, sender: AgentId, recipient: AgentId)
    requires sender in db.agents && recipient in db.agents
  {
    HasRule(db.agents[recipient], Block, db.agents[sender])
  }

  /** What the policy asks of a sender whom no rule blocks. */
  ghost predicate PolicyMet(db: Db, sender: AgentId, recipient: AgentId)
    requires sender in db.agents && recipient in db.agents
  {
    match db.agents[recipient].policy
    case Public => true
    case Private => sender == recipient
    case Allowlist => HasRule(db.agents[recipient], Allow, db.agents[sender])
    case ContactsOnly =>
      HasRule(db.agents[recipient], Allow, db.agents[sender]) || InContact(db, sender, recipient)
  }

  ghost predicate Admissible(db: Db, sender: AgentId, recipient: AgentId) {
    && sender in db.agents && recipient in db.agents && db.agents[recipient].active
    && !Blocked(db, sender, recipient) && PolicyMet(db, sender, recipient)
  }

  /** The answer to a sender that is not admissible. */
  ghost predicate TurnedAway(db: Db, sender: AgentId, recipient: AgentId, outcome: Outcome)
    requires sender in db.agents && recipient in db.agents
  {
    if !db.agents[recipient].active then outcome == RecipientNotFound
    else if Blocked(db, sender, recipient) then outcome == Denied(ExplicitBlock)
    else outcome == Denied(if db.agents[recipient].policy == Private then PrivatePolicy else AllowRuleRequired)
  }

  lemma MatchingRule(owner: Agent, effect: Effect, from: Agent)
    ensures (exists rule | rule in owner.rules :: Matches(rule, from) && rule.effect == effect)
            <==> HasRule(owner, effect, from)
  {
    if HasRule(owner, effect, from) {
      var rule := if Rule(effect, SubjectAgent(from.address)) in owner.rules
        then Rule(effect, SubjectAgent(from.address)) else Rule(effect, SubjectDomain(from.domain));
      assert rule in owner.rules && Matches(rule, from) && rule.effect == effect;
    }
  }

  lemma ContactIsCorrespondence(db: Db, a: AgentId, b: AgentId)
    ensures Corresponded(db, a, b) <==> InContact(db, a, b)
  {
    if InContact(db, a, b) {
      var n :| Went(db, n, a, b) || Went(db, n, b, a);
      assert n in db.deliveries && db.deliveries[n].message in db.messages;
    }
    if Corresponded(db, a, b) {
      var n :| n in db.deliveries && db.deliveries[n].message in db.messages
          && var sender := db.messages[db.deliveries[n].message].sender;
          || (sender == a && db.deliveries[n].recipient == b)
          || (sender == b && db.deliveries[n].recipient == a);
      assert Went(db, n, a, b) || Went(db, n, b, a);
    }
  }

  /** The decision taken under the row lock is the policy. */
  lemma DecisionIsPolicy(db: Db, sender: AgentId, recipient: AgentId)
    requires sender in db.agents && recipient in db.agents
    ensures Permits(db, sender, recipient) <==> Admissible(db, sender, recipient)
    ensures !Permits(db, sender, recipient) ==>
      TurnedAway(db, sender, recipient,
        if Refusal(db, sender, recipient).Some? && db.agents[recipient].active
        then Denied(Refusal(db, sender, recipient).value) else RecipientNotFound)
  {
    MatchingRule(db.agents[recipient], Block, db.agents[sender]);
    MatchingRule(db.agents[recipient], Allow, db.agents[sender]);
    ContactIsCorrespondence(db, sender, recipient);
  }

  // ----- Where a request goes -----

  ghost predicate IsOf(db: Db, n: nat, message: MessageId) {
    n in db.deliveries && db.deliveries[n].message == message
  }

  /** The message went from one of the two agents to the other. */
  ghost predicate Parties(db: Db, message: MessageId, a: AgentId, b: AgentId) {
    exists n :: IsOf(db, n, message) && (Went(db, n, a, b) || Went(db, n, b, a))
  }

  /** A send goes to the agent with the address it names, a reply to the other party of its parent. */
  ghost predicate GoesTo(db: Db, sender: AgentId, request: Request, recipient: AgentId) {
    match request
    case Send(to, _) => recipient in db.agents && db.agents[recipient].address == to
    case Reply(parent, _) => Parties(db, parent, sender, recipient)
  }

  /** A send starts a thread, a reply stays in its parent's; results only answer tasks. */
  ghost predicate InThread(db: Db, request: Request, thread: Option<MessageId>) {
    match request
    case Send(_, _) => thread == None
    case Reply(parent, content) =>
      && parent in db.messages && thread == Some(db.messages[parent].thread)
      && (content.kind == TypeResult ==> db.messages[parent].content.kind == TypeTask)
  }

  ghost predicate Heads(db: Db, x: Running) {
    match x.phase
    case LookedUp => true
    case Resolved(locator, thread) =>
      && InThread(db, x.call.request, thread)
      && (match x.call.request
          case Send(to, _) => locator == ByAddress(to)
          case Reply(parent, _) => locator.ById? && Parties(db, parent, x.call.sender, locator.id))
    case Locked(recipient, thread) =>
      InThread(db, x.call.request, thread) && GoesTo(db, x.call.sender, x.call.request, recipient)
    case Inserted(recipient, thread, _, _, _) =>
      InThread(db, x.call.request, thread) && GoesTo(db, x.call.sender, x.call.request, recipient)
  }

  /** The message stored under a key is in its thread, and its delivery went where the request goes. */
  ghost predicate Arrived(db: Db, k: (AgentId, Key), row: KeyRow) {
    && row.message in db.messages
    && InThread(db, row.request,
      if row.request.Reply? then Some(db.messages[row.message].thread) else None)
    && (row.request.Send? ==> db.messages[row.message].thread == row.message)
    && forall n | IsOf(db, n, row.message) :: GoesTo(db, k.0, row.request, db.deliveries[n].recipient)
  }

  ghost predicate Destined(s: State) {
    && (forall k | k in s.db.keys :: Arrived(s.db, k, s.db.keys[k]))
    && (forall id | id in s.running :: Heads(s.db, s.running[id]))
  }

  ghost predicate Later(before: Db, after: Db) {
    && Grows(before, after)
    && forall a | a in before.agents :: a in after.agents && after.agents[a].address == before.agents[a].address
  }

  lemma StepLater(s: State, e: Event)
    requires NumbersFresh(s)
    ensures Later(s.db, Step(s, e).db)
  {
    StepGrows(s, e);
    forall a | a in s.db.agents
      ensures a in Step(s, e).db.agents && Step(s, e).db.agents[a].address == s.db.agents[a].address
    {
      StepAgents(s, e, a);
    }
  }

  lemma PartiesKept(before: Db, after: Db, message: MessageId, a: AgentId, b: AgentId)
    requires Grows(before, after) && Parties(before, message, a, b)
    ensures Parties(after, message, a, b)
  {
    var n :| IsOf(before, n, message) && (Went(before, n, a, b) || Went(before, n, b, a));
    assert IsOf(after, n, message) && (Went(after, n, a, b) || Went(after, n, b, a));
  }

  lemma HeadsKept(before: Db, after: Db, x: Running)
    requires Later(before, after) && Heads(before, x)
    ensures Heads(after, x)
  {
    if x.call.request.Reply? && !x.phase.LookedUp? {
      var other := if x.phase.Resolved? then x.phase.locator.id else x.phase.recipient;
      PartiesKept(before, after, x.call.request.parent, x.call.sender, other);
    }
  }

  /** Old messages keep their deliveries: a new delivery is of a new message. */
  lemma ArrivedKept(before: Db, after: Db, k: (AgentId, Key), row: KeyRow)
    requires Later(before, after) && Arrived(before, k, row)
    requires forall n | n in after.deliveries && n !in before.deliveries ::
      after.deliveries[n].message !in before.messages
    ensures Arrived(after, k, row)
  {
    forall n | IsOf(after, n, row.message) ensures GoesTo(after, k.0, row.request, after.deliveries[n].recipient) {
      assert IsOf(before, n, row.message);
      if row.request.Reply? {
        PartiesKept(before, after, row.request.parent, k.0, after.deliveries[n].recipient);
      }
    }
  }

  lemma ResolveHeads(s: State, id: RequestId)
    requires id in s.running && s.running[id].phase.LookedUp? && id in ResolveStep(s, id).running
    ensures Heads(s.db, ResolveStep(s, id).running[id])
  {
    var call := s.running[id].call;
    if call.request.Reply? {
      var p := call.request.parent;
      var sender := s.db.messages[p].sender;
      if call.sender != sender {
        var n :| n in s.db.deliveries && s.db.deliveries[n].message == p && s.db.deliveries[n].recipient == call.sender;
        assert IsOf(s.db, n, p) && Went(s.db, n, sender, call.sender);
      } else {
        var other := RecipientOf(s.db, p, s.counter);
        var n :| n in s.db.deliveries && s.db.deliveries[n].message == p && s.db.deliveries[n].recipient == other.value;
        assert IsOf(s.db, n, p) && Went(s.db, n, call.sender, other.value);
      }
    }
  }

  lemma LockHeads(s: State, id: RequestId)
    requires id in s.running && s.running[id].phase.Resolved? && id in LockStep(s, id).running
    requires Heads(s.db, s.running[id])
    ensures Heads(s.db, LockStep(s, id).running[id])
  {
  }

  /** How one event moves a request that is still under way after it. */
  lemma StepMoves(s: State, e: Event, id: RequestId)
    requires id in Step(s, e).running
    ensures var t := Step(s, e);
            || t.running[id].phase.LookedUp?
            || (id in s.running && t.running[id] == s.running[id])
            || (id in s.running && e == Resolve(id) && s.running[id].phase.LookedUp?)
            || (id in s.running && e == Lock(id) && s.running[id].phase.Resolved?)
            || (id in s.running && e.Insert? && e.id == id && s.running[id].phase.Locked?
                && t.running[id].phase.Inserted? && t.running[id].call == s.running[id].call
                && t.running[id].phase.recipient == s.running[id].phase.recipient
                && t.running[id].phase.thread == s.running[id].phase.thread)
  {
    match e
    case Begin(_, _) =>
    case Resolve(_) =>
    case Lock(_) =>
    case Insert(_, _) =>
    case Finish(_) =>
    case Crash(_) =>
    case _ =>
  }

  lemma StepHeads(s: State, e: Event, id: RequestId)
    requires NumbersFresh(s) && id in Step(s, e).running && (id in s.running ==> Heads(s.db, s.running[id]))
    ensures Heads(Step(s, e).db, Step(s, e).running[id])
  {
    var t := Step(s, e);
    StepMoves(s, e, id);
    if id in s.running && t.running[id] == s.running[id] {
      StepLater(s, e);
      HeadsKept(s.db, t.db, s.running[id]);
    } else if e == Resolve(id) && id in s.running && s.running[id].phase.LookedUp? {
      ResolveHeads(s, id);
      assert t.db == s.db;
    } else if e == Lock(id) && id in s.running && s.running[id].phase.Resolved? {
      LockHeads(s, id);
      assert t.db == s.db;
    }
  }

  /** The commit of a request that heads for its destination arrives there. */
  lemma CommittedArrives(db: Db, x: Running)
    requires x.phase.Inserted? && Heads(db, x) && x.phase.number !in db.deliveries && x.phase.id !in db.messages
    requires forall n | n in db.deliveries :: db.deliveries[n].message in db.messages
    ensures var after := Committed(db, x);
            Arrived(after, (x.call.sender, x.call.key), KeyRow(x.call.request, x.phase.id))
  {
    var after := Committed(db, x);
    if x.call.request.Reply? {
      assert Grows(db, after);
      PartiesKept(db, after, x.call.request.parent, x.call.sender, x.phase.recipient);
    }
    forall n | IsOf(after, n, x.phase.id)
      ensures GoesTo(after, x.call.sender, x.call.request, after.deliveries[n].recipient)
    {
      assert n == x.phase.number;
    }
  }

  lemma CommittedLater(db: Db, x: Running)
    requires x.phase.Inserted? && x.phase.number !in db.deliveries && x.phase.id !in db.messages
    ensures Later(db, Committed(db, x))
    ensures var after := Committed(db, x); forall n | n in after.deliveries && n !in db.deliveries ::
      after.deliveries[n].message !in db.messages
  {
  }

  lemma CommitArrives(db: Db, x: Running, k: (AgentId, Key))
    requires x.phase.Inserted? && x.phase.number !in db.deliveries && x.phase.id !in db.messages
    requires Heads(db, x) && forall n | n in db.deliveries :: db.deliveries[n].message in db.messages
    requires k in Committed(db, x).keys && (k in db.keys ==> Arrived(db, k, db.keys[k]))
    ensures Arrived(Committed(db, x), k, Committed(db, x).keys[k])
  {
    if k == (x.call.sender, x.call.key) {
      CommittedArrives(db, x);
    } else {
      CommittedLater(db, x);
      ArrivedKept(db, Committed(db, x), k, db.keys[k]);
    }
  }

  lemma StepArrived(s: State, e: Event, k: (AgentId, Key))
    requires NumbersFresh(s) && OneDeliveryEach(s.db) && Destined(s) && k in Step(s, e).db.keys
    ensures Arrived(Step(s, e).db, k, Step(s, e).db.keys[k])
  {
    StepRows(s, e);
    var t := Step(s, e);
    if k !in s.db.keys || t.db.messages != s.db.messages {
      assert Uncommitted(s, s.running[e.id].phase) && Heads(s.db, s.running[e.id]);
      CommitArrives(s.db, s.running[e.id], k);
    } else {
      StepLater(s, e);
      ArrivedKept(s.db, t.db, k, s.db.keys[k]);
    }
  }

  lemma StepDestined(s: State, e: Event)
    requires NumbersFresh(s) && OneDeliveryEach(s.db) && Destined(s)
    ensures Destined(Step(s, e))
  {
    var t := Step(s, e);
    forall k | k in t.db.keys ensures Arrived(t.db, k, t.db.keys[k]) { StepArrived(s, e, k); }
    forall id | id in t.running ensures Heads(t.db, t.running[id]) { StepHeads(s, e, id); }
  }

  lemma {:induction false} RunDestined(s: State, events: seq<Event>)
    requires Inv(s) && Destined(s)
    ensures Inv(Run(s, events)) && Destined(Run(s, events))
    decreases |events|
  {
    if events != [] {
      StepInv(s, events[0]);
      StepDestined(s, events[0]);
      RunDestined(Step(s, events[0]), events[1..]);
    }
  }

  /**
    In every run, the message stored under a key went where its request says: a send to the agent
    with the named address, in a thread of its own; a reply, which only the two parties of its
    parent can make, to the other of them, in the parent's thread.
   */
  lemma EveryMessageArrives(events: seq<Event>, k: (AgentId, Key))
    requires k in Run(EMPTY, events).db.keys
    ensures var db := Run(EMPTY, events).db;
            var row := db.keys[k];
            && row.message in db.messages && db.messages[row.message].sender == k.0
            && db.messages[row.message].content == row.request.content
            && exists n :: IsOf(db, n, row.message)
                && (match row.request
                    case Send(to, _) =>
                      && db.deliveries[n].recipient in db.agents
                      && db.agents[db.deliveries[n].recipient].address == to
                      && db.messages[row.message].thread == row.message && db.messages[row.message].replyTo == None
                    case Reply(parent, content) =>
                      && Parties(db, parent, k.0, db.deliveries[n].recipient) && parent in db.messages
                      && db.messages[row.message].thread == db.messages[parent].thread
                      && db.messages[row.message].replyTo == Some(parent)
                      && (content.kind == TypeResult ==> db.messages[parent].content.kind == TypeTask))
  {
    EmptyInv();
    RunDestined(EMPTY, events);
    var db := Run(EMPTY, events).db;
    var row := db.keys[k];
    assert Describes(k, row, db.messages[row.message]) && HasDelivery(db, row.message);
    var n :| n in db.deliveries && db.deliveries[n].message == row.message;
    assert Arrived(db, k, row) && IsOf(db, n, row.message);
  }

  // ----- What was decided, and when -----

  lemma NewDelivery(s: State, e: Event, n: nat)
    requires n in Step(s, e).db.deliveries && n !in s.db.deliveries
    ensures e.Finish? && e.id in s.running && s.running[e.id].phase.Inserted?
    ensures var p := s.running[e.id].phase;
            Step(s, e).db.deliveries[n] == Delivery(p.id, p.recipient, Delivered, None, None)
    ensures s.running[e.id].phase.id in Step(s, e).db.messages
    ensures Step(s, e).db.messages[s.running[e.id].phase.id].sender == s.running[e.id].call.sender
  {
    StepRows(s, e);
  }

  /** Every delivery was admissible, by the rules, the policy and the deliveries there were, when it was committed. */
  lemma EveryDeliveryWasAdmissible(events: seq<Event>, e: Event, n: nat)
    requires var s := Run(EMPTY, events); n in Step(s, e).db.deliveries && n !in s.db.deliveries
    ensures var s := Run(EMPTY, events);
            var db := Step(s, e).db;
            && db.deliveries[n].message in db.messages && db.deliveries[n].status == Delivered
            && Admissible(s.db, db.messages[db.deliveries[n].message].sender, db.deliveries[n].recipient)
  {
    var s := Run(EMPTY, events);
    assert StillPermitted(s) by { EmptyInv(); RunInv(EMPTY, events); }
    NewDelivery(s, e, n);
    var x := s.running[e.id];
    assert Admitted(s.db, x);
    DecisionIsPolicy(s.db, x.call.sender, x.phase.recipient);
  }

  // ----- The lock step -----

  /** Ids are handed out in order, and no two agents share an address. */
  ghost predicate AgentsKnown(s: State) {
    && (forall a | a in s.db.agents :: a < s.nextAgent)
    && (forall a, b | a in s.db.agents && b in s.db.agents && a != b ::
      s.db.agents[a].address != s.db.agents[b].address)
  }

  lemma RegisterKnown(s: State, row: Agent)
    requires AgentsKnown(s)
    ensures AgentsKnown(RegisterStep(s, row))
  {
  }

  /** Only registering adds an agent or draws an agent's id. */
  lemma OthersRegisterNobody(s: State, e: Event)
    requires !e.Register?
    ensures Step(s, e).nextAgent == s.nextAgent && Step(s, e).db.agents.Keys == s.db.agents.Keys
  {
    match e
    case SetAccess(_, _, _) =>
    case Deactivate(_) =>
    case _ => StepOtherRows(s, e);
  }

  lemma StepAgentsKnown(s: State, e: Event)
    requires AgentsKnown(s)
    ensures AgentsKnown(Step(s, e))
  {
    if e.Register? {
      RegisterKnown(s, e.row);
    } else {
      OthersRegisterNobody(s, e);
      forall a | a in s.db.agents ensures Step(s, e).db.agents[a].address == s.db.agents[a].address {
        StepAgents(s, e, a);
      }
    }
  }

  lemma {:induction false} RunAgentsKnown(s: State, events: seq<Event>)
    requires AgentsKnown(s)
    ensures AgentsKnown(Run(s, events))
    decreases |events|
  {
    if events != [] {
      StepAgentsKnown(s, events[0]);
      RunAgentsKnown(Step(s, events[0]), events[1..]);
    }
  }

  /** The agent a locator names. */
  ghost predicate Names(db: Db, locator: Locator, r: AgentId) {
    r in db.agents && match locator case ByAddress(address) => db.agents[r].address == address case ById(id) => r == id
  }

  lemma FindsNamed(s: State, locator: Locator, r: AgentId)
    requires AgentsKnown(s) && Names(s.db, locator, r)
    ensures Find(s.db, locator, s.nextAgent) == Some(r)
  {
    assert Located(s.db, locator, r);
  }

  /**
    Exactly when the lock step lets a request pass, holding its recipient's row, and what it
    answers otherwise. Nothing is written either way.
   */
  lemma LockDecides(s: State, id: RequestId, r: AgentId)
    requires AgentsKnown(s) && id in s.running && s.running[id].phase.Resolved?
    requires Names(s.db, s.running[id].phase.locator, r) && r !in s.locks && s.running[id].call.sender in s.db.agents
    ensures var x, t := s.running[id], Step(s, Lock(id));
            && t.db == s.db
            && (id in t.running <==> Admissible(s.db, x.call.sender, r))
            && (id in t.running ==>
                  t.running[id] == Running(x.call, Locked(r, x.phase.thread)) && t.locks == s.locks[r := id])
            && (id !in t.running ==>
                  id in t.done && t.done[id].call == x.call
                  && TurnedAway(s.db, x.call.sender, r, t.done[id].outcome))
  {
    FindsNamed(s, s.running[id].phase.locator, r);
    DecisionIsPolicy(s.db, s.running[id].call.sender, r);
  }

  lemma LockFindsNobody(s: State, id: RequestId)
    requires AgentsKnown(s) && id in s.running && s.running[id].phase.Resolved?
    requires forall r :: !Names(s.db, s.running[id].phase.locator, r)
    ensures var t := Step(s, Lock(id));
            t.db == s.db && id !in t.running && id in t.done
              && t.done[id] == Done(s.running[id].call, RecipientNotFound)
  {
    var locator := s.running[id].phase.locator;
    forall r ensures !Located(s.db, locator, r) { assert !Names(s.db, locator, r); }
  }

  // ----- The rows of agents -----

  /** What a step makes of an agent's row: nothing else than its access or deactivation says, and not while locked. */
  ghost function AgentAfter(s: State, e: Event, a: AgentId): Agent
    requires a in s.db.agents
  {
    var row := s.db.agents[a];
    if a in s.locks then row
    else if e.SetAccess? && e.agent == a then row.(policy := e.policy, rules := e.rules)
    else if e == Deactivate(a) then row.(active := false)
    else row
  }

  lemma RegisterMoves(s: State, row: Agent, a: AgentId)
    requires a in s.db.agents
    ensures a in RegisterStep(s, row).db.agents && RegisterStep(s, row).db.agents[a] == s.db.agents[a]
  {
  }

  lemma AccessMoves(s: State, b: AgentId, policy: Policy, rules: set<Rule>, a: AgentId)
    requires a in s.db.agents
    ensures var t := SetAccessStep(s, b, policy, rules);
            && a in t.db.agents
            && t.db.agents[a] ==
              if a == b && a !in s.locks then s.db.agents[a].(policy := policy, rules := rules) else s.db.agents[a]
  {
  }

  lemma DeactivationMoves(s: State, b: AgentId, a: AgentId)
    requires a in s.db.agents
    ensures var t := DeactivateStep(s, b);
            && a in t.db.agents
            && t.db.agents[a] ==
              if a == b && a !in s.locks then s.db.agents[a].(active := false) else s.db.agents[a]
  {
  }

  lemma AgentRowMoves(s: State, e: Event, a: AgentId)
    requires a in s.db.agents
    ensures a in Step(s, e).db.agents && Step(s, e).db.agents[a] == AgentAfter(s, e, a)
  {
    match e
    case Register(row) => RegisterMoves(s, row, a);
    case SetAccess(b, policy, rules) => AccessMoves(s, b, policy, rules, a);
    case Deactivate(b) => DeactivationMoves(s, b, a);
    case _ => StepOtherRows(s, e);
  }

  /** A new agent is stored as given, under an address of its own. */
  lemma NewAgentRow(s: State, e: Event, a: AgentId)
    requires a in Step(s, e).db.agents && a !in s.db.agents
    ensures e.Register? && Step(s, e).db.agents[a] == e.row
    ensures forall b | b in s.db.agents :: s.db.agents[b].address != e.row.address
  {
    if !e.Register? { OthersRegisterNobody(s, e); }
  }

  lemma OthersUploadNothing(s: State, e: Event)
    requires !e.Upload? && !e.Finish?
    ensures Step(s, e).db.attachments == s.db.attachments
  {
    match e
    case Resolve(_) =>
    case Lock(_) =>
    case _ =>
  }

  /** A new attachment is its uploader's, and belongs to no message. */
  lemma NewAttachmentRow(s: State, e: Event, x: AttachmentId)
    requires x in Step(s, e).db.attachments && x !in s.db.attachments
    ensures e.Upload? && e.attachment == x
    ensures Step(s, e).db.attachments[x].uploader == e.uploader && Step(s, e).db.attachments[x].message.None?
  {
    if e.Finish? { StepRows(s, e); } else if !e.Upload? { OthersUploadNothing(s, e); }
  }

  /** An agent that was deactivated receives nothing more, in any run. */
  lemma {:induction false} NothingForInactive(s: State, events: seq<Event>, r: AgentId, n: nat)
    requires Inv(s) && AgentsKnown(s) && r in s.db.agents && !s.db.agents[r].active
    ensures var t := Run(s, events);
            n in t.db.deliveries && n !in s.db.deliveries ==> t.db.deliveries[n].recipient != r
    decreases |events|
  {
    if events != [] {
      var e := events[0];
      var u := Step(s, e);
      AgentRowMoves(s, e, r);
      StepAgentsKnown(s, e);
      StepInv(s, e);
      NothingForInactive(u, events[1..], r, n);
      if n in u.db.deliveries && n !in s.db.deliveries {
        NewDelivery(s, e, n);
        assert Admitted(s.db, s.running[e.id]);
        RunKeepsDelivery(u, events[1..], n);
      }
    }
  }

  lemma {:induction false} RunKeepsDelivery(s: State, events: seq<Event>, n: nat)
    requires Inv(s) && n in s.db.deliveries
    ensures n in Run(s, events).db.deliveries
      && Run(s, events).db.deliveries[n].recipient == s.db.deliveries[n].recipient
    decreases |events|
  {
    if events != [] {
      StepGrows(s, events[0]);
      StepInv(s, events[0]);
      RunKeepsDelivery(Step(s, events[0]), events[1..], n);
    }
  }

  // ----- A call that nobody disturbs -----

  ghost predicate Printable(key: Key) {
    |key| > 0 && |key| < 256 && forall i | 0 <= i < |key| :: 33 <= key[i] as int && key[i] as int < 127
  }

  ghost predicate MaySee(db: Db, agent: AgentId, message: MessageId) {
    && message in db.messages
    && (agent == db.messages[message].sender || exists n :: IsOf(db, n, message) && db.deliveries[n].recipient == agent)
  }

  /** Each attachment is listed once, was uploaded by the sender, and belongs to no message yet. */
  ghost predicate Free(db: Db, sender: AgentId, ids: seq<AttachmentId>) {
    && (forall i, j | 0 <= i < |ids| && 0 <= j < |ids| && i != j :: ids[i] != ids[j])
    && (forall a | a in ids ::
      a in db.attachments && db.attachments[a].uploader == sender && db.attachments[a].message == None)
  }

  function Steps5(id: RequestId, call: Call, at: int): seq<Event> {
    [Begin(id, call), Resolve(id), Lock(id), Insert(id, at), Finish(id)]
  }

  /** Message `m` with delivery `n`, its key and its attachments, and nothing else. */
  ghost predicate Stored(before: Db, after: Db, m: MessageId, n: nat, call: Call, r: AgentId, at: int) {
    var request := call.request;
    && m !in before.messages && n !in before.deliveries && after.agents == before.agents
    && after.messages.Keys == before.messages.Keys + {m}
    && (forall k | k in before.messages :: after.messages[k] == before.messages[k])
    && after.messages[m].sender == call.sender && after.messages[m].content == request.content
    && after.messages[m].createdAt == at
    && after.messages[m].replyTo == (if request.Reply? then Some(request.parent) else None)
    && after.messages[m].thread ==
      (if request.Reply? && request.parent in before.messages then before.messages[request.parent].thread else m)
    && after.deliveries == before.deliveries[n := Delivery(m, r, Delivered, None, None)]
    && after.keys == before.keys[(call.sender, call.key) := KeyRow(request, m)]
    && after.attachments.Keys == before.attachments.Keys
    && forall a | a in before.attachments ::
      && after.attachments[a].uploader == before.attachments[a].uploader
      && after.attachments[a].message ==
        (if a in request.content.attachments then Some(m) else before.attachments[a].message)
  }

  /** The answer before a recipient is looked for, if there is one. */
  ghost function EarlyAnswer(db: Db, call: Call): Option<Outcome> {
    var k := (call.sender, call.key);
    if !Printable(call.key) then Some(InvalidKey)
    else if k in db.keys && db.keys[k].request == call.request then Some(Sent(db.keys[k].message, true))
    else if k in db.keys then Some(KeyConflict)
    else if call.request.Send? then None
    else if !MaySee(db, call.sender, call.request.parent) then Some(MessageNotFound)
    else if call.request.content.kind == TypeResult && db.messages[call.request.parent].content.kind != TypeTask
    then Some(InvalidTransition)
    else None
  }

  ghost predicate Calm(s: State, id: RequestId, call: Call) {
    && Inv(s) && AgentsKnown(s) && s.running == map[] && id !in s.done && call.sender in s.db.agents
  }

  lemma NoLocks(s: State)
    requires LocksMatch(s) && s.running == map[]
    ensures s.locks == map[]
  {
  }

  lemma PrintableIsValid(key: Key)
    ensures Printable(key) <==> ValidKey(key)
  {
  }

  lemma SeesVisible(db: Db, agent: AgentId, message: MessageId)
    ensures MaySee(db, agent, message) <==> Visible(db, agent, message)
  {
    if MaySee(db, agent, message) && agent != db.messages[message].sender {
      var n :| IsOf(db, n, message) && db.deliveries[n].recipient == agent;
      assert n in db.deliveries;
    }
    if IsRecipient(db, agent, message) {
      var n :| n in db.deliveries && db.deliveries[n].message == message && db.deliveries[n].recipient == agent;
      assert IsOf(db, n, message);
    }
  }

  lemma FreeIsBindable(db: Db, sender: AgentId, ids: seq<AttachmentId>)
    ensures Free(db, sender, ids) <==> Bindable(db, sender, ids)
  {
    if Free(db, sender, ids) {
      forall a | a in ids ensures a in db.attachments && db.attachments[a] == Attachment(sender, None) {
      }
    }
  }

  /** Only one agent is on the other side of a message. */
  lemma OtherParty(db: Db, message: MessageId, sender: AgentId, a: AgentId, b: AgentId)
    requires OneDeliveryEach(db) && Parties(db, message, sender, a) && Parties(db, message, sender, b)
    ensures a == b
  {
    var n :| IsOf(db, n, message) && (Went(db, n, sender, a) || Went(db, n, a, sender));
    var m :| IsOf(db, m, message) && (Went(db, m, sender, b) || Went(db, m, b, sender));
    assert n == m;
  }

  lemma BeginAlone(s: State, id: RequestId, call: Call)
    requires Calm(s, id, call)
    ensures var t := Step(s, Begin(id, call));
            && t.db == s.db
            && (id in t.running ==>
                  t == s.(running := map[id := Running(call, LookedUp)]) && Printable(call.key)
                  && (call.sender, call.key) !in s.db.keys)
            && (id !in t.running ==>
                  t.running == map[] && id in t.done && EarlyAnswer(s.db, call) == Some(t.done[id].outcome))
  {
    PrintableIsValid(call.key);
  }

  /** Where the call goes, if there is such an agent. */
  ghost predicate Reaches(db: Db, call: Call, r: AgentId) {
    r in db.agents && GoesTo(db, call.sender, call.request, r)
  }

  ghost predicate ThreadOf(db: Db, request: Request, thread: Option<MessageId>) {
    thread == if request.Reply? && request.parent in db.messages then Some(db.messages[request.parent].thread) else None
  }

  lemma ResolveAlone(s: State, id: RequestId, call: Call)
    requires OneDeliveryEach(s.db) && NumbersFresh(s) && s.running == map[id := Running(call, LookedUp)]
    requires Printable(call.key) && (call.sender, call.key) !in s.db.keys
    ensures var t := Step(s, Resolve(id));
            && t.db == s.db
            && (id in t.running ==>
                  && t == s.(running := t.running) && t.running.Keys == {id} && t.running[id].call == call
                  && t.running[id].phase.Resolved? && ThreadOf(s.db, call.request, t.running[id].phase.thread)
                  && EarlyAnswer(s.db, call) == None
                  && forall r :: Names(s.db, t.running[id].phase.locator, r) <==> Reaches(s.db, call, r))
            && (id !in t.running ==>
                  t.running == map[] && id in t.done && EarlyAnswer(s.db, call) == Some(t.done[id].outcome))
  {
    if call.request.Reply? {
      SeesVisible(s.db, call.sender, call.request.parent);
      ResolveReply(s, id, call);
    }
  }

  lemma ResolveReply(s: State, id: RequestId, call: Call)
    requires OneDeliveryEach(s.db) && NumbersFresh(s) && s.running == map[id := Running(call, LookedUp)]
    requires call.request.Reply?
    ensures var p := call.request.parent;
            Visible(s.db, call.sender, p)
            && (call.request.content.kind == TypeResult ==> s.db.messages[p].content.kind == TypeTask) ==>
              var t := Step(s, Resolve(id));
              && id in t.running && t.running[id].phase.Resolved? && t.running[id].phase.locator.ById?
              && forall r :: Parties(s.db, p, call.sender, r) <==> r == t.running[id].phase.locator.id
  {
    var p := call.request.parent;
    if Visible(s.db, call.sender, p)
      && (call.request.content.kind == TypeResult ==> s.db.messages[p].content.kind == TypeTask)
    {
      assert HasDelivery(s.db, p);
      var n :| n in s.db.deliveries && s.db.deliveries[n].message == p;
      assert n <= s.counter;
      ResolveHeads(s, id);
      var other := Step(s, Resolve(id)).running[id].phase.locator.id;
      forall r | Parties(s.db, p, call.sender, r) ensures r == other {
        OtherParty(s.db, p, call.sender, r, other);
      }
    }
  }

  /** The last two steps of a call that holds its recipient's row. */
  lemma FinishAlone(s: State, id: RequestId, call: Call, r: AgentId, thread: Option<MessageId>, at: int)
    requires NumbersFresh(s) && s.running == map[id := Running(call, Locked(r, thread))]
    requires (call.sender, call.key) !in s.db.keys && ThreadOf(s.db, call.request, thread)
    requires forall n | n in s.db.deliveries :: n <= s.counter
    ensures var t := Step(Step(s, Insert(id, at)), Finish(id));
            && id in t.done
            && (if Free(s.db, call.sender, call.request.content.attachments)
                then t.done[id].outcome == Sent(s.nextMessage, false)
                  && Stored(s.db, t.db, s.nextMessage, s.counter + 1, call, r, at)
                else t.done[id].outcome == AttachmentUnavailable && t.db == s.db)
  {
    FreeIsBindable(s.db, call.sender, call.request.content.attachments);
    var u := Step(s, Insert(id, at));
    assert u.db == s.db;
    assert u.running[id] == Running(call, Inserted(r, thread, s.counter + 1, s.nextMessage, at));
  }

  lemma Over(s: State, id: RequestId, at: int)
    requires id !in s.running
    ensures Step(s, Resolve(id)) == s && Step(s, Lock(id)) == s && Step(s, Insert(id, at)) == s
    ensures Step(s, Finish(id)) == s
  {
  }

  /** What a call to `r` gets when nothing came before: refused, lacking its attachments, or stored. */
  ghost predicate Answered(before: Db, after: Db, m: MessageId, n: nat, call: Call, r: AgentId, at: int,
      outcome: Outcome) {
    && call.sender in before.agents && r in before.agents
    && if !Admissible(before, call.sender, r) then TurnedAway(before, call.sender, r, outcome) && after == before
       else if !Free(before, call.sender, call.request.content.attachments) then
         outcome == AttachmentUnavailable && after == before
       else outcome == Sent(m, false) && Stored(before, after, m, n, call, r, at)
  }

  lemma LockedAlone(s: State, id: RequestId, call: Call, r: AgentId, at: int)
    requires AgentsKnown(s) && NumbersFresh(s) && s.running.Keys == {id} && s.running[id].call == call
    requires s.running[id].phase.Resolved? && s.locks == map[] && call.sender in s.db.agents
    requires ThreadOf(s.db, call.request, s.running[id].phase.thread) && (call.sender, call.key) !in s.db.keys
    requires Names(s.db, s.running[id].phase.locator, r)
    ensures var t := Step(Step(Step(s, Lock(id)), Insert(id, at)), Finish(id));
            id in t.done && Answered(s.db, t.db, s.nextMessage, s.counter + 1, call, r, at, t.done[id].outcome)
  {
    LockDecides(s, id, r);
    var t := Step(s, Lock(id));
    if id in t.running {
      LockAdmits(s, id, r);
      FinishAlone(t, id, call, r, s.running[id].phase.thread, at);
    } else {
      Over(t, id, at);
    }
  }

  lemma LockAdmits(s: State, id: RequestId, r: AgentId)
    requires NumbersFresh(s) && s.running.Keys == {id} && s.running[id].phase.Resolved?
    requires var t := Step(s, Lock(id));
             id in t.running && t.running[id] == Running(s.running[id].call, Locked(r, s.running[id].phase.thread))
    ensures var t := Step(s, Lock(id));
            && t.running == map[id := Running(s.running[id].call, Locked(r, s.running[id].phase.thread))]
            && t.db == s.db && t.counter == s.counter && t.nextMessage == s.nextMessage && NumbersFresh(t)
  {
  }

  lemma NobodyAlone(s: State, id: RequestId, at: int)
    requires AgentsKnown(s) && id in s.running && s.running[id].phase.Resolved?
    requires forall r :: !Names(s.db, s.running[id].phase.locator, r)
    ensures var t := Step(Step(Step(s, Lock(id)), Insert(id, at)), Finish(id));
            t.db == s.db && id in t.done && t.done[id].outcome == RecipientNotFound
  {
    LockFindsNobody(s, id);
    Over(Step(s, Lock(id)), id, at);
  }

  /** The whole of one call, from its look-up to its commit. */
  ghost predicate Performed(s: State, t: State, id: RequestId, call: Call, at: int) {
    && id in t.done
    && var outcome := t.done[id].outcome;
    && (EarlyAnswer(s.db, call).Some? ==> outcome == EarlyAnswer(s.db, call).value && t.db == s.db)
    && (EarlyAnswer(s.db, call).None? && (forall r :: !Reaches(s.db, call, r)) ==>
          outcome == RecipientNotFound && t.db == s.db)
    && (EarlyAnswer(s.db, call).None? ==>
          forall r | Reaches(s.db, call, r) ::
            Answered(s.db, t.db, s.nextMessage, s.counter + 1, call, r, at, outcome))
  }

  ghost function LastThree(s: State, id: RequestId, at: int): State {
    Step(Step(Step(s, Lock(id)), Insert(id, at)), Finish(id))
  }

  lemma SomebodyAlone(s: State, u: State, id: RequestId, call: Call, r: AgentId, at: int)
    requires AgentsKnown(u) && NumbersFresh(u) && u.locks == map[] && call.sender in u.db.agents
    requires u == s.(running := u.running) && u.running.Keys == {id} && u.running[id].call == call
    requires u.running[id].phase.Resolved? && ThreadOf(s.db, call.request, u.running[id].phase.thread)
    requires (call.sender, call.key) !in s.db.keys && Names(s.db, u.running[id].phase.locator, r)
    ensures var t := LastThree(u, id, at);
            id in t.done && Answered(s.db, t.db, s.nextMessage, s.counter + 1, call, r, at, t.done[id].outcome)
  {
    LockedAlone(u, id, call, r, at);
  }

  lemma Concluded(s: State, t: State, id: RequestId, call: Call, at: int)
    requires EarlyAnswer(s.db, call).None? && id in t.done
    requires (forall r :: !Reaches(s.db, call, r)) ==> t.done[id].outcome == RecipientNotFound && t.db == s.db
    requires forall r | Reaches(s.db, call, r) ::
      Answered(s.db, t.db, s.nextMessage, s.counter + 1, call, r, at, t.done[id].outcome)
    ensures Performed(s, t, id, call, at)
  {
  }

  lemma ResolvedAlone(s: State, u: State, id: RequestId, call: Call, at: int)
    requires AgentsKnown(u) && NumbersFresh(u) && u.locks == map[] && call.sender in u.db.agents
    requires u == s.(running := u.running) && u.running.Keys == {id} && u.running[id].call == call
    requires u.running[id].phase.Resolved? && ThreadOf(s.db, call.request, u.running[id].phase.thread)
    requires EarlyAnswer(s.db, call).None? && (call.sender, call.key) !in s.db.keys
    requires forall r :: Names(s.db, u.running[id].phase.locator, r) <==> Reaches(s.db, call, r)
    ensures Performed(s, LastThree(u, id, at), id, call, at)
  {
    var t := LastThree(u, id, at);
    forall r | Reaches(s.db, call, r)
      ensures id in t.done && Answered(s.db, t.db, s.nextMessage, s.counter + 1, call, r, at, t.done[id].outcome)
    {
      SomebodyAlone(s, u, id, call, r, at);
    }
    if forall r :: !Names(s.db, u.running[id].phase.locator, r) { NobodyAlone(u, id, at); }
    Concluded(s, t, id, call, at);
  }

  lemma FromResolve(s: State, u: State, id: RequestId, call: Call, at: int)
    requires OneDeliveryEach(u.db) && NumbersFresh(u) && AgentsKnown(u) && u.locks == map[]
    requires call.sender in u.db.agents && u == s.(running := map[id := Running(call, LookedUp)])
    requires Printable(call.key) && (call.sender, call.key) !in s.db.keys
    ensures Performed(s, LastThree(Step(u, Resolve(id)), id, at), id, call, at)
  {
    ResolveAlone(u, id, call);
    var v := Step(u, Resolve(id));
    if id in v.running {
      ResolvedAlone(s, v, id, call, at);
    } else {
      Over(v, id, at);
    }
  }

  lemma FiveSteps(s: State, id: RequestId, call: Call, at: int)
    ensures Run(s, Steps5(id, call, at)) == LastThree(Step(Step(s, Begin(id, call)), Resolve(id)), id, at)
  {
    var a := Step(s, Begin(id, call));
    var b := Step(a, Resolve(id));
    var c := Step(b, Lock(id));
    var d := Step(c, Insert(id, at));
    Idempotency.Steps(s, Steps5(id, call, at), [s, a, b, c, d, Step(d, Finish(id))]);
  }

  lemma CallAlone(s: State, id: RequestId, call: Call, at: int)
    requires Calm(s, id, call)
    ensures Performed(s, Run(s, Steps5(id, call, at)), id, call, at)
  {
    FiveSteps(s, id, call, at);
    BeginAlone(s, id, call);
    var a := Step(s, Begin(id, call));
    if id in a.running {
      NoLocks(s);
      FromResolve(s, a, id, call, at);
    } else {
      Over(a, id, at);
    }
  }

  /**
    From any reachable state, a send or a reply that nobody disturbs: an early answer for a bad or
    stored key, an unseen parent or a result that answers no task; else it is turned away, lacks
    its attachments, or is stored, all by the rows there were.
   */
  lemma UndisturbedCall(before: seq<Event>, id: RequestId, call: Call, at: int)
    requires var s := Run(EMPTY, before); s.running == map[] && id !in s.done && call.sender in s.db.agents
    ensures Performed(Run(EMPTY, before), Run(Run(EMPTY, before), Steps5(id, call, at)), id, call, at)
  {
    EmptyInv();
    RunInv(EMPTY, before);
    RunAgentsKnown(EMPTY, before);
    CallAlone(Run(EMPTY, before), id, call, at);
  }
}
