/** What every event keeps, and so every run from the empty database has. */
module MailboxSafety {
  import opened Prelude
  import opened Mailbox

  /** A row lock belongs to exactly the running request that is past its lock step. */
  ghost predicate LocksMatch(s: State) {
    && (forall r | r in s.locks :: s.locks[r] in s.running && HoldsLock(s.running[s.locks[r]], r))
    && (forall id | id in s.running :: LockTaken(s.locks, id, s.running[id].phase))
  }

  ghost predicate LockTaken(locks: map<AgentId, RequestId>, id: RequestId, p: Phase) {
    p.Locked? || p.Inserted? ==> p.recipient in locks && locks[p.recipient] == id
  }

  /** Numbers and message ids already drawn are never drawn again. */
  ghost predicate NumbersFresh(s: State) {
    && (forall n | n in s.db.deliveries :: 0 < n <= s.counter)
    && (forall m | m in s.db.messages :: m < s.nextMessage)
    && (forall id | id in s.running :: Uncommitted(s, s.running[id].phase))
    && (forall i, j | i in s.running && j in s.running && i != j ::
          DrawnApart(s.running[i].phase, s.running[j].phase))
  }

  ghost predicate Uncommitted(s: State, p: Phase) {
    p.Inserted? ==>
      0 < p.number <= s.counter && p.number !in s.db.deliveries && p.id !in s.db.messages && p.id < s.nextMessage
  }

  ghost predicate DrawnApart(p: Phase, q: Phase) {
    p.Inserted? && q.Inserted? ==> p.number != q.number && p.id != q.id
  }

  /** A number drawn but not committed is above everything committed for its recipient. */
  ghost predicate InsertedOnTop(s: State) {
    forall id | id in s.running :: OnTop(s.db, s.running[id].phase)
  }

  ghost predicate OnTop(db: Db, p: Phase) {
    p.Inserted? ==> forall n | n in db.deliveries && db.deliveries[n].recipient == p.recipient :: n < p.number
  }

  /** The part of the invariant about locks and numbers. */
  ghost predicate Ordered(s: State) {
    LocksMatch(s) && NumbersFresh(s) && InsertedOnTop(s)
  }

  /** While a request holds the lock, the recipient's policy still admits its sender. */
  ghost predicate StillPermitted(s: State) {
    forall id | id in s.running :: Admitted(s.db, s.running[id])
  }

  ghost predicate Admitted(db: Db, x: Running) {
    x.phase.Locked? || x.phase.Inserted? ==> Permits(db, x.call.sender, x.phase.recipient)
  }

  /** Messages and deliveries are in bijection. */
  ghost predicate OneDeliveryEach(db: Db) {
    && (forall n | n in db.deliveries :: db.deliveries[n].message in db.messages)
    && (forall i, j | i in db.deliveries && j in db.deliveries && i != j ::
          db.deliveries[i].message != db.deliveries[j].message)
    && (forall m | m in db.messages :: HasDelivery(db, m))
  }

  ghost predicate HasDelivery(db: Db, m: MessageId) {
    exists n :: n in db.deliveries && db.deliveries[n].message == m
  }

  /** Messages and idempotency rows are in bijection, and each row describes its message. */
  ghost predicate OneKeyEach(db: Db) {
    && (forall k | k in db.keys ::
      db.keys[k].message in db.messages && Describes(k, db.keys[k], db.messages[db.keys[k].message]))
    && (forall i, j | i in db.keys && j in db.keys && i != j :: db.keys[i].message != db.keys[j].message)
    && (forall m | m in db.messages :: HasKey(db, m))
  }

  ghost predicate HasKey(db: Db, m: MessageId) {
    exists k :: k in db.keys && db.keys[k].message == m
  }

  ghost predicate Describes(k: (AgentId, Key), row: KeyRow, m: Message) {
    && m.sender == k.0
    && m.content == row.request.content
    && m.replyTo == (if row.request.Reply? then Some(row.request.parent) else None)
  }

  /** An attachment is bound to a message exactly when that message, by its uploader, lists it. */
  ghost predicate AttachmentsMatch(db: Db) {
    && (forall a | a in db.attachments && db.attachments[a].message.Some? ::
          var m := db.attachments[a].message.value;
          m in db.messages && a in db.messages[m].content.attachments
            && db.messages[m].sender == db.attachments[a].uploader)
    && (forall m, a | m in db.messages && a in db.messages[m].content.attachments ::
          a in db.attachments && db.attachments[a].message == Some(m))
  }

  /** Every answer that names a message names the one stored under the caller's key. */
  ghost predicate AnswersBacked(s: State) {
    && s.running.Keys !! s.done.Keys
    && forall id | id in s.done :: Backed(s.db, s.done[id])
  }

  ghost predicate Backed(db: Db, d: Done) {
    d.outcome.Sent? ==>
      && (d.call.sender, d.call.key) in db.keys
      && db.keys[(d.call.sender, d.call.key)] == KeyRow(d.call.request, d.outcome.message)
  }

  ghost predicate Staged(d: Delivery) {
    match d.status
    case Delivered => d.readAt == None && d.ackedAt == None
    case Read => d.readAt.Some? && d.ackedAt == None
    case Acked => d.readAt.Some? && d.ackedAt.Some?
    case _ => false
  }

  ghost predicate LifecyclesHold(db: Db) {
    forall n | n in db.deliveries :: Staged(db.deliveries[n])
  }

  ghost predicate TablesMatch(db: Db) {
    OneDeliveryEach(db) && OneKeyEach(db) && LifecyclesHold(db)
  }

  ghost predicate Inv(s: State) {
    && Ordered(s)
    && StillPermitted(s)
    && TablesMatch(s.db)
    && SendersKnown(s.db)
    && AttachmentsMatch(s.db)
    && AnswersBacked(s)
  }

  ghost predicate SendersKnown(db: Db) {
    forall m | m in db.messages :: db.messages[m].sender in db.agents
  }

  // ----- Order: the lock makes numbers grow in commit order -----

  lemma EndOrdered(s: State, id: RequestId, outcome: Outcome)
    requires Ordered(s) && id in s.running
    ensures Ordered(End(s, id, outcome))
  {
  }

  lemma AdvanceOrdered(s: State, id: RequestId, locator: Locator, thread: Option<MessageId>)
    requires Ordered(s) && id in s.running && s.running[id].phase.LookedUp?
    ensures Ordered(Advance(s, id, Resolved(locator, thread)))
  {
  }

  lemma ResolveOrdered(s: State, id: RequestId)
    requires Ordered(s)
    ensures Ordered(ResolveStep(s, id))
  {
    if id in s.running && s.running[id].phase.LookedUp? {
      forall locator, thread ensures Ordered(Advance(s, id, Resolved(locator, thread))) {
        AdvanceOrdered(s, id, locator, thread);
      }
      forall outcome ensures Ordered(End(s, id, outcome)) { EndOrdered(s, id, outcome); }
    }
  }

  /** A request whose phase has drawn no number, new or moved on, leaves the order as it was. */
  lemma UnnumberedOrdered(s: State, t: State, id: RequestId)
    requires NumbersFresh(s) && InsertedOnTop(s)
    requires t.db == s.db && t.counter == s.counter && t.nextMessage == s.nextMessage
    requires forall i | i in t.running && i != id :: i in s.running && t.running[i].phase == s.running[i].phase
    requires id in t.running ==> !t.running[id].phase.Inserted?
    ensures NumbersFresh(t) && InsertedOnTop(t)
  {
    forall i | i in t.running ensures Uncommitted(t, t.running[i].phase) && OnTop(t.db, t.running[i].phase) {
      if i != id {
        assert Uncommitted(s, s.running[i].phase) && OnTop(s.db, s.running[i].phase);
      }
    }
  }

  lemma BeginLocks(s: State, id: RequestId, call: Call)
    requires LocksMatch(s)
    ensures LocksMatch(BeginStep(s, id, call))
  {
  }

  lemma BeginOrdered(s: State, id: RequestId, call: Call)
    requires Ordered(s)
    ensures Ordered(BeginStep(s, id, call))
  {
    if id !in s.running {
      BeginLocks(s, id, call);
      UnnumberedOrdered(s, BeginStep(s, id, call), id);
    }
  }

  /** Agents, attachments, policies and delivery statuses play no part in the order. */
  lemma RowsOrdered(s: State, db: Db)
    requires Ordered(s)
    requires db.messages == s.db.messages && db.deliveries.Keys == s.db.deliveries.Keys
    requires forall n | n in db.deliveries :: db.deliveries[n].recipient == s.db.deliveries[n].recipient
    ensures Ordered(s.(db := db))
  {
  }

  lemma LockedOrdered(s: State, id: RequestId, recipient: AgentId)
    requires Ordered(s) && id in s.running && s.running[id].phase.Resolved? && recipient !in s.locks
    ensures Ordered(Advance(s, id, Locked(recipient, s.running[id].phase.thread)).(locks := s.locks[recipient := id]))
  {
    LockedLocks(s, id, recipient);
    UnnumberedOrdered(s,
      Advance(s, id, Locked(recipient, s.running[id].phase.thread)).(locks := s.locks[recipient := id]), id);
  }

  lemma LockedLocks(s: State, id: RequestId, recipient: AgentId)
    requires LocksMatch(s) && id in s.running && s.running[id].phase.Resolved? && recipient !in s.locks
    ensures LocksMatch(
      Advance(s, id, Locked(recipient, s.running[id].phase.thread)).(locks := s.locks[recipient := id]))
  {
  }

  lemma LockOrdered(s: State, id: RequestId)
    requires Ordered(s)
    ensures Ordered(LockStep(s, id))
  {
    if id in s.running && s.running[id].phase.Resolved? {
      var x := s.running[id];
      var found := Find(s.db, x.phase.locator, s.nextAgent);
      if found.Some? && found.value !in s.locks {
        LockedOrdered(s, id, found.value);
      }
      forall outcome ensures Ordered(End(s, id, outcome)) { EndOrdered(s, id, outcome); }
    }
  }

  lemma InsertLocks(s: State, id: RequestId, at: int)
    requires LocksMatch(s)
    ensures LocksMatch(InsertStep(s, id, at))
  {
  }

  lemma InsertNumbers(s: State, id: RequestId, at: int)
    requires NumbersFresh(s) && InsertedOnTop(s)
    ensures NumbersFresh(InsertStep(s, id, at)) && InsertedOnTop(InsertStep(s, id, at))
  {
    if id in s.running && s.running[id].phase.Locked? {
      var t := InsertStep(s, id, at);
      forall i | i in t.running ensures Uncommitted(t, t.running[i].phase) && OnTop(t.db, t.running[i].phase) {
        assert Uncommitted(s, s.running[i].phase) && OnTop(s.db, s.running[i].phase);
      }
      forall i, j | i in t.running && j in t.running && i != j
        ensures DrawnApart(t.running[i].phase, t.running[j].phase)
      {
        assert Uncommitted(s, s.running[i].phase) && Uncommitted(s, s.running[j].phase);
        assert DrawnApart(s.running[i].phase, s.running[j].phase);
      }
    }
  }

  lemma InsertOrdered(s: State, id: RequestId, at: int)
    requires Ordered(s)
    ensures Ordered(InsertStep(s, id, at))
  {
    InsertLocks(s, id, at);
    InsertNumbers(s, id, at);
  }

  lemma FinishOrdered(s: State, id: RequestId)
    requires Ordered(s)
    ensures Ordered(FinishStep(s, id))
  {
    if id in s.running && s.running[id].phase.Inserted? {
      EndOrdered(s, id, FinishOutcome(s.db, s.running[id]));
    }
  }

  lemma AgentRowsOrdered(s: State, e: Event)
    requires Ordered(s) && (e.Register? || e.SetAccess? || e.Deactivate? || e.Upload?)
    ensures Ordered(Step(s, e))
  {
    var t := Step(s, e);
    assert t.db.messages == s.db.messages && t.db.deliveries == s.db.deliveries;
    RowsOrdered(s, t.db);
    assert Ordered(s.(db := t.db));
  }

  lemma OtherOrdered(s: State, e: Event)
    requires Ordered(s) && (e.Transition? || e.Register? || e.SetAccess? || e.Deactivate? || e.Upload?)
    ensures Ordered(Step(s, e))
  {
    if e.Transition? { RowsOrdered(s, Step(s, e).db); } else { AgentRowsOrdered(s, e); }
  }

  lemma StepOrdered(s: State, e: Event)
    requires Ordered(s)
    ensures Ordered(Step(s, e))
  {
    match e
    case Begin(id, call) => BeginOrdered(s, id, call);
    case Resolve(id) => ResolveOrdered(s, id);
    case Lock(id) => LockOrdered(s, id);
    case Insert(id, at) => InsertOrdered(s, id, at);
    case Finish(id) => FinishOrdered(s, id);
    case Crash(id) => if id in s.running { EndOrdered(s, id, Lost); }
    case _ => OtherOrdered(s, e);
  }

  // ----- Access: the lock freezes the recipient's policy until the request ends -----

  /** `after` keeps every delivery and message of `before`, apart from delivery statuses. */
  ghost predicate Grows(before: Db, after: Db) {
    && before.messages.Keys <= after.messages.Keys
    && (forall m | m in before.messages :: after.messages[m] == before.messages[m])
    && before.deliveries.Keys <= after.deliveries.Keys
    && (forall n | n in before.deliveries ::
          after.deliveries[n].message == before.deliveries[n].message
          && after.deliveries[n].recipient == before.deliveries[n].recipient)
  }

  lemma CorrespondedKept(before: Db, after: Db, first: AgentId, second: AgentId)
    requires Grows(before, after) && Corresponded(before, first, second)
    ensures Corresponded(after, first, second)
  {
    var n :| n in before.deliveries && before.deliveries[n].message in before.messages
             && var sender := before.messages[before.deliveries[n].message].sender;
             || (sender == first && before.deliveries[n].recipient == second)
             || (sender == second && before.deliveries[n].recipient == first);
    assert n in after.deliveries && after.deliveries[n].message in after.messages;
  }

  lemma PermitsKept(before: Db, after: Db, sender: AgentId, recipient: AgentId)
    requires Grows(before, after) && Permits(before, sender, recipient)
    requires sender in after.agents && recipient in after.agents
    requires after.agents[recipient] == before.agents[recipient]
    requires after.agents[sender].address == before.agents[sender].address
    requires after.agents[sender].domain == before.agents[sender].domain
    ensures Permits(after, sender, recipient)
  {
    forall rule ensures Matches(rule, after.agents[sender]) == Matches(rule, before.agents[sender]) {}
    if Corresponded(before, sender, recipient) {
      CorrespondedKept(before, after, sender, recipient);
    }
  }

  /** Only finishing and delivery transitions change messages, deliveries or keys. */
  lemma StepRows(s: State, e: Event)
    ensures var t := Step(s, e);
            match e
            case Finish(id) =>
              if id in s.running && s.running[id].phase.Inserted?
                 && FinishOutcome(s.db, s.running[id]) == Sent(s.running[id].phase.id, false)
              then t.db == Committed(s.db, s.running[id]) else t.db == s.db
            case Transition(agent, message, command, at) =>
              t.db == s.db.(deliveries := ApplyWhere(s.db.deliveries, agent, message, command, at))
            case _ =>
              t.db.messages == s.db.messages && t.db.deliveries == s.db.deliveries && t.db.keys == s.db.keys
  {
  }

  /** Every event only adds rows, apart from delivery statuses. */
  lemma StepGrows(s: State, e: Event)
    requires NumbersFresh(s)
    ensures Grows(s.db, Step(s, e).db)
  {
    StepRows(s, e);
  }

  /** Agents change only by the three agent events. */
  lemma StepOtherRows(s: State, e: Event)
    requires !e.Register? && !e.SetAccess? && !e.Deactivate?
    ensures Step(s, e).db.agents == s.db.agents
  {
    match e
    case Finish(_) =>
    case Resolve(_) =>
    case Lock(_) =>
    case _ =>
  }

  ghost predicate IdentityKept(s: State, after: Db, agent: AgentId)
    requires agent in s.db.agents
  {
    && agent in after.agents
    && after.agents[agent].address == s.db.agents[agent].address
    && after.agents[agent].domain == s.db.agents[agent].domain
    && (agent in s.locks ==> after.agents[agent] == s.db.agents[agent])
  }

  lemma RegisterIdentity(s: State, row: Agent, agent: AgentId)
    requires agent in s.db.agents
    ensures IdentityKept(s, RegisterStep(s, row).db, agent)
  {
  }

  lemma AccessIdentity(s: State, other: AgentId, policy: Policy, rules: set<Rule>, agent: AgentId)
    requires agent in s.db.agents
    ensures IdentityKept(s, SetAccessStep(s, other, policy, rules).db, agent)
  {
  }

  lemma DeactivateIdentity(s: State, other: AgentId, agent: AgentId)
    requires agent in s.db.agents
    ensures IdentityKept(s, DeactivateStep(s, other).db, agent)
  {
  }

  /** No event changes a locked agent row, nor any agent's address or domain. */
  lemma StepAgents(s: State, e: Event, agent: AgentId)
    requires agent in s.db.agents
    ensures IdentityKept(s, Step(s, e).db, agent)
  {
    match e
    case Register(row) => RegisterIdentity(s, row, agent);
    case SetAccess(other, policy, rules) => AccessIdentity(s, other, policy, rules, agent);
    case Deactivate(other) => DeactivateIdentity(s, other, agent);
    case _ => StepOtherRows(s, e);
  }

  /** A request that holds a lock after a step either held it before or was admitted by this step. */
  lemma StepHolders(s: State, e: Event, id: RequestId)
    requires var t := Step(s, e); id in t.running && (t.running[id].phase.Locked? || t.running[id].phase.Inserted?)
    ensures var t := Step(s, e);
            && id in s.running && s.running[id].call == t.running[id].call
            && if s.running[id].phase.Locked? || s.running[id].phase.Inserted?
               then s.running[id].phase.recipient == t.running[id].phase.recipient
               else t.db == s.db && Permits(s.db, t.running[id].call.sender, t.running[id].phase.recipient)
  {
    match e
    case Lock(x) => LockHolders(s, x, id);
    case Begin(_, _) =>
    case Resolve(_) =>
    case Insert(_, _) =>
    case Finish(_) =>
    case Crash(_) =>
    case _ =>
  }

  lemma LockHolders(s: State, x: RequestId, id: RequestId)
    requires var t := LockStep(s, x); id in t.running && (t.running[id].phase.Locked? || t.running[id].phase.Inserted?)
    ensures var t := LockStep(s, x);
            && id in s.running && s.running[id].call == t.running[id].call && t.db == s.db
            && if id == x && s.running[id].phase.Resolved?
               then Permits(s.db, t.running[id].call.sender, t.running[id].phase.recipient)
               else s.running[id] == t.running[id]
  {
  }

  lemma StepPermitted(s: State, e: Event)
    requires Ordered(s) && StillPermitted(s)
    ensures StillPermitted(Step(s, e))
  {
    var t := Step(s, e);
    forall id | id in t.running && (t.running[id].phase.Locked? || t.running[id].phase.Inserted?)
      ensures Admitted(t.db, t.running[id])
    {
      StepHolders(s, e, id);
      if s.running[id].phase.Locked? || s.running[id].phase.Inserted? {
        var sender, recipient := t.running[id].call.sender, t.running[id].phase.recipient;
        assert LockTaken(s.locks, id, s.running[id].phase) && Admitted(s.db, s.running[id]);
        StepGrows(s, e);
        StepAgents(s, e, sender);
        StepAgents(s, e, recipient);
        PermitsKept(s.db, t.db, sender, recipient);
      }
    }
  }

  // ----- Tables: one delivery and one key row per message -----

  lemma CommittedDeliveries(db: Db, x: Running)
    requires OneDeliveryEach(db)
    requires x.phase.Inserted? && x.phase.number !in db.deliveries && x.phase.id !in db.messages
    ensures OneDeliveryEach(Committed(db, x))
  {
    var after := Committed(db, x);
    forall m | m in after.messages ensures HasDelivery(after, m) {
      if m == x.phase.id {
        assert after.deliveries[x.phase.number].message == m;
      } else {
        assert HasDelivery(db, m);
        var n :| n in db.deliveries && db.deliveries[n].message == m;
        assert after.deliveries[n].message == m;
      }
    }
  }

  lemma CommittedKeys(db: Db, x: Running)
    requires OneKeyEach(db)
    requires x.phase.Inserted? && x.phase.id !in db.messages && (x.call.sender, x.call.key) !in db.keys
    ensures OneKeyEach(Committed(db, x))
  {
    var after := Committed(db, x);
    var k := (x.call.sender, x.call.key);
    forall m | m in after.messages ensures HasKey(after, m) {
      if m == x.phase.id {
        assert after.keys[k].message == m;
      } else {
        assert HasKey(db, m);
        var j :| j in db.keys && db.keys[j].message == m;
        assert after.keys[j].message == m;
      }
    }
  }

  lemma DeliveriesCongruent(before: Db, after: Db)
    requires OneDeliveryEach(before) && after.messages == before.messages
    requires after.deliveries.Keys == before.deliveries.Keys
    requires forall n | n in after.deliveries :: after.deliveries[n].message == before.deliveries[n].message
    ensures OneDeliveryEach(after)
  {
    forall m | m in after.messages ensures HasDelivery(after, m) {
      assert HasDelivery(before, m);
      var n :| n in before.deliveries && before.deliveries[n].message == m;
      assert n in after.deliveries && after.deliveries[n].message == m;
    }
    forall i, j | i in after.deliveries && j in after.deliveries && i != j
      ensures after.deliveries[i].message != after.deliveries[j].message
    {
      assert before.deliveries[i].message != before.deliveries[j].message;
    }
  }

  lemma TransitionLifecycles(db: Db, after: Db, agent: AgentId, message: MessageId, command: Command, at: int)
    requires LifecyclesHold(db)
    requires after == db.(deliveries := ApplyWhere(db.deliveries, agent, message, command, at))
    ensures LifecyclesHold(after)
  {
  }

  lemma KeysCongruent(before: Db, after: Db)
    requires OneKeyEach(before) && after.messages == before.messages && after.keys == before.keys
    ensures OneKeyEach(after)
  {
    forall m | m in after.messages ensures HasKey(after, m) {
      assert HasKey(before, m);
    }
  }

  lemma CommittedAttachments(db: Db, x: Running)
    requires AttachmentsMatch(db) && x.phase.Inserted? && x.phase.id !in db.messages
    requires Bindable(db, x.call.sender, x.call.request.content.attachments)
    ensures AttachmentsMatch(Committed(db, x))
  {
    var after := Committed(db, x);
    forall m, a | m in after.messages && a in after.messages[m].content.attachments
      ensures a in after.attachments && after.attachments[a].message == Some(m)
    {
      if m != x.phase.id {
        assert m in db.messages && a in db.messages[m].content.attachments;
        assert db.attachments[a].message == Some(m);
        assert a !in x.call.request.content.attachments;
      }
    }
  }

  lemma FinishTables(s: State, id: RequestId)
    requires NumbersFresh(s) && TablesMatch(s.db)
    requires id in s.running && s.running[id].phase.Inserted?
    requires FinishOutcome(s.db, s.running[id]) == Sent(s.running[id].phase.id, false)
    ensures TablesMatch(Committed(s.db, s.running[id]))
  {
    var x := s.running[id];
    assert x.phase.number !in s.db.deliveries && x.phase.id !in s.db.messages;
    assert OneDeliveryEach(Committed(s.db, x)) by { CommittedDeliveries(s.db, x); }
    assert OneKeyEach(Committed(s.db, x)) by { CommittedKeys(s.db, x); }
  }

  lemma TransitionTables(db: Db, after: Db, agent: AgentId, message: MessageId, command: Command, at: int)
    requires TablesMatch(db)
    requires after == db.(deliveries := ApplyWhere(db.deliveries, agent, message, command, at))
    ensures TablesMatch(after)
  {
    assert OneDeliveryEach(after) by { DeliveriesCongruent(db, after); }
    assert OneKeyEach(after) by { KeysCongruent(db, after); }
    assert LifecyclesHold(after) by { TransitionLifecycles(db, after, agent, message, command, at); }
  }

  lemma StepTables(s: State, e: Event)
    requires NumbersFresh(s) && TablesMatch(s.db)
    ensures TablesMatch(Step(s, e).db)
  {
    StepRows(s, e);
    var after := Step(s, e).db;
    match e
    case Finish(id) =>
      if after != s.db {
        FinishTables(s, id);
      }
    case Transition(agent, message, command, at) =>
      TransitionTables(s.db, after, agent, message, command, at);
    case _ => TablesCongruent(s.db, after);
  }

  lemma TablesCongruent(before: Db, after: Db)
    requires TablesMatch(before)
    requires after.messages == before.messages && after.deliveries == before.deliveries && after.keys == before.keys
    ensures TablesMatch(after)
  {
    KeysCongruent(before, after);
    DeliveriesCongruent(before, after);
  }

  lemma FinishAttachments(s: State, id: RequestId)
    requires NumbersFresh(s) && AttachmentsMatch(s.db)
    ensures AttachmentsMatch(FinishStep(s, id).db)
  {
    if id in s.running && s.running[id].phase.Inserted? {
      if FinishOutcome(s.db, s.running[id]) == Sent(s.running[id].phase.id, false) {
        CommittedAttachments(s.db, s.running[id]);
      }
    }
  }

  /** Only a commit or an upload writes attachment rows. */
  lemma SendingAttachments(s: State, e: Event)
    requires e.Begin? || e.Resolve? || e.Lock? || e.Insert? || e.Crash?
    ensures Step(s, e).db == s.db
  {
    match e
    case Begin(_, _) =>
    case Resolve(_) =>
    case Lock(_) =>
    case Insert(_, _) =>
    case Crash(_) =>
  }

  lemma StepAttachments(s: State, e: Event)
    requires NumbersFresh(s) && AttachmentsMatch(s.db)
    ensures AttachmentsMatch(Step(s, e).db)
  {
    match e
    case Finish(id) => FinishAttachments(s, id);
    case Upload(_, _) =>
    case Transition(_, _, _, _) =>
    case Register(_) =>
    case SetAccess(_, _, _) =>
    case Deactivate(_) =>
    case _ => SendingAttachments(s, e);
  }

  // ----- Answers -----

  /** A stored key row is never changed or removed. */
  lemma StepKeys(s: State, e: Event, k: (AgentId, Key))
    requires k in s.db.keys
    ensures k in Step(s, e).db.keys && Step(s, e).db.keys[k] == s.db.keys[k]
  {
    StepRows(s, e);
  }

  /** A request that has its answer takes no further step. */
  lemma StepAnsweredOnce(s: State, e: Event)
    requires s.running.Keys !! s.done.Keys
    ensures Step(s, e).running.Keys !! Step(s, e).done.Keys
    ensures forall id | id in s.done :: id in Step(s, e).done && Step(s, e).done[id] == s.done[id]
  {
    match e
    case Finish(x) =>
    case Begin(x, call) =>
    case Resolve(x) =>
    case Lock(x) =>
    case _ =>
  }

  /** A new answer that names a message is backed by a key row. */
  lemma StepDone(s: State, e: Event, id: RequestId)
    requires id !in s.done && id in Step(s, e).done
    ensures Backed(Step(s, e).db, Step(s, e).done[id])
  {
    match e
    case Finish(x) =>
    case Begin(x, call) =>
    case Resolve(x) =>
    case Lock(x) =>
    case _ =>
  }

  lemma StepAnswers(s: State, e: Event)
    requires AnswersBacked(s)
    ensures AnswersBacked(Step(s, e))
  {
    var t := Step(s, e);
    assert t.running.Keys !! t.done.Keys by { StepAnsweredOnce(s, e); }
    forall id | id in t.done ensures Backed(t.db, t.done[id]) {
      if id in s.done {
        StepAnsweredOnce(s, e);
        assert Backed(s.db, s.done[id]);
        if s.done[id].outcome.Sent? {
          StepKeys(s, e, (s.done[id].call.sender, s.done[id].call.key));
        }
      } else {
        StepDone(s, e, id);
      }
    }
  }

  lemma StepSenders(s: State, e: Event)
    requires StillPermitted(s) && SendersKnown(s.db)
    ensures SendersKnown(Step(s, e).db)
  {
    StepRows(s, e);
    var after := Step(s, e).db;
    forall m | m in after.messages ensures after.messages[m].sender in after.agents {
      if m in s.db.messages && after.messages[m] == s.db.messages[m] {
        StepAgents(s, e, s.db.messages[m].sender);
      } else {
        assert Admitted(s.db, s.running[e.id]);
      }
    }
  }

  lemma StepInv(s: State, e: Event)
    requires Inv(s)
    ensures Inv(Step(s, e))
  {
    StepOrdered(s, e);
    StepPermitted(s, e);
    StepTables(s, e);
    StepSenders(s, e);
    StepAttachments(s, e);
    StepAnswers(s, e);
  }

  /** Every state reachable from one that satisfies the invariant satisfies it. */
  lemma {:induction false} RunInv(s: State, events: seq<Event>)
    requires Inv(s)
    ensures Inv(Run(s, events))
    decreases |events|
  {
    if events != [] {
      StepInv(s, events[0]);
      RunInv(Step(s, events[0]), events[1..]);
    }
  }

  lemma EmptyInv()
    ensures Inv(EMPTY)
  {
  }
}
