/**
  The durable inbox as a database shared by concurrent requests.

  `Db` holds the committed rows. A send or a reply is a request that runs in separate steps:
  key lookup, recipient resolution, locking the recipient's row, inserting with a number from
  the global sequence, and finishing (bind attachments, insert the key, commit). Between two
  steps of one request any other event may happen. Request hashes are injective, so rows keep
  the request itself.
 */
module Mailbox {
  import opened Prelude

  type AgentId = nat
  type MessageId = nat
  type AttachmentId = nat
  type RequestId = nat
  type Key = string

  // Addresses, domains and texts are only ever compared for equality.
  type Address = nat
  type Domain = nat
  type Text = nat

  datatype MessageType =
    | TypeMessage | TypeTask | TypeResult | TypeRequest | TypeResponse
    | TypeNotification | TypeEvent | TypeError | TypeSystem

  datatype Priority = Low | Normal | High | Urgent

  datatype Content = Content(
    subject: Text, body: Text, kind: MessageType, priority: Priority,
    attachments: seq<AttachmentId>)

  datatype Request =
    | Send(to: Address, content: Content)
    | Reply(parent: MessageId, content: Content)

  datatype Policy = Public | Allowlist | ContactsOnly | Private
  datatype Effect = Allow | Block
  datatype Subject = SubjectAgent(address: Address) | SubjectDomain(domain: Domain)
  datatype Rule = Rule(effect: Effect, subject: Subject)
  datatype Agent = Agent(address: Address, domain: Domain, active: bool, policy: Policy, rules: set<Rule>)

  datatype Message = Message(
    sender: AgentId, content: Content, thread: MessageId, replyTo: Option<MessageId>, createdAt: int)

  datatype Status = Accepted | Delivered | Read | Acked | Failed | Expired | Rejected

  datatype Delivery = Delivery(
    message: MessageId, recipient: AgentId, status: Status, readAt: Option<int>, ackedAt: Option<int>)

  datatype KeyRow = KeyRow(request: Request, message: MessageId)

  /** An attachment is pending exactly while `message` is None. */
  datatype Attachment = Attachment(uploader: AgentId, message: Option<MessageId>)

  datatype Db = Db(
    agents: map<AgentId, Agent>,
    messages: map<MessageId, Message>,
    deliveries: map<nat, Delivery>,
    keys: map<(AgentId, Key), KeyRow>,
    attachments: map<AttachmentId, Attachment>)

  datatype Locator = ByAddress(address: Address) | ById(id: AgentId)

  datatype Phase =
    | LookedUp
    | Resolved(locator: Locator, thread: Option<MessageId>)
    | Locked(recipient: AgentId, thread: Option<MessageId>)
    | Inserted(recipient: AgentId, thread: Option<MessageId>, number: nat, id: MessageId, at: int)

  datatype Call = Call(sender: AgentId, key: Key, request: Request)
  datatype Running = Running(call: Call, phase: Phase)

  datatype DenyReason = ExplicitBlock | PrivatePolicy | AllowRuleRequired

  datatype Outcome =
    | Sent(message: MessageId, replayed: bool)
    | InvalidKey
    | KeyConflict
    | MessageNotFound
    | InvalidTransition
    | RecipientNotFound
    | Denied(reason: DenyReason)
    | AttachmentUnavailable
    | Lost

  datatype Done = Done(call: Call, outcome: Outcome)

  /** `counter` is the last number drawn from the global sequence; an aborted request keeps its draw. */
  datatype State = State(
    db: Db,
    counter: nat,
    nextAgent: AgentId,
    nextMessage: MessageId,
    locks: map<AgentId, RequestId>,
    running: map<RequestId, Running>,
    done: map<RequestId, Done>)

  datatype Command = ReadCommand | AckCommand

  datatype Event =
    | Begin(id: RequestId, call: Call)
    | Resolve(id: RequestId)
    | Lock(id: RequestId)
    | Insert(id: RequestId, at: int)
    | Finish(id: RequestId)
    | Crash(id: RequestId)
    | Transition(agent: AgentId, message: MessageId, command: Command, at: int)
    | Register(row: Agent)
    | SetAccess(agent: AgentId, policy: Policy, rules: set<Rule>)
    | Deactivate(agent: AgentId)
    | Upload(attachment: AttachmentId, uploader: AgentId)

  // ----- Access decision -----

  predicate Matches(rule: Rule, sender: Agent) {
    match rule.subject
    case SubjectAgent(address) => address == sender.address
    case SubjectDomain(domain) => domain == sender.domain
  }

  /** Some delivery already went from one of the two agents to the other. */
  predicate Corresponded(db: Db, first: AgentId, second: AgentId) {
    exists n | n in db.deliveries ::
      && db.deliveries[n].message in db.messages
      && var sender := db.messages[db.deliveries[n].message].sender;
      || (sender == first && db.deliveries[n].recipient == second)
      || (sender == second && db.deliveries[n].recipient == first)
  }

  /** None when `sender` may deliver to `recipient`. */
  function Refusal(db: Db, sender: AgentId, recipient: AgentId): Option<DenyReason>
    requires sender in db.agents && recipient in db.agents
  {
    var owner := db.agents[recipient];
    var from := db.agents[sender];
    if exists rule | rule in owner.rules :: Matches(rule, from) && rule.effect == Block then
      Some(ExplicitBlock)
    else if owner.policy == Public then
      None
    else if owner.policy == Private then
      (if sender == recipient then None else Some(PrivatePolicy))
    else if exists rule | rule in owner.rules :: Matches(rule, from) && rule.effect == Allow then
      None
    else if owner.policy == ContactsOnly && Corresponded(db, sender, recipient) then
      None
    else
      Some(AllowRuleRequired)
  }

  predicate Permits(db: Db, sender: AgentId, recipient: AgentId) {
    && sender in db.agents && recipient in db.agents
    && db.agents[recipient].active
    && Refusal(db, sender, recipient) == None
  }

  // ----- Requests -----

  predicate ValidKey(key: Key) {
    1 <= |key| <= 255 && forall i | 0 <= i < |key| :: '!' <= key[i] <= '~'
  }

  /** Every listed attachment is pending, uploaded by the sender, and listed once. */
  predicate Bindable(db: Db, sender: AgentId, ids: seq<AttachmentId>) {
    && Distinct(ids)
    && forall a | a in ids :: a in db.attachments && db.attachments[a] == Attachment(sender, None)
  }

  predicate Visible(db: Db, agent: AgentId, message: MessageId) {
    && message in db.messages
    && (db.messages[message].sender == agent || IsRecipient(db, agent, message))
  }

  predicate IsRecipient(db: Db, agent: AgentId, message: MessageId) {
    exists n | n in db.deliveries :: db.deliveries[n].message == message && db.deliveries[n].recipient == agent
  }

  /** The recipient a message was delivered to, searching the numbers up to `last`. */
  function RecipientOf(db: Db, message: MessageId, last: nat): (r: Option<AgentId>)
    ensures r.Some? ==> IsRecipient(db, r.value, message)
    ensures r.None? ==> forall n | n in db.deliveries && n <= last :: db.deliveries[n].message != message
  {
    if last in db.deliveries && db.deliveries[last].message == message then Some(db.deliveries[last].recipient)
    else if last == 0 then None
    else RecipientOf(db, message, last - 1)
  }

  /** What a stored key answers to a request made under it. */
  function Replay(row: KeyRow, request: Request): Outcome {
    if row.request == request then Sent(row.message, true) else KeyConflict
  }

  predicate HoldsLock(x: Running, recipient: AgentId) {
    (x.phase.Locked? || x.phase.Inserted?) && x.phase.recipient == recipient
  }

  /** The request stops with `outcome`: its transaction ends, so its row lock is released. */
  function End(s: State, id: RequestId, outcome: Outcome): State
    requires id in s.running
  {
    s.(running := s.running - {id},
       locks := map r | r in s.locks && s.locks[r] != id :: s.locks[r],
       done := s.done[id := Done(s.running[id].call, outcome)])
  }

  function Advance(s: State, id: RequestId, phase: Phase): State
    requires id in s.running
  {
    s.(running := s.running[id := s.running[id].(phase := phase)])
  }

  function BeginStep(s: State, id: RequestId, call: Call): State {
    if id in s.running || id in s.done || call.sender !in s.db.agents then s
    else if !ValidKey(call.key) then
      s.(done := s.done[id := Done(call, InvalidKey)])
    else if (call.sender, call.key) in s.db.keys then
      s.(done := s.done[id := Done(call, Replay(s.db.keys[(call.sender, call.key)], call.request))])
    else
      s.(running := s.running[id := Running(call, LookedUp)])
  }

  /** A send names its recipient by address; a reply goes to the other party of a visible parent. */
  function ResolveStep(s: State, id: RequestId): State {
    if id !in s.running || !s.running[id].phase.LookedUp? then s
    else
      var call := s.running[id].call;
      match call.request
      case Send(to, _) => Advance(s, id, Resolved(ByAddress(to), None))
      case Reply(parent, content) =>
        if !Visible(s.db, call.sender, parent) then End(s, id, MessageNotFound)
        else
          var p := s.db.messages[parent];
          var other := RecipientOf(s.db, parent, s.counter);
          if content.kind == TypeResult && p.content.kind != TypeTask then End(s, id, InvalidTransition)
          else if call.sender != p.sender then Advance(s, id, Resolved(ById(p.sender), Some(p.thread)))
          else if other.Some? then Advance(s, id, Resolved(ById(other.value), Some(p.thread)))
          else End(s, id, MessageNotFound)
  }

  predicate Located(db: Db, locator: Locator, agent: AgentId) {
    && agent in db.agents
    && match locator
       case ByAddress(address) => db.agents[agent].address == address
       case ById(id) => agent == id
  }

  /** The agent at a locator, searching the ids below `bound`. */
  function Find(db: Db, locator: Locator, bound: nat): (r: Option<AgentId>)
    ensures r.Some? ==> Located(db, locator, r.value)
    ensures r.None? ==> forall agent: AgentId | Located(db, locator, agent) :: agent >= bound
  {
    if bound == 0 then None
    else if Located(db, locator, bound - 1) then Some(bound - 1)
    else Find(db, locator, bound - 1)
  }

  /**
    Waits while another request holds the row. A missing or inactive recipient and a refused
    sender end the request without keeping the lock.
   */
  function LockStep(s: State, id: RequestId): State {
    if id !in s.running || !s.running[id].phase.Resolved? then s
    else
      var x := s.running[id];
      var found := Find(s.db, x.phase.locator, s.nextAgent);
      if found == None then End(s, id, RecipientNotFound)
      else
        var recipient := found.value;
        if recipient in s.locks || x.call.sender !in s.db.agents then s
        else if !s.db.agents[recipient].active then End(s, id, RecipientNotFound)
        else
          match Refusal(s.db, x.call.sender, recipient)
          case Some(reason) => End(s, id, Denied(reason))
          case None =>
            Advance(s, id, Locked(recipient, x.phase.thread)).(locks := s.locks[recipient := id])
  }

  /** The flush of message and delivery draws the next number of the global sequence. */
  function InsertStep(s: State, id: RequestId, at: int): State {
    if id !in s.running || !s.running[id].phase.Locked? then s
    else
      var phase := s.running[id].phase;
      Advance(s, id, Inserted(phase.recipient, phase.thread, s.counter + 1, s.nextMessage, at))
        .(counter := s.counter + 1, nextMessage := s.nextMessage + 1)
  }

  function Bind(attachments: map<AttachmentId, Attachment>, ids: seq<AttachmentId>, id: MessageId)
    : map<AttachmentId, Attachment>
  {
    map a | a in attachments ::
      if a in ids then Attachment(attachments[a].uploader, Some(id)) else attachments[a]
  }

  /** The rows one successful send or reply adds. */
  function Committed(db: Db, x: Running): Db
    requires x.phase.Inserted?
  {
    var p := x.phase;
    var thread := if p.thread.Some? then p.thread.value else p.id;
    var replyTo := if x.call.request.Reply? then Some(x.call.request.parent) else None;
    db.(messages := db.messages[p.id := Message(x.call.sender, x.call.request.content, thread, replyTo, p.at)],
        deliveries := db.deliveries[p.number := Delivery(p.id, p.recipient, Delivered, None, None)],
        keys := db.keys[(x.call.sender, x.call.key) := KeyRow(x.call.request, p.id)],
        attachments := Bind(db.attachments, x.call.request.content.attachments, p.id))
  }

  /** What finishing answers: attachments are bound before the key row can collide. */
  function FinishOutcome(db: Db, x: Running): Outcome
    requires x.phase.Inserted?
  {
    if !Bindable(db, x.call.sender, x.call.request.content.attachments) then AttachmentUnavailable
    else if (x.call.sender, x.call.key) in db.keys then
      Replay(db.keys[(x.call.sender, x.call.key)], x.call.request)
    else Sent(x.phase.id, false)
  }

  function FinishStep(s: State, id: RequestId): State {
    if id !in s.running || !s.running[id].phase.Inserted? then s
    else
      var x := s.running[id];
      var outcome := FinishOutcome(s.db, x);
      var ended := End(s, id, outcome);
      if outcome == Sent(x.phase.id, false) then ended.(db := Committed(s.db, x)) else ended
  }

  // ----- Delivery transitions -----

  function Coalesce(stored: Option<int>, at: int): Option<int> {
    if stored.Some? then stored else Some(at)
  }

  /** The conditional update of one delivery row. */
  function Apply(d: Delivery, command: Command, at: int): Delivery {
    match command
    case ReadCommand =>
      if d.status == Delivered then d.(status := Read, readAt := Coalesce(d.readAt, at)) else d
    case AckCommand =>
      if d.status == Delivered || d.status == Read then
        d.(status := Acked, readAt := Coalesce(d.readAt, at), ackedAt := Coalesce(d.ackedAt, at))
      else d
  }

  function ApplyWhere(deliveries: map<nat, Delivery>, agent: AgentId, message: MessageId, command: Command, at: int)
    : map<nat, Delivery>
  {
    map n | n in deliveries ::
      if deliveries[n].message == message && deliveries[n].recipient == agent
      then Apply(deliveries[n], command, at) else deliveries[n]
  }

  predicate FreshAddress(db: Db, address: Address) {
    forall agent | agent in db.agents :: db.agents[agent].address != address
  }

  // ----- Other writers -----

  function RegisterStep(s: State, row: Agent): State {
    if s.nextAgent in s.db.agents || !FreshAddress(s.db, row.address) then s
    else s.(db := s.db.(agents := s.db.agents[s.nextAgent := row]), nextAgent := s.nextAgent + 1)
  }

  /** Changes to an agent row wait for the lock a delivery holds on it. */
  function SetAccessStep(s: State, agent: AgentId, policy: Policy, rules: set<Rule>): State {
    if agent !in s.db.agents || agent in s.locks then s
    else s.(db := s.db.(agents := s.db.agents[agent := s.db.agents[agent].(policy := policy, rules := rules)]))
  }

  function DeactivateStep(s: State, agent: AgentId): State {
    if agent !in s.db.agents || agent in s.locks then s
    else s.(db := s.db.(agents := s.db.agents[agent := s.db.agents[agent].(active := false)]))
  }

  function UploadStep(s: State, attachment: AttachmentId, uploader: AgentId): State {
    if attachment in s.db.attachments then s
    else s.(db := s.db.(attachments := s.db.attachments[attachment := Attachment(uploader, None)]))
  }

  // ----- Runs -----

  function Step(s: State, e: Event): State {
    match e
    case Begin(id, call) => BeginStep(s, id, call)
    case Resolve(id) => ResolveStep(s, id)
    case Lock(id) => LockStep(s, id)
    case Insert(id, at) => InsertStep(s, id, at)
    case Finish(id) => FinishStep(s, id)
    case Crash(id) => if id in s.running then End(s, id, Lost) else s
    case Transition(agent, message, command, at) =>
      s.(db := s.db.(deliveries := ApplyWhere(s.db.deliveries, agent, message, command, at)))
    case Register(row) => RegisterStep(s, row)
    case SetAccess(agent, policy, rules) => SetAccessStep(s, agent, policy, rules)
    case Deactivate(agent) => DeactivateStep(s, agent)
    case Upload(attachment, uploader) => UploadStep(s, attachment, uploader)
  }

  function Run(s: State, events: seq<Event>): State
    decreases |events|
  {
    if events == [] then s else Run(Step(s, events[0]), events[1..])
  }

  const EMPTY := State(Db(map[], map[], map[], map[], map[]), 0, 0, 0, map[], map[], map[])
}
