/**
  Approval requests, the decisions on them, and the one-time confirmations that back decisions.

  A call that will change an approval checks it under row locks first and commits later, so a
  cancellation or a decision is two or three steps: opening (which takes the locks), consuming
  the confirmation, and the commit or rollback. The clock moves between any two steps. Everything
  else a call does is one step. Tokens have injective digests, so a confirmation is named by its
  token; `payload` and `note` stand for the hashed request bodies.
 */
module Approvals {
  import opened Prelude

  type AgentId = nat
  type HumanId = nat
  type SessionId = nat
  type ApprovalId = nat
  type ConfirmationId = nat
  type DecisionId = nat

  datatype Status = Pending | Approved | Rejected | Cancelled | Expired
  datatype Verdict = Approve | Reject
  datatype Role = Owner | Operator | Viewer | Auditor
  datatype Intent = ToDecide(verdict: Verdict) | ToDoElse(id: nat)
  datatype Target = AnApproval(id: ApprovalId) | AnotherTarget(kind: nat, id: nat)

  datatype Approval = Approval(agent: AgentId, key: nat, payload: nat, status: Status, expiresAt: int)

  datatype Confirmation = Confirmation(
    human: HumanId, session: Option<SessionId>, intent: Intent, target: Target, expiresAt: int, consumedAt: Option<int>)

  datatype Decision = Decision(
    approval: ApprovalId, human: HumanId, session: Option<SessionId>, confirmation: ConfirmationId,
    verdict: Verdict, note: nat, key: nat, role: Role)

  datatype Stamp = Stamp(confirmation: ConfirmationId, at: int)

  /** A call that holds the lock of an approval it found pending. */
  datatype Draft =
    | Cancelling
    | Deciding(human: HumanId, session: Option<SessionId>, verdict: Verdict, note: nat, key: nat, role: Role,
      confirmed: Option<Stamp>)

  datatype Tables = Tables(
    approvals: map<ApprovalId, Approval>, decisions: map<DecisionId, Decision>,
    confirmations: map<ConfirmationId, Confirmation>)

  datatype State = State(
    now: int, next: nat, defaultTtl: nat, confirmationTtl: nat, roles: map<(HumanId, AgentId), Role>,
    tables: Tables, drafts: map<ApprovalId, Draft>)

  datatype Answer =
    | Done
    | Waits
    | Replayed(approval: ApprovalId)
    | Created(id: nat)
    | KeyConflict
    | NotFound
    | NotAllowed
    | InvalidState(status: Status)
    | ConfirmationInvalid
    | AlreadyDecided

  datatype Event =
    | Tick(elapsed: nat)
    | SetRole(human: HumanId, agent: AgentId, role: Option<Role>)
    | Create(agent: AgentId, key: nat, payload: nat, expiresAt: Option<int>)
    | CreateConfirmation(human: HumanId, session: Option<SessionId>, intent: Intent, target: Target)
    | ConsumeElsewhere(human: HumanId, session: Option<SessionId>, intent: Intent, target: Target,
      token: ConfirmationId)
    | Authorize(human: HumanId, approval: ApprovalId)
    | OpenCancel(agent: AgentId, approval: ApprovalId)
    | OpenDecision(human: HumanId, session: Option<SessionId>, approval: ApprovalId, verdict: Verdict, note: nat,
      key: nat)
    | Confirm(approval: ApprovalId, token: ConfirmationId)
    | Commit(approval: ApprovalId)
    | Abort(approval: ApprovalId)

  function Outcome(verdict: Verdict): Status {
    match verdict
    case Approve => Approved
    case Reject => Rejected
  }

  predicate MayDecide(role: Role) {
    role == Owner || role == Operator
  }

  /** The status a reader is shown. */
  function EffectiveStatus(row: Approval, now: int): Status {
    if row.status == Pending && row.expiresAt <= now then Expired else row.status
  }

  function SetApproval(s: State, a: ApprovalId, row: Approval): State {
    s.(tables := s.tables.(approvals := s.tables.approvals[a := row]))
  }

  // ----- Creation -----

  predicate HasKey(row: Approval, agent: AgentId, key: nat) {
    row.agent == agent && row.key == key
  }

  ghost function ApprovalOf(approvals: map<ApprovalId, Approval>, agent: AgentId, key: nat): (r: Option<ApprovalId>)
    ensures r.Some? ==> r.value in approvals && HasKey(approvals[r.value], agent, key)
    ensures r.None? ==> forall a | a in approvals :: !HasKey(approvals[a], agent, key)
  {
    if exists a :: a in approvals && HasKey(approvals[a], agent, key) then
      var a :| a in approvals && HasKey(approvals[a], agent, key);
      Some(a)
    else None
  }

  ghost function CreateStep(s: State, agent: AgentId, key: nat, payload: nat, expiresAt: Option<int>): (State, Answer) {
    var existing := ApprovalOf(s.tables.approvals, agent, key);
    if existing.Some? then
      (s, if s.tables.approvals[existing.value].payload == payload then Replayed(existing.value) else KeyConflict)
    else
      var deadline := if expiresAt.Some? then expiresAt.value else s.now + s.defaultTtl;
      (SetApproval(s, s.next, Approval(agent, key, payload, Pending, deadline)).(next := s.next + 1), Created(s.next))
  }

  // ----- Confirmations -----

  function CreateConfirmationStep(s: State, human: HumanId, session: Option<SessionId>, intent: Intent,
      target: Target): (State, Answer) {
    var row := Confirmation(human, session, intent, target, s.now + s.confirmationTtl, None);
    (s.(tables := s.tables.(confirmations := s.tables.confirmations[s.next := row]), next := s.next + 1),
      Created(s.next))
  }

  predicate Fits(row: Confirmation, human: HumanId, session: Option<SessionId>, intent: Intent, target: Target) {
    row.human == human && row.session == session && row.intent == intent && row.target == target
  }

  /** An unconsumed, unexpired confirmation of exactly this action. */
  predicate Usable(s: State, token: ConfirmationId, human: HumanId, session: Option<SessionId>, intent: Intent,
      target: Target) {
    && token in s.tables.confirmations
    && var row := s.tables.confirmations[token];
    Fits(row, human, session, intent, target) && row.consumedAt == None && s.now < row.expiresAt
  }

  predicate Holds(draft: Draft, token: ConfirmationId) {
    draft.Deciding? && draft.confirmed.Some? && draft.confirmed.value.confirmation == token
  }

  predicate ConfirmationLocked(s: State, token: ConfirmationId) {
    exists a | a in s.drafts :: Holds(s.drafts[a], token)
  }

  function Consumed(t: Tables, token: ConfirmationId, at: int): Tables
    requires token in t.confirmations
  {
    t.(confirmations := t.confirmations[token := t.confirmations[token].(consumedAt := Some(at))])
  }

  function ConsumeElsewhereStep(s: State, human: HumanId, session: Option<SessionId>, intent: Intent, target: Target,
      token: ConfirmationId): (State, Answer) {
    if ConfirmationLocked(s, token) then (s, Waits)
    else if !Usable(s, token, human, session, intent, target) then (s, ConfirmationInvalid)
    else (s.(tables := Consumed(s.tables, token, s.now)), Done)
  }

  // ----- Opening -----

  /** The checks of a human on a locked approval; a lapsed one is marked expired for good. */
  function AuthorizeStep(s: State, human: HumanId, a: ApprovalId): (State, Answer) {
    if a !in s.tables.approvals then (s, NotFound)
    else if a in s.drafts then (s, Waits)
    else
      var row := s.tables.approvals[a];
      if (human, row.agent) !in s.roles then (s, NotFound)
      else if !MayDecide(s.roles[(human, row.agent)]) then (s, NotAllowed)
      else if EffectiveStatus(row, s.now) == Expired
          then (SetApproval(s, a, row.(status := Expired)), InvalidState(Expired))
      else if row.status != Pending then (s, InvalidState(row.status))
      else (s, Done)
  }

  function Open(s: State, a: ApprovalId, draft: Draft): State {
    s.(drafts := s.drafts[a := draft])
  }

  function OpenCancelStep(s: State, agent: AgentId, a: ApprovalId): (State, Answer) {
    if a !in s.tables.approvals || s.tables.approvals[a].agent != agent then (s, NotFound)
    else if a in s.drafts then (s, Waits)
    else
      var row := s.tables.approvals[a];
      if EffectiveStatus(row, s.now) == Expired then (SetApproval(s, a, row.(status := Expired)), Done)
      else if row.status == Cancelled then (s, Done)
      else if row.status != Pending then (s, InvalidState(row.status))
      else (Open(s, a, Cancelling), Done)
  }

  predicate HumanLocked(s: State, human: HumanId) {
    exists a | a in s.drafts :: s.drafts[a].Deciding? && s.drafts[a].human == human
  }

  predicate KeyUsed(row: Decision, human: HumanId, key: nat) {
    row.human == human && row.key == key
  }

  ghost function DecisionOf(decisions: map<DecisionId, Decision>, human: HumanId, key: nat): (r: Option<DecisionId>)
    ensures r.Some? ==> r.value in decisions && KeyUsed(decisions[r.value], human, key)
    ensures r.None? ==> forall d | d in decisions :: !KeyUsed(decisions[d], human, key)
  {
    if exists d :: d in decisions && KeyUsed(decisions[d], human, key) then
      var d :| d in decisions && KeyUsed(decisions[d], human, key);
      Some(d)
    else None
  }

  predicate SameRequest(row: Decision, a: ApprovalId, verdict: Verdict, note: nat) {
    row.approval == a && row.verdict == verdict && row.note == note
  }

  ghost function OpenDecisionStep(s: State, human: HumanId, session: Option<SessionId>, a: ApprovalId,
      verdict: Verdict, note: nat, key: nat): (State, Answer) {
    if HumanLocked(s, human) then (s, Waits)
    else
      var existing := DecisionOf(s.tables.decisions, human, key);
      if existing.Some? then
        var row := s.tables.decisions[existing.value];
        (s, if SameRequest(row, a, verdict, note) then Replayed(a) else KeyConflict)
      else
        var (t, answer) := AuthorizeStep(s, human, a);
        if answer != Done then (t, answer)
        else
          var role := s.roles[(human, s.tables.approvals[a].agent)];
          (Open(s, a, Deciding(human, session, verdict, note, key, role, None)), Done)
  }

  // ----- Confirming, committing, rolling back -----

  function Close(s: State, a: ApprovalId): State {
    s.(drafts := s.drafts - {a})
  }

  function ConfirmStep(s: State, a: ApprovalId, token: ConfirmationId): (State, Answer) {
    if a !in s.drafts || !s.drafts[a].Deciding? || s.drafts[a].confirmed.Some? then (s, Done)
    else
      var draft := s.drafts[a];
      if ConfirmationLocked(s, token) then (s, Waits)
      else if !Usable(s, token, draft.human, draft.session, ToDecide(draft.verdict), AnApproval(a))
          then (Close(s, a), ConfirmationInvalid)
      else (Open(s, a, draft.(confirmed := Some(Stamp(token, s.now)))), Done)
  }

  /** One of the unique constraints of the decision table would be violated. */
  ghost predicate Collides(decisions: map<DecisionId, Decision>, row: Decision) {
    exists d | d in decisions ::
      decisions[d].approval == row.approval || decisions[d].confirmation == row.confirmation
        || KeyUsed(decisions[d], row.human, row.key)
  }

  function NewDecision(a: ApprovalId, draft: Draft): Decision
    requires draft.Deciding? && draft.confirmed.Some?
  {
    Decision(a, draft.human, draft.session, draft.confirmed.value.confirmation, draft.verdict, draft.note, draft.key,
      draft.role)
  }

  function Decided(t: Tables, a: ApprovalId, draft: Draft, id: DecisionId): Tables
    requires draft.Deciding? && draft.confirmed.Some? && a in t.approvals
      && draft.confirmed.value.confirmation in t.confirmations
  {
    Consumed(t, draft.confirmed.value.confirmation, draft.confirmed.value.at).(
      approvals := t.approvals[a := t.approvals[a].(status := Outcome(draft.verdict))],
      decisions := t.decisions[id := NewDecision(a, draft)])
  }

  predicate ReadyToCommit(s: State, a: ApprovalId) {
    && a in s.drafts && a in s.tables.approvals
    && (s.drafts[a].Deciding? ==>
          s.drafts[a].confirmed.Some? && s.drafts[a].confirmed.value.confirmation in s.tables.confirmations)
  }

  ghost function CommitStep(s: State, a: ApprovalId): (State, Answer) {
    if !ReadyToCommit(s, a) then (s, Done)
    else
      match s.drafts[a]
      case Cancelling => (Close(SetApproval(s, a, s.tables.approvals[a].(status := Cancelled)), a), Done)
      case Deciding(_, _, _, _, _, _, _) =>
        if Collides(s.tables.decisions, NewDecision(a, s.drafts[a])) then (Close(s, a), AlreadyDecided)
        else (Close(s.(tables := Decided(s.tables, a, s.drafts[a], s.next), next := s.next + 1), a), Done)
  }

  function SetRoleStep(s: State, human: HumanId, agent: AgentId, role: Option<Role>): State {
    s.(roles := if role.Some? then s.roles[(human, agent) := role.value] else s.roles - {(human, agent)})
  }

  ghost function Serve(s: State, e: Event): (State, Answer) {
    match e
    case Tick(elapsed) => (s.(now := s.now + elapsed), Done)
    case SetRole(human, agent, role) => (SetRoleStep(s, human, agent, role), Done)
    case Create(agent, key, payload, expiresAt) => CreateStep(s, agent, key, payload, expiresAt)
    case CreateConfirmation(human, session, intent, target) => CreateConfirmationStep(s, human, session, intent, target)
    case ConsumeElsewhere(human, session, intent, target, token) =>
      ConsumeElsewhereStep(s, human, session, intent, target, token)
    case Authorize(human, a) => AuthorizeStep(s, human, a)
    case OpenCancel(agent, a) => OpenCancelStep(s, agent, a)
    case OpenDecision(human, session, a, verdict, note, key) =>
      OpenDecisionStep(s, human, session, a, verdict, note, key)
    case Confirm(a, token) => ConfirmStep(s, a, token)
    case Commit(a) => CommitStep(s, a)
    case Abort(a) => (Close(s, a), Done)
  }

  ghost function Step(s: State, e: Event): State {
    Serve(s, e).0
  }

  ghost function Run(s: State, events: seq<Event>): State
    decreases |events|
  {
    if events == [] then s else Run(Step(s, events[0]), events[1..])
  }

  function Start(now: int, defaultTtl: nat, confirmationTtl: nat): State {
    State(now, 0, defaultTtl, confirmationTtl, map[], Tables(map[], map[], map[]), map[])
  }
}
