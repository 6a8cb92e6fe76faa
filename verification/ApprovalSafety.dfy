/** Every decision is the one decision of its approval and has its own one-time confirmation. */
module ApprovalSafety {
  import opened Prelude
  import opened Approvals

  // ----- The tables -----

  predicate IsDecided(status: Status) {
    status == Approved || status == Rejected
  }

  ghost predicate DecidedBy(t: Tables, a: ApprovalId, d: DecisionId) {
    d in t.decisions && t.decisions[d].approval == a
  }

  ghost predicate ApprovalOk(t: Tables, a: ApprovalId, next: nat) {
    a in t.approvals && a < next && (IsDecided(t.approvals[a].status) ==> exists d :: DecidedBy(t, a, d))
  }

  /** The row's confirmation was consumed, in time, for this human, session, verdict and approval. */
  ghost predicate Backed(t: Tables, row: Decision) {
    && row.confirmation in t.confirmations
    && var c := t.confirmations[row.confirmation];
    && Fits(c, row.human, row.session, ToDecide(row.verdict), AnApproval(row.approval))
    && c.consumedAt.Some? && c.consumedAt.value < c.expiresAt
  }

  ghost predicate DecisionOk(t: Tables, d: DecisionId, next: nat) {
    && d in t.decisions && d < next && MayDecide(t.decisions[d].role) && Backed(t, t.decisions[d])
    && t.decisions[d].approval in t.approvals
    && t.approvals[t.decisions[d].approval].status == Outcome(t.decisions[d].verdict)
  }

  ghost predicate Apart(x: Decision, y: Decision) {
    x.approval != y.approval && x.confirmation != y.confirmation && !KeyUsed(x, y.human, y.key)
  }

  ghost predicate TablesOk(t: Tables, next: nat) {
    && (forall a | a in t.approvals :: ApprovalOk(t, a, next))
    && (forall d | d in t.decisions :: DecisionOk(t, d, next))
    && (forall c | c in t.confirmations :: c < next)
    && (forall d, e | d in t.decisions && e in t.decisions && d != e :: Apart(t.decisions[d], t.decisions[e]))
    && (forall a, b | a in t.approvals && b in t.approvals && a != b ::
      !HasKey(t.approvals[a], t.approvals[b].agent, t.approvals[b].key))
  }

  ghost predicate Undecided(t: Tables, a: ApprovalId) {
    a in t.approvals && !IsDecided(t.approvals[a].status)
  }

  lemma NoDecision(t: Tables, next: nat, a: ApprovalId, d: DecisionId)
    requires TablesOk(t, next) && Undecided(t, a) && d in t.decisions
    ensures t.decisions[d].approval != a
  {
    assert DecisionOk(t, d, next);
  }

  /** An undecided approval may move to any other undecided status. */
  lemma StatusSet(t: Tables, next: nat, a: ApprovalId, status: Status)
    requires TablesOk(t, next) && Undecided(t, a) && !IsDecided(status)
    ensures TablesOk(t.(approvals := t.approvals[a := t.approvals[a].(status := status)]), next)
  {
    var u := t.(approvals := t.approvals[a := t.approvals[a].(status := status)]);
    forall b | b in u.approvals ensures ApprovalOk(u, b, next) {
      assert ApprovalOk(t, b, next);
      if b != a && IsDecided(t.approvals[b].status) {
        var d :| DecidedBy(t, b, d);
        assert DecidedBy(u, b, d);
      }
    }
    forall d | d in u.decisions ensures DecisionOk(u, d, next) {
      NoDecision(t, next, a, d);
      assert DecisionOk(t, d, next) && Backed(t, t.decisions[d]);
    }
  }

  lemma ApprovalAdded(t: Tables, next: nat, row: Approval)
    requires TablesOk(t, next) && row.status == Pending
    requires forall a | a in t.approvals :: !HasKey(t.approvals[a], row.agent, row.key)
    ensures TablesOk(t.(approvals := t.approvals[next := row]), next + 1)
  {
    var u := t.(approvals := t.approvals[next := row]);
    forall b | b in u.approvals ensures ApprovalOk(u, b, next + 1) {
      if b in t.approvals {
        assert ApprovalOk(t, b, next);
        if IsDecided(t.approvals[b].status) {
          var d :| DecidedBy(t, b, d);
          assert DecidedBy(u, b, d);
        }
      }
    }
    forall d | d in u.decisions ensures DecisionOk(u, d, next + 1) {
      assert DecisionOk(t, d, next) && Backed(t, t.decisions[d]);
      assert ApprovalOk(t, t.decisions[d].approval, next);
    }
  }

  /** Confirmations are added, or consumed once. */
  lemma ConfirmationSet(t: Tables, next: nat, later: nat, c: ConfirmationId, row: Confirmation)
    requires TablesOk(t, next) && next <= later && c < later
    requires c in t.confirmations ==> t.confirmations[c].consumedAt == None
    ensures TablesOk(t.(confirmations := t.confirmations[c := row]), later)
  {
    var u := t.(confirmations := t.confirmations[c := row]);
    forall b | b in u.approvals ensures ApprovalOk(u, b, later) {
      assert ApprovalOk(t, b, next);
      if IsDecided(t.approvals[b].status) {
        var d :| DecidedBy(t, b, d);
        assert DecidedBy(u, b, d);
      }
    }
    forall d | d in u.decisions ensures DecisionOk(u, d, later) {
      assert DecisionOk(t, d, next) && Backed(t, t.decisions[d]);
    }
  }

  // ----- Open calls -----

  ghost predicate StampOk(t: Tables, a: ApprovalId, draft: Draft) {
    draft.Deciding? && draft.confirmed.Some? ==>
      && draft.confirmed.value.confirmation in t.confirmations
      && var c := t.confirmations[draft.confirmed.value.confirmation];
      Fits(c, draft.human, draft.session, ToDecide(draft.verdict), AnApproval(a)) && c.consumedAt == None
      && draft.confirmed.value.at < c.expiresAt
  }

  ghost predicate FreshKey(decisions: map<DecisionId, Decision>, human: HumanId, key: nat) {
    forall d | d in decisions :: !KeyUsed(decisions[d], human, key)
  }

  /** A call in flight holds a pending approval, and an unused key. */
  ghost predicate DraftOk(t: Tables, a: ApprovalId, draft: Draft) {
    && a in t.approvals && t.approvals[a].status == Pending
    && StampOk(t, a, draft)
    && (draft.Deciding? ==> MayDecide(draft.role) && FreshKey(t.decisions, draft.human, draft.key))
  }

  ghost predicate DraftsApart(x: Draft, y: Draft) {
    x.Deciding? && y.Deciding? ==>
      x.human != y.human
      && (x.confirmed.Some? && y.confirmed.Some? ==> x.confirmed.value.confirmation != y.confirmed.value.confirmation)
  }

  ghost predicate DraftsOk(t: Tables, drafts: map<ApprovalId, Draft>) {
    && (forall a | a in drafts :: DraftOk(t, a, drafts[a]))
    && (forall a, b | a in drafts && b in drafts && a != b :: DraftsApart(drafts[a], drafts[b]))
  }

  lemma Opened(t: Tables, drafts: map<ApprovalId, Draft>, a: ApprovalId, draft: Draft)
    requires DraftsOk(t, drafts) && DraftOk(t, a, draft)
    requires forall b | b in drafts && b != a :: DraftsApart(drafts[b], draft) && DraftsApart(draft, drafts[b])
    ensures DraftsOk(t, drafts[a := draft])
  {
  }

  lemma Closed(t: Tables, drafts: map<ApprovalId, Draft>, a: ApprovalId)
    requires DraftsOk(t, drafts)
    ensures DraftsOk(t, drafts - {a})
  {
  }

  /** Rows no draft relies on may change. */
  lemma DraftsKept(t: Tables, u: Tables, drafts: map<ApprovalId, Draft>)
    requires DraftsOk(t, drafts) && u.decisions == t.decisions
    requires forall a | a in drafts :: a in u.approvals && u.approvals[a].status == Pending && StampOk(u, a, drafts[a])
    ensures DraftsOk(u, drafts)
  {
    forall a | a in drafts ensures DraftOk(u, a, drafts[a]) { assert DraftOk(t, a, drafts[a]); }
  }

  // ----- Every step -----

  ghost predicate Inv(s: State) {
    TablesOk(s.tables, s.next) && DraftsOk(s.tables, s.drafts)
  }

  lemma StatusStep(s: State, a: ApprovalId, status: Status)
    requires Inv(s) && Undecided(s.tables, a) && !IsDecided(status) && a !in s.drafts
    ensures Inv(SetApproval(s, a, s.tables.approvals[a].(status := status)))
  {
    StatusSet(s.tables, s.next, a, status);
    var u := SetApproval(s, a, s.tables.approvals[a].(status := status)).tables;
    forall b | b in s.drafts
      ensures b in u.approvals && u.approvals[b].status == Pending && StampOk(u, b, s.drafts[b])
    {
      assert DraftOk(s.tables, b, s.drafts[b]);
    }
    DraftsKept(s.tables, u, s.drafts);
  }

  lemma AuthorizeInv(s: State, human: HumanId, a: ApprovalId)
    requires Inv(s)
    ensures Inv(AuthorizeStep(s, human, a).0)
  {
    if AuthorizeStep(s, human, a).0 != s { StatusStep(s, a, Expired); }
  }

  lemma CreateInv(s: State, agent: AgentId, key: nat, payload: nat, expiresAt: Option<int>)
    requires Inv(s)
    ensures Inv(CreateStep(s, agent, key, payload, expiresAt).0)
  {
    var t := CreateStep(s, agent, key, payload, expiresAt).0;
    if t != s {
      ApprovalAdded(s.tables, s.next, t.tables.approvals[s.next]);
      forall b | b in s.drafts
        ensures b in t.tables.approvals && t.tables.approvals[b].status == Pending && StampOk(t.tables, b, s.drafts[b])
      {
        assert DraftOk(s.tables, b, s.drafts[b]) && ApprovalOk(s.tables, b, s.next);
      }
      DraftsKept(s.tables, t.tables, s.drafts);
    }
  }

  lemma CreateConfirmationInv(s: State, human: HumanId, session: Option<SessionId>, intent: Intent, target: Target)
    requires Inv(s)
    ensures Inv(CreateConfirmationStep(s, human, session, intent, target).0)
  {
    var t := CreateConfirmationStep(s, human, session, intent, target).0;
    ConfirmationSet(s.tables, s.next, s.next + 1, s.next, t.tables.confirmations[s.next]);
    forall b | b in s.drafts
      ensures b in t.tables.approvals && t.tables.approvals[b].status == Pending && StampOk(t.tables, b, s.drafts[b])
    {
      assert DraftOk(s.tables, b, s.drafts[b]);
    }
    DraftsKept(s.tables, t.tables, s.drafts);
  }

  lemma ConsumeElsewhereInv(s: State, human: HumanId, session: Option<SessionId>, intent: Intent, target: Target,
      token: ConfirmationId)
    requires Inv(s)
    ensures Inv(ConsumeElsewhereStep(s, human, session, intent, target, token).0)
  {
    var t := ConsumeElsewhereStep(s, human, session, intent, target, token).0;
    if t != s {
      ConfirmationSet(s.tables, s.next, s.next, token, t.tables.confirmations[token]);
      forall b | b in s.drafts
        ensures b in t.tables.approvals && t.tables.approvals[b].status == Pending && StampOk(t.tables, b, s.drafts[b])
      {
        assert DraftOk(s.tables, b, s.drafts[b]) && !Holds(s.drafts[b], token);
      }
      DraftsKept(s.tables, t.tables, s.drafts);
    }
  }

  lemma OpenCancelInv(s: State, agent: AgentId, a: ApprovalId)
    requires Inv(s)
    ensures Inv(OpenCancelStep(s, agent, a).0)
  {
    var t := OpenCancelStep(s, agent, a).0;
    if t.tables != s.tables {
      StatusStep(s, a, Expired);
    } else if t != s {
      Opened(s.tables, s.drafts, a, Cancelling);
    }
  }

  lemma OpenDecisionInv(s: State, human: HumanId, session: Option<SessionId>, a: ApprovalId, verdict: Verdict,
      note: nat, key: nat)
    requires Inv(s)
    ensures Inv(OpenDecisionStep(s, human, session, a, verdict, note, key).0)
  {
    var t := OpenDecisionStep(s, human, session, a, verdict, note, key).0;
    AuthorizeInv(s, human, a);
    if a in t.drafts && a !in s.drafts {
      Opened(s.tables, s.drafts, a, t.drafts[a]);
    }
  }

  lemma ConfirmInv(s: State, a: ApprovalId, token: ConfirmationId)
    requires Inv(s)
    ensures Inv(ConfirmStep(s, a, token).0)
  {
    var t := ConfirmStep(s, a, token).0;
    Closed(s.tables, s.drafts, a);
    if a in s.drafts && a in t.drafts && t.drafts[a] != s.drafts[a] {
      assert DraftOk(s.tables, a, s.drafts[a]);
      forall b | b in s.drafts && b != a
        ensures DraftsApart(s.drafts[b], t.drafts[a]) && DraftsApart(t.drafts[a], s.drafts[b])
      {
        assert DraftsApart(s.drafts[b], s.drafts[a]) && !Holds(s.drafts[b], token);
      }
      Opened(s.tables, s.drafts, a, t.drafts[a]);
    }
  }

  /** Committing a confirmed draft never violates a unique constraint. */
  lemma NeverCollides(s: State, a: ApprovalId)
    requires Inv(s) && ReadyToCommit(s, a) && s.drafts[a].Deciding?
    ensures !Collides(s.tables.decisions, NewDecision(a, s.drafts[a]))
  {
    var t, draft := s.tables, s.drafts[a];
    assert DraftOk(t, a, draft);
    forall d | d in t.decisions
      ensures t.decisions[d].approval != a && t.decisions[d].confirmation != draft.confirmed.value.confirmation
      ensures !KeyUsed(t.decisions[d], draft.human, draft.key)
    {
      NoDecision(t, s.next, a, d);
      assert DecisionOk(t, d, s.next) && Backed(t, t.decisions[d]);
    }
  }

  lemma DecidedTables(t: Tables, next: nat, a: ApprovalId, draft: Draft)
    requires TablesOk(t, next) && DraftOk(t, a, draft) && draft.Deciding? && draft.confirmed.Some?
    requires !Collides(t.decisions, NewDecision(a, draft))
    ensures TablesOk(Decided(t, a, draft, next), next + 1)
  {
    var u := Decided(t, a, draft, next);
    forall b | b in u.approvals ensures ApprovalOk(u, b, next + 1) {
      assert ApprovalOk(t, b, next);
      if b == a {
        assert DecidedBy(u, a, next);
      } else if IsDecided(t.approvals[b].status) {
        var d :| DecidedBy(t, b, d);
        assert DecisionOk(t, d, next);
        assert DecidedBy(u, b, d);
      }
    }
    forall d | d in u.decisions ensures DecisionOk(u, d, next + 1) {
      if d in t.decisions {
        assert DecisionOk(t, d, next) && Backed(t, t.decisions[d]);
        if d != next { assert Backed(u, u.decisions[d]); }
      }
    }
    forall d, e | d in u.decisions && e in u.decisions && d != e ensures Apart(u.decisions[d], u.decisions[e]) {
      if d != next && e != next { assert Apart(t.decisions[d], t.decisions[e]); }
    }
  }

  lemma DecidedDrafts(s: State, a: ApprovalId, next: nat)
    requires Inv(s) && ReadyToCommit(s, a) && s.drafts[a].Deciding? && next !in s.tables.decisions
    ensures DraftsOk(Decided(s.tables, a, s.drafts[a], next), s.drafts - {a})
  {
    var u := Decided(s.tables, a, s.drafts[a], next);
    forall b | b in s.drafts && b != a ensures DraftOk(u, b, s.drafts[b]) {
      assert DraftOk(s.tables, b, s.drafts[b]) && DraftsApart(s.drafts[a], s.drafts[b]);
      assert s.tables.approvals[b] == u.approvals[b];
    }
  }

  lemma CommitInv(s: State, a: ApprovalId)
    requires Inv(s)
    ensures Inv(CommitStep(s, a).0)
  {
    if ReadyToCommit(s, a) {
      assert DraftOk(s.tables, a, s.drafts[a]);
      Closed(s.tables, s.drafts, a);
      match s.drafts[a]
      case Cancelling => StatusStep(Close(s, a), a, Cancelled);
      case Deciding(_, _, _, _, _, _, _) =>
        NeverCollides(s, a);
        DecidedTables(s.tables, s.next, a, s.drafts[a]);
        forall d | d in s.tables.decisions ensures d != s.next { assert DecisionOk(s.tables, d, s.next); }
        DecidedDrafts(s, a, s.next);
    }
  }

  lemma StepInv(s: State, e: Event)
    requires Inv(s)
    ensures Inv(Step(s, e))
  {
    match e
    case Tick(_) =>
    case SetRole(_, _, _) =>
    case Create(agent, key, payload, expiresAt) => CreateInv(s, agent, key, payload, expiresAt);
    case CreateConfirmation(human, session, intent, target) => CreateConfirmationInv(s, human, session, intent, target);
    case ConsumeElsewhere(human, session, intent, target, token) =>
      ConsumeElsewhereInv(s, human, session, intent, target, token);
    case Authorize(human, a) => AuthorizeInv(s, human, a);
    case OpenCancel(agent, a) => OpenCancelInv(s, agent, a);
    case OpenDecision(human, session, a, verdict, note, key) =>
      OpenDecisionInv(s, human, session, a, verdict, note, key);
    case Confirm(a, token) => ConfirmInv(s, a, token);
    case Commit(a) => CommitInv(s, a);
    case Abort(a) => Closed(s.tables, s.drafts, a);
  }

  lemma {:induction false} RunInv(s: State, events: seq<Event>)
    requires Inv(s)
    ensures Inv(Run(s, events))
    decreases |events|
  {
    if events != [] {
      StepInv(s, events[0]);
      RunInv(Step(s, events[0]), events[1..]);
    }
  }
}
