/** What approvals promise over every run. */
module ApprovalLaws {
  import opened Prelude
  import opened Approvals
  import opened ApprovalSafety

  lemma DecidedAs(t: Tables, next: nat, a: ApprovalId, v: Verdict)
    requires TablesOk(t, next) && a in t.approvals
    ensures t.approvals[a].status == (if v == Approve then Approved else Rejected)
      <==> exists d :: DecidedBy(t, a, d) && t.decisions[d].verdict == v
  {
    assert ApprovalOk(t, a, next);
    if t.approvals[a].status == Outcome(v) {
      var d :| DecidedBy(t, a, d);
      assert DecisionOk(t, d, next);
    }
    forall d | DecidedBy(t, a, d) ensures t.approvals[a].status == Outcome(t.decisions[d].verdict) {
      assert DecisionOk(t, d, next);
    }
  }

  lemma TablesDecided(t: Tables, next: nat)
    requires TablesOk(t, next)
    ensures forall a | a in t.approvals ::
              t.approvals[a].status == Approved <==> exists d :: DecidedBy(t, a, d) && t.decisions[d].verdict == Approve
    ensures forall a | a in t.approvals ::
              t.approvals[a].status == Rejected <==> exists d :: DecidedBy(t, a, d) && t.decisions[d].verdict == Reject
    ensures forall a, d, e | DecidedBy(t, a, d) && DecidedBy(t, a, e) :: d == e
  {
    forall a | a in t.approvals
      ensures t.approvals[a].status == Approved <==> exists d :: DecidedBy(t, a, d) && t.decisions[d].verdict == Approve
    {
      DecidedAs(t, next, a, Approve);
    }
    forall a | a in t.approvals
      ensures t.approvals[a].status == Rejected <==> exists d :: DecidedBy(t, a, d) && t.decisions[d].verdict == Reject
    {
      DecidedAs(t, next, a, Reject);
    }
    forall a, d, e | DecidedBy(t, a, d) && DecidedBy(t, a, e) ensures d == e {
      assert d != e ==> Apart(t.decisions[d], t.decisions[e]);
    }
  }

  /**
    In every run an approval is approved (rejected) exactly when there is a decision row that
    approves (rejects) it, and it never has two.
   */
  lemma DecidedIffOneDecision(now: int, defaultTtl: nat, confirmationTtl: nat, events: seq<Event>)
    ensures var t := Run(Start(now, defaultTtl, confirmationTtl), events).tables;
            && (forall a | a in t.approvals ::
                  t.approvals[a].status == Approved <==> exists d ::
                    DecidedBy(t, a, d) && t.decisions[d].verdict == Approve)
            && (forall a | a in t.approvals ::
                  t.approvals[a].status == Rejected <==> exists d ::
                    DecidedBy(t, a, d) && t.decisions[d].verdict == Reject)
            && (forall a, d, e | DecidedBy(t, a, d) && DecidedBy(t, a, e) :: d == e)
  {
    var s := Run(Start(now, defaultTtl, confirmationTtl), events);
    RunInv(Start(now, defaultTtl, confirmationTtl), events);
    TablesDecided(s.tables, s.next);
  }

  /** The confirmation was for this human, session, verdict and approval, and was consumed before it expired. */
  ghost predicate HasConfirmation(t: Tables, row: Decision) {
    && row.confirmation in t.confirmations
    && var c := t.confirmations[row.confirmation];
    && c.human == row.human && c.session == row.session && c.intent == ToDecide(row.verdict)
    && c.target == AnApproval(row.approval)
    && exists at :: c.consumedAt == Some(at) && at < c.expiresAt
  }

  /**
    In every run each decision was made by an owner or an operator and is backed by its own confirmation:
    issued to that human and session for that verdict on that approval, and consumed in time.
   */
  lemma DecisionsAreBacked(now: int, defaultTtl: nat, confirmationTtl: nat, events: seq<Event>)
    ensures var t := Run(Start(now, defaultTtl, confirmationTtl), events).tables;
            && (forall d | d in t.decisions ::
                  t.decisions[d].role in {Owner, Operator} && HasConfirmation(t, t.decisions[d]))
            && (forall d, e | d in t.decisions && e in t.decisions && d != e ::
                  t.decisions[d].confirmation != t.decisions[e].confirmation)
  {
    var s := Run(Start(now, defaultTtl, confirmationTtl), events);
    RunInv(Start(now, defaultTtl, confirmationTtl), events);
    forall d | d in s.tables.decisions
      ensures s.tables.decisions[d].role in {Owner, Operator} && HasConfirmation(s.tables, s.tables.decisions[d])
    {
      assert DecisionOk(s.tables, d, s.next);
    }
    forall d, e | d in s.tables.decisions && e in s.tables.decisions && d != e
      ensures s.tables.decisions[d].confirmation != s.tables.decisions[e].confirmation
    {
      assert Apart(s.tables.decisions[d], s.tables.decisions[e]);
    }
  }

  /** With the row locks the unique constraints never fire: a commit always goes through. */
  lemma CommitsNeverCollide(now: int, defaultTtl: nat, confirmationTtl: nat, events: seq<Event>, a: ApprovalId)
    ensures Serve(Run(Start(now, defaultTtl, confirmationTtl), events), Commit(a)).1 == Done
  {
    var s := Run(Start(now, defaultTtl, confirmationTtl), events);
    RunInv(Start(now, defaultTtl, confirmationTtl), events);
    if ReadyToCommit(s, a) && s.drafts[a].Deciding? { NeverCollides(s, a); }
  }

  // ----- Idempotency keys -----

  ghost predicate SameApproval(x: Approval, y: Approval) {
    x.agent == y.agent && x.key == y.key && x.payload == y.payload
  }

  ghost predicate RowsKept(t: Tables, u: Tables) {
    && (forall a | a in t.approvals :: a in u.approvals && SameApproval(t.approvals[a], u.approvals[a]))
    && (forall d | d in t.decisions :: d in u.decisions && u.decisions[d] == t.decisions[d])
  }

  lemma CommitRows(s: State, a: ApprovalId)
    requires forall d | d in s.tables.decisions :: d < s.next
    ensures RowsKept(s.tables, CommitStep(s, a).0.tables)
  {
  }

  lemma CreateRows(s: State, e: Event)
    requires (e.Create? || e.CreateConfirmation?) && forall a | a in s.tables.approvals :: a < s.next
    ensures RowsKept(s.tables, Step(s, e).tables)
  {
  }

  lemma OtherRows(s: State, e: Event)
    requires !e.Commit? && !e.Create? && !e.CreateConfirmation?
    ensures RowsKept(s.tables, Step(s, e).tables)
  {
    match e
    case ConsumeElsewhere(_, _, _, _, _) =>
    case Authorize(_, _) =>
    case OpenCancel(_, _) =>
    case OpenDecision(_, _, _, _, _, _) =>
    case Confirm(_, _) =>
    case _ =>
  }

  lemma StepRows(s: State, e: Event)
    requires Inv(s)
    ensures RowsKept(s.tables, Step(s, e).tables)
  {
    forall a | a in s.tables.approvals ensures a < s.next { assert ApprovalOk(s.tables, a, s.next); }
    forall d | d in s.tables.decisions ensures d < s.next { assert DecisionOk(s.tables, d, s.next); }
    match e
    case Commit(a) => CommitRows(s, a);
    case Create(_, _, _, _) => CreateRows(s, e);
    case CreateConfirmation(_, _, _, _) => CreateRows(s, e);
    case _ => OtherRows(s, e);
  }

  lemma {:induction false} RunRows(s: State, events: seq<Event>)
    requires Inv(s)
    ensures RowsKept(s.tables, Run(s, events).tables)
    decreases |events|
  {
    if events != [] {
      StepRows(s, events[0]);
      StepInv(s, events[0]);
      RunRows(Step(s, events[0]), events[1..]);
    }
  }

  /** Whenever a creation is repeated under its key: the first approval, or a conflict, and no change. */
  lemma CreationRepeated(
      now: int, defaultTtl: nat, confirmationTtl: nat, before: seq<Event>, between: seq<Event>,
      agent: AgentId, key: nat, payload: nat, again: nat, expiresAt: Option<int>, later: Option<int>)
    ensures var (t, first) := Serve(Run(Start(now, defaultTtl, confirmationTtl), before),
      Create(agent, key, payload, expiresAt));
            first.Created? ==>
              var u := Run(t, between);
              Serve(u, Create(agent, key, again, later))
                == (u, if again == payload then Replayed(first.id) else KeyConflict)
  {
    var s := Run(Start(now, defaultTtl, confirmationTtl), before);
    var (t, first) := Serve(s, Create(agent, key, payload, expiresAt));
    if first.Created? {
      RunInv(Start(now, defaultTtl, confirmationTtl), before);
      CreateInv(s, agent, key, payload, expiresAt);
      RunInv(t, between);
      RunRows(t, between);
      CreatedAgain(Run(t, between), first.id, agent, key, payload, again, later);
    }
  }

  lemma CreatedAgain(u: State, a: ApprovalId, agent: AgentId, key: nat, payload: nat, again: nat, later: Option<int>)
    requires TablesOk(u.tables, u.next) && a in u.tables.approvals && HasKey(u.tables.approvals[a], agent, key)
    requires u.tables.approvals[a].payload == payload
    ensures Serve(u, Create(agent, key, again, later)) == (u, if again == payload then Replayed(a) else KeyConflict)
  {
    var existing := ApprovalOf(u.tables.approvals, agent, key);
    forall b | b in u.tables.approvals && HasKey(u.tables.approvals[b], agent, key) ensures b == a {}
    assert existing == Some(a);
  }

  /** Using the key of a decision again: its approval for the same request, else a conflict, and no change. */
  ghost predicate Replays(u: State, row: Decision, session: Option<SessionId>, a: ApprovalId, verdict: Verdict,
      note: nat) {
    OpenDecisionStep(u, row.human, session, a, verdict, note, row.key)
      == (u, if row.approval == a && row.verdict == verdict && row.note == note
             then Replayed(row.approval) else KeyConflict)
  }

  lemma DecidedAgain(u: State, d: DecisionId, session: Option<SessionId>, a: ApprovalId, verdict: Verdict, note: nat)
    requires TablesOk(u.tables, u.next) && d in u.tables.decisions && !HumanLocked(u, u.tables.decisions[d].human)
    ensures Replays(u, u.tables.decisions[d], session, a, verdict, note)
  {
    var row := u.tables.decisions[d];
    var existing := DecisionOf(u.tables.decisions, row.human, row.key);
    forall b | b in u.tables.decisions && KeyUsed(u.tables.decisions[b], row.human, row.key) ensures b == d {
      assert b != d ==> Apart(u.tables.decisions[b], row);
    }
    assert existing == Some(d);
  }

  /** Once committed, a decision is what its human's key stands for, unless that human has a call open. */
  lemma DecisionRepeated(
      now: int, defaultTtl: nat, confirmationTtl: nat, before: seq<Event>, between: seq<Event>, d: DecisionId,
      session: Option<SessionId>, a: ApprovalId, verdict: Verdict, note: nat)
    requires d in Run(Start(now, defaultTtl, confirmationTtl), before).tables.decisions
    ensures var s := Run(Start(now, defaultTtl, confirmationTtl), before);
            HumanLocked(Run(s, between), s.tables.decisions[d].human)
            || Replays(Run(s, between), s.tables.decisions[d], session, a, verdict, note)
  {
    var s := Run(Start(now, defaultTtl, confirmationTtl), before);
    var u := Run(s, between);
    RunInv(Start(now, defaultTtl, confirmationTtl), before);
    RunInv(s, between);
    RunRows(s, between);
    if !HumanLocked(u, s.tables.decisions[d].human) { DecidedAgain(u, d, session, a, verdict, note); }
  }

  // ----- The status readers see -----

  /** The commit of a call that found the approval pending, at a time when readers see it expired. */
  ghost predicate LateCommit(s: State, e: Event, a: ApprovalId) {
    e == Commit(a) && ReadyToCommit(s, a) && s.tables.approvals[a].expiresAt <= s.now
  }

  ghost predicate SameDeadline(t: Tables, u: Tables, a: ApprovalId) {
    a in t.approvals && a in u.approvals && u.approvals[a].expiresAt == t.approvals[a].expiresAt
  }

  lemma CommitSettles(s: State, a: ApprovalId, b: ApprovalId)
    requires Inv(s) && a in s.tables.approvals && EffectiveStatus(s.tables.approvals[a], s.now) != Pending
    ensures var t := CommitStep(s, b).0;
            && SameDeadline(s.tables, t.tables, a)
            && (LateCommit(s, Commit(b), a) <==>
                  EffectiveStatus(t.tables.approvals[a], t.now) != EffectiveStatus(s.tables.approvals[a], s.now))
  {
    if ReadyToCommit(s, b) {
      assert DraftOk(s.tables, b, s.drafts[b]);
      if s.drafts[b].Deciding? { NeverCollides(s, b); }
    }
  }

  lemma RowsSettle(s: State, e: Event, a: ApprovalId)
    requires a in s.tables.approvals && a < s.next
    requires e.Tick? || e.SetRole? || e.Create? || e.CreateConfirmation? || e.ConsumeElsewhere?
    ensures SameDeadline(s.tables, Step(s, e).tables, a)
    ensures EffectiveStatus(s.tables.approvals[a], s.now) != Pending ==>
              EffectiveStatus(Step(s, e).tables.approvals[a], Step(s, e).now)
                == EffectiveStatus(s.tables.approvals[a], s.now)
  {
  }

  lemma CallsSettle(s: State, e: Event, a: ApprovalId)
    requires a in s.tables.approvals
    requires e.Authorize? || e.OpenCancel? || e.OpenDecision? || e.Confirm? || e.Abort?
    ensures SameDeadline(s.tables, Step(s, e).tables, a)
    ensures EffectiveStatus(s.tables.approvals[a], s.now) != Pending ==>
              EffectiveStatus(Step(s, e).tables.approvals[a], Step(s, e).now)
                == EffectiveStatus(s.tables.approvals[a], s.now)
  {
  }

  lemma OthersSettle(s: State, e: Event, a: ApprovalId)
    requires Inv(s) && a in s.tables.approvals && !e.Commit?
    ensures SameDeadline(s.tables, Step(s, e).tables, a)
    ensures EffectiveStatus(s.tables.approvals[a], s.now) != Pending ==>
              EffectiveStatus(Step(s, e).tables.approvals[a], Step(s, e).now)
                == EffectiveStatus(s.tables.approvals[a], s.now)
  {
    assert ApprovalOk(s.tables, a, s.next);
    if e.Authorize? || e.OpenCancel? || e.OpenDecision? || e.Confirm? || e.Abort? {
      CallsSettle(s, e, a);
    } else {
      RowsSettle(s, e, a);
    }
  }

  /** A status that has left pending changes in exactly one way: a commit that lands after the deadline. */
  lemma SettledUnlessLateCommit(s: State, e: Event, a: ApprovalId)
    requires Inv(s) && a in s.tables.approvals && EffectiveStatus(s.tables.approvals[a], s.now) != Pending
    ensures a in Step(s, e).tables.approvals
    ensures LateCommit(s, e, a) <==>
              EffectiveStatus(Step(s, e).tables.approvals[a], Step(s, e).now)
                != EffectiveStatus(s.tables.approvals[a], s.now)
  {
    if e.Commit? { CommitSettles(s, a, e.approval); } else { OthersSettle(s, e, a); }
  }

  /** No commit of the run lands after its approval's deadline. */
  ghost predicate Punctual(s: State, events: seq<Event>, a: ApprovalId)
    decreases |events|
  {
    events == [] || (!LateCommit(s, events[0], a) && Punctual(Step(s, events[0]), events[1..], a))
  }

  /** A stored status that has left pending stays as it is. */
  lemma StoredStays(s: State, e: Event, a: ApprovalId)
    requires Inv(s) && a in s.tables.approvals && s.tables.approvals[a].status != Pending
    ensures a in Step(s, e).tables.approvals && Step(s, e).tables.approvals[a].status == s.tables.approvals[a].status
  {
    forall b | b in s.drafts ensures b != a { assert DraftOk(s.tables, b, s.drafts[b]); }
    assert ApprovalOk(s.tables, a, s.next);
    StoredStep(s, e, a);
  }

  lemma StoredStep(s: State, e: Event, a: ApprovalId)
    requires a in s.tables.approvals && a < s.next && a !in s.drafts && s.tables.approvals[a].status != Pending
    ensures a in Step(s, e).tables.approvals && Step(s, e).tables.approvals[a].status == s.tables.approvals[a].status
  {
    match e
    case Create(_, _, _, _) =>
    case CreateConfirmation(_, _, _, _) =>
    case ConsumeElsewhere(_, _, _, _, _) =>
    case Authorize(_, _) =>
    case OpenCancel(_, _) =>
    case OpenDecision(_, _, _, _, _, _) =>
    case Confirm(_, _) =>
    case Commit(_) =>
    case _ =>
  }

  lemma {:induction false} StoredForGood(s: State, events: seq<Event>, a: ApprovalId)
    requires Inv(s) && a in s.tables.approvals && s.tables.approvals[a].status != Pending
    ensures a in Run(s, events).tables.approvals
      && Run(s, events).tables.approvals[a].status == s.tables.approvals[a].status
    decreases |events|
  {
    if events != [] {
      StoredStays(s, events[0], a);
      StepInv(s, events[0]);
      StoredForGood(Step(s, events[0]), events[1..], a);
    }
  }

  /** A late commit replaces the expired that readers saw by the outcome of the call, for good. */
  lemma LateCommitSticks(s: State, e: Event, events: seq<Event>, a: ApprovalId)
    requires Inv(s) && LateCommit(s, e, a) && EffectiveStatus(s.tables.approvals[a], s.now) != Pending
    ensures var u := Run(Step(s, e), events);
            && EffectiveStatus(s.tables.approvals[a], s.now) == Expired
            && a in u.tables.approvals && EffectiveStatus(u.tables.approvals[a], u.now) != Expired
  {
    assert DraftOk(s.tables, a, s.drafts[a]);
    if s.drafts[a].Deciding? { NeverCollides(s, a); }
    StepInv(s, e);
    StoredForGood(Step(s, e), events, a);
  }

  /**
    Over a run, the status readers saw settled is the one they see at the end, if and only if no
    commit of the run landed after the approval's deadline.
   */
  lemma {:induction false} SettledForGood(s: State, events: seq<Event>, a: ApprovalId)
    requires Inv(s) && a in s.tables.approvals && EffectiveStatus(s.tables.approvals[a], s.now) != Pending
    ensures a in Run(s, events).tables.approvals
    ensures Punctual(s, events, a) <==>
              EffectiveStatus(Run(s, events).tables.approvals[a], Run(s, events).now)
                == EffectiveStatus(s.tables.approvals[a], s.now)
    decreases |events|
  {
    if events != [] {
      var e := events[0];
      if LateCommit(s, e, a) {
        LateCommitSticks(s, e, events[1..], a);
      } else {
        SettledUnlessLateCommit(s, e, a);
        StepInv(s, e);
        SettledForGood(Step(s, e), events[1..], a);
      }
    }
  }

  const LATE_DECISION: seq<Event> := [
    Create(1, 5, 7, Some(10)), SetRole(2, 1, Some(Owner)),
      CreateConfirmation(2, None, ToDecide(Approve), AnApproval(0)),
    OpenDecision(2, None, 0, Approve, 3, 9), Confirm(0, 1), Tick(10)]

  lemma RunTwo(s: State, events: seq<Event>)
    requires |events| >= 2
    ensures Run(s, events) == Run(Step(Step(s, events[0]), events[1]), events[2..])
  {
    assert events[1..][1..] == events[2..];
  }

  const ROW := Approval(1, 5, 7, Pending, 10)
  const TOKEN := Confirmation(2, None, ToDecide(Approve), AnApproval(0), 60, None)
  const CALL := Deciding(2, None, Approve, 3, 9, Owner, None)

  lemma LateFirst()
    ensures Run(Start(0, 60, 60), LATE_DECISION)
              == Run(State(0, 1, 60, 60, map[(2, 1) := Owner], Tables(map[0 := ROW], map[], map[]), map[]),
                LATE_DECISION[2..])
  {
    RunTwo(Start(0, 60, 60), LATE_DECISION);
  }

  lemma LateSeen()
    ensures Run(Start(0, 60, 60), LATE_DECISION)
              == State(10, 2, 60, 60, map[(2, 1) := Owner], Tables(map[0 := ROW], map[], map[1 := TOKEN]),
                       map[0 := CALL.(confirmed := Some(Stamp(1, 0)))])
  {
    LateFirst();
    var s2 := State(0, 1, 60, 60, map[(2, 1) := Owner], Tables(map[0 := ROW], map[], map[]), map[]);
    RunTwo(s2, LATE_DECISION[2..]);
    var s4 := Step(Step(s2, LATE_DECISION[2]), LATE_DECISION[3]);
    assert s4 == s2.(next := 2, tables := Tables(map[0 := ROW], map[], map[1 := TOKEN]), drafts := map[0 := CALL]);
    RunTwo(s4, LATE_DECISION[4..]);
    assert LATE_DECISION[2..][2..] == LATE_DECISION[4..] && LATE_DECISION[4..][2..] == [];
  }

  /** A decision checked before the deadline and committed after it: readers saw "expired", then "approved". */
  lemma LateCommitRevives()
    ensures var seen := Run(Start(0, 60, 60), LATE_DECISION);
            && 0 in seen.tables.approvals && EffectiveStatus(seen.tables.approvals[0], seen.now) == Expired
            && var after := Step(seen, Commit(0));
            0 in after.tables.approvals && EffectiveStatus(after.tables.approvals[0], after.now) == Approved
  {
    LateSeen();
  }
}
