/**
  The approval tables as one mutable store: calls that check, change rows in place and commit
  with no other call in between. Each is proved to be the run of its own steps.
 */
module ApprovalDesk {
  import opened Prelude
  import opened Approvals
  import opened ApprovalAnswers
  import opened ApprovalSafety

  /** Consume the confirmation, then commit; an unusable confirmation is the answer. */
  ghost function Finish(s: State, a: ApprovalId, token: ConfirmationId): (State, Answer) {
    var (confirmed, answer) := ConfirmStep(s, a, token);
    if answer != Done then (confirmed, answer) else CommitStep(confirmed, a)
  }

  /** A decision call: open, confirm, commit; the first refusal is the answer. */
  ghost function DecideAtOnce(
      s: State, human: HumanId, session: Option<SessionId>, a: ApprovalId, verdict: Verdict, note: nat, key: nat,
      token: ConfirmationId): (State, Answer)
  {
    var (begun, answer) := OpenDecisionStep(s, human, session, a, verdict, note, key);
    if answer != Done then (begun, answer) else Finish(begun, a, token)
  }

  lemma RunThree(s: State, e: Event, f: Event, g: Event)
    ensures Run(s, [e, f, g]) == Step(Step(Step(s, e), f), g)
  {
    var events := [e, f, g];
    RunFirst(s, events);
    RunFirst(Step(s, e), events[1..]);
    RunFirst(Step(Step(s, e), f), events[1..][1..]);
  }

  lemma RunFirst(s: State, events: seq<Event>)
    requires events != []
    ensures Run(s, events) == Run(Step(s, events[0]), events[1..])
  {
  }

  lemma RefusedHolds(s: State, a: ApprovalId, token: ConfirmationId)
    requires a !in s.drafts
    ensures Step(s, Confirm(a, token)) == s && Step(s, Commit(a)) == s
  {
  }

  ghost predicate Begun(s: State, a: ApprovalId, draft: Draft) {
    s.drafts == map[a := draft] && draft.Deciding? && draft.confirmed.None?
  }

  lemma FinishIsARun(s: State, a: ApprovalId, token: ConfirmationId, draft: Draft)
    requires Begun(s, a, draft)
    ensures Finish(s, a, token).0 == Step(Step(s, Confirm(a, token)), Commit(a))
  {
    assert !ConfirmationLocked(s, token);
    var (confirmed, answer) := ConfirmStep(s, a, token);
    if answer != Done { RefusedHolds(confirmed, a, token); }
  }

  /** What opening a decision alone in the store leads to. */
  lemma OpeningAlone(s: State, human: HumanId, session: Option<SessionId>, a: ApprovalId, verdict: Verdict,
      note: nat, key: nat)
    requires s.drafts == map[]
    ensures var (begun, answer) := OpenDecisionStep(s, human, session, a, verdict, note, key);
            if answer == Done then a in begun.drafts && Begun(begun, a, begun.drafts[a]) else begun.drafts == map[]
  {
  }

  /** Confirming and committing after opening is the rest of the call. */
  lemma OpenedIsARun(
      s: State, human: HumanId, session: Option<SessionId>, a: ApprovalId, verdict: Verdict, note: nat, key: nat,
      token: ConfirmationId)
    requires s.drafts == map[]
    ensures var begun := OpenDecisionStep(s, human, session, a, verdict, note, key).0;
            DecideAtOnce(s, human, session, a, verdict, note, key, token).0
              == Step(Step(begun, Confirm(a, token)), Commit(a))
  {
    OpeningAlone(s, human, session, a, verdict, note, key);
    var (begun, answer) := OpenDecisionStep(s, human, session, a, verdict, note, key);
    if answer == Done {
      FinishIsARun(begun, a, token, begun.drafts[a]);
    } else {
      RefusedHolds(begun, a, token);
    }
  }

  /** Calls that do not overlap are runs of the concurrent model. */
  lemma AtOnceIsARun(
      s: State, human: HumanId, session: Option<SessionId>, a: ApprovalId, verdict: Verdict, note: nat, key: nat,
      token: ConfirmationId)
    requires s.drafts == map[]
    ensures DecideAtOnce(s, human, session, a, verdict, note, key, token).0
              == Run(s, [OpenDecision(human, session, a, verdict, note, key), Confirm(a, token), Commit(a)])
  {
    RunThree(s, OpenDecision(human, session, a, verdict, note, key), Confirm(a, token), Commit(a));
    OpenedIsARun(s, human, session, a, verdict, note, key, token);
  }

  /** Finishing a call that is alone: everything written, or nothing. */
  lemma FinishOutcome(s: State, a: ApprovalId, token: ConfirmationId, draft: Draft)
    requires Begun(s, a, draft) && Inv(s)
    ensures Finish(s, a, token) ==
              if Usable(s, token, draft.human, draft.session, ToDecide(draft.verdict), AnApproval(a))
              then (s.(tables := Decided(s.tables, a, draft.(confirmed := Some(Stamp(token, s.now))), s.next),
                next := s.next + 1, drafts := map[]), Done)
              else (s.(drafts := map[]), ConfirmationInvalid)
  {
    assert a in s.drafts && DraftOk(s.tables, a, s.drafts[a]);
    assert !ConfirmationLocked(s, token);
    var (confirmed, answer) := ConfirmStep(s, a, token);
    ConfirmInv(s, a, token);
    if answer == Done {
      NeverCollides(confirmed, a);
      assert confirmed.drafts - {a} == map[];
    } else {
      assert s.drafts - {a} == map[];
    }
  }

  /** From any state that satisfies the invariants, with no other call open. */
  lemma DecisionAlone(s: State, human: HumanId, session: Option<SessionId>, a: ApprovalId, verdict: Verdict, note: nat,
      key: nat, token: ConfirmationId)
    requires Inv(s) && s.drafts == map[] && !KeyTaken(s, human, key)
    ensures var (t, answer) := DecideAtOnce(s, human, session, a, verdict, note, key, token);
            FreshDecision(s, t, human, session, a, verdict, note, key, token, answer)
  {
    assert DecisionOf(s.tables.decisions, human, key) == None;
    if a in s.tables.approvals {
      AuthorizationAnswered(s, human, a);
      AuthorizedIffDone(s, human, a);
      if AuthorizeStep(s, human, a).1 == Done { FinishAlone(s, human, session, a, verdict, note, key, token); }
    }
  }

  /** The rest of an authorized call: the confirmation fits and everything is written, or nothing is. */
  lemma FinishAlone(s: State, human: HumanId, session: Option<SessionId>, a: ApprovalId, verdict: Verdict, note: nat,
      key: nat, token: ConfirmationId)
    requires Inv(s) && s.drafts == map[] && DecisionOf(s.tables.decisions, human, key) == None
    requires AuthorizeStep(s, human, a) == (s, Done)
    ensures var (t, answer) := DecideAtOnce(s, human, session, a, verdict, note, key, token);
            if Confirms(s, token, human, session, a, verdict)
            then answer == Done && DecisionWritten(s, t, human, session, a, verdict, note, key, token)
            else answer == ConfirmationInvalid && t == s
  {
    var begun := OpenDecisionStep(s, human, session, a, verdict, note, key).0;
    assert Inv(begun) by { OpenDecisionInv(s, human, session, a, verdict, note, key); }
    FinishOutcome(begun, a, token, begun.drafts[a]);
    assert s.next !in s.tables.decisions by {
      forall d | d in s.tables.decisions ensures d < s.next { assert DecisionOk(s.tables, d, s.next); }
    }
  }

  class Desk {
    var now: int
    var next: nat
    const defaultTtl: nat
    const confirmationTtl: nat
    var roles: map<(HumanId, AgentId), Role>
    var approvals: map<ApprovalId, Approval>
    var decisions: map<DecisionId, Decision>
    var confirmations: map<ConfirmationId, Confirmation>

    function View(): State
      reads this
    {
      State(now, next, defaultTtl, confirmationTtl, roles, Tables(approvals, decisions, confirmations), map[])
    }

    constructor (start: int, approvalTtl: nat, tokenTtl: nat)
      ensures View() == Start(start, approvalTtl, tokenTtl)
    {
      now, next, defaultTtl, confirmationTtl := start, 0, approvalTtl, tokenTtl;
      roles, approvals, decisions, confirmations := map[], map[], map[], map[];
    }

    method CreateHumanConfirmation(human: HumanId, session: Option<SessionId>, intent: Intent,
        target: Target) returns (token: ConfirmationId)
      modifies this`next, this`confirmations
      ensures (View(), Created(token)) == CreateConfirmationStep(old(View()), human, session, intent, target)
    {
      token := next;
      confirmations := confirmations[token := Confirmation(human, session, intent, target, now + confirmationTtl,
        None)];
      next := next + 1;
    }

    /** Mark the confirmation consumed if it is one for exactly this action, else leave it alone. */
    method ConsumeHumanConfirmation(human: HumanId, session: Option<SessionId>, intent: Intent, target: Target,
        token: ConfirmationId)
      returns (consumed: bool)
      modifies this`confirmations
      ensures consumed == Usable(old(View()), token, human, session, intent, target)
      ensures View() == if consumed then old(View()).(tables := Consumed(old(View()).tables, token, now))
        else old(View())
      ensures consumed <==> ConfirmsAction(old(View()), token, human, session, intent, target)
      ensures if consumed then MarkedUsed(old(View()), View(), token) else View() == old(View())
    {
      consumed := false;
      if token in confirmations {
        var row := confirmations[token];
        if Fits(row, human, session, intent, target) && row.consumedAt == None && now < row.expiresAt {
          confirmations := confirmations[token := row.(consumedAt := Some(now))];
          consumed := true;
        }
      }
    }

    /** The checks of a human on an approval; a lapsed one is marked expired. */
    method Authorize(human: HumanId, a: ApprovalId) returns (answer: Answer)
      modifies this`approvals
      ensures (View(), answer) == AuthorizeStep(old(View()), human, a)
      ensures a in old(approvals) ==> AuthorizationAnswer(old(View()), View(), human, a, answer)
    {
      if a !in approvals { return NotFound; }
      var row := approvals[a];
      if (human, row.agent) !in roles { return NotFound; }
      if !MayDecide(roles[(human, row.agent)]) { return NotAllowed; }
      if EffectiveStatus(row, now) == Expired {
        approvals := approvals[a := row.(status := Expired)];
        return InvalidState(Expired);
      }
      if row.status != Pending { return InvalidState(row.status); }
      answer := Done;
    }

    method FindDecision(human: HumanId, key: nat) returns (found: Option<DecisionId>)
      requires TablesOk(View().tables, next)
      ensures found == DecisionOf(decisions, human, key)
    {
      if d :| d in decisions && KeyUsed(decisions[d], human, key) {
        forall e | e in decisions && KeyUsed(decisions[e], human, key) ensures e == d {
          assert e != d ==> Apart(decisions[e], decisions[d]);
        }
        found := Some(d);
      } else {
        found := None;
      }
    }

    /** Consume the confirmation and write status and decision, or refuse and write nothing. */
    method Record(human: HumanId, session: Option<SessionId>, a: ApprovalId, verdict: Verdict, note: nat, key: nat,
        token: ConfirmationId, role: Role)
      returns (answer: Answer)
      requires a in approvals
      modifies this`approvals, this`decisions, this`confirmations, this`next
      ensures var s := old(View());
              var draft := Deciding(human, session, verdict, note, key, role, Some(Stamp(token, now)));
              (View(), answer) ==
                if Usable(s, token, human, session, ToDecide(verdict), AnApproval(a))
                then (s.(tables := Decided(s.tables, a, draft, s.next), next := s.next + 1), Done)
                  else (s, ConfirmationInvalid)
    {
      var consumed := ConsumeHumanConfirmation(human, session, ToDecide(verdict), AnApproval(a), token);
      if !consumed { return ConfirmationInvalid; }
      decisions := decisions[next := Decision(a, human, session, token, verdict, note, key, role)];
      approvals := approvals[a := approvals[a].(status := Outcome(verdict))];
      next := next + 1;
      answer := Done;
    }

    /** Decide: replay by key, authorize, then consume the confirmation and write status and decision. */
    method Decide(
        human: HumanId, session: Option<SessionId>, a: ApprovalId, verdict: Verdict, note: nat, key: nat,
        token: ConfirmationId)
      returns (answer: Answer)
      requires Inv(View())
      modifies this
      ensures (View(), answer) == DecideAtOnce(old(View()), human, session, a, verdict, note, key, token)
    {
      ghost var before := View();
      var existing := FindDecision(human, key);
      if existing.Some? {
        answer := if SameRequest(decisions[existing.value], a, verdict, note) then Replayed(a) else KeyConflict;
        return;
      }
      answer := Authorize(human, a);
      if answer != Done { return; }
      var role := roles[(human, approvals[a].agent)];
      ghost var begun := OpenDecisionStep(before, human, session, a, verdict, note, key).0;
      OpenDecisionInv(before, human, session, a, verdict, note, key);
      FinishOutcome(begun, a, token, begun.drafts[a]);
      answer := Record(human, session, a, verdict, note, key, token, role);
    }
  }

  /** Deciding keeps every invariant of the concurrent model. */
  lemma DecidingKeeps(
      s: State, human: HumanId, session: Option<SessionId>, a: ApprovalId, verdict: Verdict, note: nat, key: nat,
      token: ConfirmationId)
    requires Inv(s) && s.drafts == map[]
    ensures Inv(DecideAtOnce(s, human, session, a, verdict, note, key, token).0)
  {
    AtOnceIsARun(s, human, session, a, verdict, note, key, token);
    RunInv(s, [OpenDecision(human, session, a, verdict, note, key), Confirm(a, token), Commit(a)]);
  }
}
