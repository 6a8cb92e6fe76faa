/** Who may decide what, and what each approval call answers and writes, said of the rows it finds. */
module ApprovalAnswers {
  import opened Prelude
  import opened Approvals
  import opened ApprovalSafety

  // ----- Every decision goes back to an authorized call -----

  /** The human has a deciding role on the agent of an approval that is open. */
  ghost predicate Authorized(s: State, human: HumanId, a: ApprovalId, role: Role) {
    && a in s.tables.approvals && s.tables.approvals[a].status == Pending && s.now < s.tables.approvals[a].expiresAt
    && (human, s.tables.approvals[a].agent) in s.roles && s.roles[(human, s.tables.approvals[a].agent)] == role
    && role in {Owner, Operator}
  }

  ghost predicate OpenedAt(start: State, events: seq<Event>, i: nat, a: ApprovalId, draft: Draft) {
    && i < |events| && draft.Deciding?
    && events[i] == OpenDecision(draft.human, draft.session, a, draft.verdict, draft.note, draft.key)
    && Authorized(Run(start, events[..i]), draft.human, a, draft.role)
  }

  ghost predicate SameCall(x: Draft, y: Draft) {
    x.Deciding? && y.Deciding? && y == x.(confirmed := y.confirmed)
  }

  lemma DraftOrigin(s: State, e: Event, a: ApprovalId)
    requires a in Step(s, e).drafts && Step(s, e).drafts[a].Deciding?
    ensures var draft := Step(s, e).drafts[a];
            || (a in s.drafts && SameCall(s.drafts[a], draft))
            || (e == OpenDecision(draft.human, draft.session, a, draft.verdict, draft.note, draft.key)
                && Authorized(s, draft.human, a, draft.role))
  {
    match e
    case Create(_, _, _, _) =>
    case CreateConfirmation(_, _, _, _) =>
    case ConsumeElsewhere(_, _, _, _, _) =>
    case Authorize(_, _) =>
    case OpenCancel(_, _) =>
    case OpenDecision(_, _, _, _, _, _) =>
    case Confirm(_, _) =>
    case Commit(_) =>
    case _ =>
  }

  lemma DecisionOrigin(s: State, e: Event, d: DecisionId)
    requires d in Step(s, e).tables.decisions
    ensures var row := Step(s, e).tables.decisions[d];
            || (d in s.tables.decisions && s.tables.decisions[d] == row)
            || (row.approval in s.drafts && s.drafts[row.approval].Deciding?
                && var x := s.drafts[row.approval];
                row.human == x.human && row.session == x.session && row.verdict == x.verdict && row.note == x.note
                  && row.key == x.key && row.role == x.role)
  {
    match e
    case Create(_, _, _, _) =>
    case CreateConfirmation(_, _, _, _) =>
    case ConsumeElsewhere(_, _, _, _, _) =>
    case Authorize(_, _) =>
    case OpenCancel(_, _) =>
    case OpenDecision(_, _, _, _, _, _) =>
    case Confirm(_, _) =>
    case Commit(_) =>
    case _ =>
  }

  lemma {:induction false} RunSnoc(s: State, events: seq<Event>, e: Event)
    ensures Run(s, events + [e]) == Step(Run(s, events), e)
    decreases |events|
  {
    if events == [] {
      assert events + [e] == [e] && [e][1..] == [];
    } else {
      assert (events + [e])[1..] == events[1..] + [e];
      RunSnoc(Step(s, events[0]), events[1..], e);
    }
  }

  lemma OpenedEarlier(start: State, init: seq<Event>, e: Event, i: nat, a: ApprovalId, x: Draft, y: Draft)
    requires OpenedAt(start, init, i, a, x) && SameCall(x, y)
    ensures OpenedAt(start, init + [e], i, a, y)
  {
    assert (init + [e])[..i] == init[..i] && (init + [e])[i] == init[i];
  }

  lemma {:induction false} DraftsWereOpened(start: State, events: seq<Event>, a: ApprovalId)
    requires start.drafts == map[] && a in Run(start, events).drafts && Run(start, events).drafts[a].Deciding?
    ensures exists i: nat :: OpenedAt(start, events, i, a, Run(start, events).drafts[a])
    decreases |events|
  {
    if events != [] {
      var init, e := events[..|events| - 1], events[|events| - 1];
      assert events == init + [e] && events[..|init|] == init;
      RunSnoc(start, init, e);
      var s := Run(start, init);
      var draft := Step(s, e).drafts[a];
      DraftOrigin(s, e, a);
      if a in s.drafts && SameCall(s.drafts[a], draft) {
        DraftsWereOpened(start, init, a);
        var i: nat :| OpenedAt(start, init, i, a, s.drafts[a]);
        OpenedEarlier(start, init, e, i, a, s.drafts[a], draft);
      } else {
        assert OpenedAt(start, events, |init|, a, draft);
      }
    }
  }

  /** The call that the decision row goes back to. */
  ghost predicate DecidedFrom(start: State, events: seq<Event>, i: nat, row: Decision) {
    && i < |events|
    && events[i] == OpenDecision(row.human, row.session, row.approval, row.verdict, row.note, row.key)
    && Authorized(Run(start, events[..i]), row.human, row.approval, row.role)
  }

  lemma DecidedEarlier(start: State, init: seq<Event>, e: Event, i: nat, row: Decision)
    requires DecidedFrom(start, init, i, row)
    ensures DecidedFrom(start, init + [e], i, row)
  {
    assert (init + [e])[..i] == init[..i] && (init + [e])[i] == init[i];
  }

  /**
    In every run each decision goes back to a call of its human for that very approval, verdict and
    note, opened while the approval was pending and unexpired and that human was an owner or an
    operator of its agent.
   */
  lemma {:induction false} EveryDecisionWasAuthorized(start: State, events: seq<Event>, d: DecisionId)
    requires start.drafts == map[] && start.tables.decisions == map[]
    requires d in Run(start, events).tables.decisions
    ensures exists i: nat :: DecidedFrom(start, events, i, Run(start, events).tables.decisions[d])
    decreases |events|
  {
    if events != [] {
      var init, e := events[..|events| - 1], events[|events| - 1];
      assert events == init + [e];
      RunSnoc(start, init, e);
      var s := Run(start, init);
      var row := Step(s, e).tables.decisions[d];
      DecisionOrigin(s, e, d);
      if d in s.tables.decisions && s.tables.decisions[d] == row {
        EveryDecisionWasAuthorized(start, init, d);
        var i: nat :| DecidedFrom(start, init, i, row);
        DecidedEarlier(start, init, e, i, row);
      } else {
        DraftsWereOpened(start, init, row.approval);
        var i: nat :| OpenedAt(start, init, i, row.approval, s.drafts[row.approval]);
        assert DecidedFrom(start, init, i, row);
        DecidedEarlier(start, init, e, i, row);
      }
    }
  }

  // ----- Authorizing -----

  ghost predicate Lapsed(row: Approval, now: int) {
    row.status == Expired || (row.status == Pending && row.expiresAt <= now)
  }

  ghost predicate SetStatus(s: State, t: State, a: ApprovalId, status: Status) {
    && a in s.tables.approvals
    && t == s.(tables := s.tables.(approvals := s.tables.approvals[a := s.tables.approvals[a].(status := status)]))
  }

  /** What the checks answer a human on an approval that no call holds. */
  ghost predicate AuthorizationAnswer(s: State, t: State, human: HumanId, a: ApprovalId, answer: Answer)
    requires a in s.tables.approvals
  {
    var row := s.tables.approvals[a];
    var g := (human, row.agent);
    && (answer == NotFound <==> g !in s.roles)
    && (answer == NotAllowed <==> g in s.roles && s.roles[g] in {Viewer, Auditor})
    && (answer == InvalidState(Expired) <==> g in s.roles && s.roles[g] in {Owner, Operator} && Lapsed(row, s.now))
    && (answer == Done <==>
          g in s.roles && s.roles[g] in {Owner, Operator} && row.status == Pending && s.now < row.expiresAt)
    && (forall status | status != Expired :: answer == InvalidState(status) <==>
          g in s.roles && s.roles[g] in {Owner, Operator} && row.status == status && status != Pending)
    && (if answer == InvalidState(Expired) then SetStatus(s, t, a, Expired) else t == s)
  }

  lemma AuthorizationAnswered(s: State, human: HumanId, a: ApprovalId)
    ensures var (t, answer) := Serve(s, Authorize(human, a));
            if a !in s.tables.approvals then (t, answer) == (s, NotFound)
            else if a in s.drafts then (t, answer) == (s, Waits)
            else AuthorizationAnswer(s, t, human, a, answer)
  {
  }

  /** The status shown is the stored one, but a pending approval past its deadline is shown as expired. */
  lemma ReadersSee(row: Approval, now: int)
    ensures EffectiveStatus(row, now) == Expired <==> Lapsed(row, now)
    ensures !Lapsed(row, now) ==> EffectiveStatus(row, now) == row.status
  {
  }

  // ----- A decision call that nobody disturbs -----

  /** The confirmation is for exactly this action, unused and in time. */
  ghost predicate Confirms(s: State, token: ConfirmationId, human: HumanId, session: Option<SessionId>, a: ApprovalId,
      verdict: Verdict) {
    && token in s.tables.confirmations
    && var row := s.tables.confirmations[token];
    && row.human == human && row.session == session && row.intent == ToDecide(verdict) && row.target == AnApproval(a)
    && row.consumedAt == None && s.now < row.expiresAt
  }

  /** The decision, the approval's status and the confirmation's use are written together, and nothing else. */
  ghost predicate DecisionWritten(s: State, t: State, human: HumanId, session: Option<SessionId>, a: ApprovalId,
      verdict: Verdict, note: nat, key: nat, token: ConfirmationId) {
    && a in s.tables.approvals && token in s.tables.confirmations && t.roles == s.roles && t.now == s.now
    && (human, s.tables.approvals[a].agent) in s.roles
    && t.tables.approvals == s.tables.approvals[a := s.tables.approvals[a].(
      status := if verdict == Approve then Approved else Rejected)]
    && t.tables.confirmations
      == s.tables.confirmations[token := s.tables.confirmations[token].(consumedAt := Some(s.now))]
    && exists d: DecisionId :: d !in s.tables.decisions
        && t.tables.decisions == s.tables.decisions[d := Decision(a, human, session, token, verdict, note, key,
          s.roles[(human, s.tables.approvals[a].agent)])]
  }

  ghost predicate KeyTaken(s: State, human: HumanId, key: nat) {
    exists d :: d in s.tables.decisions && s.tables.decisions[d].human == human && s.tables.decisions[d].key == key
  }

  /** What a decision under a fresh key answers and writes. */
  ghost predicate FreshDecision(s: State, t: State, human: HumanId, session: Option<SessionId>, a: ApprovalId,
      verdict: Verdict, note: nat, key: nat, token: ConfirmationId, answer: Answer) {
    if a !in s.tables.approvals then answer == NotFound && t == s
    else if !exists role :: Authorized(s, human, a, role) then
      AuthorizationAnswer(s, t, human, a, answer)
    else if !Confirms(s, token, human, session, a, verdict) then answer == ConfirmationInvalid && t == s
    else answer == Done && DecisionWritten(s, t, human, session, a, verdict, note, key, token)
  }

  lemma AuthorizedIffDone(s: State, human: HumanId, a: ApprovalId)
    requires a in s.tables.approvals && a !in s.drafts
    ensures AuthorizeStep(s, human, a).1 == Done <==> exists role :: Authorized(s, human, a, role)
  {
    var g := (human, s.tables.approvals[a].agent);
    if AuthorizeStep(s, human, a).1 == Done { assert Authorized(s, human, a, s.roles[g]); }
  }

  // ----- Creating and cancelling -----

  lemma CreationAnswered(s: State, agent: AgentId, key: nat, payload: nat, expiresAt: Option<int>)
    requires Inv(s)
    ensures var (t, answer) := Serve(s, Create(agent, key, payload, expiresAt));
            && (answer.Created? <==>
                  forall a | a in s.tables.approvals ::
                    !(s.tables.approvals[a].agent == agent && s.tables.approvals[a].key == key))
            && (!answer.Created? ==> t == s)
            && (answer.Created? ==>
                  && answer.id !in s.tables.approvals && t.drafts == s.drafts && t.roles == s.roles && t.now == s.now
                  && t.tables == s.tables.(approvals := s.tables.approvals[answer.id :=
                    Approval(agent, key, payload, Pending,
                      if expiresAt.Some? then expiresAt.value else s.now + s.defaultTtl)]))
  {
    forall a | a in s.tables.approvals ensures a < s.next { assert ApprovalOk(s.tables, a, s.next); }
    var existing := ApprovalOf(s.tables.approvals, agent, key);
    forall a | a in s.tables.approvals
      ensures HasKey(s.tables.approvals[a], agent, key)
              <==> s.tables.approvals[a].agent == agent && s.tables.approvals[a].key == key
    {
    }
  }

  /** Only the requesting agent cancels, and only what is still pending; then its call holds the approval. */
  lemma CancellingAnswered(s: State, agent: AgentId, a: ApprovalId)
    ensures var (t, answer) := Serve(s, OpenCancel(agent, a));
            if a !in s.tables.approvals || s.tables.approvals[a].agent != agent then (t, answer) == (s, NotFound)
            else if a in s.drafts then (t, answer) == (s, Waits)
            else
              var row := s.tables.approvals[a];
              && (answer == Done <==> row.status in {Pending, Cancelled, Expired})
              && (answer != Done ==> answer == InvalidState(row.status) && t == s)
              && (Lapsed(row, s.now) ==> SetStatus(s, t, a, Expired))
              && (row.status == Cancelled ==> t == s)
              && (row.status == Pending && s.now < row.expiresAt ==> t == s.(drafts := s.drafts[a := Cancelling]))
  {
  }

  /** The commit of a cancellation sets the status and releases the approval. */
  lemma CancellationCommits(s: State, a: ApprovalId)
    requires a in s.tables.approvals && a in s.drafts && s.drafts[a].Cancelling?
    ensures var (t, answer) := Serve(s, Commit(a));
            answer == Done && t.drafts == s.drafts - {a} && SetStatus(s, t.(drafts := s.drafts), a, Cancelled)
  {
  }

  /** A call that is given up releases its approval and writes nothing. */
  lemma AbortReleases(s: State, a: ApprovalId)
    ensures Step(s, Abort(a)) == s.(drafts := s.drafts - {a})
  {
  }

  /** The confirmation is for exactly this action, unused and in time. */
  ghost predicate ConfirmsAction(s: State, token: ConfirmationId, human: HumanId, session: Option<SessionId>,
      intent: Intent, target: Target) {
    && token in s.tables.confirmations
    && var row := s.tables.confirmations[token];
    && row.human == human && row.session == session && row.intent == intent && row.target == target
    && row.consumedAt == None && s.now < row.expiresAt
  }

  ghost predicate MarkedUsed(s: State, t: State, token: ConfirmationId) {
    && token in s.tables.confirmations
    && t == s.(tables := s.tables.(confirmations :=
      s.tables.confirmations[token := s.tables.confirmations[token].(consumedAt := Some(s.now))]))
  }

  /** A confirmation that no open decision holds is used up for its action, and for no other. */
  lemma ConsumptionAnswered(s: State, human: HumanId, session: Option<SessionId>, intent: Intent, target: Target,
      token: ConfirmationId)
    ensures var (t, answer) := Serve(s, ConsumeElsewhere(human, session, intent, target, token));
            && (answer == Waits <==>
                  exists a :: a in s.drafts && s.drafts[a].Deciding? && s.drafts[a].confirmed.Some?
                    && s.drafts[a].confirmed.value.confirmation == token)
            && (answer == Done <==>
                  answer != Waits && ConfirmsAction(s, token, human, session, intent, target))
            && (if answer == Done then MarkedUsed(s, t, token) else t == s)
  {
    if a :| a in s.drafts && Holds(s.drafts[a], token) {
      assert ConfirmationLocked(s, token);
    }
  }

  /** A confirmation is stored for exactly what was asked, unused, and expires in time. */
  lemma ConfirmationCreated(s: State, human: HumanId, session: Option<SessionId>, intent: Intent, target: Target)
    requires Inv(s)
    ensures var (t, answer) := Serve(s, CreateConfirmation(human, session, intent, target));
            && answer.Created? && answer.id !in s.tables.confirmations
            && t.tables == s.tables.(confirmations := s.tables.confirmations[answer.id :=
              Confirmation(human, session, intent, target, s.now + s.confirmationTtl, None)])
            && t.drafts == s.drafts && t.roles == s.roles && t.now == s.now
  {
  }
}
