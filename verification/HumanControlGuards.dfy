/** Exactly when a message moves the business version without any business change, and exactly
    when a due escalation is made or dropped; each condition is one a caller can check. */
module HumanControlGuards {
  import opened Common
  import opened Records
  import DurableJobs
  import opened HumanControl
  import opened HumanControlStore
  import HumanControlRuns

  // ---------------------------------------------------------------- the guards on the way

  /** The command is well formed, its actor may control, and the job is the action's own. */
  predicate Heeded(s: Snapshot, cmd: Command, now: int) {
    InputsUsable(s, cmd, now) && Permitted(cmd.actor, s.action.tenantId, CONTROL) && BindsJob(s)
  }

  /** A decision that its own approver sends. */
  predicate Authentic(s: Snapshot, cmd: Command, f: Facts) {
    && cmd.operation.Decide? && cmd.decision.Some?
    && var d := cmd.decision.value;
       && d.decisionId != "" && (d.choice.Approved? || d.choice.Rejected?)
       && Permitted(cmd.actor, s.action.tenantId, APPROVE) && cmd.actor.actorId == d.actorId
       && cmd.actor.tenantId == d.tenantId && cmd.actor == f.approver
  }

  predicate Known(s: Snapshot, id: string) {
    exists k :: 0 <= k < |s.decisions| && s.decisions[k].decisionId == id
  }

  /** A gate, or an authentic decision that was not recorded before. */
  predicate Asks(s: Snapshot, cmd: Command, f: Facts) {
    cmd.operation.Gate? || (Authentic(s, cmd, f) && !Known(s, cmd.decision.value.decisionId))
  }

  /** Nothing has stopped the request: it is live, bound, unexpired and not quarantined. */
  predicate Live(s: Snapshot, f: Facts, now: int) {
    && !Terminal(s.job.state) && !Interrupted(s) && !Barred(s.approval) && s.request.binding == s.action
    && !(now >= s.request.expiresAt && f.approvalRequired) && !f.policyQuarantined
  }

  predicate PolicyHolds(s: Snapshot, f: Facts) {
    && f.policyAvailable && f.policyId == s.action.policyId && f.policyVersion == s.action.policyVersion
    && (s.action.risk.High? ==> f.approvalRequired)
  }

  /** Everything a gate needs besides the approval. */
  predicate Executable(s: Snapshot, f: Facts) {
    && ExecutorAuthorised(s, f) && f.governance.AllowedToAdmission? && f.businessValid && f.admissionAllowed
    && f.budgetAllowed && !s.dispatchStarted && f.certainty.DefinitelyNotDispatched? && HoldsReservation(s)
  }

  predicate AwaitsApproval(s: Snapshot, f: Facts) {
    f.approvalRequired && !s.approval.Approved?
  }

  lemma {:induction false} FoundIffKnown(ds: seq<ApprovalDecision>, id: string)
    ensures FindDecision(ds, id).Some? <==> exists k :: 0 <= k < |ds| && ds[k].decisionId == id
    decreases |ds|
  {
    if ds != [] {
      FoundIffKnown(ds[1..], id);
      assert forall k :: 1 <= k < |ds| ==> ds[k] == ds[1..][k - 1];
    }
  }

  lemma CallbackPassesIff(s: Snapshot, cmd: Command, f: Facts, now: int)
    requires cmd.operation.Decide?
    ensures DecisionIdentity(s, cmd, f, now).None? <==> Asks(s, cmd, f)
  {
    if cmd.decision.Some? { FoundIffKnown(s.decisions, cmd.decision.value.decisionId); }
  }

  lemma GuardsPassIff(s: Snapshot, cmd: Command, f: Facts, now: int)
    ensures Guarded(s, cmd, f, now).None? <==> Live(s, f, now) && PolicyHolds(s, f)
  {
  }

  // ---------------------------------------------------------------- business change

  /** The two snapshots agree on all business content; observers count once each. */
  ghost predicate SameBusiness(s: Snapshot, s': Snapshot) {
    && s'.job.state == s.job.state && s'.approval == s.approval && s'.decisions == s.decisions
    && s'.job.reservations == s.job.reservations && s'.job.outbox == s.job.outbox
    && s'.job.recoveries == s.job.recoveries && s'.escalations == s.escalations && s'.interruptId == s.interruptId
    && s'.dispatchStarted == s.dispatchStarted && (forall a :: a in s'.observedBy <==> a in s.observedBy)
  }

  /** The verdict asks only for what is already so. */
  ghost predicate NothingNew(s: Snapshot, cmd: Command, v: Verdict) {
    && v.nextState == s.job.state && v.approval == s.approval && v.recovery.None? && v.escalation.None?
    && !v.status.DecisionRecorded? && !Interrupting(v.status)
    && (v.reservation.Release? ==> !HoldsReservation(s))
    && (v.outbox.Some? ==> Announced(s.job.outbox, IntentId(s, cmd, v)))
    && (v.status.CancellationObserved? ==> cmd.actor.actorId in s.observedBy)
  }

  lemma NothingNewChangesNothing(s: Snapshot, cmd: Command, f: Facts, v: Verdict)
    requires NothingNew(s, cmd, v)
    ensures SameBusiness(s, Committed(s, cmd, f, v))
  {
    var s' := Committed(s, cmd, f, v);
    assert s'.job.reservations == Reserved(s, v, s.job.reservations);
    assert Reserved(s, v, s.job.reservations) == s.job.reservations;
    assert s'.job.outbox == Routed(s, cmd, v, s.job.outbox);
  }

  lemma SomethingNewChanges(s: Snapshot, cmd: Command, f: Facts, now: int, v: Verdict)
    requires Sound(s, cmd, f, now, v) && SameBusiness(s, Committed(s, cmd, f, v))
    ensures NothingNew(s, cmd, v)
  {
    var s' := Committed(s, cmd, f, v);
    assert v.recovery.Some? ==> |s'.job.recoveries| == |s.job.recoveries| + 1;
    assert v.escalation.Some? ==> |s'.escalations| == |s.escalations| + 1;
    assert v.status.DecisionRecorded? ==> |s'.decisions| == |s.decisions| + 1;
    assert v.recovery.None? ==> s'.job.outbox == Routed(s, cmd, v, s.job.outbox);
    if v.reservation.Release? && HoldsReservation(s) {
      ReleaseShows(s, cmd, f, v);
    }
    if v.status.CancellationObserved? {
      assert cmd.actor.actorId in s'.observedBy;
    }
  }

  lemma ReleaseShows(s: Snapshot, cmd: Command, f: Facts, v: Verdict)
    requires v.reservation.Release? && HoldsReservation(s) && v.recovery.None?
    ensures Committed(s, cmd, f, v).job.reservations != s.job.reservations
  {
    var i :| 0 <= i < |s.job.reservations| && s.job.reservations[i].attemptId == s.action.attemptId
             && s.job.reservations[i].status.Held?;
    var s' := Committed(s, cmd, f, v);
    assert s'.job.reservations == Reserved(s, v, s.job.reservations);
    assert s'.job.reservations[i].status.Released?;
  }

  // ---------------------------------------------------------------- versions moved for nothing

  predicate Repeats(s: Snapshot, outbox: EventType) {
    Announced(s.job.outbox, ControlEvent(s.action, s.request.requestId, outbox, None))
  }

  /** A gate past all guards that finds everything as it would leave it. */
  predicate WastedGate(s: Snapshot, f: Facts, now: int) {
    || (!ExecutorAuthorised(s, f) && !(DefinitelyUnused(s, f) && HoldsReservation(s)))
    || (Executable(s, f) && AwaitsApproval(s, f) && now < s.request.respondBy && s.job.state.Waiting?
        && Repeats(s, ApprovalRequested))
    || (Executable(s, f) && !AwaitsApproval(s, f) && s.job.state.Running?
        && (if f.approvalRequired then s.decisions != [] && CurrentApproverValid(s, f, s.decisions[0])
            else s.approval.NotRequired?)
        && Repeats(s, Publish))
  }

  /** A gate or decision on an approval that has already expired, a wait for a policy by a job
      that already waits, or a gate that repeats itself. */
  predicate WastedAsk(s: Snapshot, cmd: Command, f: Facts, now: int) {
    || (!Terminal(s.job.state) && !Interrupted(s) && s.approval.Expired?)
    || (Live(s, f, now) && !f.policyAvailable && now < f.policyWaitDeadline && s.job.state.Waiting?)
    || (cmd.operation.Gate? && Live(s, f, now) && PolicyHolds(s, f) && WastedGate(s, f, now))
  }

  /** The messages that move the version although they change no business content. */
  predicate Wasted(s: Snapshot, cmd: Command, f: Facts, now: int) {
    && Heeded(s, cmd, now) && Current(s, cmd)
    && (|| (cmd.operation.ObserveCancel? && Interrupted(s) && cmd.actor.actorId in s.observedBy)
        || (cmd.operation.Invalidate? && Permitted(cmd.actor, s.action.tenantId, OPERATE)
            && cmd.invalidateTo == Some(s.approval)
            && (s.approval.Revoked? || s.approval.Superseded? || s.approval.Withdrawn?))
        || (Asks(s, cmd, f) && WastedAsk(s, cmd, f, now)))
  }

  /** A verdict that is applied and asks for nothing new. */
  ghost predicate Idle(s: Snapshot, cmd: Command, v: Verdict) {
    Transition(cmd.operation, v.status) && NothingNew(s, cmd, v)
  }

  lemma GateIdle(s: Snapshot, cmd: Command, f: Facts, now: int)
    requires cmd.operation.Gate? && Guarded(s, cmd, f, now).None?
    ensures Idle(s, cmd, DecideGate(s, cmd, f, now)) <==> WastedGate(s, f, now)
  {
  }

  lemma GuardIdle(s: Snapshot, cmd: Command, f: Facts, now: int)
    requires (cmd.operation.Gate? || cmd.operation.Decide?) && Guarded(s, cmd, f, now).Some?
    ensures Idle(s, cmd, Guarded(s, cmd, f, now).value) <==>
      || (!Terminal(s.job.state) && !Interrupted(s) && s.approval.Expired?)
      || (Live(s, f, now) && !f.policyAvailable && now < f.policyWaitDeadline && s.job.state.Waiting?)
  {
  }

  lemma InterruptNotIdle(s: Snapshot, cmd: Command, f: Facts)
    ensures !Idle(s, cmd, DecideInterrupt(s, cmd, f))
  {
  }

  lemma LateResultNotIdle(s: Snapshot, cmd: Command, f: Facts)
    ensures !Idle(s, cmd, DecideLateResult(s, cmd, f))
  {
  }

  lemma ObserveIdle(s: Snapshot, cmd: Command, f: Facts)
    ensures Idle(s, cmd, DecideObserveCancel(s, cmd, f)) <==> Interrupted(s) && cmd.actor.actorId in s.observedBy
  {
  }

  lemma InvalidateIdle(s: Snapshot, cmd: Command, f: Facts)
    requires cmd.operation.Invalidate?
    ensures Idle(s, cmd, DecideInvalidate(s, cmd, f)) <==>
      && Permitted(cmd.actor, s.action.tenantId, OPERATE) && cmd.invalidateTo == Some(s.approval)
      && (s.approval.Revoked? || s.approval.Superseded? || s.approval.Withdrawn?)
  {
  }

  lemma EscalatingNotIdle(s: Snapshot, cmd: Command, f: Facts, now: int, reason: EscalationReason, state: AgentState,
                          approval: ApprovalStatus, recovery: Option<DurableJobs.RecoveryCandidate>,
                          evidence: seq<Evidence>)
    ensures !Idle(s, cmd, Escalating(s, cmd, f, now, reason, state, approval, recovery, evidence))
  {
  }

  lemma RecoveryVerdictNotIdle(s: Snapshot, cmd: Command, f: Facts, now: int, c: DurableJobs.RecoveryCandidate)
    ensures !Idle(s, cmd, RecoveryVerdict(s, cmd, f, now, c))
  {
    EscalatingNotIdle(s, cmd, f, now, BoundedRecoveryExhausted, c.nextState, s.approval, Some(c),
      [OriginalIdentityPreserved]);
  }

  lemma SettlementNotIdle(s: Snapshot, cmd: Command, f: Facts, now: int)
    requires f.verifiedUsage.Some? && f.outcomeEvidenceId.Some?
    ensures !Idle(s, cmd, DecideSettlement(s, cmd, f, now))
  {
    EscalatingNotIdle(s, cmd, f, now, SettlementConflict, s.job.state, s.approval, None, [SettledUsageNotRewritten]);
    EscalatingNotIdle(s, cmd, f, now, SettlementReservationConflict, s.job.state, s.approval, None, []);
    RecoveryVerdictNotIdle(s, cmd, f, now,
      DurableJobs.DecideRecovery(s.job, SettlementWindow(s, cmd, f, now), RecoveryRequestFor(s, cmd, f, now)));
  }

  lemma RecoverNotIdle(s: Snapshot, cmd: Command, f: Facts, now: int)
    ensures !Idle(s, cmd, DecideRecover(s, cmd, f, now))
  {
    RecoveryVerdictNotIdle(s, cmd, f, now,
      DurableJobs.DecideRecovery(s.job, Control(s, f), RecoveryRequestFor(s, cmd, f, now)));
    if f.verifiedUsage.Some? && f.outcomeEvidenceId.Some? {
      SettlementNotIdle(s, cmd, f, now);
    }
  }

  lemma CallbackNotIdle(s: Snapshot, cmd: Command, f: Facts, now: int)
    requires DecisionIdentity(s, cmd, f, now).Some?
    ensures !Idle(s, cmd, DecisionIdentity(s, cmd, f, now).value)
  {
  }

  lemma DecisionNotIdle(s: Snapshot, cmd: Command, f: Facts, now: int)
    requires cmd.decision.Some?
    ensures !Idle(s, cmd, DecideDecision(s, cmd, f, now))
  {
    EscalatingNotIdle(s, cmd, f, now, ConflictingHumanDecision, s.job.state, Conflict, None,
      [OriginalDecisionPreserved]);
  }

  lemma AskIdle(s: Snapshot, cmd: Command, f: Facts, now: int)
    requires Heeded(s, cmd, now) && Current(s, cmd) && Asks(s, cmd, f)
    ensures Idle(s, cmd, DecideVerdict(s, cmd, f, now)) <==> WastedAsk(s, cmd, f, now)
  {
    if cmd.operation.Decide? { CallbackPassesIff(s, cmd, f, now); }
    GuardsPassIff(s, cmd, f, now);
    if Guarded(s, cmd, f, now).Some? {
      GuardIdle(s, cmd, f, now);
    } else if cmd.operation.Decide? {
      DecisionNotIdle(s, cmd, f, now);
    } else {
      GateIdle(s, cmd, f, now);
    }
  }

  lemma IdleIffWasted(s: Snapshot, cmd: Command, f: Facts, now: int)
    ensures Idle(s, cmd, DecideVerdict(s, cmd, f, now)) <==> Wasted(s, cmd, f, now)
  {
    if !Heeded(s, cmd, now) {
    } else if cmd.operation.LateResult? {
      LateResultNotIdle(s, cmd, f);
    } else if cmd.operation.Decide? && DecisionIdentity(s, cmd, f, now).Some? {
      CallbackNotIdle(s, cmd, f, now);
      CallbackPassesIff(s, cmd, f, now);
    } else if !Current(s, cmd) {
    } else if cmd.operation.Recover? {
      RecoverNotIdle(s, cmd, f, now);
    } else if cmd.operation.ObserveCancel? {
      ObserveIdle(s, cmd, f);
    } else if cmd.operation.Interrupt? {
      InterruptNotIdle(s, cmd, f);
    } else if cmd.operation.Invalidate? {
      InvalidateIdle(s, cmd, f);
    } else {
      if cmd.operation.Decide? { CallbackPassesIff(s, cmd, f, now); }
      AskIdle(s, cmd, f, now);
    }
  }

  /** For every new command: it is accepted, and it keeps the version exactly when it changes
      no business content and is not one of the wasted messages; and a wasted message indeed
      moves the version while it changes nothing. */
  lemma VersionKeptExactly(s: Snapshot, commands: Commands, cmd: Command, f: Facts, now: int)
    requires cmd.commandId !in commands
    ensures var c := DecideControl(s, cmd, f, now);
      var o := Verify(s, commands, c, f, now, false);
      var s' := AfterApply(s, c, f, o);
      && Accepted(o)
      && (s'.job.stateVersion == s.job.stateVersion <==> SameBusiness(s, s') && !Wasted(s, cmd, f, now))
      && (s'.job.stateVersion != s.job.stateVersion ==> s'.job.stateVersion == s.job.stateVersion + 1)
      && (Wasted(s, cmd, f, now) ==> SameBusiness(s, s'))
      && (s'.job.stateVersion == s.job.stateVersion ==>
            s'.job.checkpoint == s.job.checkpoint && s'.history == s.history)
  {
    var c := DecideControl(s, cmd, f, now);
    HumanControlRuns.PlannerAndApplierAgree(s, commands, c, f, now, false);
    ControlSound(s, cmd, f, now);
    IdleIffWasted(s, cmd, f, now);
    var v := c.verdict;
    if Transition(cmd.operation, v.status) {
      if NothingNew(s, cmd, v) {
        NothingNewChangesNothing(s, cmd, f, v);
      } else if SameBusiness(s, Committed(s, cmd, f, v)) {
        SomethingNewChanges(s, cmd, f, now, v);
      }
    }
  }

  /** The expired sample, interrupted and with its operator already on record as an observer. */
  function ObservedSample(): Snapshot {
    HumanControlRuns.ExpiredSample().(interruptId := Some(Text("stop")), observedBy := ["op"])
  }

  function ObserveAgain(): Command {
    HumanControlRuns.ExpiredGate().(operation := ObserveCancel)
  }

  /** A concrete case without any expiry at work: observing a cancellation twice moves the version. */
  lemma RepeatedObservationAdvances(f: Facts)
    ensures var c := DecideControl(ObservedSample(), ObserveAgain(), f, 3);
      && Verify(ObservedSample(), map[], c, f, 3, false).Applied?
      && AfterApply(ObservedSample(), c, f, Applied).job.stateVersion == 1
      && SameBusiness(ObservedSample(), AfterApply(ObservedSample(), c, f, Applied))
  {
    assert CONTROL in HumanControlRuns.Operator().permissions by {
      assert HumanControlRuns.Operator().permissions[0] == CONTROL;
    }
    assert ObservedSample().observedBy[0] == "op";
    VersionKeptExactly(ObservedSample(), map[], ObserveAgain(), f, 3);
  }

  // ---------------------------------------------------------------- escalations made and dropped

  /** The recorded decision of this id differs from the one that is now told. */
  predicate Retold(s: Snapshot, cmd: Command, f: Facts) {
    && Authentic(s, cmd, f)
    && var previous := FindDecision(s.decisions, cmd.decision.value.decisionId);
       previous.Some? && previous.value != cmd.decision.value
  }

  /** A due decision of a request that was already decided. */
  predicate DecidedTwice(s: Snapshot, cmd: Command, f: Facts, now: int) {
    && Authentic(s, cmd, f) && !Known(s, cmd.decision.value.decisionId) && Live(s, f, now) && PolicyHolds(s, f)
    && var d := cmd.decision.value;
       && d.requestId == s.request.requestId && d.bindingFingerprint == Of(s.action)
       && s.request.requestedAt <= d.decidedAt <= now && d.decidedAt < s.request.expiresAt
       && cmd.actor.role in s.request.eligibleRoles && Separated(s, f) && s.decisions != []
  }

  predicate PolicyOverdue(s: Snapshot, cmd: Command, f: Facts, now: int) {
    Asks(s, cmd, f) && Live(s, f, now) && !f.policyAvailable && now >= f.policyWaitDeadline
  }

  predicate ApprovalLate(s: Snapshot, cmd: Command, f: Facts, now: int) {
    && cmd.operation.Gate? && Live(s, f, now) && PolicyHolds(s, f) && Executable(s, f) && AwaitsApproval(s, f)
    && now >= s.request.respondBy
  }

  predicate MayRecover(s: Snapshot, cmd: Command, f: Facts) {
    && cmd.operation.Recover? && Permitted(cmd.actor, s.action.tenantId, OPERATE)
    && Control(s, f).sourceAttemptId == s.action.attemptId && Control(s, f).attemptsUsed >= 0
    && Control(s, f).attemptLimit >= 1
  }

  /** Automatic recovery of a possibly executed operation is used up or out of time. */
  predicate Exhausted(s: Snapshot, f: Facts, now: int) {
    && f.verifiedUsage.None? && !f.certainty.DefinitelyNotDispatched?
    && (Control(s, f).attemptsUsed >= Control(s, f).attemptLimit || now >= Control(s, f).deadline)
  }

  /** Verified usage of a reservation that was released, or settled otherwise. */
  predicate SettledOtherwise(s: Snapshot, f: Facts) {
    && f.verifiedUsage.Some? && f.certainty.VerifiedTerminal? && Truthy(f.outcomeEvidenceId)
    && var rs := OfAttempt(s.job.reservations, s.action.attemptId);
       && |rs| == 1 && 0 <= f.verifiedUsage.value <= rs[0].reserved && !rs[0].status.Held?
       && !(rs[0].status.Settled? && rs[0].settled.Some? && rs[0].settled.value == f.verifiedUsage.value)
  }

  /** The cases that call for an escalation. */
  predicate EscalationDue(s: Snapshot, cmd: Command, f: Facts, now: int) {
    && Heeded(s, cmd, now)
    && (|| Retold(s, cmd, f)
        || (Current(s, cmd)
            && (|| DecidedTwice(s, cmd, f, now) || PolicyOverdue(s, cmd, f, now) || ApprovalLate(s, cmd, f, now)
                || (MayRecover(s, cmd, f) && (Exhausted(s, f, now) || SettledOtherwise(s, f))))))
  }

  /** The verdict escalates in time, and is refused out of time. */
  ghost predicate InTime(due: bool, f: Facts, now: int, v: Verdict) {
    && (v.status.Escalated? <==> due && now < f.escalationDeadline)
    && (v.status.InvalidEscalationDeadline? <==> due && f.escalationDeadline <= now)
  }

  lemma RetoldInTime(s: Snapshot, cmd: Command, f: Facts, now: int)
    requires cmd.operation.Decide? && DecisionIdentity(s, cmd, f, now).Some?
    ensures InTime(Retold(s, cmd, f), f, now, DecisionIdentity(s, cmd, f, now).value)
  {
  }

  lemma DecisionInTime(s: Snapshot, cmd: Command, f: Facts, now: int)
    requires Authentic(s, cmd, f) && !Known(s, cmd.decision.value.decisionId) && Guarded(s, cmd, f, now).None?
    ensures InTime(DecidedTwice(s, cmd, f, now), f, now, DecideDecision(s, cmd, f, now))
  {
    GuardsPassIff(s, cmd, f, now);
  }

  lemma GateInTime(s: Snapshot, cmd: Command, f: Facts, now: int)
    requires cmd.operation.Gate? && Guarded(s, cmd, f, now).None?
    ensures InTime(ApprovalLate(s, cmd, f, now), f, now, DecideGate(s, cmd, f, now))
  {
    GuardsPassIff(s, cmd, f, now);
  }

  lemma GuardInTime(s: Snapshot, cmd: Command, f: Facts, now: int)
    requires Asks(s, cmd, f) && Guarded(s, cmd, f, now).Some?
    ensures InTime(PolicyOverdue(s, cmd, f, now), f, now, Guarded(s, cmd, f, now).value)
  {
  }

  lemma RecoveredInTime(s: Snapshot, cmd: Command, f: Facts, now: int, op: RecoveryOperation)
    requires BindsJob(s)
    ensures InTime(!f.certainty.DefinitelyNotDispatched? && (op.attemptsUsed >= op.attemptLimit || now >= op.deadline),
                   f, now, DecideRecovered(s, cmd, f, now, op))
  {
    AskedAboutItself(s, cmd, f, now, op);
    VerdictInTime(s, cmd, f, now, DurableJobs.DecideRecovery(s.job, op, RecoveryRequestFor(s, cmd, f, now)));
  }

  lemma VerdictInTime(s: Snapshot, cmd: Command, f: Facts, now: int, c: DurableJobs.RecoveryCandidate)
    ensures InTime(c.decision.Escalate?, f, now, RecoveryVerdict(s, cmd, f, now, c))
  {
  }

  lemma SettlementInTime(s: Snapshot, cmd: Command, f: Facts, now: int)
    requires BindsJob(s) && f.verifiedUsage.Some? && f.certainty.VerifiedTerminal? && Truthy(f.outcomeEvidenceId)
    ensures InTime(SettledOtherwise(s, f), f, now, DecideSettlement(s, cmd, f, now))
  {
    RecoveredInTime(s, cmd, f, now, SettlementWindow(s, cmd, f, now));
  }

  lemma RecoverInTime(s: Snapshot, cmd: Command, f: Facts, now: int)
    requires BindsJob(s) && cmd.operation.Recover?
    ensures InTime(MayRecover(s, cmd, f) && (Exhausted(s, f, now) || SettledOtherwise(s, f)), f, now,
                   DecideRecover(s, cmd, f, now))
  {
    RecoveredInTime(s, cmd, f, now, Control(s, f));
    if f.verifiedUsage.Some? && f.certainty.VerifiedTerminal? && Truthy(f.outcomeEvidenceId) {
      SettlementInTime(s, cmd, f, now);
    }
  }

  lemma AskInTime(s: Snapshot, cmd: Command, f: Facts, now: int)
    requires Heeded(s, cmd, now) && Current(s, cmd) && Asks(s, cmd, f)
    ensures InTime(DecidedTwice(s, cmd, f, now) || PolicyOverdue(s, cmd, f, now) || ApprovalLate(s, cmd, f, now), f,
                   now, DecideVerdict(s, cmd, f, now))
  {
    GuardsPassIff(s, cmd, f, now);
    if cmd.operation.Decide? { CallbackPassesIff(s, cmd, f, now); }
    if Guarded(s, cmd, f, now).Some? {
      GuardInTime(s, cmd, f, now);
    } else if cmd.operation.Decide? {
      DecisionInTime(s, cmd, f, now);
    } else {
      GateInTime(s, cmd, f, now);
    }
  }

  /** A due case escalates exactly when its escalation deadline lies ahead; otherwise it is
      refused. Nothing else escalates. */
  lemma EscalatesExactlyInTime(s: Snapshot, cmd: Command, f: Facts, now: int)
    ensures InTime(EscalationDue(s, cmd, f, now), f, now, DecideVerdict(s, cmd, f, now))
  {
    if !Heeded(s, cmd, now) || cmd.operation.LateResult? {
    } else if cmd.operation.Decide? && DecisionIdentity(s, cmd, f, now).Some? {
      RetoldInTime(s, cmd, f, now);
      CallbackPassesIff(s, cmd, f, now);
    } else if !Current(s, cmd) {
      if cmd.operation.Decide? { NotRetold(s, cmd, f, now); }
    } else if cmd.operation.Recover? {
      RecoverInTime(s, cmd, f, now);
    } else if cmd.operation.Gate? || cmd.operation.Decide? {
      if cmd.operation.Decide? {
        CallbackPassesIff(s, cmd, f, now);
        NotRetold(s, cmd, f, now);
      }
      AskInTime(s, cmd, f, now);
    }
  }

  lemma NotRetold(s: Snapshot, cmd: Command, f: Facts, now: int)
    requires cmd.operation.Decide? && DecisionIdentity(s, cmd, f, now).None?
    ensures !Retold(s, cmd, f)
  {
  }

  /** What is lost out of time: the message is only audited, so the conflict does not bar the
      approval and no escalation is stored. */
  lemma LateEscalationIsDropped(s: Snapshot, commands: Commands, cmd: Command, f: Facts, now: int)
    requires cmd.commandId !in commands && EscalationDue(s, cmd, f, now) && f.escalationDeadline <= now
    ensures var c := DecideControl(s, cmd, f, now);
      && Verify(s, commands, c, f, now, false).AuditOnly?
      && SameBusiness(s, AfterApply(s, c, f, AuditOnly))
  {
    EscalatesExactlyInTime(s, cmd, f, now);
  }

  /** Conflicting decisions bar the approval exactly when the escalation is made in time. */
  lemma ConflictBarsExactlyInTime(s: Snapshot, cmd: Command, f: Facts, now: int)
    requires Heeded(s, cmd, now) && (Retold(s, cmd, f) || (Current(s, cmd) && DecidedTwice(s, cmd, f, now)))
    ensures DecideVerdict(s, cmd, f, now).approval.Conflict? <==> now < f.escalationDeadline || s.approval.Conflict?
  {
    CallbackPassesIff(s, cmd, f, now);
    GuardsPassIff(s, cmd, f, now);
  }

  function Boss(): Principal {
    Principal("t", "boss", "lead", true, [CONTROL, APPROVE])
  }

  function Told(choice: ApprovalStatus, id: string, action: ActionBinding): ApprovalDecision {
    ApprovalDecision(id, "r", Of(action), "boss", "t", choice, 1, "ok")
  }

  /** A request that is approved and still open. */
  function ApprovedSample(): Snapshot {
    var s := HumanControlRuns.ExpiredSample();
    s.(approval := Approved, request := s.request.(respondBy := 5, expiresAt := 9, eligibleRoles := ["lead"]),
       decisions := [Told(Approved, "first", s.action)])
  }

  function Objection(): Command {
    Command(Text("objection"), Decide, Boss(), Waiting, 0, 0,
            Some(Told(Rejected, "second", ApprovedSample().action)), None, None, None, None, None)
  }

  /** The concrete case: a due rejection against a recorded approval, out of time, leaves it approved. */
  lemma ObjectionIsLost(f: Facts)
    requires f.approver == Boss() && f.approvalRequired && !f.policyQuarantined && f.policyAvailable
    requires f.policyId == "pol" && f.policyVersion == "1" && f.escalationDeadline <= 2
    ensures var c := DecideControl(ApprovedSample(), Objection(), f, 2);
      && Verify(ApprovedSample(), map[], c, f, 2, false).AuditOnly?
      && AfterApply(ApprovedSample(), c, f, AuditOnly).approval.Approved?
      && AfterApply(ApprovedSample(), c, f, AuditOnly).escalations == []
  {
    var s := ApprovedSample();
    assert Boss().permissions[0] == CONTROL && Boss().permissions[1] == APPROVE;
    assert s.request.eligibleRoles[0] == "lead";
    assert !Known(s, "second") by { assert s.decisions[0].decisionId[0] == 'f'; }
    assert EscalationDue(s, Objection(), f, 2);
    LateEscalationIsDropped(s, map[], Objection(), f, 2);
  }
}
