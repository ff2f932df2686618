/** What the planner's verdicts ask for is what the applier does: nothing is lost by an audit,
    an escalation that is made is addressed as it should be, and an open gate leads to a dispatch. */
module HumanControlProgress {
  import opened Common
  import opened Records
  import DurableJobs
  import opened HumanControl
  import opened HumanControlStore

  // ---------------------------------------------------------------- nothing is lost by an audit

  /** The verdict asks for no change of the business record. */
  ghost predicate Inert(s: Snapshot, v: Verdict) {
    && v.nextState == s.job.state && v.approval == s.approval && v.reservation.NoChange? && v.outbox.None?
    && v.escalation.None? && v.recovery.None? && !v.executionAllowed
  }

  ghost predicate Told(operation: Operation, s: Snapshot, v: Verdict) {
    Transition(operation, v.status) || Inert(s, v)
  }

  lemma EscalatingTold(s: Snapshot, cmd: Command, f: Facts, now: int, reason: EscalationReason, state: AgentState,
                       approval: ApprovalStatus, recovery: Option<DurableJobs.RecoveryCandidate>,
                       evidence: seq<Evidence>)
    ensures Told(cmd.operation, s, Escalating(s, cmd, f, now, reason, state, approval, recovery, evidence))
  {
  }

  lemma RecoveredTold(s: Snapshot, cmd: Command, f: Facts, now: int, op: RecoveryOperation)
    ensures Told(cmd.operation, s, DecideRecovered(s, cmd, f, now, op))
  {
    RecoveryVerdictTold(s, cmd, f, now, DurableJobs.DecideRecovery(s.job, op, RecoveryRequestFor(s, cmd, f, now)));
  }

  lemma RecoveryVerdictTold(s: Snapshot, cmd: Command, f: Facts, now: int, c: DurableJobs.RecoveryCandidate)
    ensures Told(cmd.operation, s, RecoveryVerdict(s, cmd, f, now, c))
  {
    EscalatingTold(s, cmd, f, now, BoundedRecoveryExhausted, c.nextState, s.approval, Some(c),
      [OriginalIdentityPreserved]);
  }

  lemma SettlementTold(s: Snapshot, cmd: Command, f: Facts, now: int)
    requires f.verifiedUsage.Some? && f.outcomeEvidenceId.Some?
    ensures Told(cmd.operation, s, DecideSettlement(s, cmd, f, now))
  {
    RecoveredTold(s, cmd, f, now, SettlementWindow(s, cmd, f, now));
    EscalatingTold(s, cmd, f, now, SettlementConflict, s.job.state, s.approval, None, [SettledUsageNotRewritten]);
    EscalatingTold(s, cmd, f, now, SettlementReservationConflict, s.job.state, s.approval, None, []);
  }

  lemma RecoverTold(s: Snapshot, cmd: Command, f: Facts, now: int)
    ensures Told(cmd.operation, s, DecideRecover(s, cmd, f, now))
  {
    RecoveredTold(s, cmd, f, now, Control(s, f));
    if f.verifiedUsage.Some? && f.outcomeEvidenceId.Some? {
      SettlementTold(s, cmd, f, now);
    }
  }

  lemma CallbackTold(s: Snapshot, cmd: Command, f: Facts, now: int)
    requires DecisionIdentity(s, cmd, f, now).Some?
    ensures Told(cmd.operation, s, DecisionIdentity(s, cmd, f, now).value)
  {
  }

  lemma DecisionTold(s: Snapshot, cmd: Command, f: Facts, now: int)
    requires cmd.decision.Some?
    ensures Told(cmd.operation, s, DecideDecision(s, cmd, f, now))
  {
    EscalatingTold(s, cmd, f, now, ConflictingHumanDecision, s.job.state, Conflict, None, [OriginalDecisionPreserved]);
  }

  lemma GateTold(s: Snapshot, cmd: Command, f: Facts, now: int)
    ensures Told(cmd.operation, s, DecideGate(s, cmd, f, now))
  {
  }

  lemma GuardTold(s: Snapshot, cmd: Command, f: Facts, now: int)
    requires Guarded(s, cmd, f, now).Some?
    ensures Told(cmd.operation, s, Guarded(s, cmd, f, now).value)
  {
    if Terminal(s.job.state) || Interrupted(s) || Barred(s.approval) {
      StoppedTold(s, cmd, f, now);
    } else {
      PolicyTold(s, cmd, f, now);
    }
  }

  lemma StoppedTold(s: Snapshot, cmd: Command, f: Facts, now: int)
    requires Terminal(s.job.state) || Interrupted(s) || Barred(s.approval)
    ensures Guarded(s, cmd, f, now).Some? && Told(cmd.operation, s, Guarded(s, cmd, f, now).value)
  {
  }

  lemma PolicyTold(s: Snapshot, cmd: Command, f: Facts, now: int)
    requires !Terminal(s.job.state) && !Interrupted(s) && !Barred(s.approval) && Guarded(s, cmd, f, now).Some?
    ensures Told(cmd.operation, s, Guarded(s, cmd, f, now).value)
  {
    var unbound := s.request.binding != s.action || (now >= s.request.expiresAt && f.approvalRequired);
    if !unbound && !f.policyQuarantined && !f.policyAvailable {
      WaitTold(s, cmd, f, now);
    }
  }

  lemma WaitTold(s: Snapshot, cmd: Command, f: Facts, now: int)
    requires !Terminal(s.job.state) && !Interrupted(s) && !Barred(s.approval) && s.request.binding == s.action
    requires !(now >= s.request.expiresAt && f.approvalRequired) && !f.policyQuarantined && !f.policyAvailable
    ensures Guarded(s, cmd, f, now).Some? && Told(cmd.operation, s, Guarded(s, cmd, f, now).value)
  {
    EscalatingTold(s, cmd, f, now, ApprovalPolicyUnavailable, Waiting, s.approval, None, [PolicyWaitDeadlineExceeded]);
  }

  lemma LifecycleTold(s: Snapshot, cmd: Command, f: Facts)
    ensures Told(cmd.operation, s, DecideLateResult(s, cmd, f))
    ensures Told(cmd.operation, s, DecideInterrupt(s, cmd, f))
    ensures Told(cmd.operation, s, DecideObserveCancel(s, cmd, f))
    ensures cmd.operation.Invalidate? ==> Told(cmd.operation, s, DecideInvalidate(s, cmd, f))
  {
  }

  /** The applier's list of transitions misses none: a verdict that is only audited asked for
      no state, approval, reservation, outbox, escalation, recovery or execution change. */
  lemma AuditLosesNothing(s: Snapshot, cmd: Command, f: Facts, now: int)
    ensures Told(cmd.operation, s, DecideVerdict(s, cmd, f, now))
  {
    if !InputsUsable(s, cmd, now) || !Permitted(cmd.actor, s.action.tenantId, CONTROL) || !BindsJob(s) {
    } else if cmd.operation.LateResult? {
      LifecycleTold(s, cmd, f);
    } else if cmd.operation.Decide? && DecisionIdentity(s, cmd, f, now).Some? {
      CallbackTold(s, cmd, f, now);
    } else if !Current(s, cmd) {
    } else if cmd.operation.Recover? {
      RecoverTold(s, cmd, f, now);
    } else if cmd.operation.ObserveCancel? || cmd.operation.Invalidate? || cmd.operation.Interrupt? {
      LifecycleTold(s, cmd, f);
    } else if Guarded(s, cmd, f, now).Some? {
      GuardTold(s, cmd, f, now);
    } else if cmd.operation.Decide? {
      DecisionTold(s, cmd, f, now);
    } else {
      GateTold(s, cmd, f, now);
    }
  }

  // ---------------------------------------------------------------- where escalations go

  /** An escalation is about this action, is due in the future, and goes to the owner, or to
      the fallback when the owner is away; it is unroutable exactly when that person may not operate. */
  ghost predicate WellEscalated(s: Snapshot, f: Facts, now: int, e: Escalation) {
    && e.tenantId == s.action.tenantId && e.attemptId == s.action.attemptId && e.operationId == s.action.operationId
    && now < e.deadline && (e.routable <==> e.ownerId.Some?)
    && (f.ownerAvailable ==> SentTo(e, f.owner, s.action.tenantId))
    && (!f.ownerAvailable ==> SentTo(e, f.fallbackOwner, s.action.tenantId))
  }

  ghost predicate SentTo(e: Escalation, p: Principal, tenant: string) {
    e.ownerId == if Permitted(p, tenant, OPERATE) then Some(p.actorId) else None
  }

  ghost predicate Escalates(s: Snapshot, f: Facts, now: int, v: Verdict) {
    && (v.escalation.Some? <==> v.status.Escalated?)
    && (v.escalation.Some? ==>
          && WellEscalated(s, f, now, v.escalation.value) && v.status == Escalated(v.escalation.value.reason)
          && v.outbox == Some(EscalationAlert) && v.followUp.OperatorReview?
          && v.reservation == if f.certainty.OutcomeUnknown? then KeepHeld else NoChange)
  }

  lemma EscalatingEscalates(s: Snapshot, cmd: Command, f: Facts, now: int, reason: EscalationReason, state: AgentState,
                            approval: ApprovalStatus, recovery: Option<DurableJobs.RecoveryCandidate>,
                            evidence: seq<Evidence>)
    ensures Escalates(s, f, now, Escalating(s, cmd, f, now, reason, state, approval, recovery, evidence))
  {
    if now < f.escalationDeadline {
      EscalationIsWell(s, cmd, f, now, reason, evidence);
    }
  }

  lemma EscalationIsWell(s: Snapshot, cmd: Command, f: Facts, now: int, reason: EscalationReason,
    evidence: seq<Evidence>)
    requires now < f.escalationDeadline
    ensures WellEscalated(s, f, now, EscalationFor(s, cmd, f, reason, evidence))
  {
  }

  /** A verdict either escalates through the one way there is, or not at all. */
  ghost predicate QuietOrEscalating(s: Snapshot, cmd: Command, f: Facts, now: int, v: Verdict) {
    || (v.escalation.None? && !v.status.Escalated?)
    || exists reason, state, approval, recovery, evidence ::
         v == Escalating(s, cmd, f, now, reason, state, approval, recovery, evidence)
  }

  lemma RecoveredQuiet(s: Snapshot, cmd: Command, f: Facts, now: int, c: DurableJobs.RecoveryCandidate)
    ensures QuietOrEscalating(s, cmd, f, now, RecoveryVerdict(s, cmd, f, now, c))
  {
  }

  lemma SettlementQuiet(s: Snapshot, cmd: Command, f: Facts, now: int)
    requires f.verifiedUsage.Some? && f.outcomeEvidenceId.Some?
    ensures QuietOrEscalating(s, cmd, f, now, DecideSettlement(s, cmd, f, now))
  {
    RecoveredQuiet(s, cmd, f, now,
                   DurableJobs.DecideRecovery(s.job, SettlementWindow(s, cmd, f, now),
                   RecoveryRequestFor(s, cmd, f, now)));
  }

  lemma RecoverQuiet(s: Snapshot, cmd: Command, f: Facts, now: int)
    ensures QuietOrEscalating(s, cmd, f, now, DecideRecover(s, cmd, f, now))
  {
    RecoveredQuiet(s, cmd, f, now,
      DurableJobs.DecideRecovery(s.job, Control(s, f), RecoveryRequestFor(s, cmd, f, now)));
    if f.verifiedUsage.Some? && f.outcomeEvidenceId.Some? {
      SettlementQuiet(s, cmd, f, now);
    }
  }

  lemma CallbackQuiet(s: Snapshot, cmd: Command, f: Facts, now: int)
    requires DecisionIdentity(s, cmd, f, now).Some?
    ensures QuietOrEscalating(s, cmd, f, now, DecisionIdentity(s, cmd, f, now).value)
  {
  }

  lemma DecisionQuiet(s: Snapshot, cmd: Command, f: Facts, now: int)
    requires cmd.decision.Some?
    ensures QuietOrEscalating(s, cmd, f, now, DecideDecision(s, cmd, f, now))
  {
  }

  lemma GateQuiet(s: Snapshot, cmd: Command, f: Facts, now: int)
    ensures QuietOrEscalating(s, cmd, f, now, DecideGate(s, cmd, f, now))
  {
  }

  lemma GuardQuiet(s: Snapshot, cmd: Command, f: Facts, now: int)
    requires Guarded(s, cmd, f, now).Some?
    ensures QuietOrEscalating(s, cmd, f, now, Guarded(s, cmd, f, now).value)
  {
  }

  lemma VerdictQuiet(s: Snapshot, cmd: Command, f: Facts, now: int)
    ensures QuietOrEscalating(s, cmd, f, now, DecideVerdict(s, cmd, f, now))
  {
    if !InputsUsable(s, cmd, now) || !Permitted(cmd.actor, s.action.tenantId, CONTROL) || !BindsJob(s)
      || cmd.operation.LateResult? {
    } else if cmd.operation.Decide? && DecisionIdentity(s, cmd, f, now).Some? {
      CallbackQuiet(s, cmd, f, now);
    } else if !Current(s, cmd) {
    } else if cmd.operation.Recover? {
      RecoverQuiet(s, cmd, f, now);
    } else if cmd.operation.ObserveCancel? || cmd.operation.Invalidate? || cmd.operation.Interrupt? {
    } else if Guarded(s, cmd, f, now).Some? {
      GuardQuiet(s, cmd, f, now);
    } else if cmd.operation.Decide? {
      DecisionQuiet(s, cmd, f, now);
    } else {
      GateQuiet(s, cmd, f, now);
    }
  }

  /** Whatever is decided, an escalated verdict and an escalation come together, with an alert,
      and the escalation is addressed as it should be. */
  lemma EscalationsAreRouted(s: Snapshot, cmd: Command, f: Facts, now: int)
    ensures Escalates(s, f, now, DecideVerdict(s, cmd, f, now))
  {
    VerdictQuiet(s, cmd, f, now);
    AllEscalatingEscalate(s, cmd, f, now);
    QuietEscalates(s, cmd, f, now, DecideVerdict(s, cmd, f, now));
  }

  lemma AllEscalatingEscalate(s: Snapshot, cmd: Command, f: Facts, now: int)
    ensures forall reason, state, approval, recovery, evidence ::
      Escalates(s, f, now, Escalating(s, cmd, f, now, reason, state, approval, recovery, evidence))
  {
    forall reason, state, approval, recovery, evidence
      ensures Escalates(s, f, now, Escalating(s, cmd, f, now, reason, state, approval, recovery, evidence))
    {
      EscalatingEscalates(s, cmd, f, now, reason, state, approval, recovery, evidence);
    }
  }

  lemma QuietEscalates(s: Snapshot, cmd: Command, f: Facts, now: int, v: Verdict)
    requires QuietOrEscalating(s, cmd, f, now, v)
    requires forall reason, state, approval, recovery, evidence ::
      Escalates(s, f, now, Escalating(s, cmd, f, now, reason, state, approval, recovery, evidence))
    ensures Escalates(s, f, now, v)
  {
  }

  // ---------------------------------------------------------------- an open gate leads to dispatch

  function PublishId(s: Snapshot): Identifier {
    ControlEvent(s.action, s.request.requestId, Publish, None)
  }

  /** An event id that names a publication is one. */
  ghost predicate WellTyped(s: Snapshot) {
    forall i :: 0 <= i < |s.job.outbox| && s.job.outbox[i].eventId == PublishId(s) ==>
      s.job.outbox[i].eventType.Publish?
  }

  predicate GatePassed(s: Snapshot, f: Facts, v: Verdict) {
    && v.status.ExecutionCandidate? && v.nextState.Running? && v.reservation.NoChange? && v.outbox == Some(Publish)
    && v.recovery.None? && v.escalation.None? && (f.approvalRequired ==> v.approval == s.approval)
    && (!f.approvalRequired ==> v.approval.NotRequired?)
  }

  lemma GateVerdict(s: Snapshot, cmd: Command, f: Facts, now: int)
    requires DecideVerdict(s, cmd, f, now).executionAllowed
    ensures GatePassed(s, f, DecideVerdict(s, cmd, f, now))
  {
    ControlSound(s, cmd, f, now);
    GateDecides(s, cmd, f, now);
  }

  lemma GateStaysOpen(s: Snapshot, cmd: Command, f: Facts, now: int, v: Verdict)
    requires GateOpen(s, f, now) && BindsJob(s) && GatePassed(s, f, v)
    ensures var s' := Committed(s, cmd, f, v);
      && GateOpen(s', f, now) && BindsJob(s') && s'.request == s.request && s'.action == s.action
      && s'.job.leaseOwner == s.job.leaseOwner && s'.job.leaseExpiry == s.job.leaseExpiry
      && s'.claimedEvents == s.claimedEvents
  {
    var s' := Committed(s, cmd, f, v);
    assert s'.job.reservations == s.job.reservations;
  }

  lemma GateAnnounces(s: Snapshot, cmd: Command, f: Facts, v: Verdict)
    requires GatePassed(s, f, v) && WellTyped(s)
    ensures Publishes(Committed(s, cmd, f, v), PublishId(s))
  {
    var s' := Committed(s, cmd, f, v);
    assert s'.job.outbox == Routed(s, cmd, v, s.job.outbox) && IntentId(s, cmd, v) == PublishId(s);
    if Announced(s.job.outbox, PublishId(s)) {
      var i :| 0 <= i < |s.job.outbox| && s.job.outbox[i].eventId == PublishId(s);
      assert s'.job.outbox[i].eventType.Publish?;
    } else {
      assert s'.job.outbox[|s.job.outbox|].eventId == PublishId(s);
    }
  }

  /** Once a gate is applied, its worker can claim: under the same facts and clock, whoever
      holds a current lease and may control the tenant is granted the announced event. */
  lemma OpenGateLeadsToDispatch(s: Snapshot, commands: Commands, c: Candidate, f: Facts, now: int, worker: Principal)
    requires Verify(s, commands, c, f, now, false).Applied? && c.verdict.executionAllowed
    requires s.job.leaseOwner == Some(worker.actorId) && s.job.leaseExpiry.Some? && now < s.job.leaseExpiry.value
    requires Permitted(worker, s.action.tenantId, CONTROL) && PublishId(s) !in s.claimedEvents && WellTyped(s)
    ensures var s' := AfterApply(s, c, f, Applied);
      MayClaim(s', PublishId(s), worker, s'.job.fenceToken, f, now)
  {
    assert DecideVerdict(s, c.command, f, now) == c.verdict;
    GateIsOpen(s, c.command, f, now);
    GateVerdict(s, c.command, f, now);
    GateStaysOpen(s, c.command, f, now, c.verdict);
    GateAnnounces(s, c.command, f, c.verdict);
    WorkerMayClaim(s, AfterApply(s, c, f, Applied), c.command, f, now, worker);
  }

  lemma WorkerMayClaim(s: Snapshot, s': Snapshot, cmd: Command, f: Facts, now: int, worker: Principal)
    requires InputsUsable(s, cmd, now) && s'.request == s.request && s'.action == s.action
    requires GateOpen(s', f, now) && BindsJob(s') && Publishes(s', PublishId(s)) && PublishId(s) !in s'.claimedEvents
    requires s'.job.leaseOwner == Some(worker.actorId) && s'.job.leaseExpiry.Some? && now < s'.job.leaseExpiry.value
    requires Permitted(worker, s.action.tenantId, CONTROL)
    ensures MayClaim(s', PublishId(s), worker, s'.job.fenceToken, f, now)
  {
    GateIsOpen(s', DispatchCheck(s', PublishId(s), worker, s'.job.fenceToken), f, now);
  }
}
