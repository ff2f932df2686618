/** What an accepted command leaves behind, operation by operation, in terms of the snapshot,
    the command, the facts and the clock alone. */
module HumanControlEffects {
  import opened Common
  import opened Records
  import DurableJobs
  import opened HumanControl
  import opened HumanControlStore
  import opened HumanControlGuards
  import HumanControlRuns

  /** The snapshot after a new command was planned and applied at once. */
  function After(s: Snapshot, cmd: Command, f: Facts, now: int): Snapshot {
    var c := DecideControl(s, cmd, f, now);
    AfterApply(s, c, f, Verify(s, map[], c, f, now, false))
  }

  /** Every command is accepted, and applied exactly when its status is a transition. */
  lemma AfterIs(s: Snapshot, cmd: Command, f: Facts, now: int)
    ensures var v := DecideVerdict(s, cmd, f, now);
      After(s, cmd, f, now) ==
        if Transition(cmd.operation, v.status) then Committed(s, cmd, f, v) else Audited(s, cmd, v)
  {
    HumanControlRuns.PlannerAndApplierAgree(s, map[], DecideControl(s, cmd, f, now), f, now, false);
  }

  /** Fields that an operation leaves alone unless it says otherwise. */
  ghost predicate KeepsRest(s: Snapshot, s': Snapshot) {
    && s'.action == s.action && s'.request == s.request && s'.dispatchStarted == s.dispatchStarted
    && s'.claimedEvents == s.claimedEvents && s'.job.tenantId == s.job.tenantId && s'.job.jobId == s.job.jobId
    && s'.job.stepId == s.job.stepId && s'.job.attemptId == s.job.attemptId
    && s'.job.leaseGeneration == s.job.leaseGeneration && s'.job.checkpoint.bindings == s.job.checkpoint.bindings
  }

  /** Whatever becomes of it, a decision that was told is kept as evidence, in order. */
  ghost predicate HearsDecision(s: Snapshot, s': Snapshot, cmd: Command) {
    s'.decisionEvidence == s.decisionEvidence + (if cmd.decision.Some? then [cmd.decision.value] else [])
  }

  /** A commit is a new checkpoint, named for its command and linked to the one before. */
  ghost predicate NamesCheckpoint(s: Snapshot, s': Snapshot, cmd: Command) {
    s'.job.stateVersion != s.job.stateVersion ==>
      && s'.job.checkpoint.checkpointId == Prefixed(HumanPrefix, cmd.commandId)
      && s'.job.checkpoint.previousId == Some(s.job.checkpoint.checkpointId)
      && s'.history == s.history + [s.job.checkpoint]
  }

  ghost predicate KeepsLease(s: Snapshot, s': Snapshot) {
    && s'.job.leaseOwner == s.job.leaseOwner && s'.job.leaseExpiry == s.job.leaseExpiry
    && s'.job.fenceToken == s.job.fenceToken && s'.interruptId == s.interruptId
  }

  ghost predicate KeepsQueues(s: Snapshot, s': Snapshot) {
    && s'.job.outbox == s.job.outbox && s'.job.recoveries == s.job.recoveries && s'.escalations == s.escalations
  }

  /** Whatever this attempt held is released in full; nothing else moves. */
  ghost predicate FreesHeld(s: Snapshot, s': Snapshot) {
    && |s'.job.reservations| == |s.job.reservations|
    && forall i :: 0 <= i < |s.job.reservations| ==>
         var r, r' := s.job.reservations[i], s'.job.reservations[i];
         if r.attemptId == s.action.attemptId && r.status.Held? then
           && r'.status.Released? && r'.released == r.reserved && r'.reserved == r.reserved && r'.settled == r.settled
           && r'.attemptId == r.attemptId && r'.reservationId == r.reservationId
         else r' == r
  }

  /** The attempt's reservation is settled at this usage and the rest of it released; nothing else moves. */
  ghost predicate SettlesAt(s: Snapshot, s': Snapshot, usage: int) {
    && |s'.job.reservations| == |s.job.reservations|
    && forall i :: 0 <= i < |s.job.reservations| ==>
         var r, r' := s.job.reservations[i], s'.job.reservations[i];
         if r.attemptId == s.action.attemptId then
           && r'.status.Settled? && r'.settled.Some? && r'.settled.value == usage && r'.released == r.reserved - usage
           && r'.reserved == r.reserved && r'.attemptId == r.attemptId && r'.reservationId == r.reservationId
         else r' == r
  }

  lemma EverythingElseStays(s: Snapshot, cmd: Command, f: Facts, now: int)
    ensures KeepsRest(s, After(s, cmd, f, now)) && HearsDecision(s, After(s, cmd, f, now), cmd)
    ensures NamesCheckpoint(s, After(s, cmd, f, now), cmd)
  {
    AfterIs(s, cmd, f, now);
  }

  // ---------------------------------------------------------------- interrupts

  ghost predicate MayInterrupt(s: Snapshot, cmd: Command, now: int) {
    && Heeded(s, cmd, now) && Current(s, cmd) && cmd.operation.Interrupt?
    && Permitted(cmd.actor, s.action.tenantId, INTERRUPT) && !Interrupted(s)
  }

  /** An interrupt before dispatch cancels a live job and frees what it held; one that may come
      after dispatch leaves everything held and asks for reconciliation. Either way the worker
      loses its lease and its fence, and the interrupt is on record. */
  lemma InterruptStops(s: Snapshot, cmd: Command, f: Facts, now: int)
    requires MayInterrupt(s, cmd, now)
    ensures var s' := After(s, cmd, f, now);
      && s'.interruptId == Some(cmd.commandId) && s'.approval == s.approval && s'.decisions == s.decisions
      && s'.job.leaseOwner.None? && s'.job.leaseExpiry.None? && s'.job.fenceToken == s.job.fenceToken + 1
      && KeepsQueues(s, s')
      && if !s.dispatchStarted && f.certainty.DefinitelyNotDispatched? then
           (!Terminal(s.job.state) ==> s'.job.state.Cancelled?) && FreesHeld(s, s')
         else
           && (!Terminal(s.job.state) ==> s'.job.state.PendingReconciliation?)
           && s'.job.reservations == s.job.reservations
  {
    AfterIs(s, cmd, f, now);
    var v := DecideInterrupt(s, cmd, f);
    assert DecideVerdict(s, cmd, f, now) == v;
    assert Committed(s, cmd, f, v).job.reservations == Reserved(s, v, s.job.reservations);
  }

  /** An interrupt that may come after dispatch asks for remote cancellation and reconciliation. */
  lemma InterruptFollowsUp(s: Snapshot, cmd: Command, f: Facts, now: int)
    requires MayInterrupt(s, cmd, now)
    ensures DecideVerdict(s, cmd, f, now).followUp ==
      if !s.dispatchStarted && f.certainty.DefinitelyNotDispatched? then NoFollowUp else CancellationAndReconciliation
  {
  }

  /** Nothing else ever sets an interrupt. */
  lemma OnlyInterruptsInterrupt(s: Snapshot, cmd: Command, f: Facts, now: int)
    ensures After(s, cmd, f, now).interruptId != s.interruptId ==> MayInterrupt(s, cmd, now)
  {
    AfterIs(s, cmd, f, now);
    InterruptOnly(s, cmd, f, now);
  }

  lemma InterruptOnly(s: Snapshot, cmd: Command, f: Facts, now: int)
    ensures Interrupting(DecideVerdict(s, cmd, f, now).status) ==> MayInterrupt(s, cmd, now)
  {
    if Heeded(s, cmd, now) && Current(s, cmd) && (cmd.operation.Gate? || cmd.operation.Decide?) {
      NoInterruptAsked(s, cmd, f, now);
    } else if cmd.operation.Decide? && cmd.decision.Some? {
      NoInterruptTold(s, cmd, f, now);
    } else if cmd.operation.Recover? {
      NoInterruptRecovered(s, cmd, f, now);
    }
  }

  lemma NoInterruptTold(s: Snapshot, cmd: Command, f: Facts, now: int)
    ensures DecisionIdentity(s, cmd, f, now).Some? ==> !Interrupting(DecisionIdentity(s, cmd, f, now).value.status)
  {
  }

  lemma NoInterruptAsked(s: Snapshot, cmd: Command, f: Facts, now: int)
    requires cmd.operation.Gate? || cmd.operation.Decide?
    ensures !Interrupting(DecideVerdict(s, cmd, f, now).status)
  {
    if cmd.operation.Decide? && DecisionIdentity(s, cmd, f, now).Some? {
      NoInterruptTold(s, cmd, f, now);
    } else if Guarded(s, cmd, f, now).Some? {
      NoInterruptByGuard(s, cmd, f, now);
    } else if cmd.operation.Gate? {
      NoInterruptByGate(s, cmd, f, now);
    } else {
      NoInterruptDecided(s, cmd, f, now);
    }
  }

  lemma NoInterruptByGuard(s: Snapshot, cmd: Command, f: Facts, now: int)
    requires Guarded(s, cmd, f, now).Some?
    ensures !Interrupting(Guarded(s, cmd, f, now).value.status)
  {
  }

  lemma NoInterruptByGate(s: Snapshot, cmd: Command, f: Facts, now: int)
    ensures !Interrupting(DecideGate(s, cmd, f, now).status)
  {
  }

  lemma NoInterruptDecided(s: Snapshot, cmd: Command, f: Facts, now: int)
    ensures cmd.decision.Some? ==> !Interrupting(DecideDecision(s, cmd, f, now).status)
  {
  }

  lemma NoInterruptRecovered(s: Snapshot, cmd: Command, f: Facts, now: int)
    ensures !Interrupting(DecideRecover(s, cmd, f, now).status)
  {
    var c := DurableJobs.DecideRecovery(s.job, Control(s, f), RecoveryRequestFor(s, cmd, f, now));
    assert !Interrupting(RecoveryVerdict(s, cmd, f, now, c).status);
    if f.verifiedUsage.Some? && f.outcomeEvidenceId.Some? {
      var d := DurableJobs.DecideRecovery(s.job, SettlementWindow(s, cmd, f, now), RecoveryRequestFor(s, cmd, f, now));
      assert !Interrupting(RecoveryVerdict(s, cmd, f, now, d).status);
      assert !Interrupting(DecideSettlement(s, cmd, f, now).status);
    }
  }

  // ---------------------------------------------------------------- lifecycle changes

  /** An operator's invalidation replaces the approval and does nothing else. */
  lemma InvalidationReplaces(s: Snapshot, cmd: Command, f: Facts, now: int)
    requires Heeded(s, cmd, now) && Current(s, cmd) && cmd.operation.Invalidate?
    ensures var s' := After(s, cmd, f, now);
      && (if Permitted(cmd.actor, s.action.tenantId, OPERATE)
             && cmd.invalidateTo in {Some(Revoked), Some(Superseded), Some(Withdrawn)}
          then s'.approval == cmd.invalidateTo.value
          else s'.approval == s.approval && s'.job.stateVersion == s.job.stateVersion)
      && s'.job.state == s.job.state && s'.job.reservations == s.job.reservations && s'.decisions == s.decisions
      && KeepsLease(s, s') && KeepsQueues(s, s') && s'.observedBy == s.observedBy
  {
    AfterIs(s, cmd, f, now);
    assert DecideVerdict(s, cmd, f, now) == DecideInvalidate(s, cmd, f);
  }

  /** Observing a cancellation records the observer of an interrupted job and does nothing else. */
  lemma ObservationRecords(s: Snapshot, cmd: Command, f: Facts, now: int)
    requires Heeded(s, cmd, now) && Current(s, cmd) && cmd.operation.ObserveCancel?
    ensures var s' := After(s, cmd, f, now);
      && s'.observedBy == (if Interrupted(s) then s.observedBy + [cmd.actor.actorId] else s.observedBy)
      && s'.job.state == s.job.state && s'.job.reservations == s.job.reservations && s'.approval == s.approval
      && s'.decisions == s.decisions && KeepsLease(s, s') && KeepsQueues(s, s')
  {
    AfterIs(s, cmd, f, now);
    assert DecideVerdict(s, cmd, f, now) == DecideObserveCancel(s, cmd, f);
  }

  /** A late result is evidence only, and is marked stale unless its worker still has authority. */
  lemma LateResultIsEvidence(s: Snapshot, cmd: Command, f: Facts, now: int)
    requires Heeded(s, cmd, now) && cmd.operation.LateResult?
    ensures var s' := After(s, cmd, f, now);
      && s' == s.(job := s'.job, decisionEvidence := s'.decisionEvidence) && s'.job == s.job.(audit := s'.job.audit)
      && s.job.audit < s'.job.audit
      && s'.job.audit[|s.job.audit|] ==
         (if !Truthy(cmd.evidenceId) || cmd.sourceAttemptId != Some(s.action.attemptId)
             || cmd.sourceOperationId != Some(s.action.operationId) then ControlStatus(ResultIdentityMismatch)
          else if cmd.sourceFence == Some(s.job.fenceToken) && s.job.leaseOwner == Some(cmd.actor.actorId)
                  && !Terminal(s.job.state) then ControlStatus(ResultEvidence)
          else ControlStatus(StaleResultEvidence))
      && (s'.job.audit[|s.job.audit|] != ControlStatus(ResultIdentityMismatch) ==>
            s'.job.audit[|s.job.audit| + 1..] ==
              [ControlEvidence(OriginalIdentityEvidence), ControlEvidence(EvidenceId(cmd.evidenceId))])
  {
    AfterIs(s, cmd, f, now);
    assert DecideVerdict(s, cmd, f, now) == DecideLateResult(s, cmd, f);
  }

  // ---------------------------------------------------------------- decisions and expiry

  /** The first due decision of an open request. */
  ghost predicate FirstDue(s: Snapshot, cmd: Command, f: Facts, now: int) {
    && Heeded(s, cmd, now) && Current(s, cmd) && Authentic(s, cmd, f) && Live(s, f, now) && PolicyHolds(s, f)
    && s.decisions == []
    && var d := cmd.decision.value;
       && d.requestId == s.request.requestId && d.bindingFingerprint == Of(s.action)
       && s.request.requestedAt <= d.decidedAt <= now && d.decidedAt < s.request.expiresAt
       && cmd.actor.role in s.request.eligibleRoles
       && (s.request.separationRequired ==> cmd.actor.actorId != s.action.requesterId)
  }

  /** A decision is recorded exactly when it is the first due one; then the approval is what it
      chose, and nothing is dispatched, released or announced. */
  lemma DecisionRecordedExactly(s: Snapshot, cmd: Command, f: Facts, now: int)
    requires cmd.operation.Decide?
    ensures var s' := After(s, cmd, f, now);
      && (s'.decisions != s.decisions <==> FirstDue(s, cmd, f, now))
      && (FirstDue(s, cmd, f, now) ==>
            && s'.decisions == [cmd.decision.value] && s'.approval == cmd.decision.value.choice
            && s'.job.state == s.job.state && s'.job.reservations == s.job.reservations
            && KeepsLease(s, s') && KeepsQueues(s, s'))
  {
    AfterIs(s, cmd, f, now);
    CallbackPassesIff(s, cmd, f, now);
    GuardsPassIff(s, cmd, f, now);
    RecordedIff(s, cmd, f, now);
  }

  lemma RecordedIff(s: Snapshot, cmd: Command, f: Facts, now: int)
    requires cmd.operation.Decide?
    ensures DecideVerdict(s, cmd, f, now).status.DecisionRecorded? <==> FirstDue(s, cmd, f, now)
    ensures FirstDue(s, cmd, f, now) ==> DecideVerdict(s, cmd, f, now) == DecideDecision(s, cmd, f, now)
  {
    CallbackPassesIff(s, cmd, f, now);
    GuardsPassIff(s, cmd, f, now);
    if DecisionIdentity(s, cmd, f, now).Some? {
      NotRecordedBefore(s, cmd, f, now);
    } else if Guarded(s, cmd, f, now).Some? {
      NotRecordedByGuard(s, cmd, f, now);
    }
  }

  lemma NotRecordedBefore(s: Snapshot, cmd: Command, f: Facts, now: int)
    requires DecisionIdentity(s, cmd, f, now).Some?
    ensures !DecisionIdentity(s, cmd, f, now).value.status.DecisionRecorded?
  {
  }

  lemma NotRecordedByGuard(s: Snapshot, cmd: Command, f: Facts, now: int)
    requires Guarded(s, cmd, f, now).Some?
    ensures !Guarded(s, cmd, f, now).value.status.DecisionRecorded?
  {
  }

  /** A gate or new decision past the deadline of a request that still needs approval expires it. */
  lemma LateRequestExpires(s: Snapshot, cmd: Command, f: Facts, now: int)
    requires Heeded(s, cmd, now) && Current(s, cmd) && Asks(s, cmd, f)
    requires !Terminal(s.job.state) && !Interrupted(s) && !Barred(s.approval) && s.request.binding == s.action
    requires now >= s.request.expiresAt && f.approvalRequired
    ensures var s' := After(s, cmd, f, now);
      && s'.approval.Expired? && s'.job.state == s.job.state && s'.job.reservations == s.job.reservations
      && s'.decisions == s.decisions && KeepsLease(s, s') && KeepsQueues(s, s')
  {
    AfterIs(s, cmd, f, now);
    if cmd.operation.Decide? { CallbackPassesIff(s, cmd, f, now); }
    assert DecideVerdict(s, cmd, f, now).status == ApprovalIs(Expired);
  }

  // ---------------------------------------------------------------- gates

  ghost predicate AtGate(s: Snapshot, cmd: Command, f: Facts, now: int) {
    Heeded(s, cmd, now) && Current(s, cmd) && cmd.operation.Gate? && Live(s, f, now) && PolicyHolds(s, f)
  }

  /** The outbox gained at most one intent, of this type and identity, and holds it now. */
  ghost predicate Announces(s: Snapshot, s': Snapshot, event: EventType) {
    var id := ControlEvent(s.action, s.request.requestId, event, None);
    if Announced(s.job.outbox, id) then s'.job.outbox == s.job.outbox
    else s'.job.outbox == s.job.outbox + [OutboxIntent(id, s.job.jobId, s.job.stepId, s.job.attemptId, event, None)]
  }

  lemma GateVerdictIs(s: Snapshot, cmd: Command, f: Facts, now: int)
    requires AtGate(s, cmd, f, now)
    ensures DecideVerdict(s, cmd, f, now) == DecideGate(s, cmd, f, now)
  {
    GuardsPassIff(s, cmd, f, now);
  }

  /** Without authorization a gate frees what was held if nothing was dispatched, and only then. */
  lemma RevokedGateFrees(s: Snapshot, cmd: Command, f: Facts, now: int)
    requires AtGate(s, cmd, f, now) && !ExecutorAuthorised(s, f)
    ensures var s' := After(s, cmd, f, now);
      && (if !s.dispatchStarted && f.certainty.DefinitelyNotDispatched? then FreesHeld(s, s')
          else s'.job.reservations == s.job.reservations)
      && s'.job.state == s.job.state && s'.approval == s.approval && s'.decisions == s.decisions
      && KeepsLease(s, s') && KeepsQueues(s, s')
  {
    AfterIs(s, cmd, f, now);
    GateVerdictIs(s, cmd, f, now);
    var v := DecideGate(s, cmd, f, now);
    assert Committed(s, cmd, f, v).job.reservations == Reserved(s, v, s.job.reservations);
  }

  /** A gate that still awaits an approval in time waits and asks for it once. */
  lemma PendingGateAsks(s: Snapshot, cmd: Command, f: Facts, now: int)
    requires AtGate(s, cmd, f, now) && Executable(s, f) && AwaitsApproval(s, f) && now < s.request.respondBy
    ensures var s' := After(s, cmd, f, now);
      && s'.job.state.Waiting? && Announces(s, s', ApprovalRequested) && s'.job.reservations == s.job.reservations
      && s'.approval == s.approval && s'.decisions == s.decisions && KeepsLease(s, s')
      && s'.job.recoveries == s.job.recoveries && s'.escalations == s.escalations
  {
    AfterIs(s, cmd, f, now);
    GateVerdictIs(s, cmd, f, now);
  }

  /** A gate that passes starts the job and announces its publication once, and dispatches nothing. */
  lemma OpenGatePublishes(s: Snapshot, cmd: Command, f: Facts, now: int)
    requires AtGate(s, cmd, f, now) && GateOpen(s, f, now)
    ensures var s' := After(s, cmd, f, now);
      && s'.job.state.Running? && Announces(s, s', Publish) && s'.job.reservations == s.job.reservations
      && s'.approval == (if f.approvalRequired then s.approval else NotRequired)
      && s'.decisions == s.decisions && KeepsLease(s, s')
      && s'.job.recoveries == s.job.recoveries && s'.escalations == s.escalations
  {
    AfterIs(s, cmd, f, now);
    GateVerdictIs(s, cmd, f, now);
    GateDecides(s, cmd, f, now);
    GuardsPassIff(s, cmd, f, now);
  }

  /** A gate that fails any other current check changes nothing. */
  lemma BlockedGateChangesNothing(s: Snapshot, cmd: Command, f: Facts, now: int)
    requires AtGate(s, cmd, f, now) && ExecutorAuthorised(s, f) && !GateOpen(s, f, now)
    requires !(Executable(s, f) && AwaitsApproval(s, f))
    ensures SameBusiness(s, After(s, cmd, f, now)) && After(s, cmd, f, now).job.stateVersion == s.job.stateVersion
  {
    AfterIs(s, cmd, f, now);
    GateVerdictIs(s, cmd, f, now);
  }

  /** While the policy is out of reach the job waits, and keeps everything else. */
  lemma UnavailablePolicyWaits(s: Snapshot, cmd: Command, f: Facts, now: int)
    requires Heeded(s, cmd, now) && Current(s, cmd) && Asks(s, cmd, f) && Live(s, f, now)
    requires !f.policyAvailable && now < f.policyWaitDeadline
    ensures var s' := After(s, cmd, f, now);
      && s'.job.state.Waiting? && s'.approval == s.approval && s'.decisions == s.decisions
      && s'.job.reservations == s.job.reservations && KeepsLease(s, s') && KeepsQueues(s, s')
  {
    AfterIs(s, cmd, f, now);
    if cmd.operation.Decide? { CallbackPassesIff(s, cmd, f, now); }
    assert DecideVerdict(s, cmd, f, now).status.PolicyUnavailable?;
  }

  // ---------------------------------------------------------------- recovery

  /** Usage that is verified, evidenced, and fits the one reservation that is still held. */
  ghost predicate MaySettle(s: Snapshot, f: Facts) {
    && f.verifiedUsage.Some? && f.certainty.VerifiedTerminal? && Truthy(f.outcomeEvidenceId)
    && var rs := OfAttempt(s.job.reservations, s.action.attemptId);
       |rs| == 1 && rs[0].status.Held? && 0 <= f.verifiedUsage.value <= rs[0].reserved
  }

  ghost predicate MayQuery(s: Snapshot, f: Facts, now: int) {
    && f.verifiedUsage.None? && f.certainty.OutcomeUnknown?
    && Control(s, f).attemptsUsed < Control(s, f).attemptLimit && now < Control(s, f).deadline
  }

  /** The new recovery record keeps the budget and counts the query. */
  ghost predicate RecordsRecovery(s: Snapshot, s': Snapshot, cmd: Command, f: Facts, now: int, used: int) {
    var op := Control(s, f);
    && |s'.job.recoveries| == |s.job.recoveries| + 1 && s.job.recoveries <= s'.job.recoveries
    && var r := s'.job.recoveries[|s.job.recoveries|];
       && r.recoveryId == cmd.commandId && r.sourceAttemptId == op.sourceAttemptId && r.generation == op.generation
       && r.attemptsUsed == op.attemptsUsed + used && r.attemptLimit == op.attemptLimit && r.deadline == op.deadline
       && r.lastEvidence == Some(EvidenceDigest(DecideVerdict(s, cmd, f, now).evidence))
  }

  lemma SettlementVerdict(s: Snapshot, cmd: Command, f: Facts, now: int)
    requires Heeded(s, cmd, now) && Current(s, cmd) && MayRecover(s, cmd, f) && MaySettle(s, f)
    ensures var v := DecideVerdict(s, cmd, f, now);
      v.status.SettleUsage? && v.recovery.Some? && v.nextState == s.job.state && v.approval == s.approval
      && v.reservation.SettleVerified? && v.outbox.None? && v.escalation.None?
  {
    AskedAboutItself(s, cmd, f, now, SettlementWindow(s, cmd, f, now));
    DurableJobs.KnownDecidedExactly(s.job, SettlementWindow(s, cmd, f, now), RecoveryRequestFor(s, cmd, f, now));
  }

  /** What a settlement does to the reservations. */
  lemma SettlementAccounts(s: Snapshot, cmd: Command, f: Facts, now: int, v: Verdict)
    requires v.status.SettleUsage? && v.recovery.Some? && Sound(s, cmd, f, now, v)
    requires RecoveryFits(s, cmd, f, now, v.status, v.nextState, v.recovery.value)
    ensures f.verifiedUsage.Some? && SettlesAt(s, Committed(s, cmd, f, v), f.verifiedUsage.value)
  {
    var s', c := Committed(s, cmd, f, v), v.recovery.value;
    DurableJobs.AppliedRecord(s.job, {}, c);
    assert s'.job.reservations == Reserved(s, v, DurableJobs.Recovered(s.job, c).reservations);
  }

  /** A recovery with verified usage settles exactly that usage on the attempt's reservation,
      releases the rest, and spends none of the query budget. */
  lemma SettlementSettles(s: Snapshot, cmd: Command, f: Facts, now: int)
    requires Heeded(s, cmd, now) && Current(s, cmd) && MayRecover(s, cmd, f) && MaySettle(s, f)
    ensures var s' := After(s, cmd, f, now);
      && SettlesAt(s, s', f.verifiedUsage.value) && RecordsRecovery(s, s', cmd, f, now, 0)
      && s'.job.state == s.job.state && s'.approval == s.approval && s'.decisions == s.decisions
      && s'.job.outbox == s.job.outbox && s'.escalations == s.escalations
      && s'.job.fenceToken == s.job.fenceToken + 1 && s'.job.leaseOwner == s.job.leaseOwner
  {
    AfterIs(s, cmd, f, now);
    SettlementVerdict(s, cmd, f, now);
    ControlSound(s, cmd, f, now);
    RecoveryAlwaysFits(s, cmd, f, now);
    SettlementAccounts(s, cmd, f, now, DecideVerdict(s, cmd, f, now));
  }

  lemma QueryVerdict(s: Snapshot, cmd: Command, f: Facts, now: int)
    requires Heeded(s, cmd, now) && Current(s, cmd) && MayRecover(s, cmd, f) && MayQuery(s, f, now)
    ensures var v := DecideVerdict(s, cmd, f, now);
      && v.status.ReconcileQuery? && v.recovery.Some? && v.approval == s.approval && v.reservation.KeepHeld?
      && v.outbox == Some(ReconciliationQuery) && v.escalation.None?
      && v.nextState == (if Terminal(s.job.state) then s.job.state else PendingReconciliation)
  {
    DurableJobs.UnresolvedDecidedExactly(s.job, Control(s, f), RecoveryRequestFor(s, cmd, f, now));
  }

  /** A recovery of an unknown outcome within its budget sends one query for the original
      operation, keeps everything held, and counts the query. */
  lemma QueryAsks(s: Snapshot, cmd: Command, f: Facts, now: int)
    requires Heeded(s, cmd, now) && Current(s, cmd) && MayRecover(s, cmd, f) && MayQuery(s, f, now)
    ensures var s' := After(s, cmd, f, now);
      && s'.job.reservations == s.job.reservations && RecordsRecovery(s, s', cmd, f, now, 1)
      && s'.job.state == (if Terminal(s.job.state) then s.job.state else PendingReconciliation)
      && s'.approval == s.approval && s'.decisions == s.decisions && s'.escalations == s.escalations
      && s'.job.fenceToken == s.job.fenceToken + 1
      && var id := ControlEvent(s.action, s.request.requestId, ReconciliationQuery, Some(cmd.commandId));
         (!Announced(s.job.outbox, id) ==>
            s'.job.outbox == s.job.outbox
              + [OutboxIntent(id, s.job.jobId, s.job.stepId, s.job.attemptId, ReconciliationQuery, None)])
  {
    AfterIs(s, cmd, f, now);
    QueryVerdict(s, cmd, f, now);
    RecoveryAlwaysFits(s, cmd, f, now);
    var v := DecideVerdict(s, cmd, f, now);
    var s' := Committed(s, cmd, f, v);
    assert s'.job.reservations == DurableJobs.Recovered(s.job, v.recovery.value).reservations;
    assert s'.job.reservations == s.job.reservations;
  }

  // ---------------------------------------------------------------- escalations

  /** One escalation more, its alert in the outbox, and no reservation moved. */
  ghost predicate RaisesAlert(s: Snapshot, s': Snapshot, cmd: Command, reason: EscalationReason) {
    && |s'.escalations| == |s.escalations| + 1 && s.escalations <= s'.escalations
    && s'.escalations[|s.escalations|].reason == reason
    && s'.job.reservations == s.job.reservations && s'.decisions == s.decisions && s'.interruptId == s.interruptId
    && var id := ControlEvent(s.action, s.request.requestId, EscalationAlert, Some(cmd.commandId));
       s'.job.outbox ==
         if Announced(s.job.outbox, id) then s.job.outbox
         else s.job.outbox + [OutboxIntent(id, s.job.jobId, s.job.stepId, s.job.attemptId, EscalationAlert, None)]
  }

  lemma EscalatingCommits(s: Snapshot, cmd: Command, f: Facts, now: int, reason: EscalationReason, state: AgentState,
                          approval: ApprovalStatus, evidence: seq<Evidence>)
    requires now < f.escalationDeadline
    ensures var v := Escalating(s, cmd, f, now, reason, state, approval, None, evidence);
      var s' := Committed(s, cmd, f, v);
      && Transition(cmd.operation, v.status) && RaisesAlert(s, s', cmd, reason) && s'.job.state == state
      && s'.approval == approval && KeepsLease(s, s') && s'.job.recoveries == s.job.recoveries
  {
  }

  /** Conflicting decisions put the approval in conflict and keep every decision on record. */
  lemma ConflictEscalates(s: Snapshot, cmd: Command, f: Facts, now: int)
    requires Heeded(s, cmd, now) && now < f.escalationDeadline
    requires Retold(s, cmd, f) || (Current(s, cmd) && DecidedTwice(s, cmd, f, now))
    ensures var s' := After(s, cmd, f, now);
      && RaisesAlert(s, s', cmd, if Retold(s, cmd, f) then DecisionIdentityConflict else ConflictingHumanDecision)
      && s'.approval.Conflict? && s'.job.state == s.job.state && KeepsLease(s, s')
      && s'.job.recoveries == s.job.recoveries
  {
    AfterIs(s, cmd, f, now);
    var d := cmd.decision.value;
    if Retold(s, cmd, f) {
      RetoldVerdict(s, cmd, f, now);
      EscalatingCommits(s, cmd, f, now, DecisionIdentityConflict, s.job.state, Conflict,
                        [DecisionDigest(FindDecision(s.decisions, d.decisionId).value), DecisionDigest(d)]);
    } else {
      TwiceVerdict(s, cmd, f, now);
      EscalatingCommits(s, cmd, f, now, ConflictingHumanDecision, s.job.state, Conflict, [OriginalDecisionPreserved]);
    }
  }

  lemma RetoldVerdict(s: Snapshot, cmd: Command, f: Facts, now: int)
    requires Heeded(s, cmd, now) && Retold(s, cmd, f)
    ensures var d := cmd.decision.value;
      DecideVerdict(s, cmd, f, now) ==
        Escalating(s, cmd, f, now, DecisionIdentityConflict, s.job.state, Conflict, None,
                   [DecisionDigest(FindDecision(s.decisions, d.decisionId).value), DecisionDigest(d)])
  {
  }

  lemma TwiceVerdict(s: Snapshot, cmd: Command, f: Facts, now: int)
    requires Heeded(s, cmd, now) && Current(s, cmd) && DecidedTwice(s, cmd, f, now)
    ensures DecideVerdict(s, cmd, f, now) ==
      Escalating(s, cmd, f, now, ConflictingHumanDecision, s.job.state, Conflict, None, [OriginalDecisionPreserved])
  {
    CallbackPassesIff(s, cmd, f, now);
    GuardsPassIff(s, cmd, f, now);
  }

  /** An overdue policy or approval makes the job wait for its operator, and changes no approval. */
  lemma OverdueEscalates(s: Snapshot, cmd: Command, f: Facts, now: int)
    requires Heeded(s, cmd, now) && Current(s, cmd) && now < f.escalationDeadline
    requires PolicyOverdue(s, cmd, f, now) || ApprovalLate(s, cmd, f, now)
    ensures var s' := After(s, cmd, f, now);
      && RaisesAlert(s, s', cmd, if f.policyAvailable then ApprovalOverdue else ApprovalPolicyUnavailable)
      && s'.approval == s.approval && s'.job.state.Waiting? && KeepsLease(s, s')
      && s'.job.recoveries == s.job.recoveries
  {
    AfterIs(s, cmd, f, now);
    if PolicyOverdue(s, cmd, f, now) {
      PolicyOverdueVerdict(s, cmd, f, now);
      EscalatingCommits(s, cmd, f, now, ApprovalPolicyUnavailable, Waiting, s.approval, [PolicyWaitDeadlineExceeded]);
    } else {
      ApprovalLateVerdict(s, cmd, f, now);
      EscalatingCommits(s, cmd, f, now, ApprovalOverdue, Waiting, s.approval, []);
    }
  }

  lemma PolicyOverdueVerdict(s: Snapshot, cmd: Command, f: Facts, now: int)
    requires Heeded(s, cmd, now) && Current(s, cmd) && PolicyOverdue(s, cmd, f, now)
    ensures DecideVerdict(s, cmd, f, now) ==
      Escalating(s, cmd, f, now, ApprovalPolicyUnavailable, Waiting, s.approval, None, [PolicyWaitDeadlineExceeded])
  {
    if cmd.operation.Decide? { CallbackPassesIff(s, cmd, f, now); }
  }

  lemma ApprovalLateVerdict(s: Snapshot, cmd: Command, f: Facts, now: int)
    requires Heeded(s, cmd, now) && Current(s, cmd) && ApprovalLate(s, cmd, f, now)
    ensures DecideVerdict(s, cmd, f, now) == Escalating(s, cmd, f, now, ApprovalOverdue, Waiting, s.approval, None, [])
  {
    GuardsPassIff(s, cmd, f, now);
  }

  /** Usage that contradicts a settled or released reservation is escalated and rewrites nothing. */
  lemma SettlementConflictEscalates(s: Snapshot, cmd: Command, f: Facts, now: int)
    requires Heeded(s, cmd, now) && Current(s, cmd) && MayRecover(s, cmd, f) && SettledOtherwise(s, f)
    requires now < f.escalationDeadline
    ensures var s' := After(s, cmd, f, now);
      var held := OfAttempt(s.job.reservations, s.action.attemptId)[0].status;
      && RaisesAlert(s, s', cmd, if held.Settled? then SettlementConflict else SettlementReservationConflict)
      && s'.approval == s.approval && s'.job.state == s.job.state && KeepsLease(s, s')
      && s'.job.recoveries == s.job.recoveries
  {
    AfterIs(s, cmd, f, now);
    assert DecideVerdict(s, cmd, f, now) == DecideSettlement(s, cmd, f, now);
    if OfAttempt(s.job.reservations, s.action.attemptId)[0].status.Settled? {
      EscalatingCommits(s, cmd, f, now, SettlementConflict, s.job.state, s.approval, [SettledUsageNotRewritten]);
    } else {
      EscalatingCommits(s, cmd, f, now, SettlementReservationConflict, s.job.state, s.approval, []);
    }
  }

  /** Recovery out of budget or time is handed to the operator with everything still held, and
      spends nothing. */
  lemma ExhaustionEscalates(s: Snapshot, cmd: Command, f: Facts, now: int)
    requires Heeded(s, cmd, now) && Current(s, cmd) && MayRecover(s, cmd, f) && Exhausted(s, f, now)
    requires now < f.escalationDeadline
    ensures var s' := After(s, cmd, f, now);
      && RaisesAlert(s, s', cmd, BoundedRecoveryExhausted) && RecordsRecovery(s, s', cmd, f, now, 0)
      && s'.approval == s.approval && s'.job.fenceToken == s.job.fenceToken + 1
      && s'.job.state == (if Terminal(s.job.state) then s.job.state else PendingReconciliation)
  {
    AfterIs(s, cmd, f, now);
    var c := DurableJobs.DecideRecovery(s.job, Control(s, f), RecoveryRequestFor(s, cmd, f, now));
    DurableJobs.UnresolvedDecidedExactly(s.job, Control(s, f), RecoveryRequestFor(s, cmd, f, now));
    ExhaustionCommits(s, cmd, f, now, c);
  }

  lemma ExhaustionCommits(s: Snapshot, cmd: Command, f: Facts, now: int, c: DurableJobs.RecoveryCandidate)
    requires DecideVerdict(s, cmd, f, now) == RecoveryVerdict(s, cmd, f, now, c)
    requires c.decision.Escalate? && c.reservation.KeepHeld? && now < f.escalationDeadline
    ensures var v := RecoveryVerdict(s, cmd, f, now, c);
      var s' := Committed(s, cmd, f, v);
      && Transition(cmd.operation, v.status) && RaisesAlert(s, s', cmd, BoundedRecoveryExhausted)
      && RecordsRecovery(s, s', cmd, f, now, 0) && s'.approval == s.approval && s'.job.state == c.nextState
      && s'.job.fenceToken == s.job.fenceToken + 1
  {
    var v := RecoveryVerdict(s, cmd, f, now, c);
    assert Committed(s, cmd, f, v).job.reservations == DurableJobs.Recovered(s.job, c).reservations;
    assert Committed(s, cmd, f, v).job.reservations == s.job.reservations;
  }

  // ---------------------------------------------------------------- settled units over runs

  /** Some applied event of the log settled exactly this usage. */
  ghost predicate SettledBy(log: seq<HumanControlRuns.Event>, r0: Reservation, r: Reservation) {
    exists k :: 0 <= k < |log| && Settles(log[k], r0, r)
  }

  ghost predicate Settles(e: HumanControlRuns.Event, r0: Reservation, r: Reservation) {
    && e.AppliedEvent? && e.candidate.verdict.status.SettleUsage? && e.facts.verifiedUsage.Some?
    && r.settled.Some? && r.settled.value == e.facts.verifiedUsage.value
    && r.released == r0.reserved - e.facts.verifiedUsage.value
  }

  /** Every reservation that was settled since the start carries the usage that was verified. */
  ghost predicate SettledAsVerified(s0: Snapshot, w: HumanControlRuns.World) {
    && |w.snapshot.job.reservations| == |s0.job.reservations|
    && forall i :: 0 <= i < |s0.job.reservations| ==>
         var r0, r := s0.job.reservations[i], w.snapshot.job.reservations[i];
         r.reserved == r0.reserved && (r.status.Settled? ==> r == r0 || SettledBy(w.log, r0, r))
  }

  lemma SettledStays(log: seq<HumanControlRuns.Event>, log': seq<HumanControlRuns.Event>, r0: Reservation,
    r: Reservation)
    requires log <= log' && SettledBy(log, r0, r)
    ensures SettledBy(log', r0, r)
  {
    var k :| 0 <= k < |log| && Settles(log[k], r0, r);
    assert log'[k] == log[k];
  }

  /** A commit settles a reservation only through a settlement, at its verified usage. */
  lemma CommitSettles(s: Snapshot, c: Candidate, f: Facts, now: int, i: nat)
    requires HumanControlRuns.Vouched(s, c, f, now) && i < |s.job.reservations|
    ensures var s' := Committed(s, c.command, f, c.verdict);
      && |s'.job.reservations| == |s.job.reservations|
      && var r, r' := s.job.reservations[i], s'.job.reservations[i];
         && r'.reserved == r.reserved
         && (r'.status.Settled? ==>
               r' == r || Settles(HumanControlRuns.AppliedEvent(s, c, f, now), r, r'))
  {
    var v := c.verdict;
    var s' := Committed(s, c.command, f, v);
    if v.recovery.Some? {
      if v.status.SettleUsage? {
        SettlementAccounts(s, c.command, f, now, v);
      } else {
        assert s'.job.reservations == Reserved(s, v, DurableJobs.Recovered(s.job, v.recovery.value).reservations);
      }
    } else {
      assert s'.job.reservations == Reserved(s, v, s.job.reservations);
    }
  }

  lemma SettledStep(s0: Snapshot, w: HumanControlRuns.World, w': HumanControlRuns.World, ch: HumanControlRuns.Change)
    requires SettledAsVerified(s0, w) && HumanControlRuns.Explains(w, w', ch)
    ensures SettledAsVerified(s0, w')
  {
    HumanControlRuns.StepKeepsLog(w, w', ch);
    if ch.Apply? {
      forall i | 0 <= i < |s0.job.reservations|
        ensures |w'.snapshot.job.reservations| == |s0.job.reservations|
        ensures var r0, r' := s0.job.reservations[i], w'.snapshot.job.reservations[i];
          r'.reserved == r0.reserved && (r'.status.Settled? ==> r' == r0 || SettledBy(w'.log, r0, r'))
      {
        CommitSettles(w.snapshot, ch.c, ch.f, ch.now, i);
        var r0, r, r' := s0.job.reservations[i], w.snapshot.job.reservations[i], w'.snapshot.job.reservations[i];
        if r'.status.Settled? && r' == r && r != r0 {
          SettledStays(w.log, w'.log, r0, r);
        } else if r'.status.Settled? && r' != r {
          assert Settles(w'.log[|w.log|], r0, r');
        }
      }
      HumanControlRuns.CommittedReservations(w.snapshot, ch.c, ch.f, ch.now);
    } else {
      assert w'.snapshot.job.reservations == w.snapshot.job.reservations;
      forall i | 0 <= i < |s0.job.reservations|
        && SettledBy(w.log, s0.job.reservations[i], w.snapshot.job.reservations[i])
        ensures SettledBy(w'.log, s0.job.reservations[i], w'.snapshot.job.reservations[i])
      {
        SettledStays(w.log, w'.log, s0.job.reservations[i], w.snapshot.job.reservations[i]);
      }
    }
  }

  /** Over every run, whatever was settled since the start was settled at a usage that the facts
      of an applied settlement verified, and the rest of it was released. */
  lemma {:induction false} SettledUnitsAreVerified(s0: Snapshot, w: HumanControlRuns.World,
    steps: seq<HumanControlRuns.Step>)
    requires SettledAsVerified(s0, w)
    ensures SettledAsVerified(s0, HumanControlRuns.Run(w, steps))
    decreases |steps|
  {
    if steps != [] {
      var ch := HumanControlRuns.StepExplained(w, steps[0]);
      SettledStep(s0, w, HumanControlRuns.Next(w, steps[0]), ch);
      SettledUnitsAreVerified(s0, HumanControlRuns.Next(w, steps[0]), steps[1..]);
    }
  }
}
