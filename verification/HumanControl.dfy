/** Human control over a durable job: the pure decision and what every candidate it
    plans guarantees. Facts and principals are trusted inputs of the application. */
module HumanControl {
  import opened Common
  import opened Records
  import DurableJobs

  datatype Operation = Decide | Gate | Interrupt | ObserveCancel | Recover | LateResult | Invalidate

  datatype Principal = Principal(tenantId: string, actorId: string, role: string, authenticated: bool,
    permissions: seq<string>)

  datatype Facts = Facts(
    executor: Principal, approver: Principal, policyAvailable: bool, policyId: string, policyVersion: string,
    policyQuarantined: bool, approvalRequired: bool, governance: GovernanceStatus, admissionAllowed: bool,
    businessValid: bool, budgetAllowed: bool, certainty: ExternalCertainty, recovery: RecoveryOperation,
    policyWaitDeadline: int, owner: Principal, fallbackOwner: Principal, ownerAvailable: bool,
    escalationDeadline: int, verifiedUsage: Option<int>, outcomeEvidenceId: Option<string>)

  datatype Command = Command(
    commandId: Identifier, operation: Operation, actor: Principal, expectedState: AgentState,
    expectedStateVersion: int, expectedFence: int, decision: Option<ApprovalDecision>,
    invalidateTo: Option<ApprovalStatus>, evidenceId: Option<string>, sourceAttemptId: Option<string>,
    sourceOperationId: Option<string>, sourceFence: Option<int>)

  datatype Escalation = Escalation(
    escalationId: Identifier, tenantId: string, attemptId: string, operationId: string,
    ownerId: Option<string>, reason: EscalationReason, deadline: int, routable: bool, evidence: seq<Evidence>)

  datatype Snapshot = Snapshot(
    job: Job, action: ActionBinding, request: ApprovalRequest, approval: ApprovalStatus,
    decisions: seq<ApprovalDecision>, decisionEvidence: seq<ApprovalDecision>, interruptId: Option<Identifier>,
    observedBy: seq<string>, dispatchStarted: bool, claimedEvents: seq<Identifier>,
    escalations: seq<Escalation>, history: seq<Checkpoint>)

  datatype FollowUp =
    NoFollowUp | OperatorReview | VerifyOriginalResult | ReconcileOriginalOperation | CancellationAndReconciliation

  datatype Verdict = Verdict(
    status: Status, nextState: AgentState, approval: ApprovalStatus, executionAllowed: bool,
    reservation: ReservationAction, outbox: Option<EventType>, followUp: FollowUp,
    evidence: seq<Evidence>, escalation: Option<Escalation>, recovery: Option<DurableJobs.RecoveryCandidate>)

  /** A verdict together with what it was computed from. */
  datatype Candidate = Candidate(
    snapshot: Digest<Snapshot>, command: Command, authorised: bool, separated: bool, verdict: Verdict)

  const CONTROL := "control"
  const APPROVE := "approve"
  const OPERATE := "operate"
  const INTERRUPT := "interrupt"

  predicate Permitted(p: Principal, tenant: string, permission: string) {
    p.authenticated && p.tenantId == tenant && permission in p.permissions
  }

  predicate ExecutorAuthorised(s: Snapshot, f: Facts) {
    Permitted(f.executor, s.action.tenantId, s.action.actionType) && f.executor.actorId == s.action.requesterId
  }

  predicate Separated(s: Snapshot, f: Facts) {
    !s.request.separationRequired || f.approver.actorId != s.action.requesterId
  }

  predicate Interrupted(s: Snapshot) {
    s.interruptId.Some? && !Blank(s.interruptId.value)
  }

  predicate Filled(a: ActionBinding) {
    && a.tenantId != "" && a.jobId != "" && a.stepId != "" && a.attemptId != "" && a.operationId != ""
    && a.actionType != "" && a.toolName != "" && a.toolVersion != "" && a.argumentsFingerprint != Raw("")
    && a.artifactId != "" && a.artifactVersion != "" && a.requesterId != "" && a.policyId != ""
    && a.policyVersion != "" && a.executionBinding != Raw("")
  }

  predicate InputsUsable(s: Snapshot, cmd: Command, now: int) {
    && !Blank(cmd.commandId) && 0 <= now && s.request.requestId != ""
    && 0 <= s.request.requestedAt <= s.request.respondBy <= s.request.expiresAt
    && Filled(s.action)
  }

  predicate BindsJob(s: Snapshot) {
    && s.job.tenantId == s.action.tenantId && s.job.jobId == s.action.jobId
    && s.job.stepId == s.action.stepId && s.job.attemptId == s.action.attemptId
    && s.action.executionBinding == Of(s.job.checkpoint.bindings)
  }

  predicate Current(s: Snapshot, cmd: Command) {
    && cmd.expectedState == s.job.state && cmd.expectedStateVersion == s.job.stateVersion
    && cmd.expectedFence == s.job.fenceToken
  }

  /** Approval states that no gate may pass. */
  predicate Barred(a: ApprovalStatus) {
    a.Rejected? || a.Expired? || a.Revoked? || a.Superseded? || a.Withdrawn? || a.Conflict?
  }

  // ---------------------------------------------------------------- building candidates

  function Outcome(s: Snapshot, status: Status, nextState: AgentState := s.job.state,
                   approval: ApprovalStatus := s.approval, executionAllowed: bool := false,
                   reservation: ReservationAction := NoChange, outbox: Option<EventType> := None,
                   followUp: FollowUp := NoFollowUp, evidence: seq<Evidence> := [],
                   escalation: Option<Escalation> := None,
                   recovery: Option<DurableJobs.RecoveryCandidate> := None): Verdict
  {
    Verdict(status, nextState, approval, executionAllowed, reservation, outbox, followUp, evidence, escalation,
      recovery)
  }

  function EscalationEvidence(f: Facts, evidence: seq<Evidence>): seq<Evidence> {
    if f.ownerAvailable then evidence else evidence + [OwnerUnavailable]
  }

  /** The escalation goes to the owner, or to the fallback; nobody permitted makes it unroutable. */
  function EscalationFor(s: Snapshot, cmd: Command, f: Facts, reason: EscalationReason,
    evidence: seq<Evidence>): Escalation {
    var owner := if f.ownerAvailable then f.owner else f.fallbackOwner;
    var routable := Permitted(owner, s.action.tenantId, OPERATE);
    Escalation(Prefixed(EscalationPrefix, cmd.commandId), s.action.tenantId, s.action.attemptId, s.action.operationId,
               if routable then Some(owner.actorId) else None, reason, f.escalationDeadline, routable,
               EscalationEvidence(f, evidence))
  }

  function Escalating(s: Snapshot, cmd: Command, f: Facts, now: int, reason: EscalationReason, state: AgentState,
                      approval: ApprovalStatus, recovery: Option<DurableJobs.RecoveryCandidate>,
                      evidence: seq<Evidence>): Verdict
  {
    if f.escalationDeadline <= now then Outcome(s, InvalidEscalationDeadline)
    else Outcome(s, Escalated(reason), nextState := state, approval := approval,
                 reservation := if f.certainty.OutcomeUnknown? then KeepHeld else NoChange,
                 outbox := Some(EscalationAlert), followUp := OperatorReview,
                 evidence := EscalationEvidence(f, evidence),
                 escalation := Some(EscalationFor(s, cmd, f, reason, evidence)), recovery := recovery)
  }

  // ---------------------------------------------------------------- late results

  function DecideLateResult(s: Snapshot, cmd: Command, f: Facts): Verdict {
    if !Truthy(cmd.evidenceId) || cmd.sourceAttemptId != Some(s.action.attemptId)
       || cmd.sourceOperationId != Some(s.action.operationId)
    then Outcome(s, ResultIdentityMismatch)
    else
      var stale := cmd.sourceFence != Some(s.job.fenceToken) || Some(cmd.actor.actorId) != s.job.leaseOwner
                   || Terminal(s.job.state);
      Outcome(s, if stale then StaleResultEvidence else ResultEvidence,
        evidence := [OriginalIdentityEvidence, EvidenceId(cmd.evidenceId)], followUp := VerifyOriginalResult)
  }

  // ---------------------------------------------------------------- decision callbacks

  function FindDecision(ds: seq<ApprovalDecision>, id: string): Option<ApprovalDecision> {
    if ds == [] then None
    else if ds[0].decisionId == id then Some(ds[0])
    else FindDecision(ds[1..], id)
  }

  /** The identity checks of a callback; None means that it may go on. */
  function DecisionIdentity(s: Snapshot, cmd: Command, f: Facts, now: int): Option<Verdict> {
    if cmd.decision.None? || cmd.decision.value.decisionId == ""
       || !(cmd.decision.value.choice.Approved? || cmd.decision.value.choice.Rejected?)
    then Some(Outcome(s, InvalidDecision))
    else
      var d := cmd.decision.value;
      if !Permitted(cmd.actor, s.action.tenantId, APPROVE) || cmd.actor.actorId != d.actorId
         || cmd.actor.tenantId != d.tenantId || cmd.actor != f.approver
      then Some(Outcome(s, ApproverNotAuthorized))
      else
        var previous := FindDecision(s.decisions, d.decisionId);
        if previous.None? then None
        else if previous.value == d then
          Some(Outcome(s, DuplicateDecision, evidence := [DuplicateNoBusinessEffect]))
        else Some(Escalating(s, cmd, f, now, DecisionIdentityConflict, s.job.state, Conflict, None,
                             [DecisionDigest(previous.value), DecisionDigest(d)]))
  }

  function DecideDecision(s: Snapshot, cmd: Command, f: Facts, now: int): Verdict
    requires cmd.decision.Some?
  {
    var d := cmd.decision.value;
    if d.requestId != s.request.requestId || d.bindingFingerprint != Of(s.action) then
      Outcome(s, DecisionBindingMismatch)
    else if !(s.request.requestedAt <= d.decidedAt <= now) || d.decidedAt >= s.request.expiresAt then
      Outcome(s, DecisionTimeInvalid)
    else if cmd.actor.role !in s.request.eligibleRoles || !Separated(s, f) then
      Outcome(s, ApproverPolicyRejected)
    else if s.decisions != [] then
      Escalating(s, cmd, f, now, ConflictingHumanDecision, s.job.state, Conflict, None, [OriginalDecisionPreserved])
    else
      Outcome(s, DecisionRecorded, approval := d.choice, evidence := [HumanDecisionNotDispatch])
  }

  // ---------------------------------------------------------------- recovery

  /** The newest recovery recorded for an attempt. */
  function Latest(ops: seq<RecoveryOperation>, attempt: string): Option<RecoveryOperation>
    decreases |ops|
  {
    if ops == [] then None
    else if ops[|ops| - 1].sourceAttemptId == attempt then Some(ops[|ops| - 1])
    else Latest(ops[..|ops| - 1], attempt)
  }

  /** What the run of an attempt is held to: its own record, or the facts before there is one. */
  function Control(s: Snapshot, f: Facts): RecoveryOperation {
    var latest := Latest(s.job.recoveries, s.action.attemptId);
    if latest.Some? then latest.value else f.recovery
  }

  function OfAttempt(rs: seq<Reservation>, attempt: string): seq<Reservation> {
    if rs == [] then []
    else (if rs[0].attemptId == attempt then [rs[0]] else []) + OfAttempt(rs[1..], attempt)
  }

  function RecoveryRequestFor(s: Snapshot, cmd: Command, f: Facts, now: int): DurableJobs.RecoveryRequest {
    DurableJobs.RecoveryRequest(
      cmd.commandId, s.action.tenantId, s.action.jobId, s.action.stepId, s.action.attemptId,
      s.job.checkpoint.checkpointId, s.job.state, s.job.stateVersion, s.job.fenceToken, now, f.certainty,
      ExecutorAuthorised(s, f), !f.policyQuarantined, false, false, f.verifiedUsage)
  }

  function DecideRecovered(s: Snapshot, cmd: Command, f: Facts, now: int, op: RecoveryOperation): Verdict {
    if f.certainty.DefinitelyNotDispatched? then Outcome(s, NoExternalOperationToReconcile)
    else RecoveryVerdict(s, cmd, f, now, DurableJobs.DecideRecovery(s.job, op, RecoveryRequestFor(s, cmd, f, now)))
  }

  /** Only escalation, reconciliation and settlement are taken over from the durable decision. */
  function RecoveryVerdict(s: Snapshot, cmd: Command, f: Facts, now: int, c: DurableJobs.RecoveryCandidate): Verdict {
    match c.decision
    case Escalate =>
      Escalating(s, cmd, f, now, BoundedRecoveryExhausted, c.nextState, s.approval, Some(c),
        [OriginalIdentityPreserved])
    case Reconcile =>
      Outcome(s, ReconcileQuery,
        nextState := c.nextState, reservation := KeepHeld, outbox := Some(ReconciliationQuery),
        followUp := ReconcileOriginalOperation, evidence := [OriginalIdentityPreserved], recovery := Some(c))
    case Settle =>
      Outcome(s, SettleUsage, reservation := SettleVerified, evidence := [VerifiedUsage], recovery := Some(c))
    case _ => Outcome(s, RecoveryNoNewBusinessExecution)
  }

  /** A verified accounting operation gets its own one-step window; it is not another query. */
  function SettlementWindow(s: Snapshot, cmd: Command, f: Facts, now: int): RecoveryOperation
    requires f.outcomeEvidenceId.Some?
  {
    RecoveryOperation(Prefixed(SettlementPrefix, cmd.commandId), s.action.attemptId, Control(s, f).generation, 0, 1,
                      now + 1, Some(EvidenceName(f.outcomeEvidenceId.value)))
  }

  function DecideSettlement(s: Snapshot, cmd: Command, f: Facts, now: int): Verdict
    requires f.verifiedUsage.Some? && f.outcomeEvidenceId.Some?
  {
    var rs := OfAttempt(s.job.reservations, s.action.attemptId);
    if |rs| != 1 || !(0 <= f.verifiedUsage.value <= rs[0].reserved) then Outcome(s, InvalidVerifiedUsage)
    else if rs[0].status.Settled? then
      if rs[0].settled.Some? && rs[0].settled.value == f.verifiedUsage.value
      then Outcome(s, SettlementAlreadyRecorded)
      else Escalating(s, cmd, f, now, SettlementConflict, s.job.state, s.approval, None, [SettledUsageNotRewritten])
    else if !rs[0].status.Held? then
      Escalating(s, cmd, f, now, SettlementReservationConflict, s.job.state, s.approval, None, [])
    else DecideRecovered(s, cmd, f, now, SettlementWindow(s, cmd, f, now))
  }

  function DecideRecover(s: Snapshot, cmd: Command, f: Facts, now: int): Verdict {
    var op := Control(s, f);
    if !Permitted(cmd.actor, s.action.tenantId, OPERATE) || op.sourceAttemptId != s.action.attemptId
       || op.attemptsUsed < 0 || op.attemptLimit < 1
    then Outcome(s, RecoveryNotAuthorized)
    else if f.verifiedUsage.None? then DecideRecovered(s, cmd, f, now, op)
    else if !f.certainty.VerifiedTerminal? || !Truthy(f.outcomeEvidenceId) then Outcome(s, UsageEvidenceRequired)
    else DecideSettlement(s, cmd, f, now)
  }

  // ---------------------------------------------------------------- interrupts and lifecycle changes

  predicate DefinitelyUnused(s: Snapshot, f: Facts) {
    !s.dispatchStarted && f.certainty.DefinitelyNotDispatched?
  }

  function DecideInterrupt(s: Snapshot, cmd: Command, f: Facts): Verdict {
    if !Permitted(cmd.actor, s.action.tenantId, INTERRUPT) then Outcome(s, InterruptNotAuthorized)
    else if Interrupted(s) then Outcome(s, DuplicateInterrupt)
    else
      var unused := DefinitelyUnused(s, f);
      Outcome(s, if unused then InterruptedPreDispatch else InterruptedPostDispatch,
        nextState := DurableJobs.UnlessTerminal(s.job.state, if unused then Cancelled else PendingReconciliation),
        reservation := if unused then Release else KeepHeld,
        followUp := if unused then NoFollowUp else CancellationAndReconciliation,
        evidence := [InterruptIsNotExternalAbsence])
  }

  function DecideObserveCancel(s: Snapshot, cmd: Command, f: Facts): Verdict {
    if !Interrupted(s) then Outcome(s, NoCancellationRequest)
    else Outcome(s, CancellationObserved, evidence := [WorkerObservedNotExternalAbsence])
  }

  function DecideInvalidate(s: Snapshot, cmd: Command, f: Facts): Verdict {
    if !Permitted(cmd.actor, s.action.tenantId, OPERATE) || cmd.invalidateTo.None?
       || !(cmd.invalidateTo.value.Revoked? || cmd.invalidateTo.value.Superseded? || cmd.invalidateTo.value.Withdrawn?)
    then Outcome(s, InvalidLifecycleChange)
    else Outcome(s, ApprovalIs(cmd.invalidateTo.value),
      approval := cmd.invalidateTo.value, evidence := [ApprovalHistoryPreserved])
  }

  // ---------------------------------------------------------------- the dispatch gate

  predicate HoldsReservation(s: Snapshot) {
    exists i :: 0 <= i < |s.job.reservations| && s.job.reservations[i].attemptId == s.action.attemptId
      && s.job.reservations[i].status.Held?
  }

  predicate CurrentApproverValid(s: Snapshot, f: Facts, d: ApprovalDecision) {
    && d.choice.Approved? && d.bindingFingerprint == Of(s.action) && d.requestId == s.request.requestId
    && d.actorId == f.approver.actorId && Permitted(f.approver, s.action.tenantId, APPROVE)
    && f.approver.role in s.request.eligibleRoles && Separated(s, f)
  }

  function DecideGate(s: Snapshot, cmd: Command, f: Facts, now: int): Verdict {
    if !ExecutorAuthorised(s, f) then
      Outcome(s, AuthorizationRevoked, reservation := if DefinitelyUnused(s, f) then Release else KeepHeld)
    else if !f.governance.AllowedToAdmission? then Outcome(s, ToolGovernanceBlocked)
    else if !f.businessValid then Outcome(s, BusinessValidationFailed)
    else if !f.admissionAllowed then Outcome(s, ToolAdmissionBlocked)
    else if !f.budgetAllowed then Outcome(s, BudgetBlocked)
    else if s.dispatchStarted then Outcome(s, AlreadyDispatchClaimed)
    else if !f.certainty.DefinitelyNotDispatched? then Outcome(s, ExternalOperationAlreadyPossible)
    else if !HoldsReservation(s) then Outcome(s, ReservationNotHeld)
    else if f.approvalRequired && !s.approval.Approved? then
      if now >= s.request.respondBy then
        Escalating(s, cmd, f, now, ApprovalOverdue, Waiting, s.approval, None, [])
      else Outcome(s, ApprovalIs(Pending), nextState := Waiting, outbox := Some(ApprovalRequested))
    else if f.approvalRequired && s.decisions == [] then Outcome(s, ApprovalEvidenceMissing)
    else if f.approvalRequired && !CurrentApproverValid(s, f, s.decisions[0]) then
      Outcome(s, CurrentApproverInvalid)
    else
      Outcome(s, ExecutionCandidate,
        nextState := Running, approval := if f.approvalRequired then s.approval else NotRequired,
        executionAllowed := true, outbox := Some(Publish), evidence := [CurrentGuardsPassed])
  }

  /** The lifecycle and policy guards shared by decisions and gates; None means they all pass. */
  function Guarded(s: Snapshot, cmd: Command, f: Facts, now: int): Option<Verdict> {
    if Terminal(s.job.state) then Some(Outcome(s, AlreadyTerminal, evidence := [TerminalNotReopened]))
    else if Interrupted(s) then Some(Outcome(s, InterruptBlocked))
    else if Barred(s.approval) then Some(Outcome(s, ApprovalIs(s.approval)))
    else if s.request.binding != s.action then
      Some(Outcome(s, ApprovalBindingMismatch, evidence := [NewRequestRequired]))
    else if now >= s.request.expiresAt && f.approvalRequired then
      Some(Outcome(s, ApprovalIs(Expired), approval := Expired, evidence := [NoSilentRenewal]))
    else if f.policyQuarantined then Some(Outcome(s, PolicyQuarantined, evidence := [OldBindingPreserved]))
    else if !f.policyAvailable then
      if now >= f.policyWaitDeadline then
        Some(Escalating(s, cmd, f, now, ApprovalPolicyUnavailable, Waiting, s.approval, None,
          [PolicyWaitDeadlineExceeded]))
      else Some(Outcome(s, PolicyUnavailable, nextState := Waiting))
    else if f.policyId != s.action.policyId || f.policyVersion != s.action.policyVersion then
      Some(Outcome(s, PolicyBindingMismatch))
    else if s.action.risk.High? && !f.approvalRequired then Some(Outcome(s, RiskPolicyConflict))
    else None
  }

  function DecideVerdict(s: Snapshot, cmd: Command, f: Facts, now: int): Verdict {
    if !InputsUsable(s, cmd, now) then Outcome(s, InvalidFacts, evidence := [FailClosed])
    else if !Permitted(cmd.actor, s.action.tenantId, CONTROL) then Outcome(s, ControlNotAuthorized)
    else if !BindsJob(s) then Outcome(s, ExecutionBindingMismatch)
    else if cmd.operation.LateResult? then DecideLateResult(s, cmd, f)
    else if cmd.operation.Decide? && DecisionIdentity(s, cmd, f, now).Some? then
      DecisionIdentity(s, cmd, f, now).value
    else if !Current(s, cmd) then Outcome(s, StaleCommand, evidence := [ReloadCurrentFacts])
    else if cmd.operation.Recover? then DecideRecover(s, cmd, f, now)
    else if cmd.operation.ObserveCancel? then DecideObserveCancel(s, cmd, f)
    else if cmd.operation.Interrupt? then DecideInterrupt(s, cmd, f)
    else if cmd.operation.Invalidate? then DecideInvalidate(s, cmd, f)
    else if Guarded(s, cmd, f, now).Some? then Guarded(s, cmd, f, now).value
    else if cmd.operation.Decide? then DecideDecision(s, cmd, f, now)
    else DecideGate(s, cmd, f, now)
  }

  /** decide_human_control. */
  function DecideControl(s: Snapshot, cmd: Command, f: Facts, now: int): Candidate {
    Candidate(Of(s), cmd, ExecutorAuthorised(s, f), Separated(s, f), DecideVerdict(s, cmd, f, now))
  }

  // ---------------------------------------------------------------- what every candidate guarantees

  /** An open gate: the state and facts under which execution may be claimed. */
  ghost predicate GateOpen(s: Snapshot, f: Facts, now: int) {
    && !Terminal(s.job.state) && !Interrupted(s) && !Barred(s.approval) && s.request.binding == s.action
    && !s.dispatchStarted && f.certainty.DefinitelyNotDispatched? && HoldsReservation(s)
    && ExecutorAuthorised(s, f) && f.governance.AllowedToAdmission? && f.businessValid && f.admissionAllowed
    && f.budgetAllowed && !f.policyQuarantined && f.policyAvailable
    && f.policyId == s.action.policyId && f.policyVersion == s.action.policyVersion
    && (s.action.risk.High? ==> f.approvalRequired)
    && (f.approvalRequired ==>
          && now < s.request.expiresAt && s.approval.Approved?
          && s.decisions != [] && CurrentApproverValid(s, f, s.decisions[0]))
  }

  predicate Queries(c: Verdict) {
    c.outbox.Some? && c.outbox.value.ReconciliationQuery?
  }

  predicate Interrupting(st: Status) {
    st.InterruptedPreDispatch? || st.InterruptedPostDispatch?
  }

  /** What the recording of a decision establishes about it. */
  ghost predicate DulyDecided(action: ActionBinding, request: ApprovalRequest, d: ApprovalDecision) {
    && d.requestId == request.requestId && d.bindingFingerprint == Of(action)
    && request.requestedAt <= d.decidedAt < request.expiresAt
    && (request.separationRequired ==> d.actorId != action.requesterId)
  }

  /** The attempt has one reservation, it is held, and the usage fits it. */
  ghost predicate SoleHeld(s: Snapshot, usage: int) {
    forall i :: 0 <= i < |s.job.reservations| && s.job.reservations[i].attemptId == s.action.attemptId ==>
      s.job.reservations[i].status.Held? && 0 <= usage <= s.job.reservations[i].reserved
  }

  /** The recovery half of a candidate fits the job it was planned on. */
  ghost predicate RecoveryFits(s: Snapshot, cmd: Command, f: Facts, now: int, status: Status, next: AgentState,
                               r: DurableJobs.RecoveryCandidate)
  {
    var op := Control(s, f);
    && DurableJobs.SameIdentity(s.job, r.request) && DurableJobs.SameVersions(s.job, r.request)
    && r.nextState == next && r.request.recoveryId == cmd.commandId
    && op.sourceAttemptId == s.action.attemptId == s.job.attemptId
    && ((status.SettleUsage? && r.decision.Settle? && r.reservation.SettleVerified?
         && r.request.verifiedUsage == f.verifiedUsage && f.verifiedUsage.Some? && SoleHeld(s, f.verifiedUsage.value))
        || (status.ReconcileQuery? && r.decision.Reconcile? && r.reservation.KeepHeld?
            && op.attemptsUsed < op.attemptLimit && now < op.deadline)
        || (status == Escalated(BoundedRecoveryExhausted) && r.decision.Escalate? && r.reservation.KeepHeld?))
  }

  /** A verdict keeps a terminal state, never unbars an approval, records only due
      decisions and approves only by recording one. */
  ghost predicate KeepsState(s: Snapshot, cmd: Command, now: int, c: Verdict) {
    && (Terminal(s.job.state) ==> c.nextState == s.job.state)
    && (Barred(s.approval) ==> Barred(c.approval))
    && (c.status.DecisionRecorded? ==>
          && s.decisions == [] && cmd.decision.Some? && DulyDecided(s.action, s.request, cmd.decision.value)
          && c.approval == cmd.decision.value.choice && cmd.decision.value.decidedAt <= now)
    && (c.approval.Approved? && !s.approval.Approved? ==> c.status.DecisionRecorded?)
  }

  /** A verdict releases only what was definitely never dispatched, and neither
      interrupts, recovers nor executes unless it was asked to. */
  ghost predicate KeepsWithin(s: Snapshot, cmd: Command, f: Facts, c: Verdict) {
    && (c.reservation.Release? ==> DefinitelyUnused(s, f))
    && (Interrupting(c.status) ==> !Blank(cmd.commandId) && !Interrupted(s) && c.recovery.None?)
    && (Queries(c) <==> c.status.ReconcileQuery?)
    && (c.status.ReconcileQuery? ==> c.recovery.Some?)
    && (c.recovery.Some? ==> cmd.operation.Recover? && !c.reservation.Release?)
    && (c.executionAllowed ==> cmd.operation.Gate?)
  }

  /** Everything the applier relies on. */
  ghost predicate Sound(s: Snapshot, cmd: Command, f: Facts, now: int, c: Verdict) {
    KeepsState(s, cmd, now, c) && KeepsWithin(s, cmd, f, c)
  }

  lemma LateResultSound(s: Snapshot, cmd: Command, f: Facts, now: int)
    ensures Sound(s, cmd, f, now, DecideLateResult(s, cmd, f))
  {
  }

  lemma DecisionIdentitySound(s: Snapshot, cmd: Command, f: Facts, now: int)
    requires DecisionIdentity(s, cmd, f, now).Some?
    ensures Sound(s, cmd, f, now, DecisionIdentity(s, cmd, f, now).value)
  {
  }

  lemma DecisionSound(s: Snapshot, cmd: Command, f: Facts, now: int)
    requires cmd.decision.Some? && DecisionIdentity(s, cmd, f, now).None? && Guarded(s, cmd, f, now).None?
    ensures Sound(s, cmd, f, now, DecideDecision(s, cmd, f, now))
  {
  }

  lemma InterruptSound(s: Snapshot, cmd: Command, f: Facts, now: int)
    requires !Blank(cmd.commandId)
    ensures Sound(s, cmd, f, now, DecideInterrupt(s, cmd, f))
  {
  }

  lemma LifecycleSound(s: Snapshot, cmd: Command, f: Facts, now: int)
    ensures Sound(s, cmd, f, now, DecideInvalidate(s, cmd, f))
    ensures Sound(s, cmd, f, now, DecideObserveCancel(s, cmd, f))
  {
  }

  lemma GuardedSound(s: Snapshot, cmd: Command, f: Facts, now: int)
    requires Guarded(s, cmd, f, now).Some?
    ensures Sound(s, cmd, f, now, Guarded(s, cmd, f, now).value)
  {
  }

  lemma GateSound(s: Snapshot, cmd: Command, f: Facts, now: int)
    requires cmd.operation.Gate? && Guarded(s, cmd, f, now).None?
    ensures Sound(s, cmd, f, now, DecideGate(s, cmd, f, now))
  {
  }

  lemma {:induction false} OfAttemptHasAll(rs: seq<Reservation>, attempt: string, i: nat)
    requires i < |rs| && rs[i].attemptId == attempt
    ensures rs[i] in OfAttempt(rs, attempt)
    decreases |rs|
  {
    if i > 0 { OfAttemptHasAll(rs[1..], attempt, i - 1); }
  }

  /** What the durable decision says when it was asked about the job itself. */
  lemma AskedAboutItself(s: Snapshot, cmd: Command, f: Facts, now: int, op: RecoveryOperation)
    requires BindsJob(s)
    ensures var c := DurableJobs.DecideRecovery(s.job, op, RecoveryRequestFor(s, cmd, f, now));
      && c.request == RecoveryRequestFor(s, cmd, f, now)
      && (Terminal(s.job.state) ==> c.nextState == s.job.state)
      && (c.decision.Escalate? <==> op.attemptsUsed >= op.attemptLimit || now >= op.deadline)
      && (c.decision.Escalate? || c.decision.Reconcile? ==> c.reservation.KeepHeld?)
      && (c.decision.Reconcile? <==>
            op.attemptsUsed < op.attemptLimit && now < op.deadline && f.certainty.OutcomeUnknown?)
      && (c.decision.Settle? ==> c.reservation.SettleVerified? && f.verifiedUsage.Some? && c.nextState == s.job.state)
  {
  }

  lemma RecoveredSound(s: Snapshot, cmd: Command, f: Facts, now: int, op: RecoveryOperation)
    requires BindsJob(s) && cmd.operation.Recover?
    ensures Sound(s, cmd, f, now, DecideRecovered(s, cmd, f, now, op))
  {
    AskedAboutItself(s, cmd, f, now, op);
  }

  lemma SettlementSound(s: Snapshot, cmd: Command, f: Facts, now: int)
    requires BindsJob(s) && cmd.operation.Recover? && f.verifiedUsage.Some? && f.outcomeEvidenceId.Some?
    ensures Sound(s, cmd, f, now, DecideSettlement(s, cmd, f, now))
  {
    var rs := OfAttempt(s.job.reservations, s.action.attemptId);
    if |rs| != 1 || !(0 <= f.verifiedUsage.value <= rs[0].reserved) {
    } else if rs[0].status.Held? {
      RecoveredSound(s, cmd, f, now, SettlementWindow(s, cmd, f, now));
    }
  }

  lemma RecoverSound(s: Snapshot, cmd: Command, f: Facts, now: int)
    requires BindsJob(s) && cmd.operation.Recover?
    ensures Sound(s, cmd, f, now, DecideRecover(s, cmd, f, now))
  {
    if f.verifiedUsage.None? {
      RecoveredSound(s, cmd, f, now, Control(s, f));
    } else if Truthy(f.outcomeEvidenceId) {
      SettlementSound(s, cmd, f, now);
    }
  }

  lemma SoleReservation(s: Snapshot, usage: int)
    requires var rs := OfAttempt(s.job.reservations, s.action.attemptId);
      |rs| == 1 && rs[0].status.Held? && 0 <= usage <= rs[0].reserved
    ensures SoleHeld(s, usage)
  {
    forall i | 0 <= i < |s.job.reservations| && s.job.reservations[i].attemptId == s.action.attemptId
      ensures s.job.reservations[i] == OfAttempt(s.job.reservations, s.action.attemptId)[0]
    {
      OfAttemptHasAll(s.job.reservations, s.action.attemptId, i);
    }
  }

  /** A recovery candidate asked about the job itself fits it. */
  lemma RecoveredFits(s: Snapshot, cmd: Command, f: Facts, now: int, op: RecoveryOperation)
    requires BindsJob(s) && Control(s, f).sourceAttemptId == s.action.attemptId
    requires if f.verifiedUsage.None? then op == Control(s, f)
             else f.certainty.VerifiedTerminal? && SoleHeld(s, f.verifiedUsage.value)
                  && op.attemptsUsed < op.attemptLimit && now < op.deadline
    ensures var c := DecideRecovered(s, cmd, f, now, op);
      c.recovery.Some? ==> RecoveryFits(s, cmd, f, now, c.status, c.nextState, c.recovery.value)
  {
    AskedAboutItself(s, cmd, f, now, op);
  }

  /** Whatever is decided, a recovery half fits the job that it was planned on. */
  lemma RecoveryAlwaysFits(s: Snapshot, cmd: Command, f: Facts, now: int)
    ensures var c := DecideVerdict(s, cmd, f, now);
      c.recovery.Some? ==> RecoveryFits(s, cmd, f, now, c.status, c.nextState, c.recovery.value)
  {
    if DecideVerdict(s, cmd, f, now).recovery.Some? {
      OnlyRecoverRecovers(s, cmd, f, now);
      RecoverFits(s, cmd, f, now);
    }
  }

  lemma OnlyRecoverRecovers(s: Snapshot, cmd: Command, f: Facts, now: int)
    requires DecideVerdict(s, cmd, f, now).recovery.Some?
    ensures BindsJob(s) && DecideVerdict(s, cmd, f, now) == DecideRecover(s, cmd, f, now)
  {
    ControlSound(s, cmd, f, now);
  }

  lemma RecoverFits(s: Snapshot, cmd: Command, f: Facts, now: int)
    requires BindsJob(s) && DecideRecover(s, cmd, f, now).recovery.Some?
    ensures var c := DecideRecover(s, cmd, f, now);
      RecoveryFits(s, cmd, f, now, c.status, c.nextState, c.recovery.value)
  {
    var op := Control(s, f);
    assert op.sourceAttemptId == s.action.attemptId;
    if f.verifiedUsage.None? {
      RecoveredFits(s, cmd, f, now, op);
    } else {
      SettlementRecoveryFits(s, cmd, f, now);
    }
  }

  lemma SettlementRecoveryFits(s: Snapshot, cmd: Command, f: Facts, now: int)
    requires BindsJob(s) && Control(s, f).sourceAttemptId == s.action.attemptId && f.certainty.VerifiedTerminal?
    requires f.verifiedUsage.Some? && f.outcomeEvidenceId.Some? && DecideSettlement(s, cmd, f, now).recovery.Some?
    ensures var c := DecideSettlement(s, cmd, f, now);
      RecoveryFits(s, cmd, f, now, c.status, c.nextState, c.recovery.value)
  {
    SoleReservation(s, f.verifiedUsage.value);
    RecoveredFits(s, cmd, f, now, SettlementWindow(s, cmd, f, now));
  }

  /** Every candidate that the planner can ever return is sound. */
  lemma ControlSound(s: Snapshot, cmd: Command, f: Facts, now: int)
    ensures Sound(s, cmd, f, now, DecideVerdict(s, cmd, f, now))
  {
    if !InputsUsable(s, cmd, now) || !Permitted(cmd.actor, s.action.tenantId, CONTROL) || !BindsJob(s) {
    } else if cmd.operation.LateResult? {
      LateResultSound(s, cmd, f, now);
    } else if cmd.operation.Decide? && DecisionIdentity(s, cmd, f, now).Some? {
      DecisionIdentitySound(s, cmd, f, now);
    } else if !Current(s, cmd) {
    } else if cmd.operation.Recover? {
      RecoverSound(s, cmd, f, now);
    } else if cmd.operation.ObserveCancel? || cmd.operation.Invalidate? {
      LifecycleSound(s, cmd, f, now);
    } else if cmd.operation.Interrupt? {
      InterruptSound(s, cmd, f, now);
    } else if Guarded(s, cmd, f, now).Some? {
      GuardedSound(s, cmd, f, now);
    } else if cmd.operation.Decide? {
      DecisionSound(s, cmd, f, now);
    } else {
      GateSound(s, cmd, f, now);
    }
  }

  /** Execution is allowed exactly when a current, authorised gate command meets an open gate. */
  lemma GateIsOpen(s: Snapshot, cmd: Command, f: Facts, now: int)
    ensures DecideVerdict(s, cmd, f, now).executionAllowed <==>
      && InputsUsable(s, cmd, now) && Permitted(cmd.actor, s.action.tenantId, CONTROL) && BindsJob(s)
      && cmd.operation.Gate? && Current(s, cmd) && GateOpen(s, f, now)
  {
    ControlSound(s, cmd, f, now);
    if cmd.operation.Gate? {
      GateDecides(s, cmd, f, now);
    }
  }

  lemma GateDecides(s: Snapshot, cmd: Command, f: Facts, now: int)
    requires cmd.operation.Gate?
    ensures Guarded(s, cmd, f, now).Some? ==> !Guarded(s, cmd, f, now).value.executionAllowed && !GateOpen(s, f, now)
    ensures Guarded(s, cmd, f, now).None? ==> (DecideGate(s, cmd, f, now).executionAllowed <==> GateOpen(s, f, now))
  {
  }
}
