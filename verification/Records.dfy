/** Generic carriers used by every component. */
module Common {
  datatype Option<+T> = None | Some(value: T)

  datatype Result<+T, +E> = Ok(value: T) | Raised(error: E)

  /** A text that is either the SHA-256 digest of a canonical value, represented
      by that value, or some other text. */
  datatype Digest<+T> = Of(value: T) | Raw(text: string)

  /** Python truthiness of an optional text. */
  predicate Truthy(t: Option<string>) {
    t.Some? && t.value != ""
  }
}

/** The immutable records shared by the durable job store and human control. */
module Records {
  import opened Common

  datatype AgentState =
    Ready | Running | Waiting | PendingReconciliation | Completed | Terminated | Failed | Cancelled

  predicate Terminal(s: AgentState) {
    s.Completed? || s.Terminated? || s.Failed? || s.Cancelled?
  }

  datatype ExternalCertainty = DefinitelyNotDispatched | OutcomeUnknown | VerifiedTerminal

  datatype RecoveryDecision =
    Resume | Retry | Replan | Reconcile | Repair | Settle | Compensate | Escalate | Blocked | TerminalNoop | RejectStale

  datatype ReservationStatus = Held | Settled | Released

  datatype ReservationAction = NoChange | KeepHeld | Release | SettleVerified

  datatype ApprovalStatus =
    NotRequired | Pending | Approved | Rejected | Expired | Revoked | Superseded | Withdrawn | Conflict

  datatype Risk = Low | High

  datatype GovernanceStatus =
    | AllowedToAdmission
    | OriginalSnapshotMismatch
    | OriginalToolNotVisible
    | CurrentPermissionRevoked
    | CurrentRegistryBlocked
    | SchemaBindingMismatch

  datatype EventType =
    Publish | ApprovalRequested | EscalationAlert | ReconciliationQuery | RecoveryIntent(decision: RecoveryDecision)
      | OtherType(name: string)

  datatype Prefix = HumanPrefix | DispatchPrefix | SettlementPrefix | EscalationPrefix | RecoveryPrefix

  /** Every identifier the system derives: plain text, a prefixed identifier, the
      digest that names an outbox event, or the digest that names a checkpoint. */
  datatype Identifier =
    | Text(text: string)
    | Prefixed(prefix: Prefix, id: Identifier)
    | ControlEvent(action: ActionBinding, requestId: string, outbox: EventType, commandId: Option<Identifier>)
    | RecoveryCheckpoint(previous: Identifier, version: nat, recoveryId: Identifier)

  predicate Blank(id: Identifier) {
    id.Text? && |id.text| == 0
  }

  datatype ExecutionBindings = ExecutionBindings(
    controllerRelease: string, promptBinding: string, providerBinding: string, toolBinding: string,
    policyBinding: string)

  datatype Checkpoint = Checkpoint(
    tenantId: string, jobId: string, stepId: string, attemptId: string,
    checkpointId: Identifier, checkpointVersion: nat, authoritativeState: AgentState,
    stateVersion: nat, fenceToken: nat, leaseGeneration: nat, bindings: ExecutionBindings,
    progressFingerprint: string, observationIds: seq<string>, reservationIds: seq<string>,
    pendingReconciliationIds: seq<string>, previousId: Option<Identifier>)

  datatype Reservation = Reservation(
    reservationId: string, attemptId: string, reserved: nat,
    status: ReservationStatus, settled: Option<nat>, released: nat)

  datatype OutboxIntent = OutboxIntent(
    eventId: Identifier, jobId: string, stepId: string, attemptId: string, eventType: EventType,
    publishedAt: Option<int>)

  datatype RecoveryOperation = RecoveryOperation(
    recoveryId: Identifier, sourceAttemptId: string, generation: int, attemptsUsed: int,
    attemptLimit: int, deadline: int, lastEvidence: Option<EvidenceRef>)

  datatype EvidenceRef = EvidenceName(name: string) | EvidenceDigest(items: seq<Evidence>)

  datatype Job = Job(
    tenantId: string, jobId: string, stepId: string, attemptId: string,
    state: AgentState, stateVersion: nat, fenceToken: nat,
    leaseOwner: Option<string>, leaseExpiry: Option<int>, leaseGeneration: nat,
    checkpoint: Checkpoint, reservations: seq<Reservation>,
    recoveries: seq<RecoveryOperation>, outbox: seq<OutboxIntent>, audit: seq<AuditEvent>)

  /** One member of a tool call's arguments: a text, or any other JSON value by its canonical text. */
  datatype Argument = TextArgument(text: string) | OtherArgument(canonical: string)

  /** The parsed arguments of a tool call; the canonical text that is hashed is determined by them. */
  type Arguments = map<string, Argument>

  datatype ActionBinding = ActionBinding(
    tenantId: string, jobId: string, stepId: string, attemptId: string, operationId: string,
    actionType: string, toolName: string, toolVersion: string, argumentsFingerprint: Digest<Arguments>,
    artifactId: string, artifactVersion: string, requesterId: string, policyId: string,
    policyVersion: string, risk: Risk, executionBinding: Digest<ExecutionBindings>)

  datatype ApprovalRequest = ApprovalRequest(
    requestId: string, binding: ActionBinding, requestedAt: int, respondBy: int, expiresAt: int,
    eligibleRoles: seq<string>, separationRequired: bool, issuedStateVersion: int, issuedFence: int,
    supersedes: Option<string>)

  datatype ApprovalDecision = ApprovalDecision(
    decisionId: string, requestId: string, bindingFingerprint: Digest<ActionBinding>,
    actorId: string, tenantId: string, choice: ApprovalStatus, decidedAt: int, reasonCode: string)

  datatype EscalationReason =
    | DecisionIdentityConflict
    | SettlementConflict
    | SettlementReservationConflict
    | BoundedRecoveryExhausted
    | ApprovalPolicyUnavailable
    | ConflictingHumanDecision
    | ApprovalOverdue

  datatype Status =
    | InvalidFacts | ControlNotAuthorized | ExecutionBindingMismatch
    | ResultIdentityMismatch | StaleResultEvidence | ResultEvidence
    | InvalidDecision | ApproverNotAuthorized | DuplicateDecision | StaleCommand
    | RecoveryNotAuthorized | UsageEvidenceRequired | InvalidVerifiedUsage
    | SettlementAlreadyRecorded | NoExternalOperationToReconcile
    | ReconcileQuery | SettleUsage | RecoveryNoNewBusinessExecution
    | NoCancellationRequest | CancellationObserved
    | InterruptNotAuthorized | DuplicateInterrupt | InterruptedPreDispatch | InterruptedPostDispatch
    | InvalidLifecycleChange | ApprovalIs(approval: ApprovalStatus)
    | AlreadyTerminal | InterruptBlocked | ApprovalBindingMismatch | PolicyQuarantined
    | PolicyUnavailable | PolicyBindingMismatch | RiskPolicyConflict
    | DecisionBindingMismatch | DecisionTimeInvalid | ApproverPolicyRejected | DecisionRecorded
    | AuthorizationRevoked | ToolGovernanceBlocked | BusinessValidationFailed | ToolAdmissionBlocked
    | BudgetBlocked | AlreadyDispatchClaimed | ExternalOperationAlreadyPossible | ReservationNotHeld
    | ApprovalEvidenceMissing | CurrentApproverInvalid | ExecutionCandidate
    | InvalidEscalationDeadline | Escalated(reason: EscalationReason)

  datatype Evidence =
    | FailClosed | OriginalIdentityEvidence | EvidenceId(id: Option<string>)
    | DuplicateNoBusinessEffect | DecisionDigest(decision: ApprovalDecision) | ReloadCurrentFacts
    | SettledUsageNotRewritten | OriginalIdentityPreserved | VerifiedUsage
    | WorkerObservedNotExternalAbsence | InterruptIsNotExternalAbsence | ApprovalHistoryPreserved
    | TerminalNotReopened | NewRequestRequired | NoSilentRenewal | OldBindingPreserved
    | PolicyWaitDeadlineExceeded | OriginalDecisionPreserved | HumanDecisionNotDispatch
    | CurrentGuardsPassed | OwnerUnavailable
    | ReloadAuthoritativeRecord | ApplyWouldAffectZeroRows | OperatorFollowUpRequired
    | OriginalAttemptIdentityPreserved | UnknownUsageIsNotZero | AppendOnlyRepairAudit
    | VerifiedEffectRemains | SourceAttemptNotRewritten | VerifiedUsageEvidence
    | TerminalHistoryPreserved | OldBindingNotRewritten | NewAttemptIdentityRequired
    | ImmutableBindingsPreserved

  datatype AuditEvent =
    | RecoveryApplied(recoveryId: Identifier)
    | LeaseTakenOver(workerId: string)
    | ResultSeen(evidenceId: string)
    | ControlStatus(status: Status)
    | ControlEvidence(evidence: Evidence)
    | DispatchClaimed
    | OtherAudit(text: string)
}
