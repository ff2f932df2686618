/** Who is heard, who may execute, and what is answered, with every requirement spelled out. */
module HumanControlAnswers {
  import opened Common
  import opened Records
  import opened HumanControl
  import opened HumanControlStore
  import opened HumanControlGuards
  import opened HumanControlEffects

  // ---------------------------------------------------------------- people

  ghost predicate May(p: Principal, tenant: string, permission: string) {
    p.authenticated && p.tenantId == tenant && exists k :: 0 <= k < |p.permissions| && p.permissions[k] == permission
  }

  /** The executor is the requester, authenticated in the tenant, and permitted this type of action. */
  ghost predicate ExecutorIs(s: Snapshot, f: Facts) {
    May(f.executor, s.action.tenantId, s.action.actionType) && f.executor.actorId == s.action.requesterId
  }

  /** The recorded approval is of this action and request, and its author is the current
      approver, still permitted, in an eligible role, and separate where that is required. */
  ghost predicate ApprovalStands(s: Snapshot, f: Facts) {
    && s.approval.Approved? && |s.decisions| > 0
    && var d := s.decisions[0];
       && d.choice.Approved? && d.bindingFingerprint == Of(s.action) && d.requestId == s.request.requestId
       && d.actorId == f.approver.actorId && May(f.approver, s.action.tenantId, "approve")
       && f.approver.role in s.request.eligibleRoles
       && (s.request.separationRequired ==> f.approver.actorId != s.action.requesterId)
  }

  ghost predicate Holds(s: Snapshot) {
    exists r :: r in s.job.reservations && r.attemptId == s.action.attemptId && r.status.Held?
  }

  /** A candidate says whom and what it was computed for. */
  lemma CandidateSays(s: Snapshot, cmd: Command, f: Facts, now: int)
    ensures var c := DecideControl(s, cmd, f, now);
      && c.snapshot == Of(s) && c.command == cmd && (c.authorised <==> ExecutorIs(s, f))
      && (c.separated <==> (s.request.separationRequired ==> f.approver.actorId != s.action.requesterId))
  {
  }

  // ---------------------------------------------------------------- messages that are not heard

  ghost predicate Texts(a: ActionBinding) {
    && "" !in {a.tenantId, a.jobId, a.stepId, a.attemptId, a.operationId, a.actionType, a.toolName, a.toolVersion}
    && "" !in {a.artifactId, a.artifactVersion, a.requesterId, a.policyId, a.policyVersion}
    && a.argumentsFingerprint != Raw("") && a.executionBinding != Raw("")
  }

  /** The command, the clock, the request and the action are all usable. */
  ghost predicate Usable(s: Snapshot, cmd: Command, now: int) {
    && cmd.commandId != Text("") && 0 <= now && s.request.requestId != "" && Texts(s.action)
    && 0 <= s.request.requestedAt && s.request.requestedAt <= s.request.respondBy
       && s.request.respondBy <= s.request.expiresAt
  }

  /** The job is the action's own, under the execution bindings that the action names. */
  ghost predicate OwnJob(s: Snapshot) {
    && s.job.tenantId == s.action.tenantId && s.job.jobId == s.action.jobId && s.job.stepId == s.action.stepId
    && s.job.attemptId == s.action.attemptId && s.action.executionBinding == Of(s.job.checkpoint.bindings)
  }

  lemma UsableExactly(s: Snapshot, cmd: Command, now: int)
    ensures InputsUsable(s, cmd, now) <==> Usable(s, cmd, now)
  {
    assert Blank(cmd.commandId) <==> cmd.commandId == Text("");
  }

  lemma PermittedExactly(p: Principal, tenant: string, permission: string)
    ensures Permitted(p, tenant, permission) <==> May(p, tenant, permission)
  {
  }

  lemma BoundExactly(s: Snapshot)
    ensures BindsJob(s) <==> OwnJob(s)
  {
  }

  lemma HeededExactly(s: Snapshot, cmd: Command, now: int)
    ensures Heeded(s, cmd, now) <==> Usable(s, cmd, now) && May(cmd.actor, s.action.tenantId, "control") && OwnJob(s)
  {
    UsableExactly(s, cmd, now);
    PermittedExactly(cmd.actor, s.action.tenantId, CONTROL);
    BoundExactly(s);
  }

  /** Unusable input, an actor without control of the tenant, or a job that is not the action's
      changes nothing but the audit, and says which it was. */
  lemma UnheededChangesNothing(s: Snapshot, cmd: Command, f: Facts, now: int)
    requires !Usable(s, cmd, now) || !May(cmd.actor, s.action.tenantId, "control") || !OwnJob(s)
    ensures OnlyShows(s, After(s, cmd, f, now),
      if !Usable(s, cmd, now) then InvalidFacts
      else if !May(cmd.actor, s.action.tenantId, "control") then ControlNotAuthorized
      else ExecutionBindingMismatch)
  {
    UsableExactly(s, cmd, now);
    PermittedExactly(cmd.actor, s.action.tenantId, CONTROL);
    BoundExactly(s);
    UnheededAfter(s, cmd, f, now);
  }

  ghost predicate OnlyShows(s: Snapshot, s': Snapshot, status: Status) {
    && SameBusiness(s, s') && s'.job.stateVersion == s.job.stateVersion && |s'.job.audit| > |s.job.audit|
    && s'.job.audit[|s.job.audit|] == ControlStatus(status)
  }

  lemma UnheededAfter(s: Snapshot, cmd: Command, f: Facts, now: int)
    requires !Heeded(s, cmd, now)
    ensures OnlyShows(s, After(s, cmd, f, now),
      if !InputsUsable(s, cmd, now) then InvalidFacts
      else if !Permitted(cmd.actor, s.action.tenantId, CONTROL) then ControlNotAuthorized
      else ExecutionBindingMismatch)
  {
    UnheededVerdict(s, cmd, f, now);
    AfterIs(s, cmd, f, now);
    AuditShows(s, cmd, DecideVerdict(s, cmd, f, now));
  }

  lemma UnheededVerdict(s: Snapshot, cmd: Command, f: Facts, now: int)
    requires !Heeded(s, cmd, now)
    ensures DecideVerdict(s, cmd, f, now).status ==
      if !InputsUsable(s, cmd, now) then InvalidFacts
      else if !Permitted(cmd.actor, s.action.tenantId, CONTROL) then ControlNotAuthorized
      else ExecutionBindingMismatch
  {
  }

  /** What is only audited shows its status and changes no business content. */
  lemma AuditShows(s: Snapshot, cmd: Command, v: Verdict)
    ensures OnlyShows(s, Audited(s, cmd, v), v.status)
  {
  }

  ghost predicate UpToDate(s: Snapshot, cmd: Command) {
    && cmd.expectedState == s.job.state && cmd.expectedStateVersion == s.job.stateVersion
    && cmd.expectedFence == s.job.fenceToken
  }

  /** A command that expects another state, version or fence changes nothing, unless it retells a
      recorded decision. */
  lemma StaleChangesNothing(s: Snapshot, cmd: Command, f: Facts, now: int)
    requires Heeded(s, cmd, now) && !UpToDate(s, cmd) && !Retold(s, cmd, f)
    ensures SameBusiness(s, After(s, cmd, f, now)) && After(s, cmd, f, now).job.stateVersion == s.job.stateVersion
  {
    AfterIs(s, cmd, f, now);
    assert !Current(s, cmd);
    if cmd.operation.Decide? && DecisionIdentity(s, cmd, f, now).Some? {
      KnownDecisionIsQuiet(s, cmd, f, now);
    }
  }

  lemma KnownDecisionIsQuiet(s: Snapshot, cmd: Command, f: Facts, now: int)
    requires cmd.operation.Decide? && DecisionIdentity(s, cmd, f, now).Some? && !Retold(s, cmd, f)
    ensures var v := DecisionIdentity(s, cmd, f, now).value;
      v.status.InvalidDecision? || v.status.ApproverNotAuthorized? || v.status.DuplicateDecision?
  {
  }

  /** What apply answers before it looks at the verdict. */
  lemma KnownCommandsAnswered(s: Snapshot, commands: Commands, c: Candidate, f: Facts, now: int, fail: bool)
    ensures var o := Verify(s, commands, c, f, now, fail);
      var known := c.command.commandId in commands;
      && (o.DuplicateCommand? <==> known && commands[c.command.commandId] == c.command)
      && (o.CommandIdentityConflict? <==> known && commands[c.command.commandId] != c.command)
      && (o.StaleCandidate? <==> !known && c.snapshot != Of(s))
      && (o.CurrentFactsChanged? <==> !known && c.snapshot == Of(s) && c != DecideControl(s, c.command, f, now))
      && (o.InjectedBeforeCommit? ==> fail) && (Accepted(o) ==> !fail)
  {
  }

  // ---------------------------------------------------------------- execution

  /** Everything that must hold for the action to be executed, spelled out. */
  ghost predicate MayExecute(s: Snapshot, f: Facts, now: int) {
    && s.job.state !in {Completed, Terminated, Failed, Cancelled}
    && (s.interruptId == None || s.interruptId == Some(Text("")))
    && s.approval !in {Rejected, Expired, Revoked, Superseded, Withdrawn, Conflict} && s.request.binding == s.action
    && !s.dispatchStarted && f.certainty.DefinitelyNotDispatched? && Holds(s) && ExecutorIs(s, f)
    && f.governance.AllowedToAdmission? && f.businessValid && f.admissionAllowed && f.budgetAllowed
    && f.policyAvailable && !f.policyQuarantined && f.policyId == s.action.policyId
    && f.policyVersion == s.action.policyVersion && (s.action.risk.High? ==> f.approvalRequired)
    && (f.approvalRequired ==> now < s.request.expiresAt && ApprovalStands(s, f))
  }

  lemma OpenExactly(s: Snapshot, f: Facts, now: int)
    ensures GateOpen(s, f, now) <==> MayExecute(s, f, now)
  {
    assert HoldsReservation(s) <==> Holds(s);
    assert ExecutorAuthorised(s, f) <==> ExecutorIs(s, f);
    assert Interrupted(s) <==> !(s.interruptId == None || s.interruptId == Some(Text("")));
  }

  /** A worker is granted the effect exactly for a published event that was not claimed, at the
      current fence, under a lease of its own that still runs, when the action may be executed now. */
  lemma ClaimsExactly(s: Snapshot, id: Identifier, worker: Principal, fence: int, f: Facts, now: int)
    ensures MayClaim(s, id, worker, fence, f, now) <==>
      && (exists i :: 0 <= i < |s.job.outbox| && s.job.outbox[i].eventId == id && s.job.outbox[i].eventType == Publish)
      && id !in s.claimedEvents && fence == s.job.fenceToken && s.job.leaseOwner == Some(worker.actorId)
      && s.job.leaseExpiry.Some? && now < s.job.leaseExpiry.value && May(worker, s.action.tenantId, "control")
      && Usable(s, DispatchCheck(s, id, worker, fence), now) && OwnJob(s) && MayExecute(s, f, now)
  {
    var check := DispatchCheck(s, id, worker, fence);
    GateIsOpen(s, check, f, now);
    HeededExactly(s, check, now);
    OpenExactly(s, f, now);
  }

  /** A claim marks the dispatch and its event, links a checkpoint, and moves nothing else. */
  lemma ClaimMarks(s: Snapshot, id: Identifier)
    ensures var s' := Claimed(s, id);
      && s'.dispatchStarted && s'.claimedEvents == s.claimedEvents + [id]
      && s'.history == s.history + [s.job.checkpoint]
      && s'.job.stateVersion == s.job.stateVersion + 1 && s'.job.audit == s.job.audit + [AuditEvent.DispatchClaimed]
      && s'.job.checkpoint.checkpointId == Prefixed(DispatchPrefix, id)
      && s'.job.checkpoint.previousId == Some(s.job.checkpoint.checkpointId)
      && s'.job.state == s.job.state && s'.job.fenceToken == s.job.fenceToken && s'.job.outbox == s.job.outbox
      && s'.job.reservations == s.job.reservations && s'.job.leaseOwner == s.job.leaseOwner
      && s'.job.leaseExpiry == s.job.leaseExpiry && s'.approval == s.approval && s'.decisions == s.decisions
      && s'.interruptId == s.interruptId && s'.escalations == s.escalations
  {
  }

  /** The answer of a gate that reaches the executor's checks: the first that fails. */
  ghost function GateAnswer(s: Snapshot, f: Facts, now: int): Status {
    if !ExecutorIs(s, f) then AuthorizationRevoked
    else if !f.governance.AllowedToAdmission? then ToolGovernanceBlocked
    else if !f.businessValid then BusinessValidationFailed
    else if !f.admissionAllowed then ToolAdmissionBlocked
    else if !f.budgetAllowed then BudgetBlocked
    else if s.dispatchStarted then AlreadyDispatchClaimed
    else if !f.certainty.DefinitelyNotDispatched? then ExternalOperationAlreadyPossible
    else if !Holds(s) then ReservationNotHeld
    else if f.approvalRequired && !s.approval.Approved? then
      if now < s.request.respondBy then ApprovalIs(Pending)
      else if now < f.escalationDeadline then Escalated(ApprovalOverdue) else InvalidEscalationDeadline
    else if f.approvalRequired && s.decisions == [] then ApprovalEvidenceMissing
    else if f.approvalRequired && !ApprovalStands(s, f) then CurrentApproverInvalid
    else ExecutionCandidate
  }

  lemma GateAnswersExactly(s: Snapshot, cmd: Command, f: Facts, now: int)
    requires AtGate(s, cmd, f, now)
    ensures DecideVerdict(s, cmd, f, now).status == GateAnswer(s, f, now)
  {
    GateVerdictIs(s, cmd, f, now);
    GateStatusIs(s, cmd, f, now);
  }

  lemma GateStatusIs(s: Snapshot, cmd: Command, f: Facts, now: int)
    ensures DecideGate(s, cmd, f, now).status == GateAnswer(s, f, now)
  {
    assert HoldsReservation(s) <==> Holds(s);
    PermittedExactly(f.executor, s.action.tenantId, s.action.actionType);
    PermittedExactly(f.approver, s.action.tenantId, APPROVE);
  }

  /** The answer of the guards before them: the first that fails. */
  ghost function GuardAnswer(s: Snapshot, f: Facts, now: int): Option<Status> {
    if s.job.state in {Completed, Terminated, Failed, Cancelled} then Some(AlreadyTerminal)
    else if s.interruptId.Some? && s.interruptId != Some(Text("")) then Some(InterruptBlocked)
    else if s.approval in {Rejected, Expired, Revoked, Superseded, Withdrawn, Conflict}
      then Some(ApprovalIs(s.approval))
    else if s.request.binding != s.action then Some(ApprovalBindingMismatch)
    else if f.approvalRequired && s.request.expiresAt <= now then Some(ApprovalIs(Expired))
    else if f.policyQuarantined then Some(PolicyQuarantined)
    else if !f.policyAvailable then
      if now < f.policyWaitDeadline then Some(PolicyUnavailable)
      else if now < f.escalationDeadline then Some(Escalated(ApprovalPolicyUnavailable))
        else Some(InvalidEscalationDeadline)
    else if f.policyId != s.action.policyId || f.policyVersion != s.action.policyVersion
      then Some(PolicyBindingMismatch)
    else if s.action.risk.High? && !f.approvalRequired then Some(RiskPolicyConflict)
    else None
  }

  lemma GuardAnswersExactly(s: Snapshot, cmd: Command, f: Facts, now: int)
    requires Heeded(s, cmd, now) && Current(s, cmd) && Asks(s, cmd, f) && GuardAnswer(s, f, now).Some?
    ensures DecideVerdict(s, cmd, f, now).status == GuardAnswer(s, f, now).value
  {
    if cmd.operation.Decide? { CallbackPassesIff(s, cmd, f, now); }
    GuardIs(s, cmd, f, now);
  }

  lemma GuardIs(s: Snapshot, cmd: Command, f: Facts, now: int)
    ensures Guarded(s, cmd, f, now).Some? <==> GuardAnswer(s, f, now).Some?
    ensures Guarded(s, cmd, f, now).Some? ==> Guarded(s, cmd, f, now).value.status == GuardAnswer(s, f, now).value
  {
    assert Interrupted(s) <==> s.interruptId.Some? && s.interruptId != Some(Text(""));
    if Terminal(s.job.state) || Interrupted(s) || Barred(s.approval) {
      StoppedGuardIs(s, cmd, f, now);
    } else {
      PolicyGuardIs(s, cmd, f, now);
    }
  }

  lemma StoppedGuardIs(s: Snapshot, cmd: Command, f: Facts, now: int)
    requires Terminal(s.job.state) || Interrupted(s) || Barred(s.approval)
    ensures Guarded(s, cmd, f, now).Some? && GuardAnswer(s, f, now) == Some(Guarded(s, cmd, f, now).value.status)
  {
    assert Interrupted(s) <==> s.interruptId.Some? && s.interruptId != Some(Text(""));
  }

  lemma PolicyGuardIs(s: Snapshot, cmd: Command, f: Facts, now: int)
    requires !Terminal(s.job.state) && !Interrupted(s) && !Barred(s.approval)
    ensures Guarded(s, cmd, f, now).Some? <==> GuardAnswer(s, f, now).Some?
    ensures Guarded(s, cmd, f, now).Some? ==> Guarded(s, cmd, f, now).value.status == GuardAnswer(s, f, now).value
  {
    assert Interrupted(s) <==> s.interruptId.Some? && s.interruptId != Some(Text(""));
  }
}
