/** The agent-to-MCP orchestrator: gates, durable claim, transport, candidate pipeline and
    commit, for any behaviour of the transport. */
module Orchestrator {
  import opened Common
  import Records
  import opened RemoteEvidence
  import DispatchStore

  // ---------------------------------------------------------------- proposal and identity

  datatype ToolProposal = ToolProposal(toolName: string, toolVersion: string, arguments: Records.Arguments)

  datatype VisibleTool = VisibleTool(name: string, version: string, schemaDigest: string)

  datatype CapabilitySnapshot = CapabilitySnapshot(snapshotId: string, tenantId: string, visibleTools: seq<VisibleTool>)

  datatype ToolCandidate = ToolCandidate(
    snapshotId: string, tenantId: string, toolName: string, toolVersion: string, schemaDigest: string,
    arguments: Records.Arguments)

  function FindTool(tools: seq<VisibleTool>, name: string, version: string): (t: Option<VisibleTool>)
    ensures t.Some? ==> t.value in tools && t.value.name == name && t.value.version == version
    ensures t.None? ==> forall v :: v in tools ==> v.name != name || v.version != version
  {
    if tools == [] then None
    else if tools[0].name == name && tools[0].version == version then Some(tools[0])
    else FindTool(tools[1..], name, version)
  }

  function Bind(p: ToolProposal, s: CapabilitySnapshot): Option<ToolCandidate> {
    var tool := FindTool(s.visibleTools, p.toolName, p.toolVersion);
    if tool.None? then None
    else Some(ToolCandidate(s.snapshotId, s.tenantId, tool.value.name, tool.value.version, tool.value.schemaDigest,
      p.arguments))
  }

  datatype Identity = Identity(operationId: string, idempotencyKey: string, tenantId: string, resourceId: string)

  /** What the identity record's constructor accepts. */
  predicate Complete(i: Identity) {
    i.operationId != "" && i.idempotencyKey != "" && i.tenantId != "" && i.resourceId != ""
  }

  predicate ProposesResource(arguments: Records.Arguments, resource: string) {
    "resource_id" in arguments && arguments["resource_id"] == Records.TextArgument(resource)
  }

  predicate Prepared(i: Identity, c: ToolCandidate) {
    c.tenantId == i.tenantId && ProposesResource(c.arguments, i.resourceId)
  }

  // ---------------------------------------------------------------- access

  datatype Permit = Permit(operationId: string, idempotencyKey: string, tenantId: string, toolName: string,
    resourceId: Option<string>)

  datatype Authorization = Authorization(authorized: bool, permit: Option<Permit>)

  datatype AccessOutcome =
    ReadyForPreflight | HumanCheckpointBlocked | ApprovalBindingConflict | CurrentAuthorizationBlocked
      | PermitBindingConflict

  predicate ApprovalBinds(i: Identity, c: ToolCandidate, request: Records.ApprovalRequest,
    d: Records.ApprovalDecision) {
    var action := request.binding;
    && action.operationId == i.operationId && action.tenantId == i.tenantId && action.artifactId == i.resourceId
    && action.toolName == c.toolName && action.toolVersion == c.toolVersion
    && action.argumentsFingerprint == Of(c.arguments)
    && d.requestId == request.requestId && d.bindingFingerprint == Of(action) && d.tenantId == i.tenantId
  }

  predicate PermitBinds(i: Identity, c: ToolCandidate, p: Permit) {
    && p.operationId == i.operationId && p.idempotencyKey == i.idempotencyKey && p.tenantId == i.tenantId
    && p.resourceId == Some(i.resourceId) && p.toolName == c.toolName
  }

  function Access(i: Identity, c: ToolCandidate, status: Records.ApprovalStatus, request: Records.ApprovalRequest,
                  d: Option<Records.ApprovalDecision>, a: Option<Authorization>, now: int): AccessOutcome
  {
    if !status.Approved? || d.None? || !d.value.choice.Approved? || now >= request.expiresAt then HumanCheckpointBlocked
    else if !ApprovalBinds(i, c, request, d.value) then ApprovalBindingConflict
    else if a.None? || !a.value.authorized || a.value.permit.None? then CurrentAuthorizationBlocked
    else if !PermitBinds(i, c, a.value.permit.value) then PermitBindingConflict
    else ReadyForPreflight
  }

  // ---------------------------------------------------------------- preflight

  /** The state text of a guard, as the record state it names if it names one. */
  datatype StateText = Named(state: DispatchStore.RecordState) | Unnamed(text: string)

  datatype Guard = Guard(
    operationId: string, idempotencyKey: string, expectedState: StateText, currentState: StateText,
    expectedVersion: nat,
    currentVersion: nat, expectedFence: nat, currentFence: nat, callerIntentActive: bool, cancelled: bool)

  datatype DeadlineBudget = DeadlineBudget(deadline: real, cleanupReserve: real) {
    function Remaining(now: real): real {
      if deadline - now - cleanupReserve > 0.0 then deadline - now - cleanupReserve else 0.0
    }
  }

  datatype PreflightOutcome =
    | ReadyForClaim | AttemptIdentityConflict | OwnershipStale | IntentInactive | DeadlineGone | NegotiationIncompatible
    | GenerationMismatch | VersionedPermitRejected | CapacityRefused | CircuitIsOpen

  datatype Request = Request(
    proposal: ToolProposal, capabilities: CapabilitySnapshot, identity: Identity,
    approvalStatus: Records.ApprovalStatus,
    approvalRequest: Records.ApprovalRequest, approvalDecision: Option<Records.ApprovalDecision>,
    authorization: Option<Authorization>, guard: Guard, attempt: RemoteRequestBinding, deadline: DeadlineBudget,
    now: real,
    negotiated: bool, negotiatedGeneration: int, versionedPermitAdmitted: bool, capacityAdmitted: bool,
    circuitAllows: bool)

  function Preflight(r: Request): PreflightOutcome {
    var g, i, a := r.guard, r.identity, r.attempt;
    if g.operationId != i.operationId || g.idempotencyKey != i.idempotencyKey || a.operationId != i.operationId
       || a.idempotencyKey != i.idempotencyKey then AttemptIdentityConflict
    else if g.expectedState != g.currentState || g.expectedVersion != g.currentVersion
      || g.expectedFence != g.currentFence
      then OwnershipStale
    else if !g.callerIntentActive || g.cancelled then IntentInactive
    else if r.deadline.Remaining(r.now) <= 0.0 then DeadlineGone
    else if !r.negotiated then NegotiationIncompatible
    else if a.key.generation != r.negotiatedGeneration then GenerationMismatch
    else if !r.versionedPermitAdmitted then VersionedPermitRejected
    else if !r.capacityAdmitted then CapacityRefused
    else if !r.circuitAllows then CircuitIsOpen
    else ReadyForClaim
  }

  function ClaimOf(r: Request, c: ToolCandidate, state: DispatchStore.RecordState): DispatchStore.ClaimRequest {
    DispatchStore.ClaimRequest(
      true, DispatchStore.AttemptPlan(r.attempt.operationId, r.attempt.idempotencyKey, r.attempt.key.requestId,
                                      r.attempt.attemptNumber, 0.0, Some(r.attempt.key.generation)),
      r.guard.currentVersion, state, Some(r.guard.currentFence), Some(r.guard.currentFence + 1),
      Some(r.identity.tenantId), Some(r.identity.resourceId), Some(c.toolName))
  }

  // ---------------------------------------------------------------- transport and candidate

  datatype Observation = Observation(isResult: bool, requestId: Option<RequestId>, operationId: Option<string>)

  datatype ToolResult = ToolResult(operationId: string, tenantId: string, resourceId: string, toolName: string,
    externalId: string)

  /** Everything the transport can do: answer, report an unknown outcome, or fail otherwise. */
  datatype Transport =
    | Exchanged(correlation: Correlation, observation: Observation, result: ToolResult, calls: nat)
    | UnknownOutcome(evidence: FailureEvidence, calls: nat)
    | Crashed

  datatype CandidateOutcome = CorrelationRejected | ProtocolRejected | OutputRejected | ProposalReady

  function Evaluate(i: Identity, tool: string, attempt: RemoteRequestBinding, correlation: Correlation, o: Observation,
                    t: ToolResult): CandidateOutcome
  {
    if !correlation.outcome.Matched? || correlation.binding != Some(attempt) || attempt.operationId != i.operationId
       || attempt.idempotencyKey != i.idempotencyKey then CandidateOutcome.CorrelationRejected
    else if !o.isResult || o.requestId != Some(attempt.key.requestId) || o.operationId != Some(i.operationId)
      then ProtocolRejected
    else if t.operationId != i.operationId || t.tenantId != i.tenantId || t.resourceId != i.resourceId
      || t.toolName != tool
            || t.externalId == "" then OutputRejected
    else ProposalReady
  }

  function ProposalOf(r: Request, tool: string, t: ToolResult): DispatchStore.Proposal {
    DispatchStore.Proposal(
      r.identity.operationId, r.identity.idempotencyKey, r.identity.tenantId, r.identity.resourceId, tool,
      r.attempt.attemptNumber, r.attempt.key.requestId, r.attempt.key.generation, t.externalId)
  }

  // ---------------------------------------------------------------- the run

  datatype Outcome =
    | ProposalBlocked | IdentityBlocked | AccessBlocked(access: AccessOutcome)
      | PreflightBlocked(preflight: PreflightOutcome)
    | ClaimBlocked(claim: DispatchStore.ClaimOutcome) | PendingReconciliation(evidence: FailureEvidence)
    | CandidateBlocked(candidate: CandidateOutcome) | CommitBlocked(commit: DispatchStore.CommitOutcome)
    | Succeeded(operationId: string, resourceId: string, externalId: string, durableVersion: nat)

  datatype RunError = UnknownGuardState | EvidenceBindingMismatch | TransportCrashed | IncompleteSuccess

  /** invoked says whether the transport was called at all; calls is what it reported. */
  datatype Report = Report(invoked: bool, calls: nat, outcome: Result<Outcome, RunError>)

  function Truncate(x: real): int {
    if x >= 0.0 then x.Floor else -((-x).Floor)
  }

  /** The gates before the durable claim; Ok carries the bound candidate and the state it expects. */
  function Gates(r: Request): Result<(ToolCandidate, DispatchStore.RecordState), Result<Outcome, RunError>> {
    var bound := Bind(r.proposal, r.capabilities);
    if bound.None? then Raised(Ok(ProposalBlocked)) else
    var c := bound.value;
    if !Prepared(r.identity, c) then Raised(Ok(IdentityBlocked)) else
    var access := Access(r.identity, c, r.approvalStatus, r.approvalRequest, r.approvalDecision, r.authorization,
      Truncate(r.now));
    if !access.ReadyForPreflight? then Raised(Ok(AccessBlocked(access))) else
    var preflight := Preflight(r);
    if !preflight.ReadyForClaim? then Raised(Ok(PreflightBlocked(preflight)))
    else if r.guard.currentState.Unnamed? then Raised(Raised(UnknownGuardState))
    else Ok((c, r.guard.currentState.state))
  }

  predicate EvidenceBinds(r: Request, e: FailureEvidence) {
    && e.operationId == r.identity.operationId && e.idempotencyKey == r.identity.idempotencyKey
    && e.requestId == Some(r.attempt.key.requestId) && e.attemptNumber == r.attempt.attemptNumber
  }

  function SuccessOf(record: DispatchStore.DispatchRecord): Result<Outcome, RunError> {
    if record.externalId.None? || record.operationId == "" || !Truthy(record.resourceId)
      || record.externalId.value == ""
       || record.version < 1 then Raised(IncompleteSuccess)
    else Ok(Succeeded(record.operationId, record.resourceId.value, record.externalId.value, record.version))
  }

  /** AgentMCPOrchestrator.run. */
  class AgentOrchestrator {
    const store: DispatchStore.Store

    constructor (store: DispatchStore.Store)
      ensures this.store == store
    {
      this.store := store;
    }

    method Run(r: Request, transport: Transport) returns (report: Report)
      modifies store
      ensures (store.records, report) == Orchestrate(old(store.records), r, transport)
    {
      var gates := Gates(r);
      if gates.Raised? {
        return Report(false, 0, gates.error);
      }
      var (candidate, expected) := gates.value;
      var outcome, claimed := store.ClaimDispatch(ClaimOf(r, candidate, expected));
      if !outcome.Claimed? || claimed.None? {
        return Report(false, 0, Ok(ClaimBlocked(outcome)));
      }
      match transport {
        case Crashed =>
          return Report(true, 0, Raised(TransportCrashed));
        case UnknownOutcome(evidence, calls) =>
          if !EvidenceBinds(r, evidence) {
            return Report(true, calls, Raised(EvidenceBindingMismatch));
          }
          return Report(true, calls, Ok(Outcome.PendingReconciliation(evidence)));
        case Exchanged(correlation, observation, result, calls) =>
          var evaluated := Evaluate(r.identity, candidate.toolName, r.attempt, correlation, observation, result);
          if !evaluated.ProposalReady? {
            return Report(true, calls, Ok(CandidateBlocked(evaluated)));
          }
          var commit, record := store.Commit(
            Some(ProposalOf(r, candidate.toolName, result)), DispatchStore.RecordState.DispatchStarted,
            claimed.value.version, claimed.value.fence);
          if commit.Committed? || commit.AlreadyCommitted? {
            return Report(true, calls, if record.None? then Raised(IncompleteSuccess) else SuccessOf(record.value));
          }
          return Report(true, calls, Ok(CommitBlocked(commit)));
      }
    }
  }

  /** The same run on the value of the store, with no other writer. */
  function Orchestrate(t: DispatchStore.Table, r: Request, transport: Transport): (DispatchStore.Table, Report) {
    var gates := Gates(r);
    if gates.Raised? then (t, Report(false, 0, gates.error)) else
    var (candidate, expected) := gates.value;
    var claim := ClaimOf(r, candidate, expected);
    var guard := DispatchStore.ClaimGuard(t, claim);
    if !guard.Claimed? then (t, Report(false, 0, Ok(ClaimBlocked(guard)))) else
    var started := DispatchStore.Started(t[claim.attempt.operationId], claim);
    var t' := t[claim.attempt.operationId := started];
    match transport
    case Crashed => (t', Report(true, 0, Raised(TransportCrashed)))
    case UnknownOutcome(evidence, calls) =>
      (t', Report(true, calls, if EvidenceBinds(r, evidence) then Ok(Outcome.PendingReconciliation(evidence))
        else Raised(EvidenceBindingMismatch)))
    case Exchanged(correlation, observation, result, calls) =>
      var evaluated := Evaluate(r.identity, candidate.toolName, r.attempt, correlation, observation, result);
      if !evaluated.ProposalReady? then (t', Report(true, calls, Ok(CandidateBlocked(evaluated)))) else
      var p := ProposalOf(r, candidate.toolName, result);
      var k := DispatchStore.Ticket(p, DispatchStore.RecordState.DispatchStarted, started.version, started.fence);
      var read := DispatchStore.ReadCheck(t', k);
      if read.None? then
        var done := DispatchStore.Finished(t'[p.operationId], p.externalId);
        (t'[p.operationId := done], Report(true, calls, SuccessOf(done)))
      else if read.value.AlreadyCommitted? then (t', Report(true, calls, SuccessOf(t'[p.operationId])))
      else (t', Report(true, calls, Ok(CommitBlocked(read.value))))
  }

  // ---------------------------------------------------------------- what a run guarantees

  /** Every gate's binding holds for this request and candidate. */
  ghost predicate GatesHeld(r: Request, c: ToolCandidate) {
    && c.toolName == r.proposal.toolName && c.toolVersion == r.proposal.toolVersion
       && c.arguments == r.proposal.arguments
    && (exists v :: v in r.capabilities.visibleTools && v.name == c.toolName && v.version == c.toolVersion)
    && c.tenantId == r.capabilities.tenantId == r.identity.tenantId
    && ProposesResource(c.arguments, r.identity.resourceId)
    && r.approvalStatus.Approved? && r.approvalDecision.Some? && r.approvalDecision.value.choice.Approved?
    && Truncate(r.now) < r.approvalRequest.expiresAt
    && ApprovalBinds(r.identity, c, r.approvalRequest, r.approvalDecision.value)
    && r.authorization.Some? && r.authorization.value.authorized && r.authorization.value.permit.Some?
    && PermitBinds(r.identity, c, r.authorization.value.permit.value)
    && r.guard.operationId == r.attempt.operationId == r.identity.operationId
    && r.guard.idempotencyKey == r.attempt.idempotencyKey == r.identity.idempotencyKey
    && r.guard.expectedVersion == r.guard.currentVersion && r.guard.expectedFence == r.guard.currentFence
    && r.guard.callerIntentActive && !r.guard.cancelled && r.deadline.Remaining(r.now) > 0.0
    && r.negotiated && r.attempt.key.generation == r.negotiatedGeneration && r.versionedPermitAdmitted
    && r.capacityAdmitted && r.circuitAllows
  }

  lemma PassedGatesHold(r: Request)
    requires Gates(r).Ok?
    ensures GatesHeld(r, Gates(r).value.0)
    ensures r.guard.expectedState == r.guard.currentState == Named(Gates(r).value.1)
  {
  }

  /** The operation's record was claimed for exactly this attempt, one version and one fence on. */
  ghost predicate ClaimedFor(t: DispatchStore.Table, r: Request, record: DispatchStore.DispatchRecord) {
    var op := r.identity.operationId;
    && op in t && r.guard.currentState == Named(t[op].state) && t[op].version == r.guard.currentVersion
    && t[op].fence == r.guard.currentFence
    && record.operationId == t[op].operationId
       && record.idempotencyKey == t[op].idempotencyKey == r.identity.idempotencyKey
    && record.tenantId == Some(r.identity.tenantId) && record.resourceId == Some(r.identity.resourceId)
    && record.toolName == Some(r.proposal.toolName)
    && record.attemptNumber == r.attempt.attemptNumber == t[op].attemptNumber + 1
    && record.requestId == Some(r.attempt.key.requestId) && record.generation == Some(r.attempt.key.generation)
    && record.fence == r.guard.currentFence + 1
  }

  /** The transport was reached exactly when the claim was won. */
  ghost predicate Reached(t: DispatchStore.Table, r: Request, t': DispatchStore.Table, report: Report) {
    var op := r.identity.operationId;
    if !report.invoked then t' == t && report.calls == 0
    else op in t' && t' == t[op := t'[op]] && ClaimedFor(t, r, t'[op]) && Gates(r).Ok?
  }

  /** End to end, for every request and every transport behaviour, with no other writer: a
      block before the claim leaves the store as it was and the transport uncalled; an unknown,
      crashed or rejected exchange leaves the dispatch marker; a ready candidate always commits;
      and success means that every gate held and the record is completed with the observed object,
      two versions and one fence after the guard. No other operation is ever touched. */
  lemma EndToEnd(t: DispatchStore.Table, r: Request, transport: Transport)
    requires Complete(r.identity)
    requires forall op :: op in t ==> t[op].operationId == op
    ensures var (t', report) := Orchestrate(t, r, transport);
      var op := r.identity.operationId;
      && Reached(t, r, t', report)
      && (!report.invoked <==> Gates(r).Raised? || (report.outcome.Ok? && report.outcome.value.ClaimBlocked?))
      && (report.invoked && !(report.outcome.Ok? && report.outcome.value.Succeeded?) ==>
            && t'[op].state.DispatchStarted? && t'[op].version == r.guard.currentVersion + 1
            && !(report.outcome.Ok? && report.outcome.value.CommitBlocked?)
               && report.outcome != Raised(IncompleteSuccess))
      && (report.outcome.Ok? && report.outcome.value.Succeeded? ==>
            && report.invoked && GatesHeld(r, Gates(r).value.0) && transport.Exchanged?
            && transport.correlation == Correlation(Matched, Some(r.attempt))
            && t'[op].state.Completed? && t'[op].version == r.guard.currentVersion + 2
            && t'[op].externalId == Some(transport.result.externalId) && transport.result.externalId != ""
            && report.outcome.value == Succeeded(op, r.identity.resourceId, transport.result.externalId,
               t'[op].version))
  {
    if Gates(r).Ok? {
      PassedGatesHold(r);
    }
  }

  /** The record answers to the guard and to the identity, and this attempt is the next one. */
  predicate Answers(t: DispatchStore.Table, r: Request) {
    var op := r.identity.operationId;
    && op in t && Named(t[op].state) == r.guard.currentState && t[op].version == r.guard.currentVersion
    && t[op].fence == r.guard.currentFence && t[op].idempotencyKey == r.identity.idempotencyKey
    && t[op].tenantId == Some(r.identity.tenantId) && t[op].resourceId == Some(r.identity.resourceId)
    && t[op].toolName == Some(r.proposal.toolName) && r.attempt.attemptNumber == t[op].attemptNumber + 1
  }

  /** Exactly when the transport is reached. No gate asks for a ready state: a run reaches the
      transport from any state that the guard names, and a guard that names a ready state is what
      protects a dispatched or completed operation from another dispatch. */
  lemma TransportReachedExactlyWhen(t: DispatchStore.Table, r: Request, transport: Transport)
    ensures Orchestrate(t, r, transport).1.invoked <==> Gates(r).Ok? && Answers(t, r)
    ensures (r.guard.currentState.Named? && DispatchStore.Ready(r.guard.currentState.state)
      && r.identity.operationId in t
             && !DispatchStore.Ready(t[r.identity.operationId].state)) ==> Orchestrate(t, r, transport).0 == t
  {
    if Gates(r).Ok? {
      PassedGatesHold(r);
    }
  }

  // ---------------------------------------------------------------- each gate, exactly

  ghost predicate Visible(r: Request) {
    exists v :: v in r.capabilities.visibleTools && v.name == r.proposal.toolName && v.version == r.proposal.toolVersion
  }

  ghost predicate Identified(r: Request) {
    && r.capabilities.tenantId == r.identity.tenantId && "resource_id" in r.proposal.arguments
    && r.proposal.arguments["resource_id"] == Records.TextArgument(r.identity.resourceId)
  }

  ghost predicate ApprovedNow(r: Request) {
    && r.approvalStatus.Approved? && r.approvalDecision.Some? && r.approvalDecision.value.choice.Approved?
    && Truncate(r.now) < r.approvalRequest.expiresAt
  }

  /** The approval is of this very operation, artifact, tool and arguments. */
  ghost predicate ApprovalCovers(r: Request)
    requires r.approvalDecision.Some?
  {
    var action, d := r.approvalRequest.binding, r.approvalDecision.value;
    && action.operationId == r.identity.operationId && action.tenantId == r.identity.tenantId
    && action.artifactId == r.identity.resourceId && action.toolName == r.proposal.toolName
    && action.toolVersion == r.proposal.toolVersion && action.argumentsFingerprint == Of(r.proposal.arguments)
    && d.requestId == r.approvalRequest.requestId && d.bindingFingerprint == Of(action)
    && d.tenantId == r.identity.tenantId
  }

  ghost predicate AuthorizedNow(r: Request) {
    r.authorization.Some? && r.authorization.value.authorized && r.authorization.value.permit.Some?
  }

  ghost predicate PermitCovers(r: Request)
    requires AuthorizedNow(r)
  {
    var p := r.authorization.value.permit.value;
    && p.operationId == r.identity.operationId && p.idempotencyKey == r.identity.idempotencyKey
    && p.tenantId == r.identity.tenantId && p.toolName == r.proposal.toolName
    && p.resourceId == Some(r.identity.resourceId)
  }

  ghost predicate AttemptOwned(r: Request) {
    && r.guard.operationId == r.identity.operationId && r.guard.idempotencyKey == r.identity.idempotencyKey
    && r.attempt.operationId == r.identity.operationId && r.attempt.idempotencyKey == r.identity.idempotencyKey
  }

  ghost predicate GuardFresh(r: Request) {
    && r.guard.expectedState == r.guard.currentState && r.guard.expectedVersion == r.guard.currentVersion
    && r.guard.expectedFence == r.guard.currentFence
  }

  ghost predicate InTime(r: Request) {
    r.now + r.deadline.cleanupReserve < r.deadline.deadline
  }

  /** The first gate that a request fails, in the order they stand, or none. */
  ghost function FirstBlock(r: Request): Option<Result<Outcome, RunError>> {
    if !Visible(r) then Some(Ok(ProposalBlocked))
    else if !Identified(r) then Some(Ok(IdentityBlocked))
    else if !ApprovedNow(r) then Some(Ok(AccessBlocked(HumanCheckpointBlocked)))
    else if !ApprovalCovers(r) then Some(Ok(AccessBlocked(ApprovalBindingConflict)))
    else if !AuthorizedNow(r) then Some(Ok(AccessBlocked(CurrentAuthorizationBlocked)))
    else if !PermitCovers(r) then Some(Ok(AccessBlocked(PermitBindingConflict)))
    else if !AttemptOwned(r) then Some(Ok(PreflightBlocked(AttemptIdentityConflict)))
    else if !GuardFresh(r) then Some(Ok(PreflightBlocked(OwnershipStale)))
    else if !r.guard.callerIntentActive || r.guard.cancelled then Some(Ok(PreflightBlocked(IntentInactive)))
    else if !InTime(r) then Some(Ok(PreflightBlocked(DeadlineGone)))
    else if !r.negotiated then Some(Ok(PreflightBlocked(NegotiationIncompatible)))
    else if r.attempt.key.generation != r.negotiatedGeneration then Some(Ok(PreflightBlocked(GenerationMismatch)))
    else if !r.versionedPermitAdmitted then Some(Ok(PreflightBlocked(VersionedPermitRejected)))
    else if !r.capacityAdmitted then Some(Ok(PreflightBlocked(CapacityRefused)))
    else if !r.circuitAllows then Some(Ok(PreflightBlocked(CircuitIsOpen)))
    else if r.guard.currentState.Unnamed? then Some(Raised(UnknownGuardState))
    else None
  }

  /** What the bound candidate says is what was proposed, within the capability snapshot. */
  lemma BoundIsProposed(r: Request)
    ensures Bind(r.proposal, r.capabilities).Some? <==> Visible(r)
    ensures Bind(r.proposal, r.capabilities).Some? ==>
      var c := Bind(r.proposal, r.capabilities).value;
      && c.snapshotId == r.capabilities.snapshotId && c.tenantId == r.capabilities.tenantId
      && c.toolName == r.proposal.toolName && c.toolVersion == r.proposal.toolVersion
      && c.arguments == r.proposal.arguments
      && VisibleTool(c.toolName, c.toolVersion, c.schemaDigest) in r.capabilities.visibleTools
  {
  }

  /** The gates pass exactly the requests that fail none of them, and answer for the first that fails. */
  lemma GatesExactly(r: Request)
    ensures Gates(r).Ok? <==> FirstBlock(r).None?
    ensures FirstBlock(r).Some? ==> Gates(r) == Raised(FirstBlock(r).value)
    ensures Gates(r).Ok? ==> Gates(r).value.0.toolName == r.proposal.toolName
  {
    BoundIsProposed(r);
    if Visible(r) && Identified(r) {
      AccessExactly(r, Bind(r.proposal, r.capabilities).value);
      PreflightExactly(r);
    }
  }

  lemma AccessExactly(r: Request, c: ToolCandidate)
    requires c.toolName == r.proposal.toolName && c.toolVersion == r.proposal.toolVersion
    requires c.arguments == r.proposal.arguments
    ensures Access(r.identity, c, r.approvalStatus, r.approvalRequest, r.approvalDecision, r.authorization,
      Truncate(r.now)) ==
      if !ApprovedNow(r) then HumanCheckpointBlocked
      else if !ApprovalCovers(r) then ApprovalBindingConflict
      else if !AuthorizedNow(r) then CurrentAuthorizationBlocked
      else if !PermitCovers(r) then PermitBindingConflict
      else ReadyForPreflight
  {
  }

  lemma PreflightExactly(r: Request)
    ensures var p := Preflight(r);
      && (p.AttemptIdentityConflict? <==> !AttemptOwned(r))
      && (p.OwnershipStale? <==> AttemptOwned(r) && !GuardFresh(r))
      && (p.ReadyForClaim? <==>
            && AttemptOwned(r) && GuardFresh(r) && r.guard.callerIntentActive && !r.guard.cancelled && InTime(r)
            && r.negotiated && r.attempt.key.generation == r.negotiatedGeneration && r.versionedPermitAdmitted
            && r.capacityAdmitted && r.circuitAllows)
  {
  }

  // ---------------------------------------------------------------- success, exactly

  ghost predicate Correlated(r: Request, t: Transport)
    requires t.Exchanged?
  {
    t.correlation == Correlation(Matched, Some(r.attempt))
  }

  /** The peer answered this very request with a result, not with an error. */
  ghost predicate IsResult(r: Request, t: Transport)
    requires t.Exchanged?
  {
    && t.observation.isResult && t.observation.requestId == Some(r.attempt.key.requestId)
    && t.observation.operationId == Some(r.identity.operationId)
  }

  /** The result names this operation, tenant, resource and tool, and an object. */
  ghost predicate IsOurs(r: Request, t: Transport)
    requires t.Exchanged?
  {
    && t.result.operationId == r.identity.operationId && t.result.tenantId == r.identity.tenantId
    && t.result.resourceId == r.identity.resourceId && t.result.toolName == r.proposal.toolName
    && t.result.externalId != ""
  }

  ghost predicate EvidenceIsOurs(r: Request, e: FailureEvidence) {
    && e.operationId == r.identity.operationId && e.idempotencyKey == r.identity.idempotencyKey
    && e.requestId == Some(r.attempt.key.requestId) && e.attemptNumber == r.attempt.attemptNumber
  }

  /** What a run answers once the transport was reached, for everything the transport can do. */
  lemma AnswersExactly(t: DispatchStore.Table, r: Request, transport: Transport)
    requires Complete(r.identity) && (forall op :: op in t ==> t[op].operationId == op)
    requires Orchestrate(t, r, transport).1.invoked
    ensures var report := Orchestrate(t, r, transport).1;
      match transport
      case Crashed => report.outcome == Raised(TransportCrashed) && report.calls == 0
      case UnknownOutcome(e, calls) =>
        && report.calls == calls
        && report.outcome ==
           if EvidenceIsOurs(r, e) then Ok(Outcome.PendingReconciliation(e)) else Raised(EvidenceBindingMismatch)
      case Exchanged(_, _, result, calls) =>
        && report.calls == calls
        && if !Correlated(r, transport)
           then report.outcome == Ok(CandidateBlocked(CandidateOutcome.CorrelationRejected))
           else if !IsResult(r, transport) then report.outcome == Ok(CandidateBlocked(ProtocolRejected))
           else if !IsOurs(r, transport) then report.outcome == Ok(CandidateBlocked(OutputRejected))
           else report.outcome.Ok? && report.outcome.value.Succeeded?
  {
    GatesExactly(r);
    PassedGatesHold(r);
    EndToEnd(t, r, transport);
  }

  /** A run succeeds exactly when no gate blocks it, the stored record answers to it, and the peer
      answered this very attempt with a result that is this operation's own. */
  lemma SucceedsExactlyWhen(t: DispatchStore.Table, r: Request, transport: Transport)
    requires Complete(r.identity) && (forall op :: op in t ==> t[op].operationId == op)
    ensures var outcome := Orchestrate(t, r, transport).1.outcome;
      outcome.Ok? && outcome.value.Succeeded? <==>
        && FirstBlock(r).None? && Answers(t, r) && transport.Exchanged? && Correlated(r, transport)
        && IsResult(r, transport) && IsOurs(r, transport)
  {
    GatesExactly(r);
    TransportReachedExactlyWhen(t, r, transport);
    EndToEnd(t, r, transport);
    if Orchestrate(t, r, transport).1.invoked {
      AnswersExactly(t, r, transport);
    }
  }

  /** A request that passes every gate and whose guard names the given state. */
  function SampleRequest(state: DispatchStore.RecordState): Request {
    var identity := Identity("op", "key", "t", "res");
    var arguments := map["resource_id" := Records.TextArgument("res")];
    var action := Records.ActionBinding("t", "j", "s", "a", "op", "publish", "tool", "1", Of(arguments), "res", "1",
                                        "u", "pol", "1", Records.High, Raw("x"));
    Request(
      ToolProposal("tool", "1", arguments), CapabilitySnapshot("snap", "t", [VisibleTool("tool", "1", "d")]),
      identity, Records.Approved, Records.ApprovalRequest("req", action, 0, 5, 9, [], false, 0, 0, None),
      Some(Records.ApprovalDecision("dec", "req", Of(action), "boss", "t", Records.Approved, 1, "ok")),
      Some(Authorization(true, Some(Permit("op", "key", "t", "tool", Some("res"))))),
      Guard("op", "key", Named(state), Named(state), 2, 2, 1, 1, true, false),
      RemoteRequestBinding(RemoteRequestKey(1, NumberId(7)), "op", "key", 2), DeadlineBudget(100.0, 0.0), 2.0,
      true, 1, true, true, true)
  }

  /** The concrete case: a completed operation whose guard says so is dispatched a second time. */
  lemma CompletedOperationRedispatched(transport: Transport)
    ensures var done := DispatchStore.DispatchRecord("op", "key", DispatchStore.RecordState.Completed, 2, 1,
      Some(NumberId(6)), Some("t"),
                                                     Some("res"), Some("tool"), 1, Some(1), Some("first"));
      Orchestrate(map["op" := done], SampleRequest(DispatchStore.RecordState.Completed), transport).1.invoked
  {
    var r := SampleRequest(DispatchStore.RecordState.Completed);
    assert FindTool(r.capabilities.visibleTools, "tool", "1") == Some(VisibleTool("tool", "1", "d"));
    assert Truncate(r.now) == 2;
    assert Gates(r).Ok?;
  }
}
