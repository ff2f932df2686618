/** What is known about a failed remote attempt, and what may be concluded from it. */
module RemoteEvidence {
  import opened Common

  datatype RequestId = TextId(text: string) | NumberId(number: int)

  datatype DispatchCertainty = ProvenNotSent | PossiblySent | ProvenSent

  datatype ExecutionCertainty = ProvenNotExecuted | PossiblyExecuted | ProvenExecuted

  datatype FailurePhase =
    Connect | Send | Read | Cancellation | AuthenticationDependency | Capacity | VersionNegotiation | Reconciliation

  datatype FailureKind =
    | ConnectTimeout | TransportUnavailable | SendFailure | ReadTimeout | ConnectionLost | DispatchOwnerLost
    | CallerCancelled | JwksRefreshFailed | CapacityRejected | UnverifiedRemoteFailure | CircuitOpen
    | UnsupportedVersion | AuthoritativeNotExecuted

  datatype FailureEvidence = FailureEvidence(
    operationId: string, idempotencyKey: string, requestId: Option<RequestId>, attemptNumber: int,
    phase: FailurePhase, kind: FailureKind, dispatch: DispatchCertainty, execution: ExecutionCertainty, source: string)

  datatype Refusal = InvalidEvidence | NotADispatch | NotACommittedFact | BindingMismatch | IncompleteIdentity
                   | NotEligible | IdentityChanged | StaleRequestId | BadSequence | NotProven | MissingTransport
                     | AlreadyRegistered
                   | IncompleteBinding | NegativeCounter

  /** The evidence record's own constructor check. */
  predicate WellFormed(e: FailureEvidence) {
    && e.operationId != "" && e.idempotencyKey != "" && e.attemptNumber >= 1 && e.source != ""
    && (e.dispatch.ProvenNotSent? ==> e.execution.ProvenNotExecuted?)
  }

  function Evidence(e: FailureEvidence): (r: Result<FailureEvidence, Refusal>)
    ensures r.Ok? ==> WellFormed(r.value) && r.value == e
  {
    if WellFormed(e) then Ok(e) else Raised(InvalidEvidence)
  }

  // ---------------------------------------------------------------- cancellation

  datatype CancellationObservation = CancellationObservation(
    operationId: string, idempotencyKey: string, requestId: RequestId, attemptNumber: int,
    dispatch: DispatchCertainty, remoteTaskCancelled: bool, source: string)

  function CancellationEvidence(o: CancellationObservation): Result<FailureEvidence, Refusal> {
    Evidence(FailureEvidence(
      o.operationId, o.idempotencyKey, Some(o.requestId), o.attemptNumber, Cancellation, CallerCancelled, o.dispatch,
      if o.dispatch.ProvenNotSent? then ProvenNotExecuted else PossiblyExecuted, o.source))
  }

  // ---------------------------------------------------------------- remote claims

  datatype RemoteRequestKey = RemoteRequestKey(generation: int, requestId: RequestId)

  datatype RemoteRequestBinding = RemoteRequestBinding(
    key: RemoteRequestKey, operationId: string, idempotencyKey: string, attemptNumber: int)

  datatype CorrelationOutcome = Matched | StaleGeneration | UnknownRequest | AlreadyCompleted

  datatype Correlation = Correlation(outcome: CorrelationOutcome, binding: Option<RemoteRequestBinding>)

  datatype RemoteClaim = RemoteClaim(httpStatus: int, errorCode: string)

  datatype RemoteContext = RemoteContext(serverIdentity: string, identityVerified: bool)

  datatype PreHandlerRejection = PreHandlerRejection(httpStatus: int, errorCode: string, phase: FailurePhase,
    kind: FailureKind)

  datatype RemoteContract = RemoteContract(serverIdentity: string, rejections: seq<PreHandlerRejection>)

  datatype RemoteMapping = CorrelationRejected | Mapped(verified: bool, evidence: FailureEvidence)

  predicate SameClaim(r: PreHandlerRejection, c: RemoteClaim) {
    r.httpStatus == c.httpStatus && r.errorCode == c.errorCode
  }

  /** The first locally configured rejection that the claim names. */
  function FindRejection(rs: seq<PreHandlerRejection>, c: RemoteClaim): (r: Option<PreHandlerRejection>)
    ensures r.Some? <==> exists i :: 0 <= i < |rs| && SameClaim(rs[i], c)
    ensures r.Some? ==> exists i :: 0 <= i < |rs| && rs[i] == r.value && SameClaim(rs[i], c)
                                   && forall j :: 0 <= j < i ==> !SameClaim(rs[j], c)
  {
    if rs == [] then None
    else if SameClaim(rs[0], c) then Some(rs[0])
    else
      var rest := FindRejection(rs[1..], c);
      assert rest.Some? ==> exists i :: 0 < i < |rs| && rs[i] == rest.value && SameClaim(rs[i], c)
                                       && forall j :: 0 <= j < i ==> !SameClaim(rs[j], c) by {
        if rest.Some? {
          var i :| 0 <= i < |rs[1..]| && rs[1..][i] == rest.value && SameClaim(rs[1..][i], c)
                   && forall j :: 0 <= j < i ==> !SameClaim(rs[1..][j], c);
          assert rs[i + 1] == rest.value;
          assert forall j :: 0 < j < i + 1 ==> rs[j] == rs[1..][j - 1];
        }
      }
      assert rest.None? ==> forall i :: 0 < i < |rs| ==> rs[i] == rs[1..][i - 1];
      rest
  }

  /** Evidence is accepted exactly when it names its operation, key, source and attempt, and does
      not claim a possible execution of what was never sent. */
  lemma EvidenceExactly(e: FailureEvidence)
    ensures Evidence(e).Ok? <==>
      && e.operationId != "" && e.idempotencyKey != "" && e.source != "" && 1 <= e.attemptNumber
      && !(e.dispatch.ProvenNotSent? && !e.execution.ProvenNotExecuted?)
  {
  }

  /** What a cancelled caller knows: only a request that was never sent was certainly not
      executed; that the remote task was cancelled proves nothing. */
  lemma CancellationProves(o: CancellationObservation)
    requires CancellationEvidence(o).Ok?
    ensures var e := CancellationEvidence(o).value;
      && e.operationId == o.operationId && e.idempotencyKey == o.idempotencyKey && e.requestId == Some(o.requestId)
      && e.attemptNumber == o.attemptNumber && e.dispatch == o.dispatch && e.source == o.source
      && e.kind.CallerCancelled? && e.phase.Cancellation?
      && (e.execution.ProvenNotExecuted? <==> o.dispatch.ProvenNotSent?) && !e.execution.ProvenExecuted?
  {
  }

  /** What a remote failure is taken for: nothing unless it is correlated; a rejection before the
      handler exactly when a verified peer makes a claim of the local contract; otherwise a
      failure that may have executed. Its identity is always that of the bound request. */
  lemma TranslatesExactly(contract: RemoteContract, c: RemoteClaim, context: RemoteContext, correlation: Correlation)
    ensures var m := Translate(contract, c, context, correlation);
      var rejection := FindRejection(contract.rejections, c);
      && (m.CorrelationRejected? <==> !correlation.outcome.Matched? || correlation.binding.None?)
      && (m.Mapped? ==>
            var b, e := correlation.binding.value, m.evidence;
            && e.operationId == b.operationId && e.idempotencyKey == b.idempotencyKey
            && e.requestId == Some(b.key.requestId) && e.attemptNumber == b.attemptNumber && e.dispatch.ProvenSent?
            && (m.verified <==>
                  context.identityVerified && context.serverIdentity == contract.serverIdentity && rejection.Some?)
            && (if m.verified
                then e.phase == rejection.value.phase && e.kind == rejection.value.kind
                  && e.execution.ProvenNotExecuted?
                else e.phase.Read? && e.kind.UnverifiedRemoteFailure? && e.execution.PossiblyExecuted?))
  {
  }

  /** ApplicationRemoteFailureAdapter.translate; the binding was validated when it was made. */
  function Translate(contract: RemoteContract, c: RemoteClaim, context: RemoteContext,
    correlation: Correlation): RemoteMapping {
    if !correlation.outcome.Matched? || correlation.binding.None? then CorrelationRejected else
    var b := correlation.binding.value;
    var rejection := FindRejection(contract.rejections, c);
    var trusted := context.identityVerified && context.serverIdentity == contract.serverIdentity && rejection.Some?;
    Mapped(trusted, FailureEvidence(
      b.operationId, b.idempotencyKey, Some(b.key.requestId), b.attemptNumber,
      if trusted then rejection.value.phase else Read, if trusted then rejection.value.kind
      else UnverifiedRemoteFailure,
      ProvenSent, if trusted then ProvenNotExecuted else PossiblyExecuted, "application-remote-failure-adapter"))
  }
}
