/** Reconciliation of unknown outcomes, its committer and schedule, and the retry path:
    a crashed dispatch is retried only on committed proof that it never executed. */
module Reconciliation {
  import opened Common
  import opened RemoteEvidence
  import DispatchStore

  datatype Binding = Binding(operationId: string, idempotencyKey: string, tenantId: string, resourceId: string)

  datatype AuthoritativeStatus = Succeeded | Failed | NotExecuted | NotFound | Unknown

  /** The answer of a read-only authority. */
  datatype Answer = Answer(binding: Binding, status: AuthoritativeStatus, source: string, externalId: Option<string>)

  datatype DecisionKind =
    ResolvedSucceeded | ResolvedFailed | ResolvedNotExecuted | StillPending | EvidenceConflict | NotRequired

  datatype Decision = Decision(kind: DecisionKind, binding: Binding, source: Option<string>, externalId: Option<string>)

  predicate Resolved(k: DecisionKind) {
    k.ResolvedSucceeded? || k.ResolvedFailed? || k.ResolvedNotExecuted?
  }

  /** ReconciliationScheduler.reconcile_once, given what the authority would answer. */
  function ReconcileOnce(failure: FailureEvidence, binding: Binding, answer: Answer): Decision {
    if failure.operationId != binding.operationId || failure.idempotencyKey != binding.idempotencyKey then
      Decision(EvidenceConflict, binding, Some(failure.source), None)
    else if failure.execution.ProvenNotExecuted? then Decision(NotRequired, binding, None, None)
    else if answer.binding != binding then Decision(EvidenceConflict, binding, Some(answer.source), None)
    else
      var kind := match answer.status
        case Succeeded => ResolvedSucceeded
        case Failed => ResolvedFailed
        case NotExecuted => ResolvedNotExecuted
        case _ => StillPending;
      Decision(kind, binding, Some(answer.source), answer.externalId)
  }

  // ---------------------------------------------------------------- committing a resolution

  datatype BusinessOutcome = BusinessSucceeded | BusinessFailed | BusinessNotExecuted

  datatype Compliance = Compliant | AuthorizationViolation | NotApplicable

  datatype Record = Record(
    binding: Binding, completed: bool, version: nat, outcome: Option<BusinessOutcome>, compliance: Option<Compliance>,
    externalId: Option<string>, source: Option<string>)

  type Table = map<string, Record>

  datatype CommitOutcome = Committed | ProposalNotResolved | BindingConflict | StateConflict | VersionConflict
    | CasConflict

  datatype CommitResult = CommitResult(outcome: CommitOutcome, record: Option<Record>)

  function OutcomeOf(k: DecisionKind): BusinessOutcome
    requires Resolved(k)
  {
    if k.ResolvedSucceeded? then BusinessSucceeded else if k.ResolvedFailed? then BusinessFailed
      else BusinessNotExecuted
  }

  function ComplianceOf(o: BusinessOutcome, authorised: bool): Compliance {
    if o.BusinessNotExecuted? then NotApplicable else if authorised then Compliant else AuthorizationViolation
  }

  /** One call of the committer. */
  datatype Ticket = Ticket(proposal: Decision, expectedVersion: int, authorised: bool)

  predicate Committable(d: Decision) {
    Resolved(d.kind) && d.source.Some?
  }

  predicate CasMatches(t: Table, k: Ticket) {
    && k.proposal.binding.operationId in t
    && var r := t[k.proposal.binding.operationId];
       r.binding == k.proposal.binding && !r.completed && r.version == k.expectedVersion
  }

  function Finished(r: Record, k: Ticket): Record
    requires Committable(k.proposal)
  {
    var o := OutcomeOf(k.proposal.kind);
    r.(completed := true, version := r.version + 1, outcome := Some(o),
      compliance := Some(ComplianceOf(o, k.authorised)),
       externalId := k.proposal.externalId, source := k.proposal.source)
  }

  /** The committer's checks on the record it reads; None means that it goes on to the compare-and-set. */
  function ReadCheck(t: Table, k: Ticket): (o: Option<CommitOutcome>)
    ensures o.None? ==> Committable(k.proposal)
  {
    if !Committable(k.proposal) then Some(ProposalNotResolved)
    else if k.proposal.binding.operationId !in t || t[k.proposal.binding.operationId].binding != k.proposal.binding
      then Some(BindingConflict)
    else if t[k.proposal.binding.operationId].completed then Some(StateConflict)
    else if t[k.proposal.binding.operationId].version != k.expectedVersion then Some(VersionConflict)
    else None
  }

  /** InMemoryReconciliationStore with its committer. */
  class Store {
    var records: Table

    constructor ()
      ensures records == map[]
    {
      records := map[];
    }

    method AddPending(b: Binding) returns (r: Result<(), Refusal>)
      modifies this
      ensures if b.operationId in old(records) then r == Raised(AlreadyRegistered) && records == old(records)
              else r == Ok(()) && records == old(records)[b.operationId := Record(b, false, 1, None, None, None, None)]
    {
      if b.operationId in records {
        return Raised(AlreadyRegistered);
      }
      records := records[b.operationId := Record(b, false, 1, None, None, None, None)];
      return Ok(());
    }

    method CompareAndSetCompleted(k: Ticket) returns (updated: Option<Record>)
      requires Committable(k.proposal)
      modifies this
      ensures updated.Some? <==> CasMatches(old(records), k)
      ensures updated.Some? ==>
        && updated.value == Finished(old(records)[k.proposal.binding.operationId], k)
        && records == old(records)[k.proposal.binding.operationId := updated.value]
      ensures updated.None? ==> records == old(records)
    {
      var binding := k.proposal.binding;
      if binding.operationId !in records {
        return None;
      }
      var current := records[binding.operationId];
      if current.binding != binding || current.completed || current.version != k.expectedVersion {
        return None;
      }
      var outcome := OutcomeOf(k.proposal.kind);
      var done := current.(completed := true, version := current.version + 1, outcome := Some(outcome),
        compliance := Some(ComplianceOf(outcome, k.authorised)), externalId := k.proposal.externalId,
        source := k.proposal.source);
      records := records[binding.operationId := done];
      return Some(done);
    }

    /** ReconciliationCommitter.commit with nobody in between its read and its compare-and-set. */
    method Commit(k: Ticket) returns (result: CommitResult)
      modifies this
      ensures (records, result) == CommitAlone(old(records), k)
    {
      var read := ReadCheck(records, k);
      if read.Some? {
        return CommitResult(read.value, None);
      }
      var updated := CompareAndSetCompleted(k);
      if updated.None? {
        return CommitResult(CasConflict, None);
      }
      return CommitResult(Committed, updated);
    }
  }

  function CommitAlone(t: Table, k: Ticket): (Table, CommitResult) {
    var read := ReadCheck(t, k);
    if read.Some? then (t, CommitResult(read.value, None))
    else
      var done := Finished(t[k.proposal.binding.operationId], k);
      (t[k.proposal.binding.operationId := done], CommitResult(Committed, Some(done)))
  }

  // ---------------------------------------------------------------- racing reconcilers

  /** What one query concludes: the failure must be this binding's own, a failure that never
      executed needs no query, an answer about another binding is a conflict, and only a definite
      answer resolves. */
  lemma ObservesExactly(failure: FailureEvidence, b: Binding, answer: Answer)
    ensures var d := ReconcileOnce(failure, b, answer);
      var own := failure.operationId == b.operationId && failure.idempotencyKey == b.idempotencyKey;
      var open := own && !failure.execution.ProvenNotExecuted?;
      && d.binding == b
      && (d.kind.NotRequired? <==> own && failure.execution.ProvenNotExecuted?)
      && (d.kind.EvidenceConflict? <==> !own || (open && answer.binding != b))
      && (d.kind.ResolvedSucceeded? <==> open && answer.binding == b && answer.status.Succeeded?)
      && (d.kind.ResolvedFailed? <==> open && answer.binding == b && answer.status.Failed?)
      && (d.kind.ResolvedNotExecuted? <==> open && answer.binding == b && answer.status.NotExecuted?)
      && (d.kind.StillPending? <==> open && answer.binding == b && (answer.status.NotFound? || answer.status.Unknown?))
  {
  }

  /** The committer's read passes exactly a resolved and sourced decision on its own pending record
      at the expected version; the compare-and-set asks the same of the record. */
  lemma ReadsExactly(t: Table, k: Ticket)
    ensures var b := k.proposal.binding;
      var pending := b.operationId in t && t[b.operationId].binding == b && !t[b.operationId].completed
                     && t[b.operationId].version == k.expectedVersion;
      var resolved := k.proposal.kind.ResolvedSucceeded? || k.proposal.kind.ResolvedFailed?
        || k.proposal.kind.ResolvedNotExecuted?;
      && (ReadCheck(t, k).None? <==> resolved && k.proposal.source.Some? && pending)
      && (CasMatches(t, k) <==> pending)
  {
  }

  /** Querying, the committer's read and its compare-and-set are three steps, so any number of
      reconcilers may come in between. */
  datatype Step =
    | AddPending(binding: Binding)
    | Observe(failure: FailureEvidence, binding: Binding, answer: Answer)
    | CommitRead(ticket: Ticket)
    | CompareAndSet(ticket: Ticket)

  /** What one call of the committer returned. */
  datatype Returned = Returned(ticket: Ticket, result: CommitResult)

  /** The store, the decisions that were observed, the commits that passed their read, what the
      authority was heard to say, and every result that a committer returned, oldest first. */
  datatype World = World(
    table: Table, observed: set<Decision>, inFlight: multiset<Ticket>, heard: set<Answer>, returned: seq<Returned>)

  const Empty := World(map[], {}, multiset{}, {}, [])

  /** The authority is asked only about a matching failure that may have executed. */
  predicate Queries(failure: FailureEvidence, binding: Binding) {
    && failure.operationId == binding.operationId && failure.idempotencyKey == binding.idempotencyKey
    && !failure.execution.ProvenNotExecuted?
  }

  function Next(w: World, s: Step): World {
    match s
    case AddPending(b) =>
      if b.operationId in w.table then w
      else w.(table := w.table[b.operationId := Record(b, false, 1, None, None, None, None)])
    case Observe(failure, binding, answer) =>
      w.(observed := w.observed + {ReconcileOnce(failure, binding, answer)},
         heard := if Queries(failure, binding) then w.heard + {answer} else w.heard)
    case CommitRead(k) =>
      if k.proposal !in w.observed then w else
      var read := ReadCheck(w.table, k);
      if read.None? then w.(inFlight := w.inFlight + multiset{k})
      else w.(returned := w.returned + [Returned(k, CommitResult(read.value, None))])
    case CompareAndSet(k) =>
      if k !in w.inFlight || !Committable(k.proposal) then w
      else if CasMatches(w.table, k) then
        var done := Finished(w.table[k.proposal.binding.operationId], k);
        w.(table := w.table[k.proposal.binding.operationId := done], inFlight := w.inFlight - multiset{k},
           returned := w.returned + [Returned(k, CommitResult(Committed, Some(done)))])
      else
        w.(inFlight := w.inFlight - multiset{k},
           returned := w.returned + [Returned(k, CommitResult(CasConflict, None))])
  }

  function Run(w: World, steps: seq<Step>): World
    decreases |steps|
  {
    if steps == [] then w else Run(Next(w, steps[0]), steps[1..])
  }

  /** The committer without interference is its two steps, one right after the other. */
  lemma CommitAloneIsBothSteps(w: World, k: Ticket)
    requires k.proposal in w.observed && k !in w.inFlight
    ensures var w' := Next(Next(w, CommitRead(k)), CompareAndSet(k));
      && w'.table == CommitAlone(w.table, k).0 && w'.inFlight == w.inFlight
      && w'.returned == w.returned + [Returned(k, CommitAlone(w.table, k).1)]
  {
    assert w.inFlight + multiset{k} - multiset{k} == w.inFlight;
  }

  function StatusOf(o: BusinessOutcome): AuthoritativeStatus {
    match o
    case BusinessSucceeded => Succeeded
    case BusinessFailed => Failed
    case BusinessNotExecuted => NotExecuted
  }

  /** The authority was heard to say exactly this, from this source and with this object, about
      exactly this operation. */
  ghost predicate Backed(heard: set<Answer>, b: Binding, o: BusinessOutcome, source: Option<string>,
    id: Option<string>) {
    exists a :: a in heard && a.binding == b && a.status == StatusOf(o) && Some(a.source) == source
      && a.externalId == id
  }

  /** Compliance judges what was executed: it is compliant exactly when it was authorised, and
      what was never executed is not judged. */
  ghost predicate Judged(r: Record, authorised: bool) {
    && (r.compliance == Some(NotApplicable) <==> r.outcome == Some(BusinessNotExecuted))
    && (r.compliance == Some(Compliant) <==> r.outcome != Some(BusinessNotExecuted) && authorised)
    && (r.compliance == Some(AuthorizationViolation) <==> r.outcome != Some(BusinessNotExecuted) && !authorised)
  }

  /** A committed result is the stored record, of the committer's own binding, backed by the authority. */
  ghost predicate CommitSound(w: World, r: Returned) {
    if r.result.outcome.Committed? then
      && r.result.record.Some?
      && var record := r.result.record.value;
         && record.binding.operationId in w.table && w.table[record.binding.operationId] == record
         && record.completed && record.binding == r.ticket.proposal.binding
         && record.outcome.Some? && Judged(record, r.ticket.authorised)
         && record.version == r.ticket.expectedVersion + 1
         && Backed(w.heard, record.binding, record.outcome.value, record.source, record.externalId)
    else r.result.record.None?
  }

  predicate Won(r: Returned) {
    r.result.outcome.Committed?
  }

  ghost predicate Once(returned: seq<Returned>) {
    forall i, j | 0 <= i < j < |returned| && Won(returned[i]) && Won(returned[j]) ::
      returned[i].ticket.proposal.binding.operationId != returned[j].ticket.proposal.binding.operationId
  }

  ghost predicate Sound(w: World) {
    && (forall op :: op in w.table ==> w.table[op].binding.operationId == op)
    && (forall d :: d in w.observed && Resolved(d.kind) ==>
          Backed(w.heard, d.binding, OutcomeOf(d.kind), d.source, d.externalId))
    && (forall k :: k in w.inFlight ==> Committable(k.proposal) && k.proposal in w.observed)
    && (forall i :: 0 <= i < |w.returned| ==> CommitSound(w, w.returned[i]))
    && Once(w.returned)
  }

  lemma ObserveSound(w: World, s: Step)
    requires Sound(w) && s.Observe?
    ensures Sound(Next(w, s))
  {
    var w' := Next(w, s);
    assert w.heard <= w'.heard;
    forall b, o, source, id | Backed(w.heard, b, o, source, id) ensures Backed(w'.heard, b, o, source, id) {}
    var d := ReconcileOnce(s.failure, s.binding, s.answer);
    if Resolved(d.kind) {
      assert s.answer in w'.heard && s.answer.binding == d.binding;
    }
    forall i | 0 <= i < |w'.returned| ensures CommitSound(w', w'.returned[i]) {
      assert CommitSound(w, w.returned[i]);
    }
  }

  lemma OldCommitStays(w: World, w': World, r: Returned)
    requires CommitSound(w, r) && w.heard == w'.heard
    requires forall op :: op in w.table && w.table[op].completed ==> op in w'.table && w'.table[op] == w.table[op]
    ensures CommitSound(w', r)
  {
  }

  /** A world that only grew by one returned result. */
  lemma GrownSound(w: World, w': World, r: Returned)
    requires Sound(w) && w'.returned == w.returned + [r] && w'.heard == w.heard && w'.observed == w.observed
    requires w'.inFlight <= w.inFlight && (forall op :: op in w'.table ==> w'.table[op].binding.operationId == op)
    requires forall op :: op in w.table && w.table[op].completed ==> op in w'.table && w'.table[op] == w.table[op]
    requires CommitSound(w', r)
    requires Won(r) ==> forall i :: 0 <= i < |w.returned| && Won(w.returned[i]) ==>
      w.returned[i].ticket.proposal.binding.operationId != r.ticket.proposal.binding.operationId
    ensures Sound(w')
  {
    forall i | 0 <= i < |w'.returned| ensures CommitSound(w', w'.returned[i]) {
      if i < |w.returned| { OldCommitStays(w, w', w.returned[i]); }
    }
    assert forall k :: k in w'.inFlight ==> k in w.inFlight;
  }

  lemma CommitReadSound(w: World, s: Step)
    requires Sound(w) && s.CommitRead?
    ensures Sound(Next(w, s))
  {
    var w' := Next(w, s);
    if w'.returned != w.returned {
      GrownSound(w, w', w'.returned[|w.returned|]);
    } else {
      forall i | 0 <= i < |w'.returned| ensures CommitSound(w', w'.returned[i]) {
        OldCommitStays(w, w', w.returned[i]);
      }
    }
  }

  /** A winning compare-and-set is the first commit of its operation. */
  lemma CommitIsFirst(w: World, k: Ticket)
    requires Sound(w) && CasMatches(w.table, k)
    ensures forall i :: 0 <= i < |w.returned| && Won(w.returned[i]) ==>
      w.returned[i].ticket.proposal.binding.operationId != k.proposal.binding.operationId
  {
    forall i | 0 <= i < |w.returned| && Won(w.returned[i])
      ensures w.returned[i].ticket.proposal.binding.operationId != k.proposal.binding.operationId
    {
      assert CommitSound(w, w.returned[i]);
    }
  }

  lemma WinIsSound(w: World, k: Ticket)
    requires Sound(w) && k in w.inFlight && CasMatches(w.table, k)
    ensures Committable(k.proposal)
    ensures var done := Finished(w.table[k.proposal.binding.operationId], k);
      CommitSound(w.(table := w.table[k.proposal.binding.operationId := done]),
                  Returned(k, CommitResult(Committed, Some(done))))
  {
    assert k.proposal in w.observed;
  }

  lemma CompareAndSetSound(w: World, s: Step)
    requires Sound(w) && s.CompareAndSet?
    ensures Sound(Next(w, s))
  {
    var w', k := Next(w, s), s.ticket;
    if k in w.inFlight {
      var r := w'.returned[|w.returned|];
      if CasMatches(w.table, k) {
        CommitIsFirst(w, k);
        WinIsSound(w, k);
        OldCommitStays(w.(table := w'.table), w', r);
      }
      GrownSound(w, w', r);
    }
  }

  lemma AddPendingSound(w: World, s: Step)
    requires Sound(w) && s.AddPending?
    ensures Sound(Next(w, s))
  {
    var w' := Next(w, s);
    forall i | 0 <= i < |w'.returned| ensures CommitSound(w', w'.returned[i]) {
      assert CommitSound(w, w.returned[i]);
    }
  }

  /** However reconcilers race, an operation is resolved at most once, its committed fact
      never changes, and it is what the authority said about that very operation. */
  lemma {:induction false} ResolutionsAreBacked(w: World, steps: seq<Step>)
    requires Sound(w)
    ensures Sound(Run(w, steps))
    decreases |steps|
  {
    if steps != [] {
      match steps[0] {
        case AddPending(_) => AddPendingSound(w, steps[0]);
        case Observe(_, _, _) => ObserveSound(w, steps[0]);
        case CommitRead(_) => CommitReadSound(w, steps[0]);
        case CompareAndSet(_) => CompareAndSetSound(w, steps[0]);
      }
      ResolutionsAreBacked(Next(w, steps[0]), steps[1..]);
    }
  }

  // ---------------------------------------------------------------- evidence that nothing executed

  /** recover_abandoned_dispatch. */
  function RecoverAbandoned(r: DispatchStore.DispatchRecord): Result<FailureEvidence, Refusal> {
    if !r.state.DispatchStarted? then Raised(NotADispatch)
    else Evidence(FailureEvidence(r.operationId, r.idempotencyKey, r.requestId, r.attemptNumber, Send,
      DispatchOwnerLost,
                                  PossiblySent, PossiblyExecuted, "durable-dispatch-marker-recovery"))
  }

  /** authoritative_not_executed_evidence. */
  function NotExecutedEvidence(c: CommitResult, original: FailureEvidence): Result<FailureEvidence, Refusal> {
    if !c.outcome.Committed? || c.record.None? || c.record.value.outcome != Some(BusinessNotExecuted)
       || c.record.value.source.None? then Raised(NotACommittedFact)
    else
      var r := c.record.value;
      if original.operationId != r.binding.operationId || original.idempotencyKey != r.binding.idempotencyKey
      then Raised(BindingMismatch)
      else Evidence(FailureEvidence(
        r.binding.operationId, r.binding.idempotencyKey, original.requestId, original.attemptNumber,
        FailurePhase.Reconciliation, AuthoritativeNotExecuted, original.dispatch, ProvenNotExecuted, r.source.value))
  }

  /** All the ways the application obtains evidence, nested to any depth; a reconciliation
      starts from one of the results that committers returned. */
  datatype Origin =
    | FromCancellation(observation: CancellationObservation)
    | FromRemote(contract: RemoteContract, claim: RemoteClaim, context: RemoteContext, correlation: Correlation)
    | FromAbandoned(record: DispatchStore.DispatchRecord)
    | FromReconciliation(index: nat, original: Origin)

  function EvidenceOf(returned: seq<Returned>, o: Origin): Result<FailureEvidence, Refusal> {
    match o
    case FromCancellation(observation) => CancellationEvidence(observation)
    case FromRemote(contract, claim, context, correlation) =>
      var m := Translate(contract, claim, context, correlation);
      if m.CorrelationRejected? then Raised(NotADispatch) else Evidence(m.evidence)
    case FromAbandoned(record) => RecoverAbandoned(record)
    case FromReconciliation(index, original) =>
      var e := EvidenceOf(returned, original);
      if e.Raised? then e
      else if index >= |returned| then Raised(NotACommittedFact)
      else NotExecutedEvidence(returned[index].result, e.value)
  }

  /** The failure that a chain of reconciliations is about. */
  function Root(o: Origin): Origin {
    if o.FromReconciliation? then Root(o.original) else o
  }

  /** The authority was heard to deny execution of the very binding that is stored, for good,
      as not executed under this operation and key. */
  ghost predicate Denied(w: World, operation: string, key: string) {
    && operation in w.table
    && var r := w.table[operation];
       && r.binding.operationId == operation && r.binding.idempotencyKey == key
       && r.completed && r.outcome == Some(BusinessNotExecuted)
       && exists a :: a in w.heard && a.binding == r.binding && a.status.NotExecuted?
  }

  ghost predicate LocallyProven(o: Origin) {
    || (o.FromCancellation? && o.observation.dispatch.ProvenNotSent?)
    || (o.FromRemote? && o.correlation.outcome.Matched? && o.context.identityVerified
        && o.context.serverIdentity == o.contract.serverIdentity
        && exists i :: 0 <= i < |o.contract.rejections| && SameClaim(o.contract.rejections[i], o.claim))
  }

  /** A committed result that was turned into evidence is backed by the authority. */
  lemma CommittedDenial(w: World, index: nat, original: FailureEvidence)
    requires Sound(w) && index < |w.returned| && NotExecutedEvidence(w.returned[index].result, original).Ok?
    ensures Denied(w, original.operationId, original.idempotencyKey)
    ensures w.table[original.operationId].binding == w.returned[index].ticket.proposal.binding
  {
    var r := w.returned[index];
    assert CommitSound(w, r);
    var record := r.result.record.value;
    var a :| a in w.heard && a.binding == record.binding && a.status == StatusOf(BusinessNotExecuted)
             && Some(a.source) == record.source && a.externalId == record.externalId;
    assert a.status.NotExecuted?;
  }

  /** A chain of reconciliations keeps the identity of the failure it is about. */
  lemma {:induction false} ChainsKeepIdentity(returned: seq<Returned>, o: Origin)
    requires EvidenceOf(returned, o).Ok?
    ensures EvidenceOf(returned, Root(o)).Ok?
    ensures var e, e0 := EvidenceOf(returned, o).value, EvidenceOf(returned, Root(o)).value;
      && e.operationId == e0.operationId && e.idempotencyKey == e0.idempotencyKey && e.requestId == e0.requestId
      && e.attemptNumber == e0.attemptNumber && e.dispatch == e0.dispatch
  {
    if o.FromReconciliation? { ChainsKeepIdentity(returned, o.original); }
  }

  lemma LocalEvidence(returned: seq<Returned>, o: Origin)
    requires !o.FromReconciliation? && EvidenceOf(returned, o).Ok?
    ensures EvidenceOf(returned, o).value.execution.ProvenNotExecuted? <==> LocallyProven(o)
  {
  }

  /** Provenance, over every race of reconcilers: evidence says that nothing executed exactly
      when the failure was proven not sent, or matched a verified local contract, or when
      the authority was heard to say so about the very binding that is stored as not executed. */
  lemma NonExecutionIsProven(steps: seq<Step>, o: Origin)
    requires EvidenceOf(Run(Empty, steps).returned, o).Ok?
    ensures var w := Run(Empty, steps);
      var e := EvidenceOf(w.returned, o).value;
      e.execution.ProvenNotExecuted? <==>
        LocallyProven(o) || (o.FromReconciliation? && Denied(w, e.operationId, e.idempotencyKey))
  {
    var w := Run(Empty, steps);
    ResolutionsAreBacked(Empty, steps);
    if o.FromReconciliation? {
      CommittedDenial(w, o.index, EvidenceOf(w.returned, o.original).value);
    } else {
      LocalEvidence(w.returned, o);
    }
  }

  // ---------------------------------------------------------------- retry policy

  datatype RetryKind =
    | Eligible | PossibleExecution | CallerIntentInactive | FailureNotRetryable | RetryBudgetExhausted
    | DeadlineExhausted | AuthorizationNotCurrent | CapacityNotAdmitted | CircuitIsOpen

  datatype RetryContext = RetryContext(
    now: real, deadline: real, retriesUsed: nat, maxRetries: nat, callerIntentActive: bool,
    authorizationCurrent: bool, capacityAdmitted: bool, circuitAllows: bool)

  datatype RetryDecision = RetryDecision(
    kind: RetryKind, operationId: string, idempotencyKey: string, nextAttempt: Option<int>, delay: Option<real>)

  datatype Policy = Policy(base: real, maximum: real, jitter: real, window: real) {
    /** What the policy record's constructor accepts. */
    predicate Valid() { 0.0 < base <= maximum && 0.0 <= jitter <= 1.0 && 0.0 <= window }
  }

  predicate Retryable(k: FailureKind) {
    k.ConnectTimeout? || k.TransportUnavailable? || k.SendFailure? || k.JwksRefreshFailed? || k.CapacityRejected?
      || k.AuthoritativeNotExecuted?
  }

  function Blocked(e: FailureEvidence, c: RetryContext): Option<RetryKind> {
    if !e.execution.ProvenNotExecuted? then Some(PossibleExecution)
    else if !c.callerIntentActive then Some(CallerIntentInactive)
    else if !Retryable(e.kind) then Some(FailureNotRetryable)
    else if c.retriesUsed >= c.maxRetries then Some(RetryBudgetExhausted)
    else if c.now >= c.deadline then Some(DeadlineExhausted)
    else if !c.authorizationCurrent then Some(AuthorizationNotCurrent)
    else if !c.capacityAdmitted then Some(CapacityNotAdmitted)
    else if !c.circuitAllows then Some(CircuitIsOpen)
    else None
  }

  function Pow2(n: nat): real {
    if n == 0 then 1.0 else 2.0 * Pow2(n - 1)
  }

  function MinReal(a: real, b: real): real { if b < a then b else a }

  /** The capped exponential before jitter. */
  function Capped(p: Policy, doublings: nat): real {
    MinReal(p.maximum, p.base * Pow2(doublings))
  }

  /** The jittered delay; unit is the hash of the attempt as a fraction in [0, 1]. */
  function Delay(p: Policy, doublings: nat, unit: real): real {
    MinReal(p.maximum, Capped(p, doublings) * (1.0 + p.jitter * (2.0 * unit - 1.0)))
  }

  lemma {:induction false} Pow2AtLeastOne(n: nat)
    ensures Pow2(n) >= 1.0
  {
    if n > 0 { Pow2AtLeastOne(n - 1); }
  }

  lemma ProductMonotone(a: real, x: real, y: real)
    requires 0.0 <= a && x <= y
    ensures a * x <= a * y
  {
  }

  /** For every hash value the delay is positive-or-zero, at most the maximum and at least
      (1 - jitter) times the capped exponential. */
  lemma DelayIsBounded(p: Policy, doublings: nat, unit: real)
    requires p.Valid() && 0.0 <= unit <= 1.0
    ensures 0.0 <= (1.0 - p.jitter) * Capped(p, doublings) <= Delay(p, doublings, unit) <= p.maximum
    ensures Capped(p, doublings) > 0.0
  {
    Pow2AtLeastOne(doublings);
    ProductMonotone(p.base, 1.0, Pow2(doublings));
    var c := Capped(p, doublings);
    assert 0.0 < c <= p.maximum;
    ProductMonotone(p.jitter, -1.0, 2.0 * unit - 1.0);
    var factor := 1.0 + p.jitter * (2.0 * unit - 1.0);
    assert 1.0 - p.jitter <= factor;
    ProductMonotone(c, 1.0 - p.jitter, factor);
    ProductMonotone(c, 0.0, 1.0 - p.jitter);
    ProductMonotone(c, 1.0 - p.jitter, 1.0);
    assert c * (1.0 - p.jitter) == (1.0 - p.jitter) * c;
  }

  /** The capped exponential starts at the base and doubles until it meets the maximum; jitter
      spreads it evenly around that, by the hash, and never past the maximum. */
  lemma DelayDoubles(p: Policy, doublings: nat, unit: real)
    requires p.Valid() && 0.0 <= unit <= 1.0
    ensures Capped(p, 0) == p.base
    ensures Capped(p, doublings + 1) ==
      if 2.0 * Capped(p, doublings) < p.maximum then 2.0 * Capped(p, doublings) else p.maximum
    ensures var spread := Capped(p, doublings) * (1.0 - p.jitter + 2.0 * p.jitter * unit);
      Delay(p, doublings, unit) == if spread < p.maximum then spread else p.maximum
  {
    Pow2AtLeastOne(doublings);
    ProductMonotone(p.base, 1.0, Pow2(doublings));
    assert p.base * Pow2(doublings + 1) == 2.0 * (p.base * Pow2(doublings));
    assert 1.0 + p.jitter * (2.0 * unit - 1.0) == 1.0 - p.jitter + 2.0 * p.jitter * unit;
  }

  function Decide(p: Policy, e: FailureEvidence, c: RetryContext, unit: real): RetryDecision {
    var blocked := Blocked(e, c);
    if blocked.Some? then RetryDecision(blocked.value, e.operationId, e.idempotencyKey, None, None)
    else
      var delay := Delay(p, c.retriesUsed, unit);
      if c.now + delay + p.window > c.deadline
      then RetryDecision(DeadlineExhausted, e.operationId, e.idempotencyKey, None, None)
      else RetryDecision(Eligible, e.operationId, e.idempotencyKey, Some(e.attemptNumber + 1), Some(delay))
  }

  /** A retry is eligible exactly on proof of non-execution of a retryable failure, while the caller
      still wants it, is authorised and has capacity, and the delay and its window fit the deadline. */
  lemma EligibleExactly(p: Policy, e: FailureEvidence, c: RetryContext, unit: real)
    ensures var d, delay := Decide(p, e, c, unit), Delay(p, c.retriesUsed, unit);
      && (d.kind.Eligible? <==>
            && e.execution.ProvenNotExecuted? && c.callerIntentActive && c.authorizationCurrent && c.capacityAdmitted
            && c.circuitAllows && c.retriesUsed < c.maxRetries && c.now < c.deadline
            && c.now + delay + p.window <= c.deadline
            && e.kind in {ConnectTimeout, TransportUnavailable, SendFailure, JwksRefreshFailed, CapacityRejected,
                          AuthoritativeNotExecuted})
      && (d.kind.PossibleExecution? <==> !e.execution.ProvenNotExecuted?)
      && d.operationId == e.operationId && d.idempotencyKey == e.idempotencyKey
      && (d.kind.Eligible? ==> d.nextAttempt == Some(e.attemptNumber + 1) && d.delay == Some(delay))
      && (!d.kind.Eligible? ==> d.nextAttempt.None? && d.delay.None?)
  {
  }

  /** A plan is made exactly from an eligible decision on this very failure, under a new request id. */
  lemma PlansExactly(e: FailureEvidence, d: RetryDecision, requestId: RequestId, generation: Option<int>)
    ensures PlanAttempt(e, d, requestId, generation).Ok? <==>
      && d.kind.Eligible? && d.operationId == e.operationId && d.idempotencyKey == e.idempotencyKey
      && e.requestId != Some(requestId) && d.nextAttempt == Some(e.attemptNumber + 1) && d.delay.Some?
    ensures PlanAttempt(e, d, requestId, generation).Ok? ==>
      var a := PlanAttempt(e, d, requestId, generation).value;
      && a.operationId == e.operationId && a.idempotencyKey == e.idempotencyKey && a.requestId == requestId
      && a.attemptNumber == e.attemptNumber + 1 && a.generation == generation && Some(a.delay) == d.delay
  {
  }

  /** plan_retry_attempt. */
  function PlanAttempt(e: FailureEvidence, d: RetryDecision, requestId: RequestId, generation: Option<int>)
    : Result<DispatchStore.AttemptPlan, Refusal>
  {
    if !d.kind.Eligible? then Raised(NotEligible)
    else if d.operationId != e.operationId || d.idempotencyKey != e.idempotencyKey then Raised(IdentityChanged)
    else if Some(requestId) == e.requestId then Raised(StaleRequestId)
    else if d.nextAttempt != Some(e.attemptNumber + 1) || d.delay.None? then Raised(BadSequence)
    else Ok(DispatchStore.AttemptPlan(e.operationId, e.idempotencyKey, requestId, d.nextAttempt.value, d.delay.value,
      generation))
  }

  /** CapstoneRetryAttemptFactory.prepare. */
  function PrepareRetry(identity: Binding, tool: string, e: FailureEvidence, d: RetryDecision, requestId: RequestId,
                        generation: int): Result<RemoteRequestBinding, Refusal>
  {
    if !e.execution.ProvenNotExecuted? then Raised(NotProven)
    else if e.operationId != identity.operationId || e.idempotencyKey != identity.idempotencyKey
      then Raised(IdentityChanged)
    else if tool == "" || generation < 1 then Raised(MissingTransport)
    else
      var planned := PlanAttempt(e, d, requestId, Some(generation));
      if planned.Raised? then Raised(planned.error)
      else Ok(RemoteRequestBinding(RemoteRequestKey(generation, planned.value.requestId), planned.value.operationId,
                                   planned.value.idempotencyKey, planned.value.attemptNumber))
  }

  // ---------------------------------------------------------------- recover, reconcile, commit, retry

  /** CapstoneRecoveryCoordinator.plan: the binding and the unknown failure of a crashed dispatch. */
  function PlanRecovery(r: DispatchStore.DispatchRecord): Result<(Binding, FailureEvidence), Refusal> {
    if !r.state.DispatchStarted? then Raised(NotADispatch)
    else if r.tenantId.None? || r.resourceId.None? || r.requestId.None? || r.generation.None?
      then Raised(IncompleteIdentity)
    else
      var e := RecoverAbandoned(r);
      if e.Raised? then Raised(e.error)
      else Ok((Binding(r.operationId, r.idempotencyKey, r.tenantId.value, r.resourceId.value), e.value))
  }

  /** A crashed dispatch is recovered exactly if it was started and knows its whole binding; what
      is then known is that it may have been sent and executed. */
  lemma RecoversExactly(r: DispatchStore.DispatchRecord)
    ensures PlanRecovery(r).Ok? <==>
      && r.state.DispatchStarted? && r.tenantId.Some? && r.resourceId.Some? && r.requestId.Some? && r.generation.Some?
      && r.operationId != "" && r.idempotencyKey != "" && 1 <= r.attemptNumber
    ensures PlanRecovery(r).Ok? ==>
      var (b, e) := PlanRecovery(r).value;
      && b.operationId == r.operationId && b.idempotencyKey == r.idempotencyKey
      && Some(b.tenantId) == r.tenantId && Some(b.resourceId) == r.resourceId
      && e.operationId == r.operationId && e.idempotencyKey == r.idempotencyKey && e.requestId == r.requestId
      && e.attemptNumber == r.attemptNumber && e.dispatch.PossiblySent? && e.execution.PossiblyExecuted?
      && e.kind.DispatchOwnerLost?
  {
  }

  /** Everything a retry after a crash depends on besides the crashed record and the commit. */
  datatype Retrying = Retrying(
    policy: Policy, context: RetryContext, unit: real, requestId: RequestId, generation: int, tool: string)

  /** From a crashed dispatch and a result that some committer returned to a new attempt. */
  function RetryAfterCrash(returned: seq<Returned>, index: nat, r: DispatchStore.DispatchRecord, x: Retrying)
    : Result<RemoteRequestBinding, Refusal>
  {
    var recovery := PlanRecovery(r);
    if recovery.Raised? then Raised(recovery.error)
    else if index >= |returned| then Raised(NotACommittedFact) else
    var (binding, failure) := recovery.value;
    var evidence := NotExecutedEvidence(returned[index].result, failure);
    if evidence.Raised? then Raised(evidence.error)
    else PrepareRetry(binding, x.tool, evidence.value, Decide(x.policy, evidence.value, x.context, x.unit),
      x.requestId, x.generation)
  }

  /** What every new attempt after a crash looks like. */
  lemma RetryKeepsIdentity(returned: seq<Returned>, index: nat, r: DispatchStore.DispatchRecord, x: Retrying)
    requires RetryAfterCrash(returned, index, r, x).Ok?
    ensures r.state.DispatchStarted? && r.tenantId.Some? && r.resourceId.Some? && index < |returned|
    ensures PlanRecovery(r).Ok? && NotExecutedEvidence(returned[index].result, PlanRecovery(r).value.1).Ok?
    ensures PlanRecovery(r).value.1.operationId == r.operationId
      && PlanRecovery(r).value.1.idempotencyKey == r.idempotencyKey
    ensures var a := RetryAfterCrash(returned, index, r, x).value;
      && a.operationId == r.operationId && a.idempotencyKey == r.idempotencyKey
      && a.attemptNumber == r.attemptNumber + 1 && Some(a.key.requestId) != r.requestId
      && a.key.generation == x.generation >= 1
    ensures x.context.callerIntentActive && x.context.authorizationCurrent
      && x.context.retriesUsed < x.context.maxRetries
  {
  }

  /** However reconcilers race, a crashed dispatch becomes a new attempt only if the authority
      was heard to say, about the binding that is stored for this operation and key, that it
      was not executed, and that answer was committed for good; and the attempt keeps the
      operation and its key, is the next in sequence and has a request id of its own. The proof
      is about the crashed dispatch's own tenant and resource exactly when the commit that is
      used was made for them. */
  lemma RetryOnlyOnCommittedProof(steps: seq<Step>, index: nat, r: DispatchStore.DispatchRecord, x: Retrying)
    requires RetryAfterCrash(Run(Empty, steps).returned, index, r, x).Ok?
    ensures var w := Run(Empty, steps);
      && Denied(w, r.operationId, r.idempotencyKey)
      && r.state.DispatchStarted? && r.tenantId.Some? && r.resourceId.Some? && index < |w.returned|
      && var own := Binding(r.operationId, r.idempotencyKey, r.tenantId.value, r.resourceId.value);
         w.table[r.operationId].binding == own <==> w.returned[index].ticket.proposal.binding == own
    ensures var a := RetryAfterCrash(Run(Empty, steps).returned, index, r, x).value;
      && a.operationId == r.operationId && a.idempotencyKey == r.idempotencyKey
      && a.attemptNumber == r.attemptNumber + 1 && Some(a.key.requestId) != r.requestId
      && a.key.generation == x.generation >= 1
    ensures x.context.callerIntentActive && x.context.authorizationCurrent
      && x.context.retriesUsed < x.context.maxRetries
  {
    var w := Run(Empty, steps);
    ResolutionsAreBacked(Empty, steps);
    RetryKeepsIdentity(w.returned, index, r, x);
    CommittedDenial(w, index, PlanRecovery(r).value.1);
  }

  /** One reconciler from registration to commit, alone, with an authority that denies execution. */
  function DenialRun(binding: Binding, failure: FailureEvidence, source: string): seq<Step> {
    var answer := Answer(binding, NotExecuted, source, None);
    var k := Ticket(ReconcileOnce(failure, binding, answer), 1, true);
    [AddPending(binding), Observe(failure, binding, answer), CommitRead(k), CompareAndSet(k)]
  }

  lemma DenialCommits(binding: Binding, failure: FailureEvidence, source: string)
    requires Queries(failure, binding)
    ensures var w := Run(Empty, DenialRun(binding, failure, source));
      && |w.returned| == 1
      && w.returned[0].result == CommitResult(
           Committed, Some(Record(binding, true, 2, Some(BusinessNotExecuted), Some(NotApplicable), None,
           Some(source))))
  {
    var steps := DenialRun(binding, failure, source);
    var w1 := Next(Empty, steps[0]);
    var w2 := Next(w1, steps[1]);
    var w3 := Next(w2, steps[2]);
    var w4 := Next(w3, steps[3]);
    assert steps[1..][0] == steps[1] && steps[1..][1..][0] == steps[2] && steps[1..][1..][1..][0] == steps[3];
    calc {
      Run(Empty, steps);
      Run(w1, steps[1..]);
      Run(w2, steps[1..][1..]);
      Run(w3, steps[1..][1..][1..]);
      Run(w4, steps[1..][1..][1..][1..]);
      w4;
    }
  }

  /** The converse: once such a denial is committed and the policy finds the retry eligible, the
      attempt is made. The conversion compares operation and key only, so this holds for a
      commit under any tenant and resource. */
  lemma CommittedDenialGivesRetry(r: DispatchStore.DispatchRecord, binding: Binding, source: string, x: Retrying)
    requires PlanRecovery(r).Ok? && source != ""
    requires binding.operationId == r.operationId && binding.idempotencyKey == r.idempotencyKey
    requires Some(x.requestId) != r.requestId && x.tool != "" && x.generation >= 1
    requires var failure := PlanRecovery(r).value.1;
      Decide(x.policy, failure.(phase := FailurePhase.Reconciliation, kind := AuthoritativeNotExecuted,
                                execution := ProvenNotExecuted, source := source), x.context, x.unit).kind.Eligible?
    ensures RetryAfterCrash(Run(Empty, DenialRun(binding, PlanRecovery(r).value.1, source)).returned, 0, r, x).Ok?
  {
    DenialCommits(binding, PlanRecovery(r).value.1, source);
  }

  /** Without that commit nothing helps: the evidence of the crash itself is never eligible. */
  lemma CrashAloneIsNeverRetried(r: DispatchStore.DispatchRecord, p: Policy, c: RetryContext, unit: real,
                                 requestId: RequestId, generation: Option<int>)
    requires RecoverAbandoned(r).Ok?
    ensures Decide(p, RecoverAbandoned(r).value, c, unit).kind.PossibleExecution?
    ensures PlanAttempt(RecoverAbandoned(r).value, Decide(p, RecoverAbandoned(r).value, c, unit), requestId,
      generation).Raised?
    ensures forall t, tenant, resource, tool, version, fence ::
      DispatchStore.AddRetryable(t, RecoverAbandoned(r).value, tenant, resource, tool, version, fence).Raised?
  {
  }

  // ---------------------------------------------------------------- the bounded schedule

  datatype Schedule = Schedule(
    binding: Binding, queriesUsed: nat, maximumQueries: nat, deadline: real, nextQueryAt: Option<real>,
    alertEmitted: bool)
  {
    /** What the schedule record's constructor accepts. */
    predicate Valid() { 1 <= maximumQueries && queriesUsed <= maximumQueries }
  }

  datatype ScheduleOutcome = NextQueryScheduled | ResolutionReady | AlertRequired | AlreadyAlerted

  datatype AlertReason = ConflictingEvidence | QueryBudgetExhausted | ReconciliationDeadlineExhausted

  datatype AdvanceError = ScheduleBindingMismatch | QueriesExceedBudget

  /** An advance either answers or raises; in both cases it may already have alerted. */
  datatype Advanced = Advanced(alert: Option<AlertReason>, result: Result<(ScheduleOutcome, Schedule), AdvanceError>)

  /** BoundedReconciliationPolicy.advance. */
  function Advance(p: Policy, d: Decision, s: Schedule, now: real, unit: real): Advanced {
    if d.binding != s.binding then Advanced(None, Raised(ScheduleBindingMismatch))
    else if Resolved(d.kind) then Advanced(None, Ok((ResolutionReady, s.(nextQueryAt := None))))
    else if s.alertEmitted then Advanced(None, Ok((AlreadyAlerted, s)))
    else
      var used := s.queriesUsed + 1;
      var delay := Delay(p, used - 1, unit);
      if used >= s.maximumQueries || now + delay + p.window > s.deadline || d.kind.EvidenceConflict? then
        var reason := if d.kind.EvidenceConflict? then ConflictingEvidence
                      else if used >= s.maximumQueries then QueryBudgetExhausted else ReconciliationDeadlineExhausted;
        Advanced(Some(reason),
                 if used > s.maximumQueries then Raised(QueriesExceedBudget)
                 else Ok((AlertRequired, s.(queriesUsed := used, nextQueryAt := None, alertEmitted := true))))
      else
        Advanced(None, Ok((NextQueryScheduled, s.(queriesUsed := used, nextQueryAt := Some(now + delay)))))
  }

  /** Each answer of an advance by its condition, with the reason of an alert. */
  lemma AdvancesExactly(p: Policy, d: Decision, s: Schedule, now: real, unit: real)
    ensures var a := Advance(p, d, s, now, unit);
      var at := now + Delay(p, s.queriesUsed, unit);
      var open := d.binding == s.binding && !Resolved(d.kind) && !s.alertEmitted;
      var stops := d.kind.EvidenceConflict? || s.queriesUsed + 1 >= s.maximumQueries || at + p.window > s.deadline;
      && (a.result == Raised(ScheduleBindingMismatch) <==> d.binding != s.binding)
      && (a.result.Ok? && a.result.value.0.ResolutionReady? <==> d.binding == s.binding && Resolved(d.kind))
      && (a.result.Ok? && a.result.value.0.AlreadyAlerted? <==>
            d.binding == s.binding && !Resolved(d.kind) && s.alertEmitted)
      && (a.result.Ok? && a.result.value.0.NextQueryScheduled? <==> open && !stops)
      && (open && !stops ==>
            a.result.value.1 == s.(queriesUsed := s.queriesUsed + 1, nextQueryAt := Some(at)))
      && (a.result.Ok? && a.result.value.0.ResolutionReady? ==> a.result.value.1 == s.(nextQueryAt := None))
      && (a.result.Ok? && a.result.value.0.AlertRequired? ==>
            a.result.value.1 == s.(queriesUsed := s.queriesUsed + 1, nextQueryAt := None, alertEmitted := true))
      && (a.alert.Some? <==> open && stops)
      && (a.alert == Some(ConflictingEvidence) <==> open && d.kind.EvidenceConflict?)
      && (a.alert == Some(QueryBudgetExhausted) <==>
            open && !d.kind.EvidenceConflict? && s.queriesUsed + 1 >= s.maximumQueries)
  {
  }

  datatype Tick = Tick(decision: Decision, now: real, unit: real)

  /** The schedule state, what was alerted, and the queries that were scheduled. */
  datatype ScheduleWorld = ScheduleWorld(state: Schedule, alerts: seq<AlertReason>, scheduled: seq<real>)

  function NextTick(p: Policy, w: ScheduleWorld, t: Tick): ScheduleWorld {
    var a := Advance(p, t.decision, w.state, t.now, t.unit);
    ScheduleWorld(
      if a.result.Ok? then a.result.value.1 else w.state,
      if a.alert.Some? then w.alerts + [a.alert.value] else w.alerts,
      if a.result.Ok? && a.result.value.0.NextQueryScheduled? && a.result.value.1.nextQueryAt.Some?
      then w.scheduled + [a.result.value.1.nextQueryAt.value] else w.scheduled)
  }

  function Ticks(p: Policy, w: ScheduleWorld, ts: seq<Tick>): ScheduleWorld
    decreases |ts|
  {
    if ts == [] then w else Ticks(p, NextTick(p, w, ts[0]), ts[1..])
  }

  ghost predicate Bounded(p: Policy, s0: Schedule, w: ScheduleWorld) {
    var s := w.state;
    && s.binding == s0.binding && s.maximumQueries == s0.maximumQueries && s.deadline == s0.deadline
    && s0.queriesUsed <= s.queriesUsed <= s.maximumQueries
    && (!s.alertEmitted ==> s.queriesUsed < s.maximumQueries && w.alerts == [])
    && |w.alerts| == (if s.alertEmitted then 1 else 0)
    && |w.scheduled| + |w.alerts| == s.queriesUsed - s0.queriesUsed
    && (forall i :: 0 <= i < |w.scheduled| ==> w.scheduled[i] + p.window <= s.deadline)
    && (s.alertEmitted ==> s.nextQueryAt.None?)
  }

  /** Starting un-alerted with queries left, any sequence of advances with any clock keeps
      the queries within the maximum, alerts at most once, spends one query on each schedule
      and one on the alert, and schedules only queries that fit the deadline. */
  lemma {:induction false} SchedulingIsBounded(p: Policy, s0: Schedule, w: ScheduleWorld, ts: seq<Tick>)
    requires Bounded(p, s0, w)
    ensures Bounded(p, s0, Ticks(p, w, ts))
    ensures w.state.alertEmitted ==> Ticks(p, w, ts).scheduled == w.scheduled && Ticks(p, w, ts).alerts == w.alerts
    decreases |ts|
  {
    if ts != [] {
      SchedulingIsBounded(p, s0, NextTick(p, w, ts[0]), ts[1..]);
    }
  }

  function Repeated(t: Tick, n: nat): (ts: seq<Tick>)
    ensures |ts| == n && (forall i :: 0 <= i < n ==> ts[i] == t)
  {
    seq(n, i => t)
  }

  /** Queries left is exactly what the alert bound needs: an un-alerted schedule that has used
      all its queries alerts again on every unresolved advance, because recording the alert fails. */
  lemma {:induction false} ExhaustedScheduleKeepsAlerting(p: Policy, w: ScheduleWorld, t: Tick, n: nat)
    requires w.state.Valid() && !w.state.alertEmitted && w.state.queriesUsed == w.state.maximumQueries
    requires t.decision.binding == w.state.binding && !Resolved(t.decision.kind)
    ensures |Ticks(p, w, Repeated(t, n)).alerts| == |w.alerts| + n
    decreases n
  {
    if n > 0 {
      assert Repeated(t, n)[1..] == Repeated(t, n - 1);
      ExhaustedScheduleKeepsAlerting(p, NextTick(p, w, t), t, n - 1);
    }
  }

  /** So at most one alert is ever emitted, whatever follows, if and only if the schedule
      starts already alerted or with a query left. */
  lemma AlertsOnceIffQueriesLeft(p: Policy, s: Schedule)
    requires s.Valid()
    ensures (forall ts :: |Ticks(p, ScheduleWorld(s, [], []), ts).alerts| <= 1)
            <==> (s.alertEmitted || s.queriesUsed < s.maximumQueries)
  {
    var w := ScheduleWorld(s, [], []);
    if s.alertEmitted {
      forall ts ensures |Ticks(p, w, ts).alerts| <= 1 { AlertedStaysQuiet(p, w, ts); }
    } else if s.queriesUsed < s.maximumQueries {
      forall ts ensures |Ticks(p, w, ts).alerts| <= 1 { SchedulingIsBounded(p, s, w, ts); }
    } else {
      var t := Tick(Decision(StillPending, s.binding, None, None), 0.0, 0.0);
      ExhaustedScheduleKeepsAlerting(p, w, t, 2);
      assert |Ticks(p, w, Repeated(t, 2)).alerts| == 2;
    }
  }

  lemma {:induction false} AlertedStaysQuiet(p: Policy, w: ScheduleWorld, ts: seq<Tick>)
    requires w.state.alertEmitted
    ensures Ticks(p, w, ts).alerts == w.alerts
    decreases |ts|
  {
    if ts != [] {
      AlertedStaysQuiet(p, NextTick(p, w, ts[0]), ts[1..]);
    }
  }
}
