/** Durable agent jobs: recovery decisions, the conditional store and the outbox consumer. */
module DurableJobs {
  import opened Common
  import opened Records

  datatype RecoveryRequest = RecoveryRequest(
    recoveryId: Identifier, tenantId: string, jobId: string, stepId: string, attemptId: string,
    checkpointId: Identifier, expectedState: AgentState, expectedStateVersion: int, expectedFence: int,
    now: int, certainty: ExternalCertainty, currentAuthorization: bool, bindingAllowed: bool,
    repairRequired: bool, effectUnwanted: bool, verifiedUsage: Option<int>)

  datatype IntentAction = NoIntent | CreateRecoveryIntent

  datatype RecoveryCandidate = RecoveryCandidate(
    request: RecoveryRequest, decision: RecoveryDecision, nextState: AgentState,
    reservation: ReservationAction, intent: IntentAction, evidence: seq<Evidence>)

  datatype ApplyStatus = Applied | DuplicateReplay | NoopStale | NoopTerminal | NotApplicable

  datatype StoreError = UsageDoesNotFit

  predicate SameIdentity(j: Job, r: RecoveryRequest) {
    && r.tenantId == j.tenantId && r.jobId == j.jobId && r.stepId == j.stepId
    && r.attemptId == j.attemptId && r.checkpointId == j.checkpoint.checkpointId
  }

  predicate SameVersions(j: Job, r: RecoveryRequest) {
    r.expectedState == j.state && r.expectedStateVersion == j.stateVersion && r.expectedFence == j.fenceToken
  }

  predicate AutomaticRecoveryAvailable(r: RecoveryOperation) {
    r.attemptsUsed < r.attemptLimit
  }

  function UnlessTerminal(current: AgentState, next: AgentState): AgentState {
    if Terminal(current) then current else next
  }

  /** The deterministic recovery candidate; it changes nothing. */
  function DecideRecovery(j: Job, op: RecoveryOperation, r: RecoveryRequest): RecoveryCandidate {
    if !SameIdentity(j, r) then
      RecoveryCandidate(r, RejectStale, j.state, NoChange, NoIntent, [ReloadAuthoritativeRecord])
    else if !SameVersions(j, r) then
      RecoveryCandidate(r, RejectStale, j.state, NoChange, NoIntent, [ApplyWouldAffectZeroRows])
    else if !AutomaticRecoveryAvailable(op) || r.now >= op.deadline then
      RecoveryCandidate(r, Escalate, UnlessTerminal(j.state, PendingReconciliation), KeepHeld, NoIntent,
                        [OperatorFollowUpRequired])
    else if r.certainty.OutcomeUnknown? then
      RecoveryCandidate(r, Reconcile, UnlessTerminal(j.state, PendingReconciliation), KeepHeld,
                        CreateRecoveryIntent, [OriginalAttemptIdentityPreserved, UnknownUsageIsNotZero])
    else if r.repairRequired then
      RecoveryCandidate(r, Repair, j.state, NoChange, NoIntent, [AppendOnlyRepairAudit])
    else if r.effectUnwanted then
      if !r.currentAuthorization then
        RecoveryCandidate(r, Blocked, j.state, NoChange, NoIntent, [VerifiedEffectRemains])
      else
        RecoveryCandidate(r, Compensate, j.state, NoChange, CreateRecoveryIntent, [SourceAttemptNotRewritten])
    else if r.verifiedUsage.Some? then
      RecoveryCandidate(r, Settle, j.state, SettleVerified, NoIntent, [VerifiedUsageEvidence])
    else if Terminal(j.state) then
      RecoveryCandidate(r, TerminalNoop, j.state, NoChange, NoIntent, [TerminalHistoryPreserved])
    else if !r.bindingAllowed then
      if !r.currentAuthorization then
        RecoveryCandidate(r, Blocked, j.state, Release, NoIntent, [OldBindingNotRewritten])
      else
        RecoveryCandidate(r, Replan, Waiting, Release, CreateRecoveryIntent, [OldBindingNotRewritten])
    else if r.certainty.DefinitelyNotDispatched? then
      if !r.currentAuthorization then
        RecoveryCandidate(r, Blocked, j.state, Release, NoIntent, [])
      else
        RecoveryCandidate(r, Retry, Running, Release, CreateRecoveryIntent, [NewAttemptIdentityRequired])
    else
      RecoveryCandidate(r, Resume, j.state, NoChange, NoIntent, [ImmutableBindingsPreserved])
  }

  // ---------------------------------------------------------------- reservations

  predicate UsageFits(r: Reservation, usage: Option<int>) {
    usage.Some? && 0 <= usage.value <= r.reserved
  }

  /** Settlement touches every reservation of the attempt, and fails on the first misfit. */
  predicate SettlementFits(rs: seq<Reservation>, c: RecoveryCandidate) {
    c.reservation.SettleVerified? ==>
      forall i :: 0 <= i < |rs| && rs[i].attemptId == c.request.attemptId ==> UsageFits(rs[i], c.request.verifiedUsage)
  }

  function UpdateReservation(r: Reservation, c: RecoveryCandidate): Reservation {
    if r.attemptId != c.request.attemptId then r
    else if c.reservation.Release? then r.(status := Released, released := r.reserved)
    else if c.reservation.SettleVerified? && UsageFits(r, c.request.verifiedUsage) then
      r.(status := Settled, settled := Some(c.request.verifiedUsage.value),
         released := r.reserved - c.request.verifiedUsage.value)
    else r
  }

  function UpdateReservations(rs: seq<Reservation>, c: RecoveryCandidate): (out: seq<Reservation>)
    ensures |out| == |rs|
    ensures forall i :: 0 <= i < |rs| ==> out[i] == UpdateReservation(rs[i], c)
  {
    seq(|rs|, i requires 0 <= i < |rs| => UpdateReservation(rs[i], c))
  }

  // ---------------------------------------------------------------- the store

  predicate TerminalAllowed(d: RecoveryDecision) {
    d.Reconcile? || d.Repair? || d.Settle? || d.Compensate? || d.Escalate?
  }

  function ApplyGuard(j: Job, applied: set<Identifier>, c: RecoveryCandidate): ApplyStatus {
    if c.request.recoveryId in applied then DuplicateReplay
    else if !SameIdentity(j, c.request) || !SameVersions(j, c.request) then NoopStale
    else if Terminal(j.state) && !TerminalAllowed(c.decision) then NoopTerminal
    else if c.decision.RejectStale? || c.decision.TerminalNoop? then NotApplicable
    else if c.decision.Blocked? && c.reservation.NoChange? && c.intent.NoIntent? then NotApplicable
    else Applied
  }

  function RecoveryEvent(c: RecoveryCandidate): Identifier {
    Prefixed(RecoveryPrefix, c.request.recoveryId)
  }

  /** The record after an applied recovery candidate. */
  function Recovered(j: Job, c: RecoveryCandidate): Job {
    var cp := j.checkpoint;
    j.(state := c.nextState,
       stateVersion := j.stateVersion + 1,
       fenceToken := j.fenceToken + 1,
       checkpoint := cp.(checkpointId := RecoveryCheckpoint(cp.checkpointId, cp.checkpointVersion,
                         c.request.recoveryId), checkpointVersion := cp.checkpointVersion + 1,
                         authoritativeState := c.nextState,
                         stateVersion := j.stateVersion + 1,
                         fenceToken := j.fenceToken + 1,
                         previousId := Some(cp.checkpointId)),
       reservations := UpdateReservations(j.reservations, c),
       recoveries := j.recoveries + [RecoveryOperation(c.request.recoveryId, j.attemptId, j.leaseGeneration, 1, 1, 0,
                                                       Some(EvidenceDigest(c.evidence)))],
       outbox := if c.intent.CreateRecoveryIntent?
                 then j.outbox + [OutboxIntent(RecoveryEvent(c), j.jobId, j.stepId, j.attemptId,
                                               RecoveryIntent(c.decision), None)]
                 else j.outbox,
       audit := j.audit + [RecoveryApplied(c.request.recoveryId)])
  }

  function TakenOver(j: Job, worker: string): Job {
    j.(leaseOwner := Some(worker), leaseExpiry := None, leaseGeneration := j.leaseGeneration + 1,
       fenceToken := j.fenceToken + 1, audit := j.audit + [LeaseTakenOver(worker)])
  }

  predicate MayTakeOver(j: Job, now: int) {
    j.leaseExpiry.Some? && j.leaseExpiry.value <= now && !Terminal(j.state)
  }

  predicate Authorised(j: Job, worker: string, fence: int) {
    j.leaseOwner == Some(worker) && j.fenceToken == fence && !Terminal(j.state)
  }

  /** InMemoryDurableAgentJobStore: one record and the recovery ids already applied. */
  class DurableJobStore {
    var record: Job
    var appliedIds: set<Identifier>

    constructor (initial: Job)
      ensures record == initial && appliedIds == {}
    {
      record := initial;
      appliedIds := {};
    }

    method Apply(c: RecoveryCandidate) returns (r: Result<ApplyStatus, StoreError>)
      modifies this
      ensures var guard := old(ApplyGuard(record, appliedIds, c));
        if guard == Applied && !old(SettlementFits(record.reservations, c)) then
          r == Raised(UsageDoesNotFit) && record == old(record) && appliedIds == old(appliedIds)
        else if guard == Applied then
          r == Ok(Applied) && record == Recovered(old(record), c) && appliedIds == old(appliedIds)
            + {c.request.recoveryId}
        else
          r == Ok(guard) && record == old(record) && appliedIds == old(appliedIds)
    {
      var current := record;
      var guard := ApplyGuard(current, appliedIds, c);
      if guard != Applied {
        return Ok(guard);
      }
      var reservations := current.reservations;
      var index := 0;
      while index < |reservations|
        invariant 0 <= index <= |reservations| == |current.reservations|
        invariant forall k :: 0 <= k < index ==> reservations[k] == UpdateReservation(current.reservations[k], c)
        invariant forall k :: index <= k < |reservations| ==> reservations[k] == current.reservations[k]
        invariant SettlementFits(current.reservations[..index], c)
        invariant record == old(record) && appliedIds == old(appliedIds)
      {
        var reservation := reservations[index];
        if reservation.attemptId == c.request.attemptId {
          if c.reservation.Release? {
            reservations := reservations[index := reservation.(status := Released, released := reservation.reserved)];
          } else if c.reservation.SettleVerified? {
            var actual := c.request.verifiedUsage;
            if actual.None? || !(0 <= actual.value <= reservation.reserved) {
              assert !UsageFits(current.reservations[index], c.request.verifiedUsage);
              return Raised(UsageDoesNotFit);
            }
            reservations := reservations[index := reservation.(status := Settled, settled := Some(actual.value),
                                                               released := reservation.reserved - actual.value)];
          }
        }
        index := index + 1;
      }
      assert current.reservations[..index] == current.reservations;
      assert reservations == UpdateReservations(current.reservations, c);
      var cp := current.checkpoint;
      var intents := current.outbox;
      if c.intent.CreateRecoveryIntent? {
        intents := intents + [OutboxIntent(RecoveryEvent(c), current.jobId, current.stepId, current.attemptId,
                                           RecoveryIntent(c.decision), None)];
      }
      var next := cp.(checkpointId := RecoveryCheckpoint(cp.checkpointId, cp.checkpointVersion, c.request.recoveryId),
        checkpointVersion := cp.checkpointVersion + 1, authoritativeState := c.nextState,
        stateVersion := current.stateVersion + 1, fenceToken := current.fenceToken + 1,
        previousId := Some(cp.checkpointId));
      var operation := RecoveryOperation(c.request.recoveryId, current.attemptId, current.leaseGeneration, 1, 1, 0,
                                         Some(EvidenceDigest(c.evidence)));
      record := current.(state := c.nextState, stateVersion := current.stateVersion + 1,
        fenceToken := current.fenceToken + 1, checkpoint := next, reservations := reservations,
        recoveries := current.recoveries + [operation], outbox := intents,
        audit := current.audit + [RecoveryApplied(c.request.recoveryId)]);
      appliedIds := appliedIds + {c.request.recoveryId};
      return Ok(Applied);
    }

    method TakeOverExpiredLease(worker: string, now: int) returns (taken: bool)
      modifies this`record
      ensures taken == old(MayTakeOver(record, now))
      ensures record == if taken then TakenOver(old(record), worker) else old(record)
    {
      if record.leaseExpiry.None? || record.leaseExpiry.value > now || Terminal(record.state) {
        return false;
      }
      record := TakenOver(record, worker);
      return true;
    }

    method AcceptResult(worker: string, fence: int, evidenceId: string) returns (authorised: bool)
      modifies this`record
      ensures authorised == old(Authorised(record, worker, fence))
      ensures record == old(record).(audit := old(record).audit + [ResultSeen(evidenceId)])
    {
      authorised := record.leaseOwner == Some(worker) && record.fenceToken == fence && !Terminal(record.state);
      record := record.(audit := record.audit + [ResultSeen(evidenceId)]);
    }
  }

  // ---------------------------------------------------------------- what is decided, exactly

  /** The request names this record in every respect. */
  ghost predicate NamesRecord(j: Job, r: RecoveryRequest) {
    && r.tenantId == j.tenantId && r.jobId == j.jobId && r.stepId == j.stepId && r.attemptId == j.attemptId
    && r.checkpointId == j.checkpoint.checkpointId && r.expectedState == j.state
    && r.expectedStateVersion == j.stateVersion && r.expectedFence == j.fenceToken
  }

  ghost predicate InBudget(j: Job, op: RecoveryOperation, r: RecoveryRequest) {
    NamesRecord(j, r) && op.attemptsUsed < op.attemptLimit && r.now < op.deadline
  }

  /** The outcome is known and nothing is left to repair or undo. */
  ghost predicate Ordinary(j: Job, op: RecoveryOperation, r: RecoveryRequest) {
    InBudget(j, op, r) && !r.certainty.OutcomeUnknown? && !r.repairRequired && !r.effectUnwanted
  }

  /** Nothing is to be accounted for either, and the job is still live. */
  ghost predicate Resumable(j: Job, op: RecoveryOperation, r: RecoveryRequest) {
    Ordinary(j, op, r) && r.verifiedUsage.None? && !Terminal(j.state)
  }

  ghost predicate Asks(c: RecoveryCandidate, next: AgentState, reservation: ReservationAction, intent: IntentAction) {
    c.nextState == next && c.reservation == reservation && c.intent == intent
  }

  /** When a request is refused, escalated or queried, and what that asks for. */
  lemma UnresolvedDecidedExactly(j: Job, op: RecoveryOperation, r: RecoveryRequest)
    ensures var c := DecideRecovery(j, op, r);
      && c.request == r
      && (c.decision.RejectStale? <==> !NamesRecord(j, r))
      && (c.decision.RejectStale? ==> Asks(c, j.state, NoChange, NoIntent))
      && (c.evidence == [ApplyWouldAffectZeroRows] <==>
            && !NamesRecord(j, r) && r.tenantId == j.tenantId && r.jobId == j.jobId && r.stepId == j.stepId
            && r.attemptId == j.attemptId && r.checkpointId == j.checkpoint.checkpointId)
      && (c.decision.Escalate? <==> NamesRecord(j, r) && !InBudget(j, op, r))
      && (c.decision.Escalate? ==>
            Asks(c, if Terminal(j.state) then j.state else PendingReconciliation, KeepHeld, NoIntent))
      && (c.decision.Reconcile? <==> InBudget(j, op, r) && r.certainty.OutcomeUnknown?)
      && (c.decision.Reconcile? ==>
            Asks(c, if Terminal(j.state) then j.state else PendingReconciliation, KeepHeld, CreateRecoveryIntent))
  {
  }

  /** When a known outcome is repaired, undone or settled, and what that asks for. */
  lemma KnownDecidedExactly(j: Job, op: RecoveryOperation, r: RecoveryRequest)
    ensures var c := DecideRecovery(j, op, r);
      var known := InBudget(j, op, r) && !r.certainty.OutcomeUnknown?;
      && (c.decision.Repair? <==> known && r.repairRequired)
      && (c.decision.Repair? ==> Asks(c, j.state, NoChange, NoIntent))
      && (c.decision.Compensate? <==> known && !r.repairRequired && r.effectUnwanted && r.currentAuthorization)
      && (c.decision.Compensate? ==> Asks(c, j.state, NoChange, CreateRecoveryIntent))
      && (c.decision.Settle? <==> Ordinary(j, op, r) && r.verifiedUsage.Some?)
      && (c.decision.Settle? ==> Asks(c, j.state, SettleVerified, NoIntent))
      && (c.decision.TerminalNoop? <==> Ordinary(j, op, r) && r.verifiedUsage.None? && Terminal(j.state))
      && (c.decision.TerminalNoop? ==> Asks(c, j.state, NoChange, NoIntent))
  {
  }

  /** When a live job goes on or is blocked, and what that asks for. */
  lemma LiveDecidedExactly(j: Job, op: RecoveryOperation, r: RecoveryRequest)
    ensures var c := DecideRecovery(j, op, r);
      var unwanted := InBudget(j, op, r) && !r.certainty.OutcomeUnknown? && !r.repairRequired && r.effectUnwanted;
      var undone := Resumable(j, op, r) && (!r.bindingAllowed || r.certainty.DefinitelyNotDispatched?);
      && (c.decision.Replan? <==> Resumable(j, op, r) && !r.bindingAllowed && r.currentAuthorization)
      && (c.decision.Replan? ==> Asks(c, Waiting, Release, CreateRecoveryIntent))
      && (c.decision.Retry? ==> Asks(c, Running, Release, CreateRecoveryIntent))
      && (c.decision.Resume? <==> Resumable(j, op, r) && r.bindingAllowed && !r.certainty.DefinitelyNotDispatched?)
      && (c.decision.Resume? ==> Asks(c, j.state, NoChange, NoIntent))
      && (c.decision.Blocked? <==> !r.currentAuthorization && (unwanted || undone))
      && (c.decision.Blocked? ==> Asks(c, j.state, if unwanted then NoChange else Release, NoIntent))
  {
  }

  /** The store's answer, by the condition of each. */
  lemma StoreAnswersExactly(j: Job, applied: set<Identifier>, c: RecoveryCandidate)
    ensures var a := ApplyGuard(j, applied, c);
      var known, named := c.request.recoveryId in applied, NamesRecord(j, c.request);
      && (a.DuplicateReplay? <==> known)
      && (a.NoopStale? <==> !known && !named)
      && (a.NoopTerminal? <==>
            && !known && named && Terminal(j.state) && !c.decision.Reconcile? && !c.decision.Repair?
            && !c.decision.Settle? && !c.decision.Compensate? && !c.decision.Escalate?)
      && (a.Applied? ==> !c.decision.RejectStale? && !c.decision.TerminalNoop?)
  {
  }

  /** What an applied candidate does to the reservations: those of the attempt are released in
      full, or settled at the verified usage with the rest released; all others are left alone. */
  ghost predicate Accounted(before: seq<Reservation>, after: seq<Reservation>, c: RecoveryCandidate) {
    && |after| == |before|
    && forall i :: 0 <= i < |before| ==>
         && after[i].reservationId == before[i].reservationId && after[i].attemptId == before[i].attemptId
         && after[i].reserved == before[i].reserved
         && if before[i].attemptId == c.request.attemptId && c.reservation.Release? then
              after[i].status.Released? && after[i].released == before[i].reserved
                && after[i].settled == before[i].settled
            else if before[i].attemptId == c.request.attemptId && c.reservation.SettleVerified? then
              && after[i].status.Settled? && c.request.verifiedUsage.Some? && after[i].settled.Some?
              && after[i].settled.value == c.request.verifiedUsage.value
              && after[i].released == before[i].reserved - c.request.verifiedUsage.value
            else after[i] == before[i]
  }

  /** The whole record after an applied candidate, field by field. */
  lemma AppliedRecord(j: Job, applied: set<Identifier>, c: RecoveryCandidate)
    requires ApplyGuard(j, applied, c).Applied? && SettlementFits(j.reservations, c)
    ensures var j' := Recovered(j, c);
      && Accounted(j.reservations, j'.reservations, c)
      && j'.state == c.nextState && j'.stateVersion == j.stateVersion + 1 && j'.fenceToken == j.fenceToken + 1
      && (c.intent.NoIntent? ==> j'.outbox == j.outbox)
      && (c.intent.CreateRecoveryIntent? ==>
            && |j'.outbox| == |j.outbox| + 1 && j.outbox <= j'.outbox
            && j'.outbox[|j.outbox|].eventType == RecoveryIntent(c.decision)
            && j'.outbox[|j.outbox|].publishedAt.None?)
      && j'.leaseOwner == j.leaseOwner && j'.leaseExpiry == j.leaseExpiry && j'.leaseGeneration == j.leaseGeneration
      && j'.tenantId == j.tenantId && j'.jobId == j.jobId && j'.stepId == j.stepId && j'.attemptId == j.attemptId
      && j.audit <= j'.audit && j.recoveries <= j'.recoveries && |j'.recoveries| == |j.recoveries| + 1
      && j'.recoveries[|j.recoveries|].recoveryId == c.request.recoveryId
      && j'.recoveries[|j.recoveries|].sourceAttemptId == j.attemptId
      && !AutomaticRecoveryAvailable(j'.recoveries[|j.recoveries|])
      && j'.recoveries[|j.recoveries|].lastEvidence == Some(EvidenceDigest(c.evidence))
      && j'.audit == j.audit + [RecoveryApplied(c.request.recoveryId)]
      && j'.checkpoint.checkpointId == RecoveryCheckpoint(j.checkpoint.checkpointId, j.checkpoint.checkpointVersion,
                                                          c.request.recoveryId)
  {
  }

  /** A settlement is refused exactly when some reservation of the attempt cannot hold the usage. */
  lemma RefusedUsage(j: Job, c: RecoveryCandidate)
    ensures SettlementFits(j.reservations, c) <==>
      (c.reservation.SettleVerified? ==>
         forall i :: 0 <= i < |j.reservations| && j.reservations[i].attemptId == c.request.attemptId ==>
           && c.request.verifiedUsage.Some?
           && 0 <= c.request.verifiedUsage.value <= j.reservations[i].reserved)
  {
  }

  /** An unknown outcome is neither retried nor accounted for: only proof that nothing was
      dispatched gives a retry, and units are released only when the outcome is known. */
  lemma UnknownIsNeverRetried(j: Job, op: RecoveryOperation, r: RecoveryRequest)
    ensures var c := DecideRecovery(j, op, r);
      && (c.decision.Retry? <==>
            && SameIdentity(j, r) && SameVersions(j, r) && AutomaticRecoveryAvailable(op) && r.now < op.deadline
            && r.certainty.DefinitelyNotDispatched? && r.currentAuthorization && r.bindingAllowed && !Terminal(j.state)
            && !r.repairRequired && !r.effectUnwanted && r.verifiedUsage.None?)
      && (c.reservation.Release? ==> !r.certainty.OutcomeUnknown? && r.verifiedUsage.None? && !Terminal(j.state))
      && (c.reservation.SettleVerified? ==> !r.certainty.OutcomeUnknown? && r.verifiedUsage.Some?)
  {
  }

  /** Planner and store agree: a candidate decided on the current record is applied unless
      the decision itself asked for nothing. */
  lemma CurrentRecoveryApplies(j: Job, applied: set<Identifier>, op: RecoveryOperation, r: RecoveryRequest)
    requires SameIdentity(j, r) && SameVersions(j, r) && r.recoveryId !in applied
    ensures var c := DecideRecovery(j, op, r);
      ApplyGuard(j, applied, c).Applied? <==> !c.decision.TerminalNoop? && !(c.decision.Blocked? && r.effectUnwanted)
  {
  }

  // ---------------------------------------------------------------- runs of the store

  datatype Step =
    | ApplyRecovery(candidate: RecoveryCandidate)
    | TakeOver(worker: string, now: int)
    | AcceptResult(worker: string, fence: int, evidenceId: string)

  /** The store, plus every write authority it ever granted as (fence, worker). */
  datatype World = World(record: Job, applied: set<Identifier>, granted: seq<(int, string)>)

  function Next(w: World, s: Step): World {
    match s
    case ApplyRecovery(c) =>
      if ApplyGuard(w.record, w.applied, c) == Applied && SettlementFits(w.record.reservations, c)
      then w.(record := Recovered(w.record, c), applied := w.applied + {c.request.recoveryId})
      else w
    case TakeOver(worker, now) =>
      if MayTakeOver(w.record, now) then w.(record := TakenOver(w.record, worker)) else w
    case AcceptResult(worker, fence, evidenceId) =>
      World(w.record.(audit := w.record.audit + [ResultSeen(evidenceId)]), w.applied,
            if Authorised(w.record, worker, fence) then w.granted + [(fence, worker)] else w.granted)
  }

  function Run(w: World, steps: seq<Step>): World
    decreases |steps|
  {
    if steps == [] then w else Run(Next(w, steps[0]), steps[1..])
  }

  /** Grants so far never exceed the current fence, never decrease, and name one
      worker per fence; a grant at the current fence names the current owner. */
  ghost predicate FencedGrants(w: World) {
    && (forall i :: 0 <= i < |w.granted| ==> w.granted[i].0 <= w.record.fenceToken)
    && (forall i :: 0 <= i < |w.granted| && w.granted[i].0 == w.record.fenceToken
          ==> w.record.leaseOwner == Some(w.granted[i].1))
    && (forall i, j :: 0 <= i < j < |w.granted| ==> w.granted[i].0 <= w.granted[j].0)
    && (forall i, j :: 0 <= i < |w.granted| && 0 <= j < |w.granted| && w.granted[i].0 == w.granted[j].0
          ==> w.granted[i].1 == w.granted[j].1)
  }

  lemma FencedGrantsStep(w: World, s: Step)
    requires FencedGrants(w)
    ensures FencedGrants(Next(w, s))
  {
    var w' := Next(w, s);
    assert w'.record.fenceToken >= w.record.fenceToken;
    assert w'.record.fenceToken == w.record.fenceToken ==> w'.record.leaseOwner == w.record.leaseOwner;
    assert w'.granted == w.granted || (s.AcceptResult? && w'.granted == w.granted + [(s.fence, s.worker)]);
  }

  /** Authority is granted exactly to the current owner at the current fence of a live job, and a
      takeover of an expired lease makes the new worker the only one who can have it. */
  lemma GrantsExactly(w: World, s: Step)
    ensures Next(w, s).granted != w.granted <==>
      && s.AcceptResult? && w.record.leaseOwner == Some(s.worker) && w.record.fenceToken == s.fence
      && w.record.state !in {Completed, Terminated, Failed, Cancelled}
    ensures var r, r' := w.record, Next(w, s).record;
      s.TakeOver? ==>
        if r.leaseExpiry.Some? && r.leaseExpiry.value <= s.now
          && r.state !in {Completed, Terminated, Failed, Cancelled} then
          && r'.leaseOwner == Some(s.worker) && r'.leaseExpiry.None? && r'.leaseGeneration == r.leaseGeneration + 1
          && r'.fenceToken == r.fenceToken + 1 && r'.state == r.state && r'.checkpoint == r.checkpoint
          && r'.reservations == r.reservations && r'.outbox == r.outbox
        else r' == r
  {
  }

  lemma {:induction false} FencedGrantsAlways(w: World, steps: seq<Step>)
    requires FencedGrants(w)
    ensures FencedGrants(Run(w, steps))
    decreases |steps|
  {
    if steps != [] {
      FencedGrantsStep(w, steps[0]);
      FencedGrantsAlways(Next(w, steps[0]), steps[1..]);
    }
  }

  function Recoveries(w0: World, w: World): int {
    w.record.stateVersion - w0.record.stateVersion
  }

  function Takeovers(w0: World, w: World): int {
    w.record.leaseGeneration - w0.record.leaseGeneration
  }

  /** The counters account for the run: versions and checkpoints for recoveries, lease generations
      for takeovers, the fence for both; the checkpoint mirrors the job but for the fence, which
      a takeover advances without a checkpoint. */
  ghost predicate Counted(w0: World, w: World) {
    && 0 <= Recoveries(w0, w) && 0 <= Takeovers(w0, w)
    && w.record.fenceToken == w0.record.fenceToken + Recoveries(w0, w) + Takeovers(w0, w)
    && w.record.checkpoint.checkpointVersion == w0.record.checkpoint.checkpointVersion + Recoveries(w0, w)
    && |w.record.recoveries| == |w0.record.recoveries| + Recoveries(w0, w)
    && w.record.checkpoint.authoritativeState == w.record.state
    && w.record.checkpoint.stateVersion == w.record.stateVersion
    && w.record.checkpoint.fenceToken <= w.record.fenceToken
    && w.record.checkpoint.bindings == w0.record.checkpoint.bindings
  }

  /** Over every run the counters agree, and every new checkpoint names the one before it. */
  lemma {:induction false} CountersAgree(w0: World, w: World, steps: seq<Step>)
    requires Counted(w0, w)
    ensures Counted(w0, Run(w, steps))
    decreases |steps|
  {
    if steps != [] {
      CountedStep(w0, w, steps[0]);
      CountersAgree(w0, Next(w, steps[0]), steps[1..]);
    }
  }

  lemma CountedStep(w0: World, w: World, s: Step)
    requires Counted(w0, w)
    ensures Counted(w0, Next(w, s))
    ensures var cp, cp' := w.record.checkpoint, Next(w, s).record.checkpoint;
      cp' == cp || (cp'.previousId == Some(cp.checkpointId) && cp'.fenceToken == Next(w, s).record.fenceToken)
  {
  }

  /** Whatever record, budget and facts a candidate was decided against, applying
      it never takes a terminal job to another state. */
  lemma {:induction false} TerminalNeverReopened(w: World, steps: seq<Step>)
    requires Terminal(w.record.state)
    requires forall i :: 0 <= i < |steps| && steps[i].ApplyRecovery? ==> DecidedSomewhere(steps[i].candidate)
    ensures Run(w, steps).record.state == w.record.state
    decreases |steps|
  {
    if steps != [] {
      if steps[0].ApplyRecovery? {
        var c := steps[0].candidate;
        var j, op, r :| c == DecideRecovery(j, op, r);
      }
      TerminalNeverReopened(Next(w, steps[0]), steps[1..]);
    }
  }

  ghost predicate DecidedSomewhere(c: RecoveryCandidate) {
    exists j, op, r :: c == DecideRecovery(j, op, r)
  }

  // ---------------------------------------------------------------- outbox and its consumer

  datatype Delivery = New | Duplicate | IdentityConflict

  type Seen = map<Identifier, (string, string, string)>

  function IntentIdentity(i: OutboxIntent): (string, string, string) {
    (i.jobId, i.stepId, i.attemptId)
  }

  function Deliver(seen: Seen, i: OutboxIntent): (Seen, Delivery) {
    if i.eventId !in seen then (seen[i.eventId := IntentIdentity(i)], New)
    else if seen[i.eventId] == IntentIdentity(i) then (seen, Duplicate)
    else (seen, IdentityConflict)
  }

  /** InMemoryOutboxConsumerGuard. */
  class ConsumerGuard {
    var events: Seen

    constructor ()
      ensures events == map[]
    {
      events := map[];
    }

    method Accept(intent: OutboxIntent) returns (d: Delivery)
      modifies this
      ensures (events, d) == Deliver(old(events), intent)
    {
      if intent.eventId !in events {
        events := events[intent.eventId := IntentIdentity(intent)];
        return New;
      }
      if events[intent.eventId] == IntentIdentity(intent) {
        return Duplicate;
      }
      return IdentityConflict;
    }
  }

  /** A delivery is new exactly when its event was never seen, and conflicts exactly when it was
      seen for another job, step or attempt; only a new one is remembered. */
  lemma DeliversExactly(seen: Seen, i: OutboxIntent)
    ensures var (seen', d) := Deliver(seen, i);
      && (d.New? <==> i.eventId !in seen)
      && (d.Duplicate? <==> i.eventId in seen && seen[i.eventId] == (i.jobId, i.stepId, i.attemptId))
      && seen' == (if d.New? then seen[i.eventId := (i.jobId, i.stepId, i.attemptId)] else seen)
  {
  }

  /** The verdict on each delivery of a batch, oldest first. */
  function Deliveries(seen: Seen, batch: seq<OutboxIntent>): (out: seq<Delivery>)
    ensures |out| == |batch|
    decreases |batch|
  {
    if batch == [] then [] else
    var (next, d) := Deliver(seen, batch[0]);
    [d] + Deliveries(next, batch[1..])
  }

  /** Every intent carries the job's own identity, under distinct event ids
      that all belong to recoveries already applied. */
  ghost predicate OutboxSound(w: World) {
    && (forall i :: 0 <= i < |w.record.outbox| ==>
          && IntentIdentity(w.record.outbox[i]) == (w.record.jobId, w.record.stepId, w.record.attemptId)
          && w.record.outbox[i].eventId.Prefixed? && w.record.outbox[i].eventId.prefix.RecoveryPrefix?
          && w.record.outbox[i].eventId.id in w.applied)
    && (forall i, j :: 0 <= i < j < |w.record.outbox| ==> w.record.outbox[i].eventId != w.record.outbox[j].eventId)
  }

  lemma {:induction false} OutboxSoundAlways(w: World, steps: seq<Step>)
    requires OutboxSound(w)
    ensures OutboxSound(Run(w, steps))
    ensures Run(w, steps).record.jobId == w.record.jobId
    ensures Run(w, steps).record.stepId == w.record.stepId
    ensures Run(w, steps).record.attemptId == w.record.attemptId
    decreases |steps|
  {
    if steps != [] {
      OutboxSoundAlways(Next(w, steps[0]), steps[1..]);
    }
  }

  lemma {:induction false} DeliveriesOfOneIdentity(seen: Seen, batch: seq<OutboxIntent>, who: (string, string, string))
    requires forall i :: 0 <= i < |batch| ==> IntentIdentity(batch[i]) == who
    requires forall e :: e in seen ==> seen[e] == who
    ensures forall i :: 0 <= i < |batch| ==>
      Deliveries(seen, batch)[i] ==
        if batch[i].eventId in seen || (exists k :: 0 <= k < i && batch[k].eventId == batch[i].eventId)
        then Duplicate else New
    decreases |batch|
  {
    if batch != [] {
      var (next, d) := Deliver(seen, batch[0]);
      DeliveriesOfOneIdentity(next, batch[1..], who);
      forall i | 0 < i < |batch|
        ensures Deliveries(seen, batch)[i] ==
          if batch[i].eventId in seen || (exists k :: 0 <= k < i && batch[k].eventId == batch[i].eventId)
          then Duplicate else New
      {
        assert Deliveries(seen, batch)[i] == Deliveries(next, batch[1..])[i - 1];
        if exists k :: 0 <= k < i && batch[k].eventId == batch[i].eventId {
          var k :| 0 <= k < i && batch[k].eventId == batch[i].eventId;
          if k > 0 { assert batch[1..][k - 1].eventId == batch[i].eventId; }
        }
        if exists k :: 0 <= k < i - 1 && batch[1..][k].eventId == batch[1..][i - 1].eventId {
          var k :| 0 <= k < i - 1 && batch[1..][k].eventId == batch[1..][i - 1].eventId;
          assert batch[k + 1].eventId == batch[i].eventId;
        }
      }
    }
  }

  /** End to end: whatever the store did since its outbox was empty, redelivering
      its intents in any order and any number of times is New exactly the first
      time each event is seen, Duplicate afterwards, and never a conflict. */
  lemma RedeliveryIsIdempotent(w: World, steps: seq<Step>, batch: seq<OutboxIntent>)
    requires w.record.outbox == []
    requires forall i :: 0 <= i < |batch| ==> batch[i] in Run(w, steps).record.outbox
    ensures forall i :: 0 <= i < |batch| ==>
      Deliveries(map[], batch)[i] ==
        if exists k :: 0 <= k < i && batch[k].eventId == batch[i].eventId then Duplicate else New
  {
    OutboxSoundAlways(w, steps);
    var r := Run(w, steps).record;
    forall i | 0 <= i < |batch|
      ensures IntentIdentity(batch[i]) == (r.jobId, r.stepId, r.attemptId)
    {
      assert batch[i] in r.outbox;
    }
    DeliveriesOfOneIdentity(map[], batch, (r.jobId, r.stepId, r.attemptId));
  }
}
