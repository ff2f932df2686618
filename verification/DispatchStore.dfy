/** The dispatch store and its sole committer, under any race of their atomic steps. */
module DispatchStore {
  import opened Common
  import opened RemoteEvidence

  datatype RecordState = ReadyForDispatch | ReadyForRetry | DispatchStarted | Completed

  predicate Ready(s: RecordState) {
    s.ReadyForDispatch? || s.ReadyForRetry?
  }

  datatype DispatchRecord = DispatchRecord(
    operationId: string, idempotencyKey: string, state: RecordState, version: nat, attemptNumber: int,
    requestId: Option<RequestId>, tenantId: Option<string>, resourceId: Option<string>, toolName: Option<string>,
    fence: int, generation: Option<int>, externalId: Option<string>)

  type Table = map<string, DispatchRecord>

  // ---------------------------------------------------------------- registration

  function AddRetryable(t: Table, e: FailureEvidence, tenant: Option<string>, resource: Option<string>,
                        tool: Option<string>, version: int, fence: int): Result<Table, Refusal>
  {
    if !e.execution.ProvenNotExecuted? then Raised(NotProven)
    else if (tenant.Some? || resource.Some? || tool.Some?) && !(Truthy(tenant) && Truthy(resource) && Truthy(tool))
      then Raised(IncompleteBinding)
    else if version < 0 || fence < 0 then Raised(NegativeCounter)
    else if e.operationId in t then Raised(AlreadyRegistered)
    else Ok(t[e.operationId := DispatchRecord(e.operationId, e.idempotencyKey, ReadyForRetry, version, e.attemptNumber,
                                              e.requestId, tenant, resource, tool, fence, None, None)])
  }

  function AddReady(t: Table, operation: string, key: string, tenant: string, resource: string, tool: string,
                    version: int, fence: int, previousAttempt: int): Result<Table, Refusal>
  {
    if operation == "" || key == "" || tenant == "" || resource == "" || tool == "" then Raised(IncompleteIdentity)
    else if version < 0 || fence < 0 || previousAttempt < 0 then Raised(NegativeCounter)
    else if operation in t then Raised(AlreadyRegistered)
    else Ok(t[operation := DispatchRecord(operation, key, ReadyForDispatch, version, previousAttempt, None,
                                          Some(tenant), Some(resource), Some(tool), fence, None, None)])
  }

  // ---------------------------------------------------------------- claiming

  datatype AttemptPlan = AttemptPlan(
    operationId: string, idempotencyKey: string, requestId: RequestId, attemptNumber: int, delay: real,
    generation: Option<int>)

  datatype ClaimRequest = ClaimRequest(
    admitted: bool, attempt: AttemptPlan, expectedVersion: int, expectedState: RecordState, expectedFence: Option<int>,
    newFence: Option<int>, tenantId: Option<string>, resourceId: Option<string>, toolName: Option<string>)

  datatype ClaimOutcome =
    Claimed | NotAdmitted | IdentityConflict | StateConflict | VersionConflict | FenceConflict | SequenceConflict
      | GenerationRequired

  function ClaimGuard(t: Table, c: ClaimRequest): (o: ClaimOutcome)
    ensures o.Claimed? ==> c.attempt.operationId in t
  {
    if !c.admitted then NotAdmitted
    else if c.attempt.operationId !in t then IdentityConflict
    else
      var r := t[c.attempt.operationId];
      if r.idempotencyKey != c.attempt.idempotencyKey
         || (c.tenantId.Some? && r.tenantId != c.tenantId)
         || (c.resourceId.Some? && r.resourceId != c.resourceId)
         || (c.toolName.Some? && r.toolName != c.toolName) then IdentityConflict
      else if r.state != c.expectedState then StateConflict
      else if r.version != c.expectedVersion then VersionConflict
      else if c.expectedFence.Some? && r.fence != c.expectedFence.value then FenceConflict
      else if c.newFence.Some? && c.expectedFence.Some? && c.newFence.value <= c.expectedFence.value then FenceConflict
      else if c.attempt.attemptNumber != r.attemptNumber + 1 then SequenceConflict
      else if r.tenantId.Some? && c.attempt.generation.None? then GenerationRequired
      else Claimed
  }

  function Started(r: DispatchRecord, c: ClaimRequest): DispatchRecord {
    r.(state := DispatchStarted, version := r.version + 1, attemptNumber := c.attempt.attemptNumber,
       requestId := Some(c.attempt.requestId), fence := if c.newFence.None? then r.fence else c.newFence.value,
       generation := c.attempt.generation)
  }

  // ---------------------------------------------------------------- committing

  datatype Proposal = Proposal(
    operationId: string, idempotencyKey: string, tenantId: string, resourceId: string, toolName: string,
    attemptNumber: int, requestId: RequestId, generation: int, externalId: string)

  /** One call of the committer: what it wants to persist and what it expects to find. */
  datatype Ticket = Ticket(proposal: Proposal, expectedState: RecordState, expectedVersion: int, expectedFence: int)

  predicate Bound(r: DispatchRecord, p: Proposal) {
    && r.idempotencyKey == p.idempotencyKey && r.tenantId == Some(p.tenantId)
    && r.resourceId == Some(p.resourceId) && r.toolName == Some(p.toolName)
  }

  predicate SameAttempt(r: DispatchRecord, p: Proposal) {
    && r.attemptNumber == p.attemptNumber && r.requestId == Some(p.requestId) && r.generation == Some(p.generation)
  }

  predicate AsExpected(r: DispatchRecord, k: Ticket) {
    r.state == k.expectedState && r.version == k.expectedVersion && r.fence == k.expectedFence
  }

  predicate CasMatches(t: Table, k: Ticket) {
    && k.proposal.operationId in t
    && var r := t[k.proposal.operationId];
       Bound(r, k.proposal) && SameAttempt(r, k.proposal) && AsExpected(r, k)
  }

  function Finished(r: DispatchRecord, externalId: string): DispatchRecord {
    r.(state := Completed, version := r.version + 1, externalId := Some(externalId))
  }

  datatype CommitOutcome =
    | Committed | AlreadyCommitted | ProposalNotReady | BindingConflict | AttemptConflict
    | CommitStateConflict | CommitVersionConflict | CommitFenceConflict | CasConflict

  /** The committer's read; None means that it goes on to the compare-and-set. */
  function ReadCheck(t: Table, k: Ticket): Option<CommitOutcome> {
    if k.proposal.operationId !in t || !Bound(t[k.proposal.operationId], k.proposal) then Some(BindingConflict)
    else
      var r := t[k.proposal.operationId];
      if !SameAttempt(r, k.proposal) then Some(AttemptConflict)
      else if r.state.Completed? then
        if r.externalId == Some(k.proposal.externalId) then Some(AlreadyCommitted) else Some(CommitStateConflict)
      else if r.state != k.expectedState then Some(CommitStateConflict)
      else if r.version != k.expectedVersion then Some(CommitVersionConflict)
      else if r.fence != k.expectedFence then Some(CommitFenceConflict)
      else None
  }

  /** InMemoryRetryDispatchStore. Each method is one critical section. */
  class Store {
    var records: Table

    constructor ()
      ensures records == map[]
    {
      records := map[];
    }

    method RegisterRetryable(e: FailureEvidence, tenant: Option<string>, resource: Option<string>, tool: Option<string>,
                             version: int, fence: int) returns (r: Result<(), Refusal>)
      modifies this
      ensures var out := AddRetryable(old(records), e, tenant, resource, tool, version, fence);
        if out.Ok? then r == Ok(()) && records == out.value else r == Raised(out.error) && records == old(records)
    {
      if !e.execution.ProvenNotExecuted? {
        return Raised(NotProven);
      }
      if (tenant.Some? || resource.Some? || tool.Some?) && (!Truthy(tenant) || !Truthy(resource) || !Truthy(tool)) {
        return Raised(IncompleteBinding);
      }
      if version < 0 || fence < 0 {
        return Raised(NegativeCounter);
      }
      if e.operationId in records {
        return Raised(AlreadyRegistered);
      }
      var record := DispatchRecord(e.operationId, e.idempotencyKey, ReadyForRetry, version, e.attemptNumber,
                                   e.requestId, tenant, resource, tool, fence, None, None);
      records := records[e.operationId := record];
      return Ok(());
    }

    method RegisterReady(operation: string, key: string, tenant: string, resource: string, tool: string,
                         version: int, fence: int, previousAttempt: int) returns (r: Result<(), Refusal>)
      modifies this
      ensures var out := AddReady(old(records), operation, key, tenant, resource, tool, version, fence,
        previousAttempt);
        if out.Ok? then r == Ok(()) && records == out.value else r == Raised(out.error) && records == old(records)
    {
      if operation == "" || key == "" || tenant == "" || resource == "" || tool == "" {
        return Raised(IncompleteIdentity);
      }
      if version < 0 || fence < 0 || previousAttempt < 0 {
        return Raised(NegativeCounter);
      }
      if operation in records {
        return Raised(AlreadyRegistered);
      }
      var record := DispatchRecord(operation, key, ReadyForDispatch, version, previousAttempt, None, Some(tenant),
                                   Some(resource), Some(tool), fence, None, None);
      records := records[operation := record];
      return Ok(());
    }

    method ClaimDispatch(c: ClaimRequest) returns (outcome: ClaimOutcome, claimed: Option<DispatchRecord>)
      modifies this
      ensures outcome == ClaimGuard(old(records), c)
      ensures if outcome.Claimed? then
                && claimed == Some(Started(old(records)[c.attempt.operationId], c))
                && records == old(records)[c.attempt.operationId := claimed.value]
              else claimed.None? && records == old(records)
    {
      if !c.admitted {
        return NotAdmitted, None;
      }
      var attempt := c.attempt;
      if attempt.operationId !in records {
        return IdentityConflict, None;
      }
      var current := records[attempt.operationId];
      if current.idempotencyKey != attempt.idempotencyKey || (c.tenantId.Some? && current.tenantId != c.tenantId)
         || (c.resourceId.Some? && current.resourceId != c.resourceId)
         || (c.toolName.Some? && current.toolName != c.toolName) {
        return IdentityConflict, None;
      }
      if current.state != c.expectedState {
        return StateConflict, None;
      }
      if current.version != c.expectedVersion {
        return VersionConflict, None;
      }
      if c.expectedFence.Some? && current.fence != c.expectedFence.value {
        return FenceConflict, None;
      }
      if c.newFence.Some? && c.expectedFence.Some? && c.newFence.value <= c.expectedFence.value {
        return FenceConflict, None;
      }
      if attempt.attemptNumber != current.attemptNumber + 1 {
        return SequenceConflict, None;
      }
      if current.tenantId.Some? && attempt.generation.None? {
        return GenerationRequired, None;
      }
      var updated := current.(state := DispatchStarted, version := current.version + 1,
        attemptNumber := attempt.attemptNumber, requestId := Some(attempt.requestId),
        fence := if c.newFence.None? then current.fence else c.newFence.value, generation := attempt.generation);
      records := records[attempt.operationId := updated];
      return Claimed, Some(updated);
    }

    method CompareAndSetCompleted(k: Ticket) returns (updated: Option<DispatchRecord>)
      modifies this
      ensures updated.Some? <==> CasMatches(old(records), k)
      ensures updated.Some? ==>
        && updated.value == Finished(old(records)[k.proposal.operationId], k.proposal.externalId)
        && records == old(records)[k.proposal.operationId := updated.value]
      ensures updated.None? ==> records == old(records)
    {
      if k.proposal.operationId !in records {
        return None;
      }
      var current := records[k.proposal.operationId];
      if !Bound(current, k.proposal) || !SameAttempt(current, k.proposal) || !AsExpected(current, k) {
        return None;
      }
      var done := Finished(current, k.proposal.externalId);
      records := records[k.proposal.operationId := done];
      return Some(done);
    }

    /** CapstoneCommitter.commit with nobody in between its read and its compare-and-set. */
    method Commit(proposal: Option<Proposal>, expectedState: RecordState, expectedVersion: int, expectedFence: int)
      returns (outcome: CommitOutcome, record: Option<DispatchRecord>)
      modifies this
      ensures proposal.None? ==> outcome.ProposalNotReady? && record.None? && records == old(records)
      ensures proposal.Some? ==>
        var k := Ticket(proposal.value, expectedState, expectedVersion, expectedFence);
        var read := ReadCheck(old(records), k);
        if read.Some? then
          && outcome == read.value && records == old(records)
          && record == (if outcome.AlreadyCommitted? then Some(old(records)[proposal.value.operationId]) else None)
        else
          && outcome.Committed? && CasMatches(old(records), k)
          && record == Some(Finished(old(records)[proposal.value.operationId], proposal.value.externalId))
          && records == old(records)[proposal.value.operationId := record.value]
    {
      if proposal.None? {
        return ProposalNotReady, None;
      }
      var k := Ticket(proposal.value, expectedState, expectedVersion, expectedFence);
      var read := ReadCheck(records, k);
      if read.Some? {
        return read.value, if read.value.AlreadyCommitted? then Some(records[proposal.value.operationId]) else None;
      }
      var updated := CompareAndSetCompleted(k);
      if updated.None? {
        return CasConflict, None;
      }
      return Committed, updated;
    }
  }

  // ---------------------------------------------------------------- races

  /** The atomic steps. A committer that passed its read may compare-and-set at any
      later time, however many other steps come in between. */
  datatype Step =
    | RegisterRetryable(evidence: FailureEvidence, tenant: Option<string>, resource: Option<string>,
      tool: Option<string>, version: int, fence: int)
    | RegisterReady(operation: string, key: string, tenantId: string, resourceId: string, toolName: string,
      version: int, fence: int, previousAttempt: int)
    | Claim(request: ClaimRequest)
    | CommitRead(ticket: Ticket)
    | CommitCas(ticket: Ticket)

  datatype Event =
    | Registered(operation: string, version: nat)
    | ClaimedAs(operation: string, record: DispatchRecord)
    | CommittedAs(operation: string, record: DispatchRecord)
    | FoundCommitted(operation: string, externalId: string)

  datatype World = World(table: Table, inFlight: set<Ticket>, log: seq<Event>)

  function Next(w: World, s: Step): World {
    match s
    case RegisterRetryable(e, tenant, resource, tool, version, fence) =>
      var out := AddRetryable(w.table, e, tenant, resource, tool, version, fence);
      if out.Ok? then w.(table := out.value, log := w.log + [Registered(e.operationId, version)]) else w
    case RegisterReady(operation, key, tenant, resource, tool, version, fence, previous) =>
      var out := AddReady(w.table, operation, key, tenant, resource, tool, version, fence, previous);
      if out.Ok? then w.(table := out.value, log := w.log + [Registered(operation, version)]) else w
    case Claim(c) =>
      if ClaimGuard(w.table, c).Claimed? then
        var r := Started(w.table[c.attempt.operationId], c);
        w.(table := w.table[c.attempt.operationId := r], log := w.log + [ClaimedAs(c.attempt.operationId, r)])
      else w
    case CommitRead(k) =>
      var read := ReadCheck(w.table, k);
      if read.None? then w.(inFlight := w.inFlight + {k})
      else if read.value.AlreadyCommitted?
        then w.(log := w.log + [FoundCommitted(k.proposal.operationId, k.proposal.externalId)])
      else w
    case CommitCas(k) =>
      if k in w.inFlight && CasMatches(w.table, k) then
        var r := Finished(w.table[k.proposal.operationId], k.proposal.externalId);
        w.(table := w.table[k.proposal.operationId := r], log := w.log + [CommittedAs(k.proposal.operationId, r)])
      else w
  }

  function Run(w: World, steps: seq<Step>): World
    decreases |steps|
  {
    if steps == [] then w else Run(Next(w, steps[0]), steps[1..])
  }

  const Empty := World(map[], {}, [])

  // ---------------------------------------------------------------- versions count writes

  predicate Writes(e: Event, operation: string) {
    (e.ClaimedAs? || e.CommittedAs?) && e.operation == operation
  }

  function WriteCount(log: seq<Event>, operation: string): nat {
    if log == [] then 0
    else WriteCount(log[..|log| - 1], operation) + (if Writes(log[|log| - 1], operation) then 1 else 0)
  }

  lemma WriteCountGrows(log: seq<Event>, e: Event, operation: string)
    ensures WriteCount(log + [e], operation) == WriteCount(log, operation) + (if Writes(e, operation) then 1 else 0)
  {
    assert (log + [e])[..|log|] == log;
  }

  ghost predicate Versioned(w: World, operation: string) {
    if operation in w.table then
      forall i :: 0 <= i < |w.log| && w.log[i].Registered? && w.log[i].operation == operation ==>
        w.table[operation].version == w.log[i].version + WriteCount(w.log, operation)
    else
      WriteCount(w.log, operation) == 0
      && forall i :: 0 <= i < |w.log| && w.log[i].Registered? ==> w.log[i].operation != operation
  }

  lemma VersionedStep(w: World, s: Step, operation: string)
    requires Versioned(w, operation)
    ensures Versioned(Next(w, s), operation)
  {
    StepCounts(w, s);
    VersionedMove(w, Next(w, s), operation);
  }

  /** A registration opens a record at its version, a write adds one, anything else adds none. */
  ghost predicate Counts(t: Table, t': Table, e: Event) {
    && e.operation in t' && t' == t[e.operation := t'[e.operation]]
    && (if e.Registered? then e.operation !in t && t'[e.operation].version == e.version
        else
          && e.operation in t
          && t'[e.operation].version == t[e.operation].version + (if e.FoundCommitted? then 0 else 1))
  }

  /** A step leaves log and table alone, or adds one event that accounts for the table. */
  ghost predicate Accounted(w: World, w': World) {
    || (w'.log == w.log && w'.table == w.table)
    || (|w'.log| == |w.log| + 1 && w'.log[..|w.log|] == w.log && Counts(w.table, w'.table, w'.log[|w.log|]))
  }

  lemma StepCounts(w: World, s: Step)
    ensures Accounted(w, Next(w, s))
  {
    assert s.CommitRead? ==> forall op :: op in w.table ==> w.table == w.table[op := w.table[op]];
  }

  lemma VersionedMove(w: World, w': World, operation: string)
    requires Versioned(w, operation) && Accounted(w, w')
    ensures Versioned(w', operation)
  {
    if w'.log != w.log {
      var e := w'.log[|w.log|];
      assert w'.log == w.log + [e];
      WriteCountGrows(w.log, e, operation);
    }
  }

  /** Whatever claims and commits race, and whatever states the claims name, an
      operation's version is the registered one plus its successful writes. */
  lemma {:induction false} VersionsCountWrites(w: World, steps: seq<Step>, operation: string)
    requires Versioned(w, operation)
    ensures Versioned(Run(w, steps), operation)
    decreases |steps|
  {
    if steps != [] {
      VersionedStep(w, steps[0], operation);
      VersionsCountWrites(Next(w, steps[0]), steps[1..], operation);
    }
  }

  // ---------------------------------------------------------------- one claim, one durable success

  /** Every claim names a ready state. */
  predicate ReadyClaims(steps: seq<Step>) {
    forall i :: 0 <= i < |steps| && steps[i].Claim? ==> Ready(steps[i].request.expectedState)
  }

  /** The record now is the claimed one, or that one with its success committed. */
  predicate Follows(claimed: DispatchRecord, now: DispatchRecord) {
    claimed.state.DispatchStarted?
    && (now == claimed || (now.state.Completed? && now.externalId.Some?
       && now == Finished(claimed, now.externalId.value)))
  }

  ghost predicate ClaimLogged(w: World, operation: string, upTo: nat)
    requires upTo <= |w.log|
  {
    exists j :: 0 <= j < upTo && w.log[j].ClaimedAs? && w.log[j].operation == operation
  }

  ghost predicate TableSound(w: World) {
    && (forall op :: op in w.table ==> w.table[op].operationId == op)
    && (forall op :: op in w.table && Ready(w.table[op].state) ==>
          w.table[op].generation.None? && w.table[op].externalId.None?)
    && (forall op :: op in w.table && !Ready(w.table[op].state) ==> ClaimLogged(w, op, |w.log|))
    && (forall k :: k in w.inFlight ==> !k.expectedState.Completed?)
  }

  ghost predicate EventSound(w: World, i: nat)
    requires i < |w.log|
  {
    var e := w.log[i];
    && e.operation in w.table
    && (e.ClaimedAs? ==> Follows(e.record, w.table[e.operation]))
    && (e.CommittedAs? ==>
          && e.record.state.Completed? && w.table[e.operation] == e.record && ClaimLogged(w, e.operation, i))
    && (e.FoundCommitted? ==>
          w.table[e.operation].state.Completed? && w.table[e.operation].externalId == Some(e.externalId))
  }

  ghost predicate Once(log: seq<Event>) {
    forall i, j :: 0 <= i < j < |log| && log[i].operation == log[j].operation ==>
      !(log[i].ClaimedAs? && log[j].ClaimedAs?) && !(log[i].CommittedAs? && log[j].CommittedAs?)
  }

  /** Each operation is claimed at most once and committed at most once, the commit is
      the very attempt that was claimed before it, a completed record never changes, and
      every committer that finds it committed reports the same external object. */
  ghost predicate Safe(w: World) {
    TableSound(w) && Once(w.log) && forall i :: 0 <= i < |w.log| ==> EventSound(w, i)
  }

  lemma ClaimStaysLogged(w: World, w': World, operation: string, upTo: nat)
    requires w.log <= w'.log && upTo <= |w.log| && ClaimLogged(w, operation, upTo)
    ensures ClaimLogged(w', operation, upTo)
  {
    var j :| 0 <= j < upTo && w.log[j].ClaimedAs? && w.log[j].operation == operation;
    assert w'.log[j] == w.log[j];
  }

  /** The event is all that a step did, to the one operation it names. */
  ghost predicate Appends(w: World, w': World, e: Event) {
    && w'.log == w.log + [e] && w'.inFlight == w.inFlight
    && e.operation in w'.table && w'.table == w.table[e.operation := w'.table[e.operation]]
    && w'.table[e.operation].operationId == e.operation && (!e.Registered? ==> e.operation in w.table)
    && match e
       case Registered(op, _) =>
         op !in w.table && Ready(w'.table[op].state) && w'.table[op].generation.None? && w'.table[op].externalId.None?
       case ClaimedAs(op, r) =>
         Ready(w.table[op].state) && w'.table[op] == r && r.state.DispatchStarted?
       case CommittedAs(op, r) =>
         w.table[op].state.DispatchStarted? && w'.table[op] == r && r.externalId.Some?
           && r == Finished(w.table[op], r.externalId.value)
       case FoundCommitted(op, id) =>
         w'.table[op] == w.table[op] && w.table[op].state.Completed? && w.table[op].externalId == Some(id)
  }

  lemma EventStaysSound(w: World, w': World, e: Event, i: nat)
    requires Safe(w) && Appends(w, w', e) && i < |w.log|
    ensures EventSound(w', i)
    ensures w.log[i].operation == e.operation ==>
      !(w.log[i].ClaimedAs? && e.ClaimedAs?) && !(w.log[i].CommittedAs? && e.CommittedAs?)
  {
    assert EventSound(w, i) && w'.log[i] == w.log[i];
    if w.log[i].CommittedAs? {
      ClaimStaysLogged(w, w', w.log[i].operation, i);
    }
  }

  lemma TableStaysSound(w: World, w': World, e: Event)
    requires Safe(w) && Appends(w, w', e)
    ensures TableSound(w')
  {
    var n := |w.log|;
    forall op | op in w'.table && !Ready(w'.table[op].state) ensures ClaimLogged(w', op, n + 1) {
      if e.ClaimedAs? && op == e.operation {
        assert w'.log[n] == e;
      } else {
        ClaimStaysLogged(w, w', op, n);
      }
    }
  }

  lemma SafeAppend(w: World, w': World, e: Event)
    requires Safe(w) && Appends(w, w', e)
    ensures Safe(w')
  {
    var n := |w.log|;
    TableStaysSound(w, w', e);
    forall i | 0 <= i < n
      ensures EventSound(w', i) && w'.log[i] == w.log[i]
      ensures w.log[i].operation == e.operation ==>
        !(w.log[i].ClaimedAs? && e.ClaimedAs?) && !(w.log[i].CommittedAs? && e.CommittedAs?)
    {
      EventStaysSound(w, w', e, i);
    }
    if e.CommittedAs? {
      ClaimStaysLogged(w, w', e.operation, n);
    }
    assert EventSound(w', n);
  }

  lemma SafeStep(w: World, s: Step)
    requires Safe(w) && (s.Claim? ==> Ready(s.request.expectedState))
    ensures Safe(Next(w, s))
  {
    var w' := Next(w, s);
    if w'.log == w.log {
      assert w'.table == w.table;
      forall op | op in w'.table && !Ready(w'.table[op].state)
        ensures ClaimLogged(w', op, |w'.log|)
      {
        ClaimStaysLogged(w, w', op, |w.log|);
      }
      forall i | 0 <= i < |w'.log|
        ensures EventSound(w', i)
      {
        assert EventSound(w, i);
        if w.log[i].CommittedAs? {
          ClaimStaysLogged(w, w', w.log[i].operation, i);
        }
      }
    } else {
      var e := w'.log[|w.log|];
      SafeAppend(w, w', e);
    }
  }

  /** Any interleaving whose claims name ready states is safe. */
  lemma {:induction false} RacesAreSafe(w: World, steps: seq<Step>)
    requires Safe(w) && ReadyClaims(steps)
    ensures Safe(Run(w, steps))
    decreases |steps|
  {
    if steps != [] {
      SafeStep(w, steps[0]);
      RacesAreSafe(Next(w, steps[0]), steps[1..]);
    }
  }

  /** The exact commit: some earlier event claimed precisely the attempt that the record
      completes, one version below it. */
  lemma CommitIsOfTheClaim(steps: seq<Step>, i: nat)
    requires ReadyClaims(steps) && i < |Run(Empty, steps).log| && Run(Empty, steps).log[i].CommittedAs?
    ensures var log := Run(Empty, steps).log;
      exists j :: 0 <= j < i && log[j].ClaimedAs? && log[j].operation == log[i].operation
        && log[i].record.externalId.Some? && log[i].record == Finished(log[j].record, log[i].record.externalId.value)
  {
    RacesAreSafe(Empty, steps);
    var w := Run(Empty, steps);
    assert EventSound(w, i);
    var j :| 0 <= j < i && w.log[j].ClaimedAs? && w.log[j].operation == w.log[i].operation;
    assert EventSound(w, j);
  }

  // ---------------------------------------------------------------- registration, claim and commit, exactly

  /** A claim names what it must, and only where it names anything: the caller's binding and fence. */
  ghost predicate Agrees(c: ClaimRequest, tenant: Option<string>, resource: Option<string>, tool: Option<string>,
    fence: int) {
    && (c.tenantId.Some? ==> c.tenantId == tenant) && (c.resourceId.Some? ==> c.resourceId == resource)
    && (c.toolName.Some? ==> c.toolName == tool)
    && (c.expectedFence.Some? ==> c.expectedFence.value == fence && (c.newFence.Some? ==> fence < c.newFence.value))
  }

  /** What was registered as ready is claimed exactly by the next attempt of that identity, at that
      version and fence, on some transport generation; nothing else is touched. */
  lemma ReadyIsClaimable(t: Table, operation: string, key: string, tenant: string, resource: string, tool: string,
                         version: int, fence: int, previous: int, c: ClaimRequest)
    requires AddReady(t, operation, key, tenant, resource, tool, version, fence, previous).Ok?
    requires c.attempt.operationId == operation
    ensures var t' := AddReady(t, operation, key, tenant, resource, tool, version, fence, previous).value;
      && operation !in t && t'.Keys == t.Keys + {operation} && (forall op :: op in t ==> t'[op] == t[op])
      && t'[operation].operationId == operation && t'[operation].externalId.None?
      && (ClaimGuard(t', c).Claimed? <==>
            && c.admitted && c.attempt.idempotencyKey == key && c.expectedState.ReadyForDispatch?
            && c.expectedVersion == version && c.attempt.attemptNumber == previous + 1 && c.attempt.generation.Some?
            && Agrees(c, Some(tenant), Some(resource), Some(tool), fence))
  {
  }

  lemma RetryableIsClaimable(t: Table, e: FailureEvidence, tenant: Option<string>, resource: Option<string>,
                             tool: Option<string>, version: int, fence: int, c: ClaimRequest)
    requires AddRetryable(t, e, tenant, resource, tool, version, fence).Ok? && c.attempt.operationId == e.operationId
    ensures var t' := AddRetryable(t, e, tenant, resource, tool, version, fence).value;
      && e.execution.ProvenNotExecuted? && e.operationId !in t && t'.Keys == t.Keys + {e.operationId}
      && (forall op :: op in t ==> t'[op] == t[op])
      && t'[e.operationId].operationId == e.operationId && t'[e.operationId].externalId.None?
      && t'[e.operationId].requestId == e.requestId
      && (ClaimGuard(t', c).Claimed? <==>
            && c.admitted && c.attempt.idempotencyKey == e.idempotencyKey && c.expectedState.ReadyForRetry?
            && c.expectedVersion == version && c.attempt.attemptNumber == e.attemptNumber + 1
            && (tenant.Some? ==> c.attempt.generation.Some?) && Agrees(c, tenant, resource, tool, fence))
  {
  }

  /** Registration is refused exactly for these reasons. */
  lemma RegistersExactly(t: Table, operation: string, key: string, tenant: string, resource: string, tool: string,
                         version: int, fence: int, previous: int, e: FailureEvidence,
                         b: (Option<string>, Option<string>, Option<string>))
    ensures AddReady(t, operation, key, tenant, resource, tool, version, fence, previous).Ok? <==>
      && operation !in t && "" !in [operation, key, tenant, resource, tool]
      && 0 <= version && 0 <= fence && 0 <= previous
    ensures AddRetryable(t, e, b.0, b.1, b.2, version, fence).Ok? <==>
      && e.operationId !in t && e.execution.ProvenNotExecuted? && 0 <= version && 0 <= fence
      && (b == (None, None, None) || (Truthy(b.0) && Truthy(b.1) && Truthy(b.2)))
  {
    var texts := [operation, key, tenant, resource, tool];
    assert texts[0] == operation && texts[1] == key && texts[2] == tenant && texts[3] == resource && texts[4] == tool;
  }

  /** A won claim moves its own record one version on, to exactly the attempt that claimed, and
      never lowers a fence that it named. */
  lemma ClaimStarts(t: Table, c: ClaimRequest)
    requires ClaimGuard(t, c).Claimed?
    ensures c.attempt.operationId in t
    ensures var r, r' := t[c.attempt.operationId], Started(t[c.attempt.operationId], c);
      && r'.state.DispatchStarted? && r'.version == r.version + 1 && r'.attemptNumber == r.attemptNumber + 1
      && r'.attemptNumber == c.attempt.attemptNumber && r'.requestId == Some(c.attempt.requestId)
      && r'.generation == c.attempt.generation && r'.operationId == r.operationId
         && r'.idempotencyKey == r.idempotencyKey
      && r'.tenantId == r.tenantId && r'.resourceId == r.resourceId && r'.toolName == r.toolName
      && r'.externalId == r.externalId
      && (c.newFence.Some? ==> r'.fence == c.newFence.value && (c.expectedFence.Some? ==> r.fence < r'.fence))
      && (c.newFence.None? ==> r'.fence == r.fence)
  {
  }

  /** The stored record is of the proposal's own operation, binding and attempt. */
  ghost predicate OwnAttempt(t: Table, p: Proposal) {
    && p.operationId in t
    && var r := t[p.operationId];
       && r.idempotencyKey == p.idempotencyKey && r.tenantId == Some(p.tenantId) && r.resourceId == Some(p.resourceId)
       && r.toolName == Some(p.toolName) && r.attemptNumber == p.attemptNumber && r.requestId == Some(p.requestId)
       && r.generation == Some(p.generation)
  }

  ghost predicate Mine(t: Table, p: Proposal) {
    && p.operationId in t
    && var r := t[p.operationId];
       && r.idempotencyKey == p.idempotencyKey && r.tenantId == Some(p.tenantId) && r.resourceId == Some(p.resourceId)
       && r.toolName == Some(p.toolName)
  }

  /** Each refusal of a claim by its condition, in the order they are checked. */
  lemma ClaimAnswersExactly(t: Table, c: ClaimRequest)
    ensures var o := ClaimGuard(t, c);
      var a := c.attempt;
      && (o.NotAdmitted? <==> !c.admitted)
      && (c.admitted && a.operationId !in t ==> o.IdentityConflict?)
      && (c.admitted && a.operationId in t ==>
            var r := t[a.operationId];
            var named := r.idempotencyKey == a.idempotencyKey && (c.tenantId.Some? ==> c.tenantId == r.tenantId)
                         && (c.resourceId.Some? ==> c.resourceId == r.resourceId)
                         && (c.toolName.Some? ==> c.toolName == r.toolName);
            && (o.IdentityConflict? <==> !named)
            && (o.StateConflict? <==> named && r.state != c.expectedState)
            && (o.VersionConflict? <==> named && r.state == c.expectedState && r.version != c.expectedVersion)
            && (o.Claimed? <==>
                  && named && r.state == c.expectedState && r.version == c.expectedVersion
                  && Agrees(c, r.tenantId, r.resourceId, r.toolName, r.fence)
                  && a.attemptNumber == r.attemptNumber + 1 && (r.tenantId.Some? ==> a.generation.Some?)))
  {
  }

  /** A committer that is alone commits exactly its own open attempt as it expects to find it,
      and reports a commit as already made exactly when that attempt is completed with its object. */
  lemma CommitsExactly(t: Table, k: Ticket)
    ensures var p := k.proposal;
      && (ReadCheck(t, k).None? <==>
            && OwnAttempt(t, p) && !t[p.operationId].state.Completed? && t[p.operationId].state == k.expectedState
            && t[p.operationId].version == k.expectedVersion && t[p.operationId].fence == k.expectedFence)
      && (ReadCheck(t, k) == Some(AlreadyCommitted) <==>
            OwnAttempt(t, p) && t[p.operationId].state.Completed? && t[p.operationId].externalId == Some(p.externalId))
      && (ReadCheck(t, k) == Some(AttemptConflict) <==> Mine(t, p) && !OwnAttempt(t, p))
      && (ReadCheck(t, k) == Some(BindingConflict) <==> !Mine(t, p))
      && (ReadCheck(t, k) == Some(CommitVersionConflict) <==>
            && OwnAttempt(t, p) && !t[p.operationId].state.Completed? && t[p.operationId].state == k.expectedState
            && t[p.operationId].version != k.expectedVersion)
      && (ReadCheck(t, k) == Some(CommitFenceConflict) <==>
            && OwnAttempt(t, p) && !t[p.operationId].state.Completed? && t[p.operationId].state == k.expectedState
            && t[p.operationId].version == k.expectedVersion && t[p.operationId].fence != k.expectedFence)
      && (CasMatches(t, k) <==>
            && OwnAttempt(t, p) && t[p.operationId].state == k.expectedState
            && t[p.operationId].version == k.expectedVersion && t[p.operationId].fence == k.expectedFence)
  {
  }

  // ---------------------------------------------------------------- why claims must name a ready state

  /** A claim request built from nothing but what a record says. */
  function Reclaim(r: DispatchRecord): ClaimRequest {
    ClaimRequest(true, AttemptPlan(r.operationId, r.idempotencyKey, NumberId(0), r.attemptNumber + 1, 0.0, Some(1)),
                 r.version, r.state, None, None, None, None, None)
  }

  /** The store itself does not insist on a ready state: a record in any state can be
      claimed exactly by a request that names that state. So naming ready states is what
      makes a claim single and a completion final. */
  lemma ClaimableExactlyAsNamed(t: Table, operation: string, named: RecordState)
    requires operation in t && t[operation].operationId == operation
    ensures
      named == t[operation].state <==>
        exists c: ClaimRequest ::
          c.attempt.operationId == operation && c.expectedState == named && ClaimGuard(t, c).Claimed?
  {
    if named == t[operation].state {
      assert ClaimGuard(t, Reclaim(t[operation])).Claimed?;
    }
  }

  /** The concrete consequence: a completed operation named as completed is dispatched again. */
  lemma CompletedCanBeReclaimed(t: Table, operation: string)
    requires operation in t && t[operation].operationId == operation && t[operation].state.Completed?
    ensures var w' := Next(World(t, {}, []), Claim(Reclaim(t[operation])));
      w'.table[operation].state.DispatchStarted? && |w'.log| == 1 && w'.log[0].ClaimedAs?
  {
  }
}
