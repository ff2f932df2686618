/** The fenced attempt lifecycle together with the idempotent tool executor. */
module RuntimeAttempts {
  import opened Common

  datatype AttemptStatus =
    | Prepared | DispatchClaimed | PendingReconciliation | ToolAdmitted | ToolExecuted | ToolExecutionBlocked
    | OutcomeRejected | Cancelled | Completed

  datatype Attempt = Attempt(
    jobId: string, promptHash: string, status: AttemptStatus, claimedBy: Option<string>, fence: Option<nat>,
    toolCallId: Option<string>, idempotencyKey: Option<string>, operationId: Option<string>)

  datatype ToolCall = ToolCall(
    attemptId: string, jobId: string, toolCallId: string, toolName: string, toolVersion: string, tenantId: string,
    reportId: string, reportVersion: int, idempotencyKey: string)

  datatype ExecutionStatus = Executed | DuplicateSuppressed | RejectedDisabled

  datatype ExecutionResult = ExecutionResult(status: ExecutionStatus, operationId: Option<string>)

  datatype OutcomeStatus = Verified | ParseFailure | SchemaInvalid | SemanticallyInvalid | IdentityMismatch

  datatype Refusal = AlreadyExists | NotOwned | WrongStatus | StaleAuthority | UnknownTool | UnknownAttempt

  /** The attempt table, the fence counter, the executor and the tools that are active. */
  datatype Runtime = Runtime(
    attempts: map<string, Attempt>, nextFence: nat, operations: map<string, string>,
    effects: map<(string, string, int), nat>, defined: set<(string, string)>, active: set<(string, string)>)

  /** The operation id is a digest of the idempotency key. */
  function OperationId(key: string): string {
    "op:" + key
  }

  function EffectKey(c: ToolCall): (string, string, int) {
    (c.tenantId, c.reportId, c.reportVersion)
  }

  function Count(m: map<(string, string, int), nat>, k: (string, string, int)): nat {
    if k in m then m[k] else 0
  }

  /** InMemoryToolExecutor.execute under the registry's activity guard. */
  function Execute(r: Runtime, c: ToolCall): (Runtime, ExecutionResult) {
    if (c.toolName, c.toolVersion) !in r.active then (r, ExecutionResult(RejectedDisabled, None))
    else if c.idempotencyKey in r.operations then
      (r, ExecutionResult(DuplicateSuppressed, Some(r.operations[c.idempotencyKey])))
    else
      (r.(operations := r.operations[c.idempotencyKey := OperationId(c.idempotencyKey)],
          effects := r.effects[EffectKey(c) := Count(r.effects, EffectKey(c)) + 1]),
       ExecutionResult(Executed, Some(OperationId(c.idempotencyKey))))
  }

  predicate Owned(r: Runtime, attemptId: string, worker: string) {
    attemptId in r.attempts && r.attempts[attemptId].claimedBy == Some(worker)
  }

  function Put(r: Runtime, attemptId: string, a: Attempt): Runtime {
    r.(attempts := r.attempts[attemptId := a])
  }

  // ---------------------------------------------------------------- the operations

  datatype Step =
    | PersistPrepared(attemptId: string, jobId: string, promptHash: string)
    | ClaimDispatch(attemptId: string, promptHash: string, worker: string)
    | MarkUnknown(attemptId: string, worker: string)
    | RecordAdmission(worker: string, call: ToolCall)
    | ExecuteFenced(worker: string, call: ToolCall, expectedFence: nat)
    | RecordExecution(attemptId: string, worker: string, result: ExecutionResult)
    | RecordOutcome(worker: string, call: ToolCall, operationId: string, outcome: OutcomeStatus)
    | CancelAfterEffect(attemptId: string)
    | DisableTool(toolName: string, toolVersion: string)

  function ClaimOf(r: Runtime, s: Step): Option<Attempt>
    requires s.ClaimDispatch?
  {
    if s.attemptId !in r.attempts || !r.attempts[s.attemptId].status.Prepared?
       || r.attempts[s.attemptId].promptHash != s.promptHash then None
    else Some(r.attempts[s.attemptId].(status := DispatchClaimed, claimedBy := Some(s.worker),
      fence := Some(r.nextFence + 1)))
  }

  predicate MayExecute(r: Runtime, worker: string, c: ToolCall, expectedFence: nat) {
    && Owned(r, c.attemptId, worker)
    && var a := r.attempts[c.attemptId];
       a.status.ToolAdmitted? && a.fence == Some(expectedFence) && a.toolCallId == Some(c.toolCallId)
       && a.idempotencyKey == Some(c.idempotencyKey)
  }

  function Recorded(a: Attempt, result: ExecutionResult): Attempt {
    a.(status := if result.status.RejectedDisabled? then ToolExecutionBlocked else ToolExecuted,
       operationId := result.operationId)
  }

  function OutcomeTarget(o: OutcomeStatus): AttemptStatus {
    if o.Verified? then Completed else if o.IdentityMismatch? then PendingReconciliation else OutcomeRejected
  }

  function DoClaim(r: Runtime, s: Step): Result<Runtime, Refusal>
    requires s.ClaimDispatch?
  {
    var a := ClaimOf(r, s);
    if a.None? then Raised(WrongStatus) else Ok(Put(r, s.attemptId, a.value).(nextFence := r.nextFence + 1))
  }

  function DoUnknown(r: Runtime, s: Step): Result<Runtime, Refusal>
    requires s.MarkUnknown?
  {
    if !Owned(r, s.attemptId, s.worker) then Raised(NotOwned)
    else if !r.attempts[s.attemptId].status.DispatchClaimed? then Raised(WrongStatus)
    else Ok(Put(r, s.attemptId, r.attempts[s.attemptId].(status := PendingReconciliation)))
  }

  function DoAdmit(r: Runtime, s: Step): Result<Runtime, Refusal>
    requires s.RecordAdmission?
  {
    if !Owned(r, s.call.attemptId, s.worker) then Raised(NotOwned)
    else if !r.attempts[s.call.attemptId].status.DispatchClaimed? || s.call.jobId != r.attempts[s.call.attemptId].jobId
      then Raised(WrongStatus)
    else Ok(Put(r, s.call.attemptId, r.attempts[s.call.attemptId].(
      status := ToolAdmitted, toolCallId := Some(s.call.toolCallId), idempotencyKey := Some(s.call.idempotencyKey))))
  }

  function DoExecute(r: Runtime, s: Step): Result<Runtime, Refusal>
    requires s.ExecuteFenced?
  {
    if !Owned(r, s.call.attemptId, s.worker) then Raised(NotOwned)
    else if !MayExecute(r, s.worker, s.call, s.expectedFence) then Raised(StaleAuthority)
    else
      var (r', result) := Execute(r, s.call);
      Ok(Put(r', s.call.attemptId, Recorded(r.attempts[s.call.attemptId], result)))
  }

  /** The recording by itself: it takes whatever result its caller hands in. */
  function DoRecord(r: Runtime, s: Step): Result<Runtime, Refusal>
    requires s.RecordExecution?
  {
    if !Owned(r, s.attemptId, s.worker) then Raised(NotOwned)
    else if !r.attempts[s.attemptId].status.ToolAdmitted? then Raised(WrongStatus)
    else Ok(Put(r, s.attemptId, Recorded(r.attempts[s.attemptId], s.result)))
  }

  function DoOutcome(r: Runtime, s: Step): Result<Runtime, Refusal>
    requires s.RecordOutcome?
  {
    if !Owned(r, s.call.attemptId, s.worker) then Raised(NotOwned)
    else
      var a := r.attempts[s.call.attemptId];
      if !a.status.ToolExecuted? || a.toolCallId != Some(s.call.toolCallId) || a.operationId != Some(s.operationId)
         || s.call.jobId != a.jobId then Raised(WrongStatus)
      else Ok(Put(r, s.call.attemptId, a.(status := OutcomeTarget(s.outcome))))
  }

  /** One critical section of the attempt store; Raised is the exception it throws. */
  function Apply(r: Runtime, s: Step): Result<Runtime, Refusal> {
    match s
    case PersistPrepared(id, jobId, promptHash) =>
      if id in r.attempts then Raised(AlreadyExists)
      else Ok(Put(r, id, Attempt(jobId, promptHash, Prepared, None, None, None, None, None)))
    case ClaimDispatch(_, _, _) => DoClaim(r, s)
    case MarkUnknown(_, _) => DoUnknown(r, s)
    case RecordAdmission(_, _) => DoAdmit(r, s)
    case ExecuteFenced(_, _, _) => DoExecute(r, s)
    case RecordExecution(_, _, _) => DoRecord(r, s)
    case RecordOutcome(_, _, _, _) => DoOutcome(r, s)
    case CancelAfterEffect(id) =>
      if id !in r.attempts then Raised(UnknownAttempt)
      else if !r.attempts[id].status.ToolExecuted? then Raised(WrongStatus)
      else Ok(Put(r, id, r.attempts[id].(status := Cancelled)))
    case DisableTool(name, version) =>
      if (name, version) !in r.defined then Raised(UnknownTool) else Ok(r.(active := r.active - {(name, version)}))
  }

  /** InMemoryRuntimeAttemptStore with the executor and registry it drives. */
  class AttemptStore {
    var attempts: map<string, Attempt>
    var nextFence: nat
    var operations: map<string, string>
    var effects: map<(string, string, int), nat>
    var active: set<(string, string)>
    const defined: set<(string, string)>

    function Value(): Runtime
      reads this
    {
      Runtime(attempts, nextFence, operations, effects, defined, active)
    }

    /** The store now is what the step makes of the store before; a refusal changes nothing. */
    ghost predicate Follows(before: Runtime, s: Step, r: Result<(), Refusal>)
      reads this
    {
      var out := Apply(before, s);
      if out.Ok? then r == Ok(()) && Value() == out.value else r == Raised(out.error) && Value() == before
    }

    constructor (tools: set<(string, string)>)
      ensures Value() == Runtime(map[], 0, map[], map[], tools, tools)
    {
      attempts, nextFence, operations, effects, active, defined := map[], 0, map[], map[], tools, tools;
    }

    method Claim(attemptId: string, promptHash: string, worker: string) returns (claimed: Option<Attempt>)
      modifies this
      ensures var out := Apply(old(Value()), ClaimDispatch(attemptId, promptHash, worker));
        if out.Ok? then Value() == out.value && claimed == Some(attempts[attemptId]) && attemptId in attempts
        else claimed.None? && Value() == old(Value())
    {
      if attemptId !in attempts || !attempts[attemptId].status.Prepared?
        || attempts[attemptId].promptHash != promptHash {
        return None;
      }
      nextFence := nextFence + 1;
      var record := attempts[attemptId].(status := DispatchClaimed, claimedBy := Some(worker),
        fence := Some(nextFence));
      attempts := attempts[attemptId := record];
      return Some(record);
    }

    method PersistPrepared(attemptId: string, jobId: string, promptHash: string) returns (r: Result<(), Refusal>)
      modifies this
      ensures Follows(old(Value()), Step.PersistPrepared(attemptId, jobId, promptHash), r)
    {
      if attemptId in attempts {
        return Raised(AlreadyExists);
      }
      attempts := attempts[attemptId := Attempt(jobId, promptHash, Prepared, None, None, None, None, None)];
      return Ok(());
    }

    method MarkProviderUnknown(attemptId: string, worker: string) returns (r: Result<(), Refusal>)
      modifies this
      ensures Follows(old(Value()), MarkUnknown(attemptId, worker), r)
    {
      if attemptId !in attempts || attempts[attemptId].claimedBy != Some(worker) {
        return Raised(NotOwned);
      }
      if !attempts[attemptId].status.DispatchClaimed? {
        return Raised(WrongStatus);
      }
      attempts := attempts[attemptId := attempts[attemptId].(status := PendingReconciliation)];
      return Ok(());
    }

    method RecordToolAdmission(worker: string, call: ToolCall) returns (r: Result<(), Refusal>)
      modifies this
      ensures Follows(old(Value()), RecordAdmission(worker, call), r)
    {
      if call.attemptId !in attempts || attempts[call.attemptId].claimedBy != Some(worker) {
        return Raised(NotOwned);
      }
      var current := attempts[call.attemptId];
      if !current.status.DispatchClaimed? || call.jobId != current.jobId {
        return Raised(WrongStatus);
      }
      attempts := attempts[call.attemptId := current.(status := ToolAdmitted, toolCallId := Some(call.toolCallId),
                                                      idempotencyKey := Some(call.idempotencyKey))];
      return Ok(());
    }

    method RecordToolExecution(attemptId: string, worker: string, result: ExecutionResult)
      returns (r: Result<(), Refusal>)
      modifies this
      ensures Follows(old(Value()), RecordExecution(attemptId, worker, result), r)
    {
      if attemptId !in attempts || attempts[attemptId].claimedBy != Some(worker) {
        return Raised(NotOwned);
      }
      var current := attempts[attemptId];
      if !current.status.ToolAdmitted? {
        return Raised(WrongStatus);
      }
      var executed := result.status.Executed? || result.status.DuplicateSuppressed?;
      attempts := attempts[attemptId := current.(status := if executed then ToolExecuted else ToolExecutionBlocked,
                                                 operationId := result.operationId)];
      return Ok(());
    }

    method RecordToolOutcome(worker: string, call: ToolCall, operationId: string, outcome: OutcomeStatus)
      returns (r: Result<(), Refusal>)
      modifies this
      ensures Follows(old(Value()), RecordOutcome(worker, call, operationId, outcome), r)
    {
      if call.attemptId !in attempts || attempts[call.attemptId].claimedBy != Some(worker) {
        return Raised(NotOwned);
      }
      var current := attempts[call.attemptId];
      if !current.status.ToolExecuted? || current.toolCallId != Some(call.toolCallId)
         || current.operationId != Some(operationId) || call.jobId != current.jobId {
        return Raised(WrongStatus);
      }
      attempts := attempts[call.attemptId := current.(status := OutcomeTarget(outcome))];
      return Ok(());
    }

    method CancelAfterExternalEffect(attemptId: string) returns (r: Result<(), Refusal>)
      modifies this
      ensures Follows(old(Value()), CancelAfterEffect(attemptId), r)
    {
      if attemptId !in attempts {
        return Raised(UnknownAttempt);
      }
      if !attempts[attemptId].status.ToolExecuted? {
        return Raised(WrongStatus);
      }
      attempts := attempts[attemptId := attempts[attemptId].(status := Cancelled)];
      return Ok(());
    }

    /** The effect boundary: authority is rechecked, the effect runs, the result is recorded. */
    method ExecuteAdmitted(worker: string, call: ToolCall, expectedFence: nat)
      returns (r: Result<ExecutionResult, Refusal>)
      modifies this
      ensures var out := Apply(old(Value()), ExecuteFenced(worker, call, expectedFence));
        if out.Ok? then Value() == out.value && r == Ok(Execute(old(Value()), call).1)
        else r == Raised(out.error) && Value() == old(Value())
    {
      if call.attemptId !in attempts || attempts[call.attemptId].claimedBy != Some(worker) {
        return Raised(NotOwned);
      }
      var current := attempts[call.attemptId];
      if !current.status.ToolAdmitted? || current.fence != Some(expectedFence)
        || current.toolCallId != Some(call.toolCallId)
         || current.idempotencyKey != Some(call.idempotencyKey) {
        return Raised(StaleAuthority);
      }
      var result;
      if (call.toolName, call.toolVersion) !in active {
        result := ExecutionResult(RejectedDisabled, None);
      } else if call.idempotencyKey in operations {
        result := ExecutionResult(DuplicateSuppressed, Some(operations[call.idempotencyKey]));
      } else {
        var operationId := OperationId(call.idempotencyKey);
        effects := effects[EffectKey(call) := Count(effects, EffectKey(call)) + 1];
        operations := operations[call.idempotencyKey := operationId];
        result := ExecutionResult(Executed, Some(operationId));
      }
      attempts := attempts[call.attemptId := Recorded(current, result)];
      return Ok(result);
    }
  }

  // ---------------------------------------------------------------- runs

  /** One run of the external effect, by the attempt that was admitted for it. */
  datatype Ran = Ran(idempotencyKey: string, effect: (string, string, int), attemptId: string)

  /** The runtime, every change of status, every fence granted and every effect, oldest first. */
  datatype World = World(runtime: Runtime, changes: seq<(string, AttemptStatus)>, fences: seq<nat>, runs: seq<Ran>)

  /** The attempt whose status a step changes when it succeeds. */
  function Touched(s: Step): Option<string> {
    match s
    case PersistPrepared(id, _, _) => Some(id)
    case ClaimDispatch(id, _, _) => Some(id)
    case MarkUnknown(id, _) => Some(id)
    case RecordAdmission(_, call) => Some(call.attemptId)
    case ExecuteFenced(_, call, _) => Some(call.attemptId)
    case RecordExecution(id, _, _) => Some(id)
    case RecordOutcome(_, call, _, _) => Some(call.attemptId)
    case CancelAfterEffect(id) => Some(id)
    case DisableTool(_, _) => None
  }

  predicate RunsEffect(r: Runtime, s: Step) {
    s.ExecuteFenced? && Apply(r, s).Ok? && Execute(r, s.call).1.status.Executed?
  }

  function Next(w: World, s: Step): World {
    var out := Apply(w.runtime, s);
    if out.Raised? then w else
    World(out.value,
          if Touched(s).Some? && Touched(s).value in out.value.attempts
          then w.changes + [(Touched(s).value, out.value.attempts[Touched(s).value].status)] else w.changes,
          if s.ClaimDispatch? then w.fences + [out.value.nextFence] else w.fences,
          if RunsEffect(w.runtime, s) then w.runs + [Ran(s.call.idempotencyKey, EffectKey(s.call), s.call.attemptId)]
          else w.runs)
  }

  function Run(w: World, steps: seq<Step>): World
    decreases |steps|
  {
    if steps == [] then w else Run(Next(w, steps[0]), steps[1..])
  }

  // ---------------------------------------------------------------- statuses climb, fences rise

  /** Every change of status climbs this rank. */
  function Rank(s: AttemptStatus): nat {
    match s
    case Prepared => 0
    case DispatchClaimed => 1
    case ToolAdmitted => 2
    case ToolExecuted => 3
    case _ => 4
  }

  /** A successful step only moves the attempt it touches, and moves that one up. */
  lemma StepClimbs(r: Runtime, s: Step)
    requires Apply(r, s).Ok?
    ensures var r' := Apply(r, s).value;
      && (forall id :: id in r.attempts ==>
            id in r'.attempts && (Touched(s) != Some(id) ==> r'.attempts[id] == r.attempts[id]))
      && (Touched(s).Some? ==>
            var id := Touched(s).value;
            id in r'.attempts && (id in r.attempts ==> Rank(r.attempts[id].status) < Rank(r'.attempts[id].status)))
      && (s.ClaimDispatch? ==> r'.nextFence == r.nextFence + 1) && (!s.ClaimDispatch? ==> r'.nextFence == r.nextFence)
  {
  }

  ghost predicate Climbs(w: World) {
    && (forall i :: 0 <= i < |w.changes| ==>
          && w.changes[i].0 in w.runtime.attempts
          && Rank(w.changes[i].1) <= Rank(w.runtime.attempts[w.changes[i].0].status))
    && (forall i, j :: 0 <= i < j < |w.changes| && w.changes[i].0 == w.changes[j].0 ==>
          Rank(w.changes[i].1) < Rank(w.changes[j].1))
    && (forall i :: 0 <= i < |w.fences| ==> 1 <= w.fences[i] <= w.runtime.nextFence)
    && (forall i, j :: 0 <= i < j < |w.fences| ==> w.fences[i] < w.fences[j])
  }

  lemma ClimbsStep(w: World, s: Step)
    requires Climbs(w)
    ensures Climbs(Next(w, s))
  {
    if Apply(w.runtime, s).Ok? {
      StepClimbs(w.runtime, s);
      ClimbsAppend(w, Next(w, s), s);
    }
  }

  lemma ClimbsAppend(w: World, w': World, s: Step)
    requires Climbs(w)
    requires forall id :: id in w.runtime.attempts ==>
      id in w'.runtime.attempts && (Touched(s) != Some(id) ==> w'.runtime.attempts[id] == w.runtime.attempts[id])
    requires if Touched(s).Some? then
               var id := Touched(s).value;
               && id in w'.runtime.attempts && w'.changes == w.changes + [(id, w'.runtime.attempts[id].status)]
               && (id in w.runtime.attempts ==>
                  Rank(w.runtime.attempts[id].status) < Rank(w'.runtime.attempts[id].status))
             else w'.changes == w.changes
    requires if s.ClaimDispatch? then w'.runtime.nextFence == w.runtime.nextFence + 1 && w'.fences == w.fences
      + [w'.runtime.nextFence]
             else w'.runtime.nextFence == w.runtime.nextFence && w'.fences == w.fences
    ensures Climbs(w')
  {
    forall i | 0 <= i < |w.changes|
      ensures w'.changes[i] == w.changes[i] && w.changes[i].0 in w'.runtime.attempts
      ensures Rank(w.changes[i].1) <= Rank(w'.runtime.attempts[w.changes[i].0].status)
      ensures Touched(s) == Some(w.changes[i].0) ==>
        Rank(w.changes[i].1) < Rank(w'.runtime.attempts[w.changes[i].0].status)
    {
      assert w.changes[i].0 in w.runtime.attempts;
    }
  }

  /** In every interleaving each attempt's status strictly climbs, so none recurs, and claim
      fences are distinct and increasing. */
  lemma {:induction false} StatusesAlwaysClimb(w: World, steps: seq<Step>)
    requires Climbs(w)
    ensures Climbs(Run(w, steps))
    decreases |steps|
  {
    if steps != [] {
      ClimbsStep(w, steps[0]);
      StatusesAlwaysClimb(Next(w, steps[0]), steps[1..]);
    }
  }

  // ---------------------------------------------------------------- when a step succeeds

  ghost predicate Holds(r: Runtime, id: string, worker: string, status: AttemptStatus) {
    id in r.attempts && r.attempts[id].claimedBy == Some(worker) && r.attempts[id].status == status
  }

  /** Each operation succeeds exactly for the owner of an attempt in the right status, with the
      job, call, key and fence that the attempt was given. */
  lemma StepsSucceedExactly(r: Runtime, s: Step)
    ensures Apply(r, s).Ok? <==>
      match s
      case PersistPrepared(id, _, _) => id !in r.attempts
      case ClaimDispatch(id, hash, _) =>
        id in r.attempts && r.attempts[id].status.Prepared? && r.attempts[id].promptHash == hash
      case MarkUnknown(id, worker) => Holds(r, id, worker, DispatchClaimed)
      case RecordAdmission(worker, call) =>
        Holds(r, call.attemptId, worker, DispatchClaimed) && r.attempts[call.attemptId].jobId == call.jobId
      case ExecuteFenced(worker, call, fence) =>
        && Holds(r, call.attemptId, worker, ToolAdmitted) && r.attempts[call.attemptId].fence == Some(fence)
        && r.attempts[call.attemptId].toolCallId == Some(call.toolCallId)
        && r.attempts[call.attemptId].idempotencyKey == Some(call.idempotencyKey)
      case RecordExecution(id, worker, _) => Holds(r, id, worker, ToolAdmitted)
      case RecordOutcome(_, call, _, _) => RecordsOutcome(r, s, call.attemptId)
      case CancelAfterEffect(id) => id in r.attempts && r.attempts[id].status.ToolExecuted?
      case DisableTool(name, version) => (name, version) in r.defined
  {
  }

  /** A claim names its worker and the next fence, an admission its call and key; both are what
      later steps are checked against. */
  lemma ClaimsAndAdmissionsBind(r: Runtime, s: Step)
    requires Apply(r, s).Ok?
    ensures var r' := Apply(r, s).value;
      && (s.ClaimDispatch? ==>
            && r'.attempts[s.attemptId].claimedBy == Some(s.worker)
            && r'.attempts[s.attemptId].fence == Some(r.nextFence + 1) && r'.nextFence == r.nextFence + 1
            && r'.attempts[s.attemptId].jobId == r.attempts[s.attemptId].jobId)
      && (s.RecordAdmission? ==>
            && r'.attempts[s.call.attemptId].toolCallId == Some(s.call.toolCallId)
            && r'.attempts[s.call.attemptId].idempotencyKey == Some(s.call.idempotencyKey)
            && r'.attempts[s.call.attemptId].claimedBy == Some(s.worker)
            && r'.attempts[s.call.attemptId].fence == r.attempts[s.call.attemptId].fence)
      && (s.PersistPrepared? ==>
            && r'.attempts[s.attemptId].jobId == s.jobId && r'.attempts[s.attemptId].promptHash == s.promptHash
            && r'.attempts[s.attemptId].claimedBy.None?)
      && (s.DisableTool? ==> (s.toolName, s.toolVersion) !in r'.active && r'.attempts == r.attempts)
  {
  }

  /** The effect runs exactly for an authorised call of an active tool whose key was not executed
      before; a repeated key reports the operation of its first run. */
  lemma EffectRunsExactly(r: Runtime, s: Step)
    requires s.ExecuteFenced? && Apply(r, s).Ok?
    ensures RunsEffect(r, s) <==>
      (s.call.toolName, s.call.toolVersion) in r.active && s.call.idempotencyKey !in r.operations
    ensures var a := Apply(r, s).value.attempts[s.call.attemptId];
      if (s.call.toolName, s.call.toolVersion) !in r.active then a.status.ToolExecutionBlocked? && a.operationId.None?
      else
        && a.status.ToolExecuted? && s.call.idempotencyKey in Apply(r, s).value.operations
        && a.operationId == Some(Apply(r, s).value.operations[s.call.idempotencyKey])
        && (s.call.idempotencyKey in r.operations ==> a.operationId == Some(r.operations[s.call.idempotencyKey]))
    ensures forall e ::
      var ours := e == (s.call.tenantId, s.call.reportId, s.call.reportVersion);
      Count(Apply(r, s).value.effects, e) == Count(r.effects, e) + (if RunsEffect(r, s) && ours then 1 else 0)
  {
  }

  /** Operation ids tell keys apart. */
  lemma OperationIdsDiffer(a: string, b: string)
    ensures OperationId(a) == OperationId(b) ==> a == b
  {
    assert OperationId(a)[3..] == a && OperationId(b)[3..] == b;
  }

  // ---------------------------------------------------------------- what completes an attempt

  /** The step records this outcome for the executed call and operation of an owned attempt. */
  ghost predicate RecordsOutcome(r: Runtime, s: Step, id: string) {
    && s.RecordOutcome? && s.call.attemptId == id && id in r.attempts
    && var a := r.attempts[id];
       && a.claimedBy == Some(s.worker) && a.status.ToolExecuted? && a.toolCallId == Some(s.call.toolCallId)
       && a.operationId == Some(s.operationId) && a.jobId == s.call.jobId
  }

  function StatusAt(r: Runtime, id: string): Option<AttemptStatus> {
    if id in r.attempts then Some(r.attempts[id].status) else None
  }

  /** A step completes an attempt exactly on a verified outcome of its own executed call; an
      identity mismatch goes to reconciliation, anything else is rejected. */
  lemma OutcomeDecidesExactly(r: Runtime, s: Step, id: string)
    requires Apply(r, s).Ok?
    ensures var before, after := StatusAt(r, id), StatusAt(Apply(r, s).value, id);
      && (after == Some(Completed) && before != after <==> RecordsOutcome(r, s, id) && s.outcome.Verified?)
      && (after == Some(OutcomeRejected) && before != after <==>
            RecordsOutcome(r, s, id) && !s.outcome.Verified? && !s.outcome.IdentityMismatch?)
      && (RecordsOutcome(r, s, id) && s.outcome.IdentityMismatch? ==> after == Some(PendingReconciliation))
  {
  }

  /** The other changes of status, each by the step that makes it. */
  lemma StatusesChangeExactly(r: Runtime, s: Step, id: string)
    requires Apply(r, s).Ok?
    ensures var before, after := StatusAt(r, id), StatusAt(Apply(r, s).value, id);
      && (after == Some(Prepared) && before != after <==> s.PersistPrepared? && s.attemptId == id)
      && (after == Some(DispatchClaimed) && before != after <==> s.ClaimDispatch? && s.attemptId == id)
      && (after == Some(ToolAdmitted) && before != after <==> s.RecordAdmission? && s.call.attemptId == id)
      && (after == Some(Cancelled) && before != after <==> s.CancelAfterEffect? && s.attemptId == id)
      && (after == Some(ToolExecutionBlocked) && before != after <==>
            || (s.ExecuteFenced? && s.call.attemptId == id && (s.call.toolName, s.call.toolVersion) !in r.active)
            || (s.RecordExecution? && s.attemptId == id && s.result.status.RejectedDisabled?))
  {
  }

  /** Over every run, an attempt that became completed was completed by a step that recorded a
      verified outcome for it. */
  lemma {:induction false} CompletedWasVerified(w: World, steps: seq<Step>, id: string)
    requires StatusAt(w.runtime, id) != Some(Completed) && StatusAt(Run(w, steps).runtime, id) == Some(Completed)
    ensures exists k ::
      && 0 <= k < |steps| && RecordsOutcome(Run(w, steps[..k]).runtime, steps[k], id) && steps[k].outcome.Verified?
    decreases |steps|
  {
    var w' := Next(w, steps[0]);
    if StatusAt(w'.runtime, id) == Some(Completed) {
      OutcomeDecidesExactly(w.runtime, steps[0], id);
      assert steps[..0] == [];
    } else {
      CompletedWasVerified(w', steps[1..], id);
      var k :| 0 <= k < |steps[1..]| && RecordsOutcome(Run(w', steps[1..][..k]).runtime, steps[1..][k], id)
               && steps[1..][k].outcome.Verified?;
      assert steps[..k + 1][1..] == steps[1..][..k] && steps[..k + 1][0] == steps[0];
      assert steps[k + 1] == steps[1..][k];
    }
  }

  // ---------------------------------------------------------------- one effect per key

  function Tally(runs: seq<Ran>, effect: (string, string, int)): nat {
    if runs == [] then 0 else Tally(runs[..|runs| - 1], effect) + (if runs[|runs| - 1].effect == effect then 1 else 0)
  }

  lemma TallyGrows(runs: seq<Ran>, e: Ran, effect: (string, string, int))
    ensures Tally(runs + [e], effect) == Tally(runs, effect) + (if e.effect == effect then 1 else 0)
  {
    assert (runs + [e])[..|runs|] == runs;
  }

  /** The executed keys are exactly the runs, each once, and the effect counters count the runs. */
  ghost predicate OncePerKey(w: World) {
    && |w.runs| == |w.runtime.operations|
    && (forall i :: 0 <= i < |w.runs| ==> w.runs[i].idempotencyKey in w.runtime.operations)
    && (forall i, j :: 0 <= i < j < |w.runs| ==> w.runs[i].idempotencyKey != w.runs[j].idempotencyKey)
    && (forall e :: Count(w.runtime.effects, e) == Tally(w.runs, e))
  }

  /** What a step does to the executor. */
  lemma StepExecutes(w: World, s: Step)
    ensures var w' := Next(w, s);
      if RunsEffect(w.runtime, s) then
        && s.call.idempotencyKey !in w.runtime.operations
        && w'.runtime.operations == w.runtime.operations[s.call.idempotencyKey := OperationId(s.call.idempotencyKey)]
        && w'.runtime.effects == w.runtime.effects[EffectKey(s.call) := Count(w.runtime.effects, EffectKey(s.call)) + 1]
        && w'.runs == w.runs + [Ran(s.call.idempotencyKey, EffectKey(s.call), s.call.attemptId)]
      else
        w'.runtime.operations == w.runtime.operations && w'.runtime.effects == w.runtime.effects && w'.runs == w.runs
  {
  }

  lemma OncePerKeyStep(w: World, w': World, ran: Ran)
    requires OncePerKey(w) && ran.idempotencyKey !in w.runtime.operations && w'.runs == w.runs + [ran]
    requires w'.runtime.operations == w.runtime.operations[ran.idempotencyKey := OperationId(ran.idempotencyKey)]
    requires w'.runtime.effects == w.runtime.effects[ran.effect := Count(w.runtime.effects, ran.effect) + 1]
    ensures OncePerKey(w')
  {
    var n := |w.runs|;
    forall e ensures Count(w'.runtime.effects, e) == Tally(w'.runs, e) {
      TallyGrows(w.runs, ran, e);
    }
    assert forall i :: 0 <= i < n ==> w'.runs[i] == w.runs[i];
    assert w'.runs[n] == ran;
    assert |w'.runtime.operations| == n + 1 by {
      assert w'.runtime.operations.Keys == w.runtime.operations.Keys + {ran.idempotencyKey};
    }
  }

  /** With effects run only through the fenced path, the number of effects is the number of
      distinct idempotency keys executed, under any interleaving of workers. */
  lemma {:induction false} EffectsCountKeys(w: World, steps: seq<Step>)
    requires OncePerKey(w)
    ensures OncePerKey(Run(w, steps))
    decreases |steps|
  {
    if steps != [] {
      var s, w' := steps[0], Next(w, steps[0]);
      StepExecutes(w, s);
      if RunsEffect(w.runtime, s) {
        OncePerKeyStep(w, w', Ran(s.call.idempotencyKey, EffectKey(s.call), s.call.attemptId));
      }
      EffectsCountKeys(w', steps[1..]);
    }
  }

  /** The operation id that an attempt reports is that of its own key, whoever ran it. */
  ghost predicate ReportsOwnKey(r: Runtime) {
    && (forall k :: k in r.operations ==> r.operations[k] == OperationId(k))
    && (forall id :: id in r.attempts && r.attempts[id].operationId.Some? ==> ReportsOwn(r.attempts[id]))
  }

  ghost predicate ReportsOwn(a: Attempt) {
    && a.operationId.Some? && a.idempotencyKey.Some? && Rank(a.status) >= 3
    && a.operationId.value == OperationId(a.idempotencyKey.value)
  }

  /** A result recorded directly names no operation, or that of the attempt's own key. */
  predicate HonestRecord(r: Runtime, s: Step) {
    s.RecordExecution? && Apply(r, s).Ok? && s.result.operationId.Some? ==>
      && r.attempts[s.attemptId].idempotencyKey.Some?
      && s.result.operationId.value == OperationId(r.attempts[s.attemptId].idempotencyKey.value)
  }

  /** Every direct recording of the run is honest when it happens. */
  predicate HonestRun(w: World, steps: seq<Step>)
    decreases |steps|
  {
    steps != [] ==> HonestRecord(w.runtime, steps[0]) && HonestRun(Next(w, steps[0]), steps[1..])
  }

  /** In every run whose direct recordings are honest, reports stay own; the fenced path needs no such care. */
  lemma {:induction false} ReportsStayOwn(w: World, steps: seq<Step>)
    requires ReportsOwnKey(w.runtime) && HonestRun(w, steps)
    ensures ReportsOwnKey(Run(w, steps).runtime)
    decreases |steps|
  {
    if steps != [] {
      if Apply(w.runtime, steps[0]).Ok? {
        ReportsStep(w.runtime, steps[0]);
      }
      ReportsStayOwn(Next(w, steps[0]), steps[1..]);
    }
  }

  /** Exactly when a step keeps the reports: always, but for a direct recording of a foreign operation. */
  lemma ReportsStep(r: Runtime, s: Step)
    requires ReportsOwnKey(r) && Apply(r, s).Ok?
    ensures ReportsOwnKey(Apply(r, s).value) <==> HonestRecord(r, s)
  {
    StepClimbs(r, s);
    var r' := Apply(r, s).value;
    if HonestRecord(r, s) {
      StepReports(r, s);
      forall id | id in r'.attempts && r'.attempts[id].operationId.Some? ensures ReportsOwn(r'.attempts[id]) {
        assert Touched(s) != Some(id) ==> r'.attempts[id] == r.attempts[id];
      }
    } else {
      assert r'.attempts[s.attemptId].operationId.Some? && !ReportsOwn(r'.attempts[s.attemptId]);
    }
  }

  /** The attempt that a step touches reports its own key. */
  lemma StepReports(r: Runtime, s: Step)
    requires ReportsOwnKey(r) && Apply(r, s).Ok? && HonestRecord(r, s)
    ensures forall k :: k in Apply(r, s).value.operations ==> Apply(r, s).value.operations[k] == OperationId(k)
    ensures var a := Apply(r, s).value.attempts;
      Touched(s).Some? && Touched(s).value in a && a[Touched(s).value].operationId.Some? ==>
        ReportsOwn(a[Touched(s).value])
  {
    var id := if Touched(s).Some? then Touched(s).value else "";
    assert id in r.attempts && r.attempts[id].operationId.Some? ==> ReportsOwn(r.attempts[id]);
  }

  /** An attempt runs the effect at most once, even under several keys. */
  ghost predicate OncePerAttempt(w: World) {
    && (forall i :: 0 <= i < |w.runs| ==>
          w.runs[i].attemptId in w.runtime.attempts && Rank(w.runtime.attempts[w.runs[i].attemptId].status) >= 3)
    && (forall i, j :: 0 <= i < j < |w.runs| ==> w.runs[i].attemptId != w.runs[j].attemptId)
  }

  lemma {:induction false} AttemptsExecuteOnce(w: World, steps: seq<Step>)
    requires OncePerAttempt(w)
    ensures OncePerAttempt(Run(w, steps))
    decreases |steps|
  {
    if steps != [] {
      var w' := Next(w, steps[0]);
      if Apply(w.runtime, steps[0]).Ok? {
        StepClimbs(w.runtime, steps[0]);
        assert RunsEffect(w.runtime, steps[0]) ==>
          && Rank(w'.runtime.attempts[steps[0].call.attemptId].status) == 3
          && Rank(w.runtime.attempts[steps[0].call.attemptId].status) == 2;
      }
      assert OncePerAttempt(w');
      AttemptsExecuteOnce(w', steps[1..]);
    }
  }
}
