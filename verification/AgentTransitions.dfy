/** The budgeted agent state machine: one pure transition decision and the conditional
    store that applies it. */
module AgentTransitions {
  import opened Common
  import opened Records

  datatype ControlDecision = Continue | Complete | Wait | Fail | Reconcile

  datatype TransitionAction = DoContinue | DoWait | DoReconcile | DoComplete | DoTerminate | DoFail | Noop

  datatype TransitionStatus =
    | AlreadyTerminal | ExternalOutcomeUnknown | GoalVerified | KnownPrerequisitePending
    | NonRecoverableControlFailure | HardLoopDetected | CurrentAuthorizationRevoked
    | GovernancePermissionRevoked | GovernanceReplanRequired | UnsupportedDecision
    | StepBudgetExhausted | ContextBudgetExceeded | TokenBudgetExhausted | CostBudgetExhausted
    | NextStepCandidate

  datatype Budget = Budget(
    stepLimit: nat, stepsUsed: nat, tokenLimit: nat, settledTokens: nat, heldTokens: nat,
    costLimit: nat, settledCost: nat, heldCost: nat)
  {
    function RemainingSteps(): int { stepLimit - stepsUsed }
    function AvailableTokens(): int { tokenLimit - settledTokens - heldTokens }
    function AvailableCost(): int { costLimit - settledCost - heldCost }
  }

  datatype ContextBudget = ContextBudget(
    inputTokens: nat, reservedOutput: nat, safetyMargin: nat, permitted: nat, providerLimit: nat)
  {
    predicate Admitted() { inputTokens + reservedOutput + safetyMargin <= permitted <= providerLimit }
  }

  datatype RawStepResult = StepResult(controlDecisionId: string, decision: ControlDecision, nextStepId: Option<string>)

  /** Only a CONTINUE carries a next step; the result record refuses anything else. */
  type StepResult = r: RawStepResult | r.decision.Continue? <==> r.nextStepId.Some?
    witness RawStepResult.StepResult("d", Wait, None)

  datatype Input = Input(
    tenantId: string, jobId: string, stepId: string, attemptId: string, state: AgentState, fence: nat,
    result: StepResult, goalVerified: bool, pendingIdentity: Option<string>, currentAuthorization: bool,
    governance: Option<GovernanceStatus>, hardLoop: bool, budget: Budget, context: ContextBudget,
    tokens: nat, cost: nat)

  /** The digest that names a transition, as the values it hashes. */
  datatype TransitionId = TransitionId(
    tenantId: string, jobId: string, stepId: string, attemptId: string, fence: nat,
    controlDecisionId: string, action: TransitionAction, status: TransitionStatus)

  datatype RawDecision = Decision(
    id: TransitionId, tenantId: string, jobId: string, stepId: string, expectedState: AgentState,
    expectedFence: nat, action: TransitionAction, nextState: AgentState, nextStepId: Option<string>,
    tokens: nat, cost: nat)

  type Decision = d: RawDecision | d.action.DoContinue? <==> d.nextStepId.Some?
    witness RawDecision.Decision(TransitionId("t", "j", "s", "a", 0, "d", Noop, TransitionStatus.AlreadyTerminal),
                                 "t", "j", "s", Ready, 0, Noop, Ready, None, 0, 0)

  function Decided(i: Input, action: TransitionAction, next: AgentState, status: TransitionStatus): Decision
    requires !action.DoContinue?
  {
    RawDecision.Decision(
      TransitionId(i.tenantId, i.jobId, i.stepId, i.attemptId, i.fence, i.result.controlDecisionId, action, status),
      i.tenantId, i.jobId, i.stepId, i.state, i.fence, action, next, None, 0, 0)
  }

  /** decide_transition. */
  function DecideTransition(i: Input): Decision {
    if Terminal(i.state) then Decided(i, Noop, i.state, TransitionStatus.AlreadyTerminal)
    else if i.pendingIdentity.Some? || i.result.decision.Reconcile? then
      Decided(i, DoReconcile, PendingReconciliation, ExternalOutcomeUnknown)
    else if i.goalVerified then Decided(i, DoComplete, Completed, GoalVerified)
    else if i.result.decision.Wait? then Decided(i, DoWait, Waiting, KnownPrerequisitePending)
    else if i.result.decision.Fail? then Decided(i, DoFail, Failed, NonRecoverableControlFailure)
    else if i.hardLoop then Decided(i, DoTerminate, Terminated, HardLoopDetected)
    else if !i.currentAuthorization then Decided(i, DoTerminate, Terminated, CurrentAuthorizationRevoked)
    else if i.governance.Some? && !i.governance.value.AllowedToAdmission? then
      if i.governance.value.CurrentPermissionRevoked?
      then Decided(i, DoTerminate, Terminated, GovernancePermissionRevoked)
      else Decided(i, DoWait, Waiting, GovernanceReplanRequired)
    else if !i.result.decision.Continue? then Decided(i, DoFail, Failed, UnsupportedDecision)
    else if i.budget.RemainingSteps() <= 0 then Decided(i, DoTerminate, Terminated, StepBudgetExhausted)
    else if !i.context.Admitted() then Decided(i, DoWait, Waiting, ContextBudgetExceeded)
    else if i.tokens > i.budget.AvailableTokens() then Decided(i, DoTerminate, Terminated, TokenBudgetExhausted)
    else if i.cost > i.budget.AvailableCost() then Decided(i, DoTerminate, Terminated, CostBudgetExhausted)
    else
      RawDecision.Decision(
        TransitionId(i.tenantId, i.jobId, i.stepId, i.attemptId, i.fence, i.result.controlDecisionId, DoContinue,
                     NextStepCandidate),
        i.tenantId, i.jobId, i.stepId, i.state, i.fence, DoContinue, Running, i.result.nextStepId, i.tokens, i.cost)
  }

  // ---------------------------------------------------------------- what is decided, exactly

  predicate Unsettled(i: Input) {
    i.pendingIdentity.Some? || i.result.decision.Reconcile?
  }

  /** The controller asks to go on or to complete, and nothing above it has spoken. */
  predicate Proceeds(i: Input) {
    !Terminal(i.state) && !Unsettled(i) && !i.goalVerified
      && (i.result.decision.Continue? || i.result.decision.Complete?)
  }

  predicate GovernanceBlocks(i: Input) {
    i.governance.Some? && !i.governance.value.AllowedToAdmission?
  }

  predicate Authorised(i: Input) {
    !i.hardLoop && i.currentAuthorization && !GovernanceBlocks(i)
  }

  predicate StepLeft(i: Input) {
    i.budget.stepsUsed < i.budget.stepLimit
  }

  predicate ContextFits(i: Input) {
    var c := i.context;
    c.inputTokens + c.reservedOutput + c.safetyMargin <= c.permitted && c.permitted <= c.providerLimit
  }

  predicate TokensFit(i: Input) {
    i.budget.settledTokens + i.budget.heldTokens + i.tokens <= i.budget.tokenLimit
  }

  predicate CostFits(i: Input) {
    i.budget.settledCost + i.budget.heldCost + i.cost <= i.budget.costLimit
  }

  /** A CONTINUE is decided exactly for a live agent that is asked to continue, with nothing
      pending, the goal open, current authorization and governance, and room in every budget. */
  lemma ContinuesExactlyWhen(i: Input)
    ensures var d := DecideTransition(i);
      && (d.action.DoContinue? <==>
            && Proceeds(i) && Authorised(i) && i.result.decision.Continue? && StepLeft(i) && ContextFits(i)
            && TokensFit(i) && CostFits(i))
      && (d.action.DoContinue? ==>
            d.nextState.Running? && d.nextStepId == i.result.nextStepId && d.tokens == i.tokens && d.cost == i.cost)
      && (!d.action.DoContinue? ==> d.nextStepId.None? && d.tokens == 0 && d.cost == 0)
  {
  }

  /** The exact condition of every other action, each with the state it leads to. */
  lemma StopsExactlyWhen(i: Input)
    ensures var d := DecideTransition(i);
      && (d.action.Noop? <==> Terminal(i.state)) && (d.action.Noop? ==> d.nextState == i.state)
      && (d.action.DoReconcile? <==> !Terminal(i.state) && Unsettled(i))
      && (d.action.DoReconcile? ==> d.nextState.PendingReconciliation?)
      && (d.action.DoComplete? <==> !Terminal(i.state) && !Unsettled(i) && i.goalVerified)
      && (d.action.DoComplete? ==> d.nextState.Completed?)
      && (d.action.DoFail? ==> d.nextState.Failed?) && (d.action.DoWait? ==> d.nextState.Waiting?)
      && (d.action.DoTerminate? ==> d.nextState.Terminated?)
  {
  }

  lemma FailsExactlyWhen(i: Input)
    ensures DecideTransition(i).action.DoFail? <==>
      || (!Terminal(i.state) && !Unsettled(i) && !i.goalVerified && i.result.decision.Fail?)
      || (Proceeds(i) && Authorised(i) && i.result.decision.Complete?)
  {
  }

  lemma WaitsExactlyWhen(i: Input)
    ensures DecideTransition(i).action.DoWait? <==>
      || (!Terminal(i.state) && !Unsettled(i) && !i.goalVerified && i.result.decision.Wait?)
      || (Proceeds(i) && !i.hardLoop && i.currentAuthorization && GovernanceBlocks(i)
          && !i.governance.value.CurrentPermissionRevoked?)
      || (Proceeds(i) && Authorised(i) && i.result.decision.Continue? && StepLeft(i) && !ContextFits(i))
  {
  }

  /** Waiting and failing name their reasons. */
  lemma WaitsForItsReason(i: Input)
    ensures var status := DecideTransition(i).id.status;
      && (status.KnownPrerequisitePending? <==>
            !Terminal(i.state) && !Unsettled(i) && !i.goalVerified && i.result.decision.Wait?)
      && (status.GovernanceReplanRequired? <==>
            && Proceeds(i) && !i.hardLoop && i.currentAuthorization && GovernanceBlocks(i)
            && !i.governance.value.CurrentPermissionRevoked?)
      && (status.ContextBudgetExceeded? <==>
            Proceeds(i) && Authorised(i) && i.result.decision.Continue? && StepLeft(i) && !ContextFits(i))
      && (status.NonRecoverableControlFailure? <==>
            !Terminal(i.state) && !Unsettled(i) && !i.goalVerified && i.result.decision.Fail?)
      && (status.UnsupportedDecision? <==> Proceeds(i) && Authorised(i) && i.result.decision.Complete?)
  {
  }

  /** Termination names its reason: a loop before revoked authorization before governance before budgets. */
  lemma TerminatesExactlyWhen(i: Input)
    ensures var d := DecideTransition(i);
      && (d.id.status.HardLoopDetected? <==> Proceeds(i) && i.hardLoop)
      && (d.id.status.CurrentAuthorizationRevoked? <==> Proceeds(i) && !i.hardLoop && !i.currentAuthorization)
      && (d.id.status.GovernancePermissionRevoked? <==>
            && Proceeds(i) && !i.hardLoop && i.currentAuthorization && i.governance.Some?
            && i.governance.value.CurrentPermissionRevoked?)
      && (d.id.status.StepBudgetExhausted? <==>
            Proceeds(i) && Authorised(i) && i.result.decision.Continue? && !StepLeft(i))
      && (d.action.DoTerminate? <==>
            || d.id.status.HardLoopDetected? || d.id.status.CurrentAuthorizationRevoked?
            || d.id.status.GovernancePermissionRevoked? || d.id.status.StepBudgetExhausted?
            || d.id.status.TokenBudgetExhausted? || d.id.status.CostBudgetExhausted?)
  {
  }

  lemma BudgetsNamedExactly(i: Input)
    ensures var d := DecideTransition(i);
      var funded := Proceeds(i) && Authorised(i) && i.result.decision.Continue? && StepLeft(i) && ContextFits(i);
      && (d.id.status.TokenBudgetExhausted? <==> funded && !TokensFit(i))
      && (d.id.status.CostBudgetExhausted? <==> funded && TokensFit(i) && !CostFits(i))
  {
  }

  // ---------------------------------------------------------------- the store

  datatype ApplyStatus = Applied | DuplicateReplay | NoopTerminal | NoopStale | ReservationConflict | NotApplicable

  datatype AgentRecord = AgentRecord(
    tenantId: string, jobId: string, stepId: string, state: AgentState, fence: nat, budget: Budget)

  predicate Affordable(b: Budget, d: Decision) {
    b.RemainingSteps() > 0 && d.tokens <= b.AvailableTokens() && d.cost <= b.AvailableCost()
  }

  function ApplyGuard(r: AgentRecord, applied: map<TransitionId, Decision>, d: Decision): ApplyStatus {
    if d.id in applied then DuplicateReplay
    else if r.tenantId != d.tenantId || r.jobId != d.jobId then NoopStale
    else if Terminal(r.state) then NoopTerminal
    else if r.state != d.expectedState || r.stepId != d.stepId || r.fence != d.expectedFence then NoopStale
    else if d.action.Noop? then NotApplicable
    else if d.action.DoContinue? && !Affordable(r.budget, d) then ReservationConflict
    else Applied
  }

  function Advanced(r: AgentRecord, d: Decision): AgentRecord {
    if d.action.DoContinue? then
      r.(stepId := d.nextStepId.value, state := d.nextState, fence := r.fence + 1,
         budget := r.budget.(stepsUsed := r.budget.stepsUsed + 1, heldTokens := r.budget.heldTokens + d.tokens,
                             heldCost := r.budget.heldCost + d.cost))
    else r.(state := d.nextState, fence := r.fence + 1)
  }

  /** InMemoryAgentStateStore. */
  class AgentStateStore {
    var record: AgentRecord
    var applied: map<TransitionId, Decision>

    constructor (initial: AgentRecord)
      ensures record == initial && applied == map[]
    {
      record := initial;
      applied := map[];
    }

    method Apply(d: Decision) returns (status: ApplyStatus)
      modifies this
      ensures status == ApplyGuard(old(record), old(applied), d)
      ensures record == if status.Applied? then Advanced(old(record), d) else old(record)
      ensures applied == if status.Applied? then old(applied)[d.id := d] else old(applied)
    {
      var current := record;
      if d.id in applied {
        return DuplicateReplay;
      }
      if current.tenantId != d.tenantId || current.jobId != d.jobId {
        return NoopStale;
      }
      if Terminal(current.state) {
        return NoopTerminal;
      }
      if current.state != d.expectedState || current.stepId != d.stepId || current.fence != d.expectedFence {
        return NoopStale;
      }
      if d.action.DoContinue? {
        var budget := current.budget;
        if budget.RemainingSteps() <= 0 || d.tokens > budget.AvailableTokens() || d.cost > budget.AvailableCost() {
          return ReservationConflict;
        }
        budget := budget.(stepsUsed := budget.stepsUsed + 1, heldTokens := budget.heldTokens + d.tokens,
                          heldCost := budget.heldCost + d.cost);
        record := current.(stepId := d.nextStepId.value, state := d.nextState, fence := current.fence + 1,
          budget := budget);
        applied := applied[d.id := d];
        return Applied;
      }
      if d.action.Noop? {
        return NotApplicable;
      }
      record := current.(state := d.nextState, fence := current.fence + 1);
      applied := applied[d.id := d];
      return Applied;
    }
  }

  /** Each answer of the store by its condition: a name is applied once, other jobs and stale
      decisions are turned away, a terminal record is final, and a step must be affordable. */
  lemma StoreAnswersExactly(r: AgentRecord, applied: map<TransitionId, Decision>, d: Decision)
    ensures var a := ApplyGuard(r, applied, d);
      var ours := d.id !in applied && r.tenantId == d.tenantId && r.jobId == d.jobId;
      var current := r.state == d.expectedState && r.stepId == d.stepId && r.fence == d.expectedFence;
      var live := r.state !in {Completed, Terminated, Failed, Cancelled};
      var funded := r.budget.stepsUsed < r.budget.stepLimit
                    && r.budget.settledTokens + r.budget.heldTokens + d.tokens <= r.budget.tokenLimit
                    && r.budget.settledCost + r.budget.heldCost + d.cost <= r.budget.costLimit;
      && (a.DuplicateReplay? <==> d.id in applied)
      && (a.NoopTerminal? <==> ours && !live)
      && (a.NoopStale? <==> d.id !in applied && (!ours || (live && !current)))
      && (a.NotApplicable? <==> ours && live && current && d.action.Noop?)
      && (a.ReservationConflict? <==> ours && live && current && d.action.DoContinue? && !funded)
      && (a.Applied? <==> ours && live && current && !d.action.Noop? && (d.action.DoContinue? ==> funded))
  {
  }

  /** What an applied decision does to the record. */
  lemma AppliedTakesEffect(r: AgentRecord, d: Decision)
    ensures var r' := Advanced(r, d);
      && r'.state == d.nextState && r'.fence == r.fence + 1 && r'.tenantId == r.tenantId && r'.jobId == r.jobId
      && r'.stepId == (if d.nextStepId.Some? then d.nextStepId.value else r.stepId)
      && (!d.action.DoContinue? ==> r'.budget == r.budget)
      && (d.action.DoContinue? ==>
            && r'.budget.stepsUsed == r.budget.stepsUsed + 1 && r'.budget.heldTokens == r.budget.heldTokens + d.tokens
            && r'.budget.heldCost == r.budget.heldCost + d.cost && r'.budget.tokenLimit == r.budget.tokenLimit
            && r'.budget.settledTokens == r.budget.settledTokens && r'.budget.settledCost == r.budget.settledCost)
  {
  }

  // ---------------------------------------------------------------- runs

  /** The store and every decision it applied, oldest first. */
  datatype World = World(record: AgentRecord, applied: map<TransitionId, Decision>, log: seq<Decision>)

  function Next(w: World, d: Decision): World {
    if ApplyGuard(w.record, w.applied, d).Applied?
    then World(Advanced(w.record, d), w.applied[d.id := d], w.log + [d]) else w
  }

  function Run(w: World, ds: seq<Decision>): World
    decreases |ds|
  {
    if ds == [] then w else Run(Next(w, ds[0]), ds[1..])
  }

  function Continues(log: seq<Decision>): nat {
    if log == [] then 0 else Continues(log[..|log| - 1]) + (if log[|log| - 1].action.DoContinue? then 1 else 0)
  }

  function Tokens(log: seq<Decision>): nat {
    if log == [] then 0
    else Tokens(log[..|log| - 1]) + (if log[|log| - 1].action.DoContinue? then log[|log| - 1].tokens else 0)
  }

  function Costs(log: seq<Decision>): nat {
    if log == [] then 0
    else Costs(log[..|log| - 1]) + (if log[|log| - 1].action.DoContinue? then log[|log| - 1].cost else 0)
  }

  function Max(a: int, b: int): int { if a < b then b else a }

  /** The record is the starting record plus exactly what the applied decisions asked for,
      never beyond the limits net of what is settled, one fence value per decision. */
  ghost predicate Ledger(r0: AgentRecord, w: World) {
    var b0, b := r0.budget, w.record.budget;
    && b == b0.(stepsUsed := b0.stepsUsed + Continues(w.log), heldTokens := b0.heldTokens + Tokens(w.log),
                heldCost := b0.heldCost + Costs(w.log))
    && b.stepsUsed <= Max(b0.stepsUsed, b0.stepLimit)
    && b.heldTokens <= Max(b0.heldTokens, b0.tokenLimit - b0.settledTokens)
    && b.heldCost <= Max(b0.heldCost, b0.costLimit - b0.settledCost)
    && w.record.fence == r0.fence + |w.log|
    && (forall i :: 0 <= i < |w.log| ==> w.log[i].expectedFence == r0.fence + i && w.log[i].id in w.applied)
    && w.record.tenantId == r0.tenantId && w.record.jobId == r0.jobId
  }

  lemma LedgerStep(r0: AgentRecord, w: World, d: Decision)
    requires Ledger(r0, w)
    ensures Ledger(r0, Next(w, d))
  {
    if ApplyGuard(w.record, w.applied, d).Applied? {
      SumsGrow(w.log, d);
    }
  }

  lemma SumsGrow(log: seq<Decision>, d: Decision)
    ensures Continues(log + [d]) == Continues(log) + (if d.action.DoContinue? then 1 else 0)
    ensures Tokens(log + [d]) == Tokens(log) + (if d.action.DoContinue? then d.tokens else 0)
    ensures Costs(log + [d]) == Costs(log) + (if d.action.DoContinue? then d.cost else 0)
  {
    assert (log + [d])[..|log|] == log;
  }

  /** Over every run of arbitrary decisions, stale or fresh, the ledger balances. */
  lemma {:induction false} LedgerBalances(r0: AgentRecord, w: World, ds: seq<Decision>)
    requires Ledger(r0, w)
    ensures Ledger(r0, Run(w, ds))
    decreases |ds|
  {
    if ds != [] {
      LedgerStep(r0, w, ds[0]);
      LedgerBalances(r0, Next(w, ds[0]), ds[1..]);
    }
  }

  /** The step that an agent stands at after the decisions of a log. */
  function StepAfter(start: string, log: seq<Decision>): string {
    if log == [] then start
    else if log[|log| - 1].nextStepId.Some? then log[|log| - 1].nextStepId.value
    else StepAfter(start, log[..|log| - 1])
  }

  function StateAfter(start: AgentState, log: seq<Decision>): AgentState {
    if log == [] then start else log[|log| - 1].nextState
  }

  /** Every applied decision starts from the step and state that the ones before it left, and
      the record stands where the last one led. */
  ghost predicate Chained(r0: AgentRecord, w: World) {
    && w.record.stepId == StepAfter(r0.stepId, w.log) && w.record.state == StateAfter(r0.state, w.log)
    && (forall k :: 0 <= k < |w.log| ==> StartsAt(r0, w.log, k))
  }

  ghost predicate StartsAt(r0: AgentRecord, log: seq<Decision>, k: nat)
    requires k < |log|
  {
    log[k].stepId == StepAfter(r0.stepId, log[..k]) && log[k].expectedState == StateAfter(r0.state, log[..k])
  }

  lemma ChainedStep(r0: AgentRecord, w: World, d: Decision)
    requires Chained(r0, w)
    ensures Chained(r0, Next(w, d))
  {
    if ApplyGuard(w.record, w.applied, d).Applied? {
      var n, log' := |w.log|, w.log + [d];
      assert log'[..n] == w.log;
      forall k | 0 <= k < |log'| ensures StartsAt(r0, log', k) {
        if k < n {
          assert StartsAt(r0, w.log, k) && log'[..k] == w.log[..k];
        }
      }
    }
  }

  lemma {:induction false} AppliedDecisionsChain(r0: AgentRecord, w: World, ds: seq<Decision>)
    requires Chained(r0, w)
    ensures Chained(r0, Run(w, ds))
    decreases |ds|
  {
    if ds != [] {
      ChainedStep(r0, w, ds[0]);
      AppliedDecisionsChain(r0, Next(w, ds[0]), ds[1..]);
    }
  }

  /** A terminal record is final. */
  lemma {:induction false} TerminalAbsorbs(w: World, ds: seq<Decision>)
    requires Terminal(w.record.state)
    ensures Run(w, ds).record == w.record && Run(w, ds).log == w.log
    decreases |ds|
  {
    if ds != [] {
      TerminalAbsorbs(Next(w, ds[0]), ds[1..]);
    }
  }

  /** Each applied transition was named for the fence it was applied at. */
  ghost predicate NamedByFence(w: World) {
    forall id :: id in w.applied ==> id.fence < w.record.fence
  }

  lemma NamedStep(w: World, i: Input)
    requires NamedByFence(w)
    ensures NamedByFence(Next(w, DecideTransition(i)))
  {
    NamedForFence(i);
    NamedNext(w, DecideTransition(i));
  }

  lemma NamedForFence(i: Input)
    ensures DecideTransition(i).id.fence == DecideTransition(i).expectedFence
  {
  }

  lemma NamedNext(w: World, d: Decision)
    requires NamedByFence(w) && d.id.fence == d.expectedFence
    ensures NamedByFence(Next(w, d))
  {
  }

  lemma {:induction false} NamesNeverRecur(w: World, inputs: seq<Input>)
    requires NamedByFence(w)
    ensures NamedByFence(Run(w, Decisions(inputs)))
    decreases |inputs|
  {
    if inputs != [] {
      var ds := Decisions(inputs);
      assert ds[1..] == Decisions(inputs[1..]);
      NamedStep(w, inputs[0]);
      NamesNeverRecur(Next(w, ds[0]), inputs[1..]);
    }
  }

  function Decisions(inputs: seq<Input>): (ds: seq<Decision>)
    ensures |ds| == |inputs| && forall i :: 0 <= i < |inputs| ==> ds[i] == DecideTransition(inputs[i])
  {
    seq(|inputs|, i requires 0 <= i < |inputs| => DecideTransition(inputs[i]))
  }

  /** Every applied decision was decided on one of the inputs. */
  ghost predicate LoggedFrom(log: seq<Decision>, from: nat, inputs: seq<Input>) {
    forall k :: from <= k < |log| ==> exists n :: 0 <= n < |inputs| && log[k] == DecideTransition(inputs[n])
  }

  lemma {:induction false} AppliedWereDecided(w: World, inputs: seq<Input>)
    ensures w.log <= Run(w, Decisions(inputs)).log
    ensures LoggedFrom(Run(w, Decisions(inputs)).log, |w.log|, inputs)
    decreases |inputs|
  {
    if inputs != [] {
      var ds := Decisions(inputs);
      assert ds[1..] == Decisions(inputs[1..]);
      var w' := Next(w, ds[0]);
      AppliedWereDecided(w', inputs[1..]);
      var final := Run(w', ds[1..]);
      forall k | |w.log| <= k < |final.log|
        ensures exists n :: 0 <= n < |inputs| && final.log[k] == DecideTransition(inputs[n])
      {
        if k < |w'.log| {
          assert final.log[k] == w'.log[k] == DecideTransition(inputs[0]);
        } else {
          var n :| 0 <= n < |inputs[1..]| && final.log[k] == DecideTransition(inputs[1..][n]);
          assert inputs[1..][n] == inputs[n + 1];
        }
      }
    }
  }

  /** Over every run, whatever was continued had current authorization, allowed governance, no
      loop, an open goal, nothing pending and room in its budgets when it was decided. */
  lemma OnlyAuthorisedContinues(r0: AgentRecord, inputs: seq<Input>, k: nat)
    requires k < |Run(World(r0, map[], []), Decisions(inputs)).log|
    requires Run(World(r0, map[], []), Decisions(inputs)).log[k].action.DoContinue?
    ensures exists i ::
      && i in inputs && Run(World(r0, map[], []), Decisions(inputs)).log[k] == DecideTransition(i)
      && Proceeds(i) && Authorised(i) && StepLeft(i) && ContextFits(i) && TokensFit(i) && CostFits(i)
  {
    AppliedWereDecided(World(r0, map[], []), inputs);
    var d := Run(World(r0, map[], []), Decisions(inputs)).log[k];
    var n :| 0 <= n < |inputs| && d == DecideTransition(inputs[n]);
    ContinuesExactlyWhen(inputs[n]);
    assert inputs[n] in inputs;
  }

  /** The input was read from this very record. */
  predicate ReadFrom(i: Input, r: AgentRecord) {
    && i.tenantId == r.tenantId && i.jobId == r.jobId && i.stepId == r.stepId && i.state == r.state
    && i.fence == r.fence && i.budget == r.budget
  }

  /** A decision fits the live record that it was computed from. */
  lemma DecisionFits(i: Input, r: AgentRecord)
    requires ReadFrom(i, r) && !Terminal(r.state)
    ensures var d := DecideTransition(i);
      && d.tenantId == r.tenantId && d.jobId == r.jobId && d.stepId == r.stepId && d.expectedState == r.state
      && d.expectedFence == r.fence && d.id.fence == r.fence && !d.action.Noop?
      && (d.action.DoContinue? ==> Affordable(r.budget, d))
  {
  }

  /** However many stale and fresh decisions came before, a decision computed from the
      current record of a live agent is applied: no conflict, and no false replay. */
  lemma FreshDecisionApplies(r0: AgentRecord, before: seq<Input>, i: Input)
    requires var w := Run(World(r0, map[], []), Decisions(before)); ReadFrom(i, w.record) && !Terminal(w.record.state)
    ensures var w := Run(World(r0, map[], []), Decisions(before));
      ApplyGuard(w.record, w.applied, DecideTransition(i)).Applied?
  {
    NamesNeverRecur(World(r0, map[], []), before);
    DecisionFits(i, Run(World(r0, map[], []), Decisions(before)).record);
  }
}
