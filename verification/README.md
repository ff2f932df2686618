# Transactional protocols of the AI-agent control plane, modelled and proved in Dafny

The repository builds an AI-agent control plane out of small transactional protocols. Each of them has a
pure function that decides on a candidate, and a store that re-checks the candidate in one critical section
and commits it. What matters about such a protocol is not what one call returns but what every interleaving of
planning, applying, dispatching, recovering and committing can do. This project models those protocols and proves
their safety over all runs, together with the two kernels the repository relies on for reading untrusted structure:
the schema validator and the object-literal reader.

How the model is built:

- A record that the code never changes in place is a `datatype`; a store that reassigns its fields is a `class`
  whose methods are proved against a function of the old state. The properties are then lemmas about that function.
- A method that holds the lock throughout is one atomic step. `dispatch_once` and the two committers release it in between, so
  they are two steps each, and any other step may come between the two.
- A run is a sequence of steps with arbitrary candidates, facts and clocks, and a history of what happened. Every
  run theorem is proved by induction over the steps from an invariant that any single step keeps.
- A run theorem says what can never happen; beside it stand the exact conditions under which each operation gives each of its
  answers, and what it then leaves behind, stated on its inputs and not through its own branches.
- A SHA-256 digest is the value that it was computed from, and a derived identifier is the tuple of its parts.

| file | what it holds |
|---|---|
| `Records.dfy` | options, results, digests, and the records that the job store and human control share |
| `DurableJobs.dfy` | recovery decisions, the durable job store, its outbox and the outbox consumer |
| `HumanControl.dfy` | the human-control decision and what each of its verdicts guarantees |
| `HumanControlStore.dfy` | the control store: conditional apply and the dispatch claim |
| `HumanControlRuns.dfy` | all interleavings of apply, claim and effect |
| `HumanControlProgress.dfy` | audit completeness, escalation routing, and progress from gate to claim |
| `HumanControlGuards.dfy` | exactly when a message moves the version for nothing, and when a due escalation is dropped |
| `HumanControlEffects.dfy` | what every operation leaves behind, and settled units over runs |
| `HumanControlAnswers.dfy` | who is heard, who may execute, and what is answered, spelled out |
| `AgentTransitions.dfy` | the budgeted agent state machine |
| `RemoteEvidence.dfy` | failure evidence and where it comes from |
| `DispatchStore.dfy` | the dispatch store and its committer under any race |
| `Reconciliation.dfy` | reconciliation, provenance of evidence, retry after a crash, the bounded schedule |
| `Orchestrator.dfy` | the agent-to-MCP run from proposal to durable success |
| `RuntimeAttempts.dfy` | the fenced attempt lifecycle and the idempotent executor |
| `ProtocolBoundary.dfy` | response correlation by request id and by transport generation |
| `SchemaSubset.dfy` | the schema validator against a declarative meaning of its keywords |
| `ObjectLiteral.dfy` | the object-literal extractor and reader, and the workflow check built on them |

## Where the code and its promise differ

Some promises turn out not to hold for every input. The code is modelled as it is; for each there is a concrete input
and the exact condition under which the promise holds.

- *A rejected, duplicate or stale message cannot advance the business version* (projects/ai-agent/src/human_control.py:562-563).
  Some messages that change no business content do. `HumanControlGuards.VersionKeptExactly` decides this for every command:
  the version is kept exactly when nothing changes and the message is not one of these: a gate or decision on an approval
  that is already EXPIRED; a wait for an unavailable policy by a job that already waits; a gate without authorization when there
  is nothing to release; a gate that repeats an announced approval request or an announced publication; an observation
  of a cancellation by someone who already observed it; an invalidation to the status the approval already has.
  `HumanControlRuns.ExpiredGateAdvances` and `HumanControlGuards.RepeatedObservationAdvances` are inputs.
- *A conflicting or overdue approval is escalated.* Escalation fails closed on its own deadline
  (projects/ai-agent/src/human_control.py:256-257), and then the whole message is only audited: a due rejection against a recorded
  approval leaves the approval standing. `HumanControlGuards.ObjectionIsLost` is the input;
  `HumanControlGuards.EscalatesExactlyInTime` and `HumanControlGuards.ConflictBarsExactlyInTime` are the conditions.
- *A completed operation is not dispatched again.* The dispatch store takes the expected state from its caller, so a claim
  that names COMPLETED claims a completed record, and a run of the orchestrator whose guard names COMPLETED reaches the
  transport again. `DispatchStore.CompletedCanBeReclaimed` and `Orchestrator.CompletedOperationRedispatched` are the inputs;
  `DispatchStore.ClaimableExactlyAsNamed` and `Orchestrator.TransportReachedExactlyWhen` are the conditions, and
  `DispatchStore.RacesAreSafe` proves the promise for claims that name a READY state.
- *Reconciliation alerts once.* A schedule that has used up its queries without having alerted emits an alert and then fails to
  record it, on every further advance. `Reconciliation.ExhaustedScheduleKeepsAlerting` is the input family;
  `Reconciliation.AlertsOnceIffQueriesLeft` is the condition.
- *Retry evidence matches the reconciled binding* (projects/ai-agent/src/mcp_reconciliation.py:342-346). The conversion compares
  operation and key, not tenant and resource. `Reconciliation.CommittedDenialGivesRetry` shows a retry for a commit under any
  tenant and resource; `Reconciliation.RetryOnlyOnCommittedProof` says that the proof is about the crashed dispatch's own ones
  exactly when the commit in use was made for them.
- *Aborting before dispatch closes an attempt* (projects/ai-agent/src/mcp_protocol_model.py:448-453). The binding stays open to
  answers: `ProtocolBoundary.AbortedRequestAnswered` is the input, `ProtocolBoundary.AbortedStillAccepts` the condition.
- *An attempt reports the operation of its own key.* The direct recording of a result takes any operation id;
  `RuntimeAttempts.ReportsStep` says exactly when a step keeps the promise, and the fenced path always does.

## Model

| member | source | states |
|---|---|---|
| `HumanControlRuns.DispatchIsSafe` | projects/ai-agent/src/human_control.py:548-725 | for a new store on any undispatched, undecided snapshot and any interleaving of applies, claims and effects with any facts and clocks: at most one claim, no more effects than claims, a claim exactly when dispatch started, conserved reservations, and before a claim of a HIGH-risk action an unexpired APPROVED decision of that action on record |
| `HumanControlRuns.EffectAtMostOnce` | projects/ai-agent/src/human_control.py:686-725 | in every run the effect is claimed at most once, every claim is an effect that ran or is still owed, and all of them are of the bound action |
| `HumanControlRuns.ReservationsConserved` | projects/ai-agent/src/human_control.py:591-624 | in every run each reservation is untouched, wholly released, or settled with settled plus released equal to reserved; other attempts' reservations never move; and no run both dispatches the action and releases what was held for it |
| `HumanControlRuns.SettledIsFinal` | projects/ai-agent/src/human_control.py:361-368 | a reservation that is settled at some point of a run stays exactly as it is for the rest of it |
| `HumanControlEffects.SettledUnitsAreVerified` | projects/ai-agent/src/durable_agent_jobs.py:528-537 | over every run, whatever was settled since the start carries the usage that the facts of an applied settlement verified, and the rest of it was released |
| `HumanControlEffects.SettlementSettles` | projects/ai-agent/src/human_control.py:351-376 | a permitted recovery with verified, evidenced usage that fits the sole held reservation settles exactly that usage, releases the rest, spends no query and keeps state, approval and outbox |
| `HumanControlEffects.SettlementAccounts` | projects/ai-agent/src/durable_agent_jobs.py:516-537 | an accepted settlement leaves every reservation of the attempt settled at the verified usage with the rest released, and no other moved |
| `HumanControlEffects.QueryAsks` | projects/ai-agent/src/human_control.py:386-397 | a permitted recovery of an unknown outcome within budget and deadline sends one query, keeps everything held, and counts the query |
| `HumanControlEffects.ExhaustionEscalates` | projects/ai-agent/src/human_control.py:387-390 | recovery out of budget or time alerts the operator, keeps everything held, records the recovery and spends nothing |
| `HumanControlEffects.SettlementConflictEscalates` | projects/ai-agent/src/human_control.py:361-368 | usage that contradicts a settled or released reservation is escalated under its own reason and rewrites nothing |
| `HumanControlRuns.ApprovalPrecedesDispatch` | projects/ai-agent/src/human_control.py:470-532 | every claim made under required approval comes after the recording of an APPROVED decision with this action's digest and request id, decided within the request's window and by someone other than the requester where separation is required; approval is always required of a HIGH-risk action |
| `HumanControlRuns.BarredForGood` | projects/ai-agent/src/human_control.py:440-449 | once the approval is rejected, expired, revoked, superseded, cancelled or in conflict, or an interrupt is set, it stays so and no later step of any run claims |
| `HumanControlEffects.InterruptStops` | projects/ai-agent/src/human_control.py:409-427 | an interrupt before dispatch cancels a live job and releases in full what its attempt held; one that may come after dispatch sets PENDING_RECONCILIATION and moves no reservation; both clear the lease, raise the fence by one and are recorded |
| `HumanControlEffects.InterruptFollowsUp` | projects/ai-agent/src/human_control.py:424-425 | only an interrupt that may come after dispatch asks for cancellation and reconciliation |
| `HumanControlEffects.OnlyInterruptsInterrupt` | projects/ai-agent/src/human_control.py:677-678 | the interrupt of a job is set only by a heeded, current and permitted interrupt of one that had none |
| `HumanControlEffects.InvalidationReplaces` | projects/ai-agent/src/human_control.py:429-438 | a permitted invalidation sets the approval it names and does nothing else; any other is audited only |
| `HumanControlEffects.ObservationRecords` | projects/ai-agent/src/human_control.py:403-407 | an observation records its actor exactly when the job was interrupted, and does nothing else |
| `HumanControlEffects.LateResultIsEvidence` | projects/ai-agent/src/human_control.py:303-313 | a late result only adds evidence, and is marked mismatched, current or stale by identity, fence, lease and state |
| `HumanControlEffects.DecisionRecordedExactly` | projects/ai-agent/src/human_control.py:470-486 | a decision is recorded if and only if it is the first authentic, bound, timely and eligible one of a live request; then the approval is its choice and nothing else moves |
| `HumanControlEffects.LateRequestExpires` | projects/ai-agent/src/human_control.py:453-455 | a gate or new decision past the deadline of a request that needs approval expires it and moves nothing else |
| `HumanControlEffects.ConflictEscalates` | projects/ai-agent/src/human_control.py:328-336 | in time, conflicting decisions alert the operator under their own reason, put the approval in conflict and keep every decision |
| `HumanControlEffects.OverdueEscalates` | projects/ai-agent/src/human_control.py:458-463 | in time, an overdue policy or approval alerts the operator, makes the job wait and keeps the approval |
| `HumanControlEffects.EverythingElseStays` | projects/ai-agent/src/human_control.py:637-682 | no command changes action, request, identity, claimed events or bindings; a told decision is always kept as evidence; a commit is a checkpoint named for its command |
| `HumanControlRuns.PlannerAndApplierAgree` | projects/ai-agent/src/human_control.py:548-618 | no input reaches RECOVERY_APPLY_REJECTED, UNSAFE_RELEASE_REJECTED or the settlement exception, and whatever is accepted was planned on this snapshot and satisfies all that the planner guarantees |
| `HumanControlRuns.TerminalAbsorbs` | projects/ai-agent/src/human_control.py:440-441 | a terminal job keeps its state in every run |
| `HumanControlRuns.OneCandidatePerSnapshot` | projects/ai-agent/src/human_control.py:555-560 | of all candidates planned on one snapshot at most one is ever accepted, counting audit-only acceptance |
| `HumanControlRuns.TrailsAlwaysGrow` | projects/ai-agent/src/human_control.py:583-589 | the audit trail of every snapshot on which a candidate was accepted is shorter than that of every later one |
| `HumanControlRuns.RecordedBudgetHolds` | projects/ai-agent/src/human_control.py:599-611 | once an attempt has a recovery record, its limit and deadline never change, its use grows by exactly the applied queries and never past the limit, and query intents never outnumber those, whatever later facts claim; settlement and escalation spend nothing |
| `HumanControlRuns.FirstRecoveryFixesBudget` | projects/ai-agent/src/human_control.py:343-401 | before there is a record, the facts of the first recovery applied in the run fix that budget for the whole run; without one no query is ever sent |
| `HumanControlRuns.CheckpointsStayChained` | projects/ai-agent/src/human_control.py:637-682 | in every run the checkpoint history and the current checkpoint form one linked chain with versions rising by one, the current one mirrors state, version and fence, and the chain grows exactly with the state version: by applies and claims, never by audits |
| `HumanControlGuards.VersionKeptExactly` | projects/ai-agent/src/human_control.py:562-589 | for every new command: it is accepted, and it keeps version, checkpoint and history if and only if it changes no state, approval, decision, reservation, outbox, recovery, escalation, interrupt or observer and is none of the listed wasted messages; a wasted message changes none of these and moves the version by one |
| `HumanControlGuards.IdleIffWasted` | projects/ai-agent/src/human_control.py:403-532 | a verdict is a transition that asks only for what is already so if and only if state, command, facts and clock meet the guard of one of the wasted cases |
| `HumanControlGuards.RepeatedObservationAdvances` | projects/ai-agent/src/human_control.py:403-407 | a concrete job on which observing a cancellation again moves the version and changes nothing, for all facts |
| `HumanControlRuns.BlockedGateIsAuditOnlyUnlessExpired` | projects/ai-agent/src/human_control.py:444-449 | on a barred approval in particular: a current gate or decision keeps the state version if and only if the approval is not EXPIRED |
| `HumanControlRuns.ExpiredGateAdvances` | projects/ai-agent/src/human_control.py:564-577 | a concrete expired job whose repeated gate is applied and moves the version, for all facts |
| `HumanControlProgress.AuditLosesNothing` | projects/ai-agent/src/human_control.py:564-589 | the applier's list of transitions misses none: a verdict that is only audited asked for no change of state, approval, reservation, outbox, escalation, recovery or execution |
| `HumanControlProgress.EscalationsAreRouted` | projects/ai-agent/src/human_control.py:254-274 | on every path an escalated status and an escalation come together with an alert; an escalation that is made names this action, is due in the future, and goes to the owner, or to the fallback when the owner is away, or to nobody exactly when that person may not operate |
| `HumanControlGuards.EscalatesExactlyInTime` | projects/ai-agent/src/human_control.py:249-274 | a verdict escalates if and only if one of the seven cases that call for it is met and its deadline lies ahead; it is refused for its deadline if and only if such a case is met out of time |
| `HumanControlGuards.LateEscalationIsDropped` | projects/ai-agent/src/human_control.py:256-257 | out of time a due case is only audited and changes no business content |
| `HumanControlGuards.ConflictBarsExactlyInTime` | projects/ai-agent/src/human_control.py:330-336 | conflicting decisions put the approval in conflict if and only if the escalation deadline lies ahead or it already was in conflict |
| `HumanControlGuards.ObjectionIsLost` | projects/ai-agent/src/human_control.py:482-484 | a concrete due rejection against a recorded approval that leaves it approved and escalates nothing |
| `HumanControlProgress.OpenGateLeadsToDispatch` | projects/ai-agent/src/human_control.py:528-532 | an applied gate can be claimed: under the same facts and clock the holder of a current lease who may control the tenant is granted the announced event |
| `HumanControl.GateIsOpen` | projects/ai-agent/src/human_control.py:440-532 | execution is allowed if and only if the inputs are usable, the actor may control, the job is bound, the command is a current gate, and every state, policy, authorization, budget, reservation and approval condition holds |
| `HumanControlAnswers.OpenExactly` | projects/ai-agent/src/human_control.py:440-532 | execution is open if and only if every requirement on state, approval, executor, approver, governance, policy, budget, reservation and time holds, each spelled out |
| `HumanControlAnswers.ClaimsExactly` | projects/ai-agent/src/human_control.py:696-711 | a claim is granted if and only if the event is published and unclaimed, fence and running lease are the worker's own, the worker controls the tenant, the inputs are usable, the job is bound and execution is open |
| `HumanControlAnswers.ClaimMarks` | projects/ai-agent/src/human_control.py:712-723 | a claim marks dispatch and event, links a checkpoint, and moves nothing else |
| `HumanControlAnswers.GateAnswersExactly` | projects/ai-agent/src/human_control.py:488-532 | the status of a gate past the guards is that of the first requirement it fails |
| `HumanControlAnswers.GuardAnswersExactly` | projects/ai-agent/src/human_control.py:440-468 | the status of a guarded gate or decision is that of the first guard it fails |
| `HumanControlAnswers.UnheededChangesNothing` | projects/ai-agent/src/human_control.py:288-300 | unusable input, an actor without control, or a job that is not the action's changes nothing but the audit, which says which it was |
| `HumanControlAnswers.StaleChangesNothing` | projects/ai-agent/src/human_control.py:338-341 | a command that expects another state, version or fence changes nothing unless it retells a recorded decision |
| `HumanControlAnswers.KnownCommandsAnswered` | projects/ai-agent/src/human_control.py:551-560 | duplicate, conflicting, stale and re-decided candidates are answered if and only if they are that |
| `HumanControlAnswers.CandidateSays` | projects/ai-agent/src/human_control.py:224-247 | a candidate names its snapshot and command, and whether the executor is authorised and the approver separate |
| `HumanControlEffects.RevokedGateFrees` | projects/ai-agent/src/human_control.py:489-494 | a gate without authorization releases in full what was held if nothing was dispatched, and only then; nothing else moves |
| `HumanControlEffects.PendingGateAsks` | projects/ai-agent/src/human_control.py:512-517 | a gate that awaits a timely approval waits and asks for it once |
| `HumanControlEffects.OpenGatePublishes` | projects/ai-agent/src/human_control.py:528-532 | a gate that passes runs the job, announces its publication once and dispatches nothing |
| `HumanControlEffects.BlockedGateChangesNothing` | projects/ai-agent/src/human_control.py:495-527 | a gate of an authorised executor that fails another check changes nothing |
| `HumanControlEffects.UnavailablePolicyWaits` | projects/ai-agent/src/human_control.py:458-463 | while the policy is out of reach the job waits and keeps everything else |
| `HumanControl.ControlSound` | projects/ai-agent/src/human_control.py:224-532 | every verdict keeps a terminal state, never unbars an approval, approves only by recording a due decision, releases only what was never dispatched, queries only through a recovery, and executes only for a gate |
| `HumanControl.RecoveryAlwaysFits` | projects/ai-agent/src/human_control.py:343-401 | a verdict's recovery half names the job's own identity and versions, and is a settlement that fits the sole held reservation, a query within the recorded budget and deadline, or an escalation that holds everything |
| `HumanControlStore.ControlStore.Apply` | projects/ai-agent/src/human_control.py:548-684 | the answer and the whole new snapshot and command table as functions of the old ones; only accepted candidates change anything |
| `HumanControlStore.ControlStore.Stage` | projects/ai-agent/src/human_control.py:590-613 | staging on a durable store of its own yields the recovered job with this component's own recovery record and outbox, or the reason it was refused |
| `HumanControlStore.ControlStore.Claim` | projects/ai-agent/src/human_control.py:696-723 | the claim is granted exactly when event, fence, lease and a current gate decision allow it, marks the dispatch before the effect, and otherwise changes nothing |
| `DurableJobs.FencedGrantsAlways` | projects/ai-agent/src/durable_agent_jobs.py:589-642 | in every run each fence value has authorised one worker only, and authorised fences never decrease or exceed the current fence |
| `DurableJobs.TerminalNeverReopened` | projects/ai-agent/src/durable_agent_jobs.py:473-514 | candidates decided against any record, budget and facts never move a terminal job to another state, in any run |
| `DurableJobs.RedeliveryIsIdempotent` | projects/ai-agent/src/durable_agent_jobs.py:645-659 | after any run from an empty outbox, delivering its intents in any order and number is NEW exactly the first time each event is seen, DUPLICATE afterwards, and never IDENTITY_CONFLICT |
| `DurableJobs.OutboxSoundAlways` | projects/ai-agent/src/durable_agent_jobs.py:539-587 | in every run intents carry the job's own identity under distinct event ids of applied recoveries |
| `DurableJobs.DeliveriesOfOneIdentity` | projects/ai-agent/src/durable_agent_jobs.py:651-659 | the verdict on every delivery of a batch of one identity, from any state of the consumer |
| `DurableJobs.UnknownIsNeverRetried` | projects/ai-agent/src/durable_agent_jobs.py:277-453 | RETRY is decided if and only if the record is current, automatic recovery is left, nothing was dispatched, the binding and authorization hold and no repair, compensation or settlement is due; nothing is released or settled while the outcome is unknown |
| `DurableJobs.UnresolvedDecidedExactly` | projects/ai-agent/src/durable_agent_jobs.py:277-353 | stale requests are rejected, exhausted ones escalated and unknown outcomes queried, each if and only if its condition holds, with next state, reservation and intent |
| `DurableJobs.KnownDecidedExactly` | projects/ai-agent/src/durable_agent_jobs.py:354-407 | repair, compensation, settlement and the terminal no-op, each if and only if its condition holds, with next state, reservation and intent |
| `DurableJobs.LiveDecidedExactly` | projects/ai-agent/src/durable_agent_jobs.py:364-453 | replan, resume and block, each if and only if its condition holds, with next state, reservation and intent |
| `DurableJobs.StoreAnswersExactly` | projects/ai-agent/src/durable_agent_jobs.py:473-514 | replayed, stale and terminal candidates are answered if and only if they are that |
| `DurableJobs.AppliedRecord` | projects/ai-agent/src/durable_agent_jobs.py:516-587 | an applied candidate releases or settles exactly the attempt's reservations, at the verified usage, and sets every other field as given |
| `DurableJobs.CountersAgree` | projects/ai-agent/src/durable_agent_jobs.py:551-609 | over every run the fence counts recoveries and takeovers, versions and checkpoints count recoveries, and the checkpoint mirrors the job except for a fence that a takeover advanced |
| `DurableJobs.GrantsExactly` | projects/ai-agent/src/durable_agent_jobs.py:589-642 | authority is granted if and only if the worker owns the lease at the current fence of a live job; a takeover makes the new worker its owner |
| `DurableJobs.DeliversExactly` | projects/ai-agent/src/durable_agent_jobs.py:651-659 | a delivery is new, duplicate or conflicting if and only if its event was unseen, seen for this identity, or seen for another |
| `DurableJobs.CurrentRecoveryApplies` | projects/ai-agent/src/durable_agent_jobs.py:473-514 | a candidate decided on the current record is applied if and only if the decision asked for something |
| `DurableJobs.DurableJobStore.Apply` | projects/ai-agent/src/durable_agent_jobs.py:473-587 | the loop over reservations yields the released or settled records, or raises on the first usage that does not fit and changes nothing; every other field of the new record is given |
| `DurableJobs.DurableJobStore.TakeOverExpiredLease` | projects/ai-agent/src/durable_agent_jobs.py:589-609 | takes over exactly an expired lease of a live job, and raises fence and lease generation without a checkpoint |
| `DurableJobs.DurableJobStore.AcceptResult` | projects/ai-agent/src/durable_agent_jobs.py:621-642 | a result carries authority exactly for the lease owner at the current fence of a live job; it is always audited and changes nothing else |
| `DurableJobs.ConsumerGuard.Accept` | projects/ai-agent/src/durable_agent_jobs.py:651-659 | the new memory and the verdict of one delivery |
| `AgentTransitions.LedgerBalances` | projects/ai-agent/src/agent_state_machine.py:507-574 | over any run of stale or fresh decisions, steps used and held tokens and cost are the initial values plus the sums over applied CONTINUEs, stay within the limits net of settled amounts, and the fence counts the applied decisions |
| `AgentTransitions.TerminalAbsorbs` | projects/ai-agent/src/agent_state_machine.py:507-518 | a terminal record and its log never change again |
| `AgentTransitions.FreshDecisionApplies` | projects/ai-agent/src/agent_state_machine.py:329-486 | after any run of decisions from a new store, a decision computed from the current live record is APPLIED: no budget conflict, no stale answer, no false replay |
| `AgentTransitions.ContinuesExactlyWhen` | projects/ai-agent/src/agent_state_machine.py:329-486 | CONTINUE is decided if and only if the agent is live, nothing is pending, the goal is open, the result says so, there is no loop, authorization and governance hold, and step, context, token and cost budgets fit; it carries exactly what was asked for |
| `AgentTransitions.StopsExactlyWhen` | projects/ai-agent/src/agent_state_machine.py:329-368 | no-op, reconciliation and completion, each if and only if its condition holds; every action leads to its own state |
| `AgentTransitions.FailsExactlyWhen` | projects/ai-agent/src/agent_state_machine.py:378-434 | failure is decided if and only if the controller failed or asked to complete an unverified goal |
| `AgentTransitions.WaitsExactlyWhen` | projects/ai-agent/src/agent_state_machine.py:369-456 | waiting is decided if and only if a prerequisite is pending, governance asks for a new plan, or the context does not fit |
| `AgentTransitions.WaitsForItsReason` | projects/ai-agent/src/agent_state_machine.py:369-456 | each reason to wait or fail is given if and only if it holds |
| `AgentTransitions.TerminatesExactlyWhen` | projects/ai-agent/src/agent_state_machine.py:387-445 | loop, revoked authorization, revoked governance and spent steps terminate, each if and only if it holds |
| `AgentTransitions.BudgetsNamedExactly` | projects/ai-agent/src/agent_state_machine.py:460-477 | token and cost budgets terminate, each if and only if it is exceeded |
| `AgentTransitions.OnlyAuthorisedContinues` | projects/ai-agent/src/agent_state_machine.py:507-574 | over every run, each applied CONTINUE was decided with current authorization and governance, no loop, an open goal and room in every budget |
| `AgentTransitions.StoreAnswersExactly` | projects/ai-agent/src/agent_state_machine.py:507-540 | each answer of the store if and only if its condition holds |
| `AgentTransitions.AppliedTakesEffect` | projects/ai-agent/src/agent_state_machine.py:526-574 | an applied decision sets state, step, fence and budget as it says |
| `AgentTransitions.AppliedDecisionsChain` | projects/ai-agent/src/agent_state_machine.py:507-574 | over every run each applied decision starts from the step and state that the ones before it left |
| `AgentTransitions.NamesNeverRecur` | projects/ai-agent/src/agent_state_machine.py:270-289 | the id of every applied transition names a fence below the current one |
| `AgentTransitions.DecisionFits` | projects/ai-agent/src/agent_state_machine.py:329-486 | a decision on a live record names that record, is not a no-op, and a CONTINUE is affordable |
| `AgentTransitions.AgentStateStore.Apply` | projects/ai-agent/src/agent_state_machine.py:507-574 | the answer in the order of the guards, and the new record and replay table |
| `DispatchStore.VersionsCountWrites` | projects/ai-agent/src/mcp_retry_policy.py:191-384 | under any race, and whatever states claims name, an operation's version is the registered one plus its successful writes |
| `DispatchStore.RacesAreSafe` | projects/ai-agent/src/agent_mcp_capstone.py:1074-1144 | for every interleaving of registrations, claims that name a READY state, committer reads and later compare-and-sets: one claim and one commit per operation, the commit after the claim, a committed record is final, and every ALREADY_COMMITTED names the same external object |
| `DispatchStore.CommitIsOfTheClaim` | projects/ai-agent/src/mcp_retry_policy.py:343-384 | the committed record is exactly an earlier claimed one with its success added, one version on |
| `DispatchStore.ClaimableExactlyAsNamed` | projects/ai-agent/src/mcp_retry_policy.py:269-341 | a record can be claimed by some request that names a state if and only if it is in that state |
| `DispatchStore.ReadyIsClaimable` | projects/ai-agent/src/mcp_retry_policy.py:229-263 | what was registered as ready is claimed if and only if the next attempt of that key, tenant, resource, tool, version and fence claims it; nothing else is touched |
| `DispatchStore.RetryableIsClaimable` | projects/ai-agent/src/mcp_retry_policy.py:191-227 | the same for what was registered on proof of non-execution |
| `DispatchStore.RegistersExactly` | projects/ai-agent/src/mcp_retry_policy.py:191-263 | registration succeeds if and only if the operation is new and identity, proof, binding and counters are acceptable |
| `DispatchStore.ClaimAnswersExactly` | projects/ai-agent/src/mcp_retry_policy.py:290-326 | each answer to a claim if and only if its condition holds |
| `DispatchStore.ClaimStarts` | projects/ai-agent/src/mcp_retry_policy.py:327-341 | a won claim moves its record one version on to exactly the claiming attempt and never lowers a named fence |
| `DispatchStore.CommitsExactly` | projects/ai-agent/src/agent_mcp_capstone.py:1074-1144 | the committer commits, refuses or finds its success if and only if record, attempt, state, version and fence say so |
| `DispatchStore.CompletedCanBeReclaimed` | projects/ai-agent/src/mcp_retry_policy.py:300-301 | a completed operation named as completed is claimed again |
| `DispatchStore.Store.RegisterRetryable` | projects/ai-agent/src/mcp_retry_policy.py:191-227 | registers only evidence of non-execution with a whole or absent binding and a new operation; otherwise raises and changes nothing |
| `DispatchStore.Store.RegisterReady` | projects/ai-agent/src/mcp_retry_policy.py:229-263 | registers a new operation with complete identity and non-negative counters; otherwise raises and changes nothing |
| `DispatchStore.Store.ClaimDispatch` | projects/ai-agent/src/mcp_retry_policy.py:269-341 | the outcome in the order of the guards; only a won claim writes, and only its own operation |
| `DispatchStore.Store.CompareAndSetCompleted` | projects/ai-agent/src/mcp_retry_policy.py:343-384 | writes exactly when binding, attempt, state, version and fence all match |
| `DispatchStore.Store.Commit` | projects/ai-agent/src/agent_mcp_capstone.py:1074-1144 | with nobody in between, the outcome and record of each refusal, and a commit exactly when the read passes |
| `Orchestrator.EndToEnd` | projects/ai-agent/src/agent_mcp_orchestrator.py:189-342 | for every request and transport behaviour, with no other writer: a block before the claim leaves the store unchanged and the transport uncalled; an unknown, crashed or rejected exchange leaves DISPATCH_STARTED; a ready candidate always commits; success means that every gate's binding held and the record is COMPLETED at guard version + 2 and guard fence + 1 with the observed object; no other operation is touched |
| `Orchestrator.SucceedsExactlyWhen` | projects/ai-agent/src/agent_mcp_capstone.py:956-1010 | a run succeeds if and only if no gate blocks it, the stored record answers to it, and the peer answered this very attempt with a result that names this operation, tenant, resource and tool and an object |
| `Orchestrator.AnswersExactly` | projects/ai-agent/src/agent_mcp_capstone.py:970-1010 | once the transport was reached: the answer for a crash, for foreign and own evidence, and for the first of correlation, protocol and output that fails |
| `Orchestrator.GatesExactly` | projects/ai-agent/src/agent_mcp_capstone.py:293-536 | the gates pass exactly the requests that fail none of their spelled-out requirements, and answer for the first that fails |
| `Orchestrator.BoundIsProposed` | projects/ai-agent/src/agent_mcp_capstone.py:147-187 | a proposal is bound if and only if its tool is visible, to exactly what was proposed |
| `Orchestrator.TransportReachedExactlyWhen` | projects/ai-agent/src/agent_mcp_orchestrator.py:189-270 | the transport is reached if and only if every gate passes and the stored record answers to guard, identity and attempt; a guard that names a READY state protects a dispatched or completed operation |
| `Orchestrator.PassedGatesHold` | projects/ai-agent/src/agent_mcp_capstone.py:293-536 | passing the gates means that proposal, identity, approval, permit, guard, deadline, negotiation, capacity and circuit all bind this operation |
| `Orchestrator.CompletedOperationRedispatched` | projects/ai-agent/src/agent_mcp_capstone.py:563-605 | a concrete completed operation whose guard says so reaches the transport again |
| `Orchestrator.AgentOrchestrator.Run` | projects/ai-agent/src/agent_mcp_orchestrator.py:189-342 | report and new store for every request and transport behaviour, as the value-level run |
| `Reconciliation.ResolutionsAreBacked` | projects/ai-agent/src/mcp_reconciliation.py:264-323 | however registrations, queries, committer reads and compare-and-sets interleave, an operation is resolved at most once, its committed fact never changes, every committed result is the stored record of the committer's own binding at its next version, it is what the authority was heard to say about that very operation, with its source and object, and what was executed is compliant exactly when it was authorised |
| `Reconciliation.CommitAloneIsBothSteps` | projects/ai-agent/src/mcp_reconciliation.py:264-323 | the committer without interference is its read step followed by its compare-and-set step |
| `Reconciliation.ObservesExactly` | projects/ai-agent/src/mcp_reconciliation.py:109-157 | each conclusion of a query if and only if its condition holds |
| `Reconciliation.ReadsExactly` | projects/ai-agent/src/mcp_reconciliation.py:264-300 | the read and the compare-and-set pass if and only if the decision is resolved and sourced and the record is its own, pending and at the expected version |
| `Reconciliation.NonExecutionIsProven` | projects/ai-agent/src/mcp_reconciliation.py:326-357 | over every race of reconcilers, evidence from cancellation, remote translation, crash recovery or a result that some committer returned, at any nesting, says PROVEN_NOT_EXECUTED if and only if the failure was proven not sent, or matched a verified local contract, or the authority was heard to answer NOT_EXECUTED for the very binding that is stored, for good, under this operation and key |
| `Reconciliation.ChainsKeepIdentity` | projects/ai-agent/src/mcp_reconciliation.py:347-357 | evidence built through any chain of reconciliations keeps operation, key, request id, attempt number and dispatch certainty of the failure at its root |
| `Reconciliation.RetryOnlyOnCommittedProof` | projects/ai-agent/src/agent_mcp_capstone.py:635-660 | over every race of reconcilers and for any result in use, a crashed dispatch yields a new attempt only if the authority was heard to answer NOT_EXECUTED for the binding stored under its operation and key and that answer was committed; the proof covers its own tenant and resource if and only if the commit was made for them; the attempt keeps operation and key, is the next in sequence and has a request id of its own |
| `Reconciliation.CommittedDenialGivesRetry` | projects/ai-agent/src/agent_mcp_capstone.py:848-890 | conversely, a committed denial under this operation and key and an eligible decision give the attempt, whatever tenant and resource the commit names |
| `Reconciliation.CrashAloneIsNeverRetried` | projects/ai-agent/src/mcp_retry_policy.py:387-404 | the evidence of the crash itself is never eligible, never planned and never registered |
| `Reconciliation.DelayIsBounded` | projects/ai-agent/src/mcp_retry_policy.py:527-545 | for every hash value the delay lies between (1 - jitter) times the capped exponential and the maximum |
| `Reconciliation.DelayDoubles` | projects/ai-agent/src/mcp_retry_policy.py:527-545 | the capped exponential starts at the base and doubles up to the maximum, and jitter spreads it linearly by the hash |
| `Reconciliation.EligibleExactly` | projects/ai-agent/src/mcp_retry_policy.py:459-525 | a retry is eligible if and only if non-execution is proven, the failure is retryable, caller, authorization, capacity, circuit and budget allow it and the delay fits the deadline |
| `Reconciliation.PlansExactly` | projects/ai-agent/src/mcp_retry_policy.py:407-437 | an attempt is planned if and only if the decision is eligible for this failure and the request id is new |
| `Reconciliation.RecoversExactly` | projects/ai-agent/src/agent_mcp_capstone.py:635-660 | a crashed dispatch is recovered if and only if it was started with its whole binding, as possibly sent and possibly executed |
| `Reconciliation.SchedulingIsBounded` | projects/ai-agent/src/mcp_reconciliation.py:414-482 | from an un-alerted schedule with queries left, any sequence of advances stays within the maximum, alerts at most once, spends one query on each schedule and on the alert, schedules nothing afterwards, and every scheduled query plus its window fits the deadline |
| `Reconciliation.AdvancesExactly` | projects/ai-agent/src/mcp_reconciliation.py:414-482 | each answer of an advance, and each reason of an alert, if and only if its condition holds |
| `Reconciliation.ExhaustedScheduleKeepsAlerting` | projects/ai-agent/src/mcp_reconciliation.py:442-474 | an un-alerted schedule without queries left alerts on each of any number of unresolved advances |
| `Reconciliation.AlertsOnceIffQueriesLeft` | projects/ai-agent/src/mcp_reconciliation.py:377-482 | at most one alert is ever emitted, whatever follows, if and only if the schedule starts alerted or with a query left |
| `Reconciliation.Store.Commit` | projects/ai-agent/src/mcp_reconciliation.py:264-323 | with nobody in between, outcome, record and new table of each refusal and of the commit |
| `Reconciliation.Store.CompareAndSetCompleted` | projects/ai-agent/src/mcp_reconciliation.py:209-239 | writes exactly when binding, pending state and version match |
| `Reconciliation.Store.AddPending` | projects/ai-agent/src/mcp_reconciliation.py:195-203 | registers a new operation as pending at version 1, or raises and changes nothing |
| `RemoteEvidence.FindRejection` | projects/ai-agent/src/mcp_remote_failure_adapter.py:96-155 | finds the first locally configured rejection that the claim names, exactly when there is one |
| `RemoteEvidence.TranslatesExactly` | projects/ai-agent/src/mcp_remote_failure_adapter.py:96-155 | a remote failure is rejected, verified or unverified if and only if its correlation, peer and claim say so, always under the identity of the bound request |
| `RemoteEvidence.CancellationProves` | projects/ai-agent/src/mcp_remote_lifecycle.py:101-121 | a cancelled caller proves non-execution if and only if the request was never sent, whatever became of the remote task |
| `RemoteEvidence.EvidenceExactly` | projects/ai-agent/src/mcp_remote_lifecycle.py:71-86 | evidence is accepted if and only if it is complete and does not claim a possible execution of what was never sent |
| `RuntimeAttempts.StatusesAlwaysClimb` | projects/ai-agent/src/application_runtime.py:246-394 | in every interleaving each attempt's status strictly climbs a fixed rank, so none recurs, and claim fences are distinct and increasing |
| `RuntimeAttempts.EffectsCountKeys` | projects/ai-agent/src/output_tool_contracts.py:410-447 | executed keys are exactly the runs of the effect, each once, and every effect counter counts its runs, under any interleaving of workers and direct recordings |
| `RuntimeAttempts.AttemptsExecuteOnce` | projects/ai-agent/src/application_runtime.py:328-354 | no attempt runs the effect twice, even under several keys |
| `RuntimeAttempts.ReportsStayOwn` | projects/ai-agent/src/application_runtime.py:304-354 | in every run whose direct recordings name no foreign operation, the operation id that an attempt reports is that of its own key |
| `RuntimeAttempts.ReportsStep` | projects/ai-agent/src/application_runtime.py:304-326 | a step keeps those reports if and only if it is not a direct recording of an operation other than that of the attempt's key |
| `RuntimeAttempts.AttemptStore.RecordToolExecution` | projects/ai-agent/src/application_runtime.py:304-326 | records any result exactly for an owned, admitted attempt |
| `RuntimeAttempts.StepClimbs` | projects/ai-agent/src/application_runtime.py:246-394 | a successful step moves only the attempt it touches, and moves that one up |
| `RuntimeAttempts.StepsSucceedExactly` | projects/ai-agent/src/application_runtime.py:233-394 | each operation succeeds if and only if the attempt is in the right status, owned, and has the job, call, key and fence it was given |
| `RuntimeAttempts.ClaimsAndAdmissionsBind` | projects/ai-agent/src/application_runtime.py:246-302 | a claim binds worker and next fence, an admission call and key |
| `RuntimeAttempts.EffectRunsExactly` | projects/ai-agent/src/output_tool_contracts.py:410-447 | the effect runs if and only if the tool is active and the key was not executed; it counts for its own tenant, report and version; a repeated key reports its first operation |
| `RuntimeAttempts.OutcomeDecidesExactly` | projects/ai-agent/src/application_runtime.py:356-385 | an attempt completes if and only if a verified outcome of its own executed call is recorded; a mismatch goes to reconciliation, the rest is rejected |
| `RuntimeAttempts.CompletedWasVerified` | projects/ai-agent/src/application_runtime.py:356-385 | over every run, an attempt that became completed was completed by a recorded verified outcome |
| `RuntimeAttempts.StatusesChangeExactly` | projects/ai-agent/src/application_runtime.py:233-394 | each other status is reached if and only if its own step is taken |
| `RuntimeAttempts.AttemptStore.Claim` | projects/ai-agent/src/application_runtime.py:246-267 | claims exactly a prepared attempt with the same prompt, under a new fence |
| `RuntimeAttempts.AttemptStore.ExecuteAdmitted` | projects/ai-agent/src/application_runtime.py:328-354 | rechecks owner, status, fence and call before the effect, runs it once per key, and records the result |
| `RuntimeAttempts.AttemptStore.RecordToolAdmission` | projects/ai-agent/src/application_runtime.py:284-302 | admits exactly an owned, claimed attempt of the same job |
| `RuntimeAttempts.AttemptStore.RecordToolOutcome` | projects/ai-agent/src/application_runtime.py:356-385 | records an outcome exactly for the executed call and operation of the owned attempt |
| `RuntimeAttempts.AttemptStore.MarkProviderUnknown` | projects/ai-agent/src/application_runtime.py:269-282 | moves exactly an owned, claimed attempt to reconciliation |
| `RuntimeAttempts.AttemptStore.CancelAfterExternalEffect` | projects/ai-agent/src/application_runtime.py:387-394 | cancels exactly an executed attempt |
| `RuntimeAttempts.AttemptStore.PersistPrepared` | projects/ai-agent/src/application_runtime.py:233-240 | stores a new attempt, or raises and changes nothing |
| `ProtocolBoundary.SentAndAcceptedOnce` | projects/ai-agent/src/mcp_protocol_model.py:245-323 | in any run a request id is accepted at most once, and a valid request can be sent if and only if every earlier send of its id was proven unsent |
| `ProtocolBoundary.AcceptedIsFinal` | projects/ai-agent/src/mcp_protocol_model.py:364-440 | after an acceptance every later response for that id is a duplicate of it, a conflict, malformed or unknown, whatever the binding status says |
| `ProtocolBoundary.AbortedStillAccepts` | projects/ai-agent/src/mcp_protocol_model.py:442-477 | after an abort a response is accepted if and only if it is well formed, names no other operation and none was accepted before, as without the abort; the status is then completed |
| `ProtocolBoundary.AbortedRequestAnswered` | projects/ai-agent/src/mcp_protocol_model.py:442-477 | a concrete request that is aborted as never dispatched and then takes a result |
| `ProtocolBoundary.AlwaysCorrelated` | projects/ai-agent/src/mcp_protocol_model.py:245-513 | in every run an id is bound exactly while one of its sends is not known to be unsent, and the remembered response is the one accepted |
| `ProtocolBoundary.ValidExactly` | projects/ai-agent/src/mcp_protocol_model.py:325-362 | a request is valid if and only if version, method, capability, parameters and operation are |
| `ProtocolBoundary.StartsExactly` | projects/ai-agent/src/mcp_protocol_model.py:245-280 | a request is sent if and only if it is valid and its id unbound, bound to its operation |
| `ProtocolBoundary.SendLeaves` | projects/ai-agent/src/mcp_protocol_model.py:281-323 | an unsent request is forgotten; one that may have been sent waits for reconciliation |
| `ProtocolBoundary.CorrelatesExactly` | projects/ai-agent/src/mcp_protocol_model.py:364-440 | each observation of a response if and only if its condition holds, with what is remembered |
| `ProtocolBoundary.MarksExactly` | projects/ai-agent/src/mcp_protocol_model.py:442-513 | a binding is aborted or marked unknown if and only if its status allows it |
| `ProtocolBoundary.McpBoundary.Dispatch` | projects/ai-agent/src/mcp_protocol_model.py:245-323 | binds before sending, unbinds only what was not sent, and keeps an unknown outcome for reconciliation |
| `ProtocolBoundary.McpBoundary.Observe` | projects/ai-agent/src/mcp_protocol_model.py:364-440 | the observation and the new tables for one response |
| `ProtocolBoundary.McpBoundary.Abort` | projects/ai-agent/src/mcp_protocol_model.py:442-477 | aborts exactly a pending binding and keeps it bound |
| `ProtocolBoundary.McpBoundary.MarkUnknown` | projects/ai-agent/src/mcp_protocol_model.py:479-513 | marks exactly a pending or reconciling binding |
| `RemoteSession.KeysMatchOnce` | projects/ai-agent/src/mcp_remote_session.py:69-103 | in every run each generation key is matched at most once, to the attempt bound to it, while its own generation was current |
| `RemoteSession.OldGenerationsAreDead` | projects/ai-agent/src/mcp_remote_session.py:62-103 | after a newer generation began no key of an older one is ever matched |
| `RemoteSession.CorrelatesKeyExactly` | projects/ai-agent/src/mcp_remote_session.py:77-103 | a key is matched if and only if it is current, bound and not completed; the answer names the bound attempt whenever there is one |
| `RemoteSession.CorrelationRegistry.BeginGeneration` | projects/ai-agent/src/mcp_remote_session.py:62-67 | raises the generation by one and changes nothing else |
| `RemoteSession.CorrelationRegistry.Bind` | projects/ai-agent/src/mcp_remote_session.py:69-75 | binds exactly a new key of the current generation |
| `RemoteSession.CorrelationRegistry.CorrelateResponse` | projects/ai-agent/src/mcp_remote_session.py:77-103 | the correlation, and completion of a matched key only |
| `SchemaSubset.AcceptsExactlyTheSatisfying` | projects/ai-agent/src/output_tool_contracts.py:169-258 | for every schema and instance, of any nesting, there are no errors if and only if the instance satisfies the declarative meaning of the keywords |
| `SchemaSubset.ReportsExactlyTheViolations` | projects/ai-agent/src/output_tool_contracts.py:196-258 | an error is reported if and only if it is a violation at or below the value, at the path that leads to it |
| `SchemaSubset.RaisesExactlyWhenUnsupported` | projects/ai-agent/src/output_tool_contracts.py:183-199 | the validator raises if and only if it meets a schema with an unsupported keyword |
| `SchemaSubset.EqualIffSameForm` | projects/ai-agent/src/output_tool_contracts.py:209-210 | the equality behind `enum` holds if and only if two values have the same form: booleans and numbers as reals, texts as they are, arrays item by item, objects as maps |
| `SchemaSubset.EqualIsEquivalence` | projects/ai-agent/src/output_tool_contracts.py:209-210 | it is reflexive, symmetric and transitive |
| `SchemaSubset.DictionariesCompare` | projects/ai-agent/src/output_tool_contracts.py:209-210 | on objects with distinct names it is how Python compares dictionaries |
| `SchemaSubset.JoinKeepsOrder` | projects/ai-agent/src/output_tool_contracts.py:237-256 | what is found first is reported first |
| `SchemaSubset.ValidateSubset` | projects/ai-agent/src/output_tool_contracts.py:169-258 | the recursive loops compute the specified error list, in order, and stop at the first raise |
| `SchemaSubset.CheckRequired` | projects/ai-agent/src/output_tool_contracts.py:229-232 | one error for each missing required name, in order |
| `SchemaSubset.CheckExtra` | projects/ai-agent/src/output_tool_contracts.py:233-236 | one error for each name that a closed schema does not list, in order |
| `SchemaSubset.CheckFields` | projects/ai-agent/src/output_tool_contracts.py:237-246 | the errors of all fields under their own schemas, in order, or the first raise |
| `SchemaSubset.CheckItems` | projects/ai-agent/src/output_tool_contracts.py:248-256 | the errors of all items, in order, or the first raise |
| `ObjectLiteral.ReadUndoesWrite` | projects/n8n-workflows/day70_capstone.py:379-419 | round trip: whatever blanks, quotes and trailing comma a literal is written with, reading it gives back exactly the dictionary written, for keys free of brackets, commas and colons and values that balance and have no top-level comma |
| `ObjectLiteral.DictionaryHoldsAll` | projects/n8n-workflows/day70_capstone.py:401-419 | with distinct keys that dictionary holds every entry with its own value and nothing else |
| `ObjectLiteral.PiecesAreTexts` | projects/n8n-workflows/day70_capstone.py:386-400 | splitting the inside of a written literal gives exactly the written entries |
| `ObjectLiteral.TextIsRead` | projects/n8n-workflows/day70_capstone.py:402-418 | reading one written entry stores exactly its key and value |
| `ObjectLiteral.LiteralIsGoodValue` | projects/n8n-workflows/day70_capstone.py:379-382 | a written literal is itself a value that may be written, so literals nest |
| `ObjectLiteral.SplitPieces` | projects/n8n-workflows/day70_capstone.py:386-400 | the comma loop with its running depth finds the specified pieces |
| `ObjectLiteral.FindColon` | projects/n8n-workflows/day70_capstone.py:403-412 | the colon loop finds the first colon outside all brackets |
| `ObjectLiteral.FirstTop` | projects/n8n-workflows/day70_capstone.py:386-412 | the first place where a character stands outside all brackets, or none exactly when there is none |
| `ObjectLiteral.EntriesAreFiled` | projects/n8n-workflows/day70_capstone.py:401-419 | for every input, a key is read if and only if some piece files it before its first top-level colon, with the value of the last piece that does |
| `ObjectLiteral.UnbracedIsEmpty` | projects/n8n-workflows/day70_capstone.py:383-385 | nothing is read from a text that is not in braces |
| `ObjectLiteral.StripIs` | projects/n8n-workflows/day70_capstone.py:383 | stripping takes padding off both ends and leaves none, for every text |
| `ObjectLiteral.FileEntry` | projects/n8n-workflows/day70_capstone.py:402-418 | one entry is stored under its unquoted key, or not at all without a colon or key |
| `ObjectLiteral.ReadEntries` | projects/n8n-workflows/day70_capstone.py:379-419 | the loops of the reader compute the specified dictionary |
| `ObjectLiteral.ExtractStringifyObject` | projects/n8n-workflows/day70_capstone.py:356-376 | returns the shortest brace-balanced substring from the first brace after the first marker, and nothing exactly when there is no marker, no brace or no balance |
| `ObjectLiteral.LiteralIsExtracted` | projects/n8n-workflows/day70_capstone.py:356-376 | a literal written after the first marker is what the extractor finds |
| `ObjectLiteral.SendsReportScope` | projects/n8n-workflows/day70_capstone.py:422-442 | the check answers true exactly when the extracted literal passes the structural test |
| `ObjectLiteral.ScopeTravelsInside` | projects/n8n-workflows/day70_capstone.py:422-442 | end to end, for a body that writes an object as its business input: true if and only if the document ids are sent and the report scope is inside the business input and not beside it |

## Left out

- Locks, threads, file journals and fsync: a locked method is one atomic step.
- JSON text, UTF-8, SHA-256, HMAC and key handling: parsed values and structural digests stand for them; identifiers that the code
  joins from texts are tuples here, so two different tuples that join to the same text are not modelled.
- Counters that the records require to be non-negative are `nat`, so the records' own rejection of negative values is not modelled; neither is floating-point
  rounding or NaN, since seconds and JSON numbers are `real`.
- Runtime type checks of already typed values (projects/ai-agent/src/human_control.py:276-287), including a `bool` passed as a usage.
- `effect` and the transport raising after the claim: a crashed effect is a claim that is still owed, a crashed transport is one outcome.
- Execution bindings, checkpoint and reservation constructors that reject malformed records: the records are taken as constructed.
- Compensation and cost settlement stores (projects/ai-agent/src/application_runtime.py:396-451, 615-691): single-record state changes like those proved for attempts.
- Request building, tool admission and outcome parsing: they start from provider text and end in the values that the runtime model takes as inputs.
- Retry dispatch admission, lifecycle classification and stage timeouts: one-branch decisions.
- Graceful shutdown, operator reports and telemetry: they copy fields.
- A property schema that is the literal `None` (projects/ai-agent/src/output_tool_contracts.py:238-239): every listed property has a schema here.
- The texts of schema errors and paths: an error is a path of steps and a kind.
- `_find_node` and the dictionary lookups before the body expression (projects/n8n-workflows/day70_capstone.py:343-353): the expression is the parameter. Insertion order of the entry dictionary.
- Governance, prompts, providers, routing, retrieval, authorization, versioning, server adapters and framework adapters: mostly one-branch decisions or wrappers.
- Classification tables of the n8n capstone, Kubernetes and Helm validators, evaluations, examples and all Markdown.
