/** The control store: conditional apply of a candidate, and the dispatch claim. */
module HumanControlStore {
  import opened Common
  import opened Records
  import DurableJobs
  import opened HumanControl

  datatype ApplyOutcome =
    | DuplicateCommand | CommandIdentityConflict | StaleCandidate | CurrentFactsChanged
    | RecoveryApplyRejected | UnsafeReleaseRejected | SettlementRaised | InjectedBeforeCommit
    | AuditOnly | Applied

  type Commands = map<Identifier, Command>

  /** Statuses that change the business record; the others only leave evidence. */
  predicate Transition(operation: Operation, status: Status) {
    || status.DecisionRecorded? || status.ExecutionCandidate? || status.PolicyUnavailable?
    || status.ReconcileQuery? || status.SettleUsage? || status.CancellationObserved? || status.AuthorizationRevoked?
    || status.Escalated? || Interrupting(status)
    || (status.ApprovalIs? &&
        (|| status.approval.Pending? || status.approval.Expired?
         || (operation.Invalidate?
             && (status.approval.Revoked? || status.approval.Withdrawn? || status.approval.Superseded?))))
  }

  function Noted(v: Verdict): (out: seq<AuditEvent>)
    ensures |out| == 1 + |v.evidence|
  {
    [ControlStatus(v.status)] + seq(|v.evidence|, i requires 0 <= i < |v.evidence| => ControlEvidence(v.evidence[i]))
  }

  function Heard(s: Snapshot, cmd: Command): seq<ApprovalDecision> {
    if cmd.decision.Some? then s.decisionEvidence + [cmd.decision.value] else s.decisionEvidence
  }

  /** A message that changes nothing but the evidence. */
  function Audited(s: Snapshot, cmd: Command, v: Verdict): Snapshot {
    s.(decisionEvidence := Heard(s, cmd), job := s.job.(audit := s.job.audit + Noted(v)))
  }

  function RecordedRecovery(s: Snapshot, cmd: Command, f: Facts, v: Verdict): RecoveryOperation {
    var op := Control(s, f);
    op.(recoveryId := cmd.commandId,
        attemptsUsed := op.attemptsUsed + (if v.status.ReconcileQuery? then 1 else 0),
        lastEvidence := Some(EvidenceDigest(v.evidence)))
  }

  /** The job after the staged recovery; routing stays with human control. */
  function Staged(s: Snapshot, cmd: Command, f: Facts, v: Verdict): Job {
    if v.recovery.None? then s.job
    else DurableJobs.Recovered(s.job, v.recovery.value).(
      recoveries := s.job.recoveries + [RecordedRecovery(s, cmd, f, v)], outbox := s.job.outbox)
  }

  function ReleaseHeld(r: Reservation, attempt: string): Reservation {
    if r.attemptId == attempt && r.status.Held? then r.(status := Released, released := r.reserved) else r
  }

  function Reserved(s: Snapshot, v: Verdict, rs: seq<Reservation>): (out: seq<Reservation>)
    ensures |out| == |rs|
    ensures forall i :: 0 <= i < |rs| ==> out[i] == if v.reservation.Release?
      then ReleaseHeld(rs[i], s.action.attemptId) else rs[i]
  {
    if v.reservation.Release? then seq(|rs|, i requires 0 <= i < |rs| => ReleaseHeld(rs[i], s.action.attemptId)) else rs
  }

  function IntentId(s: Snapshot, cmd: Command, v: Verdict): Identifier
    requires v.outbox.Some?
  {
    ControlEvent(s.action, s.request.requestId, v.outbox.value,
                 if v.escalation.Some? || Queries(v) then Some(cmd.commandId) else None)
  }

  predicate Announced(events: seq<OutboxIntent>, id: Identifier) {
    exists i :: 0 <= i < |events| && events[i].eventId == id
  }

  function Routed(s: Snapshot, cmd: Command, v: Verdict, events: seq<OutboxIntent>): seq<OutboxIntent> {
    if v.outbox.None? || Announced(events, IntentId(s, cmd, v)) then events
    else events + [OutboxIntent(IntentId(s, cmd, v), s.job.jobId, s.job.stepId, s.job.attemptId, v.outbox.value, None)]
  }

  function NextFence(s: Snapshot, v: Verdict): nat {
    s.job.fenceToken + (if v.recovery.Some? || Interrupting(v.status) then 1 else 0)
  }

  function NextCheckpoint(s: Snapshot, cmd: Command, v: Verdict): Checkpoint {
    var cp := s.job.checkpoint;
    cp.(checkpointId := Prefixed(HumanPrefix, cmd.commandId), checkpointVersion := cp.checkpointVersion + 1,
        authoritativeState := v.nextState, stateVersion := s.job.stateVersion + 1, fenceToken := NextFence(s, v),
        previousId := Some(cp.checkpointId))
  }

  function CommittedJob(s: Snapshot, cmd: Command, v: Verdict, staged: Job): Job {
    staged.(state := v.nextState, stateVersion := s.job.stateVersion + 1, fenceToken := NextFence(s, v),
            checkpoint := NextCheckpoint(s, cmd, v),
            leaseOwner := if Interrupting(v.status) then None else staged.leaseOwner,
            leaseExpiry := if Interrupting(v.status) then None else staged.leaseExpiry,
            reservations := Reserved(s, v, staged.reservations), outbox := Routed(s, cmd, v, staged.outbox),
            audit := staged.audit + Noted(v))
  }

  /** The whole aggregate after an applied transition; it is swapped in one assignment. */
  function Committed(s: Snapshot, cmd: Command, f: Facts, v: Verdict): Snapshot {
    CommittedOn(s, cmd, v, Staged(s, cmd, f, v))
  }

  function CommittedOn(s: Snapshot, cmd: Command, v: Verdict, staged: Job): Snapshot {
    s.(job := CommittedJob(s, cmd, v, staged), approval := v.approval,
       decisions := if cmd.decision.Some? && v.status.DecisionRecorded? then s.decisions + [cmd.decision.value]
       else s.decisions, decisionEvidence := Heard(s, cmd),
       interruptId := if Interrupting(v.status) then Some(cmd.commandId) else s.interruptId,
       observedBy := if v.status.CancellationObserved? then s.observedBy + [cmd.actor.actorId] else s.observedBy,
       escalations := if v.escalation.Some? then s.escalations + [v.escalation.value] else s.escalations,
       history := s.history + [s.job.checkpoint])
  }

  /** What apply answers, in the order it checks. */
  function Verify(s: Snapshot, commands: Commands, c: Candidate, f: Facts, now: int, fail: bool): ApplyOutcome {
    var cmd := c.command;
    if cmd.commandId in commands then
      if commands[cmd.commandId] == cmd then DuplicateCommand else CommandIdentityConflict
    else if c.snapshot != Of(s) then StaleCandidate
    else if DecideControl(s, cmd, f, now) != c then CurrentFactsChanged
    else if !Transition(cmd.operation, c.verdict.status) then
      if fail then InjectedBeforeCommit else AuditOnly
    else if c.verdict.recovery.Some?
      && DurableJobs.ApplyGuard(s.job, {}, c.verdict.recovery.value) != DurableJobs.Applied
      then RecoveryApplyRejected
    else if c.verdict.recovery.Some? && !DurableJobs.SettlementFits(s.job.reservations, c.verdict.recovery.value)
      then SettlementRaised
    else if c.verdict.reservation.Release? && !DefinitelyUnused(s, f) then UnsafeReleaseRejected
    else if fail then InjectedBeforeCommit
    else Applied
  }

  function AfterApply(s: Snapshot, c: Candidate, f: Facts, outcome: ApplyOutcome): Snapshot {
    match outcome
    case AuditOnly => Audited(s, c.command, c.verdict)
    case Applied => Committed(s, c.command, f, c.verdict)
    case _ => s
  }

  predicate Accepted(o: ApplyOutcome) {
    o.AuditOnly? || o.Applied?
  }

  // ---------------------------------------------------------------- dispatch

  predicate Publishes(s: Snapshot, id: Identifier) {
    exists i :: 0 <= i < |s.job.outbox| && s.job.outbox[i].eventId == id && s.job.outbox[i].eventType.Publish?
  }

  function DispatchCheck(s: Snapshot, id: Identifier, worker: Principal, fence: int): Command {
    Command(Prefixed(DispatchPrefix, id), Gate, worker, s.job.state, s.job.stateVersion, fence,
            None, None, None, None, None, None)
  }

  predicate MayClaim(s: Snapshot, id: Identifier, worker: Principal, fence: int, f: Facts, now: int) {
    && Publishes(s, id) && id !in s.claimedEvents && fence == s.job.fenceToken
    && s.job.leaseOwner == Some(worker.actorId) && s.job.leaseExpiry.Some? && now < s.job.leaseExpiry.value
    && DecideControl(s, DispatchCheck(s, id, worker, fence), f, now).verdict.executionAllowed
  }

  /** The claim marks possible dispatch before the effect port is called. */
  function Claimed(s: Snapshot, id: Identifier): Snapshot {
    var cp := s.job.checkpoint;
    s.(dispatchStarted := true, claimedEvents := s.claimedEvents + [id], history := s.history + [cp],
       job := s.job.(stateVersion := s.job.stateVersion + 1,
                     checkpoint := cp.(checkpointId := Prefixed(DispatchPrefix, id),
                                       checkpointVersion := cp.checkpointVersion + 1,
                                       stateVersion := s.job.stateVersion + 1,
                                       previousId := Some(cp.checkpointId)),
                     audit := s.job.audit + [DispatchClaimed]))
  }

  /** InMemoryHumanControlStore. */
  class ControlStore {
    var snapshot: Snapshot
    var commands: Commands

    constructor (initial: Snapshot)
      ensures snapshot == initial && commands == map[]
    {
      snapshot := initial;
      commands := map[];
    }

    method Plan(command: Command, f: Facts, now: int) returns (c: Candidate)
      ensures c == DecideControl(snapshot, command, f, now)
    {
      c := DecideControl(snapshot, command, f, now);
    }

    method Apply(c: Candidate, f: Facts, now: int, fail: bool) returns (outcome: ApplyOutcome)
      modifies this
      ensures outcome == Verify(old(snapshot), old(commands), c, f, now, fail)
      ensures snapshot == AfterApply(old(snapshot), c, f, outcome)
      ensures commands == if Accepted(outcome) then old(commands)[c.command.commandId := c.command] else old(commands)
    {
      var cmd, v := c.command, c.verdict;
      if cmd.commandId in commands {
        return if commands[cmd.commandId] == cmd then DuplicateCommand else CommandIdentityConflict;
      }
      var current := snapshot;
      if c.snapshot != Of(current) {
        return StaleCandidate;
      }
      var again := DecideControl(current, cmd, f, now);
      if again != c {
        return CurrentFactsChanged;
      }
      if !Transition(cmd.operation, v.status) {
        if fail {
          return InjectedBeforeCommit;
        }
        snapshot := Audited(current, cmd, v);
        commands := commands[cmd.commandId := cmd];
        return AuditOnly;
      }
      var staged := Stage(current, cmd, f, v);
      if staged.Raised? {
        return staged.error;
      }
      if v.reservation.Release? && (current.dispatchStarted || !f.certainty.DefinitelyNotDispatched?) {
        return UnsafeReleaseRejected;
      }
      if fail {
        return InjectedBeforeCommit;
      }
      snapshot := CommittedOn(current, cmd, v, staged.value);
      commands := commands[cmd.commandId := cmd];
      return Applied;
    }

    /** Applies the recovery half on a store of its own, so that a refusal changes nothing here. */
    method Stage(current: Snapshot, cmd: Command, f: Facts, v: Verdict) returns (r: Result<Job, ApplyOutcome>)
      ensures r ==
        if v.recovery.Some? && DurableJobs.ApplyGuard(current.job, {}, v.recovery.value) != DurableJobs.Applied
          then Raised(RecoveryApplyRejected)
        else if v.recovery.Some? && !DurableJobs.SettlementFits(current.job.reservations, v.recovery.value)
          then Raised(SettlementRaised)
        else Ok(Staged(current, cmd, f, v))
    {
      if v.recovery.None? {
        return Ok(current.job);
      }
      var store := new DurableJobs.DurableJobStore(current.job);
      var applied := store.Apply(v.recovery.value);
      if applied.Raised? {
        return Raised(SettlementRaised);
      }
      if applied.value != DurableJobs.Applied {
        return Raised(RecoveryApplyRejected);
      }
      var record := store.record;
      return Ok(record.(recoveries := current.job.recoveries + [RecordedRecovery(current, cmd, f, v)],
                        outbox := current.job.outbox));
    }

    /** The locked half of dispatch_once; the caller runs the effect on the returned action. */
    method Claim(id: Identifier, worker: Principal, fence: int, f: Facts, now: int)
      returns (granted: Option<ActionBinding>)
      modifies this`snapshot
      ensures granted.Some? <==> old(MayClaim(snapshot, id, worker, fence, f, now))
      ensures granted.Some? ==> granted.value == old(snapshot).action && snapshot == Claimed(old(snapshot), id)
      ensures granted.None? ==> snapshot == old(snapshot)
    {
      var s := snapshot;
      if !Publishes(s, id) || id in s.claimedEvents || fence != s.job.fenceToken
         || s.job.leaseOwner != Some(worker.actorId) || s.job.leaseExpiry.None? || now >= s.job.leaseExpiry.value {
        return None;
      }
      var check := DecideControl(s, DispatchCheck(s, id, worker, fence), f, now);
      if !check.verdict.executionAllowed {
        return None;
      }
      snapshot := Claimed(s, id);
      return Some(s.action);
    }
  }
}
