/** Whole runs of human control: any interleaving of applies, dispatch claims and
    effects, with arbitrary candidates, facts and clocks at every step. Planning
    changes nothing, so a run simply hands candidates of any origin to apply. */
module HumanControlRuns {
  import opened Common
  import opened Records
  import DurableJobs
  import opened HumanControl
  import opened HumanControlStore

  datatype Step =
    | ApplyStep(candidate: Candidate, facts: Facts, now: int, fail: bool)
    | ClaimStep(eventId: Identifier, worker: Principal, fence: int, facts: Facts, now: int)
    | EffectStep

  /** What happened, with the snapshot it happened on. */
  datatype Event =
    | AppliedEvent(before: Snapshot, candidate: Candidate, facts: Facts, now: int)
    | AuditedEvent(before: Snapshot, candidate: Candidate)
    | ClaimEvent(before: Snapshot, eventId: Identifier, facts: Facts, now: int)
    | EffectEvent(action: ActionBinding)

  /** The store, the granted effects that have not run yet, and the history. */
  datatype World = World(snapshot: Snapshot, commands: Commands, pending: seq<ActionBinding>, log: seq<Event>)

  function ApplyNext(w: World, c: Candidate, f: Facts, now: int, outcome: ApplyOutcome): World {
    if outcome.Applied? then
      w.(snapshot := Committed(w.snapshot, c.command, f, c.verdict),
        commands := w.commands[c.command.commandId := c.command],
         log := w.log + [AppliedEvent(w.snapshot, c, f, now)])
    else if outcome.AuditOnly? then
      w.(snapshot := Audited(w.snapshot, c.command, c.verdict),
        commands := w.commands[c.command.commandId := c.command],
         log := w.log + [AuditedEvent(w.snapshot, c)])
    else w
  }

  function ClaimNext(w: World, id: Identifier, f: Facts, now: int): World {
    w.(snapshot := Claimed(w.snapshot, id), pending := w.pending + [w.snapshot.action],
       log := w.log + [ClaimEvent(w.snapshot, id, f, now)])
  }

  function Next(w: World, s: Step): World {
    match s
    case ApplyStep(c, f, now, fail) =>
      ApplyNext(w, c, f, now, Verify(w.snapshot, w.commands, c, f, now, fail))
    case ClaimStep(id, worker, fence, f, now) =>
      if MayClaim(w.snapshot, id, worker, fence, f, now) then ClaimNext(w, id, f, now) else w
    case EffectStep =>
      if w.pending == [] then w
      else w.(pending := w.pending[1..], log := w.log + [EffectEvent(w.pending[0])])
  }

  function Run(w: World, steps: seq<Step>): World
    decreases |steps|
  {
    if steps == [] then w else Run(Next(w, steps[0]), steps[1..])
  }

  // ---------------------------------------------------------------- planner and applier agree

  /** What an accepted candidate is known to satisfy when it is accepted. */
  ghost predicate Vouched(s: Snapshot, c: Candidate, f: Facts, now: int) {
    && c.snapshot == Of(s) && Sound(s, c.command, f, now, c.verdict)
    && (c.verdict.recovery.Some? ==>
          RecoveryFits(s, c.command, f, now, c.verdict.status, c.verdict.nextState, c.verdict.recovery.value))
  }

  /** A candidate that passes the re-decision is never refused afterwards: the staged
      recovery applies, the settlement fits and the release is safe. */
  lemma PlannerAndApplierAgree(s: Snapshot, commands: Commands, c: Candidate, f: Facts, now: int, fail: bool)
    ensures var o := Verify(s, commands, c, f, now, fail);
      && !o.RecoveryApplyRejected? && !o.SettlementRaised? && !o.UnsafeReleaseRejected?
      && (Accepted(o) ==> Vouched(s, c, f, now) && c.command.commandId !in commands)
  {
    var o := Verify(s, commands, c, f, now, fail);
    if c.command.commandId !in commands && c.snapshot == Of(s) && DecideControl(s, c.command, f, now) == c {
      ControlSound(s, c.command, f, now);
      RecoveryAlwaysFits(s, c.command, f, now);
    }
  }

  /** What a step did: nothing, or one of the four changes. */
  datatype Change =
    Nothing | Audit(c: Candidate) | Apply(c: Candidate, f: Facts, now: int)
      | Claim(id: Identifier, f: Facts, now: int) | Effect

  ghost predicate Explains(w: World, w': World, ch: Change) {
    match ch
    case Nothing => w' == w
    case Audit(c) =>
      && c.snapshot == Of(w.snapshot) && w'.snapshot == Audited(w.snapshot, c.command, c.verdict)
      && w'.pending == w.pending && w'.log == w.log + [AuditedEvent(w.snapshot, c)]
    case Apply(c, f, now) =>
      && Vouched(w.snapshot, c, f, now) && w'.snapshot == Committed(w.snapshot, c.command, f, c.verdict)
      && w'.pending == w.pending && w'.log == w.log + [AppliedEvent(w.snapshot, c, f, now)]
    case Claim(id, f, now) =>
      && GateOpen(w.snapshot, f, now) && w'.snapshot == Claimed(w.snapshot, id)
      && w'.pending == w.pending + [w.snapshot.action] && w'.log == w.log + [ClaimEvent(w.snapshot, id, f, now)]
    case Effect =>
      && w'.snapshot == w.snapshot && w.pending != [] && w'.pending == w.pending[1..]
      && w'.log == w.log + [EffectEvent(w.pending[0])]
  }

  lemma StepExplained(w: World, s: Step) returns (ch: Change)
    ensures Explains(w, Next(w, s), ch)
  {
    match s
    case ApplyStep(c, f, now, fail) =>
      var o := Verify(w.snapshot, w.commands, c, f, now, fail);
      PlannerAndApplierAgree(w.snapshot, w.commands, c, f, now, fail);
      ch := if o.Applied? then Apply(c, f, now) else if o.AuditOnly? then Audit(c) else Nothing;
    case ClaimStep(id, worker, fence, f, now) =>
      if MayClaim(w.snapshot, id, worker, fence, f, now) {
        GateIsOpen(w.snapshot, DispatchCheck(w.snapshot, id, worker, fence), f, now);
        ch := Claim(id, f, now);
      } else {
        ch := Nothing;
      }
    case EffectStep =>
      ch := if w.pending == [] then Nothing else Effect;
  }

  // ---------------------------------------------------------------- the effect runs at most once

  /** The tallies kept over a history. */
  datatype Tallied = Claims | Effects | Commits | QueryCommits

  predicate Counted(e: Event, k: Tallied) {
    match k
    case Claims => e.ClaimEvent?
    case Effects => e.EffectEvent?
    case Commits => e.ClaimEvent? || e.AppliedEvent?
    case QueryCommits => e.AppliedEvent? && e.candidate.verdict.status.ReconcileQuery?
  }

  function Tally(log: seq<Event>, k: Tallied): nat
    decreases |log|
  {
    if log == [] then 0 else Tally(log[..|log| - 1], k) + (if Counted(log[|log| - 1], k) then 1 else 0)
  }

  lemma TallyGrows(log: seq<Event>, e: Event, k: Tallied)
    ensures Tally(log + [e], k) == Tally(log, k) + (if Counted(e, k) then 1 else 0)
  {
    assert (log + [e])[..|log|] == log;
  }

  /** How a step moves a tally. */
  lemma StepTallies(w: World, w': World, ch: Change, k: Tallied)
    requires Explains(w, w', ch)
    ensures Tally(w'.log, k) == Tally(w.log, k) +
      match k
      case Claims => if ch.Claim? then 1 else 0
      case Effects => if ch.Effect? then 1 else 0
      case Commits => if ch.Claim? || ch.Apply? then 1 else 0
      case QueryCommits => if ch.Apply? && ch.c.verdict.status.ReconcileQuery? then 1 else 0
  {
    if !ch.Nothing? {
      TallyGrows(w.log, w'.log[|w.log|], k);
    }
  }

  /** One claim when dispatch started and none before; every claim is an effect run or
      still owed, and always of the bound action. */
  ghost predicate OnceOnly(action: ActionBinding, w: World) {
    && w.snapshot.action == action
    && Tally(w.log, Claims) == (if w.snapshot.dispatchStarted then 1 else 0)
    && Tally(w.log, Effects) + |w.pending| == Tally(w.log, Claims)
    && (forall i :: 0 <= i < |w.pending| ==> w.pending[i] == action)
    && (forall i :: 0 <= i < |w.log| && w.log[i].EffectEvent? ==> w.log[i].action == action)
  }

  lemma OnceOnlyEffect(action: ActionBinding, w: World, w': World, ch: Change)
    requires OnceOnly(action, w) && ch.Effect? && Explains(w, w', ch)
    ensures OnceOnly(action, w')
  {
    StepTallies(w, w', ch, Claims);
    StepTallies(w, w', ch, Effects);
    assert w'.log[|w.log|].action == w.pending[0] == action && |w.pending| == 1;
    assert forall i :: 0 <= i < |w.log| ==> w'.log[i] == w.log[i];
  }

  lemma OnceOnlyClaim(action: ActionBinding, w: World, w': World, ch: Change)
    requires OnceOnly(action, w) && ch.Claim? && Explains(w, w', ch)
    ensures OnceOnly(action, w')
  {
    StepTallies(w, w', ch, Claims);
    StepTallies(w, w', ch, Effects);
    assert w'.log[|w.log|].ClaimEvent?;
    assert forall i :: 0 <= i < |w.log| ==> w'.log[i] == w.log[i];
  }

  lemma OnceOnlyMessage(action: ActionBinding, w: World, w': World, ch: Change)
    requires OnceOnly(action, w) && (ch.Apply? || ch.Audit?) && Explains(w, w', ch)
    ensures OnceOnly(action, w')
  {
    StepTallies(w, w', ch, Claims);
    StepTallies(w, w', ch, Effects);
    assert !w'.log[|w.log|].EffectEvent?;
    assert forall i :: 0 <= i < |w.log| ==> w'.log[i] == w.log[i];
  }

  lemma OnceOnlyStep(action: ActionBinding, w: World, w': World, ch: Change)
    requires OnceOnly(action, w) && Explains(w, w', ch)
    ensures OnceOnly(action, w')
  {
    match ch
    case Nothing =>
    case Effect => OnceOnlyEffect(action, w, w', ch);
    case Claim(_, _, _) => OnceOnlyClaim(action, w, w', ch);
    case _ => OnceOnlyMessage(action, w, w', ch);
  }

  /** In every interleaving, from an undispatched snapshot, the effect is claimed at
      most once, runs at most once per claim and only on the bound action. */
  lemma {:induction false} EffectAtMostOnce(action: ActionBinding, w: World, steps: seq<Step>)
    requires OnceOnly(action, w)
    ensures OnceOnly(action, Run(w, steps))
    ensures Tally(Run(w, steps).log, Effects) <= Tally(Run(w, steps).log, Claims) <= 1
    decreases |steps|
  {
    if steps != [] {
      var ch := StepExplained(w, steps[0]);
      OnceOnlyStep(action, w, Next(w, steps[0]), ch);
      EffectAtMostOnce(action, Next(w, steps[0]), steps[1..]);
    }
  }

  // ---------------------------------------------------------------- reservations are conserved

  /** A reservation is untouched, wholly released, or settled with the rest released. */
  ghost predicate Evolved(r0: Reservation, r: Reservation) {
    || r == r0
    || (r0.status.Held? && r == r0.(status := Released, released := r0.reserved))
    || (r0.status.Held? && r.settled.Some? && r.settled.value <= r0.reserved
        && r == r0.(status := Settled, settled := r.settled, released := r0.reserved - r.settled.value))
  }

  /** Conservation against the starting reservations, and exclusion of dispatch and release. */
  ghost predicate Conserved(s0: Snapshot, s: Snapshot) {
    && s.action == s0.action && |s.job.reservations| == |s0.job.reservations|
    && (forall i :: 0 <= i < |s0.job.reservations| ==> Evolved(s0.job.reservations[i], s.job.reservations[i]))
    && (forall i :: 0 <= i < |s0.job.reservations| && s0.job.reservations[i].attemptId != s0.action.attemptId ==>
          s.job.reservations[i] == s0.job.reservations[i])
    && (forall i :: 0 <= i < |s0.job.reservations| && Freed(s0, s, i) ==> !s.dispatchStarted && !HoldsReservation(s))
  }

  /** The action's held reservation number i was released since the start. */
  ghost predicate Freed(s0: Snapshot, s: Snapshot, i: nat)
    requires i < |s0.job.reservations| == |s.job.reservations|
  {
    && s0.job.reservations[i].attemptId == s0.action.attemptId
    && s0.job.reservations[i].status.Held? && s.job.reservations[i].status.Released?
  }

  /** Reservations after one step: each evolves, and a release empties the action's holds. */
  ghost predicate Moved(s: Snapshot, s': Snapshot, release: bool) {
    && s'.action == s.action && |s'.job.reservations| == |s.job.reservations|
    && (forall i :: 0 <= i < |s.job.reservations| ==>
          && Evolved(s.job.reservations[i], s'.job.reservations[i])
          && (s.job.reservations[i].attemptId != s.action.attemptId ==> s'.job.reservations[i] == s.job.reservations[i])
          && (s'.job.reservations[i].status.Released? ==> s.job.reservations[i].status.Released? || release))
    && (HoldsReservation(s') ==> HoldsReservation(s))
    && (release ==> !s'.dispatchStarted && !HoldsReservation(s'))
    && (s'.dispatchStarted ==> s.dispatchStarted || HoldsReservation(s))
  }

  /** What a commit does to the reservations. */
  lemma CommittedReservations(s: Snapshot, c: Candidate, f: Facts, now: int)
    requires Vouched(s, c, f, now)
    ensures Moved(s, Committed(s, c.command, f, c.verdict), c.verdict.reservation.Release?)
  {
    var v := c.verdict;
    var s' := Committed(s, c.command, f, v);
    var staged := Staged(s, c.command, f, v);
    assert s'.job.reservations == Reserved(s, v, staged.reservations);
    forall i | 0 <= i < |s.job.reservations|
      ensures Evolved(s.job.reservations[i], s'.job.reservations[i])
      ensures s.job.reservations[i].attemptId != s.action.attemptId ==> s'.job.reservations[i] == s.job.reservations[i]
      ensures s'.job.reservations[i].status.Released? ==>
        s.job.reservations[i].status.Released? || v.reservation.Release?
    {
      var r := s.job.reservations[i];
      if v.recovery.Some? {
        assert staged.reservations[i] == DurableJobs.UpdateReservation(r, v.recovery.value);
      }
    }
  }

  lemma ConservedMove(s0: Snapshot, s: Snapshot, s': Snapshot, release: bool)
    requires Conserved(s0, s) && Moved(s, s', release)
    ensures Conserved(s0, s')
  {
    forall i | 0 <= i < |s0.job.reservations|
      ensures Evolved(s0.job.reservations[i], s'.job.reservations[i])
      ensures Freed(s0, s', i) ==> release || Freed(s0, s, i)
    {
      assert Evolved(s0.job.reservations[i], s.job.reservations[i]);
      assert Evolved(s.job.reservations[i], s'.job.reservations[i]);
    }
  }

  lemma ConservedStep(s0: Snapshot, w: World, w': World, ch: Change)
    requires Conserved(s0, w.snapshot) && Explains(w, w', ch)
    ensures Conserved(s0, w'.snapshot)
  {
    if ch.Apply? {
      CommittedReservations(w.snapshot, ch.c, ch.f, ch.now);
      ConservedMove(s0, w.snapshot, w'.snapshot, ch.c.verdict.reservation.Release?);
    } else {
      assert w'.snapshot.job.reservations == w.snapshot.job.reservations;
      assert HoldsReservation(w'.snapshot) ==> HoldsReservation(w.snapshot);
      ConservedMove(s0, w.snapshot, w'.snapshot, false);
    }
  }

  /** Over every run each reservation is conserved, and no run both dispatches the
      action and releases what was held for it. */
  lemma {:induction false} ReservationsConserved(s0: Snapshot, w: World, steps: seq<Step>)
    requires Conserved(s0, w.snapshot)
    ensures Conserved(s0, Run(w, steps).snapshot)
    decreases |steps|
  {
    if steps != [] {
      var ch := StepExplained(w, steps[0]);
      ConservedStep(s0, w, Next(w, steps[0]), ch);
      ReservationsConserved(s0, Next(w, steps[0]), steps[1..]);
    }
  }

  // ---------------------------------------------------------------- approval precedes dispatch

  /** The event recorded this decision, and it was due. */
  ghost predicate RecordsDecision(s0: Snapshot, e: Event, d: ApprovalDecision) {
    && e.AppliedEvent? && e.candidate.verdict.status.DecisionRecorded? && e.candidate.command.decision == Some(d)
    && DulyDecided(s0.action, s0.request, d) && d.decidedAt <= e.now
  }

  ghost predicate RecordedBefore(s0: Snapshot, log: seq<Event>, k: nat, d: ApprovalDecision)
    requires k <= |log|
  {
    exists j :: 0 <= j < k && RecordsDecision(s0, log[j], d)
  }

  /** A claim made while approval was due: an approval of this very action, recorded
      earlier in the run, and still unexpired. */
  ghost predicate ClaimApproved(s0: Snapshot, log: seq<Event>, k: nat)
    requires k < |log| && log[k].ClaimEvent?
  {
    log[k].facts.approvalRequired ==>
      && log[k].now < s0.request.expiresAt
      && exists d: ApprovalDecision :: d.choice.Approved? && RecordedBefore(s0, log, k, d)
  }

  ghost predicate ApprovalFirst(s0: Snapshot, w: World) {
    && w.snapshot.action == s0.action && w.snapshot.request == s0.request
    && (w.snapshot.decisions != [] ==> RecordedBefore(s0, w.log, |w.log|, w.snapshot.decisions[0]))
    && (forall k :: 0 <= k < |w.log| && w.log[k].ClaimEvent? ==>
          ClaimApproved(s0, w.log, k) && (s0.action.risk.High? ==> w.log[k].facts.approvalRequired))
  }

  lemma RecordedStays(s0: Snapshot, log: seq<Event>, log': seq<Event>, k: nat, d: ApprovalDecision)
    requires k <= |log| <= |log'| && log'[..|log|] == log && RecordedBefore(s0, log, k, d)
    ensures RecordedBefore(s0, log', k, d)
  {
    var j :| 0 <= j < k && RecordsDecision(s0, log[j], d);
    assert log'[j] == log'[..|log|][j];
  }

  lemma ApprovalFirstStep(s0: Snapshot, w: World, w': World, ch: Change)
    requires ApprovalFirst(s0, w) && Explains(w, w', ch)
    ensures ApprovalFirst(s0, w')
  {
    if !ch.Nothing? {
      var n := |w.log|;
      assert w'.log[..n] == w.log && |w'.log| == n + 1;
      forall k | 0 <= k < n && w'.log[k].ClaimEvent?
        ensures ClaimApproved(s0, w'.log, k) && (s0.action.risk.High? ==> w'.log[k].facts.approvalRequired)
      {
        assert w'.log[k] == w.log[k];
        if w.log[k].facts.approvalRequired {
          var d: ApprovalDecision :| d.choice.Approved? && RecordedBefore(s0, w.log, k, d);
          RecordedStays(s0, w.log, w'.log, k, d);
        }
      }
      if w.snapshot.decisions != [] {
        RecordedStays(s0, w.log, w'.log, n, w.snapshot.decisions[0]);
      } else if ch.Apply? && ch.c.verdict.status.DecisionRecorded? {
        assert RecordsDecision(s0, w'.log[n], ch.c.command.decision.value);
      }
    }
  }

  /** Whatever the facts say, a claim made under required approval was preceded by the
      recording of an approval of exactly this action and request, decided in time and
      by somebody other than the requester where separation is required; and approval
      is always required of a high-risk action. */
  lemma {:induction false} ApprovalPrecedesDispatch(s0: Snapshot, w: World, steps: seq<Step>)
    requires ApprovalFirst(s0, w)
    ensures ApprovalFirst(s0, Run(w, steps))
    decreases |steps|
  {
    if steps != [] {
      var ch := StepExplained(w, steps[0]);
      ApprovalFirstStep(s0, w, Next(w, steps[0]), ch);
      ApprovalPrecedesDispatch(s0, Next(w, steps[0]), steps[1..]);
    }
  }

  /** A barred approval or an interrupt is final: no later step of any run claims. */
  lemma {:induction false} BarredForGood(w: World, steps: seq<Step>)
    requires Barred(w.snapshot.approval) || Interrupted(w.snapshot)
    ensures Tally(Run(w, steps).log, Claims) == Tally(w.log, Claims)
    ensures Barred(w.snapshot.approval) ==> Barred(Run(w, steps).snapshot.approval)
    ensures Interrupted(w.snapshot) ==> Run(w, steps).snapshot.interruptId == w.snapshot.interruptId
    ensures Run(w, steps).snapshot.dispatchStarted == w.snapshot.dispatchStarted
    decreases |steps|
  {
    if steps != [] {
      var w' := Next(w, steps[0]);
      var ch := StepExplained(w, steps[0]);
      StepTallies(w, w', ch, Claims);
      BarredStep(w, w', ch);
      BarredForGood(w', steps[1..]);
    }
  }

  lemma BarredStep(w: World, w': World, ch: Change)
    requires Barred(w.snapshot.approval) || Interrupted(w.snapshot)
    requires Explains(w, w', ch)
    ensures !ch.Claim? && w'.snapshot.dispatchStarted == w.snapshot.dispatchStarted
    ensures Barred(w.snapshot.approval) ==> Barred(w'.snapshot.approval)
    ensures Interrupted(w.snapshot) ==> w'.snapshot.interruptId == w.snapshot.interruptId
  {
  }

  // ---------------------------------------------------------------- terminal states and stale candidates

  /** Nothing reopens a terminal job. */
  lemma {:induction false} TerminalAbsorbs(w: World, steps: seq<Step>)
    requires Terminal(w.snapshot.job.state)
    ensures Run(w, steps).snapshot.job.state == w.snapshot.job.state
    decreases |steps|
  {
    if steps != [] {
      var ch := StepExplained(w, steps[0]);
      TerminalStep(w, Next(w, steps[0]), ch);
      TerminalAbsorbs(Next(w, steps[0]), steps[1..]);
    }
  }

  lemma TerminalStep(w: World, w': World, ch: Change)
    requires Terminal(w.snapshot.job.state) && Explains(w, w', ch)
    ensures w'.snapshot.job.state == w.snapshot.job.state
  {
  }

  predicate Consumed(e: Event) {
    e.AppliedEvent? || e.AuditedEvent?
  }

  /** The audit trail of every snapshot a candidate was accepted on is shorter than
      that of any later one. */
  ghost predicate TrailsGrow(w: World) {
    && (forall i :: 0 <= i < |w.log| && Consumed(w.log[i]) ==>
          w.log[i].candidate.snapshot == Of(w.log[i].before) && |w.log[i].before.job.audit| < |w.snapshot.job.audit|)
    && (forall i, j :: 0 <= i < j < |w.log| && Consumed(w.log[i]) && Consumed(w.log[j]) ==>
          |w.log[i].before.job.audit| < |w.log[j].before.job.audit|)
  }

  lemma TrailsGrowStep(w: World, w': World, ch: Change)
    requires TrailsGrow(w) && Explains(w, w', ch)
    ensures TrailsGrow(w')
  {
    if !ch.Nothing? && !ch.Effect? {
      assert |w'.snapshot.job.audit| > |w.snapshot.job.audit|;
    }
  }

  lemma {:induction false} TrailsAlwaysGrow(w: World, steps: seq<Step>)
    requires TrailsGrow(w)
    ensures TrailsGrow(Run(w, steps))
    decreases |steps|
  {
    if steps != [] {
      var ch := StepExplained(w, steps[0]);
      TrailsGrowStep(w, Next(w, steps[0]), ch);
      TrailsAlwaysGrow(Next(w, steps[0]), steps[1..]);
    }
  }

  /** Of all candidates planned on one snapshot at most one is ever accepted. */
  lemma OneCandidatePerSnapshot(w: World, steps: seq<Step>)
    requires w.log == []
    ensures var log := Run(w, steps).log;
      forall i, j :: 0 <= i < j < |log| && Consumed(log[i]) && Consumed(log[j]) ==>
        log[i].candidate.snapshot != log[j].candidate.snapshot
  {
    TrailsAlwaysGrow(w, steps);
  }

  // ---------------------------------------------------------------- automatic recovery is bounded

  predicate QueryIntent(i: OutboxIntent) {
    i.eventType.ReconciliationQuery?
  }

  function QueryIntents(outbox: seq<OutboxIntent>): nat
    decreases |outbox|
  {
    if outbox == [] then 0
    else QueryIntents(outbox[..|outbox| - 1]) + (if QueryIntent(outbox[|outbox| - 1]) then 1 else 0)
  }

  lemma QueryIntentsGrow(outbox: seq<OutboxIntent>, i: OutboxIntent)
    ensures QueryIntents(outbox + [i]) == QueryIntents(outbox) + (if QueryIntent(i) then 1 else 0)
  {
    assert (outbox + [i])[..|outbox|] == outbox;
  }

  lemma LatestIsNewest(ops: seq<RecoveryOperation>, op: RecoveryOperation)
    ensures Latest(ops + [op], op.sourceAttemptId) == Some(op)
  {
  }

  /** What an applied candidate does to the recovery record and to the queries. */
  lemma CommittedRecovery(s: Snapshot, c: Candidate, f: Facts, now: int)
    requires Vouched(s, c, f, now)
    ensures var s' := Committed(s, c.command, f, c.verdict);
      var a, op := s.action.attemptId, Control(s, f);
      var spent := if c.verdict.status.ReconcileQuery? then 1 else 0;
      && s'.action == s.action
      && (c.verdict.recovery.None? ==> s'.job.recoveries == s.job.recoveries && spent == 0)
      && (c.verdict.recovery.Some? ==>
            && Latest(s'.job.recoveries, a).Some?
            && Latest(s'.job.recoveries, a).value.attemptsUsed == op.attemptsUsed + spent
            && Latest(s'.job.recoveries, a).value.attemptLimit == op.attemptLimit
            && Latest(s'.job.recoveries, a).value.deadline == op.deadline)
      && (spent == 1 ==> op.attemptsUsed < op.attemptLimit)
      && QueryIntents(s.job.outbox) <= QueryIntents(s'.job.outbox) <= QueryIntents(s.job.outbox) + spent
  {
    var v := c.verdict;
    var s' := Committed(s, c.command, f, v);
    if v.recovery.Some? {
      LatestIsNewest(s.job.recoveries, RecordedRecovery(s, c.command, f, v));
      assert s'.job.recoveries == s.job.recoveries + [RecordedRecovery(s, c.command, f, v)];
    }
    assert s'.job.outbox == Routed(s, c.command, v, s.job.outbox);
    if s'.job.outbox != s.job.outbox {
      QueryIntentsGrow(s.job.outbox, s'.job.outbox[|s.job.outbox|]);
    }
  }

  /** Progress of one attempt's automatic recovery between two worlds. */
  ghost predicate Budgeted(op: RecoveryOperation, w0: World, w: World) {
    var spent := Tally(w.log, QueryCommits) - Tally(w0.log, QueryCommits);
    var latest := Latest(w.snapshot.job.recoveries, w.snapshot.action.attemptId);
    && 0 <= spent && w.snapshot.action == w0.snapshot.action
    && latest.Some? && latest.value.attemptLimit == op.attemptLimit && latest.value.deadline == op.deadline
    && latest.value.attemptsUsed == op.attemptsUsed + spent
    && (spent > 0 ==> latest.value.attemptsUsed <= op.attemptLimit)
    && 0 <= QueryIntents(w.snapshot.job.outbox) - QueryIntents(w0.snapshot.job.outbox) <= spent
  }

  lemma BudgetedStep(op: RecoveryOperation, w0: World, w: World, w': World, ch: Change)
    requires Budgeted(op, w0, w) && Explains(w, w', ch)
    ensures Budgeted(op, w0, w')
  {
    StepTallies(w, w', ch, QueryCommits);
    if ch.Apply? {
      CommittedRecovery(w.snapshot, ch.c, ch.f, ch.now);
    }
  }

  lemma {:induction false} BudgetedFrom(op: RecoveryOperation, w0: World, w: World, steps: seq<Step>)
    requires Budgeted(op, w0, w)
    ensures Budgeted(op, w0, Run(w, steps))
    decreases |steps|
  {
    if steps != [] {
      var ch := StepExplained(w, steps[0]);
      BudgetedStep(op, w0, w, Next(w, steps[0]), ch);
      BudgetedFrom(op, w0, Next(w, steps[0]), steps[1..]);
    }
  }

  /** Once an attempt has a recovery record, no later facts can widen its budget. */
  lemma RecordedBudgetHolds(w: World, steps: seq<Step>)
    requires Latest(w.snapshot.job.recoveries, w.snapshot.action.attemptId).Some?
    ensures Budgeted(Latest(w.snapshot.job.recoveries, w.snapshot.action.attemptId).value, w, Run(w, steps))
  {
    BudgetedFrom(Latest(w.snapshot.job.recoveries, w.snapshot.action.attemptId).value, w, w, steps);
  }

  lemma StepKeepsLog(w: World, w': World, ch: Change)
    requires Explains(w, w', ch)
    ensures w.log <= w'.log
  {
  }

  lemma {:induction false} LogKept(w: World, steps: seq<Step>)
    ensures w.log <= Run(w, steps).log
    decreases |steps|
  {
    if steps != [] {
      var ch := StepExplained(w, steps[0]);
      StepKeepsLog(w, Next(w, steps[0]), ch);
      LogKept(Next(w, steps[0]), steps[1..]);
    }
  }

  predicate Recovers(e: Event) {
    e.AppliedEvent? && e.candidate.verdict.recovery.Some?
  }

  /** Event k is the first applied recovery at or after position from. */
  ghost predicate FirstRecovery(log: seq<Event>, from: nat, k: nat) {
    from <= k < |log| && Recovers(log[k]) && forall j :: from <= j < k ==> !Recovers(log[j])
  }

  ghost predicate Unrecorded(w: World) {
    Latest(w.snapshot.job.recoveries, w.snapshot.action.attemptId).None?
  }

  /** A step of an attempt without a record either opens the budget or spends nothing. */
  lemma UnrecordedStep(w: World, w': World, ch: Change)
    requires Unrecorded(w) && Explains(w, w', ch)
    ensures if ch.Apply? && ch.c.verdict.recovery.Some? then
              Budgeted(ch.f.recovery, w, w') && FirstRecovery(w'.log, |w.log|, |w.log|)
              && w'.log[|w.log|].facts == ch.f
            else
              && Unrecorded(w') && w'.snapshot.action == w.snapshot.action
              && Tally(w'.log, QueryCommits) == Tally(w.log, QueryCommits)
              && QueryIntents(w'.snapshot.job.outbox) == QueryIntents(w.snapshot.job.outbox)
              && forall j :: |w.log| <= j < |w'.log| ==> !Recovers(w'.log[j])
  {
    StepTallies(w, w', ch, QueryCommits);
    if ch.Apply? {
      CommittedRecovery(w.snapshot, ch.c, ch.f, ch.now);
    }
  }

  /** Before there is a record, the facts of the first applied recovery fix the budget of
      the whole run, whatever later facts claim; without one no query is ever sent. */
  ghost predicate FirstFixesBudget(w: World, final: World) {
    || (Tally(final.log, QueryCommits) == Tally(w.log, QueryCommits)
        && QueryIntents(final.snapshot.job.outbox) == QueryIntents(w.snapshot.job.outbox))
    || exists k: nat :: FirstRecovery(final.log, |w.log|, k) && Budgeted(final.log[k].facts.recovery, w, final)
  }

  lemma {:induction false} FirstRecoveryFixesBudget(w: World, steps: seq<Step>)
    requires Unrecorded(w)
    ensures FirstFixesBudget(w, Run(w, steps))
    decreases |steps|
  {
    if steps != [] {
      var w' := Next(w, steps[0]);
      var ch := StepExplained(w, steps[0]);
      UnrecordedStep(w, w', ch);
      StepKeepsLog(w, w', ch);
      LogKept(w', steps[1..]);
      if ch.Apply? && ch.c.verdict.recovery.Some? {
        BudgetedFrom(ch.f.recovery, w, w', steps[1..]);
        OpenedBudget(w, w', Run(w', steps[1..]), |w.log|);
      } else {
        FirstRecoveryFixesBudget(w', steps[1..]);
        QuietPrefix(w, w', Run(w', steps[1..]));
      }
    }
  }

  lemma OpenedBudget(w: World, w': World, final: World, k: nat)
    requires w'.log <= final.log && FirstRecovery(w'.log, |w.log|, k)
    requires Budgeted(w'.log[k].facts.recovery, w, final)
    ensures FirstFixesBudget(w, final)
  {
    assert final.log[k] == w'.log[k];
    assert FirstRecovery(final.log, |w.log|, k);
  }

  lemma QuietPrefix(w: World, w': World, final: World)
    requires w.log <= w'.log <= final.log && FirstFixesBudget(w', final)
    requires w'.snapshot.action == w.snapshot.action && Tally(w'.log, QueryCommits) == Tally(w.log, QueryCommits)
    requires QueryIntents(w'.snapshot.job.outbox) == QueryIntents(w.snapshot.job.outbox)
    requires forall j :: |w.log| <= j < |w'.log| ==> !Recovers(w'.log[j])
    ensures FirstFixesBudget(w, final)
  {
    if exists k: nat :: FirstRecovery(final.log, |w'.log|, k) && Budgeted(final.log[k].facts.recovery, w', final) {
      var k: nat :| FirstRecovery(final.log, |w'.log|, k) && Budgeted(final.log[k].facts.recovery, w', final);
      assert forall j :: |w.log| <= j < |w'.log| ==> final.log[j] == w'.log[j];
      assert FirstRecovery(final.log, |w.log|, k);
    }
  }

  // ---------------------------------------------------------------- the checkpoint chain

  predicate Mirrors(j: Job) {
    && j.checkpoint.authoritativeState == j.state && j.checkpoint.stateVersion == j.stateVersion
    && j.checkpoint.fenceToken == j.fenceToken
  }

  predicate Linked(a: Checkpoint, b: Checkpoint) {
    b.previousId == Some(a.checkpointId) && b.checkpointVersion == a.checkpointVersion + 1
      && b.bindings == a.bindings && a.fenceToken <= b.fenceToken <= a.fenceToken + 1
  }

  ghost predicate Chain(cps: seq<Checkpoint>) {
    forall i :: 0 <= i < |cps| - 1 ==> Linked(cps[i], cps[i + 1])
  }

  /** The history and the current checkpoint form one linked chain that mirrors the
      job, one link for every commit since the start. */
  ghost predicate Chained(w0: World, w: World) {
    && Mirrors(w.snapshot.job) && Chain(w.snapshot.history + [w.snapshot.job.checkpoint])
    && w.snapshot.job.stateVersion - w0.snapshot.job.stateVersion == Tally(w.log, Commits) - Tally(w0.log, Commits)
    && |w.snapshot.history| - |w0.snapshot.history| == Tally(w.log, Commits) - Tally(w0.log, Commits)
    && w0.snapshot.history <= w.snapshot.history
  }

  lemma ChainGrows(history: seq<Checkpoint>, a: Checkpoint, b: Checkpoint)
    requires Chain(history + [a]) && Linked(a, b)
    ensures Chain(history + [a] + [b])
  {
    var longer, shorter := history + [a] + [b], history + [a];
    forall i | 0 <= i < |longer| - 1
      ensures Linked(longer[i], longer[i + 1])
    {
      if i < |shorter| - 1 {
        assert longer[i] == shorter[i] && longer[i + 1] == shorter[i + 1];
      }
    }
  }

  lemma CommitLinks(s: Snapshot, c: Candidate, f: Facts)
    requires Mirrors(s.job)
    ensures var s' := Committed(s, c.command, f, c.verdict);
      Mirrors(s'.job) && Linked(s.job.checkpoint, s'.job.checkpoint) && s'.history == s.history + [s.job.checkpoint]
      && s'.job.stateVersion == s.job.stateVersion + 1
  {
  }

  lemma ChainedStep(w0: World, w: World, w': World, ch: Change)
    requires Chained(w0, w) && Explains(w, w', ch)
    ensures Chained(w0, w')
  {
    StepTallies(w, w', ch, Commits);
    if ch.Apply? {
      CommitLinks(w.snapshot, ch.c, ch.f);
    }
    if ch.Apply? || ch.Claim? {
      ChainGrows(w.snapshot.history, w.snapshot.job.checkpoint, w'.snapshot.job.checkpoint);
    }
  }

  /** Over every run the chain stays linked and mirrored; only applied transitions and
      claims extend it, audit-only messages never do. */
  lemma {:induction false} CheckpointsStayChained(w0: World, w: World, steps: seq<Step>)
    requires Chained(w0, w)
    ensures Chained(w0, Run(w, steps))
    decreases |steps|
  {
    if steps != [] {
      var ch := StepExplained(w, steps[0]);
      ChainedStep(w0, w, Next(w, steps[0]), ch);
      CheckpointsStayChained(w0, Next(w, steps[0]), steps[1..]);
    }
  }

  // ---------------------------------------------------------------- blocked messages and the version

  /** The store's own rule is that a message blocked by the approval state only leaves
      evidence. It holds for every barred state except Expired: a gate or a decision on an
      approval that has already expired is applied as a transition every time it is repeated. */
  lemma BlockedGateIsAuditOnlyUnlessExpired(s: Snapshot, commands: Commands, cmd: Command, f: Facts, now: int)
    requires InputsUsable(s, cmd, now) && Permitted(cmd.actor, s.action.tenantId, CONTROL) && BindsJob(s)
    requires cmd.operation.Gate? || (cmd.operation.Decide? && DecisionIdentity(s, cmd, f, now).None?)
    requires Current(s, cmd) && cmd.commandId !in commands
    requires !Terminal(s.job.state) && !Interrupted(s) && Barred(s.approval)
    ensures var c := DecideControl(s, cmd, f, now);
      && Verify(s, commands, c, f, now, false) == (if s.approval.Expired? then Applied else AuditOnly)
      && c.verdict.approval == s.approval && c.verdict.nextState == s.job.state
      && (AfterApply(s, c, f, Verify(s, commands, c, f, now, false)).job.stateVersion == s.job.stateVersion <==>
         !s.approval.Expired?)
  {
  }

  // ---------------------------------------------------------------- the guarantees from a fresh store

  function Fresh(s0: Snapshot): World {
    World(s0, map[], [], [])
  }

  /** The dispatch guarantees together, for a new store on any undispatched and undecided
      snapshot, whatever happens afterwards. */
  lemma DispatchIsSafe(s0: Snapshot, steps: seq<Step>)
    requires !s0.dispatchStarted && s0.decisions == []
    ensures var w := Run(Fresh(s0), steps);
      && Tally(w.log, Effects) <= Tally(w.log, Claims) <= 1
      && (Tally(w.log, Claims) == 1 <==> w.snapshot.dispatchStarted)
      && Conserved(s0, w.snapshot)
      && (forall k :: 0 <= k < |w.log| && w.log[k].ClaimEvent? && s0.action.risk.High? ==>
            && w.log[k].now < s0.request.expiresAt
            && exists d: ApprovalDecision :: d.choice.Approved? && RecordedBefore(s0, w.log, k, d))
  {
    EffectAtMostOnce(s0.action, Fresh(s0), steps);
    ReservationsConserved(s0, Fresh(s0), steps);
    ApprovalPrecedesDispatch(s0, Fresh(s0), steps);
    var w := Run(Fresh(s0), steps);
    forall k | 0 <= k < |w.log| && w.log[k].ClaimEvent? && s0.action.risk.High?
      ensures w.log[k].now < s0.request.expiresAt
      ensures exists d: ApprovalDecision :: d.choice.Approved? && RecordedBefore(s0, w.log, k, d)
    {
      assert ClaimApproved(s0, w.log, k);
    }
  }

  /** Settled units are never rewritten: whatever is settled at some point of a run stays as it is. */
  lemma SettledIsFinal(w: World, steps: seq<Step>, i: nat)
    requires i < |w.snapshot.job.reservations| && w.snapshot.job.reservations[i].status.Settled?
    ensures i < |Run(w, steps).snapshot.job.reservations|
    ensures Run(w, steps).snapshot.job.reservations[i] == w.snapshot.job.reservations[i]
  {
    ReservationsConserved(w.snapshot, w, steps);
    assert Evolved(w.snapshot.job.reservations[i], Run(w, steps).snapshot.job.reservations[i]);
  }

  // ---------------------------------------------------------------- a gate that expired

  function Operator(): Principal {
    Principal("t", "op", "admin", true, [CONTROL])
  }

  /** A running job whose approval has expired. */
  function ExpiredSample(): Snapshot {
    var bindings := ExecutionBindings("r", "p", "v", "t", "q");
    var cp := Checkpoint("t", "j", "s", "a", Text("c0"), 0, Waiting, 0, 0, 0, bindings, "f", [], [], [], None);
    var action := ActionBinding("t", "j", "s", "a", "o", "publish", "tool", "1", Raw("x"), "d", "1", "u", "pol", "1",
      High, Of(bindings));
    Snapshot(Job("t", "j", "s", "a", Waiting, 0, 0, None, None, 0, cp, [], [], [], []), action,
             ApprovalRequest("r", action, 0, 1, 2, [], false, 0, 0, None), Expired, [], [], None, [], false, [], [], [])
  }

  function ExpiredGate(): Command {
    Command(Text("again"), Gate, Operator(), Waiting, 0, 0, None, None, None, None, None, None)
  }

  /** The concrete case: repeating a gate on that job is applied and moves the version. */
  lemma ExpiredGateAdvances(f: Facts)
    ensures var c := DecideControl(ExpiredSample(), ExpiredGate(), f, 3);
      && c.verdict.status == ApprovalIs(Expired)
      && Verify(ExpiredSample(), map[], c, f, 3, false).Applied?
      && AfterApply(ExpiredSample(), c, f, Applied).job.stateVersion == 1
  {
    assert CONTROL in Operator().permissions by { assert Operator().permissions[0] == CONTROL; }
    BlockedGateIsAuditOnlyUnlessExpired(ExpiredSample(), map[], ExpiredGate(), f, 3);
  }
}
