/** Correlation of responses to requests at the MCP protocol boundary. A response carries
    exactly one of a result and an error, as section 5 of the JSON-RPC 2.0 Specification asks. */
module ProtocolBoundary {
  import opened Common
  import opened RemoteEvidence

  datatype ProtocolOutcome =
    | ProtocolResult | ProtocolError | InvalidMessage | UnsupportedVersion | UnknownMethod | CapabilityRejected
    | UnknownResponse | Duplicate | Conflict | OutcomeUnknown | PendingOutcome | PreDispatchAborted | Sent

  datatype BindingStatus = Pending | Completed | PendingReconciliation | InConflict | AbortedPreDispatch

  datatype Request = Request(
    version: string, id: RequestId, methodName: string, paramsValid: bool, serverCapabilities: set<string>,
    operationId: string)

  /** A member of a payload: a text, or some other JSON value by its canonical text. */
  datatype Member = TextMember(text: string) | OtherMember(canonical: string)

  datatype Payload = Payload(claimedOperation: Option<Member>, content: string)

  datatype Response = Response(id: RequestId, result: Option<Payload>, error: Option<Payload>)

  const SUPPORTED: set<string> := {"2026-07-28"}

  const CAPABILITIES: map<string, Option<string>> :=
    map["server/discover" := None, "tools/call" := Some("tools"), "resources/read" := Some("resources"),
      "prompts/get" := Some("prompts")]

  /** The bindings, their status and the fingerprint of the response accepted for each id. */
  datatype Boundary = Boundary(
    bindings: map<RequestId, string>, status: map<RequestId, BindingStatus>, fingerprints: map<RequestId, Response>)

  function Validate(r: Request): Option<ProtocolOutcome> {
    if r.version !in SUPPORTED then Some(ProtocolOutcome.UnsupportedVersion)
    else if r.methodName !in CAPABILITIES then Some(UnknownMethod)
    else if !r.paramsValid then Some(InvalidMessage)
    else if CAPABILITIES[r.methodName].Some? && CAPABILITIES[r.methodName].value !in r.serverCapabilities
      then Some(CapabilityRejected)
    else if r.operationId == "" then Some(InvalidMessage)
    else None
  }

  /** A request is valid exactly in the supported version, for a known method whose capability the
      server has, with valid parameters and an operation. */
  lemma ValidExactly(r: Request)
    ensures Validate(r).None? <==>
      && r.version == "2026-07-28" && r.paramsValid && r.operationId != ""
      && (|| r.methodName == "server/discover" || (r.methodName == "tools/call" && "tools" in r.serverCapabilities)
          || (r.methodName == "resources/read" && "resources" in r.serverCapabilities)
          || (r.methodName == "prompts/get" && "prompts" in r.serverCapabilities))
    ensures (Validate(r) == Some(ProtocolOutcome.UnsupportedVersion) <==> r.version != "2026-07-28")
    ensures Validate(r) == Some(UnknownMethod) <==>
      && r.version == "2026-07-28"
      && r.methodName !in {"server/discover", "tools/call", "resources/read", "prompts/get"}
  {
  }

  /** The first half of dispatch: validate and bind before anything is sent. */
  function Start(b: Boundary, r: Request): (Boundary, ProtocolOutcome) {
    var rejection := Validate(r);
    if rejection.Some? then (b, rejection.value)
    else if r.id in b.bindings then (b, Conflict)
    else (b.(bindings := b.bindings[r.id := r.operationId], status := b.status[r.id := Pending]), Sent)
  }

  function Correlate(b: Boundary, r: Response): (Boundary, ProtocolOutcome) {
    if r.id !in b.bindings then (b, UnknownResponse)
    else if r.result.None? == r.error.None? then (b, InvalidMessage)
    else
      var payload := if r.result.Some? then r.result.value else r.error.value;
      if payload.claimedOperation.Some? && payload.claimedOperation.value != TextMember(b.bindings[r.id]) then
        (b.(status := b.status[r.id := InConflict]), Conflict)
      else if r.id in b.fingerprints then
        if b.fingerprints[r.id] == r then (b, Duplicate) else (b.(status := b.status[r.id := InConflict]), Conflict)
      else
        (b.(fingerprints := b.fingerprints[r.id := r], status := b.status[r.id := Completed]),
         if r.result.Some? then ProtocolResult else ProtocolError)
  }

  /** What the transport did with a request. */
  datatype SendResult = TimeoutBeforeSend | TimeoutAfterPossibleSend | NoResponse | Answered(response: Response)

  /** The second half of dispatch. */
  function Finish(b: Boundary, id: RequestId, s: SendResult): (Boundary, ProtocolOutcome) {
    match s
    case TimeoutBeforeSend => (b.(bindings := b.bindings - {id}, status := b.status - {id}), ProtocolError)
    case TimeoutAfterPossibleSend => (b.(status := b.status[id := PendingReconciliation]), OutcomeUnknown)
    case NoResponse => (b.(status := b.status[id := PendingReconciliation]), PendingOutcome)
    case Answered(response) => Correlate(b, response)
  }

  function AbortBeforeDispatch(b: Boundary, id: RequestId): (Boundary, ProtocolOutcome) {
    if id !in b.bindings then (b, UnknownResponse)
    else if id !in b.status || !b.status[id].Pending? then (b, Conflict)
    else (b.(status := b.status[id := AbortedPreDispatch]), PreDispatchAborted)
  }

  function MarkOutcomeUnknown(b: Boundary, id: RequestId): (Boundary, ProtocolOutcome) {
    if id !in b.bindings then (b, UnknownResponse)
    else if id !in b.status || !(b.status[id].Pending? || b.status[id].PendingReconciliation?) then (b, Conflict)
    else (b.(status := b.status[id := PendingReconciliation]), OutcomeUnknown)
  }

  /** MCPProtocolBoundary. */
  class McpBoundary {
    var bindings: map<RequestId, string>
    var status: map<RequestId, BindingStatus>
    var fingerprints: map<RequestId, Response>

    function Value(): Boundary
      reads this
    {
      Boundary(bindings, status, fingerprints)
    }

    constructor ()
      ensures Value() == Boundary(map[], map[], map[])
    {
      bindings, status, fingerprints := map[], map[], map[];
    }

    method Dispatch(r: Request, s: SendResult) returns (o: ProtocolOutcome)
      modifies this
      ensures var (started, first) := Start(old(Value()), r);
        if first.Sent? then (Value(), o) == Finish(started, r.id, s) else Value() == old(Value()) && o == first
    {
      var rejection := Validate(r);
      if rejection.Some? {
        return rejection.value;
      }
      if r.id in bindings {
        return Conflict;
      }
      bindings := bindings[r.id := r.operationId];
      status := status[r.id := Pending];
      match s {
        case TimeoutBeforeSend =>
          bindings := bindings - {r.id};
          status := status - {r.id};
          return ProtocolError;
        case TimeoutAfterPossibleSend =>
          status := status[r.id := PendingReconciliation];
          return OutcomeUnknown;
        case NoResponse =>
          status := status[r.id := PendingReconciliation];
          return PendingOutcome;
        case Answered(response) =>
          o := Observe(response);
      }
    }

    method Observe(r: Response) returns (o: ProtocolOutcome)
      modifies this
      ensures (Value(), o) == Correlate(old(Value()), r)
    {
      if r.id !in bindings {
        return UnknownResponse;
      }
      if r.result.None? == r.error.None? {
        return InvalidMessage;
      }
      var payload := if r.result.Some? then r.result.value else r.error.value;
      if payload.claimedOperation.Some? && payload.claimedOperation.value != TextMember(bindings[r.id]) {
        status := status[r.id := InConflict];
        return Conflict;
      }
      if r.id in fingerprints {
        if fingerprints[r.id] == r {
          return Duplicate;
        }
        status := status[r.id := InConflict];
        return Conflict;
      }
      fingerprints := fingerprints[r.id := r];
      status := status[r.id := Completed];
      return if r.result.Some? then ProtocolResult else ProtocolError;
    }

    method Abort(id: RequestId) returns (o: ProtocolOutcome)
      modifies this
      ensures (Value(), o) == AbortBeforeDispatch(old(Value()), id)
    {
      if id !in bindings {
        return UnknownResponse;
      }
      if id !in status || !status[id].Pending? {
        return Conflict;
      }
      status := status[id := AbortedPreDispatch];
      return PreDispatchAborted;
    }

    method MarkUnknown(id: RequestId) returns (o: ProtocolOutcome)
      modifies this
      ensures (Value(), o) == MarkOutcomeUnknown(old(Value()), id)
    {
      if id !in bindings {
        return UnknownResponse;
      }
      if id !in status || !(status[id].Pending? || status[id].PendingReconciliation?) {
        return Conflict;
      }
      status := status[id := PendingReconciliation];
      return OutcomeUnknown;
    }
  }

  /** What a send leaves behind: an unsent request is forgotten, one that may have been sent waits
      for reconciliation under its binding. */
  lemma SendLeaves(b: Boundary, r: Request, s: SendResult)
    requires Start(b, r).1.Sent? && !s.Answered?
    ensures var b' := Finish(Start(b, r).0, r.id, s).0;
      var o := Finish(Start(b, r).0, r.id, s).1;
      && b'.fingerprints == b.fingerprints
      && if s.TimeoutBeforeSend? then o.ProtocolError? && b'.bindings == b.bindings && r.id !in b'.status
         else
           && b'.bindings == b.bindings[r.id := r.operationId] && b'.status[r.id].PendingReconciliation?
           && (o.OutcomeUnknown? <==> s.TimeoutAfterPossibleSend?) && (o.PendingOutcome? <==> s.NoResponse?)
  {
  }

  /** A started request is bound to its operation and pending; a bound id or an invalid request
      changes nothing. */
  lemma StartsExactly(b: Boundary, r: Request)
    ensures Start(b, r).1.Sent? <==> Validate(r).None? && r.id !in b.bindings
    ensures Start(b, r).1.Sent? ==>
      && Start(b, r).0.bindings == b.bindings[r.id := r.operationId] && Start(b, r).0.status[r.id].Pending?
    ensures !Start(b, r).1.Sent? ==> Start(b, r).0 == b
  {
  }

  /** Only a pending binding can be aborted, and only an open one can become unknown. */
  lemma MarksExactly(b: Boundary, id: RequestId)
    ensures AbortBeforeDispatch(b, id).1.PreDispatchAborted? <==>
      id in b.bindings && id in b.status && b.status[id].Pending?
    ensures MarkOutcomeUnknown(b, id).1.OutcomeUnknown? <==>
      id in b.bindings && id in b.status && (b.status[id].Pending? || b.status[id].PendingReconciliation?)
    ensures AbortBeforeDispatch(b, id).1.PreDispatchAborted? ==>
      AbortBeforeDispatch(b, id).0.status[id].AbortedPreDispatch?
    ensures MarkOutcomeUnknown(b, id).1.OutcomeUnknown? ==>
      MarkOutcomeUnknown(b, id).0.status[id].PendingReconciliation?
    ensures !AbortBeforeDispatch(b, id).1.PreDispatchAborted? ==> AbortBeforeDispatch(b, id).0 == b
    ensures !MarkOutcomeUnknown(b, id).1.OutcomeUnknown? ==> MarkOutcomeUnknown(b, id).0 == b
  {
  }

  /** A response is judged against the binding and what was accepted before, in this order. */
  lemma CorrelatesExactly(b: Boundary, r: Response)
    ensures var o := Correlate(b, r).1;
      && (o.UnknownResponse? <==> r.id !in b.bindings)
      && (o.InvalidMessage? <==> r.id in b.bindings && (r.result.Some? <==> r.error.Some?))
      && (o.ProtocolResult? <==> Takes(b, r) && r.result.Some?)
      && (o.ProtocolError? <==> Takes(b, r) && r.error.Some?)
      && (o.Duplicate? ==> r.id in b.fingerprints && b.fingerprints[r.id] == r)
      && (o.Conflict? ==> Correlate(b, r).0.status[r.id].InConflict?)
      && (Accepts(o) ==> Correlate(b, r).0.fingerprints == b.fingerprints[r.id := r])
      && (!Accepts(o) ==> Correlate(b, r).0.fingerprints == b.fingerprints)
      && Correlate(b, r).0.bindings == b.bindings
  {
  }

  // ---------------------------------------------------------------- runs

  /** A dispatch is two steps, so that anything may happen while a request is on its way. */
  datatype Step =
    | StartSend(request: Request)
    | EndSend(id: RequestId, result: SendResult)
    | Receive(response: Response)
    | Abort(id: RequestId)
    | MarkUnknown(id: RequestId)

  datatype Event =
    | SentEvent(id: RequestId)
    | UnsentEvent(id: RequestId)
    | AcceptedEvent(id: RequestId, response: Response)

  datatype World = World(boundary: Boundary, underway: set<RequestId>, log: seq<Event>)

  /** Correlation inside a run, with the acceptance it may log. */
  function Hear(w: World, r: Response): World {
    var (b, o) := Correlate(w.boundary, r);
    w.(boundary := b, log := if o.ProtocolResult? || o.ProtocolError? then w.log + [AcceptedEvent(r.id, r)] else w.log)
  }

  function Next(w: World, s: Step): World {
    match s
    case StartSend(r) =>
      var (b, o) := Start(w.boundary, r);
      if o.Sent? then World(b, w.underway + {r.id}, w.log + [SentEvent(r.id)]) else w
    case EndSend(id, result) =>
      if id !in w.underway then w
      else if result.Answered? then Hear(w.(underway := w.underway - {id}), result.response)
      else World(Finish(w.boundary, id, result).0, w.underway - {id},
                 if result.TimeoutBeforeSend? then w.log + [UnsentEvent(id)] else w.log)
    case Receive(r) => Hear(w, r)
    case Abort(id) => w.(boundary := AbortBeforeDispatch(w.boundary, id).0)
    case MarkUnknown(id) => w.(boundary := MarkOutcomeUnknown(w.boundary, id).0)
  }

  function Run(w: World, steps: seq<Step>): World
    decreases |steps|
  {
    if steps == [] then w else Run(Next(w, steps[0]), steps[1..])
  }

  datatype Kind = Sends | Unsends | Acceptances

  predicate Counted(e: Event, k: Kind, id: RequestId) {
    e.id == id
      && (match k case Sends => e.SentEvent? case Unsends => e.UnsentEvent? case Acceptances => e.AcceptedEvent?)
  }

  function Tally(log: seq<Event>, k: Kind, id: RequestId): nat {
    if log == [] then 0 else Tally(log[..|log| - 1], k, id) + (if Counted(log[|log| - 1], k, id) then 1 else 0)
  }

  lemma TallyGrows(log: seq<Event>, e: Event, k: Kind, id: RequestId)
    ensures Tally(log + [e], k, id) == Tally(log, k, id) + (if Counted(e, k, id) then 1 else 0)
  {
    assert (log + [e])[..|log|] == log;
  }

  /** An id is bound exactly while one of its sends is not known to be unsent; at most one
      response is ever accepted for it, and that is the one remembered. */
  ghost predicate Correlated(w: World, id: RequestId) {
    && Tally(w.log, Sends, id) == Tally(w.log, Unsends, id) + (if id in w.boundary.bindings then 1 else 0)
    && (id in w.underway ==> id in w.boundary.bindings)
    && Tally(w.log, Acceptances, id) == (if id in w.boundary.fingerprints then 1 else 0)
    && (forall i :: 0 <= i < |w.log| && w.log[i].AcceptedEvent? && w.log[i].id == id ==>
          id in w.boundary.fingerprints && w.boundary.fingerprints[id] == w.log[i].response)
  }

  lemma TalliesGrow(log: seq<Event>, e: Event, id: RequestId)
    ensures Tally(log + [e], Sends, id) == Tally(log, Sends, id) + (if e == SentEvent(id) then 1 else 0)
    ensures Tally(log + [e], Unsends, id) == Tally(log, Unsends, id) + (if e == UnsentEvent(id) then 1 else 0)
    ensures Tally(log + [e], Acceptances, id) == Tally(log, Acceptances, id)
      + (if e.AcceptedEvent? && e.id == id then 1 else 0)
  {
    TallyGrows(log, e, Sends, id);
    TallyGrows(log, e, Unsends, id);
    TallyGrows(log, e, Acceptances, id);
  }

  /** What a step did that matters to correlation. */
  datatype Change = Nothing | Bound(id: RequestId, operationId: string) | Released(id: RequestId)
    | Took(response: Response)

  ghost predicate Explains(w: World, w': World, ch: Change) {
    var b, b' := w.boundary, w'.boundary;
    match ch
    case Nothing => b'.bindings == b.bindings && b'.fingerprints == b.fingerprints && w'.log == w.log
      && w'.underway <= w.underway
    case Bound(id, operationId) =>
      && id !in b.bindings && b'.bindings == b.bindings[id := operationId] && b'.fingerprints == b.fingerprints
      && w'.log == w.log + [SentEvent(id)] && w'.underway == w.underway + {id}
    case Released(id) =>
      && id in w.underway && b'.bindings == b.bindings - {id} && b'.fingerprints == b.fingerprints
      && w'.log == w.log + [UnsentEvent(id)] && w'.underway == w.underway - {id}
    case Took(r) =>
      && r.id !in b.fingerprints && b'.bindings == b.bindings && b'.fingerprints == b.fingerprints[r.id := r]
      && w'.log == w.log + [AcceptedEvent(r.id, r)] && w'.underway <= w.underway
  }

  lemma HearExplained(w: World, r: Response) returns (ch: Change)
    ensures Explains(w, Hear(w, r), ch)
  {
    var o := Correlate(w.boundary, r).1;
    ch := if o.ProtocolResult? || o.ProtocolError? then Took(r) else Nothing;
  }

  lemma StepExplained(w: World, s: Step) returns (ch: Change)
    ensures Explains(w, Next(w, s), ch)
  {
    match s
    case StartSend(r) =>
      ch := if Start(w.boundary, r).1.Sent? then Bound(r.id, r.operationId) else Nothing;
    case EndSend(id, result) =>
      if id !in w.underway {
        ch := Nothing;
      } else if result.Answered? {
        ch := HearExplained(w.(underway := w.underway - {id}), result.response);
      } else {
        ch := if result.TimeoutBeforeSend? then Released(id) else Nothing;
      }
    case Receive(r) => ch := HearExplained(w, r);
    case _ => ch := Nothing;
  }

  lemma BoundStep(w: World, w': World, ch: Change, id: RequestId)
    requires Correlated(w, id) && Explains(w, w', ch) && ch.Bound?
    ensures Correlated(w', id)
  {
    TalliesGrow(w.log, SentEvent(ch.id), id);
    assert w'.log[|w.log|] == SentEvent(ch.id);
    assert forall i :: 0 <= i < |w.log| ==> w'.log[i] == w.log[i];
  }

  lemma ReleasedStep(w: World, w': World, ch: Change, id: RequestId)
    requires Correlated(w, id) && ch.Released? && Explains(w, w', ch)
    ensures Correlated(w', id)
  {
    TalliesGrow(w.log, UnsentEvent(ch.id), id);
    assert w'.log[|w.log|] == UnsentEvent(ch.id);
    assert forall i :: 0 <= i < |w.log| ==> w'.log[i] == w.log[i];
  }

  lemma TookStep(w: World, w': World, ch: Change, id: RequestId)
    requires Correlated(w, id) && ch.Took? && Explains(w, w', ch)
    ensures Correlated(w', id)
  {
    var r := ch.response;
    TalliesGrow(w.log, AcceptedEvent(r.id, r), id);
    assert w'.log[|w.log|] == AcceptedEvent(r.id, r);
    assert forall i :: 0 <= i < |w.log| ==> w'.log[i] == w.log[i];
  }

  lemma NothingStep(w: World, w': World, ch: Change, id: RequestId)
    requires Correlated(w, id) && ch.Nothing? && Explains(w, w', ch)
    ensures Correlated(w', id)
  {
  }

  lemma CorrelatedStep(w: World, w': World, ch: Change, id: RequestId)
    requires Correlated(w, id) && Explains(w, w', ch)
    ensures Correlated(w', id)
  {
    match ch
    case Nothing => NothingStep(w, w', ch, id);
    case Bound(_, _) => BoundStep(w, w', ch, id);
    case Released(_) => ReleasedStep(w, w', ch, id);
    case Took(_) => TookStep(w, w', ch, id);
  }

  lemma {:induction false} AlwaysCorrelated(w: World, steps: seq<Step>, id: RequestId)
    requires Correlated(w, id)
    ensures Correlated(Run(w, steps), id)
    decreases |steps|
  {
    if steps != [] {
      var ch := StepExplained(w, steps[0]);
      CorrelatedStep(w, Next(w, steps[0]), ch, id);
      AlwaysCorrelated(Next(w, steps[0]), steps[1..], id);
    }
  }

  const Empty := World(Boundary(map[], map[], map[]), {}, [])

  /** In any run a request id is accepted at most once, and it can be sent again exactly when
      every earlier send of it was proven unsent. */
  lemma SentAndAcceptedOnce(steps: seq<Step>, r: Request)
    requires Validate(r).None?
    ensures var w := Run(Empty, steps);
      && Tally(w.log, Acceptances, r.id) <= 1
      && (Start(w.boundary, r).1.Sent? <==> Tally(w.log, Sends, r.id) == Tally(w.log, Unsends, r.id))
  {
    AlwaysCorrelated(Empty, steps, r.id);
  }

  /** Once a response was accepted, every later one for that id is a duplicate of it, a
      conflict, malformed, or unknown; a status of conflict is no exception to that. */
  lemma AcceptedIsFinal(steps: seq<Step>, i: nat, r: Response)
    requires i < |Run(Empty, steps).log| && Run(Empty, steps).log[i].AcceptedEvent?
      && r.id == Run(Empty, steps).log[i].id
    ensures var w := Run(Empty, steps);
      var o := Correlate(w.boundary, r).1;
      && (o.Duplicate? || o.Conflict? || o.InvalidMessage? || o.UnknownResponse?)
      && (o.Duplicate? ==> r == w.log[i].response)
  {
    AlwaysCorrelated(Empty, steps, r.id);
  }

  predicate Accepts(o: ProtocolOutcome) {
    o.ProtocolResult? || o.ProtocolError?
  }

  /** A response that a bound and unanswered request would take. */
  predicate Takes(b: Boundary, r: Response) {
    && r.id in b.bindings && r.id !in b.fingerprints && (r.result.Some? <==> r.error.None?)
    && var payload := if r.result.Some? then r.result.value else if r.error.Some? then r.error.value
       else Payload(None, "");
       payload.claimedOperation.None? || payload.claimedOperation.value == TextMember(b.bindings[r.id])
  }

  /** Aborting before dispatch does not close the request to answers: a response is accepted
      after the abort exactly when it would have been before, and the status is then completed. */
  lemma AbortedStillAccepts(b: Boundary, r: Response)
    requires AbortBeforeDispatch(b, r.id).1.PreDispatchAborted?
    ensures var b' := AbortBeforeDispatch(b, r.id).0;
      && Correlate(b', r).1 == Correlate(b, r).1
      && (Accepts(Correlate(b', r).1) <==> Takes(b, r))
      && (Takes(b, r) ==> Correlate(b', r).0.status[r.id].Completed?)
  {
  }

  /** The concrete case: a request that was aborted as never dispatched takes a result. */
  lemma AbortedRequestAnswered()
    ensures var r := Request("2026-07-28", NumberId(1), "server/discover", true, {}, "op");
      var started := Start(Boundary(map[], map[], map[]), r).0;
      var (aborted, o) := AbortBeforeDispatch(started, r.id);
      o.PreDispatchAborted? && Correlate(aborted, Response(r.id, Some(Payload(None, "{}")), None)).1.ProtocolResult?
  {
  }
}

/** Generation-scoped correlation for reconnecting transports. */
module RemoteSession {
  import opened Common
  import opened RemoteEvidence

  datatype Registry = Registry(
    generation: nat, bindings: map<RemoteRequestKey, RemoteRequestBinding>, completed: set<RemoteRequestKey>)

  predicate MayBind(r: Registry, b: RemoteRequestBinding) {
    b.key.generation == r.generation && b.key !in r.bindings
  }

  function CorrelateKey(r: Registry, key: RemoteRequestKey): Correlation {
    if key.generation != r.generation
      then Correlation(StaleGeneration, if key in r.bindings then Some(r.bindings[key]) else None)
    else if key !in r.bindings then Correlation(UnknownRequest, None)
    else if key in r.completed then Correlation(AlreadyCompleted, Some(r.bindings[key]))
    else Correlation(Matched, Some(r.bindings[key]))
  }

  /** A key is matched exactly when it is of the current generation, bound and not yet completed;
      the answer names the bound attempt whenever there is one. */
  lemma CorrelatesKeyExactly(r: Registry, key: RemoteRequestKey)
    ensures var c := CorrelateKey(r, key);
      && (c.outcome.Matched? <==> key.generation == r.generation && key in r.bindings && key !in r.completed)
      && (c.outcome.StaleGeneration? <==> key.generation != r.generation)
      && (c.outcome.AlreadyCompleted? <==> key.generation == r.generation && key in r.bindings && key in r.completed)
      && c.binding == (if key in r.bindings then Some(r.bindings[key]) else None)
  {
  }

  /** RemoteCorrelationRegistry. */
  class CorrelationRegistry {
    var generation: nat
    var bindings: map<RemoteRequestKey, RemoteRequestBinding>
    var completed: set<RemoteRequestKey>

    function Value(): Registry
      reads this
    {
      Registry(generation, bindings, completed)
    }

    constructor ()
      ensures Value() == Registry(0, map[], {})
    {
      generation, bindings, completed := 0, map[], {};
    }

    method BeginGeneration() returns (g: nat)
      modifies this
      ensures g == generation && Value() == old(Value()).(generation := old(generation) + 1)
    {
      generation := generation + 1;
      return generation;
    }

    method Bind(b: RemoteRequestBinding) returns (bound: bool)
      modifies this
      ensures bound == MayBind(old(Value()), b)
      ensures Value() == if bound then old(Value()).(bindings := old(bindings)[b.key := b]) else old(Value())
    {
      if b.key.generation != generation || b.key in bindings {
        return false;
      }
      bindings := bindings[b.key := b];
      return true;
    }

    method CorrelateResponse(key: RemoteRequestKey) returns (c: Correlation)
      modifies this
      ensures c == CorrelateKey(old(Value()), key)
      ensures Value() == if c.outcome.Matched? then old(Value()).(completed := old(completed) + {key}) else old(Value())
    {
      if key.generation != generation {
        return Correlation(StaleGeneration, if key in bindings then Some(bindings[key]) else None);
      }
      if key !in bindings {
        return Correlation(UnknownRequest, None);
      }
      if key in completed {
        return Correlation(AlreadyCompleted, Some(bindings[key]));
      }
      completed := completed + {key};
      return Correlation(Matched, Some(bindings[key]));
    }
  }

  datatype Step = Begin | BindStep(binding: RemoteRequestBinding) | CorrelateStep(key: RemoteRequestKey)

  /** The registry and every match it reported with the generation that was current. */
  datatype World = World(registry: Registry, matches: seq<(RemoteRequestBinding, nat)>)

  function Next(w: World, s: Step): World {
    match s
    case Begin => w.(registry := w.registry.(generation := w.registry.generation + 1))
    case BindStep(b) =>
      if MayBind(w.registry, b) then w.(registry := w.registry.(bindings := w.registry.bindings[b.key := b])) else w
    case CorrelateStep(key) =>
      var c := CorrelateKey(w.registry, key);
      if c.outcome.Matched? && c.binding.Some?
      then World(w.registry.(completed := w.registry.completed + {key}), w.matches
        + [(c.binding.value, w.registry.generation)])
      else w
  }

  function Run(w: World, steps: seq<Step>): World
    decreases |steps|
  {
    if steps == [] then w else Run(Next(w, steps[0]), steps[1..])
  }

  /** Each key is matched at most once, to the attempt bound to it, while its own generation was
      current; and bindings are never rewritten. */
  ghost predicate MatchedOnce(w: World) {
    && (forall k :: k in w.registry.bindings ==>
          w.registry.bindings[k].key == k && k.generation <= w.registry.generation)
    && (forall i :: 0 <= i < |w.matches| ==>
          && w.matches[i].0.key in w.registry.completed
             && w.matches[i].0.key.generation == w.matches[i].1 <= w.registry.generation
          && w.matches[i].0.key in w.registry.bindings && w.registry.bindings[w.matches[i].0.key] == w.matches[i].0)
    && (forall i, j :: 0 <= i < j < |w.matches| ==>
          w.matches[i].0.key != w.matches[j].0.key && w.matches[i].1 <= w.matches[j].1)
  }

  lemma {:induction false} KeysMatchOnce(w: World, steps: seq<Step>)
    requires MatchedOnce(w)
    ensures MatchedOnce(Run(w, steps))
    decreases |steps|
  {
    if steps != [] {
      assert MatchedOnce(Next(w, steps[0]));
      KeysMatchOnce(Next(w, steps[0]), steps[1..]);
    }
  }

  /** After a newer generation began, no key of an older one is ever matched again. */
  lemma {:induction false} OldGenerationsAreDead(w: World, steps: seq<Step>)
    requires MatchedOnce(w)
    ensures |w.matches| <= |Run(w, steps).matches| && Run(w, steps).matches[..|w.matches|] == w.matches
    ensures forall i :: |w.matches| <= i < |Run(w, steps).matches| ==>
      Run(w, steps).matches[i].0.key.generation >= w.registry.generation
    decreases |steps|
  {
    if steps != [] {
      var w' := Next(w, steps[0]);
      assert MatchedOnce(w');
      OldGenerationsAreDead(w', steps[1..]);
      KeysMatchOnce(w', steps[1..]);
      var final := Run(w', steps[1..]);
      forall i | |w.matches| <= i < |final.matches|
        ensures final.matches[i].0.key.generation >= w.registry.generation
      {
        if i < |w'.matches| {
          assert final.matches[i] == final.matches[..|w'.matches|][i] == w'.matches[i];
        }
      }
      assert final.matches[..|w.matches|] == final.matches[..|w'.matches|][..|w.matches|];
    }
  }
}
