/** The agentic coordinator flow: hand each call to its worker tool, check each
    result, compose the final response, and tell the observers (`coordinator_flow.rs`). */
module CoordinatorFlow {
  import opened Wrappers
  import opened Text
  import opened Delegation
  import opened WorkerTools

  datatype WorkerToolCall = WorkerToolCall(
    toolId: string, goal: string, contextPackageRef: string, contextScope: HandoffContextScope,
    permissionsProfile: string, deadline: string, returnPolicy: HandoffReturnPolicy)

  datatype RunRequest = RunRequest(
    runId: string, coordinatorAgentId: string, finalizerAgentId: string, content: string,
    toolCalls: seq<WorkerToolCall>)

  datatype Handle = Handle(subtaskId: string, targetAgent: string)

  datatype Invocation = Invocation(envelope: SubtaskEnvelope, handle: Handle)

  datatype CoordinatorRun = CoordinatorRun(
    invocations: seq<Invocation>, workerResults: seq<SubtaskResultEnvelope>, finalResponse: FinalResponse)

  datatype EventName =
    | CoordinatorStarted | HandoffStarted | ResultReceived | FinalResponseCreated | CoordinatorCompleted

  datatype FlowEvent = FlowEvent(runId: string, workerId: string, name: EventName)

  function CorrelationId(runId: string, toolId: string, index: nat): string {
    runId + "::" + toolId + "::" + Decimal(index)
  }

  function InvocationFor(req: RunRequest, index: nat): InvocationRequest
    requires index < |req.toolCalls|
  {
    var call := req.toolCalls[index];
    InvocationRequest(
      req.runId, CorrelationId(req.runId, call.toolId, index), req.coordinatorAgentId, call.toolId, call.goal,
      call.contextPackageRef, call.contextScope, call.permissionsProfile, call.deadline, call.returnPolicy)
  }

  // ----- Ids -----

  /** No two handoffs of a run share a correlation id, whatever their tools are called. */
  lemma CorrelationIdsDistinct(runId: string, tool: string, index: nat, tool': string, index': nat)
    ensures CorrelationId(runId, tool, index) == CorrelationId(runId, tool', index') <==>
      tool == tool' && index == index'
  {
    var a, a' := runId + "::" + tool + ":", runId + "::" + tool' + ":";
    assert CorrelationId(runId, tool, index) == a + [':'] + Decimal(index);
    assert CorrelationId(runId, tool', index') == a' + [':'] + Decimal(index');
    if CorrelationId(runId, tool, index) == CorrelationId(runId, tool', index') {
      NumberedSuffix(a, index, a', index', ':');
      assert tool == a[|runId| + 2..|a| - 1] && tool' == a'[|runId| + 2..|a'| - 1];
    }
  }

  lemma SubtaskIdsFollowTools(runId: string, tool: string, tool': string)
    ensures SubtaskId(runId, tool) == SubtaskId(runId, tool') <==> tool == tool'
  {
    assert tool == SubtaskId(runId, tool)[|runId| + 2..];
    assert tool' == SubtaskId(runId, tool')[|runId| + 2..];
  }

  ghost predicate DistinctToolIds(calls: seq<WorkerToolCall>) {
    forall i, j :: 0 <= i < j < |calls| ==> calls[i].toolId != calls[j].toolId
  }

  // ----- The language of a run's events -----

  ghost function RoundNames(n: nat): seq<EventName> {
    if n == 0 then [] else RoundNames(n - 1) + [HandoffStarted, ResultReceived]
  }

  /** started (handoff result)^n final completed */
  ghost function Word(n: nat): seq<EventName> {
    [CoordinatorStarted] + RoundNames(n) + [FinalResponseCreated, CoordinatorCompleted]
  }

  ghost function Names(events: seq<FlowEvent>): (names: seq<EventName>)
    ensures |names| == |events| && forall i :: 0 <= i < |events| ==> names[i] == events[i].name
  {
    seq(|events|, i requires 0 <= i < |events| => events[i].name)
  }

  lemma {:induction false} RoundNamesPrefix(i: nat, n: nat)
    requires i <= n
    ensures |RoundNames(n)| == 2 * n && RoundNames(i) <= RoundNames(n)
    ensures i < n ==> RoundNames(i) + [HandoffStarted] <= RoundNames(n)
  {
    if n > 0 {
      if i < n { RoundNamesPrefix(i, n - 1); } else { RoundNamesPrefix(n - 1, n - 1); }
    }
  }

  /** A run cut short leaves a proper prefix of the word. */
  lemma CutShort(i: nat, n: nat)
    requires i <= n
    ensures [CoordinatorStarted] + RoundNames(i) < Word(n)
    ensures i < n ==> [CoordinatorStarted] + RoundNames(i) + [HandoffStarted] < Word(n)
  {
    RoundNamesPrefix(i, n);
    RoundNamesPrefix(i, i);
  }

  // What observers are told about the first rounds, in full.
  ghost function RoundEvents(req: RunRequest, results: seq<SubtaskResultEnvelope>): seq<FlowEvent> {
    if results == [] then []
    else
      var last := results[|results| - 1];
      RoundEvents(req, results[..|results| - 1]) +
      [FlowEvent(req.runId, req.coordinatorAgentId, HandoffStarted),
          FlowEvent(req.runId, last.sourceAgentId, ResultReceived)]
  }

  ghost function OpeningEvents(req: RunRequest, results: seq<SubtaskResultEnvelope>): seq<FlowEvent> {
    [FlowEvent(req.runId, req.coordinatorAgentId, CoordinatorStarted)] + RoundEvents(req, results)
  }

  ghost function ClosingEvents(req: RunRequest): seq<FlowEvent> {
    [FlowEvent(req.runId, req.finalizerAgentId, FinalResponseCreated),
        FlowEvent(req.runId, req.finalizerAgentId, CoordinatorCompleted)]
  }

  lemma {:induction false} RoundEventNames(req: RunRequest, results: seq<SubtaskResultEnvelope>)
    ensures Names(RoundEvents(req, results)) == RoundNames(|results|)
  {
    if results != [] { RoundEventNames(req, results[..|results| - 1]); }
  }

  lemma NamesAppend(a: seq<FlowEvent>, b: seq<FlowEvent>)
    ensures Names(a + b) == Names(a) + Names(b)
  {
  }

  lemma OpeningNames(req: RunRequest, results: seq<SubtaskResultEnvelope>)
    ensures Names(OpeningEvents(req, results)) == [CoordinatorStarted] + RoundNames(|results|)
  {
    hide RoundEvents, RoundNames;
    var started := [FlowEvent(req.runId, req.coordinatorAgentId, CoordinatorStarted)];
    RoundEventNames(req, results);
    NamesAppend(started, RoundEvents(req, results));
    assert Names(started) == [CoordinatorStarted];
  }

  lemma WholeNames(req: RunRequest, results: seq<SubtaskResultEnvelope>)
    ensures Names(OpeningEvents(req, results) + ClosingEvents(req)) == Word(|results|)
  {
    hide OpeningEvents, RoundNames;
    OpeningNames(req, results);
    NamesAppend(OpeningEvents(req, results), ClosingEvents(req));
    assert Names(ClosingEvents(req)) == [FinalResponseCreated, CoordinatorCompleted];
  }

  /** Where a failing call leaves the observers: short of the whole word. */
  lemma FailedCallNames(
    before: seq<FlowEvent>, req: RunRequest, results: seq<SubtaskResultEnvelope>, n: nat, e: FlowEvent)
    requires |results| < n && e.name == HandoffStarted
    ensures var told := before + OpeningEvents(req, results);
      && Names(told[|before|..]) < Word(n)
      && Names((told + [e])[|before|..]) < Word(n)
      && |told + [e]| < |before| + 1 + 2 * n
  {
    OpeningNames(req, results);
    NamesAppend(OpeningEvents(req, results), [e]);
    assert Names([e]) == [HandoffStarted];
    CutShort(|results|, n);
    RoundNamesPrefix(|results|, |results|);
    var told := before + OpeningEvents(req, results);
    assert told[|before|..] == OpeningEvents(req, results);
    assert (told + [e])[|before|..] == OpeningEvents(req, results) + [e];
  }

  // ----- The flow -----

  /** What a run has gathered from its first calls: one authorised handoff per call,
      and a result that mirrors it. */
  ghost predicate Gathered(
    registry: Option<Registry>, req: RunRequest, invocations: seq<Invocation>, results: seq<SubtaskResultEnvelope>,
    n: nat)
  {
    && n <= |req.toolCalls| && |invocations| == |results| == n
    && forall i :: 0 <= i < n ==>
      BuildHandoff(registry, InvocationFor(req, i)) == Ok(invocations[i].envelope) &&
          Mirrors(invocations[i].envelope, results[i])
  }

  ghost predicate GatheredPairs(invocations: seq<Invocation>, results: seq<SubtaskResultEnvelope>, pairs: seq<Pair>) {
    && |pairs| == |invocations| == |results|
    && forall i :: 0 <= i < |pairs| ==> pairs[i] == (invocations[i].envelope, results[i])
  }

  lemma GatheredPairsValid(
    registry: Option<Registry>, req: RunRequest, invocations: seq<Invocation>, results: seq<SubtaskResultEnvelope>,
    pairs: seq<Pair>)
    requires registry.Some? && Gathered(registry, req, invocations, results, |req.toolCalls|)
    requires GatheredPairs(invocations, results, pairs)
    ensures PairsValid(registry.value, pairs)
    ensures DistinctSubtasks(pairs) <==> DistinctToolIds(req.toolCalls)
    ensures forall k :: 0 <= k < |pairs| ==> pairs[k].1.subtaskId == SubtaskId(req.runId, req.toolCalls[k].toolId)
  {
    forall i | 0 <= i < |pairs|
      ensures ValidateHandoff(registry.value, pairs[i].0).Ok? && Mirrors(pairs[i].0, pairs[i].1)
      ensures pairs[i].1.subtaskId == SubtaskId(req.runId, req.toolCalls[i].toolId)
    {
      BuiltHandoffStaysValid(registry, InvocationFor(req, i));
    }
    forall i, j | 0 <= i < j < |pairs|
      ensures pairs[i].1.subtaskId == pairs[j].1.subtaskId <==> req.toolCalls[i].toolId == req.toolCalls[j].toolId
    {
      SubtaskIdsFollowTools(req.runId, req.toolCalls[i].toolId, req.toolCalls[j].toolId);
    }
  }

  /** A handoff carries its call from the coordinator to the agent configured for the
      tool, along a route the configuration permits. */
  ghost predicate Carries(c: RoutingConfig, req: RunRequest, i: nat, e: SubtaskEnvelope)
    requires i < |req.toolCalls|
  {
    var call := req.toolCalls[i];
    exists tool ::
      && ToolConfigured(c, call.toolId, tool)
      && RoutePermitted(c, req.coordinatorAgentId, tool.targetAgentId)
      && (e.sourceAgentId, e.targetAgent, e.toolId) == (req.coordinatorAgentId, tool.targetAgentId, call.toolId)
      && (e.parentRunId, e.subtaskId) == (req.runId, req.runId + "::" + call.toolId)
      && e.correlationId == req.runId + "::" + call.toolId + "::" + Decimal(i)
      && (e.goal, e.deadline, e.permissionsProfile) == (call.goal, call.deadline, call.permissionsProfile)
      && (e.contextPackageRef, e.contextScope) == (call.contextPackageRef, call.contextScope)
      && (e.returnPolicy, e.expectedOutputSchema) == (call.returnPolicy, tool.outputSchemaRef)
  }

  // The run keeps to the configuration its registry was built from.
  ghost predicate FollowsConfiguration(c: RoutingConfig, req: RunRequest, run: CoordinatorRun) {
    && FinalizerNamed(c, run.finalResponse.finalizerAgentId)
    && |run.invocations| == |req.toolCalls|
    && forall i :: 0 <= i < |req.toolCalls| ==> Carries(c, req, i, run.invocations[i].envelope)
  }

  /** Everything a completed run promises. */
  ghost predicate Accomplished(registry: Option<Registry>, req: RunRequest, run: CoordinatorRun) {
    && registry.Some? && Gathered(registry, req, run.invocations, run.workerResults, |req.toolCalls|)
    && DistinctToolIds(req.toolCalls) && req.toolCalls != []
    && run.finalResponse.runId == req.runId && run.finalResponse.content == req.content
    && run.finalResponse.finalizerAgentId == req.finalizerAgentId
    && |run.finalResponse.sources| == |req.toolCalls|
    && (forall c :: Configured(c, registry.value) ==> FollowsConfiguration(c, req, run))
    && forall i :: 0 <= i < |req.toolCalls| ==>
      run.finalResponse.sources[i] ==
        Source(req.toolCalls[i].toolId, req.runId + "::" + req.toolCalls[i].toolId,
            run.workerResults[i].outputArtifactRef)
  }

  /** All that can still go wrong once every result is in: no content, the wrong
      finalizer, or a tool called twice. */
  ghost predicate ComposeFault(registry: Option<Registry>, req: RunRequest, e: FlowError) {
    if Blank(req.content) then e == EmptyContent
    else if !MayFinalize(registry, req.finalizerAgentId) then e == FinalizerFault(registry, req.finalizerAgentId)
    else exists i :: 0 <= i < |req.toolCalls| && RepeatedCall(req, i, e)
  }

  // The first tool to be called again is called here, and the error names its subtask.
  ghost predicate RepeatedCall(req: RunRequest, i: nat, e: FlowError)
    requires i < |req.toolCalls|
  {
    && DistinctToolIds(req.toolCalls[..i])
    && e == DuplicateSource(SubtaskId(req.runId, req.toolCalls[i].toolId))
    && exists j :: 0 <= j < i && req.toolCalls[j].toolId == req.toolCalls[i].toolId
  }

  lemma RepeatedPairIsCall(req: RunRequest, pairs: seq<Pair>, i: nat, e: FlowError)
    requires |pairs| == |req.toolCalls| && i < |pairs| && RepeatAt(pairs, i, e)
    requires forall k :: 0 <= k < |pairs| ==> pairs[k].1.subtaskId == SubtaskId(req.runId, req.toolCalls[k].toolId)
    ensures RepeatedCall(req, i, e)
  {
    hide SubtaskId;
    var j :| 0 <= j < i && pairs[j].1.subtaskId == pairs[i].1.subtaskId;
    SubtaskIdsFollowTools(req.runId, req.toolCalls[j].toolId, req.toolCalls[i].toolId);
    var front := req.toolCalls[..i];
    forall a, b | 0 <= a < b < i ensures front[a].toolId != front[b].toolId {
      assert pairs[..i][a] == pairs[a] && pairs[..i][b] == pairs[b];
    }
  }

  // What composition answers for gathered results is a fault of the run.
  lemma FaultOfRun(registry: Registry, req: RunRequest, pairs: seq<Pair>, e: FlowError)
    requires PairsValid(registry, pairs) && FirstFault(registry, pairs, e) && |pairs| == |req.toolCalls|
    requires forall k :: 0 <= k < |pairs| ==> pairs[k].1.subtaskId == SubtaskId(req.runId, req.toolCalls[k].toolId)
    ensures exists i :: 0 <= i < |req.toolCalls| && RepeatedCall(req, i, e)
  {
    hide PairsValid, RepeatAt, RepeatedCall, SubtaskId;
    OnlyRepeatsAtFault(registry, pairs, e);
    var i :| 0 <= i < |pairs| && RepeatAt(pairs, i, e);
    RepeatedPairIsCall(req, pairs, i, e);
  }

  lemma HandoffCarries(c: RoutingConfig, reg: Registry, req: RunRequest, i: nat, e: SubtaskEnvelope)
    requires i < |req.toolCalls| && Configured(c, reg) && BuildHandoff(Some(reg), InvocationFor(req, i)) == Ok(e)
    ensures Carries(c, req, i, e)
  {
    hide BuildHandoff, RoutePermitted;
    var call := req.toolCalls[i];
    UnknownToolRefused(c, reg, InvocationFor(req, i));
    var tool :| ToolConfigured(c, call.toolId, tool);
    HandoffAuthorised(c, reg, InvocationFor(req, i), tool);
  }

  lemma Accomplishment(registry: Option<Registry>, req: RunRequest, run: CoordinatorRun, pairs: seq<Pair>)
    requires registry.Some? && req.toolCalls != []
    requires Gathered(registry, req, run.invocations, run.workerResults, |req.toolCalls|)
    requires GatheredPairs(run.invocations, run.workerResults, pairs)
    requires DistinctToolIds(req.toolCalls) && MayFinalize(registry, req.finalizerAgentId)
    requires run.finalResponse == FinalResponse(req.runId, req.finalizerAgentId, req.content,
      seq(|pairs|, i requires 0 <= i < |pairs| => SourceOf(pairs[i].1)))
    requires forall k :: 0 <= k < |pairs| ==> pairs[k].1.subtaskId == SubtaskId(req.runId, req.toolCalls[k].toolId)
    ensures Accomplished(registry, req, run)
  {
    hide BuildHandoff, Carries, Configured, MayFinalize, FinalizerNamed;
    forall c | Configured(c, registry.value) ensures FollowsConfiguration(c, req, run) {
      FinalizerFollowsConfiguration(c, registry.value, req.finalizerAgentId);
      forall i | 0 <= i < |req.toolCalls| ensures Carries(c, req, i, run.invocations[i].envelope) {
        HandoffCarries(c, registry.value, req, i, run.invocations[i].envelope);
      }
    }
    forall i | 0 <= i < |req.toolCalls|
      ensures run.finalResponse.sources[i] ==
        Source(req.toolCalls[i].toolId, req.runId + "::" + req.toolCalls[i].toolId,
            run.workerResults[i].outputArtifactRef)
    {
      SameTool(registry, req, i, run.invocations[i].envelope, run.workerResults[i]);
    }
  }

  // A result that mirrors a call's handoff is about the tool called.
  lemma SameTool(registry: Option<Registry>, req: RunRequest, i: nat, e: SubtaskEnvelope, r: SubtaskResultEnvelope)
    requires i < |req.toolCalls| && BuildHandoff(registry, InvocationFor(req, i)) == Ok(e) && Mirrors(e, r)
    ensures r.toolId == req.toolCalls[i].toolId
  {
  }

  // ----- What the delegator and the workers answer -----

  /** The runtime's side of a flow: its registry, the delegator and the workers, each
      answering as it likes and remembering anything in `W`. */
  datatype CoordinatorConfig<!W> = CoordinatorConfig(
    registry: Option<Registry>,
    startSubtask: (W, SubtaskEnvelope) -> (W, Result<Handle, string>),
    workerResult: (W, Invocation) -> (W, Result<SubtaskResultEnvelope, string>))

  type Answered = (Invocation, SubtaskResultEnvelope)

  function HandoffAnswer<W>(
    cfg: CoordinatorConfig<W>, w: W, req: InvocationRequest): (W, Result<Invocation, FlowError>)
  {
    var handoff := BuildHandoff(cfg.registry, req);
    if handoff.Err? then (w, Err(handoff.error))
    else
      var (w1, handle) := cfg.startSubtask(w, handoff.value);
      (w1, if handle.Err? then Err(DelegatorFailed(handle.error)) else Ok(Invocation(handoff.value, handle.value)))
  }

  function CallAnswer<W>(cfg: CoordinatorConfig<W>, req: RunRequest, w: W, index: nat): (W, Result<Answered, FlowError>)
    requires index < |req.toolCalls|
  {
    var (w1, started) := HandoffAnswer(cfg, w, InvocationFor(req, index));
    if started.Err? then (w1, Err(started.error))
    else
      var (w2, result) := cfg.workerResult(w1, started.value);
      if result.Err? then (w2, Err(ResultProviderFailed(result.error)))
      else
        var checked := ValidateResult(started.value.envelope, result.value);
        (w2, if checked.Err? then Err(checked.error) else Ok((started.value, result.value)))
  }

  /** What the first `n` calls come to; the first that fails ends them. */
  function Answers<W>(cfg: CoordinatorConfig<W>, req: RunRequest, w: W, n: nat): (W, Result<seq<Answered>, FlowError>)
    requires n <= |req.toolCalls|
  {
    if n == 0 then (w, Ok([]))
    else
      var (w1, before) := Answers(cfg, req, w, n - 1);
      if before.Err? then (w1, before)
      else
        var (w2, last) := CallAnswer(cfg, req, w1, n - 1);
        (w2, if last.Err? then Err(last.error) else Ok(before.value + [last.value]))
  }

  /** A call is answered exactly if its handoff is authorised, the delegator takes it, the
      worker answers, and the answer mirrors the handoff; otherwise the first of these to
      fail is the error, and nobody after it was asked. */
  lemma CallTells<W>(cfg: CoordinatorConfig<W>, req: RunRequest, w: W, index: nat)
    requires index < |req.toolCalls|
    ensures var (w', r) := CallAnswer(cfg, req, w, index);
      match BuildHandoff(cfg.registry, InvocationFor(req, index))
      case Err(e) => w' == w && r == Err(e)
      case Ok(envelope) =>
        match cfg.startSubtask(w, envelope)
        case (w1, Err(message)) => w' == w1 && r == Err(DelegatorFailed(message))
        case (w1, Ok(handle)) =>
          var invocation := Invocation(envelope, handle);
          match cfg.workerResult(w1, invocation)
          case (w2, Err(message)) => w' == w2 && r == Err(ResultProviderFailed(message))
          case (w2, Ok(result)) =>
            && w' == w2 && (r.Ok? <==> Mirrors(envelope, result))
            && (r.Ok? ==> r.value == (invocation, result))
            && (r.Err? ==> ValidateResult(envelope, result) == Err(r.error))
  {
    hide BuildHandoff, ValidateResult, Mirrors;
    var started := HandoffAnswer(cfg, w, InvocationFor(req, index));
    if started.1.Ok? {
      var result := cfg.workerResult(started.0, started.1.value).1;
      if result.Ok? { ValidResultMirrors(started.1.value.envelope, result.value); }
    }
  }

  /** All calls are answered exactly if each is, in the memory those before it left. */
  lemma {:induction false} AnsweredOneByOne<W>(cfg: CoordinatorConfig<W>, req: RunRequest, w: W, n: nat)
    requires n <= |req.toolCalls|
    ensures Answers(cfg, req, w, n).1.Ok? <==>
      forall i :: 0 <= i < n ==> CallAnswer(cfg, req, Answers(cfg, req, w, i).0, i).1.Ok?
  {
    hide CallAnswer;
    if n > 0 { AnsweredOneByOne(cfg, req, w, n - 1); }
  }

  lemma {:induction false} FailureStays<W>(cfg: CoordinatorConfig<W>, req: RunRequest, w: W, i: nat, n: nat)
    requires i <= n <= |req.toolCalls| && Answers(cfg, req, w, i).1.Err?
    ensures Answers(cfg, req, w, n) == Answers(cfg, req, w, i)
  {
    if i < n { FailureStays(cfg, req, w, i, n - 1); }
  }

  lemma NoAnswers<W>(cfg: CoordinatorConfig<W>, req: RunRequest, w: W)
    ensures Answers(cfg, req, w, 0) == (w, Ok([]))
  {
  }

  ghost predicate AnswersAre(
    answers: seq<Answered>, invocations: seq<Invocation>, results: seq<SubtaskResultEnvelope>)
  {
    && |answers| == |invocations| == |results|
    && forall i :: 0 <= i < |answers| ==> answers[i] == (invocations[i], results[i])
  }

  // How the next call carries the answers on.
  lemma NextAnswer<W>(
    cfg: CoordinatorConfig<W>, req: RunRequest, w: W, w1: W, i: nat, call: Result<Answered, FlowError>,
    invocations: seq<Invocation>, results: seq<SubtaskResultEnvelope>)
    requires i < |req.toolCalls| && Answers(cfg, req, w, i).1.Ok?
    requires AnswersAre(Answers(cfg, req, w, i).1.value, invocations, results)
    requires (w1, call) == CallAnswer(cfg, req, Answers(cfg, req, w, i).0, i)
    ensures call.Err? ==> Answers(cfg, req, w, |req.toolCalls|) == (w1, Err(call.error))
    ensures call.Ok? ==>
      Answers(cfg, req, w, i + 1).0 == w1 && Answers(cfg, req, w, i + 1).1.Ok? &&
      AnswersAre(Answers(cfg, req, w, i + 1).1.value, invocations + [call.value.0], results + [call.value.1])
  {
    hide CallAnswer;
    if call.Err? {
      FailureStays(cfg, req, w, i + 1, |req.toolCalls|);
    }
  }

  lemma GatheredNext(registry: Option<Registry>, req: RunRequest, invocations: seq<Invocation>,
                     results: seq<SubtaskResultEnvelope>, pairs: seq<Pair>, i: nat, call: Answered)
    requires i < |req.toolCalls| && Gathered(registry, req, invocations, results, i) &&
      GatheredPairs(invocations, results, pairs)
    requires BuildHandoff(registry, InvocationFor(req, i)) == Ok(call.0.envelope) && Mirrors(call.0.envelope, call.1)
    ensures Gathered(registry, req, invocations + [call.0], results + [call.1], i + 1)
    ensures GatheredPairs(invocations + [call.0], results + [call.1], pairs + [(call.0.envelope, call.1)])
  {
    hide BuildHandoff, Mirrors;
  }

  lemma OpeningGrows(req: RunRequest, results: seq<SubtaskResultEnvelope>, result: SubtaskResultEnvelope)
    ensures OpeningEvents(req, results + [result]) ==
      OpeningEvents(req, results) + [FlowEvent(req.runId, req.coordinatorAgentId, HandoffStarted),
                                     FlowEvent(req.runId, result.sourceAgentId, ResultReceived)]
  {
    assert (results + [result])[..|results|] == results;
  }

  /** The memory once these invocations have been started and answered, one after another. */
  ghost function MemoryAfter<W>(cfg: CoordinatorConfig<W>, w: W, invocations: seq<Invocation>): W {
    if invocations == [] then w
    else
      var last := invocations[|invocations| - 1];
      var started := cfg.startSubtask(MemoryAfter(cfg, w, invocations[..|invocations| - 1]), last.envelope).0;
      cfg.workerResult(started, last).0
  }

  /** Each handoff was given to the delegator, and each result asked of its worker for the
      handle the delegator had given, each in the memory its predecessors left. */
  ghost predicate AskedInTurn<W>(
    cfg: CoordinatorConfig<W>, w: W, invocations: seq<Invocation>, results: seq<SubtaskResultEnvelope>)
  {
    && |invocations| == |results|
    && forall i :: 0 <= i < |invocations| ==>
      var (started, handle) := cfg.startSubtask(MemoryAfter(cfg, w, invocations[..i]), invocations[i].envelope);
      handle == Ok(invocations[i].handle) && cfg.workerResult(started, invocations[i]).1 == Ok(results[i])
  }

  lemma AskedGrows<W>(
    cfg: CoordinatorConfig<W>, w: W, invocations: seq<Invocation>, results: seq<SubtaskResultEnvelope>,
    last: Invocation, result: SubtaskResultEnvelope, started: W, answered: W)
    requires AskedInTurn(cfg, w, invocations, results)
    requires cfg.startSubtask(MemoryAfter(cfg, w, invocations), last.envelope) == (started, Ok(last.handle))
    requires cfg.workerResult(started, last) == (answered, Ok(result))
    ensures AskedInTurn(cfg, w, invocations + [last], results + [result])
    ensures MemoryAfter(cfg, w, invocations + [last]) == answered
  {
    var longer, n := invocations + [last], |invocations|;
    assert longer[..n] == invocations;
    forall i | 0 <= i <= n
      ensures var (started, handle) := cfg.startSubtask(MemoryAfter(cfg, w, longer[..i]), longer[i].envelope);
        handle == Ok(longer[i].handle) && cfg.workerResult(started, longer[i]).1 == Ok((results + [result])[i])
    {
      if i < n { assert longer[..i] == invocations[..i]; }
    }
  }

  lemma {:induction false} AnswersInTurn<W>(
    cfg: CoordinatorConfig<W>, req: RunRequest, w: W, n: nat, invocations: seq<Invocation>,
    results: seq<SubtaskResultEnvelope>)
    requires n <= |req.toolCalls| && Answers(cfg, req, w, n).1.Ok? && |invocations| == n
    requires AnswersAre(Answers(cfg, req, w, n).1.value, invocations, results)
    ensures MemoryAfter(cfg, w, invocations) == Answers(cfg, req, w, n).0
    ensures AskedInTurn(cfg, w, invocations, results)
  {
    hide BuildHandoff, ValidateResult, MemoryAfter, AskedInTurn;
    if n == 0 {
      NothingAsked(cfg, w, invocations, results);
    } else {
      var (w1, before) := Answers(cfg, req, w, n - 1);
      var (w2, last) := CallAnswer(cfg, req, w1, n - 1);
      var front, rest := invocations[..n - 1], results[..n - 1];
      assert Answers(cfg, req, w, n).1.value == before.value + [last.value];
      assert forall i :: 0 <= i < n - 1 ==> (before.value + [last.value])[i] == before.value[i];
      AnswersInTurn(cfg, req, w, n - 1, front, rest);
      assert last.value == (invocations[n - 1], results[n - 1]);
      var started := cfg.startSubtask(w1, last.value.0.envelope).0;
      AskedGrows(cfg, w, front, rest, last.value.0, last.value.1, started, w2);
      assert invocations == front + [last.value.0] && results == rest + [last.value.1];
    }
  }

  lemma NothingAsked<W>(
    cfg: CoordinatorConfig<W>, w: W, invocations: seq<Invocation>, results: seq<SubtaskResultEnvelope>)
    requires invocations == [] && results == []
    ensures MemoryAfter(cfg, w, invocations) == w && AskedInTurn(cfg, w, invocations, results)
  {
  }

  /** Why a run cannot even begin. */
  ghost predicate BadRequest(req: RunRequest, e: FlowError) {
    || (Blank(req.runId) && e == EmptyRunId)
    || (!Blank(req.runId) && Blank(req.coordinatorAgentId) && e == EmptyCoordinatorAgentId)
    || (!Blank(req.runId) && !Blank(req.coordinatorAgentId) && req.toolCalls == [] && e == NoToolCalls)
  }

  ghost predicate Answerable(req: RunRequest) {
    !Blank(req.runId) && !Blank(req.coordinatorAgentId) && req.toolCalls != []
  }

  ghost predicate Composable(registry: Option<Registry>, req: RunRequest) {
    !Blank(req.content) && MayFinalize(registry, req.finalizerAgentId) && DistinctToolIds(req.toolCalls)
  }

  class CoordinatorRuntime<W> {
    const cfg: CoordinatorConfig<W>
    var world: W
    var events: seq<FlowEvent>

    constructor (cfg: CoordinatorConfig<W>, world: W)
      ensures this.cfg == cfg && this.world == world && events == []
    {
      this.cfg, this.world, events := cfg, world, [];
    }

    method StartHandoff(req: InvocationRequest) returns (r: Result<Invocation, FlowError>)
      modifies this`world
      ensures (world, r) == HandoffAnswer(cfg, old(world), req)
    {
      var handoff := BuildHandoff(cfg.registry, req);
      if handoff.Err? { return Err(handoff.error); }
      var (w, handle) := cfg.startSubtask(world, handoff.value);
      world := w;
      return if handle.Err? then Err(DelegatorFailed(handle.error)) else Ok(Invocation(handoff.value, handle.value));
    }

    /** One call: handoff, result, check, with an event after the first and the last. */
    method RunCall(req: RunRequest, index: nat) returns (r: Result<Answered, FlowError>)
      requires index < |req.toolCalls|
      modifies this
      ensures (world, r) == CallAnswer(cfg, req, old(world), index)
      ensures r.Ok? ==>
        && BuildHandoff(cfg.registry, InvocationFor(req, index)) == Ok(r.value.0.envelope)
        && Mirrors(r.value.0.envelope, r.value.1)
        && events == old(events) + [FlowEvent(req.runId, req.coordinatorAgentId, HandoffStarted),
                                    FlowEvent(req.runId, r.value.1.sourceAgentId, ResultReceived)]
      ensures r.Err? ==>
        events == if HandoffAnswer(cfg, old(world), InvocationFor(req, index)).1.Err? then old(events)
                  else old(events) + [FlowEvent(req.runId, req.coordinatorAgentId, HandoffStarted)]
    {
      var started := StartHandoff(InvocationFor(req, index));
      if started.Err? { return Err(started.error); }
      events := events + [FlowEvent(req.runId, started.value.envelope.sourceAgentId, HandoffStarted)];
      var (w, result) := cfg.workerResult(world, started.value);
      world := w;
      if result.Err? { return Err(ResultProviderFailed(result.error)); }
      ValidResultMirrors(started.value.envelope, result.value);
      var checked := ValidateResult(started.value.envelope, result.value);
      if checked.Err? { return Err(checked.error); }
      events := events + [FlowEvent(req.runId, result.value.sourceAgentId, ResultReceived)];
      return Ok((started.value, result.value));
    }

    /** Runs the flow. It succeeds exactly when the request is sound, every call is
        answered with a valid result, and the response can be composed. A success tells
        the observers the whole word and keeps every promise; a failure leaves a proper
        prefix and says what went wrong first. */
    method RunFlow(req: RunRequest) returns (r: Result<CoordinatorRun, FlowError>)
      modifies this
      ensures old(events) <= events
      ensures r.Ok? <==>
        Answerable(req) && Answers(cfg, req, old(world), |req.toolCalls|).1.Ok? && Composable(cfg.registry, req)
      ensures r.Ok? ==> AskedInTurn(cfg, old(world), r.value.invocations, r.value.workerResults)
      ensures r.Ok? ==> world == MemoryAfter(cfg, old(world), r.value.invocations)
      ensures r.Ok? ==> Accomplished(cfg.registry, req, r.value)
      ensures r.Ok? ==>
        AnswersAre(Answers(cfg, req, old(world), |req.toolCalls|).1.value, r.value.invocations, r.value.workerResults)
      ensures r.Ok? ==> events == old(events) + (OpeningEvents(req, r.value.workerResults) + ClosingEvents(req))
      ensures world == if Answerable(req) then Answers(cfg, req, old(world), |req.toolCalls|).0 else old(world)
      ensures r.Ok? ==> Names(events[|old(events)|..]) == Word(|req.toolCalls|)
      ensures r.Err? ==> Names(events[|old(events)|..]) < Word(|req.toolCalls|)
      ensures r.Err? ==>
        if !Answerable(req) then BadRequest(req, r.error)
        else if Answers(cfg, req, old(world), |req.toolCalls|).1.Err? then
          r.error == Answers(cfg, req, old(world), |req.toolCalls|).1.error
        else ComposeFault(cfg.registry, req, r.error)
    {
      CutShort(0, |req.toolCalls|);
      if EmptyWhenTrimmed(req.runId) { return Err(EmptyRunId); }
      if EmptyWhenTrimmed(req.coordinatorAgentId) { return Err(EmptyCoordinatorAgentId); }
      if req.toolCalls == [] { return Err(NoToolCalls); }
      r := RunCalls(req);
    }

    // The flow of a sound request.
    method RunCalls(req: RunRequest) returns (r: Result<CoordinatorRun, FlowError>)
      requires req.toolCalls != []
      modifies this
      ensures old(events) <= events
      ensures r.Ok? <==> Answers(cfg, req, old(world), |req.toolCalls|).1.Ok? && Composable(cfg.registry, req)
      ensures r.Ok? ==> AskedInTurn(cfg, old(world), r.value.invocations, r.value.workerResults)
      ensures r.Ok? ==> world == MemoryAfter(cfg, old(world), r.value.invocations)
      ensures r.Ok? ==> Accomplished(cfg.registry, req, r.value)
      ensures r.Ok? ==>
        AnswersAre(Answers(cfg, req, old(world), |req.toolCalls|).1.value, r.value.invocations, r.value.workerResults)
      ensures r.Ok? ==> events == old(events) + (OpeningEvents(req, r.value.workerResults) + ClosingEvents(req))
      ensures world == Answers(cfg, req, old(world), |req.toolCalls|).0
      ensures r.Ok? ==> Names(events[|old(events)|..]) == Word(|req.toolCalls|)
      ensures r.Err? ==> Names(events[|old(events)|..]) < Word(|req.toolCalls|)
      ensures r.Err? ==>
        if Answers(cfg, req, old(world), |req.toolCalls|).1.Err? then
          r.error == Answers(cfg, req, old(world), |req.toolCalls|).1.error
        else ComposeFault(cfg.registry, req, r.error)
    {
      hide Word, RoundNames, ComposeFault, Composable, CallAnswer, HandoffAnswer, Accomplished, Answers, Mirrors,
          BuildHandoff, MemoryAfter, AskedInTurn;
      var n := |req.toolCalls|;
      events := events + [FlowEvent(req.runId, req.coordinatorAgentId, CoordinatorStarted)];
      var invocations: seq<Invocation> := [];
      var results: seq<SubtaskResultEnvelope> := [];
      var pairs: seq<Pair> := [];
      NoAnswers(cfg, req, world);
      hide OpeningEvents, RoundEvents, Gathered, GatheredPairs, Names;
      for i := 0 to n
        invariant Gathered(cfg.registry, req, invocations, results, i) && GatheredPairs(invocations, results, pairs)
        invariant Answers(cfg, req, old(world), i).0 == world && Answers(cfg, req, old(world), i).1.Ok?
        invariant AnswersAre(Answers(cfg, req, old(world), i).1.value, invocations, results)
        invariant events == old(events) + OpeningEvents(req, results)
      {
        var call := RunCall(req, i);
        NextAnswer(cfg, req, old(world), world, i, call, invocations, results);
        FailedCallNames(old(events), req, results, n, FlowEvent(req.runId, req.coordinatorAgentId, HandoffStarted));
        if call.Err? { return Err(call.error); }
        GatheredNext(cfg.registry, req, invocations, results, pairs, i, call.value);
        OpeningGrows(req, results, call.value.1);
        pairs := pairs + [(call.value.0.envelope, call.value.1)];
        invocations := invocations + [call.value.0];
        results := results + [call.value.1];
      }
      AnswersInTurn(cfg, req, old(world), n, invocations, results);
      r := Conclude(req, invocations, results, pairs, old(events));
    }

    method Conclude(
      req: RunRequest, invocations: seq<Invocation>, results: seq<SubtaskResultEnvelope>, pairs: seq<Pair>,
      ghost before: seq<FlowEvent>)
      returns (r: Result<CoordinatorRun, FlowError>)
      requires req.toolCalls != [] && Gathered(cfg.registry, req, invocations, results, |req.toolCalls|)
      requires GatheredPairs(invocations, results, pairs) && events == before + OpeningEvents(req, results)
      modifies this`events
      ensures before <= events
      ensures r.Ok? <==> Composable(cfg.registry, req)
      ensures r.Ok? ==>
        Accomplished(cfg.registry, req, r.value) &&
            (r.value.invocations, r.value.workerResults) == (invocations, results)
      ensures r.Ok? ==> events == before + (OpeningEvents(req, results) + ClosingEvents(req))
      ensures r.Ok? ==> Names(events[|before|..]) == Word(|req.toolCalls|)
      ensures r.Err? ==> Names(events[|before|..]) < Word(|req.toolCalls|)
      ensures r.Err? ==> ComposeFault(cfg.registry, req, r.error)
    {
      hide FirstFault, RepeatedCall, PairsValid, SubtaskId;
      OpeningNames(req, results);
      WholeNames(req, results);
      CutShort(|results|, |results|);
      assert cfg.registry.Some? by { assert BuildHandoff(cfg.registry, InvocationFor(req, 0)).Ok?; }
      GatheredPairsValid(cfg.registry, req, invocations, results, pairs);
      assert events[|before|..] == OpeningEvents(req, results);
      var final := ComposeFinalResponse(cfg.registry, req.runId, req.finalizerAgentId, req.content, pairs);
      if final.Err? {
        if !Blank(req.content) && MayFinalize(cfg.registry, req.finalizerAgentId) {
          FaultOfRun(cfg.registry.value, req, pairs, final.error);
        }
        return Err(final.error);
      }
      events := events + [FlowEvent(req.runId, req.finalizerAgentId, FinalResponseCreated)];
      events := events + [FlowEvent(req.runId, req.finalizerAgentId, CoordinatorCompleted)];
      assert events[|before|..] == OpeningEvents(req, results) + ClosingEvents(req);
      var run := CoordinatorRun(invocations, results, final.value);
      Accomplishment(cfg.registry, req, run, pairs);
      return Ok(run);
    }
  }
}
