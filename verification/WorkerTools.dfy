/** Callable worker tools: the registry that authorises handoffs, the handoff itself,
    and the checks on a worker's result. */
module WorkerTools {
  import opened Wrappers
  import opened Text
  import opened Delegation

  datatype CallableWorkerTool = CallableWorkerTool(toolId: string, targetAgentId: string, outputSchemaRef: string)

  datatype AgentRoute = AgentRoute(fromAgentId: string, toAgentId: string, allowed: bool)

  datatype RoutingConfig = RoutingConfig(
    allowedRoutes: seq<string>, coordinatorAgentId: Option<string>, finalizerAgentId: Option<string>,
    routes: seq<AgentRoute>, callableWorkers: seq<CallableWorkerTool>)

  datatype Registry = Registry(
    coordinatorAgentId: Option<string>, finalizerAgentId: Option<string>,
    toolsById: map<string, CallableWorkerTool>, allowedRoutes: set<(string, string)>)

  datatype FlowError =
    | EmptyRunId | EmptyCoordinatorAgentId | NoToolCalls
    | NotConfigured | NoCallableWorkers | DuplicateToolId(id: string) | UnknownTool(id: string)
    | TargetMismatch(id: string) | RouteNotAllowed(source: string, target: string) | SchemaMismatch(id: string)
    | BlankField
    | DelegatorFailed(message: string) | ResultProviderFailed(message: string)
    | SubtaskIdMismatch | CorrelationIdMismatch | SourceAgentMismatch | TargetAgentMismatch | ToolIdMismatch
    | OutputSchemaMismatch
    | EmptyContent | NoWorkerResults | FinalizerMismatch(expected: string, actual: string) | DuplicateSource(id: string)

  // ----- Building a registry -----

  // The parts of a text around its first "->".
  function SplitArrow(s: string): (r: Option<(string, string)>)
    ensures r.Some? ==> s == r.value.0 + "->" + r.value.1
  {
    if |s| < 2 then None
    else if s[..2] == "->" then
      assert s == s[..2] + s[2..];
      Some(("", s[2..]))
    else
      var rest := SplitArrow(s[1..]);
      if rest.None? then None else Some(([s[0]] + rest.value.0, rest.value.1))
  }

  ghost predicate ArrowAt(s: string, i: int) {
    0 <= i <= |s| - 2 && s[i..i + 2] == "->"
  }

  /** A text splits exactly if it has an arrow, and then at the first. */
  lemma {:induction false} SplitsAtFirstArrow(s: string)
    ensures SplitArrow(s).None? ==> forall i :: !ArrowAt(s, i)
    ensures SplitArrow(s).Some? ==>
      var n := |SplitArrow(s).value.0|;
      ArrowAt(s, n) && forall i :: 0 <= i < n ==> !ArrowAt(s, i)
  {
    if |s| >= 2 && s[..2] != "->" {
      var tail := s[1..];
      SplitsAtFirstArrow(tail);
      forall i | 1 <= i ensures ArrowAt(s, i) <==> ArrowAt(tail, i - 1) {
        if i <= |s| - 2 {
          assert s[i..i + 2] == [s[i], s[i + 1]] && tail[i - 1..i + 1] == [tail[i - 1], tail[i]];
        }
      }
      assert !ArrowAt(s, 0);
    }
  }

  ghost function ListedRoutes(routes: seq<AgentRoute>): set<(string, string)> {
    set r | r in routes && r.allowed :: (r.fromAgentId, r.toAgentId)
  }

  ghost function ArrowRoutes(texts: seq<string>): set<(string, string)> {
    set t | t in texts && SplitArrow(t).Some? :: SplitArrow(t).value
  }

  ghost predicate DistinctTools(tools: seq<CallableWorkerTool>) {
    forall i, j :: 0 <= i < j < |tools| ==> tools[i].toolId != tools[j].toolId
  }

  // The first tool whose id was seen before has this id.
  ghost predicate FirstRepeat(tools: seq<CallableWorkerTool>, id: string) {
    exists i :: 0 <= i < |tools| && tools[i].toolId == id && DistinctTools(tools[..i]) && Occurs(tools[..i], id)
  }

  ghost predicate Occurs(tools: seq<CallableWorkerTool>, id: string) {
    exists j :: 0 <= j < |tools| && tools[j].toolId == id
  }

  method CollectTools(tools: seq<CallableWorkerTool>) returns (r: Result<map<string, CallableWorkerTool>, FlowError>)
    ensures r.Ok? <==> DistinctTools(tools)
    ensures r.Ok? ==> (forall t :: t in tools ==> t.toolId in r.value && r.value[t.toolId] == t)
    ensures r.Ok? ==> (forall id :: id in r.value ==> r.value[id] in tools && r.value[id].toolId == id)
    ensures r.Err? ==> r.error.DuplicateToolId? && FirstRepeat(tools, r.error.id)
  {
    var byId: map<string, CallableWorkerTool> := map[];
    for i := 0 to |tools|
      invariant DistinctTools(tools[..i])
      invariant forall j :: 0 <= j < i ==> tools[j].toolId in byId && byId[tools[j].toolId] == tools[j]
      invariant forall id :: id in byId ==> byId[id] in tools[..i] && byId[id].toolId == id
    {
      if tools[i].toolId in byId {
        var k :| 0 <= k < i && tools[..i][k] == byId[tools[i].toolId];
        assert Occurs(tools[..i], tools[i].toolId);
        return Err(DuplicateToolId(tools[i].toolId));
      }
      byId := byId[tools[i].toolId := tools[i]];
      assert tools[..i + 1] == tools[..i] + [tools[i]];
    }
    assert tools[..|tools|] == tools;
    return Ok(byId);
  }

  /** The registry says what the configuration says: its roles, its tools by id, and the
      routes either notation allows. */
  ghost predicate Configured(c: RoutingConfig, reg: Registry) {
    && c.callableWorkers != [] && DistinctTools(c.callableWorkers)
    && reg.coordinatorAgentId == c.coordinatorAgentId && reg.finalizerAgentId == c.finalizerAgentId
    && reg.allowedRoutes == ListedRoutes(c.routes) + ArrowRoutes(c.allowedRoutes)
    && (forall t :: t in c.callableWorkers ==> t.toolId in reg.toolsById && reg.toolsById[t.toolId] == t)
    && forall id :: id in reg.toolsById ==> reg.toolsById[id] in c.callableWorkers && reg.toolsById[id].toolId == id
  }

  /** A registry exists exactly for a non-empty list of tools with distinct ids, and says
      what the configuration says. */
  method FromRouting(c: RoutingConfig) returns (r: Result<Registry, FlowError>)
    ensures r.Ok? <==> c.callableWorkers != [] && DistinctTools(c.callableWorkers)
    ensures r.Err? ==> if c.callableWorkers == [] then r.error == NoCallableWorkers
                      else r.error.DuplicateToolId? && FirstRepeat(c.callableWorkers, r.error.id)
    ensures r.Ok? ==> Configured(c, r.value)
  {
    if c.callableWorkers == [] { return Err(NoCallableWorkers); }
    var tools := CollectTools(c.callableWorkers);
    if tools.Err? { return Err(tools.error); }
    var allowed: set<(string, string)> := {};
    for i := 0 to |c.routes|
      invariant allowed == ListedRoutes(c.routes[..i])
    {
      assert c.routes[..i + 1] == c.routes[..i] + [c.routes[i]];
      if c.routes[i].allowed { allowed := allowed + {(c.routes[i].fromAgentId, c.routes[i].toAgentId)}; }
    }
    assert c.routes[..|c.routes|] == c.routes;
    for i := 0 to |c.allowedRoutes|
      invariant allowed == ListedRoutes(c.routes) + ArrowRoutes(c.allowedRoutes[..i])
    {
      assert c.allowedRoutes[..i + 1] == c.allowedRoutes[..i] + [c.allowedRoutes[i]];
      var split := SplitArrow(c.allowedRoutes[i]);
      if split.Some? { allowed := allowed + {split.value}; }
    }
    assert c.allowedRoutes[..|c.allowedRoutes|] == c.allowedRoutes;
    return Ok(Registry(c.coordinatorAgentId, c.finalizerAgentId, tools.value, allowed));
  }

  // ----- Authorising a handoff -----

  predicate IsRouteAllowed(reg: Registry, source: string, target: string) {
    || (source, target) in reg.allowedRoutes
    || (reg.allowedRoutes == {} && reg.coordinatorAgentId == Some(source)
        && exists id :: id in reg.toolsById && reg.toolsById[id].targetAgentId == target)
  }

  // A route the configuration spells out, in either notation.
  ghost predicate RouteConfigured(c: RoutingConfig, source: string, target: string) {
    || (exists r :: r in c.routes && r.allowed && r.fromAgentId == source && r.toAgentId == target)
    || (exists t :: t in c.allowedRoutes && SplitArrow(t) == Some((source, target)))
  }

  /** Who may hand work to whom: along a configured route; or, where none is configured
      at all, the coordinator to the agent of any callable tool. */
  ghost predicate RoutePermitted(c: RoutingConfig, source: string, target: string) {
    || RouteConfigured(c, source, target)
    || (&& (forall a, b :: !RouteConfigured(c, a, b))
        && c.coordinatorAgentId == Some(source)
        && exists tool :: tool in c.callableWorkers && tool.targetAgentId == target)
  }

  lemma RoutesConfigured(c: RoutingConfig, reg: Registry, source: string, target: string)
    requires Configured(c, reg)
    ensures (source, target) in reg.allowedRoutes <==> RouteConfigured(c, source, target)
  {
    if r :| r in c.routes && r.allowed && r.fromAgentId == source && r.toAgentId == target {
      assert (r.fromAgentId, r.toAgentId) in ListedRoutes(c.routes);
    }
    if t :| t in c.allowedRoutes && SplitArrow(t) == Some((source, target)) {
      assert SplitArrow(t).value in ArrowRoutes(c.allowedRoutes);
    }
  }

  /** The registry of a configuration allows exactly the routes the configuration permits. */
  lemma RoutesFollowConfiguration(c: RoutingConfig, reg: Registry, source: string, target: string)
    requires Configured(c, reg)
    ensures IsRouteAllowed(reg, source, target) <==> RoutePermitted(c, source, target)
  {
    hide RouteConfigured, ListedRoutes, ArrowRoutes;
    forall a, b ensures (a, b) in reg.allowedRoutes <==> RouteConfigured(c, a, b) { RoutesConfigured(c, reg, a, b); }
    if reg.allowedRoutes != {} {
      var pair :| pair in reg.allowedRoutes;
      assert RouteConfigured(c, pair.0, pair.1);
    }
    if tool :| tool in c.callableWorkers && tool.targetAgentId == target {
      assert reg.toolsById[tool.toolId].targetAgentId == target;
    }
  }

  function ValidateHandoff(reg: Registry, e: SubtaskEnvelope): Result<CallableWorkerTool, FlowError> {
    if e.toolId !in reg.toolsById then Err(UnknownTool(e.toolId))
    else
      var tool := reg.toolsById[e.toolId];
      if tool.targetAgentId != e.targetAgent then Err(TargetMismatch(e.toolId))
      else if !IsRouteAllowed(reg, e.sourceAgentId, e.targetAgent) then
        Err(RouteNotAllowed(e.sourceAgentId, e.targetAgent))
      else if tool.outputSchemaRef != e.expectedOutputSchema then Err(SchemaMismatch(e.toolId))
      else Ok(tool)
  }

  datatype InvocationRequest = InvocationRequest(
    parentRunId: string, correlationId: string, sourceAgentId: string, toolId: string, goal: string,
    contextPackageRef: string, contextScope: HandoffContextScope, permissionsProfile: string, deadline: string,
    returnPolicy: HandoffReturnPolicy)

  function SubtaskId(runId: string, toolId: string): string {
    runId + "::" + toolId
  }

  // The handoff a request leads to, before the delegator sees it.
  function BuildHandoff(registry: Option<Registry>, req: InvocationRequest): Result<SubtaskEnvelope, FlowError> {
    if registry.None? then Err(NotConfigured)
    else if req.toolId !in registry.value.toolsById then Err(UnknownTool(req.toolId))
    else
      var tool := registry.value.toolsById[req.toolId];
      var e := SubtaskEnvelope(
        SubtaskId(req.parentRunId, req.toolId), req.parentRunId, req.correlationId, req.sourceAgentId,
        tool.targetAgentId, req.toolId, req.goal, req.contextPackageRef, req.contextScope, tool.outputSchemaRef,
        req.permissionsProfile, req.deadline, req.returnPolicy);
      if !FilledHandoff(e) then Err(BlankField)
      else
        var checked := ValidateHandoff(registry.value, e);
        if checked.Err? then Err(checked.error) else Ok(e)
  }

  /** A tool as the configuration lists it. */
  ghost predicate ToolConfigured(c: RoutingConfig, id: string, tool: CallableWorkerTool) {
    tool in c.callableWorkers && tool.toolId == id
  }

  // Every text field of the handoff the request leads to is filled in.
  ghost predicate FilledRequest(req: InvocationRequest, tool: CallableWorkerTool) {
    NoneBlank([req.parentRunId + "::" + req.toolId, req.parentRunId, req.correlationId, req.sourceAgentId,
               tool.targetAgentId, req.toolId, req.goal, req.contextPackageRef, tool.outputSchemaRef,
               req.permissionsProfile, req.deadline])
  }

  /** The handoff carries the request on, to the agent and with the schema its tool is
      configured with. */
  ghost predicate CarriesRequest(req: InvocationRequest, tool: CallableWorkerTool, e: SubtaskEnvelope) {
    && (e.sourceAgentId, e.targetAgent) == (req.sourceAgentId, tool.targetAgentId)
    && (e.subtaskId, e.parentRunId) == (req.parentRunId + "::" + req.toolId, req.parentRunId)
    && (e.toolId, e.correlationId, e.goal, e.deadline) == (req.toolId, req.correlationId, req.goal, req.deadline)
    && (e.contextPackageRef, e.contextScope) == (req.contextPackageRef, req.contextScope)
    && (e.permissionsProfile, e.returnPolicy) == (req.permissionsProfile, req.returnPolicy)
    && e.expectedOutputSchema == tool.outputSchemaRef
  }

  /** Under a configuration, a request for a tool it lists becomes a handoff if and only if
      no field is blank and the route to the tool's agent is permitted; the handoff carries
      the request on, and a refusal says which it was. */
  lemma HandoffAuthorised(c: RoutingConfig, reg: Registry, req: InvocationRequest, tool: CallableWorkerTool)
    requires Configured(c, reg) && ToolConfigured(c, req.toolId, tool)
    ensures match BuildHandoff(Some(reg), req)
      case Ok(e) =>
        && FilledRequest(req, tool) && RoutePermitted(c, req.sourceAgentId, tool.targetAgentId)
        && CarriesRequest(req, tool, e)
      case Err(e) =>
        if !FilledRequest(req, tool) then e == BlankField
        else e == RouteNotAllowed(req.sourceAgentId, tool.targetAgentId) &&
             !RoutePermitted(c, req.sourceAgentId, tool.targetAgentId)
  {
    hide IsRouteAllowed, RoutePermitted, NoneBlank;
    RoutesFollowConfiguration(c, reg, req.sourceAgentId, tool.targetAgentId);
    assert reg.toolsById[req.toolId] == tool;
  }

  /** Nothing is handed to a tool that is not configured, or without a registry. */
  lemma UnknownToolRefused(c: RoutingConfig, reg: Registry, req: InvocationRequest)
    requires Configured(c, reg)
    ensures BuildHandoff(None, req) == Err(NotConfigured)
    ensures (forall tool :: !ToolConfigured(c, req.toolId, tool)) <==>
      BuildHandoff(Some(reg), req) == Err(UnknownTool(req.toolId))
  {
    if req.toolId in reg.toolsById {
      assert ToolConfigured(c, req.toolId, reg.toolsById[req.toolId]);
      HandoffAuthorised(c, reg, req, reg.toolsById[req.toolId]);
    } else {
      forall tool ensures !ToolConfigured(c, req.toolId, tool) {
        assert tool in c.callableWorkers ==> tool.toolId in reg.toolsById;
      }
    }
  }

  /** A handoff passes the registry's check if and only if the configuration lists its tool,
      with its target and its schema, and permits its route; a refusal says which of these
      fails first. */
  lemma HandoffFollowsConfiguration(c: RoutingConfig, reg: Registry, e: SubtaskEnvelope, tool: CallableWorkerTool)
    requires Configured(c, reg)
    ensures ToolConfigured(c, e.toolId, tool) ==>
      ValidateHandoff(reg, e) ==
        if tool.targetAgentId != e.targetAgent then Err(TargetMismatch(e.toolId))
        else if !RoutePermitted(c, e.sourceAgentId, e.targetAgent) then
          Err(RouteNotAllowed(e.sourceAgentId, e.targetAgent))
        else if tool.outputSchemaRef != e.expectedOutputSchema then Err(SchemaMismatch(e.toolId))
        else Ok(tool)
    ensures (forall t :: !ToolConfigured(c, e.toolId, t)) <==> ValidateHandoff(reg, e) == Err(UnknownTool(e.toolId))
  {
    hide IsRouteAllowed, RoutePermitted;
    RoutesFollowConfiguration(c, reg, e.sourceAgentId, e.targetAgent);
    if ToolConfigured(c, e.toolId, tool) {
      assert reg.toolsById[e.toolId] == tool;
    }
    if e.toolId in reg.toolsById {
      assert ToolConfigured(c, e.toolId, reg.toolsById[e.toolId]);
    } else {
      forall t ensures !ToolConfigured(c, e.toolId, t) {
        assert t in c.callableWorkers ==> t.toolId in reg.toolsById;
      }
    }
  }

  /** A handoff that was built once passes the registry's check ever after. */
  lemma BuiltHandoffStaysValid(registry: Option<Registry>, req: InvocationRequest)
    requires BuildHandoff(registry, req).Ok?
    ensures ValidateHandoff(registry.value, BuildHandoff(registry, req).value).Ok?
    ensures BuildHandoff(registry, req).value.subtaskId == SubtaskId(req.parentRunId, req.toolId)
  {
  }

  // ----- Checking a result -----

  function ValidateResult(handoff: SubtaskEnvelope, r: SubtaskResultEnvelope): Result<(), FlowError> {
    if !FilledResult(r) then Err(BlankField)
    else if r.subtaskId != handoff.subtaskId then Err(SubtaskIdMismatch)
    else if r.correlationId != handoff.correlationId then Err(CorrelationIdMismatch)
    else if r.sourceAgentId != handoff.targetAgent then Err(SourceAgentMismatch)
    else if r.targetAgentId != handoff.sourceAgentId then Err(TargetAgentMismatch)
    else if r.toolId != handoff.toolId then Err(ToolIdMismatch)
    else if r.outputSchemaRef != handoff.expectedOutputSchema then Err(OutputSchemaMismatch)
    else Ok(())
  }

  /** The result answers the handoff: every identifying field mirrors it. */
  ghost predicate Mirrors(handoff: SubtaskEnvelope, r: SubtaskResultEnvelope) {
    && NoneBlank([r.subtaskId, r.correlationId, r.sourceAgentId, r.targetAgentId, r.toolId, r.status,
                  r.outputArtifactRef, r.outputSchemaRef])
    && (r.subtaskId, r.correlationId, r.toolId) == (handoff.subtaskId, handoff.correlationId, handoff.toolId)
    && (r.sourceAgentId, r.targetAgentId) == (handoff.targetAgent, handoff.sourceAgentId)
    && r.outputSchemaRef == handoff.expectedOutputSchema
  }

  lemma ValidResultMirrors(handoff: SubtaskEnvelope, r: SubtaskResultEnvelope)
    ensures ValidateResult(handoff, r).Ok? <==> Mirrors(handoff, r)
  {
  }

  // The fields that identify a result, beside what the handoff makes of them.
  ghost function Identity(handoff: SubtaskEnvelope, r: SubtaskResultEnvelope): seq<(string, string, FlowError)> {
    [(r.subtaskId, handoff.subtaskId, SubtaskIdMismatch),
     (r.correlationId, handoff.correlationId, CorrelationIdMismatch),
     (r.sourceAgentId, handoff.targetAgent, SourceAgentMismatch),
     (r.targetAgentId, handoff.sourceAgentId, TargetAgentMismatch),
     (r.toolId, handoff.toolId, ToolIdMismatch),
     (r.outputSchemaRef, handoff.expectedOutputSchema, OutputSchemaMismatch)]
  }

  /** A result filled in is refused for the first identifying field that differs. */
  lemma ResultFaultIsFirst(handoff: SubtaskEnvelope, r: SubtaskResultEnvelope)
    ensures ValidateResult(handoff, r).Err? ==>
      || (!FilledResult(r) && ValidateResult(handoff, r).error == BlankField)
      || exists i :: 0 <= i < 6 && Identity(handoff, r)[i].0 != Identity(handoff, r)[i].1 &&
           ValidateResult(handoff, r).error == Identity(handoff, r)[i].2 &&
           forall j :: 0 <= j < i ==> Identity(handoff, r)[j].0 == Identity(handoff, r)[j].1
  {
    var fields, checked := Identity(handoff, r), ValidateResult(handoff, r);
    if checked.Err? && FilledResult(r) {
      var i := if fields[0].0 != fields[0].1 then 0 else if fields[1].0 != fields[1].1 then 1
               else if fields[2].0 != fields[2].1 then 2 else if fields[3].0 != fields[3].1 then 3
               else if fields[4].0 != fields[4].1 then 4 else 5;
      assert fields[i].0 != fields[i].1 && checked.error == fields[i].2;
    }
  }

  // ----- Composing the final response -----

  datatype Source = Source(toolId: string, subtaskId: string, outputArtifactRef: string)

  datatype FinalResponse = FinalResponse(runId: string, finalizerAgentId: string, content: string, sources: seq<Source>)

  function SourceOf(r: SubtaskResultEnvelope): Source {
    Source(r.toolId, r.subtaskId, r.outputArtifactRef)
  }

  function ExpectedFinalizer(reg: Registry): Option<string> {
    if reg.finalizerAgentId.Some? then reg.finalizerAgentId else reg.coordinatorAgentId
  }

  type Pair = (SubtaskEnvelope, SubtaskResultEnvelope)

  ghost predicate DistinctSubtasks(pairs: seq<Pair>) {
    forall i, j :: 0 <= i < j < |pairs| ==> pairs[i].1.subtaskId != pairs[j].1.subtaskId
  }

  ghost predicate PairsValid(reg: Registry, pairs: seq<Pair>) {
    forall i :: 0 <= i < |pairs| ==> ValidateHandoff(reg, pairs[i].0).Ok? && Mirrors(pairs[i].0, pairs[i].1)
  }

  ghost predicate MayFinalize(registry: Option<Registry>, finalizer: string) {
    registry.Some? && ExpectedFinalizer(registry.value) == Some(finalizer)
  }

  // What composing answers a finalizer it does not expect.
  ghost function FinalizerFault(registry: Option<Registry>, finalizer: string): FlowError {
    if registry.None? || ExpectedFinalizer(registry.value).None? then NotConfigured
    else FinalizerMismatch(ExpectedFinalizer(registry.value).value, finalizer)
  }

  /** Who may finalise under a configuration: the finalizer it names, else its coordinator. */
  ghost predicate FinalizerNamed(c: RoutingConfig, finalizer: string) {
    if c.finalizerAgentId.Some? then c.finalizerAgentId == Some(finalizer) else c.coordinatorAgentId == Some(finalizer)
  }

  /** The finalizer expected is the one the configuration names, and an unexpected one is
      answered with it; without a name, or a registry, finalising is not configured. */
  lemma FinalizerFollowsConfiguration(c: RoutingConfig, reg: Registry, finalizer: string)
    requires Configured(c, reg)
    ensures MayFinalize(Some(reg), finalizer) <==> FinalizerNamed(c, finalizer)
    ensures FinalizerFault(None, finalizer) == NotConfigured
    ensures match FinalizerFault(Some(reg), finalizer)
      case NotConfigured => c.finalizerAgentId == None && c.coordinatorAgentId == None
      case FinalizerMismatch(expected, actual) => FinalizerNamed(c, expected) && actual == finalizer
      case _ => false
  {
  }

  ghost predicate FaultAt(reg: Registry, pairs: seq<Pair>, i: nat, e: FlowError)
    requires i < |pairs|
  {
    var (handoff, result) := pairs[i];
    if ValidateHandoff(reg, handoff).Err? then e == ValidateHandoff(reg, handoff).error
    else if ValidateResult(handoff, result).Err? then e == ValidateResult(handoff, result).error
    else e == DuplicateSource(result.subtaskId) && exists j :: 0 <= j < i && pairs[j].1.subtaskId == result.subtaskId
  }

  /** The error names what is wrong with the first pair that does not fit. */
  ghost predicate FirstFault(reg: Registry, pairs: seq<Pair>, e: FlowError) {
    exists i :: 0 <= i < |pairs| && PairsValid(reg, pairs[..i]) && DistinctSubtasks(pairs[..i]) &&
        FaultAt(reg, pairs, i, e)
  }

  // The first subtask to occur again does so here, and the error names it.
  ghost predicate RepeatAt(pairs: seq<Pair>, i: nat, e: FlowError)
    requires i < |pairs|
  {
    && DistinctSubtasks(pairs[..i]) && e == DuplicateSource(pairs[i].1.subtaskId)
    && exists j :: 0 <= j < i && pairs[j].1.subtaskId == pairs[i].1.subtaskId
  }

  /** When every pair passes both checks, only a repeated subtask can be at fault. */
  lemma OnlyRepeatsAtFault(reg: Registry, pairs: seq<Pair>, e: FlowError)
    requires PairsValid(reg, pairs) && FirstFault(reg, pairs, e)
    ensures !DistinctSubtasks(pairs)
    ensures exists i :: 0 <= i < |pairs| && RepeatAt(pairs, i, e)
  {
    hide ValidateHandoff, ValidateResult, Mirrors;
    var i :| 0 <= i < |pairs| && PairsValid(reg, pairs[..i]) && DistinctSubtasks(pairs[..i]) &&
        FaultAt(reg, pairs, i, e);
    ValidResultMirrors(pairs[i].0, pairs[i].1);
    assert RepeatAt(pairs, i, e);
  }

  /** A response is composed exactly when there is content, the finalizer is the
      expected one, every pair passes both checks again and no subtask occurs twice;
      its sources are the results, in order. */
  method ComposeFinalResponse(
    registry: Option<Registry>, runId: string, finalizer: string, content: string, pairs: seq<Pair>)
    returns (r: Result<FinalResponse, FlowError>)
    ensures r.Ok? <==>
      !Blank(content) && pairs != [] && MayFinalize(registry, finalizer) && PairsValid(registry.value, pairs) &&
          DistinctSubtasks(pairs)
    ensures r.Ok? ==>
      r.value == FinalResponse(runId, finalizer, content,
          seq(|pairs|, i requires 0 <= i < |pairs| => SourceOf(pairs[i].1)))
    ensures r.Err? ==>
      if Blank(content) then r.error == EmptyContent
      else if pairs == [] then r.error == NoWorkerResults
      else if !MayFinalize(registry, finalizer) then r.error == FinalizerFault(registry, finalizer)
      else FirstFault(registry.value, pairs, r.error)
  {
    hide ValidateHandoff, ValidateResult, Mirrors, Blank;
    if EmptyWhenTrimmed(content) { return Err(EmptyContent); }
    if pairs == [] { return Err(NoWorkerResults); }
    if registry.None? { return Err(NotConfigured); }
    var expected := ExpectedFinalizer(registry.value);
    if expected.None? { return Err(NotConfigured); }
    if finalizer != expected.value { return Err(FinalizerMismatch(expected.value, finalizer)); }
    var sources: seq<Source> := [];
    for i := 0 to |pairs|
      invariant |sources| == i && forall j :: 0 <= j < i ==> sources[j] == SourceOf(pairs[j].1)
      invariant PairsValid(registry.value, pairs[..i]) && DistinctSubtasks(pairs[..i])
    {
      var (handoff, result) := pairs[i];
      ValidResultMirrors(handoff, result);
      var again := ValidateHandoff(registry.value, handoff);
      if again.Err? {
        assert FaultAt(registry.value, pairs, i, again.error);
        return Err(again.error);
      }
      var checked := ValidateResult(handoff, result);
      if checked.Err? {
        assert FaultAt(registry.value, pairs, i, checked.error);
        return Err(checked.error);
      }
      if exists j :: 0 <= j < |sources| && sources[j].subtaskId == result.subtaskId {
        assert FaultAt(registry.value, pairs, i, DuplicateSource(result.subtaskId));
        return Err(DuplicateSource(result.subtaskId));
      }
      assert forall j :: 0 <= j < i ==> pairs[j].1.subtaskId == sources[j].subtaskId;
      sources := sources + [SourceOf(result)];
    }
    assert pairs[..|pairs|] == pairs;
    return Ok(FinalResponse(runId, finalizer, content, sources));
  }
}
