/** One dispatch of the deep worker: the providers wired into the loop, one executor
    and one fresh workspace for the whole run (`DeepWorkerInvoker::invoke`). */
module Dispatch {
  import opened Wrappers
  import opened Text
  import opened Graphs
  import opened CanonicalJson
  import opened Lifecycle
  import opened Planning
  import opened StepExecutor
  import opened ToolConversation
  import opened ToolDialogue
  import opened Delegation
  import opened DeepLoop
  import opened DeepLoopRuns
  import opened RunTraces
  import opened RunOutcomes
  import opened Guards
  import opened Progress
  import opened CooperativeRuns
  import opened Obstacles

  type Store = map<string, StoredArtifact>

  /** The outside world of a dispatch: models, tools and agents, each answering as it
      likes and remembering anything in `V`. `render` and `show` print JSON. */
  datatype Host<!V> = Host(
    chat: (V, ChatRequest) -> (V, Result<ChatResponse, string>),
    tool: (V, string, Json) -> (V, Result<Json, string>),
    toolDefs: seq<ToolDef>,
    toolSupport: bool,
    context: (V, Store, string, string) -> (V, Result<Option<string>, string>),
    createPlan: V -> (V, Result<PlanDocument, PlanningError>),
    chooseActions: (V, PlanDocument, Option<string>) -> (V, Result<seq<PlannedAction>, PlanningError>),
    revisePlan: (V, PlanDocument, string, Option<string>) -> (V, Result<nat, PlanningError>),
    reviewStep: Reviewer<V>,
    reviewFinal: Reviewer<V>,
    chooseDelegate: (V, string, seq<string>) -> (V, Result<DelegationDecision, string>),
    startSubtask: (V, SubtaskEnvelope) -> (V, Option<string>),
    render: Json -> string,
    show: Json -> string)

  datatype Settings = Settings(maxIterations: nat, reflection: bool, delegation: bool)

  /** What a dispatch remembers: its executor and its workspace. */
  datatype Memory<V> = Memory(ex: ExecState<V>, store: Store)

  function Recall<V>(m: Memory<V>, v: V): Memory<V> {
    m.(ex := m.ex.(world := v))
  }

  // ----- The parts -----

  function CheckedActions(plan: PlanDocument, r: Result<seq<PlannedAction>, PlanningError>)
    : Result<seq<PlannedAction>, PlanningError>
  {
    if r.Err? then r
    else
      var fault := ActionsFault(plan, r.value);
      if fault.Some? then Err(Validation(fault.value)) else r
  }

  predicate ValidCreation(req: CreateArtifactRequest) {
    !Blank(req.artifactId) && !Blank(req.tenant) && !Blank(req.session) && !Blank(req.run) && !Blank(req.title)
  }

  function CreateInStore(store: Store, req: CreateArtifactRequest): (Store, Result<string, WorkspaceError>) {
    if !ValidCreation(req) then (store, Err(Invalid))
    else if req.artifactId in store then (store, Err(Duplicate(req.artifactId)))
    else (store[req.artifactId := StoredArtifact(req.title, req.body)], Ok(req.artifactId))
  }

  function ToolsFor<V>(h: Host<V>): ExecutorConfig<V> {
    ExecutorConfig(h.chat, h.tool, h.toolDefs, h.show)
  }

  predicate ToolsWired<V>(h: Host<V>) {
    h.toolSupport && h.toolDefs != []
  }

  function StepOnly<V>(): RuntimeConfig<Memory<V>> {
    RuntimeConfig(
      (m: Memory<V>, env: TaskEnvelope) => (m, Ok(Operation(Step))),
      (m: Memory<V>, env: TaskEnvelope, op: RuntimeOperation) => (m, None),
      (m: Memory<V>, env: TaskEnvelope, e: RuntimeEvent) => m,
      None)
  }

  function Lift<V>(inner: Reviewer<V>): Reviewer<Memory<V>> {
    (m: Memory<V>, id: string, artifact: string, ctx: Option<string>) =>
      var (v, r) := inner(m.ex.world, id, artifact, ctx); (Recall(m, v), r)
  }

  // Which guard stands in for the model's review.
  function Reviewing<V>(inner: Reviewer<V>, s: Settings): Reviewer<Memory<V>> {
    if !s.reflection then AcceptAllReflection()
    else if s.delegation then Lift(inner)
    else NoDelegateVerdict(Lift(inner))
  }

  function Choosing<V>(
    h: Host<V>, s: Settings): (Memory<V>, string, seq<string>) -> (Memory<V>, Result<DelegationDecision, string>)
  {
    if !s.delegation then RefuseChoice()
    else ((m: Memory<V>, goal: string, agents: seq<string>) =>
            var (v, r) := h.chooseDelegate(m.ex.world, goal, agents); (Recall(m, v), r))
  }

  function Starting<V>(h: Host<V>, s: Settings): (Memory<V>, SubtaskEnvelope) -> (Memory<V>, Option<string>) {
    if !s.delegation then RefuseSubtask()
    else ((m: Memory<V>, sub: SubtaskEnvelope) => var (v, r) := h.startSubtask(m.ex.world, sub); (Recall(m, v), r))
  }

  function Carrying<V>(
    h: Host<V>): (Memory<V>, ExecuteStepRequest) -> (Memory<V>, Result<StepExecution, StepExecutionError>)
  {
    (m: Memory<V>, req: ExecuteStepRequest) => var (ex, r) := ExecuteStep(ToolsFor(h), m.ex, req); (m.(ex := ex), r)
  }

  function Wire<V>(h: Host<V>, s: Settings): Providers<Memory<V>> {
    Providers(
      StepOnly(),
      (m: Memory<V>, q: string, r: string) => var (v, c) := h.context(m.ex.world, m.store, q, r); (Recall(m, v), c),
      (m: Memory<V>, plan: PlanDocument, ctx: Option<string>) =>
        var (v, r) := h.chooseActions(m.ex.world, plan, ctx); (Recall(m, v), CheckedActions(plan, r)),
      (m: Memory<V>, plan: PlanDocument) => (m, Ok(EvaluateCompletion(plan))),
      (m: Memory<V>, plan: PlanDocument, id: string, st: PlanStepStatus) => (m, Ok(RecordStepResult(plan, id, st))),
      (m: Memory<V>, plan: PlanDocument, reason: string, ctx: Option<string>) =>
        var (v, r) := h.revisePlan(m.ex.world, plan, reason, ctx); (Recall(m, v), r),
      Reviewing(h.reviewStep, s),
      Reviewing(h.reviewFinal, s),
      Choosing(h, s),
      Starting(h, s),
      (m: Memory<V>, req: CreateArtifactRequest) =>
        var (store, r) := CreateInStore(m.store, req); (m.(store := store), r),
      if ToolsWired(h) then Some(Carrying(h)) else None,
      h.render)
  }

  // Each output as it was stored; an unreadable one is left out.
  function ReadStepOutputs(store: Store, ids: seq<string>): seq<StoredArtifact> {
    if ids == [] then []
    else (if ids[0] in store then [store[ids[0]]] else []) + ReadStepOutputs(store, ids[1..])
  }

  function FreshMemory<V>(v: V): Memory<V> {
    Memory(ExecState(map[], [], [], v), map[])
  }

  // The plan a dispatch works on, once the planner has produced a valid one.
  function PreparedPlan(plan: PlanDocument, s: Settings): PlanDocument {
    if s.delegation then plan else StripDelegateSteps(plan)
  }

  ghost function Invoke<V>(h: Host<V>, s: Settings, env: TaskEnvelope, v: V): Option<Flow<Memory<V>>> {
    var (v1, plan) := h.createPlan(v);
    if plan.Err? || !ValidPlan(plan.value) then None
    else Some(Run(Wire(h, s), env, FreshMemory(v1), PreparedPlan(plan.value, s), s.maxIterations))
  }

  // ----- The wiring keeps to its frame -----

  ghost function DispatchFrame<V>(): Frame<Memory<V>> {
    Frame((m: Memory<V>) => CacheRefinesLog(m.ex), (m: Memory<V>) => |m.ex.HostCalls()|, (m: Memory<V>) => m.store)
  }

  lemma RecallQuiet<V>(m: Memory<V>, v: V)
    ensures Quiet(DispatchFrame(), m, Recall(m, v))
  {
  }

  lemma ReviewingQuiet<V(!new)>(
    inner: Reviewer<V>, s: Settings, m: Memory<V>, id: string, a: string, ctx: Option<string>)
    ensures Quiet(DispatchFrame(), m, Reviewing(inner, s)(m, id, a, ctx).0)
  {
    RecallQuiet(m, inner(m.ex.world, id, a, ctx).0);
  }

  lemma ExecutingHonest<V(!new)>(h: Host<V>, m: Memory<V>, req: ExecuteStepRequest)
    requires CacheRefinesLog(m.ex)
    ensures var (m', r) := Carrying(h)(m, req); HonestExecution(DispatchFrame(), m, req.maxToolCalls, m', r)
  {
    var answers, talk := StepBounded(ToolsFor(h), m.ex, req);
  }

  lemma DelegatorQuiet<V(!new)>(
    h: Host<V>, s: Settings, m: Memory<V>, goal: string, agents: seq<string>, sub: SubtaskEnvelope)
    ensures Quiet(DispatchFrame(), m, Choosing(h, s)(m, goal, agents).0)
    ensures Quiet(DispatchFrame(), m, Starting(h, s)(m, sub).0)
  {
    RecallQuiet(m, h.chooseDelegate(m.ex.world, goal, agents).0);
    RecallQuiet(m, h.startSubtask(m.ex.world, sub).0);
  }

  lemma WiredQuiet<V(!new)>(h: Host<V>, s: Settings)
    ensures QuietProviders(Wire(h, s), DispatchFrame())
  {
    var p, fr := Wire(h, s), DispatchFrame<V>();
    forall m, q, r ensures Quiet(fr, m, p.buildContext(m, q, r).0) {
      RecallQuiet(m, h.context(m.ex.world, m.store, q, r).0);
    }
    forall m, plan, ctx ensures Quiet(fr, m, p.nextActions(m, plan, ctx).0) {
      RecallQuiet(m, h.chooseActions(m.ex.world, plan, ctx).0);
    }
    forall m, plan, reason, ctx ensures Quiet(fr, m, p.revisePlan(m, plan, reason, ctx).0) {
      RecallQuiet(m, h.revisePlan(m.ex.world, plan, reason, ctx).0);
    }
    forall m, id, a, ctx ensures Quiet(fr, m, p.reviewStep(m, id, a, ctx).0) {
      ReviewingQuiet(h.reviewStep, s, m, id, a, ctx);
    }
    forall m, id, a, ctx ensures Quiet(fr, m, p.reviewFinal(m, id, a, ctx).0) {
      ReviewingQuiet(h.reviewFinal, s, m, id, a, ctx);
    }
    forall m, goal, agents ensures Quiet(fr, m, p.chooseDelegate(m, goal, agents).0) {
      var sub :| true;
      DelegatorQuiet(h, s, m, goal, agents, sub);
    }
    forall m, sub ensures Quiet(fr, m, p.startSubtask(m, sub).0) { DelegatorQuiet(h, s, m, "", [], sub); }
  }

  /** In every dispatch only the executor calls tools, only the loop stores artifacts,
      and both as honestly as the loop relies on. */
  lemma WiredFramed<V(!new)>(h: Host<V>, s: Settings)
    ensures Framed(Wire(h, s), DispatchFrame())
  {
    hide QuietProviders;
    var p, fr := Wire(h, s), DispatchFrame<V>();
    WiredQuiet(h, s);
    forall m: Memory<V>, req: ExecuteStepRequest | fr.sound(m)
      ensures HonestExecution(fr, m, req.maxToolCalls, Carrying(h)(m, req).0, Carrying(h)(m, req).1)
    {
      ExecutingHonest(h, m, req);
    }
  }

  lemma WiredBookkeeping<V(!new)>(h: Host<V>, s: Settings)
    ensures LlmBookkeeping(Wire(h, s)) && KeepsKinds(Wire(h, s))
  {
    BookkeepingKeepsKinds(Wire(h, s));
  }

  /** The reviewer wired for a setting that is off behaves as the setting promises. */
  lemma WiredReviewer<V(!new)>(h: Host<V>, s: Settings)
    ensures !s.delegation ==> ReviewNeverDelegates(Wire(h, s))
    ensures !s.reflection ==> Approves(Wire(h, s))
  {
    var p := Wire(h, s);
    if s.reflection && !s.delegation {
      forall m, id, a, ctx | p.reviewStep(m, id, a, ctx).1.Ok?
        ensures !p.reviewStep(m, id, a, ctx).1.value.verdict.Delegate?
      {
        GuardedVerdict(Lift(h.reviewStep), m, id, a, ctx);
      }
    }
  }

  // ----- No action is ever aimed at a missing step -----

  lemma {:induction false} MarkKeepsSteps(steps: seq<PlanStep>, id: string, status: PlanStepStatus, i: nat)
    requires i < |steps|
    ensures MarkStep(steps, id, status)[i].stepId == steps[i].stepId
  {
    if steps[0].stepId != id && i > 0 { MarkKeepsSteps(steps[1..], id, status, i - 1); }
  }

  lemma RecordKeepsSteps(steps: seq<PlanStep>, id: string, status: PlanStepStatus, x: string)
    requires HasStep(steps, x)
    ensures HasStep(Record(steps, id, status), x)
  {
    var i :| 0 <= i < |steps| && steps[i].stepId == x;
    MarkKeepsSteps(steps, id, status, i);
    assert Record(steps, id, status)[i].stepId == x;
  }

  ghost predicate StepsFound<W>(f: Flow<W>) {
    f.Fault? ==> !f.error.MissingStep?
  }

  lemma {:induction false} ActionsFound<W(!new)>(p: Providers<W>, s: Loop<W>, actions: seq<PlannedAction>)
    requires LlmBookkeeping(p) && forall k :: 0 <= k < |actions| ==> HasStep(s.plan.steps, actions[k].stepId)
    ensures StepsFound(RunActions(p, s, actions))
    decreases |actions|
  {
    hide RunAction;
    if actions != [] {
      RunActionActs(p, s, actions[0]);
      var f := RunAction(p, s, actions[0]);
      if f.Next? {
        var w :| p.recordStepResult(w, s.plan, actions[0].stepId, PlanStepStatus.Completed).1 == Ok(f.s.plan);
        var rest := actions[1..];
        forall k | 0 <= k < |rest| ensures HasStep(f.s.plan.steps, rest[k].stepId) {
          RecordKeepsSteps(s.plan.steps, actions[0].stepId, PlanStepStatus.Completed, actions[k + 1].stepId);
        }
        ActionsFound(p, f.s, rest);
      }
    }
  }

  lemma NothingToDoFound<W(!new)>(p: Providers<W>, s: Loop<W>, ctx: Option<string>)
    ensures StepsFound(NothingToDo(p, s, ctx))
  {
  }

  lemma IterationFound<V(!new)>(h: Host<V>, t: Settings, s: Loop<Memory<V>>)
    ensures StepsFound(Iterate(Wire(h, t), s))
  {
    hide Consult, NothingToDo, RunActions;
    var p := Wire(h, t);
    WiredBookkeeping(h, t);
    ConsultAsks(p, s);
    var (s1, r) := Consult(p, s);
    if r.Ok? {
      WiredChoice(h, t, s.plan, r.value.0, r.value.1);
      if r.value.1 == [] {
        NothingToDoFound(p, s1, r.value.0);
      } else {
        ActionsFound(p, s1, r.value.1);
      }
    }
  }

  // What the planner lets through is aimed at steps of the plan.
  lemma WiredChoice<V(!new)>(
    h: Host<V>, s: Settings, plan: PlanDocument, ctx: Option<string>, actions: seq<PlannedAction>)
    requires exists m :: Wire(h, s).nextActions(m, plan, ctx).1 == Ok(actions)
    ensures forall k :: 0 <= k < |actions| ==> HasStep(plan.steps, actions[k].stepId)
  {
    var m :| Wire(h, s).nextActions(m, plan, ctx).1 == Ok(actions);
    assert CheckedActions(plan, h.chooseActions(m.ex.world, plan, ctx).1) == Ok(actions);
  }

  lemma {:induction false} IterationsFound<V(!new)>(h: Host<V>, t: Settings, s: Loop<Memory<V>>, n: nat)
    ensures StepsFound(Iterations(Wire(h, t), s, n))
    decreases n
  {
    hide Iterate;
    if n > 0 {
      IterationFound(h, t, s);
      var f := Iterate(Wire(h, t), s);
      if f.Next? { IterationsFound(h, t, f.s, n - 1); }
    }
  }

  // ----- A cooperative dispatch finishes its plan -----

  lemma {:induction false} ConverseOk<V(!new)>(cfg: ExecutorConfig<V>, req: ExecuteStepRequest, c: Conversation<V>)
    requires forall v, r :: cfg.chat(v, r).1.Ok?
    ensures Converse(cfg, req, c).1.Ok?
    decreases RoundLimit(req) - c.rounds
  {
    var (w, reply) := cfg.chat(c.ex.world, NextRequest(cfg, req, c));
    if OfferTools(req, c) && reply.value.toolCalls != [] {
      var asked := Asked(cfg, req, c, w, reply);
      RoundsKept(cfg, req, Replied(asked, reply.value), reply.value.toolCalls);
      ConverseOk(cfg, req, ResolveAll(cfg, req, Replied(asked, reply.value), reply.value.toolCalls));
    }
  }

  /** The model chooses ready steps whenever there are any, and neither it nor
      retrieval errs. What tools answer does not matter. */
  ghost predicate CooperativeHost<V(!new)>(h: Host<V>) {
    && (forall v, r :: h.chat(v, r).1.Ok?)
    && (forall v, st, q, r :: h.context(v, st, q, r).1.Ok?)
    && (forall v, plan: PlanDocument, ctx ::
          var r := h.chooseActions(v, plan, ctx).1;
          r.Ok? && PicksAmongReady(plan.steps, r.value))
  }

  lemma CooperativeChoice<V(!new)>(h: Host<V>, s: Settings)
    requires CooperativeHost(h)
    ensures PicksReady(Wire(h, s))
  {
    var p := Wire(h, s);
    forall m, plan: PlanDocument, ctx
      ensures var r := p.nextActions(m, plan, ctx).1; r.Ok? && PicksAmongReady(plan.steps, r.value)
    {
      var raw := h.chooseActions(m.ex.world, plan, ctx).1;
      forall k | 0 <= k < |raw.value| ensures HasStep(plan.steps, raw.value[k].stepId) {
        assert ReadyStep(plan.steps, raw.value[k].stepId);
      }
      assert p.nextActions(m, plan, ctx).1 == raw;
    }
  }

  /** The model hands everything on to somebody, and they take it. */
  ghost predicate WillingHost<V(!new)>(h: Host<V>) {
    && (forall v, goal, agents :: h.chooseDelegate(v, goal, agents).1.Ok?)
    && (forall v, sub :: h.startSubtask(v, sub).1.None?)
  }

  lemma WillingWiring<V(!new)>(h: Host<V>, s: Settings)
    requires WillingHost(h) && s.delegation
    ensures Willing(Wire(h, s))
  {
    var p := Wire(h, s);
    forall m, goal, agents ensures p.chooseDelegate(m, goal, agents).1.Ok? {
      assert h.chooseDelegate(m.ex.world, goal, agents).1.Ok?;
    }
    forall m, sub ensures p.startSubtask(m, sub).1.None? {
      assert h.startSubtask(m.ex.world, sub).1.None?;
    }
  }

  lemma CooperativeWiring<V(!new)>(h: Host<V>, s: Settings)
    requires CooperativeHost(h) && !s.reflection
    ensures Cooperative(Wire(h, s))
  {
    hide PicksReady, Approves, LlmBookkeeping;
    var p := Wire(h, s);
    CooperativeChoice(h, s);
    WiredReviewer(h, s);
    WiredBookkeeping(h, s);
    forall m, q, r ensures p.buildContext(m, q, r).1.Ok? {
      assert h.context(m.ex.world, m.store, q, r).1.Ok?;
    }
    forall m, req ensures Carrying(h)(m, req).1.Ok? {
      ConverseOk(ToolsFor(h), req, ToolConversation.Start(m.ex, req));
    }
  }

  // ----- What each call of a dispatch comes to -----

  // The host has answered and its state has moved on; nothing else has changed.
  ghost predicate OnlyHost<V>(m: Memory<V>, m': Memory<V>) {
    m'.store == m.store && m'.ex == m.ex.(world := m'.ex.world)
  }

  /** The model's choice, refused if it is aimed at a step the plan does not have. */
  ghost predicate ChoiceChecked(
    plan: PlanDocument, choice: Result<seq<PlannedAction>, PlanningError>,
    answer: Result<seq<PlannedAction>, PlanningError>)
  {
    if choice.Ok? && exists k :: 0 <= k < |choice.value| && !HasStep(plan.steps, choice.value[k].stepId) then
      answer.Err? && answer.error.Validation?
    else answer == choice
  }

  /** The model's own review, unless reflection is off; without delegation, with acceptance
      where it said to delegate. */
  ghost predicate ReviewGiven(s: Settings, own: Result<ReviewOutcome, string>, answer: Result<ReviewOutcome, string>) {
    if !s.reflection then answer == Ok(ReviewOutcome(Accept, true))
    else if !s.delegation && own.Ok? && own.value.verdict.Delegate? then
      answer == Ok(ReviewOutcome(Accept, own.value.valid))
    else answer == own
  }

  ghost predicate Reviewed<V>(
    s: Settings, inner: Reviewer<V>, id: string, artifact: string, ctx: Option<string>,
    answer: Result<ReviewOutcome, string>, m: Memory<V>, m': Memory<V>)
  {
    var (v, own) := inner(m.ex.world, id, artifact, ctx);
    ReviewGiven(s, own, answer) && if s.reflection then OnlyHost(m, m') && m'.ex.world == v else m' == m
  }

  /** An artifact with a field left blank is invalid, one under an id already taken is a
      duplicate, and any other is stored under its id. */
  ghost predicate Kept(store: Store, req: CreateArtifactRequest, store': Store, r: Result<string, WorkspaceError>) {
    if !NoneBlank([req.artifactId, req.tenant, req.session, req.run, req.title]) then
      store' == store && r == Err(Invalid)
    else if req.artifactId in store then store' == store && r == Err(Duplicate(req.artifactId))
    else
      && r == Ok(req.artifactId) && store'.Keys == store.Keys + {req.artifactId}
      && store'[req.artifactId] == StoredArtifact(req.title, req.body)
      && forall id :: id in store ==> store'[id] == store[id]
  }

  /** A step is one conversation with the model and the tools, within the grant. */
  ghost predicate CarriedOut<V(!new)>(
    h: Host<V>, ex: ExecState<V>, task: ExecuteStepRequest, ex': ExecState<V>,
    r: Result<StepExecution, StepExecutionError>)
  {
    && h.toolSupport && h.toolDefs != [] && CacheRefinesLog(ex') && Grows(ex, ex')
    && |ex.HostCalls()| <= |ex'.HostCalls()| <= |ex.HostCalls()| + task.maxToolCalls
    && (r.Ok? ==> r.value.toolCallsUsed == |ex'.HostCalls()| - |ex.HostCalls()|)
    && exists c: Conversation<V>, answers, talk :: c.ex == ex' && StepEnds(ToolsFor(h), task, ex, c, r, answers, talk)
  }

  /** What a call of a dispatch comes to: the host's own model, tools and agents answer it,
      in the state they are in, except where a setting that is off answers for them; the
      plan's books, the workspace and the runtime are the worker's own. */
  ghost predicate HostAnswers<V(!new)>(h: Host<V>, s: Settings, m: Moment<Memory<V>>) {
    var (w, w') := (m.before.world, m.after.world);
    var (v, v') := (w.ex.world, w'.ex.world);
    match m.call
    case AskContext(q, r, answer) => OnlyHost(w, w') && h.context(v, w.store, q, r) == (v', answer)
    case AskActions(plan, ctx, answer) =>
      var (next, choice) := h.chooseActions(v, plan, ctx);
      OnlyHost(w, w') && v' == next && ChoiceChecked(plan, choice, answer)
    case AskCompletion(plan, answer) => w' == w && answer == Ok(EvaluateCompletion(plan))
    case AskRecord(plan, id, status, answer) => w' == w && answer == Ok(RecordStepResult(plan, id, status))
    case AskRevision(plan, reason, ctx, answer) => OnlyHost(w, w') && h.revisePlan(v, plan, reason, ctx) == (v', answer)
    case AskStepReview(id, artifact, ctx, answer) => Reviewed(s, h.reviewStep, id, artifact, ctx, answer, w, w')
    case AskFinalReview(id, artifact, ctx, answer) => Reviewed(s, h.reviewFinal, id, artifact, ctx, answer, w, w')
    case AskDelegate(goal, agents, answer) =>
      if s.delegation then OnlyHost(w, w') && h.chooseDelegate(v, goal, agents) == (v', answer)
      else w' == w && answer == Err("delegation is switched off for this deep worker")
    case StartSubtask(sub, answer) =>
      if s.delegation then OnlyHost(w, w') && h.startSubtask(v, sub) == (v', answer)
      else w' == w && answer == Some("delegation is switched off for this deep worker")
    case Create(req, answer) => w'.ex == w.ex && Kept(w.store, req, w'.store, answer)
    case Execute(task, answer) => w'.store == w.store && CarriedOut(h, w.ex, task, w'.ex, answer)
    case Mediate(op, answer) => w' == w && (answer.Err? ==> answer.error.IllegalTransition?)
    case TickRuntime(answer) =>
      var env := m.before.env;
      && w' == w && m.after.env == env
      && answer == Ok([RuntimeEvent(env.taskId, env.workerId, Step, env.state, env.state)])
  }

  lemma ExecutedByHost<V(!new)>(h: Host<V>, ex: ExecState<V>, task: ExecuteStepRequest)
    requires ToolsWired(h) && CacheRefinesLog(ex)
    ensures var (ex', r) := ExecuteStep(ToolsFor(h), ex, task); CarriedOut(h, ex, task, ex', r)
  {
    hide Converse, CacheRefinesLog, StepEnds, HostCallsIn, Grows;
    var answers, talk := StepBounded(ToolsFor(h), ex, task);
    var (c, r) := Converse(ToolsFor(h), task, ToolConversation.Start(ex, task));
    assert StepEnds(ToolsFor(h), task, ex, c, r, answers, talk);
  }

  lemma ReviewedByHost<V>(
    inner: Reviewer<V>, s: Settings, m: Memory<V>, id: string, artifact: string, ctx: Option<string>)
    ensures var (m', answer) := Reviewing(inner, s)(m, id, artifact, ctx);
      Reviewed(s, inner, id, artifact, ctx, answer, m, m')
  {
    if s.reflection && !s.delegation { GuardedVerdict(Lift(inner), m, id, artifact, ctx); }
    assert Lift(inner)(m, id, artifact, ctx).1 == inner(m.ex.world, id, artifact, ctx).1;
  }

  lemma CheckedByPlanner(plan: PlanDocument, choice: Result<seq<PlannedAction>, PlanningError>)
    ensures ChoiceChecked(plan, choice, CheckedActions(plan, choice))
  {
  }

  lemma KeptInStore(store: Store, req: CreateArtifactRequest)
    ensures var (store', r) := CreateInStore(store, req); Kept(store, req, store', r)
  {
    var fields := [req.artifactId, req.tenant, req.session, req.run, req.title];
    assert fields[0] in fields && fields[1] in fields && fields[2] in fields && fields[3] in fields &&
        fields[4] in fields;
    assert NoneBlank(fields) <==> ValidCreation(req);
  }

  lemma MediatedByWorker<V>(k: Kernel<Memory<V>>, op: RuntimeOperation)
    ensures var (k', r) := ApplyOperation(StepOnly(), k, op);
      k'.world == k.world && (r.Err? ==> r.error.IllegalTransition?)
  {
  }

  lemma TickedByWorker<V>(k: Kernel<Memory<V>>)
    ensures var (k', r) := Tick(StepOnly(), k);
      && k'.world == k.world && k'.env == k.env
      && r == Ok([RuntimeEvent(k.env.taskId, k.env.workerId, Step, k.env.state, k.env.state)])
  {
  }

  lemma Recalled<V>(m: Memory<V>, v: V)
    ensures OnlyHost(m, Recall(m, v)) && Recall(m, v).ex.world == v
  {
  }

  // The wiring asks the host, and remembers nothing but the host's own state.
  lemma HostAsked<V(!new)>(h: Host<V>, s: Settings, m: Moment<Memory<V>>)
    requires RunTraces.Answered(Wire(h, s), m)
    requires m.call.AskContext? || m.call.AskActions? || m.call.AskRevision?
    ensures HostAnswers(h, s, m)
  {
    hide CheckedActions, ChoiceChecked, CarriedOut, Reviewed, Kept;
    var w := m.before.world;
    match m.call
    case AskContext(q, r, answer) =>
      var told := h.context(w.ex.world, w.store, q, r);
      assert (m.after.world, answer) == (Recall(w, told.0), told.1);
      Recalled(w, told.0);
    case AskActions(plan, ctx, answer) =>
      var told := h.chooseActions(w.ex.world, plan, ctx);
      assert (m.after.world, answer) == (Recall(w, told.0), CheckedActions(plan, told.1));
      Recalled(w, told.0);
      CheckedByPlanner(plan, told.1);
    case AskRevision(plan, reason, ctx, answer) =>
      var told := h.revisePlan(w.ex.world, plan, reason, ctx);
      assert (m.after.world, answer) == (Recall(w, told.0), told.1);
      Recalled(w, told.0);
  }

  lemma DelegatorAsked<V(!new)>(h: Host<V>, s: Settings, m: Moment<Memory<V>>)
    requires RunTraces.Answered(Wire(h, s), m) && (m.call.AskDelegate? || m.call.StartSubtask?)
    ensures HostAnswers(h, s, m)
  {
    hide CarriedOut, Reviewed, Kept;
    var w := m.before.world;
    match m.call
    case AskDelegate(goal, agents, answer) =>
      assert Choosing(h, s)(w, goal, agents) == (m.after.world, answer);
      Recalled(w, h.chooseDelegate(w.ex.world, goal, agents).0);
    case StartSubtask(sub, answer) =>
      assert Starting(h, s)(w, sub) == (m.after.world, answer);
      Recalled(w, h.startSubtask(w.ex.world, sub).0);
  }

  /** Every call answered as the providers are wired is answered as the dispatch promises. */
  lemma AnswersAsWired<V(!new)>(h: Host<V>, s: Settings, m: Moment<Memory<V>>)
    requires RunTraces.Answered(Wire(h, s), m) && CacheRefinesLog(m.before.world.ex)
    ensures HostAnswers(h, s, m)
  {
    if m.call.AskContext? || m.call.AskActions? || m.call.AskRevision? {
      HostAsked(h, s, m);
    } else if m.call.AskDelegate? || m.call.StartSubtask? {
      DelegatorAsked(h, s, m);
    } else {
      WorkerAsked(h, s, m);
    }
  }

  // The rest is the worker's own: its reviewer's guards, its books, store and runtime.
  lemma WorkerAsked<V(!new)>(h: Host<V>, s: Settings, m: Moment<Memory<V>>)
    requires RunTraces.Answered(Wire(h, s), m) && CacheRefinesLog(m.before.world.ex)
    requires !(m.call.AskContext? || m.call.AskActions? || m.call.AskRevision?)
    requires !(m.call.AskDelegate? || m.call.StartSubtask?)
    ensures HostAnswers(h, s, m)
  {
    hide CacheRefinesLog, CarriedOut, Reviewed, ExecuteStep, RecordStepResult, EvaluateCompletion, ApplyOperation, Tick;
    hide CreateInStore, Kept, Reviewing;
    var w := m.before.world;
    match m.call
    case AskStepReview(id, artifact, ctx, _) => ReviewedByHost(h.reviewStep, s, w, id, artifact, ctx);
    case AskFinalReview(id, artifact, ctx, _) => ReviewedByHost(h.reviewFinal, s, w, id, artifact, ctx);
    case Create(req, _) => KeptInStore(w.store, req);
    case Execute(task, _) => ExecutedByHost(h, w.ex, task);
    case Mediate(op, _) => MediatedByWorker(m.before, op);
    case TickRuntime(_) => TickedByWorker(m.before);
    case AskCompletion(_, _) =>
    case AskRecord(_, _, _, _) =>
  }

  // ----- The theorems about dispatches -----

  lemma DispatchKeeps<V(!new)>(h: Host<V>, s: Settings, env: TaskEnvelope, v: V)
    requires Invoke(h, s, env, v).Some?
    ensures Good(StudyOf(Wire(h, s), true, DispatchFrame(), env, FreshMemory(h.createPlan(v).0), s.maxIterations),
                 Invoke(h, s, env, v).value)
  {
    WiredFramed(h, s);
    RunKeeps(Wire(h, s), true, DispatchFrame(), env, FreshMemory(h.createPlan(v).0),
             PreparedPlan(h.createPlan(v).1.value, s), s.maxIterations);
  }

  // Only an execution calls tools, and only as many as it was granted.
  ghost predicate ToolCallsGranted<V>(m: Moment<Memory<V>>) {
    var (n, n') := (|m.before.world.ex.HostCalls()|, |m.after.world.ex.HostCalls()|);
    if m.call.Execute? then
      && n <= n' <= n + m.call.task.maxToolCalls && m.call.task.maxToolCalls <= 6
      && (m.call.execution.Ok? ==> m.call.execution.value.toolCallsUsed == n' - n)
    else n' == n
  }

  /** Whatever models and tools do, a dispatch that returns reports exactly the host
      calls it made, and even one that fails made at most three times the iteration limit
      in all. They were made by its executions, each making at most the six it may be
      granted and reporting what it made, and by no other call. No call that succeeded
      was made again, and each answer for it was the first one. */
  lemma ToolCallsConserved<V(!new)>(h: Host<V>, s: Settings, env: TaskEnvelope, v: V)
    requires Invoke(h, s, env, v).Some?
    ensures var f := Invoke(h, s, env, v).value;
      var (ex, calls) := (f.s.kernel.world.ex, f.s.log.calls);
      && (!f.Fault? ==> f.s.budget.used == |ex.HostCalls()|)
      && |ex.HostCalls()| <= 3 * s.maxIterations
      && Chained(Kernel(env, [], FreshMemory(h.createPlan(v).0)), calls, f.s.kernel)
      && (forall k :: 0 <= k < |calls| ==> ToolCallsGranted(calls[k]))
      && CacheRefinesLog(ex)
  {
    hide Run, Chained, ToolCallsGranted, LeftAsCalled;
    DispatchKeeps(h, s, env, v);
    FreshBudget(s.maxIterations);
    DispatchAnswered(h, s, env, v);
    var calls := Invoke(h, s, env, v).value.s.log.calls;
    ExecutionsAsShown(Wire(h, s), env, FreshMemory(h.createPlan(v).0), WorkedPlan(h, s, v), s.maxIterations);
    forall k | 0 <= k < |calls| ensures ToolCallsGranted(calls[k]) {
      AnsweredWithinGrant(h, s, calls[k]);
    }
  }

  lemma {:induction false} ReadBack(store: Store, ids: seq<string>)
    requires forall j :: 0 <= j < |ids| ==> ids[j] in store
    ensures |ReadStepOutputs(store, ids)| == |ids|
    ensures forall j :: 0 <= j < |ids| ==> ReadStepOutputs(store, ids)[j] == store[ids[j]]
  {
    if ids != [] {
      ReadBack(store, ids[1..]);
      forall j | 0 <= j < |ids| ensures ReadStepOutputs(store, ids)[j] == store[ids[j]] {
        if j > 0 { assert ids[j] == ids[1..][j - 1]; }
      }
    }
  }

  // What was read back is what the executor answered, in order, under the steps' titles.
  ghost predicate ReadsBack<V>(
    h: Host<V>, read: seq<StoredArtifact>, given: seq<(ExecuteStepRequest, Result<StepExecution, StepExecutionError>)>)
  {
    && (ToolsWired(h) ==> |read| == |given|) && (!ToolsWired(h) ==> given == [])
    && forall k :: 0 <= k < |given| ==>
      given[k].1.Ok? &&
      read[k] == StoredArtifact("Output for " + given[k].0.step.title, h.render(given[k].1.value.body))
  }

  // Each execution was given the answers of those before it.
  ghost predicate GivenPriors(given: seq<(ExecuteStepRequest, Result<StepExecution, StepExecutionError>)>) {
    forall k :: 0 <= k < |given| ==>
      && |given[k].0.priorOutputs| == k
      && forall i :: 0 <= i < k ==> given[i].1.Ok? && given[k].0.priorOutputs[i] == given[i].1.value.body
  }

  /** Reading a returned dispatch's artifacts back yields what the executor answered, all
      of it, in the order it was executed and under the steps' titles; and each execution
      was given the answers of those before it. */
  lemma OutputsReadBack<V(!new)>(h: Host<V>, s: Settings, env: TaskEnvelope, v: V)
    requires Invoke(h, s, env, v).Some? && !Invoke(h, s, env, v).value.Fault?
    ensures var st := Invoke(h, s, env, v).value.s;
      && Distinct(st.artifactIds)
      && ReadsBack(h, ReadStepOutputs(st.kernel.world.store, st.artifactIds), ExecutionsIn(st.log.calls))
      && GivenPriors(ExecutionsIn(st.log.calls))
  {
    hide Run, Wire;
    var st := Invoke(h, s, env, v).value.s;
    DispatchStores(h, s, env, v);
    DispatchLogs(h, s, env, v);
    hide Invoke;
    ReadBack(st.kernel.world.store, st.artifactIds);
  }

  // What a dispatch that returns has stored, told by its books.
  lemma DispatchStores<V(!new)>(h: Host<V>, s: Settings, env: TaskEnvelope, v: V)
    requires Invoke(h, s, env, v).Some? && !Invoke(h, s, env, v).value.Fault?
    ensures var st := Invoke(h, s, env, v).value.s; var store := st.kernel.world.store;
      && Distinct(st.artifactIds) && |st.log.executed| == |st.outputs|
      && (forall j :: 0 <= j < |st.artifactIds| ==> st.artifactIds[j] in store)
      && |st.outputs| == (if ToolsWired(h) then |st.artifactIds| else 0)
      && forall k :: 0 <= k < |st.outputs| ==>
        && st.log.executed[k].shown == st.outputs[..k]
        && store[st.artifactIds[k]] ==
            StoredArtifact("Output for " + st.log.executed[k].step.title, h.render(st.outputs[k]))
  {
    hide Run;
    DispatchKeeps(h, s, env, v);
  }

  // A dispatch's books are what its calls say.
  lemma DispatchLogs<V(!new)>(h: Host<V>, s: Settings, env: TaskEnvelope, v: V)
    requires Invoke(h, s, env, v).Some?
    ensures var st := Invoke(h, s, env, v).value.s;
      var (log, given) := (st.log.executed, ExecutionsIn(st.log.calls));
      && st.outputs == BodiesIn(st.log.calls) && |log| == |given|
      && (forall k :: 0 <= k < |given| ==>
            log[k] == ExecutionLog(given[k].0.step, given[k].0.priorOutputs, given[k].0.maxToolCalls))
      && (|st.outputs| == |given| ==>
            forall k :: 0 <= k < |given| ==> given[k].1.Ok? && given[k].1.value.body == st.outputs[k])
  {
    hide Run, Trace, Ends, AccountOf, Wire;
    var p, plan, world := Wire(h, s), WorkedPlan(h, s, v), FreshMemory(h.createPlan(v).0);
    var f, x := Invoke(h, s, env, v).value, ScriptOf(p, env, world, plan, s.maxIterations);
    EveryRunTraced(p, env, world, plan, s.maxIterations);
    RunEnded(p, env, world, plan, s.maxIterations);
    ExecutionsLogged(x, f.s.log.calls);
    BodiesAreAnswers(f.s.log.calls);
  }

  /** A fresh workspace never refuses a run's artifact as a duplicate, unless the run
      has created more than 2^32 of them. */
  lemma NeverRefusedAsDuplicate<V(!new)>(h: Host<V>, s: Settings, env: TaskEnvelope, v: V)
    requires Invoke(h, s, env, v).Some?
    ensures var f := Invoke(h, s, env, v).value;
      f.Fault? && f.error.WorkspaceFault? && f.error.workspace.Duplicate? ==> |f.s.log.created| > SEQ_MODULUS
  {
    DispatchKeeps(h, s, env, v);
  }

  /** Switching delegation off is airtight for every dispatch; with reflection off too,
      a plan with no failed step ends completed or out of budget. */
  lemma DispatchWithoutDelegation<V(!new)>(h: Host<V>, s: Settings, env: TaskEnvelope, v: V)
    requires Invoke(h, s, env, v).Some? && !s.delegation
    ensures var f := Invoke(h, s, env, v).value;
      && DelegationFree(f)
      && (!s.reflection && NoFailed(h.createPlan(v).1.value.steps) && f.Done? ==>
            f.status.Completed? || f.status.BudgetExhausted?)
  {
    var plan, world := h.createPlan(v).1.value, FreshMemory(h.createPlan(v).0);
    WiredBookkeeping(h, s);
    WiredReviewer(h, s);
    StrippedHasNoDelegates(plan);
    DelegationOffIsAirtight(Wire(h, s), env, world, StripDelegateSteps(plan), s.maxIterations);
    if !s.reflection && NoFailed(plan.steps) {
      NoReflectionNoObstruction(Wire(h, s), env, world, StripDelegateSteps(plan), s.maxIterations);
    }
  }

  /** The planner's check on the model's choice means no dispatch ever acts on a step
      its plan does not have. */
  lemma NoMissingStep<V(!new)>(h: Host<V>, s: Settings, env: TaskEnvelope, v: V)
    requires Invoke(h, s, env, v).Some?
    ensures StepsFound(Invoke(h, s, env, v).value)
  {
    hide Iterations;
    var p := Wire(h, s);
    var plan, world := PreparedPlan(h.createPlan(v).1.value, s), FreshMemory(h.createPlan(v).0);
    var st := Fresh(Kernel(env, [], world), plan, s.maxIterations);
    IterationsFound(h, s, st, s.maxIterations);
    IterationsFound(h, s, Operate(p, st, RuntimeOperation.Start).0, s.maxIterations);
  }

  /** The workspace finds nothing wrong with a run's own artifacts. */
  lemma OwnArtifactsValid(o: Origin, req: CreateArtifactRequest)
    requires Ours(o, req) && !Blank(o.tenant) && !Blank(o.session) && !Blank(o.run)
    ensures ValidCreation(req)
  {
    assert req.artifactId[0] == 'a' && req.artifactId[0] in req.artifactId;
    assert req.title[0] == 'O' && req.title[0] in req.title;
  }

  lemma RefusedOnlyAfterWrap<V(!new)>(h: Host<V>, s: Settings, env: TaskEnvelope, v: V)
    requires Invoke(h, s, env, v).Some? && !Blank(env.tenant) && !Blank(env.taskId)
    ensures var f := Invoke(h, s, env, v).value;
      WorkspaceRefused(Wire(h, s), f, OriginOf(env, PreparedPlan(h.createPlan(v).1.value, s))) ==>
        |f.s.log.created| > SEQ_MODULUS && f.error.workspace.Duplicate?
  {
    hide Run;
    var p, f := Wire(h, s), Invoke(h, s, env, v).value;
    var o := OriginOf(env, PreparedPlan(h.createPlan(v).1.value, s));
    if WorkspaceRefused(p, f, o) {
      var m, req :| Ours(o, req) && p.createArtifact(m, req).1 == Err(f.error.workspace);
      OwnArtifactsValid(o, req);
      assert p.createArtifact(m, req).1 == CreateInStore(m.store, req).1;
      NeverRefusedAsDuplicate(h, s, env, v);
    }
  }

  // The plan a dispatch works on, as its planner leaves it.
  ghost function WorkedPlan<V>(h: Host<V>, s: Settings, v: V): PlanDocument
    requires h.createPlan(v).1.Ok?
  {
    PreparedPlan(h.createPlan(v).1.value, s)
  }

  // The planner comes up with a plan that passes validation.
  ghost predicate Plans<V>(h: Host<V>, v: V) {
    h.createPlan(v).1.Ok? && ValidPlan(h.createPlan(v).1.value)
  }

  lemma DispatchStaffed<V(!new)>(h: Host<V>, s: Settings, v: V)
    requires Plans(h, v) && CooperativeHost(h) && !s.reflection && (s.delegation ==> WillingHost(h))
    ensures Staffed(Wire(h, s), WorkedPlan(h, s, v).steps) && ValidPlan(WorkedPlan(h, s, v))
    ensures !s.delegation ==> NoDelegates(WorkedPlan(h, s, v).steps)
  {
    hide Run, Cooperative, Willing, CooperativeHost, WillingHost;
    CooperativeWiring(h, s);
    if s.delegation { WillingWiring(h, s); }
    StrippedHasNoDelegates(h.createPlan(v).1.value);
  }

  /** With reflection off and one iteration more than steps to do, a cooperative model
      works every completable plan to its end, whatever the tools answer: every step
      satisfied, none before what it depends on, completed, or delegating if delegation
      is on and a delegate step was open. With delegation off too, the status of any
      other plan is exact as well. Only a dispatch that has made more than 2^32 artifacts
      may end otherwise, and then on a refused duplicate. */
  lemma CooperativeDispatchEnds<V(!new)>(h: Host<V>, s: Settings, env: TaskEnvelope, v: V)
    requires Plans(h, v) && CooperativeHost(h) && !s.reflection && (s.delegation ==> WillingHost(h))
    requires env.state.Created? && !Blank(env.tenant) && !Blank(env.taskId)
    requires s.maxIterations > StepsLeft(WorkedPlan(h, s, v).steps)
    ensures var f, steps := Invoke(h, s, env, v).value, WorkedPlan(h, s, v).steps;
      if f.Done? then
        && (!s.delegation ==> f.status == FinalStatus(steps))
        && (Completable(steps) ==> f.status == if OpenDelegate(steps) then Delegating else DeepLoopStatus.Completed)
        && (Completable(steps) ==> AllSatisfied(f.s.plan.steps))
        && (ReadySound(steps) ==> DependenciesFirst(steps, f.s.log.recorded))
      else f.Fault? && f.error.WorkspaceFault? && f.error.workspace.Duplicate? && |f.s.log.created| > SEQ_MODULUS
  {
    hide Run, Completable, ReadySound, DependenciesFirst, CooperativeHost, WillingHost, ValidPlan, Cooperative, Wire;
    hide WorkspaceRefused, AllSatisfied;
    var p, plan, world := Wire(h, s), WorkedPlan(h, s, v), FreshMemory(h.createPlan(v).0);
    var f := Invoke(h, s, env, v).value;
    DispatchStaffed(h, s, v);
    ValidIsUnique(plan);
    CooperativeRunEnds(p, env, world, plan, s.maxIterations);
    RefusedOnlyAfterWrap(h, s, env, v);
    if !s.delegation { EndsExactly(p, env, world, plan, s.maxIterations); }
    if Completable(plan.steps) { CooperativeRunCompletes(p, env, world, plan, s.maxIterations); }
    RefusedIsFault(p, f, OriginOf(env, plan));
  }

  lemma RefusedIsFault<W(!new)>(p: Providers<W>, f: Flow<W>, o: Origin)
    ensures WorkspaceRefused(p, f, o) ==> f.Fault? && f.error.WorkspaceFault?
  {
  }

  // ----- Every call of a dispatch is the host's -----

  lemma HostKeepsCache<V(!new)>(h: Host<V>, s: Settings, m: Moment<Memory<V>>)
    requires HostAnswers(h, s, m) && CacheRefinesLog(m.before.world.ex)
    ensures CacheRefinesLog(m.after.world.ex)
  {
    hide RecordStepResult, EvaluateCompletion;
  }

  lemma {:induction false} CallsByHost<V(!new)>(
    h: Host<V>, s: Settings, x: Script<Memory<V>>, calls: seq<Moment<Memory<V>>>, now: Kernel<Memory<V>>)
    requires Trace(x, calls, now) && x.p == Wire(h, s) && CacheRefinesLog(x.start.world.ex)
    ensures CacheRefinesLog(now.world.ex)
    ensures forall k :: 0 <= k < |calls| ==> HostAnswers(h, s, calls[k])
    decreases |calls|
  {
    hide RunTraces.Answered, Follows, AccountOf, HostAnswers, CacheRefinesLog;
    if calls != [] {
      var front, last := calls[..|calls| - 1], calls[|calls| - 1];
      CallsByHost(h, s, x, front, last.before);
      AnswersAsWired(h, s, last);
      HostKeepsCache(h, s, last);
      forall k | 0 <= k < |calls| ensures HostAnswers(h, s, calls[k]) {
        if k < |front| { assert calls[k] == front[k]; }
      }
    }
  }

  /** Every call a dispatch makes finds what the one before it left, starting with an empty
      workspace and an executor that has called nothing, and is answered by the host. */
  lemma DispatchAnswered<V(!new)>(h: Host<V>, s: Settings, env: TaskEnvelope, v: V)
    requires Invoke(h, s, env, v).Some?
    ensures var f := Invoke(h, s, env, v).value;
      && Chained(Kernel(env, [], FreshMemory(h.createPlan(v).0)), f.s.log.calls, f.s.kernel)
      && forall k :: 0 <= k < |f.s.log.calls| ==> HostAnswers(h, s, f.s.log.calls[k])
  {
    hide Run, HostAnswers, Adds, Ends, RunTraces.Answered, Wire;
    var p, plan, world := Wire(h, s), WorkedPlan(h, s, v), FreshMemory(h.createPlan(v).0);
    var f, x := Run(p, env, world, plan, s.maxIterations), ScriptOf(p, env, world, plan, s.maxIterations);
    EveryRunTraced(p, env, world, plan, s.maxIterations);
    hide Trace;
    CallsByHost(h, s, x, f.s.log.calls, f.s.kernel);
    CallsChained(x, f.s.log.calls, f.s.kernel);
  }

  /** A dispatch begins exactly if the planner comes up with a valid plan. It works on that
      plan as it is, or without delegation with each delegate step made the worker's own,
      heeds every review, ends for cause, and leaves the state its calls say. */
  lemma DispatchHeeds<V(!new)>(h: Host<V>, s: Settings, env: TaskEnvelope, v: V)
    ensures Invoke(h, s, env, v).Some? <==> h.createPlan(v).1.Ok? && ValidPlan(h.createPlan(v).1.value)
    ensures Invoke(h, s, env, v).Some? ==>
      var (f, given, plan) := (Invoke(h, s, env, v).value, h.createPlan(v).1.value, WorkedPlan(h, s, v));
      && (if s.delegation then plan == given else plan == given.(steps := plan.steps))
      && |plan.steps| == |given.steps|
      && (!s.delegation ==> forall i :: 0 <= i < |plan.steps| ==> Stripped(given.steps[i], plan.steps[i]))
      && WorkedAsGiven(plan, f)
  {
    hide Run, WorkedAsGiven, ValidPlan;
    if Invoke(h, s, env, v).Some? {
      var plan, world := WorkedPlan(h, s, v), FreshMemory(h.createPlan(v).0);
      StrippedHasNoDelegates(h.createPlan(v).1.value);
      RunWorksAsGiven(Wire(h, s), env, world, plan, s.maxIterations);
    }
  }

  // What the calls of a run mean for its plan, its reviews and its status.
  ghost predicate WorkedAsGiven<W>(plan: PlanDocument, f: Flow<W>) {
    var h := f.s.log.calls;
    && LeftAsCalled(plan, f.s) && EndsForCause(plan, f)
    && (forall k :: 0 <= k < |h| && h[k].call.AskStepReview? ==> StepReviewHeeded(plan, f, k))
    && (forall k :: 0 <= k < |h| && h[k].call.AskFinalReview? ==> FinalReviewHeeded(f, k))
  }

  lemma RunWorksAsGiven<W>(p: Providers<W>, env: TaskEnvelope, world: W, plan: PlanDocument, maxIterations: nat)
    ensures WorkedAsGiven(plan, Run(p, env, world, plan, maxIterations))
  {
    hide Run, LeftAsCalled, EndsForCause, StepReviewHeeded, FinalReviewHeeded;
    ReviewsHeeded(p, env, world, plan, maxIterations);
    StatusForCause(p, env, world, plan, maxIterations);
  }

  lemma AnsweredWithinGrant<V(!new)>(h: Host<V>, s: Settings, m: Moment<Memory<V>>)
    requires HostAnswers(h, s, m) && (m.call.Execute? ==> m.call.task.maxToolCalls <= 6)
    ensures ToolCallsGranted(m)
  {
    hide RecordStepResult, EvaluateCompletion;
  }

  // ----- Whose verdicts a dispatch acts on -----

  // What the model's own reviewer says to the review a call asks for.
  ghost function OwnAnswer<V>(h: Host<V>, m: Moment<Memory<V>>): Result<ReviewOutcome, string>
    requires m.call.AskStepReview? || m.call.AskFinalReview?
  {
    match m.call
    case AskStepReview(id, artifact, ctx, _) => h.reviewStep(m.before.world.ex.world, id, artifact, ctx).1
    case AskFinalReview(id, artifact, ctx, _) => h.reviewFinal(m.before.world.ex.world, id, artifact, ctx).1
  }

  ghost predicate SaysItself<V>(h: Host<V>, m: Moment<Memory<V>>, verdict: ReviewVerdict) {
    (m.call.AskStepReview? || m.call.AskFinalReview?) && OwnAnswer(h, m) == Ok(ReviewOutcome(verdict, true))
  }

  lemma ReviewIsGiven<V(!new)>(h: Host<V>, s: Settings, m: Moment<Memory<V>>)
    requires HostAnswers(h, s, m) && (m.call.AskStepReview? || m.call.AskFinalReview?)
    ensures ReviewGiven(s, OwnAnswer(h, m), m.call.review)
  {
  }

  /** A dispatch acts on the model's own verdicts and on nothing else. Each review it goes
      by is the model's answer, but for a delegate verdict where delegation is off. It ends
      revising only if the model's last review said so, and failed only if the model's last
      review failed it or the plan has a failed step; with reflection off it never revises. */
  lemma VerdictsAreTheModels<V(!new)>(h: Host<V>, s: Settings, env: TaskEnvelope, v: V)
    requires Invoke(h, s, env, v).Some?
    ensures var f := Invoke(h, s, env, v).value;
      var calls := f.s.log.calls;
      && (forall k :: 0 <= k < |calls| && (calls[k].call.AskStepReview? || calls[k].call.AskFinalReview?) ==>
            ReviewGiven(s, OwnAnswer(h, calls[k]), calls[k].call.review))
      && (f.Done? && f.status.Revising? ==> s.reflection && |calls| >= 2 && SaysItself(h, calls[|calls| - 2], Revise))
      && (f.Done? && f.status.Failed? ==>
            || HasFailed(f.s.plan.steps)
            || (s.reflection && |calls| >= 2 && SaysItself(h, calls[|calls| - 2], ReviewVerdict.Fail)))
  {
    hide Run, HostAnswers, Chained, FailsRun, RevisesRun, CompletesRun;
    var f := Invoke(h, s, env, v).value;
    var calls := f.s.log.calls;
    DispatchAnswered(h, s, env, v);
    StatusForCause(Wire(h, s), env, FreshMemory(h.createPlan(v).0), WorkedPlan(h, s, v), s.maxIterations);
    forall k | 0 <= k < |calls| && (calls[k].call.AskStepReview? || calls[k].call.AskFinalReview?)
      ensures ReviewGiven(s, OwnAnswer(h, calls[k]), calls[k].call.review)
    {
      ReviewIsGiven(h, s, calls[k]);
    }
    if f.Done? && f.status.Failed? && Cause(f).AskCompletion? {
      UnsatisfiedMeansFailed(h, s, calls[|calls| - 2]);
    }
  }

  lemma UnsatisfiedMeansFailed<V(!new)>(h: Host<V>, s: Settings, m: Moment<Memory<V>>)
    requires HostAnswers(h, s, m) && m.call.AskCompletion? && m.call.completion == Ok(Unsatisfied)
    ensures HasFailed(m.call.plan.steps)
  {
  }
}
