/** The deep loop: plan, act, review, record, until the plan is done or the
    iterations run out (`DeepLoopCoordinator::run`). */
module DeepLoop {
  import opened Wrappers
  import opened Text
  import opened CanonicalJson
  import opened Lifecycle
  import opened Planning
  import opened StepExecutor
  import opened Delegation

  datatype DeepLoopStatus =
    | Idle | Planning | Executing | Reflecting | Revising | Delegating | Completed | Failed | BudgetExhausted

  datatype ReviewVerdict = Accept | Revise | Retry | Delegate | Fail

  // `valid` is the outcome of the reviewer's own range check.
  datatype ReviewOutcome = ReviewOutcome(verdict: ReviewVerdict, valid: bool)

  datatype WorkspaceError = Duplicate(id: string) | Invalid | Unavailable(message: string)

  datatype CreateArtifactRequest = CreateArtifactRequest(
    artifactId: string, tenant: string, session: string, run: string, title: string, tag: string, body: string)

  datatype DeepLoopError =
    | RuntimeFault(runtime: RuntimeError)
    | PlanningFault(planning: PlanningError)
    | ContextFault(message: string)
    | WorkspaceFault(workspace: WorkspaceError)
    | ReflectionFault(message: string)
    | DelegationFault(message: string)
    | ExecutionFault(execution: StepExecutionError)
    | MissingStep(stepId: string)

  /** Everything the loop consults. Each part may answer as it likes and may
      remember and change anything in `W`. */
  datatype Providers<!W> = Providers(
    runtime: RuntimeConfig<W>,
    buildContext: (W, string, string) -> (W, Result<Option<string>, string>),
    nextActions: (W, PlanDocument, Option<string>) -> (W, Result<seq<PlannedAction>, PlanningError>),
    evaluateCompletion: (W, PlanDocument) -> (W, Result<CompletionState, PlanningError>),
    recordStepResult: (W, PlanDocument, string, PlanStepStatus) -> (W, Result<PlanDocument, PlanningError>),
    revisePlan: (W, PlanDocument, string, Option<string>) -> (W, Result<nat, PlanningError>),
    reviewStep: (W, string, string, Option<string>) -> (W, Result<ReviewOutcome, string>),
    reviewFinal: (W, string, string, Option<string>) -> (W, Result<ReviewOutcome, string>),
    chooseDelegate: (W, string, seq<string>) -> (W, Result<DelegationDecision, string>),
    startSubtask: (W, SubtaskEnvelope) -> (W, Option<string>),
    createArtifact: (W, CreateArtifactRequest) -> (W, Result<string, WorkspaceError>),
    executor: Option<(W, ExecuteStepRequest) -> (W, Result<StepExecution, StepExecutionError>)>,
    render: Json -> string)

  /** One call the loop makes, with what it was told in reply. */
  datatype Call =
    | AskContext(query: string, ref: string, context: Result<Option<string>, string>)
    | AskActions(plan: PlanDocument, planContext: Option<string>, actions: Result<seq<PlannedAction>, PlanningError>)
    | AskCompletion(plan: PlanDocument, completion: Result<CompletionState, PlanningError>)
    | AskRecord(
        plan: PlanDocument, stepId: string, status: PlanStepStatus, recorded: Result<PlanDocument, PlanningError>)
    | AskRevision(
        plan: PlanDocument, reason: string, stepContext: Option<string>, revision: Result<nat, PlanningError>)
    | AskStepReview(
        stepId: string, artifact: string, stepContext: Option<string>, review: Result<ReviewOutcome, string>)
    | AskFinalReview(
        taskId: string, artifact: string, planContext: Option<string>, review: Result<ReviewOutcome, string>)
    | AskDelegate(goal: string, agents: seq<string>, decision: Result<DelegationDecision, string>)
    | StartSubtask(subtask: SubtaskEnvelope, failure: Option<string>)
    | Create(request: CreateArtifactRequest, artifactId: Result<string, WorkspaceError>)
    | Execute(task: ExecuteStepRequest, execution: Result<StepExecution, StepExecutionError>)
    | Mediate(operation: RuntimeOperation, event: Outcome<RuntimeEvent>)
    | TickRuntime(events: Outcome<seq<RuntimeEvent>>)

  // A call, and where it found and left the runtime and the host's memory.
  datatype Moment<W> = Moment(before: Kernel<W>, call: Call, after: Kernel<W>)

  // One call of the step executor: what it was shown and granted.
  datatype ExecutionLog = ExecutionLog(step: PlanStep, shown: seq<Json>, granted: nat)

  // One artifact the loop asked the workspace to create.
  datatype CreationLog = CreationLog(step: PlanStep, request: CreateArtifactRequest)

  /** Every call a run makes, in the order it makes them, and what they amount to; kept
      for reasoning only. */
  datatype RunLog<W> = RunLog(
    calls: seq<Moment<W>>, plannerCalls: nat, delegatorCalls: nat, executed: seq<ExecutionLog>,
    created: seq<CreationLog>, recorded: seq<string>, lastPlan: PlanDocument)

  datatype Loop<W> = Loop(
    plan: PlanDocument, kernel: Kernel<W>, subtasks: seq<SubtaskEnvelope>, artifactIds: seq<string>,
    artifactSeq: nat, budget: ToolBudget, outputs: seq<Json>, log: RunLog<W>)

  /** How a piece of the run ends: it goes on, the run returns, or it fails. */
  datatype Flow<W> =
    | Next(s: Loop<W>)
    | Done(s: Loop<W>, status: DeepLoopStatus)
    | Fault(s: Loop<W>, error: DeepLoopError)

  // The artifact counter is 32 bits wide and wraps.
  const SEQ_MODULUS: nat := 0x1_0000_0000

  function ArtifactId(planId: string, stepId: string, n: nat): string {
    "artifact://" + planId + "/" + stepId + "/" + Decimal(n)
  }

  function Noted<W>(log: RunLog<W>, before: Kernel<W>, call: Call, after: Kernel<W>): RunLog<W> {
    log.(calls := log.calls + [Moment(before, call, after)])
  }

  // The loop after a call that left the runtime and the memory as in `k`.
  function Note<W>(s: Loop<W>, k: Kernel<W>, call: Call): Loop<W> {
    s.(kernel := k, log := Noted(s.log, s.kernel, call, k))
  }

  // The loop after a call to a provider that left the memory as `w`.
  function Told<W>(s: Loop<W>, w: W, call: Call): Loop<W> {
    Note(s, s.kernel.(world := w), call)
  }

  function FindStep(steps: seq<PlanStep>, id: string): (r: Option<PlanStep>)
    ensures r.Some? ==> exists i :: FirstAt(steps, id, i) && steps[i] == r.value
    ensures r.None? ==> !HasStep(steps, id)
  {
    if steps == [] then None
    else if steps[0].stepId == id then
      assert FirstAt(steps, id, 0);
      Some(steps[0])
    else
      assert forall i :: FirstAt(steps[1..], id, i) ==> FirstAt(steps, id, i + 1);
      assert forall i :: 1 <= i < |steps| ==> steps[i] == steps[1..][i - 1];
      FindStep(steps[1..], id)
  }

  // The first step that carries the id is at `i`.
  ghost predicate FirstAt(steps: seq<PlanStep>, id: string, i: int) {
    0 <= i < |steps| && steps[i].stepId == id && forall j :: 0 <= j < i ==> steps[j].stepId != id
  }

  function BuildSubtaskEnvelope(env: TaskEnvelope, step: PlanStep, decision: DelegationDecision): SubtaskEnvelope {
    var own := if step.assignedAgent.Some? then step.assignedAgent.value else "delegate";
    SubtaskEnvelope(
      env.taskId + "::" + step.stepId, env.taskId, env.taskId + "::" + step.stepId + "::delegation", env.workerId,
      if decision.mode.NoDelegation? || decision.targetAgents == [] then own else decision.targetAgents[0],
      if step.assignedAgent.Some? then step.assignedAgent.value + "_delegate" else "delegate",
      step.title, "context://" + step.stepId, ParentTaskOnly,
      if step.outputSchemaRef.Some? then step.outputSchemaRef.value else "schema://step-output",
      "restricted", "2026-04-16T00:00:00Z",
      if decision.mergePolicy.CollectAllResults? then CollectAll else FirstReturn)
  }

  function Candidates(step: PlanStep): seq<string> {
    if step.assignedAgent.Some? then [step.assignedAgent.value] else []
  }

  // ----- One action -----

  function RecordDone<W>(p: Providers<W>, s: Loop<W>, id: string): Flow<W> {
    var (w, r) := p.recordStepResult(s.kernel.world, s.plan, id, PlanStepStatus.Completed);
    var s1 := Told(s, w, AskRecord(s.plan, id, PlanStepStatus.Completed, r));
    if r.Err? then Fault(s1, PlanningFault(r.error))
    else Next(s1.(plan := r.value, log := s1.log.(recorded := s.log.recorded + [id], lastPlan := r.value)))
  }

  function EmitSubtask<W>(p: Providers<W>, s: Loop<W>, sub: SubtaskEnvelope, step: PlanStep): Flow<W> {
    var (w, failure) := p.startSubtask(s.kernel.world, sub);
    var s1 := ToDelegator(Told(s, w, StartSubtask(sub, failure)));
    if failure.Some? then Fault(s1, DelegationFault(failure.value))
    else RecordDone(p, s1.(subtasks := s.subtasks + [sub]), step.stepId)
  }

  // One more call to the delegator.
  function ToDelegator<W>(s: Loop<W>): Loop<W> {
    s.(log := s.log.(delegatorCalls := s.log.delegatorCalls + 1))
  }

  function ChooseDelegate<W>(
    p: Providers<W>, s: Loop<W>, goal: string, step: PlanStep): (Loop<W>, Result<SubtaskEnvelope, string>)
  {
    var (w, decision) := p.chooseDelegate(s.kernel.world, goal, Candidates(step));
    (ToDelegator(Told(s, w, AskDelegate(goal, Candidates(step), decision))),
     if decision.Err? then Err(decision.error) else Ok(BuildSubtaskEnvelope(s.kernel.env, step, decision.value)))
  }

  function Operate<W>(p: Providers<W>, s: Loop<W>, op: RuntimeOperation): (Loop<W>, Outcome<RuntimeEvent>) {
    var (k, r) := ApplyOperation(p.runtime, s.kernel, op);
    (Note(s, k, Mediate(op, r)), r)
  }

  function DelegateStep<W>(p: Providers<W>, s: Loop<W>, step: PlanStep): Flow<W> {
    var (s1, sub) := ChooseDelegate(p, s, step.title, step);
    if sub.Err? then Fault(s1, DelegationFault(sub.error))
    else
      var (s2, r) := Operate(p, s1, RuntimeOperation.Delegate(sub.value.targetAgent));
      if r.Err? then Fault(s2, RuntimeFault(r.error)) else EmitSubtask(p, s2, sub.value, step)
  }

  function FailRun<W>(p: Providers<W>, s: Loop<W>, reason: string): Flow<W> {
    var (s1, r) := Operate(p, s, RuntimeOperation.Fail(reason));
    if r.Err? then Fault(s1, RuntimeFault(r.error)) else Done(s1, DeepLoopStatus.Failed)
  }

  function ReviseRun<W>(p: Providers<W>, s: Loop<W>, step: PlanStep, ctx: Option<string>): Flow<W> {
    var reason := "reflection requested revision for " + step.stepId;
    var (w, r) := p.revisePlan(s.kernel.world, s.plan, reason, ctx);
    var s1 := Told(s, w, AskRevision(s.plan, reason, ctx, r));
    if r.Err? then Fault(s1, PlanningFault(r.error)) else Done(s1.(plan := s.plan.(revision := r.value)), Revising)
  }

  function DelegateReview<W>(p: Providers<W>, s: Loop<W>, step: PlanStep): Flow<W> {
    var (s1, sub) := ChooseDelegate(p, s, "review " + step.title, step);
    if sub.Err? then Fault(s1, DelegationFault(sub.error)) else EmitSubtask(p, s1, sub.value, step)
  }

  function ReviewOutput<W>(
    p: Providers<W>, s: Loop<W>, step: PlanStep, ctx: Option<string>, artifact: string): Flow<W>
  {
    var (w, review) := p.reviewStep(s.kernel.world, step.stepId, artifact, ctx);
    var s1 := Told(s, w, AskStepReview(step.stepId, artifact, ctx, review));
    if review.Err? then Fault(s1, ReflectionFault(review.error))
    else if !review.value.valid then Fault(s1, ReflectionFault("invalid review"))
    else match review.value.verdict
      case Accept => RecordDone(p, s1, step.stepId)
      case Retry => RecordDone(p, s1, step.stepId)
      case Revise => ReviseRun(p, s1, step, ctx)
      case Delegate => DelegateReview(p, s1, step)
      case Fail => FailRun(p, s1, "reflection failed step " + step.stepId)
  }

  function OutputArtifact<W>(s: Loop<W>, step: PlanStep, action: PlannedAction, body: string): CreateArtifactRequest {
    CreateArtifactRequest(
      ArtifactId(s.plan.planId, step.stepId, s.artifactSeq),
      s.kernel.env.tenant, s.kernel.env.taskId, s.plan.planId, "Output for " + step.title, action.action, body)
  }

  function CreateOutput<W>(p: Providers<W>, s: Loop<W>, step: PlanStep, action: PlannedAction, body: string)
    : (Loop<W>, Result<string, WorkspaceError>)
  {
    var request := OutputArtifact(s, step, action, body);
    var (w, r) := p.createArtifact(s.kernel.world, request);
    var s1 := Told(s, w, Create(request, r));
    var s2 := s1.(log := s1.log.(created := s.log.created + [CreationLog(step, request)]));
    if r.Err? then (s2, r)
    else (s2.(artifactIds := s.artifactIds + [r.value], artifactSeq := (s.artifactSeq + 1) % SEQ_MODULUS), r)
  }

  function StoreOutput<W>(
    p: Providers<W>, s: Loop<W>, step: PlanStep, action: PlannedAction, ctx: Option<string>, body: string): Flow<W>
  {
    var (s1, r) := CreateOutput(p, s, step, action, body);
    if r.Err? then Fault(s1, WorkspaceFault(r.error)) else ReviewOutput(p, s1, step, ctx, r.value)
  }

  // The body of a step no executor is wired for.
  function Placeholder(stepId: string): string {
    "{\"step_id\":\"" + stepId + "\"}"
  }

  function ExecuteBody<W>(
    p: Providers<W>, s: Loop<W>, step: PlanStep, ctx: Option<string>): (Loop<W>, Result<string, StepExecutionError>)
  {
    if p.executor.None? then (s, Ok(Placeholder(step.stepId)))
    else
      var granted := s.budget.Grant();
      var request := ExecuteStepRequest(s.plan.goal, step, ctx, s.outputs, granted);
      var (w, r) := p.executor.value(s.kernel.world, request);
      var s1 := Told(s, w, Execute(request, r));
      var s2 := s1.(log := s1.log.(executed := s.log.executed + [ExecutionLog(step, s.outputs, granted)]));
      if r.Err? then (s2, Err(r.error))
      else
        (s2.(budget := s.budget.Charge(granted, r.value.toolCallsUsed), outputs := s.outputs + [r.value.body]),
         Ok(p.render(r.value.body)))
  }

  function PerformStep<W>(
    p: Providers<W>, s: Loop<W>, step: PlanStep, action: PlannedAction, ctx: Option<string>): Flow<W>
  {
    var (k, ticked) := Tick(p.runtime, s.kernel);
    var s1 := Note(s, k, TickRuntime(ticked));
    if ticked.Err? then Fault(s1, RuntimeFault(ticked.error))
    else
      var (s2, body) := ExecuteBody(p, s1, step, ctx);
      if body.Err? then Fault(s2, ExecutionFault(body.error)) else StoreOutput(p, s2, step, action, ctx, body.value)
  }

  function RunAction<W>(p: Providers<W>, s: Loop<W>, action: PlannedAction): Flow<W> {
    var found := FindStep(s.plan.steps, action.stepId);
    if found.None? then Fault(s, MissingStep(action.stepId))
    else
      var step := found.value;
      var (w, ctx) := p.buildContext(s.kernel.world, step.title, step.stepId);
      var s1 := Told(s, w, AskContext(step.title, step.stepId, ctx));
      if ctx.Err? then Fault(s1, ContextFault(ctx.error))
      else if step.kind.Delegate? then DelegateStep(p, s1, step)
      else PerformStep(p, s1, step, action, ctx.value)
  }

  function RunActions<W>(p: Providers<W>, s: Loop<W>, actions: seq<PlannedAction>): Flow<W>
    decreases |actions|
  {
    if actions == [] then Next(s)
    else
      var f := RunAction(p, s, actions[0]);
      if f.Next? then RunActions(p, f.s, actions[1..]) else f
  }

  // ----- One iteration, and the run -----

  function FinalRef(artifactIds: seq<string>): string {
    if artifactIds == [] then "artifact://deep-loop/final" else artifactIds[|artifactIds| - 1]
  }

  function CompleteRun<W>(p: Providers<W>, s: Loop<W>): Flow<W> {
    var (s1, r) := Operate(p, s, RuntimeOperation.Complete);
    if r.Err? then Fault(s1, RuntimeFault(r.error)) else Done(s1, DeepLoopStatus.Completed)
  }

  function FinalReview<W>(p: Providers<W>, s: Loop<W>, ctx: Option<string>): Flow<W> {
    var (id, artifact) := (s.kernel.env.taskId, FinalRef(s.artifactIds));
    var (w, review) := p.reviewFinal(s.kernel.world, id, artifact, ctx);
    var s1 := Told(s, w, AskFinalReview(id, artifact, ctx, review));
    if review.Err? then Fault(s1, ReflectionFault(review.error))
    else if !review.value.valid then Fault(s1, ReflectionFault("invalid review"))
    else if review.value.verdict.Fail? then FailRun(p, s1, "final review failed")
    else CompleteRun(p, s1)
  }

  // What follows when the planner has nothing more to do.
  function NothingToDo<W>(p: Providers<W>, s: Loop<W>, ctx: Option<string>): Flow<W> {
    if s.subtasks != [] then Done(s, Delegating)
    else
      var (w, state) := p.evaluateCompletion(s.kernel.world, s.plan);
      var s1 := Told(s, w, AskCompletion(s.plan, state));
      if state.Err? then Fault(s1, PlanningFault(state.error))
      else match state.value
        case Satisfied => FinalReview(p, s1, ctx)
        case Unsatisfied => FailRun(p, s1, "completion check unsatisfied")
        case Incomplete => Next(s1)
  }

  /** What an iteration works on: context for the goal, then the planner's choice. */
  function Consult<W>(
    p: Providers<W>, s: Loop<W>): (Loop<W>, Result<(Option<string>, seq<PlannedAction>), DeepLoopError>)
  {
    var (w1, ctx) := p.buildContext(s.kernel.world, s.plan.goal, s.plan.planId);
    var s1 := Told(s, w1, AskContext(s.plan.goal, s.plan.planId, ctx));
    if ctx.Err? then (s1, Err(ContextFault(ctx.error)))
    else
      var (w2, actions) := p.nextActions(w1, s.plan, ctx.value);
      var s2 := Told(s1, w2, AskActions(s.plan, ctx.value, actions));
      (s2.(log := s2.log.(plannerCalls := s.log.plannerCalls + 1)),
       if actions.Err? then Err(PlanningFault(actions.error)) else Ok((ctx.value, actions.value)))
  }

  function Iterate<W>(p: Providers<W>, s: Loop<W>): Flow<W> {
    var (s1, r) := Consult(p, s);
    if r.Err? then Fault(s1, r.error)
    else if r.value.1 == [] then NothingToDo(p, s1, r.value.0)
    else RunActions(p, s1, r.value.1)
  }

  function Iterations<W>(p: Providers<W>, s: Loop<W>, n: nat): Flow<W>
    decreases n
  {
    if n == 0 then Done(s, BudgetExhausted)
    else
      var f := Iterate(p, s);
      if f.Next? then Iterations(p, f.s, n - 1) else f
  }

  function Fresh<W>(k: Kernel<W>, plan: PlanDocument, maxIterations: nat): Loop<W> {
    Loop(plan, k, [], [], 0, ToolBudget.ForIterations(maxIterations), [], RunLog([], 0, 0, [], [], [], plan))
  }

  function Run<W>(p: Providers<W>, env: TaskEnvelope, world: W, plan: PlanDocument, maxIterations: nat): Flow<W> {
    var s := Fresh(Kernel(env, [], world), plan, maxIterations);
    if !env.state.Created? then Iterations(p, s, maxIterations)
    else
      var (s1, r) := Operate(p, s, RuntimeOperation.Start);
      if r.Err? then Fault(s1, RuntimeFault(r.error)) else Iterations(p, s1, maxIterations)
  }
}
