/** The deep loop as the program runs it: nested loops over a plan, an envelope and
    a run's outputs updated in place, refining the loop of module DeepLoop. */
module DeepLoopCoordinator {
  import opened Wrappers
  import opened CanonicalJson
  import opened Lifecycle
  import opened Planning
  import opened StepExecutor
  import opened Delegation
  import opened DeepLoop

  /** How a stretch of the run leaves off. */
  datatype Signal = Continue | Return(status: DeepLoopStatus) | Raise(error: DeepLoopError)

  ghost function FlowOf<W>(signal: Signal, s: Loop<W>): Flow<W> {
    match signal
    case Continue => Next(s)
    case Return(status) => Done(s, status)
    case Raise(e) => Fault(s, e)
  }

  class Coordinator<W> {
    const p: Providers<W>
    const runtime: DwRuntime<W>
    var plan: PlanDocument
    var subtasks: seq<SubtaskEnvelope>
    var artifactIds: seq<string>
    var artifactSeq: nat
    var budget: ToolBudget
    var outputs: seq<Json>
    ghost var log: RunLog<W>

    constructor (p: Providers<W>, runtime: DwRuntime<W>, plan: PlanDocument, maxIterations: nat)
      requires runtime.cfg == p.runtime
      ensures this.p == p && this.runtime == runtime && Valid()
      ensures State() == Fresh(runtime.State(), plan, maxIterations)
    {
      this.p, this.runtime, this.plan := p, runtime, plan;
      subtasks, artifactIds, artifactSeq, outputs := [], [], 0, [];
      budget := ToolBudget.ForIterations(maxIterations);
      log := RunLog([], 0, 0, [], [], [], plan);
    }

    ghost predicate Valid() {
      runtime.cfg == p.runtime
    }

    ghost function State(): Loop<W>
      reads this, runtime
    {
      Loop(plan, runtime.State(), subtasks, artifactIds, artifactSeq, budget, outputs, log)
    }

    // Notes a call that found the runtime as in `before`.
    ghost method Log(before: Kernel<W>, call: Call)
      modifies this`log
      ensures log == Noted(old(log), before, call, runtime.State())
    {
      log := Noted(log, before, call, runtime.State());
    }

    method RecordDoneInPlace(id: string) returns (signal: Signal)
      requires Valid()
      modifies this, runtime
      ensures FlowOf(signal, State()) == RecordDone(p, old(State()), id)
    {
      ghost var k := runtime.State();
      var (w, r) := p.recordStepResult(runtime.world, plan, id, PlanStepStatus.Completed);
      runtime.world := w;
      Log(k, AskRecord(plan, id, PlanStepStatus.Completed, r));
      if r.Err? { return Raise(PlanningFault(r.error)); }
      plan := r.value;
      log := log.(recorded := log.recorded + [id], lastPlan := plan);
      return Continue;
    }

    method EmitSubtaskInPlace(sub: SubtaskEnvelope, step: PlanStep) returns (signal: Signal)
      requires Valid()
      modifies this, runtime
      ensures FlowOf(signal, State()) == EmitSubtask(p, old(State()), sub, step)
    {
      ghost var k := runtime.State();
      var (w, failure) := p.startSubtask(runtime.world, sub);
      runtime.world := w;
      Log(k, StartSubtask(sub, failure));
      log := log.(delegatorCalls := log.delegatorCalls + 1);
      if failure.Some? { return Raise(DelegationFault(failure.value)); }
      subtasks := subtasks + [sub];
      signal := RecordDoneInPlace(step.stepId);
    }

    method ChooseDelegateInPlace(goal: string, step: PlanStep) returns (r: Result<SubtaskEnvelope, string>)
      requires Valid()
      modifies this, runtime
      ensures (State(), r) == ChooseDelegate(p, old(State()), goal, step)
    {
      ghost var k := runtime.State();
      var (w, decision) := p.chooseDelegate(runtime.world, goal, Candidates(step));
      runtime.world := w;
      Log(k, AskDelegate(goal, Candidates(step), decision));
      log := log.(delegatorCalls := log.delegatorCalls + 1);
      return if decision.Err? then Err(decision.error)
             else Ok(BuildSubtaskEnvelope(runtime.env, step, decision.value));
    }

    method MediateInPlace(op: RuntimeOperation) returns (r: Outcome<RuntimeEvent>)
      requires Valid()
      modifies this, runtime
      ensures (State(), r) == Operate(p, old(State()), op)
    {
      ghost var k := runtime.State();
      r := runtime.Apply(op);
      Log(k, Mediate(op, r));
    }

    method DelegateStepInPlace(step: PlanStep) returns (signal: Signal)
      requires Valid()
      modifies this, runtime
      ensures FlowOf(signal, State()) == DelegateStep(p, old(State()), step)
    {
      hide EmitSubtask, ChooseDelegate, Operate;
      var sub := ChooseDelegateInPlace(step.title, step);
      if sub.Err? { return Raise(DelegationFault(sub.error)); }
      var r := MediateInPlace(RuntimeOperation.Delegate(sub.value.targetAgent));
      if r.Err? { return Raise(RuntimeFault(r.error)); }
      signal := EmitSubtaskInPlace(sub.value, step);
    }

    method FailInPlace(reason: string) returns (signal: Signal)
      requires Valid()
      modifies this, runtime
      ensures FlowOf(signal, State()) == FailRun(p, old(State()), reason)
    {
      hide Operate;
      var r := MediateInPlace(RuntimeOperation.Fail(reason));
      if r.Err? { return Raise(RuntimeFault(r.error)); }
      return Return(DeepLoopStatus.Failed);
    }

    method ReviseInPlace(step: PlanStep, ctx: Option<string>) returns (signal: Signal)
      requires Valid()
      modifies this, runtime
      ensures FlowOf(signal, State()) == ReviseRun(p, old(State()), step, ctx)
    {
      ghost var k := runtime.State();
      var reason := "reflection requested revision for " + step.stepId;
      var (w, revision) := p.revisePlan(runtime.world, plan, reason, ctx);
      runtime.world := w;
      Log(k, AskRevision(plan, reason, ctx, revision));
      if revision.Err? { return Raise(PlanningFault(revision.error)); }
      plan := plan.(revision := revision.value);
      return Return(Revising);
    }

    method ReviewInPlace(step: PlanStep, ctx: Option<string>, artifact: string) returns (signal: Signal)
      requires Valid()
      modifies this, runtime
      ensures FlowOf(signal, State()) == ReviewOutput(p, old(State()), step, ctx, artifact)
    {
      hide RecordDone, EmitSubtask, ChooseDelegate, FailRun, ReviseRun;
      ghost var k := runtime.State();
      var (w, review) := p.reviewStep(runtime.world, step.stepId, artifact, ctx);
      runtime.world := w;
      Log(k, AskStepReview(step.stepId, artifact, ctx, review));
      if review.Err? { return Raise(ReflectionFault(review.error)); }
      if !review.value.valid { return Raise(ReflectionFault("invalid review")); }
      match review.value.verdict
      case Accept => signal := RecordDoneInPlace(step.stepId);
      case Retry => signal := RecordDoneInPlace(step.stepId);
      case Revise => signal := ReviseInPlace(step, ctx);
      case Delegate =>
        var sub := ChooseDelegateInPlace("review " + step.title, step);
        if sub.Err? { return Raise(DelegationFault(sub.error)); }
        signal := EmitSubtaskInPlace(sub.value, step);
      case Fail => signal := FailInPlace("reflection failed step " + step.stepId);
    }

    method ExecuteInPlace(step: PlanStep, ctx: Option<string>) returns (body: Result<string, StepExecutionError>)
      requires Valid()
      modifies this, runtime
      ensures (State(), body) == ExecuteBody(p, old(State()), step, ctx)
    {
      if p.executor.None? { return Ok(Placeholder(step.stepId)); }
      ghost var k := runtime.State();
      var granted := budget.Grant();
      var request := ExecuteStepRequest(plan.goal, step, ctx, outputs, granted);
      var (w, execution) := p.executor.value(runtime.world, request);
      runtime.world := w;
      Log(k, Execute(request, execution));
      log := log.(executed := log.executed + [ExecutionLog(step, outputs, granted)]);
      if execution.Err? { return Err(execution.error); }
      budget := budget.Charge(granted, execution.value.toolCallsUsed);
      outputs := outputs + [execution.value.body];
      return Ok(p.render(execution.value.body));
    }

    method CreateInPlace(step: PlanStep, action: PlannedAction, body: string)
      returns (created: Result<string, WorkspaceError>)
      requires Valid()
      modifies this, runtime
      ensures (State(), created) == CreateOutput(p, old(State()), step, action, body)
    {
      ghost var k := runtime.State();
      var request := CreateArtifactRequest(
        ArtifactId(plan.planId, step.stepId, artifactSeq), runtime.env.tenant, runtime.env.taskId, plan.planId,
        "Output for " + step.title, action.action, body);
      var (w, answer) := p.createArtifact(runtime.world, request);
      runtime.world, created := w, answer;
      Log(k, Create(request, created));
      log := log.(created := log.created + [CreationLog(step, request)]);
      if created.Err? { return; }
      artifactIds := artifactIds + [created.value];
      artifactSeq := (artifactSeq + 1) % SEQ_MODULUS;
    }

    method PerformInPlace(step: PlanStep, action: PlannedAction, ctx: Option<string>) returns (signal: Signal)
      requires Valid()
      modifies this, runtime
      ensures FlowOf(signal, State()) == PerformStep(p, old(State()), step, action, ctx)
    {
      hide ExecuteBody, ReviewOutput, Tick, CreateOutput;
      ghost var k := runtime.State();
      var ticked := runtime.TickEngine();
      Log(k, TickRuntime(ticked));
      if ticked.Err? { return Raise(RuntimeFault(ticked.error)); }
      var body := ExecuteInPlace(step, ctx);
      if body.Err? { return Raise(ExecutionFault(body.error)); }
      var created := CreateInPlace(step, action, body.value);
      if created.Err? { return Raise(WorkspaceFault(created.error)); }
      signal := ReviewInPlace(step, ctx, created.value);
    }

    method ActInPlace(action: PlannedAction) returns (signal: Signal)
      requires Valid()
      modifies this, runtime
      ensures FlowOf(signal, State()) == RunAction(p, old(State()), action)
    {
      hide PerformStep, DelegateStep;
      var found := FindStep(plan.steps, action.stepId);
      if found.None? { return Raise(MissingStep(action.stepId)); }
      var step := found.value;
      ghost var k := runtime.State();
      var (w, ctx) := p.buildContext(runtime.world, step.title, step.stepId);
      runtime.world := w;
      Log(k, AskContext(step.title, step.stepId, ctx));
      if ctx.Err? { return Raise(ContextFault(ctx.error)); }
      if step.kind.Delegate? {
        signal := DelegateStepInPlace(step);
      } else {
        signal := PerformInPlace(step, action, ctx.value);
      }
    }

    method FinalReviewInPlace(ctx: Option<string>) returns (signal: Signal)
      requires Valid()
      modifies this, runtime
      ensures FlowOf(signal, State()) == FinalReview(p, old(State()), ctx)
    {
      hide FailRun, Operate;
      ghost var k := runtime.State();
      var (id, artifact) := (runtime.env.taskId, FinalRef(artifactIds));
      var (w, review) := p.reviewFinal(runtime.world, id, artifact, ctx);
      runtime.world := w;
      Log(k, AskFinalReview(id, artifact, ctx, review));
      if review.Err? { return Raise(ReflectionFault(review.error)); }
      if !review.value.valid { return Raise(ReflectionFault("invalid review")); }
      if review.value.verdict.Fail? {
        signal := FailInPlace("final review failed");
      } else {
        var r := MediateInPlace(RuntimeOperation.Complete);
        signal := if r.Err? then Raise(RuntimeFault(r.error)) else Return(DeepLoopStatus.Completed);
      }
    }

    method FinishInPlace(ctx: Option<string>) returns (signal: Signal)
      requires Valid()
      modifies this, runtime
      ensures FlowOf(signal, State()) == NothingToDo(p, old(State()), ctx)
    {
      hide FailRun, FinalReview;
      if subtasks != [] { return Return(Delegating); }
      ghost var k := runtime.State();
      var (w, completion) := p.evaluateCompletion(runtime.world, plan);
      runtime.world := w;
      Log(k, AskCompletion(plan, completion));
      if completion.Err? { return Raise(PlanningFault(completion.error)); }
      match completion.value
      case Satisfied => signal := FinalReviewInPlace(ctx);
      case Unsatisfied => signal := FailInPlace("completion check unsatisfied");
      case Incomplete => signal := Continue;
    }

    method ConsultInPlace() returns (r: Result<(Option<string>, seq<PlannedAction>), DeepLoopError>)
      requires Valid()
      modifies this, runtime
      ensures (State(), r) == Consult(p, old(State()))
    {
      ghost var k := runtime.State();
      var (w, ctx) := p.buildContext(runtime.world, plan.goal, plan.planId);
      runtime.world := w;
      Log(k, AskContext(plan.goal, plan.planId, ctx));
      if ctx.Err? { return Err(ContextFault(ctx.error)); }
      k := runtime.State();
      var (w2, actions) := p.nextActions(runtime.world, plan, ctx.value);
      runtime.world := w2;
      Log(k, AskActions(plan, ctx.value, actions));
      log := log.(plannerCalls := log.plannerCalls + 1);
      return if actions.Err? then Err(PlanningFault(actions.error)) else Ok((ctx.value, actions.value));
    }

    method IterateInPlace() returns (signal: Signal)
      requires Valid()
      modifies this, runtime
      ensures FlowOf(signal, State()) == Iterate(p, old(State()))
    {
      hide RunAction, NothingToDo, Consult;
      var consulted := ConsultInPlace();
      if consulted.Err? { return Raise(consulted.error); }
      var (ctx, actions) := consulted.value;
      if actions == [] {
        signal := FinishInPlace(ctx);
        return;
      }
      ghost var asked := State();
      assert Iterate(p, old(State())) == RunActions(p, asked, actions);
      for i := 0 to |actions|
        invariant RunActions(p, asked, actions) == RunActions(p, State(), actions[i..])
      {
        assert actions[i..][1..] == actions[i + 1..];
        signal := ActInPlace(actions[i]);
        if !signal.Continue? { return; }
      }
      return Continue;
    }

    /** Runs the loop to its end. The run is the one module DeepLoop describes. */
    method RunLoop(maxIterations: nat) returns (signal: Signal)
      requires Valid() && State() == Fresh(Kernel(runtime.env, [], runtime.world), plan, maxIterations)
      modifies this, runtime
      ensures FlowOf(signal, State()) == Run(p, old(runtime.env), old(runtime.world), old(plan), maxIterations)
    {
      hide Iterate, Operate;
      if runtime.env.state.Created? {
        var r := MediateInPlace(RuntimeOperation.Start);
        if r.Err? { return Raise(RuntimeFault(r.error)); }
      }
      ghost var begun := State();
      assert Run(p, old(runtime.env), old(runtime.world), old(plan), maxIterations) ==
          Iterations(p, begun, maxIterations);
      for i := 0 to maxIterations
        invariant Iterations(p, begun, maxIterations) == Iterations(p, State(), maxIterations - i)
      {
        signal := IterateInPlace();
        if !signal.Continue? { return; }
      }
      return Return(BudgetExhausted);
    }
  }
}
