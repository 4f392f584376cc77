/** The deep loop told call by call: which call may follow which, with what arguments,
    and how a run may end after its last one. Every run, with any providers, is such a
    trace, and its state is what its calls add up to. */
module RunTraces {
  import opened Wrappers
  import opened Text
  import opened CanonicalJson
  import opened Lifecycle
  import opened Planning
  import opened StepExecutor
  import opened Delegation
  import opened DeepLoop

  // ----- What the calls of a run add up to -----

  /** A run's providers, and what it begins with. */
  datatype Script<!W> = Script(p: Providers<W>, plan: PlanDocument, start: Kernel<W>, budget: ToolBudget)

  datatype Account = Account(
    last: Option<Call>, plan: PlanDocument, todo: seq<PlannedAction>, planContext: Option<string>,
    stepContext: Option<string>, decision: Option<DelegationDecision>, outputs: seq<Json>, budget: ToolBudget,
    artifactIds: seq<string>, subtasks: seq<SubtaskEnvelope>, recorded: seq<string>, executed: seq<ExecutionLog>,
    created: seq<CreationLog>, plannerCalls: nat, delegatorCalls: nat)

  // The step at hand: the first that carries the id of the first action still to do.
  ghost function StepAtHand(a: Account): Option<PlanStep> {
    if a.todo == [] then None else FindStep(a.plan.steps, a.todo[0].stepId)
  }

  /** What one more call adds. */
  ghost function Enter(a: Account, call: Call): Account {
    var b := a.(last := Some(call));
    match call
    case AskContext(_, _, context) =>
      if context.Err? then b
      else if a.todo == [] then b.(planContext := context.value)
      else b.(stepContext := context.value)
    case AskActions(_, _, actions) =>
      b.(plannerCalls := a.plannerCalls + 1, todo := if actions.Ok? then actions.value else [])
    case AskRecord(_, id, _, recorded) =>
      if recorded.Err? then b
      else b.(plan := recorded.value, recorded := a.recorded + [id], todo := if a.todo == [] then [] else a.todo[1..])
    case AskRevision(_, _, _, revision) =>
      if revision.Err? then b else b.(plan := a.plan.(revision := revision.value))
    case AskDelegate(_, _, decision) =>
      b.(delegatorCalls := a.delegatorCalls + 1, decision := if decision.Ok? then Some(decision.value) else None)
    case StartSubtask(sub, failure) =>
      b.(delegatorCalls := a.delegatorCalls + 1, subtasks := if failure.None? then a.subtasks + [sub] else a.subtasks)
    case Execute(task, execution) =>
      var c := b.(executed := a.executed + [ExecutionLog(task.step, task.priorOutputs, task.maxToolCalls)]);
      if execution.Err? then c
      else c.(outputs := a.outputs + [execution.value.body],
              budget := a.budget.Charge(task.maxToolCalls, execution.value.toolCallsUsed))
    case Create(request, id) =>
      var step := StepAtHand(a);
      var c := if step.Some? then b.(created := a.created + [CreationLog(step.value, request)]) else b;
      if id.Err? then c else c.(artifactIds := a.artifactIds + [id.value])
    case _ => b
  }

  ghost function Opened<W>(x: Script<W>): Account {
    Account(None, x.plan, [], None, None, None, [], x.budget, [], [], [], [], [], 0, 0)
  }

  ghost function AccountOf<W>(x: Script<W>, h: seq<Moment<W>>): Account {
    if h == [] then Opened(x) else Enter(AccountOf(x, h[..|h| - 1]), h[|h| - 1].call)
  }

  // ----- Which call follows -----

  // An iteration begins by asking for context for the goal.
  ghost predicate Iterates(a: Account, call: Call) {
    call.AskContext? && (call.query, call.ref) == (a.plan.goal, a.plan.planId)
  }

  // An action begins by asking for context for its step, which the plan must have.
  ghost predicate Begins(a: Account, call: Call) {
    var step := StepAtHand(a);
    step.Some? && call.AskContext? && (call.query, call.ref) == (step.value.title, step.value.stepId)
  }

  ghost predicate GoesOn(a: Account, call: Call) {
    if a.todo == [] then Iterates(a, call) else Begins(a, call)
  }

  ghost predicate Records(a: Account, step: PlanStep, call: Call) {
    call.AskRecord? && (call.plan, call.stepId, call.status) == (a.plan, step.stepId, PlanStepStatus.Completed)
  }

  ghost predicate Chooses(goal: string, step: PlanStep, call: Call) {
    call.AskDelegate? && call.goal == goal &&
    call.agents == if step.assignedAgent.Some? then [step.assignedAgent.value] else []
  }

  // The agent a step is handed to: whom the delegator named first, unless it declined.
  ghost function AgentFor(step: PlanStep, decision: DelegationDecision): string {
    if !decision.mode.NoDelegation? && decision.targetAgents != [] then decision.targetAgents[0]
    else if step.assignedAgent.Some? then step.assignedAgent.value
    else "delegate"
  }

  /** The subtask a step is handed on as. */
  ghost predicate Hands(env: TaskEnvelope, step: PlanStep, decision: DelegationDecision, sub: SubtaskEnvelope) {
    && sub.targetAgent == AgentFor(step, decision)
    && (sub.parentRunId, sub.sourceAgentId, sub.goal) == (env.taskId, env.workerId, step.title)
    && sub.subtaskId == env.taskId + "::" + step.stepId
    && sub.correlationId == env.taskId + "::" + step.stepId + "::delegation"
    && sub.toolId == (if step.assignedAgent.Some? then step.assignedAgent.value + "_delegate" else "delegate")
    && (sub.contextPackageRef, sub.contextScope) == ("context://" + step.stepId, ParentTaskOnly)
    && sub.expectedOutputSchema ==
       (if step.outputSchemaRef.Some? then step.outputSchemaRef.value else "schema://step-output")
    && (sub.permissionsProfile, sub.deadline) == ("restricted", "2026-04-16T00:00:00Z")
    && sub.returnPolicy == if decision.mergePolicy.CollectAllResults? then CollectAll else FirstReturn
  }

  ghost predicate Starts(a: Account, env: TaskEnvelope, step: PlanStep, call: Call) {
    call.StartSubtask? && a.decision.Some? && Hands(env, step, a.decision.value, call.subtask)
  }

  /** The request for a step's artifact. */
  ghost predicate Stores(a: Account, env: TaskEnvelope, step: PlanStep, body: string, call: Call) {
    && call.Create? && a.todo != []
    && call.request == CreateArtifactRequest(
      "artifact://" + a.plan.planId + "/" + step.stepId + "/" + Decimal(|a.artifactIds| % 0x1_0000_0000),
      env.tenant, env.taskId, a.plan.planId, "Output for " + step.title, a.todo[0].action, body)
  }

  /** The task an executor is given: the step with its context, every output so far, and
      as many tool calls as the budget grants. */
  ghost predicate Tasks(a: Account, step: PlanStep, call: Call) {
    && call.Execute?
    && (call.task.goal, call.task.step, call.task.context) == (a.plan.goal, step, a.stepContext)
    && call.task.priorOutputs == a.outputs
    && call.task.maxToolCalls == a.budget.Grant()
  }

  ghost predicate Fails(reason: string, call: Call) {
    call.Mediate? && call.operation == RuntimeOperation.Fail(reason)
  }

  // What a review of a step's output leads to.
  ghost predicate Heeds(a: Account, step: PlanStep, review: Result<ReviewOutcome, string>, call: Call) {
    review.Ok? && review.value.valid &&
    match review.value.verdict
    case Accept => Records(a, step, call)
    case Retry => Records(a, step, call)
    case Revise =>
      call.AskRevision? && (call.plan, call.stepContext) == (a.plan, a.stepContext) &&
      call.reason == "reflection requested revision for " + step.stepId
    case Delegate => Chooses("review " + step.title, step, call)
    case Fail => Fails("reflection failed step " + step.stepId, call)
  }

  // What the final review leads to.
  ghost predicate HeedsFinally(review: Result<ReviewOutcome, string>, call: Call) {
    review.Ok? && review.value.valid &&
    if review.value.verdict.Fail? then Fails("final review failed", call)
    else call.Mediate? && call.operation == Complete
  }

  /** The calls a run may make with this account, for a task as in `env`. */
  ghost predicate Follows<W>(x: Script<W>, a: Account, env: TaskEnvelope, call: Call) {
    if a.last.None? then
      if x.start.env.state.Created? then call.Mediate? && call.operation == Start else Iterates(a, call)
    else
      var at := StepAtHand(a);
      match a.last.value
      case AskContext(_, _, context) =>
        context.Ok? &&
        if a.todo == [] then call.AskActions? && (call.plan, call.planContext) == (a.plan, a.planContext)
        else at.Some? && if at.value.kind.Delegate? then Chooses(at.value.title, at.value, call) else call.TickRuntime?
      case AskActions(_, _, actions) =>
        actions.Ok? &&
        if actions.value != [] then Begins(a, call)
        else a.subtasks == [] && call.AskCompletion? && call.plan == a.plan
      case AskCompletion(_, completion) =>
        completion.Ok? && (match completion.value
          case Satisfied =>
            && call.AskFinalReview? && (call.taskId, call.planContext) == (env.taskId, a.planContext)
            && call.artifact ==
               if a.artifactIds == [] then "artifact://deep-loop/final" else a.artifactIds[|a.artifactIds| - 1]
          case Unsatisfied => Fails("completion check unsatisfied", call)
          case Incomplete => Iterates(a, call))
      case AskRecord(_, _, _, recorded) => recorded.Ok? && GoesOn(a, call)
      case AskRevision(_, _, _, _) => false
      case AskStepReview(_, _, _, review) => at.Some? && Heeds(a, at.value, review, call)
      case AskFinalReview(_, _, _, review) => HeedsFinally(review, call)
      case AskDelegate(_, _, decision) =>
        at.Some? && decision.Ok? &&
        if at.value.kind.Delegate? then
          call.Mediate? && call.operation == RuntimeOperation.Delegate(AgentFor(at.value, decision.value))
        else Starts(a, env, at.value, call)
      case StartSubtask(_, failure) => at.Some? && failure.None? && Records(a, at.value, call)
      case Create(_, id) =>
        at.Some? && id.Ok? && call.AskStepReview? &&
        (call.stepId, call.artifact, call.stepContext) == (at.value.stepId, id.value, a.stepContext)
      case Execute(_, execution) =>
        at.Some? && execution.Ok? && Stores(a, env, at.value, x.p.render(execution.value.body), call)
      case TickRuntime(events) =>
        at.Some? && events.Ok? &&
        if x.p.executor.Some? then Tasks(a, at.value, call)
        else Stores(a, env, at.value, "{\"step_id\":\"" + at.value.stepId + "\"}", call)
      case Mediate(operation, event) =>
        event.Ok? && (match operation
          case Start => Iterates(a, call)
          case Delegate(_) => at.Some? && Starts(a, env, at.value, call)
          case _ => false)
  }

  /** How a run may end with this account. */
  ghost predicate Ends<W>(x: Script<W>, a: Account, f: Flow<W>) {
    if a.last.None? then !x.start.env.state.Created? && f.Done? && f.status == BudgetExhausted
    else match a.last.value
      case AskContext(_, _, context) => context.Err? && f.Fault? && f.error == ContextFault(context.error)
      case AskActions(_, _, actions) =>
        if actions.Err? then f.Fault? && f.error == PlanningFault(actions.error)
        else if actions.value == [] then a.subtasks != [] && f.Done? && f.status == Delegating
        else StepAtHand(a).None? && f.Fault? && f.error == MissingStep(actions.value[0].stepId)
      case AskCompletion(_, completion) =>
        if completion.Err? then f.Fault? && f.error == PlanningFault(completion.error)
        else completion.value == Incomplete && f.Done? && f.status == BudgetExhausted
      case AskRecord(_, _, _, recorded) =>
        if recorded.Err? then f.Fault? && f.error == PlanningFault(recorded.error)
        else if a.todo == [] then f.Done? && f.status == BudgetExhausted
        else StepAtHand(a).None? && f.Fault? && f.error == MissingStep(a.todo[0].stepId)
      case AskRevision(_, _, _, revision) =>
        if revision.Err? then f.Fault? && f.error == PlanningFault(revision.error) else f.Done? && f.status == Revising
      case AskStepReview(_, _, _, review) => EndsOnReview(review, f)
      case AskFinalReview(_, _, _, review) => EndsOnReview(review, f)
      case AskDelegate(_, _, decision) => decision.Err? && f.Fault? && f.error == DelegationFault(decision.error)
      case StartSubtask(_, failure) => failure.Some? && f.Fault? && f.error == DelegationFault(failure.value)
      case Create(_, id) => id.Err? && f.Fault? && f.error == WorkspaceFault(id.error)
      case Execute(_, execution) => execution.Err? && f.Fault? && f.error == ExecutionFault(execution.error)
      case TickRuntime(events) => events.Err? && f.Fault? && f.error == RuntimeFault(events.error)
      case Mediate(operation, event) =>
        if event.Err? then f.Fault? && f.error == RuntimeFault(event.error)
        else f.Done? && (match operation
          case Start => f.status == BudgetExhausted
          case Complete => f.status == DeepLoopStatus.Completed
          case Fail(_) => f.status == DeepLoopStatus.Failed
          case _ => false)
  }

  // A review the loop cannot use ends the run.
  ghost predicate EndsOnReview<W>(review: Result<ReviewOutcome, string>, f: Flow<W>) {
    f.Fault? &&
    if review.Err? then f.error == ReflectionFault(review.error)
    else !review.value.valid && f.error == ReflectionFault("invalid review")
  }

  // ----- Whole traces -----

  ghost predicate Untouched<W>(m: Moment<W>) {
    m.after.env == m.before.env && m.after.observed == m.before.observed
  }

  /** The call was answered by the provider it went to, in the memory it found. */
  ghost predicate Answered<W>(p: Providers<W>, m: Moment<W>) {
    var (w, w') := (m.before.world, m.after.world);
    match m.call
    case AskContext(q, r, answer) => Untouched(m) && p.buildContext(w, q, r) == (w', answer)
    case AskActions(plan, ctx, answer) => Untouched(m) && p.nextActions(w, plan, ctx) == (w', answer)
    case AskCompletion(plan, answer) => Untouched(m) && p.evaluateCompletion(w, plan) == (w', answer)
    case AskRecord(plan, id, status, answer) => Untouched(m) && p.recordStepResult(w, plan, id, status) == (w', answer)
    case AskRevision(plan, reason, ctx, answer) => Untouched(m) && p.revisePlan(w, plan, reason, ctx) == (w', answer)
    case AskStepReview(id, artifact, ctx, answer) => Untouched(m) && p.reviewStep(w, id, artifact, ctx) == (w', answer)
    case AskFinalReview(id, artifact, ctx, answer) =>
      Untouched(m) && p.reviewFinal(w, id, artifact, ctx) == (w', answer)
    case AskDelegate(goal, agents, answer) => Untouched(m) && p.chooseDelegate(w, goal, agents) == (w', answer)
    case StartSubtask(sub, answer) => Untouched(m) && p.startSubtask(w, sub) == (w', answer)
    case Create(request, answer) => Untouched(m) && p.createArtifact(w, request) == (w', answer)
    case Execute(task, answer) => Untouched(m) && p.executor.Some? && p.executor.value(w, task) == (w', answer)
    case Mediate(op, answer) => ApplyOperation(p.runtime, m.before, op) == (m.after, answer)
    case TickRuntime(answer) => Tick(p.runtime, m.before) == (m.after, answer)
  }

  /** Each call found what the one before it left, followed it by the rules, and was
      answered by its provider; `now` is what the last one left. */
  ghost predicate Trace<W>(x: Script<W>, h: seq<Moment<W>>, now: Kernel<W>) {
    if h == [] then now == x.start
    else
      var (front, last) := (h[..|h| - 1], h[|h| - 1]);
      && last.after == now && Trace(x, front, last.before)
      && Answered(x.p, last) && Follows(x, AccountOf(x, front), last.before.env, last.call)
  }

  /** The state of the loop is what its calls add up to. */
  ghost predicate Adds<W>(a: Account, s: Loop<W>) {
    && (s.plan, s.subtasks, s.artifactIds, s.outputs, s.budget) ==
        (a.plan, a.subtasks, a.artifactIds, a.outputs, a.budget)
    && s.artifactSeq == |a.artifactIds| % 0x1_0000_0000
    && (s.log.recorded, s.log.executed, s.log.created) == (a.recorded, a.executed, a.created)
    && (s.log.plannerCalls, s.log.delegatorCalls) == (a.plannerCalls, a.delegatorCalls)
  }

  ghost function Now<W>(x: Script<W>, s: Loop<W>): Account {
    AccountOf(x, s.log.calls)
  }

  ghost predicate Traced<W>(x: Script<W>, s: Loop<W>) {
    Trace(x, s.log.calls, s.kernel) && Adds(Now(x, s), s)
  }

  // ----- One call -----

  lemma Enters<W>(x: Script<W>, h: seq<Moment<W>>, k: Kernel<W>, call: Call, k': Kernel<W>)
    requires Trace(x, h, k) && Answered(x.p, Moment(k, call, k')) && Follows(x, AccountOf(x, h), k.env, call)
    ensures Trace(x, h + [Moment(k, call, k')], k')
    ensures AccountOf(x, h + [Moment(k, call, k')]) == Enter(AccountOf(x, h), call)
  {
    assert (h + [Moment(k, call, k')])[..|h|] == h;
  }

  /** A call that follows by the rules and is answered extends the trace. */
  lemma Makes<W>(x: Script<W>, s: Loop<W>, k: Kernel<W>, call: Call)
    requires Traced(x, s) && Answered(x.p, Moment(s.kernel, call, k)) && Follows(x, Now(x, s), s.kernel.env, call)
    ensures var s' := Note(s, k, call); Trace(x, s'.log.calls, s'.kernel) && Now(x, s') == Enter(Now(x, s), call)
  {
    hide Trace, Follows, Answered, Enter;
    Enters(x, s.log.calls, s.kernel, call, k);
  }

  // A piece of the run goes on after recording a step, or stops as its last call demands.
  ghost predicate Concludes<W>(x: Script<W>, f: Flow<W>, todo: seq<PlannedAction>) {
    && Traced(x, f.s)
    && if f.Next? then Recorded(Now(x, f.s)) && Now(x, f.s).todo == todo else Ends(x, Now(x, f.s), f)
  }

  ghost predicate Recorded(a: Account) {
    a.last.Some? && a.last.value.AskRecord? && a.last.value.recorded.Ok?
  }

  // ----- Each piece of an action is traced -----

  // Step `step` may now be recorded.
  ghost predicate MayRecord(a: Account, step: PlanStep) {
    && StepAtHand(a) == Some(step) && a.last.Some?
    && (match a.last.value
        case AskStepReview(_, _, _, review) =>
          review.Ok? && review.value.valid && (review.value.verdict.Accept? || review.value.verdict.Retry?)
        case StartSubtask(_, failure) => failure.None?
        case _ => false)
  }

  lemma RecordDoneTraced<W>(x: Script<W>, s: Loop<W>, step: PlanStep)
    requires Traced(x, s) && MayRecord(Now(x, s), step)
    ensures Concludes(x, RecordDone(x.p, s, step.stepId), Now(x, s).todo[1..])
  {
    hide Trace;
    var (w, r) := x.p.recordStepResult(s.kernel.world, s.plan, step.stepId, PlanStepStatus.Completed);
    Makes(x, s, s.kernel.(world := w), AskRecord(s.plan, step.stepId, PlanStepStatus.Completed, r));
  }

  // The step may now be handed on as `sub`.
  ghost predicate MayStart(a: Account, env: TaskEnvelope, step: PlanStep, sub: SubtaskEnvelope) {
    && StepAtHand(a) == Some(step) && a.last.Some? && a.decision.Some? && Hands(env, step, a.decision.value, sub)
    && (match a.last.value
        case AskDelegate(_, _, decision) => decision.Ok? && !step.kind.Delegate?
        case Mediate(operation, event) => operation.Delegate? && event.Ok?
        case _ => false)
  }

  lemma EmitSubtaskTraced<W>(x: Script<W>, s: Loop<W>, sub: SubtaskEnvelope, step: PlanStep)
    requires Traced(x, s) && MayStart(Now(x, s), s.kernel.env, step, sub)
    ensures Concludes(x, EmitSubtask(x.p, s, sub, step), Now(x, s).todo[1..])
  {
    hide Trace, RecordDone, Hands;
    var (w, failure) := x.p.startSubtask(s.kernel.world, sub);
    var call := StartSubtask(sub, failure);
    Makes(x, s, s.kernel.(world := w), call);
    var s1 := ToDelegator(Told(s, w, call));
    if failure.None? { RecordDoneTraced(x, s1.(subtasks := s.subtasks + [sub]), step); }
  }

  // A delegate may now be chosen for the step.
  ghost predicate MayChoose(a: Account, step: PlanStep, goal: string) {
    && StepAtHand(a) == Some(step) && a.last.Some?
    && (match a.last.value
        case AskContext(_, _, context) => context.Ok? && step.kind.Delegate? && goal == step.title
        case AskStepReview(_, _, _, review) =>
          review.Ok? && review.value.valid && review.value.verdict.Delegate? && goal == "review " + step.title
        case _ => false)
  }

  lemma HandsAsBuilt(env: TaskEnvelope, step: PlanStep, decision: DelegationDecision)
    ensures Hands(env, step, decision, BuildSubtaskEnvelope(env, step, decision))
  {
  }

  lemma ChooseDelegateTraced<W>(x: Script<W>, s: Loop<W>, goal: string, step: PlanStep)
    requires Traced(x, s) && MayChoose(Now(x, s), step, goal)
    ensures var ((s', r), a) := (ChooseDelegate(x.p, s, goal, step), Now(x, s));
      && Traced(x, s') && s'.kernel.env == s.kernel.env
      && Now(x, s').todo == a.todo && StepAtHand(Now(x, s')) == Some(step)
      && Now(x, s').last.Some? && Now(x, s').last.value.AskDelegate?
      && (match r
          case Err(e) => Now(x, s').last.value.decision == Err(e)
          case Ok(sub) =>
            && Now(x, s').decision.Some? && Now(x, s').last.value.decision == Ok(Now(x, s').decision.value)
            && Hands(s.kernel.env, step, Now(x, s').decision.value, sub))
  {
    hide Trace, Hands, BuildSubtaskEnvelope;
    var (w, decision) := x.p.chooseDelegate(s.kernel.world, goal, Candidates(step));
    Makes(x, s, s.kernel.(world := w), AskDelegate(goal, Candidates(step), decision));
    if decision.Ok? { HandsAsBuilt(s.kernel.env, step, decision.value); }
  }

  lemma OperateTraced<W>(x: Script<W>, s: Loop<W>, op: RuntimeOperation)
    requires Traced(x, s)
    requires var r := Operate(x.p, s, op).1; Follows(x, Now(x, s), s.kernel.env, Mediate(op, r))
    ensures var (s', r) := Operate(x.p, s, op);
      && Traced(x, s') && Now(x, s') == Now(x, s).(last := Some(Mediate(op, r)))
      && (s'.kernel.env.taskId, s'.kernel.env.workerId, s'.kernel.env.tenant) ==
         (s.kernel.env.taskId, s.kernel.env.workerId, s.kernel.env.tenant)
  {
    hide Trace, Follows;
    var (k, r) := ApplyOperation(x.p.runtime, s.kernel, op);
    Makes(x, s, k, Mediate(op, r));
  }

  lemma HandsOnward(
    env: TaskEnvelope, env': TaskEnvelope, step: PlanStep, decision: DelegationDecision, sub: SubtaskEnvelope)
    requires Hands(env, step, decision, sub) && (env'.taskId, env'.workerId) == (env.taskId, env.workerId)
    ensures Hands(env', step, decision, sub) && sub.targetAgent == AgentFor(step, decision)
  {
  }

  lemma DelegateStepTraced<W>(x: Script<W>, s: Loop<W>, step: PlanStep)
    requires Traced(x, s) && MayChoose(Now(x, s), step, step.title) && step.kind.Delegate?
    ensures Concludes(x, DelegateStep(x.p, s, step), Now(x, s).todo[1..])
  {
    hide Trace, EmitSubtask, ChooseDelegate, Hands, Operate, AgentFor, Adds;
    ChooseDelegateTraced(x, s, step.title, step);
    var (s1, sub) := ChooseDelegate(x.p, s, step.title, step);
    if sub.Ok? {
      HandOnTraced(x, s1, step, sub.value);
      hide Follows, AccountOf;
      var (s2, r) := Operate(x.p, s1, RuntimeOperation.Delegate(sub.value.targetAgent));
      if r.Ok? { EmitSubtaskTraced(x, s2, sub.value, step); }
    }
  }

  lemma DelegationFollows<W>(
    x: Script<W>, a: Account, env: TaskEnvelope, step: PlanStep, op: RuntimeOperation, event: Outcome<RuntimeEvent>)
    requires StepAtHand(a) == Some(step) && step.kind.Delegate? && a.decision.Some?
    requires a.last.Some? && a.last.value.AskDelegate? && a.last.value.decision == Ok(a.decision.value)
    requires op == RuntimeOperation.Delegate(AgentFor(step, a.decision.value))
    ensures Follows(x, a, env, Mediate(op, event))
  {
  }

  // The runtime is asked to let the subtask go to the agent it names.
  lemma HandOnTraced<W>(x: Script<W>, s: Loop<W>, step: PlanStep, sub: SubtaskEnvelope)
    requires Traced(x, s) && StepAtHand(Now(x, s)) == Some(step) && step.kind.Delegate?
    requires Now(x, s).decision.Some? && Now(x, s).last.Some? && Now(x, s).last.value.AskDelegate?
    requires Now(x, s).last.value.decision == Ok(Now(x, s).decision.value)
    requires Hands(s.kernel.env, step, Now(x, s).decision.value, sub)
    ensures var op := RuntimeOperation.Delegate(sub.targetAgent);
      var (s', r) := Operate(x.p, s, op);
      && Traced(x, s') && Now(x, s') == Now(x, s).(last := Some(Mediate(op, r)))
      && (r.Ok? ==> MayStart(Now(x, s'), s'.kernel.env, step, sub))
  {
    hide Trace, Adds, Hands, Operate, AgentFor, Follows, AccountOf;
    var op := RuntimeOperation.Delegate(sub.targetAgent);
    HandsOnward(s.kernel.env, s.kernel.env, step, Now(x, s).decision.value, sub);
    DelegationFollows(x, Now(x, s), s.kernel.env, step, op, Operate(x.p, s, op).1);
    OperateTraced(x, s, op);
    HandsOnward(s.kernel.env, Operate(x.p, s, op).0.kernel.env, step, Now(x, s).decision.value, sub);
  }

  lemma DelegateReviewTraced<W>(x: Script<W>, s: Loop<W>, step: PlanStep)
    requires Traced(x, s) && MayChoose(Now(x, s), step, "review " + step.title) && !step.kind.Delegate?
    ensures Concludes(x, DelegateReview(x.p, s, step), Now(x, s).todo[1..])
  {
    hide Trace, EmitSubtask, ChooseDelegate, Hands;
    ChooseDelegateTraced(x, s, "review " + step.title, step);
    var (s1, sub) := ChooseDelegate(x.p, s, "review " + step.title, step);
    if sub.Ok? { EmitSubtaskTraced(x, s1, sub.value, step); }
  }

  lemma FailRunTraced<W>(x: Script<W>, s: Loop<W>, reason: string)
    requires Traced(x, s)
    requires forall r :: Follows(x, Now(x, s), s.kernel.env, Mediate(RuntimeOperation.Fail(reason), r))
    ensures var f := FailRun(x.p, s, reason); Traced(x, f.s) && !f.Next? && Ends(x, Now(x, f.s), f)
  {
    hide Trace, Follows, Operate;
    OperateTraced(x, s, RuntimeOperation.Fail(reason));
  }

  lemma ReviseRunTraced<W>(x: Script<W>, s: Loop<W>, step: PlanStep, ctx: Option<string>)
    requires Traced(x, s) && StepAtHand(Now(x, s)) == Some(step) && Now(x, s).stepContext == ctx
    requires Now(x, s).last.Some? && Now(x, s).last.value.AskStepReview?
    requires Now(x, s).last.value.review == Ok(ReviewOutcome(Revise, true))
    ensures var f := ReviseRun(x.p, s, step, ctx); Traced(x, f.s) && !f.Next? && Ends(x, Now(x, f.s), f)
  {
    hide Trace;
    var reason := "reflection requested revision for " + step.stepId;
    var (w, r) := x.p.revisePlan(s.kernel.world, s.plan, reason, ctx);
    Makes(x, s, s.kernel.(world := w), AskRevision(s.plan, reason, ctx, r));
  }

  // What the step's review is about has just been created.
  ghost predicate MayReview(a: Account, step: PlanStep, ctx: Option<string>, artifact: string) {
    && StepAtHand(a) == Some(step) && a.stepContext == ctx && a.last.Some?
    && a.last.value.Create? && a.last.value.artifactId == Ok(artifact)
  }

  lemma ReviewOutputTraced<W>(x: Script<W>, s: Loop<W>, step: PlanStep, ctx: Option<string>, artifact: string)
    requires Traced(x, s) && MayReview(Now(x, s), step, ctx, artifact) && !step.kind.Delegate?
    ensures Concludes(x, ReviewOutput(x.p, s, step, ctx, artifact), Now(x, s).todo[1..])
  {
    hide Trace, RecordDone, ReviseRun, DelegateReview, FailRun;
    var (w, review) := x.p.reviewStep(s.kernel.world, step.stepId, artifact, ctx);
    var call := AskStepReview(step.stepId, artifact, ctx, review);
    Makes(x, s, s.kernel.(world := w), call);
    var s1 := Told(s, w, call);
    assert Traced(x, s1) && Now(x, s1) == Now(x, s).(last := Some(call));
    if review.Ok? && review.value.valid {
      match review.value.verdict
      case Accept => RecordDoneTraced(x, s1, step);
      case Retry => RecordDoneTraced(x, s1, step);
      case Revise => ReviseRunTraced(x, s1, step, ctx);
      case Delegate => DelegateReviewTraced(x, s1, step);
      case Fail => FailRunTraced(x, s1, "reflection failed step " + step.stepId);
    }
  }

  // The body of the step is at hand and may now be stored.
  ghost predicate MayStore<W>(x: Script<W>, a: Account, step: PlanStep, ctx: Option<string>, body: string) {
    && StepAtHand(a) == Some(step) && a.stepContext == ctx && a.last.Some?
    && (match a.last.value
        case Execute(_, execution) => execution.Ok? && body == x.p.render(execution.value.body)
        case TickRuntime(events) =>
          events.Ok? && x.p.executor.None? && body == "{\"step_id\":\"" + step.stepId + "\"}"
        case _ => false)
  }

  lemma CreateOutputTraced<W>(
    x: Script<W>, s: Loop<W>, step: PlanStep, action: PlannedAction, ctx: Option<string>, body: string)
    requires Traced(x, s) && MayStore(x, Now(x, s), step, ctx, body) && action == Now(x, s).todo[0]
    ensures var (s', r) := CreateOutput(x.p, s, step, action, body);
      && Traced(x, s') && Now(x, s').todo == Now(x, s).todo
      && StepAtHand(Now(x, s')) == Some(step) && Now(x, s').stepContext == ctx
      && Now(x, s').last.Some? && Now(x, s').last.value.Create? && Now(x, s').last.value.artifactId == r
  {
    hide Trace;
    var request := OutputArtifact(s, step, action, body);
    var (w, r) := x.p.createArtifact(s.kernel.world, request);
    Makes(x, s, s.kernel.(world := w), Create(request, r));
    SeqGoesOn(|s.artifactIds|);
  }

  lemma SeqGoesOn(n: nat)
    ensures (n % SEQ_MODULUS + 1) % SEQ_MODULUS == (n + 1) % SEQ_MODULUS
  {
  }

  lemma StoreOutputTraced<W>(
    x: Script<W>, s: Loop<W>, step: PlanStep, action: PlannedAction, ctx: Option<string>, body: string)
    requires Traced(x, s) && MayStore(x, Now(x, s), step, ctx, body) && action == Now(x, s).todo[0]
    requires !step.kind.Delegate?
    ensures Concludes(x, StoreOutput(x.p, s, step, action, ctx, body), Now(x, s).todo[1..])
  {
    hide Traced, CreateOutput, ReviewOutput, AccountOf;
    CreateOutputTraced(x, s, step, action, ctx, body);
    var (s1, r) := CreateOutput(x.p, s, step, action, body);
    if r.Ok? { ReviewOutputTraced(x, s1, step, ctx, r.value); }
  }

  // The runtime has let the step be carried out.
  ghost predicate MayExecute(a: Account, step: PlanStep, ctx: Option<string>) {
    && StepAtHand(a) == Some(step) && a.stepContext == ctx && a.last.Some?
    && a.last.value.TickRuntime? && a.last.value.events.Ok?
  }

  lemma ExecuteBodyTraced<W>(x: Script<W>, s: Loop<W>, step: PlanStep, ctx: Option<string>)
    requires Traced(x, s) && MayExecute(Now(x, s), step, ctx)
    ensures var (s', r) := ExecuteBody(x.p, s, step, ctx);
      && Traced(x, s') && Now(x, s').todo == Now(x, s).todo
      && (match r
          case Ok(body) => MayStore(x, Now(x, s'), step, ctx, body)
          case Err(e) =>
            Now(x, s').last.Some? && Now(x, s').last.value.Execute? && Now(x, s').last.value.execution == Err(e))
  {
    hide Trace, AccountOf;
    if x.p.executor.Some? {
      var task := ExecuteStepRequest(s.plan.goal, step, ctx, s.outputs, s.budget.Grant());
      var (w, r) := x.p.executor.value(s.kernel.world, task);
      Makes(x, s, s.kernel.(world := w), Execute(task, r));
    }
  }

  // The step's context has just been built.
  ghost predicate MayPerform(a: Account, step: PlanStep, ctx: Option<string>) {
    && StepAtHand(a) == Some(step) && a.stepContext == ctx && a.last.Some?
    && a.last.value.AskContext? && a.last.value.context.Ok? && !step.kind.Delegate?
  }

  lemma PerformStepTraced<W>(x: Script<W>, s: Loop<W>, step: PlanStep, action: PlannedAction, ctx: Option<string>)
    requires Traced(x, s) && MayPerform(Now(x, s), step, ctx) && action == Now(x, s).todo[0]
    ensures Concludes(x, PerformStep(x.p, s, step, action, ctx), Now(x, s).todo[1..])
  {
    hide Trace, ExecuteBody, StoreOutput, Tick;
    var (k, ticked) := Tick(x.p.runtime, s.kernel);
    Makes(x, s, k, TickRuntime(ticked));
    var s1 := Note(s, k, TickRuntime(ticked));
    assert Traced(x, s1) && Now(x, s1) == Now(x, s).(last := Some(TickRuntime(ticked)));
    if ticked.Ok? {
      ExecuteBodyTraced(x, s1, step, ctx);
      var (s2, body) := ExecuteBody(x.p, s1, step, ctx);
      if body.Ok? { StoreOutputTraced(x, s2, step, action, ctx, body.value); }
    }
  }

  // An action may now begin.
  ghost predicate MayBegin(a: Account) {
    && a.last.Some? && a.todo != []
    && (match a.last.value
        case AskActions(_, _, actions) => actions.Ok? && actions.value == a.todo
        case AskRecord(_, _, _, recorded) => recorded.Ok?
        case _ => false)
  }

  lemma RunActionTraced<W>(x: Script<W>, s: Loop<W>, action: PlannedAction)
    requires Traced(x, s) && MayBegin(Now(x, s)) && action == Now(x, s).todo[0]
    ensures Concludes(x, RunAction(x.p, s, action), Now(x, s).todo[1..])
  {
    hide Trace, PerformStep, DelegateStep;
    var found := FindStep(s.plan.steps, action.stepId);
    if found.Some? {
      var step := found.value;
      var (w, ctx) := x.p.buildContext(s.kernel.world, step.title, step.stepId);
      var call := AskContext(step.title, step.stepId, ctx);
      Makes(x, s, s.kernel.(world := w), call);
      var s1 := Told(s, w, call);
      assert Traced(x, s1);
      if ctx.Ok? {
        if step.kind.Delegate? {
          DelegateStepTraced(x, s1, step);
        } else {
          PerformStepTraced(x, s1, step, action, ctx.value);
        }
      }
    }
  }

  lemma {:induction false} RunActionsTraced<W>(x: Script<W>, s: Loop<W>, actions: seq<PlannedAction>)
    requires Traced(x, s) && Now(x, s).todo == actions && (MayBegin(Now(x, s)) || Recorded(Now(x, s)))
    ensures Concludes(x, RunActions(x.p, s, actions), [])
    decreases |actions|
  {
    hide Traced, RunAction, AccountOf, Ends;
    if actions != [] {
      RunActionTraced(x, s, actions[0]);
      var f := RunAction(x.p, s, actions[0]);
      if f.Next? { RunActionsTraced(x, f.s, actions[1..]); }
    }
  }

  // ----- Iterations and the run are traced -----

  // An iteration may now begin.
  ghost predicate MayIterate<W>(x: Script<W>, a: Account) {
    a.todo == [] &&
    if a.last.None? then !x.start.env.state.Created?
    else match a.last.value
      case AskRecord(_, _, _, recorded) => recorded.Ok?
      case AskCompletion(_, completion) => completion == Ok(Incomplete)
      case Mediate(operation, event) => operation.Start? && event.Ok?
      case _ => false
  }

  ghost predicate Turns<W>(x: Script<W>, f: Flow<W>) {
    Traced(x, f.s) && if f.Next? then MayIterate(x, Now(x, f.s)) else Ends(x, Now(x, f.s), f)
  }

  lemma CompleteRunTraced<W>(x: Script<W>, s: Loop<W>)
    requires Traced(x, s) && forall r :: Follows(x, Now(x, s), s.kernel.env, Mediate(Complete, r))
    ensures var f := CompleteRun(x.p, s); Traced(x, f.s) && !f.Next? && Ends(x, Now(x, f.s), f)
  {
    hide Trace, Follows, Operate;
    OperateTraced(x, s, RuntimeOperation.Complete);
  }

  lemma FinalReviewTraced<W>(x: Script<W>, s: Loop<W>, ctx: Option<string>)
    requires Traced(x, s) && Now(x, s).planContext == ctx && Now(x, s).last.Some?
    requires Now(x, s).last.value.AskCompletion? && Now(x, s).last.value.completion == Ok(Satisfied)
    ensures var f := FinalReview(x.p, s, ctx); Traced(x, f.s) && !f.Next? && Ends(x, Now(x, f.s), f)
  {
    hide Trace, FailRun, CompleteRun;
    var (id, artifact) := (s.kernel.env.taskId, FinalRef(s.artifactIds));
    var (w, review) := x.p.reviewFinal(s.kernel.world, id, artifact, ctx);
    var call := AskFinalReview(id, artifact, ctx, review);
    Makes(x, s, s.kernel.(world := w), call);
    var s1 := Told(s, w, call);
    assert Traced(x, s1) && Now(x, s1) == Now(x, s).(last := Some(call));
    if review.Ok? && review.value.valid {
      if review.value.verdict.Fail? { FailRunTraced(x, s1, "final review failed"); } else { CompleteRunTraced(x, s1); }
    }
  }

  lemma NothingToDoTraced<W>(x: Script<W>, s: Loop<W>, ctx: Option<string>)
    requires Traced(x, s) && Now(x, s).planContext == ctx && Now(x, s).todo == [] && Now(x, s).last.Some?
    requires Now(x, s).last.value.AskActions? && Now(x, s).last.value.actions == Ok([])
    ensures Turns(x, NothingToDo(x.p, s, ctx))
  {
    hide Trace, FailRun, FinalReview;
    if s.subtasks == [] {
      var (w, state) := x.p.evaluateCompletion(s.kernel.world, s.plan);
      var call := AskCompletion(s.plan, state);
      Makes(x, s, s.kernel.(world := w), call);
      var s1 := Told(s, w, call);
      assert Traced(x, s1) && Now(x, s1) == Now(x, s).(last := Some(call));
      if state == Ok(Satisfied) { FinalReviewTraced(x, s1, ctx); }
      if state == Ok(Unsatisfied) { FailRunTraced(x, s1, "completion check unsatisfied"); }
    }
  }

  lemma ConsultTraced<W>(x: Script<W>, s: Loop<W>)
    requires Traced(x, s) && MayIterate(x, Now(x, s))
    ensures var (s', r) := Consult(x.p, s);
      && Traced(x, s')
      && (match r
          case Err(e) => Ends(x, Now(x, s'), Fault(s', e))
          case Ok((ctx, actions)) =>
            && Now(x, s').planContext == ctx && Now(x, s').todo == actions
            && Now(x, s').last.Some? && Now(x, s').last.value.AskActions?
            && Now(x, s').last.value.actions == Ok(actions))
  {
    hide Trace;
    var (w1, ctx) := x.p.buildContext(s.kernel.world, s.plan.goal, s.plan.planId);
    var asked := AskContext(s.plan.goal, s.plan.planId, ctx);
    Makes(x, s, s.kernel.(world := w1), asked);
    var s1 := Told(s, w1, asked);
    assert Traced(x, s1);
    if ctx.Ok? {
      var (w2, actions) := x.p.nextActions(w1, s.plan, ctx.value);
      Makes(x, s1, s1.kernel.(world := w2), AskActions(s.plan, ctx.value, actions));
    }
  }

  lemma IterateTraced<W>(x: Script<W>, s: Loop<W>)
    requires Traced(x, s) && MayIterate(x, Now(x, s))
    ensures Turns(x, Iterate(x.p, s))
  {
    hide Traced, Consult, NothingToDo, RunActions, AccountOf, Ends;
    ConsultTraced(x, s);
    var (s1, r) := Consult(x.p, s);
    if r.Ok? {
      if r.value.1 == [] {
        NothingToDoTraced(x, s1, r.value.0);
      } else {
        RunActionsTraced(x, s1, r.value.1);
      }
    }
  }

  lemma {:induction false} IterationsTraced<W>(x: Script<W>, s: Loop<W>, n: nat)
    requires Traced(x, s) && MayIterate(x, Now(x, s))
    ensures var f := Iterations(x.p, s, n); Traced(x, f.s) && !f.Next? && Ends(x, Now(x, f.s), f)
    decreases n
  {
    hide Traced, Iterate, AccountOf;
    if n > 0 {
      IterateTraced(x, s);
      var f := Iterate(x.p, s);
      if f.Next? { IterationsTraced(x, f.s, n - 1); }
    }
  }

  ghost function ScriptOf<W>(
    p: Providers<W>, env: TaskEnvelope, world: W, plan: PlanDocument, maxIterations: nat): Script<W>
  {
    Script(p, plan, Kernel(env, [], world), ToolBudget.ForIterations(maxIterations))
  }

  /** Every run, whatever its providers answer, is a trace by the rules: each call follows
      the one before it, is made with the arguments the calls before it determine, and is
      answered by its provider in the memory it found; the run's state and books are what
      its calls add up to; and it ends as its last call demands. */
  lemma EveryRunTraced<W>(p: Providers<W>, env: TaskEnvelope, world: W, plan: PlanDocument, maxIterations: nat)
    ensures var (f, x) := (Run(p, env, world, plan, maxIterations), ScriptOf(p, env, world, plan, maxIterations));
      !f.Next? && Traced(x, f.s) && Ends(x, Now(x, f.s), f)
  {
    hide Iterations;
    var x := ScriptOf(p, env, world, plan, maxIterations);
    var s := Fresh(x.start, plan, maxIterations);
    assert Traced(x, s);
    hide ApplyOperation;
    if env.state.Created? {
      OperateTraced(x, s, RuntimeOperation.Start);
      var (s1, r) := Operate(p, s, RuntimeOperation.Start);
      if r.Ok? { IterationsTraced(x, s1, maxIterations); }
    } else {
      IterationsTraced(x, s, maxIterations);
    }
  }
}
