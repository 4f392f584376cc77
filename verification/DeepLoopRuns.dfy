/** What every deep-loop run keeps, whatever its providers answer: the lifecycle
    path, the tool budget, the artifacts, and what the final status means. */
module DeepLoopRuns {
  import opened Wrappers
  import opened Text
  import opened CanonicalJson
  import opened Lifecycle
  import opened Planning
  import opened StepExecutor
  import opened Delegation
  import opened DeepLoop

  // ----- What a host's memory contains, and which parts of it each provider may touch -----

  datatype StoredArtifact = StoredArtifact(title: string, body: string)

  /** How to read a host's memory: a condition its parts keep, the number of host
      tool calls made so far, and the artifacts stored. */
  datatype Frame<!W> = Frame(sound: W -> bool, hits: W -> nat, store: W -> map<string, StoredArtifact>)

  ghost predicate Quiet<W>(fr: Frame<W>, w: W, w': W) {
    fr.hits(w') == fr.hits(w) && fr.store(w') == fr.store(w) && (fr.sound(w) ==> fr.sound(w'))
  }

  ghost predicate QuietRuntime<W(!new)>(rt: RuntimeConfig<W>, fr: Frame<W>) {
    && (forall w, env :: Quiet(fr, w, rt.decide(w, env).0))
    && (forall w, env, op :: Quiet(fr, w, rt.preHook(w, env, op).0))
    && (forall w, env, e :: Quiet(fr, w, rt.postHook(w, env, e)))
    && (rt.save.Some? ==> forall w, env :: Quiet(fr, w, rt.save.value(w, env).0))
  }

  ghost predicate QuietProviders<W(!new)>(p: Providers<W>, fr: Frame<W>) {
    && (forall w, q, r :: Quiet(fr, w, p.buildContext(w, q, r).0))
    && (forall w, plan, ctx :: Quiet(fr, w, p.nextActions(w, plan, ctx).0))
    && (forall w, plan :: Quiet(fr, w, p.evaluateCompletion(w, plan).0))
    && (forall w, plan, id, st :: Quiet(fr, w, p.recordStepResult(w, plan, id, st).0))
    && (forall w, plan, reason, ctx :: Quiet(fr, w, p.revisePlan(w, plan, reason, ctx).0))
    && (forall w, id, a, ctx :: Quiet(fr, w, p.reviewStep(w, id, a, ctx).0))
    && (forall w, id, a, ctx :: Quiet(fr, w, p.reviewFinal(w, id, a, ctx).0))
    && (forall w, goal, agents :: Quiet(fr, w, p.chooseDelegate(w, goal, agents).0))
    && (forall w, sub :: Quiet(fr, w, p.startSubtask(w, sub).0))
  }

  // One execution: within its grant, and reported as it happened.
  ghost predicate HonestExecution<W>(
    fr: Frame<W>, w: W, granted: nat, w': W, r: Result<StepExecution, StepExecutionError>)
  {
    && fr.store(w') == fr.store(w) && fr.sound(w')
    && fr.hits(w) <= fr.hits(w') <= fr.hits(w) + granted
    && (r.Ok? ==> r.value.toolCallsUsed == fr.hits(w') - fr.hits(w))
  }

  ghost predicate HonestExecutor<W(!new)>(p: Providers<W>, fr: Frame<W>) {
    p.executor.Some? ==>
      forall w, req: ExecuteStepRequest :: fr.sound(w) ==>
        HonestExecution(fr, w, req.maxToolCalls, p.executor.value(w, req).0, p.executor.value(w, req).1)
  }

  // One creation: refused for a taken id, otherwise stored under the id asked for.
  ghost predicate HonestCreation<W>(
    fr: Frame<W>, w: W, req: CreateArtifactRequest, w': W, r: Result<string, WorkspaceError>)
  {
    && fr.hits(w') == fr.hits(w) && (fr.sound(w) ==> fr.sound(w'))
    && (r.Ok? ==>
          && req.artifactId !in fr.store(w) && r.value == req.artifactId
          && fr.store(w') == fr.store(w)[req.artifactId := StoredArtifact(req.title, req.body)])
    && (r.Err? ==> fr.store(w') == fr.store(w))
    && (r.Err? && r.error.Duplicate? ==> req.artifactId in fr.store(w))
  }

  ghost predicate HonestStore<W(!new)>(p: Providers<W>, fr: Frame<W>) {
    forall w, req: CreateArtifactRequest :: HonestCreation(fr, w, req, p.createArtifact(w, req).0,
        p.createArtifact(w, req).1)
  }

  ghost predicate Framed<W(!new)>(p: Providers<W>, fr: Frame<W>) {
    QuietRuntime(p.runtime, fr) && QuietProviders(p, fr) && HonestExecutor(p, fr) && HonestStore(p, fr)
  }

  // ----- The run's invariant -----

  /** A run under study: its providers, where it began, and, if they can be tracked
      through the host's memory, the frame its tool calls and artifacts are read by. */
  datatype Study<!W> = Study(
    p: Providers<W>, tracked: bool, fr: Frame<W>, start: TaskLifecycleState, hits0: nat, store0: set<string>,
    total: nat)

  ghost predicate Tracking<W(!new)>(c: Study<W>) {
    c.tracked ==> Framed(c.p, c.fr)
  }

  ghost predicate QuietStep<W>(c: Study<W>, w: W, w': W) {
    c.tracked ==> Quiet(c.fr, w, w')
  }

  ghost predicate Numbered(created: seq<CreationLog>) {
    forall j :: 0 <= j < |created| ==>
      created[j].request.artifactId == ArtifactId(created[j].request.run, created[j].step.stepId, j % SEQ_MODULUS) &&
      created[j].request.title == "Output for " + created[j].step.title
  }

  /** The k-th execution was shown exactly the outputs of the executions before it. */
  ghost predicate PriorsShown(executed: seq<ExecutionLog>, outputs: seq<Json>) {
    |outputs| <= |executed| <= |outputs| + 1 &&
    forall k :: 0 <= k < |executed| ==> executed[k].shown == outputs[..k] && executed[k].granted <= PER_STEP_TOOL_CAP
  }

  /** The k-th artifact holds the output of the k-th execution, under its step's title. */
  ghost predicate OutputsWritten<W>(
    p: Providers<W>, created: seq<CreationLog>, executed: seq<ExecutionLog>, outputs: seq<Json>)
  {
    p.executor.Some? ==>
      |created| <= |outputs| && |created| <= |executed| &&
      forall k :: 0 <= k < |created| ==>
          created[k].request.body == p.render(outputs[k]) && created[k].step == executed[k].step
  }

  ghost predicate Readable(store: map<string, StoredArtifact>, id: string, c: CreationLog) {
    id == c.request.artifactId && id in store && store[id] == StoredArtifact(c.request.title, c.request.body)
  }

  /** Every artifact of the run can be read back as it was written. */
  ghost predicate Stored(
    store: map<string, StoredArtifact>, store0: set<string>, ids: seq<string>, created: seq<CreationLog>)
  {
    && |ids| <= |created| && Distinct(ids)
    && (forall j :: 0 <= j < |ids| ==> Readable(store, ids[j], created[j]))
    && store.Keys <= store0 + Elems(ids)
  }

  // Every call made fits the budget, and every artifact created can be read back.
  ghost predicate Tracked<W>(c: Study<W>, s: Loop<W>) {
    && c.fr.sound(s.kernel.world)
    && c.hits0 <= c.fr.hits(s.kernel.world) <= c.hits0 + c.total
    && Stored(c.fr.store(s.kernel.world), c.store0, s.artifactIds, s.log.created)
  }

  // Holds of every state a run passes through or stops in.
  ghost predicate Inv<W>(c: Study<W>, s: Loop<W>) {
    && OnPath(c.start, s.kernel)
    && s.budget.Sound() && s.budget.total == c.total
    && Numbered(s.log.created) && s.artifactSeq == |s.artifactIds| % SEQ_MODULUS
    && PriorsShown(s.log.executed, s.outputs)
    && OutputsWritten(c.p, s.log.created, s.log.executed, s.outputs)
    && (c.tracked ==> Tracked(c, s))
  }

  // Holds between the loop's steps.
  ghost predicate BetweenSteps<W>(c: Study<W>, s: Loop<W>) {
    && Inv(c, s)
    && |s.artifactIds| == |s.log.created|
    && |s.log.executed| == |s.outputs| && |s.outputs| == (if c.p.executor.Some? then |s.log.created| else 0)
    && (c.tracked ==> c.fr.hits(s.kernel.world) == c.hits0 + s.budget.used)
  }

  ghost predicate Running<W>(c: Study<W>, s: Loop<W>) {
    BetweenSteps(c, s) && s.plan == s.log.lastPlan
  }

  // A step's body is at hand and its artifact not yet created.
  ghost predicate Executed<W>(c: Study<W>, s: Loop<W>, step: PlanStep, body: string) {
    && Inv(c, s) && s.plan == s.log.lastPlan
    && |s.artifactIds| == |s.log.created|
    && |s.log.executed| == |s.outputs|
    && (if c.p.executor.Some? then |s.outputs| == |s.log.created| + 1 && body == c.p.render(s.outputs[|s.log.created|])
        else s.outputs == [])
    && (c.p.executor.Some? ==> s.log.executed[|s.log.created|].step == step)
    && (c.tracked ==> c.fr.hits(s.kernel.world) == c.hits0 + s.budget.used)
  }

  /** The planner keeps its books as the LLM-backed planner does. */
  ghost predicate LlmBookkeeping<W(!new)>(p: Providers<W>) {
    && (forall w, plan, id, st :: p.recordStepResult(w, plan, id, st).1 == Ok(RecordStepResult(plan, id, st)))
    && (forall w, plan :: p.evaluateCompletion(w, plan).1 == Ok(EvaluateCompletion(plan)))
  }

  /** What a returned status promises. */
  ghost predicate StatusSound<W(!new)>(p: Providers<W>, s: Loop<W>, status: DeepLoopStatus) {
    match status
    case Completed =>
      s.kernel.env.state.Completed? && s.subtasks == [] && s.plan == s.log.lastPlan &&
      (LlmBookkeeping(p) ==> AllSatisfied(s.plan.steps))
    case Failed => s.kernel.env.state.Failed? && s.plan == s.log.lastPlan
    case Delegating => s.subtasks != [] && s.plan == s.log.lastPlan
    case Revising => s.plan == s.log.lastPlan.(revision := s.plan.revision)
    case BudgetExhausted => s.plan == s.log.lastPlan
    case _ => false
  }

  /** A workspace refuses a run's artifact as a duplicate only if it held the id
      before the run, or the 32-bit counter has gone round. */
  ghost predicate RefusalExplained<W>(c: Study<W>, s: Loop<W>, e: DeepLoopError) {
    c.tracked && e.WorkspaceFault? && e.workspace.Duplicate? ==>
      |s.log.created| > SEQ_MODULUS ||
      (s.log.created != [] && s.log.created[|s.log.created| - 1].request.artifactId in c.store0)
  }

  ghost predicate Good<W(!new)>(c: Study<W>, f: Flow<W>) {
    match f
    case Next(s) => Running(c, s)
    case Done(s, status) => BetweenSteps(c, s) && StatusSound(c.p, s, status)
    case Fault(s, e) => Inv(c, s) && RefusalExplained(c, s, e)
  }

  // ----- The kernel leaves tool calls and artifacts alone -----

  lemma OperationQuiet<W(!new)>(rt: RuntimeConfig<W>, fr: Frame<W>, k: Kernel<W>, op: RuntimeOperation)
    requires QuietRuntime(rt, fr)
    ensures Quiet(fr, k.world, ApplyOperation(rt, k, op).0.world)
  {
  }

  lemma {:induction false} BatchQuiet<W(!new)>(
    rt: RuntimeConfig<W>, fr: Frame<W>, k: Kernel<W>, ops: seq<RuntimeOperation>)
    requires QuietRuntime(rt, fr)
    ensures Quiet(fr, k.world, ApplyBatch(rt, k, ops).0.world)
    decreases |ops|
  {
    if ops != [] {
      OperationQuiet(rt, fr, k, ops[0]);
      BatchQuiet(rt, fr, ApplyOperation(rt, k, ops[0]).0, ops[1..]);
    }
  }

  lemma TickQuiet<W(!new)>(rt: RuntimeConfig<W>, fr: Frame<W>, k: Kernel<W>)
    requires QuietRuntime(rt, fr)
    ensures Quiet(fr, k.world, Tick(rt, k).0.world)
  {
    var (w, decision) := rt.decide(k.world, k.env);
    assert Quiet(fr, k.world, w);
    if decision.Ok? {
      match decision.value
      case Noop =>
      case Operation(op) => OperationQuiet(rt, fr, k.(world := w), op);
      case Batch(ops) => BatchQuiet(rt, fr, k.(world := w), ops);
    }
  }

  // ----- Each piece of an action keeps the invariant -----

  lemma OperateKeeps<W(!new)>(c: Study<W>, s: Loop<W>, op: RuntimeOperation)
    requires Tracking(c) && Running(c, s)
    ensures var (s', r) := Operate(c.p, s, op);
      Running(c, s') && s'.subtasks == s.subtasks && s'.plan == s.plan &&
      (r.Ok? ==> s'.kernel.env.state == TargetState(op, s.kernel.env.state))
  {
    if c.tracked { OperationQuiet(c.p.runtime, c.fr, s.kernel, op); }
    OperationKeepsPath(c.p.runtime, s.kernel, op, c.start);
  }

  lemma ToldKeeps<W(!new)>(c: Study<W>, s: Loop<W>, w: W, call: Call)
    requires Running(c, s) && QuietStep(c, s.kernel.world, w)
    ensures Running(c, Told(s, w, call))
  {
  }

  lemma RecordDoneKeeps<W(!new)>(c: Study<W>, s: Loop<W>, id: string)
    requires Tracking(c) && BetweenSteps(c, s)
    ensures Good(c, RecordDone(c.p, s, id))
  {
    assert QuietStep(c, s.kernel.world, c.p.recordStepResult(s.kernel.world, s.plan, id, PlanStepStatus.Completed).0);
  }

  lemma EmitSubtaskKeeps<W(!new)>(c: Study<W>, s: Loop<W>, sub: SubtaskEnvelope, step: PlanStep)
    requires Tracking(c) && Running(c, s)
    ensures Good(c, EmitSubtask(c.p, s, sub, step))
  {
    var (w, failure) := c.p.startSubtask(s.kernel.world, sub);
    assert QuietStep(c, s.kernel.world, w);
    var s1 := ToDelegator(Told(s, w, StartSubtask(sub, failure)));
    assert Running(c, s1);
    if failure.None? {
      assert BetweenSteps(c, s1.(subtasks := s.subtasks + [sub]));
      RecordDoneKeeps(c, s1.(subtasks := s.subtasks + [sub]), step.stepId);
    }
  }

  lemma ChooseDelegateKeeps<W(!new)>(c: Study<W>, s: Loop<W>, goal: string, step: PlanStep)
    requires Tracking(c) && Running(c, s)
    ensures Running(c, ChooseDelegate(c.p, s, goal, step).0)
  {
    assert QuietStep(c, s.kernel.world, c.p.chooseDelegate(s.kernel.world, goal, Candidates(step)).0);
  }

  lemma DelegateStepKeeps<W(!new)>(c: Study<W>, s: Loop<W>, step: PlanStep)
    requires Tracking(c) && Running(c, s)
    ensures Good(c, DelegateStep(c.p, s, step))
  {
    hide Operate, EmitSubtask, ChooseDelegate, PriorsShown, Numbered, OutputsWritten,
        Stored;
    ChooseDelegateKeeps(c, s, step.title, step);
    var (s1, sub) := ChooseDelegate(c.p, s, step.title, step);
    if sub.Ok? {
      var op := RuntimeOperation.Delegate(sub.value.targetAgent);
      OperateKeeps(c, s1, op);
      EmitSubtaskKeeps(c, Operate(c.p, s1, op).0, sub.value, step);
    }
  }

  lemma FailRunKeeps<W(!new)>(c: Study<W>, s: Loop<W>, reason: string)
    requires Tracking(c) && Running(c, s)
    ensures Good(c, FailRun(c.p, s, reason))
  {
    OperateKeeps(c, s, RuntimeOperation.Fail(reason));
  }

  lemma ReviseRunKeeps<W(!new)>(c: Study<W>, s: Loop<W>, step: PlanStep, ctx: Option<string>)
    requires Tracking(c) && Running(c, s)
    ensures Good(c, ReviseRun(c.p, s, step, ctx))
  {
    var reason := "reflection requested revision for " + step.stepId;
    assert QuietStep(c, s.kernel.world, c.p.revisePlan(s.kernel.world, s.plan, reason, ctx).0);
  }

  lemma RunningIsGood<W(!new)>(c: Study<W>, s: Loop<W>, e: DeepLoopError)
    requires Running(c, s) && !e.WorkspaceFault?
    ensures Good(c, Fault(s, e))
  {
  }

  lemma DelegateReviewKeeps<W(!new)>(c: Study<W>, s: Loop<W>, step: PlanStep)
    requires Tracking(c) && Running(c, s)
    ensures Good(c, DelegateReview(c.p, s, step))
  {
    hide EmitSubtask, ChooseDelegate, PriorsShown, Numbered, OutputsWritten, Stored;
    ChooseDelegateKeeps(c, s, "review " + step.title, step);
    var (s1, sub) := ChooseDelegate(c.p, s, "review " + step.title, step);
    if sub.Ok? { EmitSubtaskKeeps(c, s1, sub.value, step); }
  }

  lemma ReviewOutputKeeps<W(!new)>(c: Study<W>, s: Loop<W>, step: PlanStep, ctx: Option<string>, artifact: string)
    requires Tracking(c) && Running(c, s)
    ensures Good(c, ReviewOutput(c.p, s, step, ctx, artifact))
  {
    hide RecordDone, ReviseRun, DelegateReview, FailRun;
    var (w, review) := c.p.reviewStep(s.kernel.world, step.stepId, artifact, ctx);
    assert QuietStep(c, s.kernel.world, w);
    var call := AskStepReview(step.stepId, artifact, ctx, review);
    var s1 := Told(s, w, call);
    ToldKeeps(c, s, w, call);
    hide Running, Tracking, RefusalExplained;
    forall e: DeepLoopError | !e.WorkspaceFault? ensures Good(c, Fault(s1, e)) { RunningIsGood(c, s1, e); }
    hide Good;
    if review.Ok? && review.value.valid {
      match review.value.verdict
      case Accept => RecordDoneKeeps(c, s1, step.stepId);
      case Retry => RecordDoneKeeps(c, s1, step.stepId);
      case Revise => ReviseRunKeeps(c, s1, step, ctx);
      case Delegate => DelegateReviewKeeps(c, s1, step);
      case Fail => FailRunKeeps(c, s1, "reflection failed step " + step.stepId);
    }
  }

  // ----- Artifact ids -----

  /** An artifact id determines its number, however many slashes the plan and step ids contain. */
  lemma ArtifactIdDetermines(plan: string, step: string, n: nat, plan': string, step': string, n': nat)
    ensures ArtifactId(plan, step, n) == ArtifactId(plan', step', n') <==>
      n == n' && plan + "/" + step == plan' + "/" + step'
  {
    var a, a' := "artifact://" + (plan + "/" + step), "artifact://" + (plan' + "/" + step');
    assert ArtifactId(plan, step, n) == a + ['/'] + Decimal(n);
    assert ArtifactId(plan', step', n') == a' + ['/'] + Decimal(n');
    if ArtifactId(plan, step, n) == ArtifactId(plan', step', n') {
      NumberedSuffix(a, n, a', n', '/');
      assert plan + "/" + step == a[11..] && plan' + "/" + step' == a'[11..];
    }
  }

  /** The exact condition under which two of a run's artifact ids coincide. */
  lemma ArtifactIdsCoincide(created: seq<CreationLog>, i: nat, j: nat)
    requires Numbered(created) && i < j < |created|
    ensures created[i].request.artifactId == created[j].request.artifactId <==>
      i % SEQ_MODULUS == j % SEQ_MODULUS &&
      created[i].request.run + "/" + created[i].step.stepId == created[j].request.run + "/" + created[j].step.stepId
    ensures j - i < SEQ_MODULUS ==> created[i].request.artifactId != created[j].request.artifactId
  {
    ArtifactIdDetermines(created[i].request.run, created[i].step.stepId, i % SEQ_MODULUS,
                         created[j].request.run, created[j].step.stepId, j % SEQ_MODULUS);
    if i % SEQ_MODULUS == j % SEQ_MODULUS {
      assert (j - i) % SEQ_MODULUS == 0;
    }
  }

  lemma RefusedOnlyIfTaken<W>(
    c: Study<W>, ids: seq<string>, store: map<string, StoredArtifact>, created: seq<CreationLog>)
    requires created != [] && Numbered(created) && |created| == |ids| + 1
    requires Stored(store, c.store0, ids, created[..|ids|])
    requires created[|ids|].request.artifactId in store
    ensures |created| > SEQ_MODULUS || created[|ids|].request.artifactId in c.store0
  {
    var id := created[|ids|].request.artifactId;
    if id !in c.store0 {
      assert id in Elems(ids);
      var j :| 0 <= j < |ids| && ids[j] == id;
      assert created[j] == created[..|ids|][j];
      ArtifactIdsCoincide(created, j, |ids|);
    }
  }

  lemma NumberedGrows(created: seq<CreationLog>, x: CreationLog)
    requires Numbered(created)
    requires x.request.artifactId == ArtifactId(x.request.run, x.step.stepId, |created| % SEQ_MODULUS)
    requires x.request.title == "Output for " + x.step.title
    ensures Numbered(created + [x])
  {
  }

  lemma OutputsGrow<W>(
    p: Providers<W>, created: seq<CreationLog>, executed: seq<ExecutionLog>, outputs: seq<Json>, x: CreationLog)
    requires OutputsWritten(p, created, executed, outputs)
    requires p.executor.Some? ==>
      |outputs| == |executed| == |created| + 1 && x.request.body == p.render(outputs[|created|]) &&
          x.step == executed[|created|].step
    ensures OutputsWritten(p, created + [x], executed, outputs)
  {
  }

  lemma CreateOutputKeeps<W(!new)>(c: Study<W>, s: Loop<W>, step: PlanStep, action: PlannedAction, body: string)
    requires Tracking(c) && Executed(c, s, step, body)
    ensures var (s', r) := CreateOutput(c.p, s, step, action, body);
      if r.Err? then Inv(c, s') && RefusalExplained(c, s', WorkspaceFault(r.error)) else Running(c, s')
  {
    var request := OutputArtifact(s, step, action, body);
    var (w, r) := c.p.createArtifact(s.kernel.world, request);
    assert c.tracked ==> HonestCreation(c.fr, s.kernel.world, request, w, r);
    var created := s.log.created + [CreationLog(step, request)];
    NumberedGrows(s.log.created, CreationLog(step, request));
    OutputsGrow(c.p, s.log.created, s.log.executed, s.outputs, CreationLog(step, request));
    var store := c.fr.store(s.kernel.world);
    SeqAdvances(|s.artifactIds|);
    if !c.tracked {
    } else if r.Err? {
      assert created[..|s.artifactIds|] == s.log.created;
      StoredLags(store, c.store0, s.artifactIds, s.log.created, CreationLog(step, request));
      if r.error.Duplicate? { RefusedOnlyIfTaken(c, s.artifactIds, store, created); }
    } else {
      StoredGrows(store, c.store0, s.artifactIds, s.log.created, CreationLog(step, request));
    }
  }

  lemma StoreOutputKeeps<W(!new)>(
    c: Study<W>, s: Loop<W>, step: PlanStep, action: PlannedAction, ctx: Option<string>, body: string)
    requires Tracking(c) && Executed(c, s, step, body)
    ensures Good(c, StoreOutput(c.p, s, step, action, ctx, body))
  {
    hide ReviewOutput, CreateOutput;
    CreateOutputKeeps(c, s, step, action, body);
    var (s1, r) := CreateOutput(c.p, s, step, action, body);
    if r.Ok? { ReviewOutputKeeps(c, s1, step, ctx, r.value); }
  }

  lemma SeqAdvances(n: nat)
    ensures (n % SEQ_MODULUS + 1) % SEQ_MODULUS == (n + 1) % SEQ_MODULUS
  {
  }

  lemma StoredLags(
    store: map<string, StoredArtifact>, store0: set<string>, ids: seq<string>, created: seq<CreationLog>,
    x: CreationLog)
    requires Stored(store, store0, ids, created)
    ensures Stored(store, store0, ids, created + [x])
  {
  }

  lemma StoredGrows(
    store: map<string, StoredArtifact>, store0: set<string>, ids: seq<string>, created: seq<CreationLog>,
    x: CreationLog)
    requires Stored(store, store0, ids, created) && |ids| == |created| && x.request.artifactId !in store
    ensures Stored(store[x.request.artifactId := StoredArtifact(x.request.title, x.request.body)], store0,
                   ids + [x.request.artifactId], created + [x])
  {
    assert Elems(ids + [x.request.artifactId]) == Elems(ids) + {x.request.artifactId};
  }

  lemma PriorsGrow(executed: seq<ExecutionLog>, outputs: seq<Json>, x: ExecutionLog, body: Json)
    requires PriorsShown(executed, outputs) && |executed| == |outputs|
    requires x.shown == outputs && x.granted <= PER_STEP_TOOL_CAP
    ensures PriorsShown(executed + [x], outputs) && PriorsShown(executed + [x], outputs + [body])
  {
    assert outputs[..|outputs|] == outputs;
    assert forall k :: 0 <= k <= |outputs| ==> (outputs + [body])[..k] == outputs[..k];
  }

  lemma OutputsLag<W>(
    p: Providers<W>, created: seq<CreationLog>, executed: seq<ExecutionLog>, outputs: seq<Json>, x: ExecutionLog,
    body: Json)
    requires OutputsWritten(p, created, executed, outputs)
    ensures OutputsWritten(p, created, executed + [x], outputs)
    ensures OutputsWritten(p, created, executed + [x], outputs + [body])
  {
  }

  lemma ExecuteBodyKeeps<W(!new)>(c: Study<W>, s: Loop<W>, step: PlanStep, ctx: Option<string>)
    requires Tracking(c) && Running(c, s)
    ensures var (s', r) := ExecuteBody(c.p, s, step, ctx);
      if r.Err? then Inv(c, s') else Executed(c, s', step, r.value)
  {
    hide PriorsShown, Numbered, Stored, ConnectedPath, OutputsWritten;
    if c.p.executor.Some? {
      var granted := s.budget.Grant();
      var request := ExecuteStepRequest(s.plan.goal, step, ctx, s.outputs, granted);
      var (w, r) := c.p.executor.value(s.kernel.world, request);
      assert c.tracked ==> HonestExecution(c.fr, s.kernel.world, granted, w, r);
      var x := ExecutionLog(step, s.outputs, granted);
      var body := if r.Ok? then r.value.body else Json.Null;
      PriorsGrow(s.log.executed, s.outputs, x, body);
      OutputsLag(c.p, s.log.created, s.log.executed, s.outputs, x, body);
      if r.Ok? { ChargeWithinGrant(s.budget, r.value.toolCallsUsed); }
    }
  }

  lemma PerformStepKeeps<W(!new)>(c: Study<W>, s: Loop<W>, step: PlanStep, action: PlannedAction, ctx: Option<string>)
    requires Tracking(c) && Running(c, s)
    ensures Good(c, PerformStep(c.p, s, step, action, ctx))
  {
    hide StoreOutput, ExecuteBody, Tick, PriorsShown, Numbered, OutputsWritten, Stored;
    var (k, ticked) := Tick(c.p.runtime, s.kernel);
    if c.tracked { TickQuiet(c.p.runtime, c.fr, s.kernel); }
    TickKeepsPath(c.p.runtime, s.kernel, c.start);
    var s1 := Note(s, k, TickRuntime(ticked));
    assert Running(c, s1);
    if ticked.Ok? {
      ExecuteBodyKeeps(c, s1, step, ctx);
      var (s2, body) := ExecuteBody(c.p, s1, step, ctx);
      if body.Ok? { StoreOutputKeeps(c, s2, step, action, ctx, body.value); }
    }
  }

  lemma RunActionKeeps<W(!new)>(c: Study<W>, s: Loop<W>, action: PlannedAction)
    requires Tracking(c) && Running(c, s)
    ensures Good(c, RunAction(c.p, s, action))
  {
    hide PerformStep, DelegateStep;
    var found := FindStep(s.plan.steps, action.stepId);
    if found.Some? {
      var step := found.value;
      var (w, ctx) := c.p.buildContext(s.kernel.world, step.title, step.stepId);
      assert QuietStep(c, s.kernel.world, w);
      var call := AskContext(step.title, step.stepId, ctx);
      ToldKeeps(c, s, w, call);
      if ctx.Ok? {
        if step.kind.Delegate? {
          DelegateStepKeeps(c, Told(s, w, call), step);
        } else {
          PerformStepKeeps(c, Told(s, w, call), step, action, ctx.value);
        }
      }
    }
  }

  lemma {:induction false} RunActionsKeeps<W(!new)>(c: Study<W>, s: Loop<W>, actions: seq<PlannedAction>)
    requires Tracking(c) && Running(c, s)
    ensures Good(c, RunActions(c.p, s, actions))
    decreases |actions|
  {
    hide RunAction, Tracking;
    if actions != [] {
      RunActionKeeps(c, s, actions[0]);
      var f := RunAction(c.p, s, actions[0]);
      if f.Next? { RunActionsKeeps(c, f.s, actions[1..]); }
    }
  }

  lemma CompleteRunKeeps<W(!new)>(c: Study<W>, s: Loop<W>)
    requires Tracking(c) && Running(c, s) && s.subtasks == []
    requires LlmBookkeeping(c.p) ==> AllSatisfied(s.plan.steps)
    ensures Good(c, CompleteRun(c.p, s))
  {
    OperateKeeps(c, s, RuntimeOperation.Complete);
  }

  lemma FinalReviewKeeps<W(!new)>(c: Study<W>, s: Loop<W>, ctx: Option<string>)
    requires Tracking(c) && Running(c, s) && s.subtasks == []
    requires LlmBookkeeping(c.p) ==> AllSatisfied(s.plan.steps)
    ensures Good(c, FinalReview(c.p, s, ctx))
  {
    hide FailRun, CompleteRun, LlmBookkeeping;
    var (id, artifact) := (s.kernel.env.taskId, FinalRef(s.artifactIds));
    var (w, review) := c.p.reviewFinal(s.kernel.world, id, artifact, ctx);
    assert QuietStep(c, s.kernel.world, w);
    var call := AskFinalReview(id, artifact, ctx, review);
    var s1 := Told(s, w, call);
    ToldKeeps(c, s, w, call);
    hide Running, Tracking, RefusalExplained;
    forall e: DeepLoopError | !e.WorkspaceFault? ensures Good(c, Fault(s1, e)) {
      RunningIsGood(c, s1, e);
    }
    hide Good;
    if review.Ok? && review.value.valid {
      if review.value.verdict.Fail? {
        FailRunKeeps(c, s1, "final review failed");
      } else {
        CompleteRunKeeps(c, s1);
      }
    }
  }

  lemma NothingToDoKeeps<W(!new)>(c: Study<W>, s: Loop<W>, ctx: Option<string>)
    requires Tracking(c) && Running(c, s)
    ensures Good(c, NothingToDo(c.p, s, ctx))
  {
    hide FinalReview, FailRun, PriorsShown, Numbered, OutputsWritten, Stored;
    if s.subtasks == [] {
      var (w, state) := c.p.evaluateCompletion(s.kernel.world, s.plan);
      assert QuietStep(c, s.kernel.world, w);
      var s1 := Told(s, w, AskCompletion(s.plan, state));
      ToldKeeps(c, s, w, AskCompletion(s.plan, state));
      if state.Ok? {
        match state.value
        case Satisfied =>
          CompletionMeansAllSatisfied(s.plan);
          FinalReviewKeeps(c, s1, ctx);
        case Unsatisfied => FailRunKeeps(c, s1, "completion check unsatisfied");
        case Incomplete =>
      }
    }
  }

  // ----- What consulting the planner changes -----

  // The same run, consulted: only its memory and the log of its calls have moved.
  ghost predicate Consulted<W>(s: Loop<W>, s': Loop<W>) {
    && s'.kernel == s.kernel.(world := s'.kernel.world)
    && s' == s.(kernel := s'.kernel, log := s.log.(calls := s'.log.calls, plannerCalls := s'.log.plannerCalls))
  }

  /** The planner is asked at most once, and exactly once if anything is to be done. */
  lemma ConsultAsks<W>(p: Providers<W>, s: Loop<W>)
    ensures var (s', r) := Consult(p, s);
      && Consulted(s, s')
      && s.log.plannerCalls <= s'.log.plannerCalls <= s.log.plannerCalls + 1
      && (r.Ok? ==> s'.log.plannerCalls == s.log.plannerCalls + 1)
      && (r.Ok? ==> exists w :: p.nextActions(w, s.plan, r.value.0).1 == Ok(r.value.1))
      && (r.Err? ==> r.error.ContextFault? || r.error.PlanningFault?)
  {
    var (w, ctx) := p.buildContext(s.kernel.world, s.plan.goal, s.plan.planId);
    if ctx.Ok? { var asked := p.nextActions(w, s.plan, ctx.value); }
  }

  lemma ConsultKeeps<W(!new)>(c: Study<W>, s: Loop<W>)
    requires Tracking(c) && Running(c, s)
    ensures Running(c, Consult(c.p, s).0)
  {
    var (w, ctx) := c.p.buildContext(s.kernel.world, s.plan.goal, s.plan.planId);
    assert QuietStep(c, s.kernel.world, w);
    var asked := AskContext(s.plan.goal, s.plan.planId, ctx);
    ToldKeeps(c, s, w, asked);
    if ctx.Ok? {
      var (w2, actions) := c.p.nextActions(w, s.plan, ctx.value);
      assert QuietStep(c, w, w2);
      ToldKeeps(c, Told(s, w, asked), w2, AskActions(s.plan, ctx.value, actions));
    }
  }

  lemma IterateKeeps<W(!new)>(c: Study<W>, s: Loop<W>)
    requires Tracking(c) && Running(c, s)
    ensures Good(c, Iterate(c.p, s))
  {
    hide Consult, NothingToDo, RunActions, Tracking, Running;
    ConsultKeeps(c, s);
    ConsultAsks(c.p, s);
    var (s1, r) := Consult(c.p, s);
    if r.Err? {
      RunningIsGood(c, s1, r.error);
    } else if r.value.1 == [] {
      NothingToDoKeeps(c, s1, r.value.0);
    } else {
      RunActionsKeeps(c, s1, r.value.1);
    }
  }

  lemma {:induction false} IterationsKeep<W(!new)>(c: Study<W>, s: Loop<W>, n: nat)
    requires Tracking(c) && Running(c, s)
    ensures Good(c, Iterations(c.p, s, n))
    decreases n
  {
    hide Iterate, Tracking;
    if n > 0 {
      IterateKeeps(c, s);
      var f := Iterate(c.p, s);
      if f.Next? { IterationsKeep(c, f.s, n - 1); }
    }
  }

  // ----- What one action can do -----

  ghost predicate ReviewNeverDelegates<W(!new)>(p: Providers<W>) {
    forall w, id, a, ctx :: p.reviewStep(w, id, a, ctx).1.Ok? ==> !p.reviewStep(w, id, a, ctx).1.value.verdict.Delegate?
  }

  /** Every review lets the run go on. */
  ghost predicate Approves<W(!new)>(p: Providers<W>) {
    && (forall w, id, a, ctx ::
          var r := p.reviewStep(w, id, a, ctx).1;
          r.Ok? && r.value.valid && (r.value.verdict.Accept? || r.value.verdict.Retry?))
    && (forall w, id, a, ctx ::
          var r := p.reviewFinal(w, id, a, ctx).1;
          r.Ok? && r.value.valid && !r.value.verdict.Fail?)
  }

  ghost predicate RecordedBy<W(!new)>(p: Providers<W>, plan: PlanDocument, id: string, plan': PlanDocument) {
    exists w :: p.recordStepResult(w, plan, id, PlanStepStatus.Completed).1 == Ok(plan')
  }

  /** An action on step `id`: goes on only by recording that step, asks the planner for
      nothing, and turns to the delegator only if it may. */
  ghost predicate ActsOn<W(!new)>(p: Providers<W>, s: Loop<W>, id: string, mayDelegate: bool, f: Flow<W>) {
    && f.s.log.plannerCalls == s.log.plannerCalls
    && (f.Next? ==> RecordedBy(p, s.plan, id, f.s.plan) && f.s.log.recorded == s.log.recorded + [id])
    && (!f.Next? ==> f.s.log.recorded == s.log.recorded)
    && (f.Done? ==> (f.status.Failed? || f.status.Revising?) && !Approves(p))
    && (f.Fault? ==> !f.error.MissingStep?)
    && (!mayDelegate ==> f.s.log.delegatorCalls == s.log.delegatorCalls && f.s.subtasks == s.subtasks)
    && (!mayDelegate && f.Fault? ==> !f.error.DelegationFault?)
  }

  lemma RecordDoneActs<W(!new)>(p: Providers<W>, s: Loop<W>, id: string)
    ensures ActsOn(p, s, id, false, RecordDone(p, s, id))
  {
  }

  lemma EmitSubtaskActs<W(!new)>(p: Providers<W>, s: Loop<W>, sub: SubtaskEnvelope, step: PlanStep)
    ensures ActsOn(p, s, step.stepId, true, EmitSubtask(p, s, sub, step))
  {
    var (w, failure) := p.startSubtask(s.kernel.world, sub);
    var s1 := ToDelegator(Told(s, w, StartSubtask(sub, failure)));
    RecordDoneActs(p, s1.(subtasks := s.subtasks + [sub]), step.stepId);
  }

  lemma DelegateStepActs<W(!new)>(p: Providers<W>, s: Loop<W>, step: PlanStep)
    ensures ActsOn(p, s, step.stepId, true, DelegateStep(p, s, step))
  {
    var (s1, sub) := ChooseDelegate(p, s, step.title, step);
    if sub.Ok? {
      var (s2, r) := Operate(p, s1, RuntimeOperation.Delegate(sub.value.targetAgent));
      EmitSubtaskActs(p, s2, sub.value, step);
    }
  }

  lemma DelegateReviewActs<W(!new)>(p: Providers<W>, s: Loop<W>, step: PlanStep)
    ensures ActsOn(p, s, step.stepId, true, DelegateReview(p, s, step))
  {
    var (s1, sub) := ChooseDelegate(p, s, "review " + step.title, step);
    if sub.Ok? { EmitSubtaskActs(p, s1, sub.value, step); }
  }

  lemma ReviewOutputActs<W(!new)>(p: Providers<W>, s: Loop<W>, step: PlanStep, ctx: Option<string>, artifact: string)
    ensures ActsOn(p, s, step.stepId, !ReviewNeverDelegates(p), ReviewOutput(p, s, step, ctx, artifact))
  {
    hide RecordDone, DelegateReview;
    var (w, review) := p.reviewStep(s.kernel.world, step.stepId, artifact, ctx);
    if review.Ok? && review.value.valid {
      var s1 := Told(s, w, AskStepReview(step.stepId, artifact, ctx, review));
      match review.value.verdict
      case Accept => RecordDoneActs(p, s1, step.stepId);
      case Retry => RecordDoneActs(p, s1, step.stepId);
      case Revise =>
      case Delegate => DelegateReviewActs(p, s1, step);
      case Fail =>
    }
  }

  lemma StoreOutputActs<W(!new)>(
    p: Providers<W>, s: Loop<W>, step: PlanStep, action: PlannedAction, ctx: Option<string>, body: string)
    ensures ActsOn(p, s, step.stepId, !ReviewNeverDelegates(p), StoreOutput(p, s, step, action, ctx, body))
  {
    hide ReviewOutput;
    var (s1, r) := CreateOutput(p, s, step, action, body);
    if r.Ok? { ReviewOutputActs(p, s1, step, ctx, r.value); }
  }

  lemma PerformStepActs<W(!new)>(
    p: Providers<W>, s: Loop<W>, step: PlanStep, action: PlannedAction, ctx: Option<string>)
    ensures ActsOn(p, s, step.stepId, !ReviewNeverDelegates(p), PerformStep(p, s, step, action, ctx))
  {
    hide StoreOutput;
    var (k, ticked) := Tick(p.runtime, s.kernel);
    var s1 := Note(s, k, TickRuntime(ticked));
    if ticked.Ok? {
      var (s2, body) := ExecuteBody(p, s1, step, ctx);
      if body.Ok? { StoreOutputActs(p, s2, step, action, ctx, body.value); }
    }
  }

  lemma RunActionActs<W(!new)>(p: Providers<W>, s: Loop<W>, action: PlannedAction)
    requires HasStep(s.plan.steps, action.stepId)
    ensures ActsOn(p, s, action.stepId,
      !ReviewNeverDelegates(p) || FindStep(s.plan.steps, action.stepId).value.kind.Delegate?, RunAction(p, s, action))
  {
    hide PerformStep, DelegateStep;
    var step := FindStep(s.plan.steps, action.stepId).value;
    var (w, ctx) := p.buildContext(s.kernel.world, step.title, step.stepId);
    if ctx.Ok? {
      if step.kind.Delegate? {
        DelegateStepActs(p, Told(s, w, AskContext(step.title, step.stepId, ctx)), step);
      } else {
        PerformStepActs(p, Told(s, w, AskContext(step.title, step.stepId, ctx)), step, action, ctx.value);
      }
    }
  }

  lemma UnknownStepFaults<W>(p: Providers<W>, s: Loop<W>, action: PlannedAction)
    requires !HasStep(s.plan.steps, action.stepId)
    ensures RunAction(p, s, action) == Fault(s, MissingStep(action.stepId))
  {
  }

  // ----- Handing a step on -----

  /** A delegate step is handed on only once the runtime has allowed it: observers see
      the delegation to the very agent the subtask names, and a refusal starts nothing. */
  lemma DelegationMediated<W(!new)>(p: Providers<W>, s: Loop<W>, step: PlanStep)
    ensures var f := DelegateStep(p, s, step);
      && (f.Next? ==>
            && |f.s.subtasks| == |s.subtasks| + 1 && f.s.subtasks[..|s.subtasks|] == s.subtasks
            && f.s.subtasks[|s.subtasks|].subtaskId == s.kernel.env.taskId + "::" + step.stepId
            && f.s.kernel.env.state.Delegated?
            && |f.s.kernel.observed| == |s.kernel.observed| + 1
            && f.s.kernel.observed[|s.kernel.observed|].operation ==
                RuntimeOperation.Delegate(f.s.subtasks[|s.subtasks|].targetAgent))
      && (f.Fault? && f.error.RuntimeFault? ==>
          f.s.subtasks == s.subtasks && f.s.log.delegatorCalls == s.log.delegatorCalls + 1)
  {
    var (s1, sub) := ChooseDelegate(p, s, step.title, step);
    if sub.Ok? {
      var op := RuntimeOperation.Delegate(sub.value.targetAgent);
      var (s2, r) := Operate(p, s1, op);
      if r.Ok? {
        var f := EmitSubtask(p, s2, sub.value, step);
        assert f.Next? ==>
            f.s.subtasks == s.subtasks + [sub.value] && f.s.kernel.observed == s2.kernel.observed &&
                f.s.kernel.env == s2.kernel.env;
      }
    }
  }

  /** Within a task, subtask ids and correlation ids tell steps apart, and nothing else
      about the step or the delegate enters them. */
  lemma SubtaskIdsFollowSteps(
    env: TaskEnvelope, a: PlanStep, b: PlanStep, da: DelegationDecision, db: DelegationDecision)
    ensures var x, y := BuildSubtaskEnvelope(env, a, da), BuildSubtaskEnvelope(env, b, db);
      && (x.subtaskId == y.subtaskId <==> a.stepId == b.stepId)
      && (x.correlationId == y.correlationId <==> a.stepId == b.stepId)
      && (x.parentRunId, x.sourceAgentId, x.goal) == (env.taskId, env.workerId, a.title)
  {
    var n := |env.taskId| + 2;
    var x, y := BuildSubtaskEnvelope(env, a, da), BuildSubtaskEnvelope(env, b, db);
    assert a.stepId == x.subtaskId[n..] && b.stepId == y.subtaskId[n..];
    assert a.stepId == x.correlationId[n..|x.correlationId| - 12] &&
        b.stepId == y.correlationId[n..|y.correlationId| - 12];
  }

  // ----- Counting planner calls -----

  ghost predicate WithinIteration<W>(f: Flow<W>, plannerCalls: nat) {
    f.s.log.plannerCalls == plannerCalls && (f.Done? ==> f.status.Failed? || f.status.Revising?)
  }

  lemma {:induction false} ActionsWithinIteration<W(!new)>(p: Providers<W>, s: Loop<W>, actions: seq<PlannedAction>)
    ensures WithinIteration(RunActions(p, s, actions), s.log.plannerCalls)
    decreases |actions|
  {
    hide RunAction;
    if actions != [] && !HasStep(s.plan.steps, actions[0].stepId) {
      UnknownStepFaults(p, s, actions[0]);
    } else if actions != [] {
      RunActionActs(p, s, actions[0]);
      var f := RunAction(p, s, actions[0]);
      if f.Next? { ActionsWithinIteration(p, f.s, actions[1..]); }
    }
  }

  lemma NothingToDoAsksNothing<W(!new)>(p: Providers<W>, s: Loop<W>, ctx: Option<string>)
    ensures var f := NothingToDo(p, s, ctx);
      f.s.log.plannerCalls == s.log.plannerCalls && (f.Done? ==> !f.status.BudgetExhausted?)
  {
  }

  lemma IterationAsksOnce<W(!new)>(p: Providers<W>, s: Loop<W>)
    ensures var f := Iterate(p, s);
      && s.log.plannerCalls <= f.s.log.plannerCalls <= s.log.plannerCalls + 1
      && (f.Next? ==> f.s.log.plannerCalls == s.log.plannerCalls + 1)
      && (f.Done? ==> !f.status.BudgetExhausted?)
  {
    hide Consult, NothingToDo, RunActions;
    ConsultAsks(p, s);
    var (s1, r) := Consult(p, s);
    if r.Ok? {
      NothingToDoAsksNothing(p, s1, r.value.0);
      ActionsWithinIteration(p, s1, r.value.1);
    }
  }

  lemma {:induction false} IterationsAskOnceEach<W(!new)>(p: Providers<W>, s: Loop<W>, n: nat)
    ensures var f := Iterations(p, s, n);
      && s.log.plannerCalls <= f.s.log.plannerCalls <= s.log.plannerCalls + n
      && (f.Done? && f.status.BudgetExhausted? ==> f.s.log.plannerCalls == s.log.plannerCalls + n)
    decreases n
  {
    hide Iterate;
    if n > 0 {
      IterationAsksOnce(p, s);
      var f := Iterate(p, s);
      if f.Next? { IterationsAskOnceEach(p, f.s, n - 1); }
    }
  }

  // ----- The theorems about whole runs -----

  ghost function StudyOf<W>(
    p: Providers<W>, tracked: bool, fr: Frame<W>, env: TaskEnvelope, world: W, maxIterations: nat): Study<W>
  {
    Study(p, tracked, fr, env.state, fr.hits(world), fr.store(world).Keys,
        ToolBudget.ForIterations(maxIterations).total)
  }

  lemma FreshRunning<W(!new)>(
    p: Providers<W>, tracked: bool, fr: Frame<W>, env: TaskEnvelope, world: W, plan: PlanDocument, maxIterations: nat)
    requires tracked ==> Framed(p, fr) && fr.sound(world)
    ensures Running(StudyOf(p, tracked, fr, env, world, maxIterations),
      Fresh(Kernel(env, [], world), plan, maxIterations))
  {
    FreshBudget(maxIterations);
  }

  lemma RunKeeps<W(!new)>(
    p: Providers<W>, tracked: bool, fr: Frame<W>, env: TaskEnvelope, world: W, plan: PlanDocument, maxIterations: nat)
    requires tracked ==> Framed(p, fr) && fr.sound(world)
    ensures Good(StudyOf(p, tracked, fr, env, world, maxIterations), Run(p, env, world, plan, maxIterations))
  {
    hide Iterations, Framed, Running;
    var c := StudyOf(p, tracked, fr, env, world, maxIterations);
    var s := Fresh(Kernel(env, [], world), plan, maxIterations);
    FreshRunning(p, tracked, fr, env, world, plan, maxIterations);
    if env.state.Created? {
      OperateKeeps(c, s, RuntimeOperation.Start);
      var (s1, r) := Operate(p, s, RuntimeOperation.Start);
      if r.Ok? { IterationsKeep(c, s1, maxIterations); } else { RunningIsGood(c, s1, RuntimeFault(r.error)); }
    } else {
      IterationsKeep(c, s, maxIterations);
    }
  }

  /** Whatever its providers answer, a run's observers see a connected path through the
      lifecycle, its tool calls stay within three times the iteration limit, its artifacts
      are numbered in order, every execution is shown the outputs before it, and the
      status it returns means what it says. */
  lemma EveryRunSound<W(!new)>(p: Providers<W>, env: TaskEnvelope, world: W, plan: PlanDocument, maxIterations: nat)
    ensures var f := Run(p, env, world, plan, maxIterations);
      && ConnectedPath(env.state, f.s.kernel.observed, f.s.kernel.env.state)
      && f.s.budget.used <= 3 * maxIterations
      && Numbered(f.s.log.created)
      && PriorsShown(f.s.log.executed, f.s.outputs)
      && OutputsWritten(p, f.s.log.created, f.s.log.executed, f.s.outputs)
      && (f.Done? ==> StatusSound(p, f.s, f.status))
  {
    hide Run;
    var fr := Frame((w: W) => true, (w: W) => 0, (w: W) => map[]);
    RunKeeps(p, false, fr, env, world, plan, maxIterations);
    FreshBudget(maxIterations);
  }

  /** Every run asks the planner at most once per iteration; one that reports its
      budget exhausted asked exactly that often. */
  lemma PlannerCallsBounded<W(!new)>(
    p: Providers<W>, env: TaskEnvelope, world: W, plan: PlanDocument, maxIterations: nat)
    ensures var f := Run(p, env, world, plan, maxIterations);
      && f.s.log.plannerCalls <= maxIterations
      && (f.Done? && f.status.BudgetExhausted? ==> f.s.log.plannerCalls == maxIterations)
  {
    var s := Fresh(Kernel(env, [], world), plan, maxIterations);
    if env.state.Created? {
      var (s1, r) := Operate(p, s, RuntimeOperation.Start);
      if r.Ok? { IterationsAskOnceEach(p, s1, maxIterations); }
    } else {
      IterationsAskOnceEach(p, s, maxIterations);
    }
  }
}
