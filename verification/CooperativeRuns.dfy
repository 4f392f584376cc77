/** What becomes of a plan worked by cooperative providers: every step that can be
    worked is, in dependency order, and the status says how far the run got. */
module CooperativeRuns {
  import opened Wrappers
  import opened Text
  import opened Lifecycle
  import opened Planning
  import opened StepExecutor
  import opened Delegation
  import opened DeepLoop
  import opened DeepLoopRuns
  import opened Guards
  import opened Progress

  // ----- Where a run stands -----

  /** What a run is about: the plan's steps, and whose artifacts it makes. */
  datatype Origin = Origin(steps: seq<PlanStep>, tenant: string, session: string, run: string)

  function OriginOf(env: TaskEnvelope, plan: PlanDocument): Origin {
    Origin(plan.steps, env.tenant, env.taskId, plan.planId)
  }

  // Whether an artifact the loop asks for is one of this run's.
  ghost predicate Ours(o: Origin, req: CreateArtifactRequest) {
    && (req.tenant, req.session, req.run) == (o.tenant, o.session, o.run)
    && (exists step, n :: req.artifactId == ArtifactId(o.run, step, n))
    && exists title :: req.title == "Output for " + title
  }

  ghost predicate Belongs<W>(s: Loop<W>, o: Origin) {
    (s.kernel.env.tenant, s.kernel.env.taskId, s.plan.planId) == (o.tenant, o.session, o.run)
  }

  /** The run stopped because the workspace turned down one of its artifacts. */
  ghost predicate WorkspaceRefused<W(!new)>(p: Providers<W>, f: Flow<W>, o: Origin) {
    f.Fault? && f.error.WorkspaceFault? &&
    exists w, req :: Ours(o, req) && p.createArtifact(w, req).1 == Err(f.error.workspace)
  }

  ghost predicate DelegateStepNamed(steps: seq<PlanStep>, id: string) {
    exists i :: 0 <= i < |steps| && steps[i].stepId == id && steps[i].kind.Delegate?
  }

  // Some recorded step was one to be handed on.
  ghost predicate HandedOn(steps0: seq<PlanStep>, recorded: seq<string>) {
    exists k :: 0 <= k < |recorded| && DelegateStepNamed(steps0, recorded[k])
  }

  /** The plan worked so far: open steps recorded, dependencies first. */
  ghost predicate Worked(steps0: seq<PlanStep>, recorded: seq<string>, steps: seq<PlanStep>) {
    && steps == RecordAll(steps0, recorded) && AllOpen(steps0, recorded)
    && (ReadySound(steps0) ==> DependenciesFirst(steps0, recorded))
  }

  /** Where a cooperative run stands: its plan worked so far, and delegated from the
      first step handed on. */
  ghost predicate OnTrack<W>(s: Loop<W>, o: Origin) {
    && UniqueIds(o.steps) && Belongs(s, o)
    && Worked(o.steps, s.log.recorded, s.plan.steps)
    && s.kernel.env.state == (if s.subtasks == [] then TaskLifecycleState.Running else TaskLifecycleState.Delegated)
    && (s.subtasks != [] <==> HandedOn(o.steps, s.log.recorded))
  }

  // ----- One action -----

  lemma TickKeepsEnvelope<W(!new)>(rt: RuntimeConfig<W>, k: Kernel<W>)
    requires CooperativeRuntime(rt)
    ensures Tick(rt, k).1.Ok? && Tick(rt, k).0.env == k.env
  {
    var (w, decision) := rt.decide(k.world, k.env);
    assert decision == Ok(Operation(Step)) || decision == Ok(Noop);
    if decision == Ok(Operation(Step)) { OperationSucceeds(rt, k.(world := w), Step); }
  }

  lemma OperationSucceeds<W(!new)>(rt: RuntimeConfig<W>, k: Kernel<W>, op: RuntimeOperation)
    requires CooperativeRuntime(rt)
    requires k.env.state == TargetState(op, k.env.state) || CanTransition(k.env.state, TargetState(op, k.env.state))
    ensures ApplyOperation(rt, k, op).1.Ok?
    ensures ApplyOperation(rt, k, op).0.env == k.env.(state := TargetState(op, k.env.state))
  {
    assert rt.preHook(k.world, k.env, op).1.None?;
  }

  // The step is recorded, and nothing else about the plan or the records changes.
  ghost predicate Recorded<W>(s: Loop<W>, s': Loop<W>, id: string) {
    && s'.plan == RecordStepResult(s.plan, id, PlanStepStatus.Completed)
    && s'.log.recorded == s.log.recorded + [id]
  }

  // The step was carried out: one artifact, of this step and run, came of it.
  ghost predicate CarriedOut<W>(s: Loop<W>, s': Loop<W>, id: string) {
    && s'.kernel.env == s.kernel.env && s'.subtasks == s.subtasks
    && |s'.log.created| == |s.log.created| + 1 && s.log.created <= s'.log.created
    && var c := s'.log.created[|s.log.created|]; c.step.stepId == id && c.request.run == s.plan.planId
  }

  // The step was handed on.
  ghost predicate Delegated<W>(s: Loop<W>, s': Loop<W>) {
    && s'.kernel.env == s.kernel.env.(state := TaskLifecycleState.Delegated)
    && |s'.subtasks| == |s.subtasks| + 1
  }

  lemma RecordDoneRecords<W(!new)>(p: Providers<W>, s: Loop<W>, id: string)
    requires LlmBookkeeping(p)
    ensures var f := RecordDone(p, s, id);
      f.Next? && Recorded(s, f.s, id) && f.s.kernel.env == s.kernel.env && f.s.subtasks == s.subtasks &&
      f.s.log.created == s.log.created
  {
    assert p.recordStepResult(s.kernel.world, s.plan, id, PlanStepStatus.Completed).1 ==
           Ok(RecordStepResult(s.plan, id, PlanStepStatus.Completed));
  }

  lemma ReviewRecords<W(!new)>(p: Providers<W>, s: Loop<W>, step: PlanStep, ctx: Option<string>, artifact: string)
    requires Approves(p) && LlmBookkeeping(p)
    ensures var f := ReviewOutput(p, s, step, ctx, artifact);
      f.Next? && Recorded(s, f.s, step.stepId) && f.s.kernel.env == s.kernel.env && f.s.subtasks == s.subtasks &&
      f.s.log.created == s.log.created
  {
    hide RecordDone;
    var (w, review) := p.reviewStep(s.kernel.world, step.stepId, artifact, ctx);
    assert review.Ok? && review.value.valid && (review.value.verdict.Accept? || review.value.verdict.Retry?);
    var s1 := Told(s, w, AskStepReview(step.stepId, artifact, ctx, review));
    assert ReviewOutput(p, s, step, ctx, artifact) == RecordDone(p, s1, step.stepId);
    RecordDoneRecords(p, s1, step.stepId);
  }

  // An action of a cooperative run: carried out, or turned down by the workspace.
  ghost predicate DoneOrRefused<W(!new)>(p: Providers<W>, s: Loop<W>, f: Flow<W>, id: string, o: Origin) {
    WorkspaceRefused(p, f, o) || (f.Next? && Recorded(s, f.s, id) && CarriedOut(s, f.s, id))
  }

  lemma StoreRecords<W(!new)>(
    p: Providers<W>, s: Loop<W>, step: PlanStep, action: PlannedAction, ctx: Option<string>, body: string, o: Origin)
    requires Approves(p) && LlmBookkeeping(p) && Belongs(s, o)
    ensures DoneOrRefused(p, s, StoreOutput(p, s, step, action, ctx, body), step.stepId, o)
  {
    hide ReviewOutput, Approves, LlmBookkeeping, ArtifactId;
    var request := OutputArtifact(s, step, action, body);
    assert Ours(o, request) by {
      assert request.artifactId == ArtifactId(o.run, step.stepId, s.artifactSeq);
      assert request.title == "Output for " + step.title;
    }
    var (w, created) := p.createArtifact(s.kernel.world, request);
    var (s1, r) := CreateOutput(p, s, step, action, body);
    assert r == created;
    assert s1.log.created == s.log.created + [CreationLog(step, request)];
    if r.Ok? { ReviewRecords(p, s1, step, ctx, r.value); }
  }

  lemma PerformRecords<W(!new)>(
    p: Providers<W>, s: Loop<W>, step: PlanStep, action: PlannedAction, ctx: Option<string>, o: Origin)
    requires Cooperative(p) && Belongs(s, o)
    ensures DoneOrRefused(p, s, PerformStep(p, s, step, action, ctx), step.stepId, o)
  {
    hide StoreOutput, Tick, ArtifactId;
    TickKeepsEnvelope(p.runtime, s.kernel);
    var (k, ticked) := Tick(p.runtime, s.kernel);
    var s1 := Note(s, k, TickRuntime(ticked));
    var (s2, body) := ExecuteBody(p, s1, step, ctx);
    assert body.Ok?;
    StoreRecords(p, s2, step, action, ctx, body.value, o);
  }

  lemma DelegateRecords<W(!new)>(p: Providers<W>, s: Loop<W>, step: PlanStep)
    requires Cooperative(p) && Willing(p) && (s.kernel.env.state.Running? || s.kernel.env.state.Delegated?)
    ensures var f := DelegateStep(p, s, step); f.Next? && Recorded(s, f.s, step.stepId) && Delegated(s, f.s)
  {
    hide RecordDone, ApplyOperation;
    var (s1, sub) := ChooseDelegate(p, s, step.title, step);
    assert sub.Ok?;
    var op := RuntimeOperation.Delegate(sub.value.targetAgent);
    OperationSucceeds(p.runtime, s1.kernel, op);
    var (s2, r) := Operate(p, s1, op);
    var (w, failure) := p.startSubtask(s2.kernel.world, sub.value);
    assert failure.None?;
    var s3 := ToDelegator(Told(s2, w, StartSubtask(sub.value, failure)));
    RecordDoneRecords(p, s3.(subtasks := s.subtasks + [sub.value]), step.stepId);
  }

  /** What one action of a cooperative run comes to. */
  lemma ActionRecords<W(!new)>(p: Providers<W>, s: Loop<W>, action: PlannedAction, o: Origin)
    requires Staffed(p, s.plan.steps) && Belongs(s, o) && HasStep(s.plan.steps, action.stepId)
    requires s.kernel.env.state.Running? || s.kernel.env.state.Delegated?
    ensures var f := RunAction(p, s, action);
      if FindStep(s.plan.steps, action.stepId).value.kind.Delegate?
      then f.Next? && Recorded(s, f.s, action.stepId) && Delegated(s, f.s)
      else DoneOrRefused(p, s, f, action.stepId, o)
  {
    hide PerformStep, DelegateStep;
    var step := FindStep(s.plan.steps, action.stepId).value;
    var (w, ctx) := p.buildContext(s.kernel.world, step.title, step.stepId);
    assert ctx.Ok?;
    if step.kind.Delegate? {
      DelegateRecords(p, Told(s, w, AskContext(step.title, step.stepId, ctx)), step);
    } else {
      PerformRecords(p, Told(s, w, AskContext(step.title, step.stepId, ctx)), step, action, ctx.value, o);
    }
  }

  // ----- An action keeps the run on track -----

  lemma HandedOnGrows(steps0: seq<PlanStep>, recorded: seq<string>, id: string)
    ensures HandedOn(steps0, recorded + [id]) <==> HandedOn(steps0, recorded) || DelegateStepNamed(steps0, id)
  {
    hide DelegateStepNamed;
    var longer := recorded + [id];
    assert longer[|recorded|] == id;
    if k :| 0 <= k < |recorded| && DelegateStepNamed(steps0, recorded[k]) { assert longer[k] == recorded[k]; }
  }

  lemma KindKept(steps0: seq<PlanStep>, steps: seq<PlanStep>, id: string)
    requires UniqueIds(steps) && SameSkeleton(steps0, steps) && HasStep(steps, id)
    ensures FindStep(steps, id).value.kind.Delegate? <==> DelegateStepNamed(steps0, id)
  {
    var found := FindStep(steps, id).value;
    var i :| 0 <= i < |steps| && steps[i] == found;
    assert steps0[i].stepId == id;
  }

  lemma WorkedGrows(steps0: seq<PlanStep>, recorded: seq<string>, steps: seq<PlanStep>, id: string)
    requires UniqueIds(steps0) && Worked(steps0, recorded, steps) && Open(steps0, id)
    requires ReadySound(steps0) ==> Eligible(steps0, Elems(recorded), id)
    ensures Worked(steps0, recorded + [id], Record(steps, id, PlanStepStatus.Completed))
  {
    hide ReadySound, Eligible, Record, Open;
    assert (recorded + [id])[..|recorded|] == recorded;
    if ReadySound(steps0) { DependenciesFirstGrows(steps0, recorded, id); }
  }

  // What an action does to a run on track: the step recorded, delegated if it is of that kind.
  ghost predicate Advances<W>(s: Loop<W>, s': Loop<W>, id: string, o: Origin) {
    Recorded(s, s', id) && if DelegateStepNamed(o.steps, id) then Delegated(s, s') else CarriedOut(s, s', id)
  }

  lemma AdvanceStaysOnTrack<W>(s: Loop<W>, s': Loop<W>, id: string, o: Origin)
    requires OnTrack(s, o) && Advances(s, s', id, o) && Open(o.steps, id)
    requires ReadySound(o.steps) ==> Eligible(o.steps, Elems(s.log.recorded), id)
    ensures OnTrack(s', o)
    ensures StepsLeft(s'.plan.steps) <= StepsLeft(s.plan.steps)
    ensures ReadyStep(s.plan.steps, id) ==> StepsLeft(s'.plan.steps) < StepsLeft(s.plan.steps)
    ensures SameSkeleton(s.plan.steps, s'.plan.steps)
  {
    hide Worked, HandedOn, Record, DelegateStepNamed, Open, ReadySound, Eligible, ReadyStep;
    WorkedGrows(o.steps, s.log.recorded, s.plan.steps, id);
    HandedOnGrows(o.steps, s.log.recorded, id);
    OnTrackPlan(s, o);
    RecordLeavesFewer(s.plan.steps, id);
    RecordSkeleton(s.plan.steps, id);
  }

  lemma RecordSkeleton(steps: seq<PlanStep>, id: string)
    requires UniqueIds(steps)
    ensures SameSkeleton(steps, Record(steps, id, PlanStepStatus.Completed))
  {
    RecordSettles(steps, id);
  }

  lemma OnTrackPlan<W>(s: Loop<W>, o: Origin)
    requires OnTrack(s, o)
    ensures UniqueIds(s.plan.steps) && SameSkeleton(o.steps, s.plan.steps)
    ensures NoDelegates(o.steps) ==> NoDelegates(s.plan.steps)
  {
    RecordedPlan(o.steps, s.log.recorded);
  }

  // Actions a planner may pick in a run on track.
  ghost predicate Pickable<W>(s: Loop<W>, o: Origin, id: string) {
    && HasStep(s.plan.steps, id) && Open(o.steps, id)
    && (ReadySound(o.steps) ==> Eligible(o.steps, Elems(s.log.recorded), id))
  }

  lemma ReadyIsPickable<W>(s: Loop<W>, o: Origin, id: string)
    requires OnTrack(s, o) && ReadyStep(s.plan.steps, id)
    ensures Pickable(s, o, id)
  {
    ReadyIsOpen(o.steps, s.log.recorded, id);
    if ReadySound(o.steps) { ReadyIsEligible(o.steps, s.log.recorded, id); }
  }

  lemma PickableStays<W>(s: Loop<W>, s': Loop<W>, o: Origin, id: string)
    requires Pickable(s, o, id) && s.log.recorded <= s'.log.recorded && SameSkeleton(s.plan.steps, s'.plan.steps)
    ensures Pickable(s', o, id)
  {
    hide Open, ReadySound, Eligible;
    var i :| 0 <= i < |s.plan.steps| && s.plan.steps[i].stepId == id;
    assert s'.plan.steps[i].stepId == id;
    if ReadySound(o.steps) { EligibleGrows(o.steps, Elems(s.log.recorded), Elems(s'.log.recorded), id); }
  }

  lemma ActionOnTrack<W(!new)>(p: Providers<W>, s: Loop<W>, action: PlannedAction, o: Origin)
    requires Staffed(p, o.steps) && OnTrack(s, o) && Pickable(s, o, action.stepId)
    ensures var f := RunAction(p, s, action);
      WorkspaceRefused(p, f, o) || (f.Next? && Advances(s, f.s, action.stepId, o))
  {
    hide RunAction, Recorded, CarriedOut, Delegated, Pickable, Worked, Cooperative, Willing, DelegateStepNamed;
    assert HasStep(s.plan.steps, action.stepId) by { PickableHasStep(s, o, action.stepId); }
    OnTrackPlan(s, o);
    KindKept(o.steps, s.plan.steps, action.stepId);
    ActionRecords(p, s, action, o);
  }

  lemma PickableHasStep<W>(s: Loop<W>, o: Origin, id: string)
    requires Pickable(s, o, id)
    ensures HasStep(s.plan.steps, id)
  {
  }

  /** Whatever open steps are picked, in whatever order and number, the run stays on
      track unless the workspace refuses an artifact; a ready step picked first leaves
      fewer to do. */
  lemma {:induction false} ActionsOnTrack<W(!new)>(p: Providers<W>, s: Loop<W>, actions: seq<PlannedAction>, o: Origin)
    requires Staffed(p, o.steps) && OnTrack(s, o)
    requires forall k :: 0 <= k < |actions| ==> Pickable(s, o, actions[k].stepId)
    ensures var f := RunActions(p, s, actions);
      && (WorkspaceRefused(p, f, o) || f.Next?)
      && (f.Next? ==> OnTrack(f.s, o) && StepsLeft(f.s.plan.steps) <= StepsLeft(s.plan.steps))
      && (f.Next? && actions != [] && ReadyStep(s.plan.steps, actions[0].stepId) ==>
            StepsLeft(f.s.plan.steps) < StepsLeft(s.plan.steps))
    decreases |actions|
  {
    hide RunAction, Staffed, OnTrack, Pickable, ReadyStep, DelegateStepNamed, CarriedOut, Delegated;
    if actions != [] {
      ActionOnTrack(p, s, actions[0], o);
      var f := RunAction(p, s, actions[0]);
      if f.Next? {
        PickableAdvance(s, f.s, actions[0].stepId, o);
        var rest := actions[1..];
        forall k | 0 <= k < |rest| ensures Pickable(f.s, o, rest[k].stepId) {
          PickableStays(s, f.s, o, actions[k + 1].stepId);
        }
        ActionsOnTrack(p, f.s, rest, o);
      }
    }
  }

  lemma PickableAdvance<W>(s: Loop<W>, s': Loop<W>, id: string, o: Origin)
    requires OnTrack(s, o) && Advances(s, s', id, o) && Pickable(s, o, id)
    ensures OnTrack(s', o) && s.log.recorded <= s'.log.recorded && SameSkeleton(s.plan.steps, s'.plan.steps)
    ensures StepsLeft(s'.plan.steps) <= StepsLeft(s.plan.steps)
    ensures ReadyStep(s.plan.steps, id) ==> StepsLeft(s'.plan.steps) < StepsLeft(s.plan.steps)
  {
    hide OnTrack, Open, ReadySound, Eligible;
    AdvanceStaysOnTrack(s, s', id, o);
  }

  // ----- One iteration -----

  /** The status of a run with nothing left that can be worked. */
  ghost function StatusOf(handedOn: bool, steps: seq<PlanStep>): DeepLoopStatus {
    if handedOn then Delegating
    else if AllSatisfied(steps) then DeepLoopStatus.Completed
    else if HasFailed(steps) then DeepLoopStatus.Failed
    else BudgetExhausted
  }

  /** How a cooperative run ends: nothing is ready any more, and the status says what that means. */
  ghost predicate Ended<W(!new)>(p: Providers<W>, f: Flow<W>, o: Origin) {
    || WorkspaceRefused(p, f, o)
    || (f.Done? && Worked(o.steps, f.s.log.recorded, f.s.plan.steps) && NoneReady(f.s.plan.steps)
        && f.status == StatusOf(HandedOn(o.steps, f.s.log.recorded), f.s.plan.steps))
  }

  // Nothing is ready, nothing failed, and something is left: the run waits for its budget to end.
  ghost predicate Hung<W>(s: Loop<W>) {
    s.subtasks == [] && NoneReady(s.plan.steps) && !AllSatisfied(s.plan.steps) && !HasFailed(s.plan.steps)
  }

  // What an iteration achieves: the run ends, hangs, or has fewer steps left.
  ghost predicate Achieves<W(!new)>(p: Providers<W>, f: Flow<W>, left: nat, o: Origin) {
    if f.Next? then OnTrack(f.s, o) && (Hung(f.s) || StepsLeft(f.s.plan.steps) < left) else Ended(p, f, o)
  }

  // Nothing but the memory, the calls and the envelope's state may differ.
  ghost predicate SameWork<W>(s: Loop<W>, s': Loop<W>) {
    && s'.plan == s.plan && s'.subtasks == s.subtasks && s'.log.recorded == s.log.recorded
    && s'.kernel.env == s.kernel.env.(state := s'.kernel.env.state)
  }

  lemma FinalReviewCompletes<W(!new)>(p: Providers<W>, s: Loop<W>, ctx: Option<string>)
    requires Cooperative(p) && s.kernel.env.state.Running?
    ensures var f := FinalReview(p, s, ctx); f.Done? && f.status.Completed? && SameWork(s, f.s)
  {
    hide ApplyOperation;
    var (id, artifact) := (s.kernel.env.taskId, FinalRef(s.artifactIds));
    var (w, review) := p.reviewFinal(s.kernel.world, id, artifact, ctx);
    assert review.Ok? && review.value.valid && !review.value.verdict.Fail?;
    var s1 := Told(s, w, AskFinalReview(id, artifact, ctx, review));
    OperationSucceeds(p.runtime, s1.kernel, RuntimeOperation.Complete);
  }

  lemma FailRunFails<W(!new)>(p: Providers<W>, s: Loop<W>, reason: string)
    requires Cooperative(p) && s.kernel.env.state.Running?
    ensures var f := FailRun(p, s, reason); f.Done? && f.status.Failed? && SameWork(s, f.s)
  {
    hide ApplyOperation;
    OperationSucceeds(p.runtime, s.kernel, RuntimeOperation.Fail(reason));
  }

  /** With nothing to do, the run ends as its plan stands, or waits if it hangs. */
  lemma NothingToDoTells<W(!new)>(p: Providers<W>, s: Loop<W>, ctx: Option<string>)
    requires Cooperative(p) && (s.subtasks == [] ==> s.kernel.env.state.Running?)
    ensures var f := NothingToDo(p, s, ctx);
      && SameWork(s, f.s)
      && (if StatusOf(s.subtasks != [], s.plan.steps).BudgetExhausted? then f.Next? && Consulted(s, f.s)
          else f.Done? && f.status == StatusOf(s.subtasks != [], s.plan.steps))
  {
    hide FinalReview, FailRun;
    if s.subtasks == [] {
      var (w, state) := p.evaluateCompletion(s.kernel.world, s.plan);
      assert state == Ok(EvaluateCompletion(s.plan));
      CompletionMeansAllSatisfied(s.plan);
      var s1 := Told(s, w, AskCompletion(s.plan, state));
      FinalReviewCompletes(p, s1, ctx);
      FailRunFails(p, s1, "completion check unsatisfied");
    }
  }

  lemma IdleAchieves<W(!new)>(p: Providers<W>, s: Loop<W>, ctx: Option<string>, o: Origin, left: nat)
    requires Cooperative(p) && OnTrack(s, o) && NoneReady(s.plan.steps)
    ensures Achieves(p, NothingToDo(p, s, ctx), left, o)
    ensures Hung(s) ==> NothingToDo(p, s, ctx).Next? && Hung(NothingToDo(p, s, ctx).s)
  {
    hide NothingToDo, Worked, HandedOn, NoneReady, AllSatisfied, HasFailed, Cooperative;
    NothingToDoTells(p, s, ctx);
  }

  lemma ActingAchieves<W(!new)>(p: Providers<W>, s: Loop<W>, actions: seq<PlannedAction>, o: Origin)
    requires Staffed(p, o.steps) && OnTrack(s, o) && actions != []
    requires forall k :: 0 <= k < |actions| ==> ReadyStep(s.plan.steps, actions[k].stepId)
    ensures Achieves(p, RunActions(p, s, actions), StepsLeft(s.plan.steps), o)
  {
    hide Staffed, OnTrack, ReadyStep, Pickable, RunActions;
    forall k | 0 <= k < |actions| ensures Pickable(s, o, actions[k].stepId) {
      ReadyIsPickable(s, o, actions[k].stepId);
    }
    ActionsOnTrack(p, s, actions, o);
  }

  lemma CooperativeConsult<W(!new)>(p: Providers<W>, s: Loop<W>)
    requires Cooperative(p)
    ensures var (s1, r) := Consult(p, s); r.Ok? && PicksAmongReady(s.plan.steps, r.value.1)
  {
    var (w, ctx) := p.buildContext(s.kernel.world, s.plan.goal, s.plan.planId);
    assert ctx.Ok?;
    var (w2, actions) := p.nextActions(w, s.plan, ctx.value);
    assert actions.Ok?;
  }

  lemma ConsultedOnTrack<W>(s: Loop<W>, s': Loop<W>, o: Origin)
    requires Consulted(s, s')
    ensures OnTrack(s, o) <==> OnTrack(s', o)
    ensures Hung(s) <==> Hung(s')
  {
  }

  /** Every iteration ends the run, leaves it hanging, or leaves fewer steps to do. */
  lemma IterationAchieves<W(!new)>(p: Providers<W>, s: Loop<W>, o: Origin)
    requires Staffed(p, o.steps) && OnTrack(s, o)
    ensures Achieves(p, Iterate(p, s), StepsLeft(s.plan.steps), o)
    ensures Hung(s) ==> Iterate(p, s).Next? && Hung(Iterate(p, s).s)
    ensures Iterate(p, s).s.log.plannerCalls <= s.log.plannerCalls + 1
  {
    hide Consult, NothingToDo, RunActions, OnTrack, Hung, Achieves, ReadyStep, NoneReady;
    ConsultAsks(p, s);
    CooperativeConsult(p, s);
    IterationAsksOnce(p, s);
    var (s1, r) := Consult(p, s);
    ConsultedOnTrack(s, s1, o);
    if r.value.1 == [] {
      IdleAchieves(p, s1, r.value.0, o, StepsLeft(s.plan.steps));
    } else {
      if Hung(s) { NothingReadyInHung(s, r.value.1); }
      ActingAchieves(p, s1, r.value.1, o);
    }
  }

  lemma NothingReadyInHung<W>(s: Loop<W>, actions: seq<PlannedAction>)
    requires PicksAmongReady(s.plan.steps, actions) && Hung(s)
    ensures actions == []
  {
    assert actions != [] ==> ReadyStep(s.plan.steps, actions[0].stepId);
  }

  // ----- The run -----

  lemma {:induction false} IterationsEnd<W(!new)>(p: Providers<W>, s: Loop<W>, n: nat, o: Origin)
    requires Staffed(p, o.steps) && OnTrack(s, o) && (n > StepsLeft(s.plan.steps) || Hung(s))
    ensures var f := Iterations(p, s, n);
      && Ended(p, f, o)
      && (Hung(s) ==> f.Done? && f.status.BudgetExhausted?)
      && ((f.Done? && f.status.BudgetExhausted?) ||
          f.s.log.plannerCalls <= s.log.plannerCalls + StepsLeft(s.plan.steps) + 1)
    decreases n
  {
    hide Iterate, OnTrack, Staffed, Worked, HandedOn;
    if n == 0 {
      HungRunsOut(p, s, o);
    } else {
      IterationAchieves(p, s, o);
      var f := Iterate(p, s);
      if f.Next? { IterationsEnd(p, f.s, n - 1, o); }
    }
  }

  lemma HungRunsOut<W(!new)>(p: Providers<W>, s: Loop<W>, o: Origin)
    requires OnTrack(s, o) && Hung(s)
    ensures Ended(p, Done(s, BudgetExhausted), o)
  {
  }

  /** A cooperative run with one iteration more than steps to do works every step it can:
      it stops with nothing ready, every recorded step recorded after what it depends on,
      and reports what its plan has come to. Only a run that hangs takes more planner
      calls than that, and only the workspace can stop it. */
  lemma CooperativeRunEnds<W(!new)>(
    p: Providers<W>, env: TaskEnvelope, world: W, plan: PlanDocument, maxIterations: nat)
    requires Staffed(p, plan.steps) && UniqueIds(plan.steps)
    requires env.state.Created? || env.state.Running?
    requires maxIterations > StepsLeft(plan.steps)
    ensures var f := Run(p, env, world, plan, maxIterations);
      && Ended(p, f, OriginOf(env, plan))
      && ((f.Done? && f.status.BudgetExhausted?) || f.s.log.plannerCalls <= StepsLeft(plan.steps) + 1)
  {
    hide Iterations, ApplyOperation, Ended;
    var s, o := Fresh(Kernel(env, [], world), plan, maxIterations), OriginOf(env, plan);
    NothingRecorded(plan.steps);
    if env.state.Created? {
      OperationSucceeds(p.runtime, s.kernel, RuntimeOperation.Start);
      var (s1, r) := Operate(p, s, RuntimeOperation.Start);
      assert OnTrack(s1, o);
      IterationsEnd(p, s1, maxIterations, o);
    } else {
      assert OnTrack(s, o);
      IterationsEnd(p, s, maxIterations, o);
    }
  }

  // ----- Plans that are completed -----

  ghost predicate OpenDelegate(steps: seq<PlanStep>) {
    exists i :: 0 <= i < |steps| && steps[i].kind.Delegate? && !SatisfiesDependency(steps[i].status)
  }

  // In a plan worked to its end, something was handed on exactly if a delegate step was open.
  lemma OpenDelegatesHandedOn(steps0: seq<PlanStep>, recorded: seq<string>, steps: seq<PlanStep>)
    requires UniqueIds(steps0) && Worked(steps0, recorded, steps) && AllSatisfied(steps)
    ensures HandedOn(steps0, recorded) <==> OpenDelegate(steps0)
  {
    hide AllMet, ReadySound, DependenciesFirst;
    if recorded != [] { RecordAllSettles(steps0, recorded); }
    if k :| 0 <= k < |recorded| && DelegateStepNamed(steps0, recorded[k]) {
      assert Open(steps0, recorded[k]);
    }
    if i :| 0 <= i < |steps0| && steps0[i].kind.Delegate? && !SatisfiesDependency(steps0[i].status) {
      assert SatisfiesDependency(steps[i].status);
      var k :| 0 <= k < |recorded| && recorded[k] == steps0[i].stepId;
      assert DelegateStepNamed(steps0, recorded[k]);
    }
  }

  // How a cooperative run of a completable plan ends.
  ghost predicate Finished<W(!new)>(p: Providers<W>, f: Flow<W>, o: Origin) {
    || WorkspaceRefused(p, f, o)
    || (f.Done? && f.status == (if OpenDelegate(o.steps) then Delegating else DeepLoopStatus.Completed)
        && AllSatisfied(f.s.plan.steps) && (ReadySound(o.steps) ==> DependenciesFirst(o.steps, f.s.log.recorded)))
  }

  lemma EndedIsFinished<W(!new)>(p: Providers<W>, f: Flow<W>, o: Origin)
    requires Ended(p, f, o) && Workable(o.steps)
    ensures Finished(p, f, o)
  {
    hide WorkspaceRefused, ReadySound, DependenciesFirst, AllOpen, RecordAll;
    if !WorkspaceRefused(p, f, o) {
      RecordedPlan(o.steps, f.s.log.recorded);
      NothingReadyMeansDone(f.s.plan.steps);
      OpenDelegatesHandedOn(o.steps, f.s.log.recorded, f.s.plan.steps);
    }
  }

  lemma ValidIsWorkable(plan: PlanDocument)
    requires ValidPlan(plan) && Completable(plan.steps)
    ensures Workable(plan.steps)
  {
    forall t | t in plan.steps ensures Elems(t.dependsOn) <= StepIds(plan.steps) {
      assert ValidStep(t, StepIds(plan.steps));
    }
  }

  /** A completable plan is worked to its end within one iteration more than it has steps
      to do: completed, or delegating if a delegate step was to be handed on; every step
      satisfied, and none before its dependencies if ready ones had theirs met. */
  lemma CooperativeRunCompletes<W(!new)>(
    p: Providers<W>, env: TaskEnvelope, world: W, plan: PlanDocument, maxIterations: nat)
    requires Staffed(p, plan.steps) && ValidPlan(plan) && Completable(plan.steps)
    requires env.state.Created? || env.state.Running?
    requires maxIterations > StepsLeft(plan.steps)
    ensures var f := Run(p, env, world, plan, maxIterations);
      Finished(p, f, OriginOf(env, plan)) && f.s.log.plannerCalls <= StepsLeft(plan.steps) + 1
  {
    hide Run, Staffed, ValidPlan, Workable, Ended, Completable;
    assert UniqueIds(plan.steps) by { ValidIsUnique(plan); }
    CooperativeRunEnds(p, env, world, plan, maxIterations);
    ValidIsWorkable(plan);
    EndedIsFinished(p, Run(p, env, world, plan, maxIterations), OriginOf(env, plan));
  }

  lemma ValidIsUnique(plan: PlanDocument)
    requires ValidPlan(plan)
    ensures UniqueIds(plan.steps)
  {
  }
}
