/** Where a promise of the program fails: concrete plans, and dispatches and runs of
    them that end otherwise than hoped. */
module Counterexamples {
  import opened Wrappers
  import opened Text
  import opened Graphs
  import opened CanonicalJson
  import opened Lifecycle
  import opened Planning
  import opened StepExecutor
  import opened ToolConversation
  import opened Delegation
  import opened DeepLoop
  import opened DeepLoopRuns
  import opened Guards
  import opened Progress
  import opened CooperativeRuns
  import opened Obstacles
  import opened Dispatch

  // ----- A host that does all it can -----

  // Some ready step, `times` over.
  ghost function Insist(steps: seq<PlanStep>, times: nat): (r: seq<PlannedAction>)
    requires times > 0
    ensures PicksAmongReady(steps, r)
    ensures r != [] ==> |r| == times && forall k :: 0 <= k < times ==> r[k] == r[0]
  {
    var picked := AnyReady(steps);
    if picked == [] then [] else seq(times, k requires 0 <= k < times => picked[0])
  }

  /** Everybody answers at once, nothing ever errs, and the planner picks ready steps. */
  ghost function ObligingHost(plan: PlanDocument, times: nat): Host<()>
    requires times > 0
  {
    Host(
      (v: (), r: ChatRequest) => (v, Ok(ChatResponse("", []))),
      (v: (), name: string, arguments: Json) => (v, Ok(Json.Null)),
      [],
      false,
      (v: (), store: Store, q: string, r: string) => (v, Ok(None)),
      (v: ()) => (v, Ok(plan)),
      (v: (), current: PlanDocument, ctx: Option<string>) => (v, Ok(Insist(current.steps, times))),
      (v: (), current: PlanDocument, reason: string, ctx: Option<string>) => (v, Ok(current.revision)),
      AcceptAllReflection(),
      AcceptAllReflection(),
      RefuseChoice(),
      RefuseSubtask(),
      (value: Json) => "",
      (value: Json) => "")
  }

  lemma ObligingCooperates(plan: PlanDocument, times: nat)
    requires times > 0
    ensures CooperativeHost(ObligingHost(plan, times))
  {
  }

  const TASK := TaskEnvelope("task", "worker", "tenant", TaskLifecycleState.Created)

  function Quietly(maxIterations: nat): Settings {
    Settings(maxIterations, false, false)
  }

  function StepOf(id: string, status: PlanStepStatus, dependsOn: seq<string>): PlanStep {
    PlanStep(id, "Title", Research, status, dependsOn, None, None)
  }

  function PlanOf(steps: seq<PlanStep>): PlanDocument {
    PlanDocument("plan", "goal", 0, ["done"], steps, [])
  }

  lemma NamesAreGiven()
    ensures !Blank("plan") && !Blank("goal") && !Blank("Title") && !Blank("a") && !Blank("b")
    ensures !Blank(TASK.tenant) && !Blank(TASK.taskId)
  {
    assert 'p' in "plan" && 'g' in "goal" && 'T' in "Title" && 'a' in "a" && 'b' in "b" && 't' in "tenant" &&
        't' in "task";
  }

  lemma PlanIsValid(steps: seq<PlanStep>)
    requires UniqueIds(steps)
    requires forall s :: s in steps ==> s.stepId in {"a", "b"} && s.title == "Title"
    requires forall s, d :: s in steps && d in s.dependsOn ==> d in StepIds(steps) && d != s.stepId
    ensures ValidPlan(PlanOf(steps))
  {
    hide Blank;
    NamesAreGiven();
    var ids := StepIds(steps);
    forall s | s in steps ensures ValidStep(s, ids) {
      forall d | d in s.dependsOn ensures !Blank(d) && d in ids && d != s.stepId {
        assert d in StepIds(steps);
        var other :| other in steps && other.stepId == d;
      }
    }
  }

  lemma NothingStripped(steps: seq<PlanStep>)
    requires NoDelegates(steps)
    ensures StripDelegateSteps(PlanOf(steps)) == PlanOf(steps)
  {
    StrippedHasNoDelegates(PlanOf(steps));
  }

  // ----- A valid plan that is never completed -----

  function Circle(): seq<PlanStep> {
    [StepOf("a", PlanStepStatus.Pending, ["b"]), StepOf("b", PlanStepStatus.Pending, ["a"])]
  }

  lemma CircleIsValid()
    ensures ValidPlan(PlanOf(Circle())) && NoDelegates(Circle()) && NoneReady(Circle()) && !HasFailed(Circle())
  {
    hide ValidPlan;
    var steps := Circle();
    assert steps[0] in steps && steps[1] in steps;
    assert "a" in StepIds(steps) && "b" in StepIds(steps);
    PlanIsValid(steps);
  }

  lemma CircleWaits()
    ensures !Completable(Circle()) && !AllSatisfied(Circle())
  {
    var steps, g := Circle(), WaitingGraph(Circle());
    assert steps[0] in steps && steps[1] in steps;
    assert "a" in PendingIds(steps) && "b" in PendingIds(steps);
    assert "b" in g["a"] && "a" in g["b"];
    assert Cycle(g, ["a", "b", "a"]);
    assert !SatisfiesDependency(steps[0].status);
  }

  lemma BeginsOnTrack<W(!new)>(p: Providers<W>, world: W, plan: PlanDocument, maxIterations: nat)
    requires CooperativeRuntime(p.runtime) && UniqueIds(plan.steps)
    ensures var (s, r) := Operate(p, Fresh(Kernel(TASK, [], world), plan, maxIterations), RuntimeOperation.Start);
      r.Ok? && OnTrack(s, OriginOf(TASK, plan)) && s.plan == plan && s.subtasks == []
  {
    hide ApplyOperation;
    NothingRecorded(plan.steps);
    OperationSucceeds(p.runtime, Kernel(TASK, [], world), RuntimeOperation.Start);
  }

  /** The planner validates a plan whose two steps wait for each other, and no dispatch of
      it, however many iterations it is given, ever completes: each runs out of budget. */
  lemma CircleNeverCompletes(maxIterations: nat)
    ensures ValidPlan(PlanOf(Circle())) && !Completable(Circle())
    ensures var d := Invoke(ObligingHost(PlanOf(Circle()), 1), Quietly(maxIterations), TASK, ());
      d.Some? && d.value.Done? && d.value.status.BudgetExhausted?
  {
    hide Iterations, OnTrack, Cooperative, Staffed, Completable, CooperativeHost, AllSatisfied, HasFailed, NoneReady;
    var plan, h, t := PlanOf(Circle()), ObligingHost(PlanOf(Circle()), 1), Quietly(maxIterations);
    CircleIsValid();
    CircleWaits();
    ObligingCooperates(plan, 1);
    NothingStripped(Circle());
    DispatchStaffed(h, t, ());
    var p, world := Wire(h, t), FreshMemory(());
    BeginsOnTrack(p, world, plan, maxIterations);
    var (s, r) := Operate(p, Fresh(Kernel(TASK, [], world), plan, maxIterations), RuntimeOperation.Start);
    IterationsEnd(p, s, maxIterations, OriginOf(TASK, plan));
  }

  // ----- A valid plan worked out of order -----

  function TooEarly(): seq<PlanStep> {
    [StepOf("a", PlanStepStatus.Ready, ["b"]), StepOf("b", PlanStepStatus.Ready, [])]
  }

  lemma TooEarlyIsValid()
    ensures ValidPlan(PlanOf(TooEarly())) && NoDelegates(TooEarly())
  {
    hide ValidPlan;
    var steps := TooEarly();
    assert steps[0] in steps && steps[1] in steps;
    assert "a" in StepIds(steps) && "b" in StepIds(steps);
    PlanIsValid(steps);
  }

  lemma TooEarlyIsCompletable()
    ensures Completable(TooEarly()) && !OpenDelegate(TooEarly()) && StepsLeft(TooEarly()) == 2
  {
    assert StepsLeft(TooEarly()[1..]) == 1 by { assert TooEarly()[1..][1..] == []; }
    assert TooEarly()[0].status.Ready?;
    assert WaitingGraph(TooEarly()) == map[];
  }

  lemma TooEarlyIsUnsound()
    ensures ReadyStep(TooEarly(), "a") && !ReadySound(TooEarly()) && !Eligible(TooEarly(), {}, "a")
  {
    var steps := TooEarly();
    assert steps[0].stepId == "a" && steps[0].status.Ready? && "b" in steps[0].dependsOn;
    assert !Met(steps, {}, "b");
  }

  /** The planner validates a plan that calls a step ready before its dependency is met;
      a cooperative run of it completes, with that step done first. */
  lemma TooEarlyCompletesOutOfOrder(maxIterations: nat)
    requires maxIterations > 2
    ensures ValidPlan(PlanOf(TooEarly())) && Completable(TooEarly()) && !ReadySound(TooEarly())
    ensures Cooperative(EagerProviders("a"))
    ensures var f := Run(EagerProviders("a"), TASK, (), PlanOf(TooEarly()), maxIterations);
      f.Done? && f.status.Completed? && !DependenciesFirst(TooEarly(), f.s.log.recorded)
  {
    hide Run, Completable, Cooperative, ReadySound, Eligible, DependenciesFirst, ValidPlan;
    var p, plan := EagerProviders("a"), PlanOf(TooEarly());
    TooEarlyIsValid();
    TooEarlyIsCompletable();
    TooEarlyIsUnsound();
    EagerCooperates("a");
    EagerStaffed("a", TooEarly());
    EagerNeverRefused(TASK, plan, maxIterations, "a");
    CooperativeRunCompletes(p, TASK, (), plan, maxIterations);
    EagerRunsEarly(TASK, plan, maxIterations, "a");
  }

  // ----- A dispatch whose artifact counter goes round -----

  const MANY: nat := SEQ_MODULUS + 1

  function Single(): seq<PlanStep> {
    [StepOf("a", PlanStepStatus.Ready, [])]
  }

  lemma SingleIsValid()
    ensures ValidPlan(PlanOf(Single())) && NoDelegates(Single()) && UniqueIds(Single()) && ReadyStep(Single(), "a")
    ensures forall id :: ReadyStep(Single(), id) ==> id == "a"
  {
    hide ValidPlan;
    var steps := Single();
    assert steps[0] in steps && steps[0].stepId == "a" && steps[0].status.Ready?;
    assert "a" in StepIds(steps);
    PlanIsValid(steps);
  }

  // Asked about the plan, the host picks its step as often as it was told to.
  lemma InsistsOnSingle(s: Loop<Memory<()>>, maxIterations: nat)
    requires s.plan.steps == Single()
    ensures var p := Wire(ObligingHost(PlanOf(Single()), MANY), Quietly(maxIterations));
      var (s1, r) := Consult(p, s); r.Ok? ==> |r.value.1| == MANY
  {
    hide Insist;
    var h := ObligingHost(PlanOf(Single()), MANY);
    var p := Wire(h, Quietly(maxIterations));
    SingleIsValid();
    ConsultAsks(p, s);
    var (s1, r) := Consult(p, s);
    if r.Ok? {
      var m :| p.nextActions(m, s.plan, r.value.0).1 == Ok(r.value.1);
      assert CheckedActions(s.plan, Ok(Insist(Single(), MANY))) == Ok(r.value.1);
      assert r.value.1 == Insist(Single(), MANY);
      InsistsWhenReady(Single(), MANY, "a");
    }
  }

  lemma InsistsWhenReady(steps: seq<PlanStep>, times: nat, id: string)
    requires times > 0 && ReadyStep(steps, id)
    ensures |Insist(steps, times)| == times
  {
  }

  // Every artifact since the start of the run belongs to step `id` of the run.
  ghost predicate AllOfStep(created: seq<CreationLog>, run: string, id: string) {
    forall k :: 0 <= k < |created| ==> created[k].step.stepId == id && created[k].request.run == run
  }

  /** However often a step is picked in one go, each time makes one artifact. */
  lemma {:induction false} EachMakesOne<W(!new)>(
    p: Providers<W>, s: Loop<W>, actions: seq<PlannedAction>, id: string, o: Origin)
    requires Staffed(p, o.steps) && OnTrack(s, o) && NoDelegates(o.steps) && Pickable(s, o, id)
    requires forall k :: 0 <= k < |actions| ==> actions[k].stepId == id
    requires AllOfStep(s.log.created, o.run, id)
    ensures var f := RunActions(p, s, actions);
      WorkspaceRefused(p, f, o) ||
      (f.Next? && |f.s.log.created| == |s.log.created| + |actions| && AllOfStep(f.s.log.created, o.run, id))
    decreases |actions|
  {
    hide RunAction, Staffed, OnTrack, Pickable, StepsLeft, ReadyStep;
    if actions != [] {
      ActionOnTrack(p, s, actions[0], o);
      var f := RunAction(p, s, actions[0]);
      if f.Next? {
        OneMade(s, f.s, id, o);
        PickableAdvance(s, f.s, id, o);
        PickableStays(s, f.s, o, id);
        EachMakesOne(p, f.s, actions[1..], id, o);
      }
    }
  }

  lemma OneMade<W>(s: Loop<W>, s': Loop<W>, id: string, o: Origin)
    requires OnTrack(s, o) && NoDelegates(o.steps) && Advances(s, s', id, o) && AllOfStep(s.log.created, o.run, id)
    ensures |s'.log.created| == |s.log.created| + 1 && AllOfStep(s'.log.created, o.run, id)
  {
    hide Worked, HandedOn, Recorded;
  }

  // No run of one step gets past 2^32 artifacts with all of them in store.
  lemma TooManyToStore<W(!new)>(c: Study<W>, s: Loop<W>, run: string, id: string)
    requires DeepLoopRuns.Running(c, s) && c.tracked && AllOfStep(s.log.created, run, id)
    ensures |s.log.created| <= SEQ_MODULUS
  {
    hide PriorsShown, OutputsWritten, ConnectedPath, ArtifactId;
    var created := s.log.created;
    if |created| > SEQ_MODULUS {
      assert s.artifactIds[0] == created[0].request.artifactId;
      assert s.artifactIds[SEQ_MODULUS] == created[SEQ_MODULUS].request.artifactId;
      ArtifactIdsCoincide(created, 0, SEQ_MODULUS);
    }
  }

  // The first iteration is refused an artifact.
  lemma FirstIterationRefused<V(!new)>(
    h: Host<V>, t: Settings, v: V, c: Study<Memory<V>>, s: Loop<Memory<V>>, o: Origin)
    requires c.p == Wire(h, t) && c.tracked && Tracking(c) && DeepLoopRuns.Running(c, s) && s.log.created == []
    requires Staffed(c.p, o.steps) && OnTrack(s, o) && NoDelegates(o.steps) && s.plan.steps == o.steps
    requires ReadyStep(o.steps, "a") && forall id :: ReadyStep(o.steps, id) ==> id == "a"
    requires var (s1, r) := Consult(c.p, s); r.Ok? ==> |r.value.1| == MANY
    ensures WorkspaceRefused(c.p, Iterate(c.p, s), o)
  {
    hide Consult, RunActions, Staffed, OnTrack, Tracking, DeepLoopRuns.Running, Pickable, ReadyStep, WorkspaceRefused;
    hide NothingToDo, Hung;
    ConsultAsks(c.p, s);
    StaffedCooperates(c.p, o.steps);
    CooperativeConsult(c.p, s);
    ConsultKeeps(c, s);
    var (s1, r) := Consult(c.p, s);
    ConsultedOnTrack(s, s1, o);
    var actions := r.value.1;
    forall k | 0 <= k < |actions| ensures actions[k].stepId == "a" { assert ReadyStep(o.steps, actions[k].stepId); }
    ReadyIsPickable(s1, o, "a");
    EachMakesOne(c.p, s1, actions, "a", o);
    RunActionsKeeps(c, s1, actions);
    var f := RunActions(c.p, s1, actions);
    if f.Next? && !WorkspaceRefused(c.p, f, o) { TooManyToStore(c, f.s, o.run, "a"); }
  }

  lemma StaffedCooperates<W(!new)>(p: Providers<W>, steps: seq<PlanStep>)
    requires Staffed(p, steps)
    ensures Cooperative(p)
  {
  }

  lemma RefusalEndsRun<W(!new)>(p: Providers<W>, s: Loop<W>, n: nat, o: Origin)
    requires n > 0 && WorkspaceRefused(p, Iterate(p, s), o)
    ensures WorkspaceRefused(p, Iterations(p, s, n), o)
  {
    hide Iterate;
  }

  // Where the dispatch stands once its runtime has started.
  lemma SingleStarts(maxIterations: nat)
    ensures var p := Wire(ObligingHost(PlanOf(Single()), MANY), Quietly(maxIterations));
      var c := StudyOf(p, true, DispatchFrame(), TASK, FreshMemory(()), maxIterations);
      var start := Fresh(Kernel(TASK, [], FreshMemory(())), PlanOf(Single()), maxIterations);
      var (s, r) := Operate(p, start, RuntimeOperation.Start);
      && r.Ok? && Tracking(c) && DeepLoopRuns.Running(c, s) && s.log.created == [] && s.plan == PlanOf(Single())
      && OnTrack(s, OriginOf(TASK, PlanOf(Single())))
  {
    hide OnTrack, Framed, ApplyOperation, Tracked;
    var plan, h, t := PlanOf(Single()), ObligingHost(PlanOf(Single()), MANY), Quietly(maxIterations);
    var p, world := Wire(h, t), FreshMemory(());
    var c := StudyOf(p, true, DispatchFrame(), TASK, world, maxIterations);
    SingleIsValid();
    WiredFramed(h, t);
    FreshRunning(p, true, DispatchFrame(), TASK, world, plan, maxIterations);
    OperateKeeps(c, Fresh(Kernel(TASK, [], world), plan, maxIterations), RuntimeOperation.Start);
    hide DeepLoopRuns.Running;
    BeginsOnTrack(p, world, plan, maxIterations);
  }

  lemma SingleRefused(maxIterations: nat)
    requires maxIterations > 0
    ensures var h, t := ObligingHost(PlanOf(Single()), MANY), Quietly(maxIterations);
      Invoke(h, t, TASK, ()).Some? &&
          WorkspaceRefused(Wire(h, t), Invoke(h, t, TASK, ()).value, OriginOf(TASK, PlanOf(Single())))
  {
    hide Iterations, Iterate, OnTrack, Staffed, CooperativeHost, Tracking, DeepLoopRuns.Running, ValidPlan, ReadyStep;
    hide WorkspaceRefused, Consult, Blank;
    var plan, h, t := PlanOf(Single()), ObligingHost(PlanOf(Single()), MANY), Quietly(maxIterations);
    SingleIsValid();
    ObligingCooperates(plan, MANY);
    NothingStripped(Single());
    DispatchStaffed(h, t, ());
    SingleStarts(maxIterations);
    var p, world, o := Wire(h, t), FreshMemory(()), OriginOf(TASK, plan);
    var c := StudyOf(p, true, DispatchFrame(), TASK, world, maxIterations);
    var s := Operate(p, Fresh(Kernel(TASK, [], world), plan, maxIterations), RuntimeOperation.Start).0;
    InsistsOnSingle(s, maxIterations);
    FirstIterationRefused(h, t, (), c, s, o);
    RefusalEndsRun(p, s, maxIterations, o);
  }

  /** The host's store refuses a dispatch of a valid one-step plan, although everybody
      cooperates: the planner picks the step 2^32 + 1 times in one go, the counter goes
      round, and the last artifact is given the id of the first. */
  lemma CounterGoesRound(maxIterations: nat)
    requires maxIterations > 0
    ensures ValidPlan(PlanOf(Single())) && CooperativeHost(ObligingHost(PlanOf(Single()), MANY))
    ensures var d := Invoke(ObligingHost(PlanOf(Single()), MANY), Quietly(maxIterations), TASK, ());
      && d.Some? && d.value.Fault? && d.value.error.WorkspaceFault? && d.value.error.workspace.Duplicate?
      && |d.value.s.log.created| > SEQ_MODULUS
  {
    hide Run, WorkspaceRefused, ValidPlan, CooperativeHost, Blank;
    var plan, h, t := PlanOf(Single()), ObligingHost(PlanOf(Single()), MANY), Quietly(maxIterations);
    SingleIsValid();
    NamesAreGiven();
    ObligingCooperates(plan, MANY);
    NothingStripped(Single());
    SingleRefused(maxIterations);
    RefusedOnlyAfterWrap(h, t, TASK, ());
    RefusedIsFault(Wire(h, t), Invoke(h, t, TASK, ()).value, OriginOf(TASK, plan));
  }
}
