/** The limits of module CooperativeRuns, both ways round: exactly which plans a
    cooperative run completes, exactly which status others end with, and exactly which
    plans are worked in dependency order. */
module Obstacles {
  import opened Wrappers
  import opened Text
  import opened Graphs
  import opened CanonicalJson
  import opened Lifecycle
  import opened Planning
  import opened StepExecutor
  import opened Delegation
  import opened DeepLoop
  import opened DeepLoopRuns
  import opened Guards
  import opened Progress
  import opened CooperativeRuns

  // ----- Plans that no run completes -----

  // Neither done nor ready, and if pending, waiting for another of `m`.
  ghost predicate StuckStep(step: PlanStep, m: set<string>) {
    !step.status.Ready? && !SatisfiesDependency(step.status) &&
    (step.status.Pending? ==> exists d :: d in step.dependsOn && d in m)
  }

  ghost predicate Stuck(steps: seq<PlanStep>, m: set<string>) {
    && (exists id :: id in m && HasStep(steps, id))
    && forall i :: 0 <= i < |steps| && steps[i].stepId in m ==> StuckStep(steps[i], m)
  }

  /** Some steps wait for each other for ever, or nothing is ready and something is left. */
  ghost predicate Doomed(steps: seq<PlanStep>, m: set<string>) {
    Stuck(steps, m) || (NoneReady(steps) && !AllSatisfied(steps))
  }

  lemma CycleIsStuck(steps: seq<PlanStep>, c: seq<string>)
    requires UniqueIds(steps) && Cycle(WaitingGraph(steps), c)
    ensures Stuck(steps, Elems(c))
  {
    var g := WaitingGraph(steps);
    assert c[0] in g && c[0] in Elems(c);
    var first :| first in steps && first.status.Pending? && first.stepId == c[0];
    assert HasStep(steps, c[0]);
    forall i | 0 <= i < |steps| && steps[i].stepId in Elems(c) ensures StuckStep(steps[i], Elems(c)) {
      var k :| 0 <= k < |c| && c[k] == steps[i].stepId;
      var next := if k + 1 < |c| then c[k + 1] else c[1];
      assert next in g[c[k]] && next in Elems(c);
      var s :| s in steps && s.status.Pending? && s.stepId == c[k];
      var t :| t in steps && t.stepId == c[k] && next in t.dependsOn;
      assert s == steps[i] && t == steps[i];
    }
  }

  lemma IncompletableIsDoomed(steps: seq<PlanStep>) returns (m: set<string>)
    requires UniqueIds(steps) && !Completable(steps)
    ensures Doomed(steps, m)
  {
    hide Acyclic, AllMet;
    m := {};
    if s :| s in steps && !Workaday(s.status) {
      m := {s.stepId};
      var i :| 0 <= i < |steps| && steps[i] == s;
      assert HasStep(steps, s.stepId);
    } else if Acyclic(WaitingGraph(steps)) {
      var s :| s in steps && s.status.Pending?;
      var i :| 0 <= i < |steps| && steps[i] == s;
    } else {
      var c := SomeCycle(WaitingGraph(steps));
      CycleIsStuck(steps, c);
      m := Elems(c);
    }
  }

  lemma SomeCycle(g: Graph) returns (c: seq<string>)
    requires !Acyclic(g)
    ensures Cycle(g, c)
  {
    c :| Cycle(g, c);
  }

  /** Completing any other step leaves stuck steps stuck. */
  lemma RecordKeepsStuck(steps: seq<PlanStep>, m: set<string>, id: string)
    requires UniqueIds(steps) && Stuck(steps, m) && id !in m
    ensures UniqueIds(Record(steps, id, PlanStepStatus.Completed))
    ensures Stuck(Record(steps, id, PlanStepStatus.Completed), m)
  {
    hide Record;
    RecordSettles(steps, id);
    SettledTwice(steps, {id}, {});
    var after := Settled(steps, {id});
    var x :| x in m && HasStep(steps, x);
    var j :| 0 <= j < |steps| && steps[j].stepId == x;
    assert after[j].stepId == x;
    forall i | 0 <= i < |after| && after[i].stepId in m ensures StuckStep(after[i], m) {
      assert StuckStep(steps[i], m);
      if steps[i].status.Pending? {
        var d :| d in steps[i].dependsOn && d in m;
        assert !Met(steps, {id}, d);
      }
    }
  }

  /** The planner picks nothing but ready steps. */
  ghost predicate PicksOnlyReady<W(!new)>(p: Providers<W>) {
    forall w, plan: PlanDocument, ctx ::
      var r := p.nextActions(w, plan, ctx).1;
      r.Ok? ==> forall k :: 0 <= k < |r.value| ==> ReadyStep(plan.steps, r.value[k].stepId)
  }

  ghost predicate StaysDoomed<W>(f: Flow<W>, m: set<string>) {
    && (f.Next? ==> UniqueIds(f.s.plan.steps) && Doomed(f.s.plan.steps, m))
    && (f.Done? ==> !f.status.Completed?)
  }

  lemma {:induction false} ActionsStayStuck<W(!new)>(
    p: Providers<W>, s: Loop<W>, actions: seq<PlannedAction>, m: set<string>)
    requires LlmBookkeeping(p) && UniqueIds(s.plan.steps) && Stuck(s.plan.steps, m)
    requires forall k :: 0 <= k < |actions| ==> actions[k].stepId !in m
    ensures StaysDoomed(RunActions(p, s, actions), m)
    decreases |actions|
  {
    hide RunAction, Record;
    if actions != [] && !HasStep(s.plan.steps, actions[0].stepId) {
      UnknownStepFaults(p, s, actions[0]);
    } else if actions != [] {
      RunActionActs(p, s, actions[0]);
      var f := RunAction(p, s, actions[0]);
      if f.Next? {
        var w :| p.recordStepResult(w, s.plan, actions[0].stepId, PlanStepStatus.Completed).1 == Ok(f.s.plan);
        RecordKeepsStuck(s.plan.steps, m, actions[0].stepId);
        ActionsStayStuck(p, f.s, actions[1..], m);
      }
    }
  }

  lemma NothingToDoStaysDoomed<W(!new)>(p: Providers<W>, s: Loop<W>, ctx: Option<string>, m: set<string>)
    requires LlmBookkeeping(p) && UniqueIds(s.plan.steps) && Doomed(s.plan.steps, m)
    ensures StaysDoomed(NothingToDo(p, s, ctx), m)
  {
    var (w, state) := p.evaluateCompletion(s.kernel.world, s.plan);
    assert state == Ok(EvaluateCompletion(s.plan));
    CompletionMeansAllSatisfied(s.plan);
  }

  lemma IterationStaysDoomed<W(!new)>(p: Providers<W>, s: Loop<W>, m: set<string>)
    requires LlmBookkeeping(p) && PicksOnlyReady(p) && UniqueIds(s.plan.steps) && Doomed(s.plan.steps, m)
    ensures StaysDoomed(Iterate(p, s), m)
  {
    hide Consult, NothingToDo, RunActions, LlmBookkeeping, Doomed, ReadyStep;
    ConsultAsks(p, s);
    var (s1, r) := Consult(p, s);
    if r.Ok? {
      if r.value.1 == [] {
        NothingToDoStaysDoomed(p, s1, r.value.0, m);
      } else {
        ReadyIsNotStuck(s.plan.steps, r.value.1, m);
        ActionsStayStuck(p, s1, r.value.1, m);
      }
    }
  }

  lemma ReadyIsNotStuck(steps: seq<PlanStep>, actions: seq<PlannedAction>, m: set<string>)
    requires UniqueIds(steps) && Doomed(steps, m) && actions != []
    requires forall k :: 0 <= k < |actions| ==> ReadyStep(steps, actions[k].stepId)
    ensures Stuck(steps, m) && forall k :: 0 <= k < |actions| ==> actions[k].stepId !in m
  {
    assert ReadyStep(steps, actions[0].stepId);
    forall k | 0 <= k < |actions| ensures actions[k].stepId !in m {
      var i :| 0 <= i < |steps| && steps[i].stepId == actions[k].stepId && steps[i].status.Ready?;
    }
  }

  lemma {:induction false} IterationsStayDoomed<W(!new)>(p: Providers<W>, s: Loop<W>, m: set<string>, n: nat)
    requires LlmBookkeeping(p) && PicksOnlyReady(p) && UniqueIds(s.plan.steps) && Doomed(s.plan.steps, m)
    ensures StaysDoomed(Iterations(p, s, n), m)
    decreases n
  {
    hide Iterate, LlmBookkeeping, PicksOnlyReady, Doomed;
    if n > 0 {
      IterationStaysDoomed(p, s, m);
      var f := Iterate(p, s);
      if f.Next? { IterationsStayDoomed(p, f.s, m, n - 1); }
    }
  }

  /** A planner that picks only ready steps never completes a plan in which a step
      failed or hangs, pending steps wait in a circle, or nothing is ready while a
      pending step's dependencies are met: not with any models, tools or budget. */
  lemma IncompletableNeverCompletes<W(!new)>(
    p: Providers<W>, env: TaskEnvelope, world: W, plan: PlanDocument, maxIterations: nat)
    requires LlmBookkeeping(p) && PicksOnlyReady(p) && UniqueIds(plan.steps) && !Completable(plan.steps)
    ensures var f := Run(p, env, world, plan, maxIterations); f.Done? ==> !f.status.Completed?
  {
    hide Iterations, LlmBookkeeping, PicksOnlyReady, Completable, Doomed;
    var m := IncompletableIsDoomed(plan.steps);
    var s := Fresh(Kernel(env, [], world), plan, maxIterations);
    IterationsStayDoomed(p, s, m, maxIterations);
    IterationsStayDoomed(p, Operate(p, s, RuntimeOperation.Start).0, m, maxIterations);
  }

  lemma CooperativePicksOnlyReady<W(!new)>(p: Providers<W>)
    requires Cooperative(p)
    ensures PicksOnlyReady(p) && LlmBookkeeping(p)
  {
    hide ReadyStep, NoneReady, Approves, CooperativeRuntime, LlmBookkeeping;
    forall w, plan: PlanDocument, ctx
      ensures var r := p.nextActions(w, plan, ctx).1;
        r.Ok? ==> forall k :: 0 <= k < |r.value| ==> ReadyStep(plan.steps, r.value[k].stepId)
    {
      assert PicksAmongReady(plan.steps, p.nextActions(w, plan, ctx).1.value);
    }
  }

  /** The status a valid plan without delegate steps ends with. */
  ghost function FinalStatus(steps: seq<PlanStep>): DeepLoopStatus {
    if Completable(steps) then DeepLoopStatus.Completed
    else if HasFailed(steps) then DeepLoopStatus.Failed
    else BudgetExhausted
  }

  /** A cooperative run of a valid plan without delegate steps, with one iteration more
      than steps to do, completes exactly the completable plans, fails exactly those with
      a failed step, and runs any other until its budget ends. */
  lemma EndsExactly<W(!new)>(p: Providers<W>, env: TaskEnvelope, world: W, plan: PlanDocument, maxIterations: nat)
    requires Cooperative(p) && ValidPlan(plan) && NoDelegates(plan.steps)
    requires env.state.Created? || env.state.Running?
    requires maxIterations > StepsLeft(plan.steps)
    ensures var f := Run(p, env, world, plan, maxIterations);
      WorkspaceRefused(p, f, OriginOf(env, plan)) || (f.Done? && f.status == FinalStatus(plan.steps))
  {
    hide Run, Completable, Cooperative, PicksOnlyReady, LlmBookkeeping, ValidPlan, WorkspaceRefused;
    var f, o := Run(p, env, world, plan, maxIterations), OriginOf(env, plan);
    ValidIsUnique(plan);
    CooperativeRunEnds(p, env, world, plan, maxIterations);
    if Completable(plan.steps) {
      CooperativeRunCompletes(p, env, world, plan, maxIterations);
    } else {
      CooperativePicksOnlyReady(p);
      IncompletableNeverCompletes(p, env, world, plan, maxIterations);
      NothingHandedOn(plan.steps, f.s.log.recorded);
      RecordedPlan(plan.steps, f.s.log.recorded);
    }
  }

  lemma NothingHandedOn(steps: seq<PlanStep>, recorded: seq<string>)
    requires NoDelegates(steps)
    ensures !HandedOn(steps, recorded) && !OpenDelegate(steps)
  {
  }

  // ----- Plans that may be worked out of order -----

  // The records of a run are only ever added to.
  ghost predicate KeepsRecord<W>(f: Flow<W>, recorded: seq<string>) {
    recorded <= f.s.log.recorded
  }

  lemma {:induction false} ActionsKeepRecord<W(!new)>(p: Providers<W>, s: Loop<W>, actions: seq<PlannedAction>)
    ensures KeepsRecord(RunActions(p, s, actions), s.log.recorded)
    decreases |actions|
  {
    hide RunAction;
    if actions != [] && !HasStep(s.plan.steps, actions[0].stepId) {
      UnknownStepFaults(p, s, actions[0]);
    } else if actions != [] {
      RunActionActs(p, s, actions[0]);
      var f := RunAction(p, s, actions[0]);
      assert s.log.recorded <= f.s.log.recorded;
      if f.Next? { ActionsKeepRecord(p, f.s, actions[1..]); }
    }
  }

  lemma NothingToDoKeepsRecord<W(!new)>(p: Providers<W>, s: Loop<W>, ctx: Option<string>)
    ensures KeepsRecord(NothingToDo(p, s, ctx), s.log.recorded)
  {
  }

  lemma IterationKeepsRecord<W(!new)>(p: Providers<W>, s: Loop<W>)
    ensures KeepsRecord(Iterate(p, s), s.log.recorded)
  {
    hide Consult, NothingToDo, RunActions;
    ConsultAsks(p, s);
    var (s1, r) := Consult(p, s);
    if r.Ok? {
      NothingToDoKeepsRecord(p, s1, r.value.0);
      ActionsKeepRecord(p, s1, r.value.1);
    }
  }

  lemma {:induction false} IterationsKeepRecord<W(!new)>(p: Providers<W>, s: Loop<W>, n: nat)
    ensures KeepsRecord(Iterations(p, s, n), s.log.recorded)
    decreases n
  {
    hide Iterate;
    if n > 0 {
      IterationKeepsRecord(p, s);
      var f := Iterate(p, s);
      if f.Next? { IterationsKeepRecord(p, f.s, n - 1); }
    }
  }

  ghost function AnyReady(steps: seq<PlanStep>): (r: seq<PlannedAction>)
    ensures PicksAmongReady(steps, r)
  {
    if i :| 0 <= i < |steps| && steps[i].status.Ready? then [PlannedAction(steps[i].stepId, "")] else []
  }

  // One ready step at a time, `first` before any other.
  ghost function Eagerly(steps: seq<PlanStep>, first: string): (r: seq<PlannedAction>)
    ensures PicksAmongReady(steps, r)
    ensures ReadyStep(steps, first) ==> r == [PlannedAction(first, "")]
  {
    if ReadyStep(steps, first) then [PlannedAction(first, "")] else AnyReady(steps)
  }

  /** A blameless dispatch of that planner: everybody answers, and nobody objects. */
  ghost function EagerProviders(first: string): Providers<()> {
    Providers(
      RuntimeConfig((w: (), env: TaskEnvelope) => (w, Ok(Noop)),
          (w: (), env: TaskEnvelope, op: RuntimeOperation) => (w, None),
                    (w: (), env: TaskEnvelope, e: RuntimeEvent) => w, None),
      (w: (), q: string, r: string) => (w, Ok(None)),
      (w: (), plan: PlanDocument, ctx: Option<string>) => (w, Ok(Eagerly(plan.steps, first))),
      (w: (), plan: PlanDocument) => (w, Ok(EvaluateCompletion(plan))),
      (w: (), plan: PlanDocument, id: string, st: PlanStepStatus) => (w, Ok(RecordStepResult(plan, id, st))),
      (w: (), plan: PlanDocument, reason: string, ctx: Option<string>) => (w, Err(Provider(""))),
      AcceptAllReflection(),
      AcceptAllReflection(),
      RefuseChoice(),
      RefuseSubtask(),
      (w: (), req: CreateArtifactRequest) => (w, Ok(req.artifactId)),
      None,
      (v: Json) => "")
  }

  lemma EagerCooperates(first: string)
    ensures Cooperative(EagerProviders(first))
  {
  }

  lemma EagerStart(s: Loop<()>, first: string, o: Origin)
    requires Belongs(s, o) && NoDelegates(s.plan.steps) && ReadyStep(s.plan.steps, first) && s.log.recorded == []
    requires s.kernel.env.state.Running?
    ensures var f := Iterate(EagerProviders(first), s); f.Next? && f.s.log.recorded == [first]
  {
    hide RunAction, Cooperative, Staffed, Recorded;
    var p := EagerProviders(first);
    EagerStaffed(first, s.plan.steps);
    var action := PlannedAction(first, "");
    var s1 := Consult(p, s).0;
    assert Consult(p, s) == (s1, Ok((None, [action])));
    HasReadyStep(s.plan.steps, first);
    ActionRecords(p, s1, action, o);
    EagerRecorded(s1, RunAction(p, s1, action), action.stepId);
    assert RunActions(p, s1, [action]) == RunAction(p, s1, action) by {
      assert [action][1..] == [];
    }
  }

  lemma EagerStaffed(first: string, steps: seq<PlanStep>)
    requires NoDelegates(steps)
    ensures Staffed(EagerProviders(first), steps)
  {
    EagerCooperates(first);
  }

  lemma HasReadyStep(steps: seq<PlanStep>, id: string)
    requires ReadyStep(steps, id) && NoDelegates(steps)
    ensures HasStep(steps, id) && !FindStep(steps, id).value.kind.Delegate?
  {
  }

  lemma EagerRecorded(s: Loop<()>, f: Flow<()>, id: string)
    requires s.log.recorded == [] && f.Next? ==> Recorded(s, f.s, id)
    ensures s.log.recorded == [] && f.Next? ==> f.s.log.recorded == [id]
  {
  }

  /** The eager planner completes a step that is ready too early before what it depends on. */
  lemma EagerRunsEarly(env: TaskEnvelope, plan: PlanDocument, maxIterations: nat, first: string)
    requires ReadyStep(plan.steps, first) && !Eligible(plan.steps, {}, first) && NoDelegates(plan.steps)
    requires (env.state.Created? || env.state.Running?) && maxIterations > 0
    ensures !DependenciesFirst(plan.steps, Run(EagerProviders(first), env, (), plan, maxIterations).s.log.recorded)
  {
    hide Iterate, Eligible, Cooperative;
    var p, o := EagerProviders(first), OriginOf(env, plan);
    EagerCooperates(first);
    var s := Fresh(Kernel(env, [], ()), plan, maxIterations);
    if env.state.Created? {
      OperationSucceeds(p.runtime, s.kernel, RuntimeOperation.Start);
      s := Operate(p, s, RuntimeOperation.Start).0;
    }
    EagerStart(s, first, o);
    var f := Iterations(p, s, maxIterations);
    IterationsKeepRecord(p, Iterate(p, s).s, maxIterations - 1);
    assert f == Iterations(p, Iterate(p, s).s, maxIterations - 1);
    assert f.s.log.recorded[0] == first && Elems(f.s.log.recorded[..0]) == {};
  }

  // Every cooperative run of the plan, whoever cooperates, completes its steps in order.
  ghost predicate AlwaysInOrder<W(!new)>(env: TaskEnvelope, plan: PlanDocument, maxIterations: nat) {
    forall p: Providers<W>, world: W :: Cooperative(p) ==>
      var f := Run(p, env, world, plan, maxIterations);
      WorkspaceRefused(p, f, OriginOf(env, plan)) || DependenciesFirst(plan.steps, f.s.log.recorded)
  }

  lemma InOrderIfReadySound<W(!new)>(env: TaskEnvelope, plan: PlanDocument, maxIterations: nat)
    requires ValidPlan(plan) && NoDelegates(plan.steps) && ReadySound(plan.steps)
    requires (env.state.Created? || env.state.Running?) && maxIterations > StepsLeft(plan.steps)
    ensures AlwaysInOrder<W>(env, plan, maxIterations)
  {
    hide Run, Cooperative, ValidPlan, ReadySound, DependenciesFirst;
    ValidIsUnique(plan);
    forall p: Providers<W>, world: W | Cooperative(p)
      ensures var f := Run(p, env, world, plan, maxIterations);
        WorkspaceRefused(p, f, OriginOf(env, plan)) || DependenciesFirst(plan.steps, f.s.log.recorded)
    {
      CooperativeRunEnds(p, env, world, plan, maxIterations);
    }
  }

  /** A plan is worked in dependency order by every cooperative planner, whatever its
      memory, if the steps it calls ready have their dependencies met; otherwise already
      a planner without memory works it out of order. */
  lemma InOrderExactlyIfReadySound<W(!new)>(env: TaskEnvelope, plan: PlanDocument, maxIterations: nat)
    requires ValidPlan(plan) && NoDelegates(plan.steps)
    requires (env.state.Created? || env.state.Running?) && maxIterations > StepsLeft(plan.steps)
    ensures ReadySound(plan.steps) ==> AlwaysInOrder<W>(env, plan, maxIterations)
    ensures AlwaysInOrder<()>(env, plan, maxIterations) <==> ReadySound(plan.steps)
  {
    hide Run, Cooperative, ValidPlan;
    if ReadySound(plan.steps) {
      InOrderIfReadySound<W>(env, plan, maxIterations);
      InOrderIfReadySound<()>(env, plan, maxIterations);
    } else {
      var i :| 0 <= i < |plan.steps| && plan.steps[i].status.Ready? &&
               !AllMet(plan.steps, {}, plan.steps[i].dependsOn);
      var first := plan.steps[i].stepId;
      EagerRunsEarly(env, plan, maxIterations, first);
      EagerCooperates(first);
      EagerNeverRefused(env, plan, maxIterations, first);
    }
  }

  lemma EagerNeverRefused(env: TaskEnvelope, plan: PlanDocument, maxIterations: nat, first: string)
    ensures var p := EagerProviders(first);
      !WorkspaceRefused(p, Run(p, env, (), plan, maxIterations), OriginOf(env, plan))
  {
    hide Run;
  }
}
