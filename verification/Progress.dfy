/** Plans as they are worked: which can be worked to the end, how many steps are left,
    and what completing open steps keeps. */
module Progress {
  import opened Wrappers
  import opened Text
  import opened Graphs
  import opened Lifecycle
  import opened Planning
  import opened StepExecutor
  import opened DeepLoop
  import opened DeepLoopRuns
  import opened Guards

  // ----- Providers that do their part -----

  ghost predicate CooperativeRuntime<W(!new)>(rt: RuntimeConfig<W>) {
    && (forall w, env :: rt.decide(w, env).1 == Ok(Operation(Step)) || rt.decide(w, env).1 == Ok(Noop))
    && (forall w, env, op :: rt.preHook(w, env, op).1.None?)
    && (rt.save.Some? ==> forall w, env :: rt.save.value(w, env).1.None?)
  }

  ghost predicate ReadyStep(steps: seq<PlanStep>, id: string) {
    exists i :: 0 <= i < |steps| && steps[i].stepId == id && steps[i].status.Ready?
  }

  ghost predicate PicksAmongReady(steps: seq<PlanStep>, actions: seq<PlannedAction>) {
    && (forall k :: 0 <= k < |actions| ==> ReadyStep(steps, actions[k].stepId))
    && (actions == [] ==> NoneReady(steps))
  }

  /** The planner picks among the ready steps, and picks some whenever there are any. */
  ghost predicate PicksReady<W(!new)>(p: Providers<W>) {
    forall w, plan: PlanDocument, ctx ::
      var r := p.nextActions(w, plan, ctx).1;
      r.Ok? && PicksAmongReady(plan.steps, r.value)
  }

  /** Nobody errs except, possibly, the workspace. */
  ghost predicate Cooperative<W(!new)>(p: Providers<W>) {
    && CooperativeRuntime(p.runtime) && PicksReady(p) && Approves(p) && LlmBookkeeping(p)
    && (forall w, q, r :: p.buildContext(w, q, r).1.Ok?)
    && (p.executor.Some? ==> forall w, req :: p.executor.value(w, req).1.Ok?)
  }

  /** The delegator finds somebody for everything. */
  ghost predicate Willing<W(!new)>(p: Providers<W>) {
    && (forall w, goal, agents :: p.chooseDelegate(w, goal, agents).1.Ok?)
    && (forall w, sub :: p.startSubtask(w, sub).1.None?)
  }

  // Whoever is needed for these steps does their part.
  ghost predicate Staffed<W(!new)>(p: Providers<W>, steps: seq<PlanStep>) {
    Cooperative(p) && (NoDelegates(steps) || Willing(p))
  }

  // ----- Plans that can be worked to the end -----

  ghost predicate Workable(steps: seq<PlanStep>) {
    && UniqueIds(steps) && Completable(steps)
    && forall s :: s in steps ==> Elems(s.dependsOn) <= StepIds(steps)
  }

  // Ready steps have their dependencies met.
  ghost predicate ReadySound(steps: seq<PlanStep>) {
    forall i :: 0 <= i < |steps| && steps[i].status.Ready? ==> AllMet(steps, {}, steps[i].dependsOn)
  }

  function StepsLeft(steps: seq<PlanStep>): nat {
    if steps == [] then 0
    else StepsLeft(steps[1..]) + if SatisfiesDependency(steps[0].status) then 0 else 1
  }

  // The same steps, whatever their statuses.
  ghost predicate SameSkeleton(a: seq<PlanStep>, b: seq<PlanStep>) {
    |a| == |b| && forall i :: 0 <= i < |a| ==>
      a[i].stepId == b[i].stepId && a[i].dependsOn == b[i].dependsOn && a[i].kind == b[i].kind
  }

  lemma SkeletonIds(a: seq<PlanStep>, b: seq<PlanStep>)
    requires SameSkeleton(a, b)
    ensures StepIds(a) <= StepIds(b)
  {
    forall id | id in StepIds(a) ensures id in StepIds(b) {
      var s :| s in a && s.stepId == id;
      var i :| 0 <= i < |a| && a[i] == s;
      assert b[i] in b;
    }
  }

  lemma SettledPending(steps: seq<PlanStep>, done: set<string>, s: PlanStep) returns (before: PlanStep)
    requires s in Settled(steps, done)
    ensures before in steps && before.stepId == s.stepId && before.dependsOn == s.dependsOn
    ensures s.status.Pending? ==> before.status.Pending?
  {
    var after := Settled(steps, done);
    var i :| 0 <= i < |after| && after[i] == s;
    before := steps[i];
  }

  // Completing steps takes pending ones out of the waiting graph and adds nothing.
  lemma SettledWaits(steps: seq<PlanStep>, done: set<string>)
    requires Acyclic(WaitingGraph(steps))
    ensures Acyclic(WaitingGraph(Settled(steps, done)))
  {
    hide Acyclic, Settled, AllMet;
    var after := Settled(steps, done);
    var g, h := WaitingGraph(steps), WaitingGraph(after);
    forall id | id in PendingIds(after) ensures id in PendingIds(steps) {
      var s :| s in after && s.status.Pending? && s.stepId == id;
      var before := SettledPending(steps, done, s);
    }
    forall id | id in h ensures id in g && h[id] <= g[id] {
      forall d | d in h[id] ensures d in g[id] {
        var s :| s in after && s.stepId == id && d in s.dependsOn;
        var before := SettledPending(steps, done, s);
      }
    }
    SubgraphAcyclic(g, h);
  }

  lemma SettledScheduled(steps: seq<PlanStep>, done: set<string>)
    requires Scheduled(steps)
    ensures Scheduled(Settled(steps, done))
  {
    var after := Settled(steps, done);
    forall s | s in after
      ensures Workaday(s.status)
      ensures s.status.Pending? ==> !AllMet(after, {}, s.dependsOn)
    {
      var i :| 0 <= i < |after| && after[i] == s;
      assert steps[i] in steps;
      AllMetAfterSettling(steps, done, {}, s.dependsOn);
      assert done + {} == done;
    }
  }

  lemma SettledReadySound(steps: seq<PlanStep>, done: set<string>)
    requires ReadySound(steps)
    ensures ReadySound(Settled(steps, done))
  {
    var after := Settled(steps, done);
    forall i | 0 <= i < |after| && after[i].status.Ready? ensures AllMet(after, {}, after[i].dependsOn) {
      AllMetAfterSettling(steps, done, {}, after[i].dependsOn);
      assert done + {} == done;
      if steps[i].status.Ready? { AllMetGrows(steps, {}, done, steps[i].dependsOn); }
    }
  }

  lemma SettledSkeleton(steps: seq<PlanStep>, done: set<string>)
    requires forall s :: s in steps ==> Elems(s.dependsOn) <= StepIds(steps)
    ensures SameSkeleton(steps, Settled(steps, done))
    ensures forall s :: s in Settled(steps, done) ==> Elems(s.dependsOn) <= StepIds(Settled(steps, done))
  {
    hide AllMet;
    var after := Settled(steps, done);
    SkeletonIds(steps, after);
    forall s | s in after ensures Elems(s.dependsOn) <= StepIds(after) {
      var before := SettledPending(steps, done, s);
    }
  }

  ghost predicate HasFailed(steps: seq<PlanStep>) {
    exists i :: 0 <= i < |steps| && steps[i].status.Failed?
  }

  // Step `id` is still to be done.
  ghost predicate Open(steps: seq<PlanStep>, id: string) {
    exists i :: 0 <= i < |steps| && steps[i].stepId == id && (steps[i].status.Pending? || steps[i].status.Ready?)
  }

  ghost predicate AllOpen(steps: seq<PlanStep>, ids: seq<string>) {
    forall k :: 0 <= k < |ids| ==> Open(steps, ids[k])
  }

  // Only open steps are completed, so a failed one stays failed.
  lemma SettledFailed(steps: seq<PlanStep>, ids: seq<string>)
    requires UniqueIds(steps) && AllOpen(steps, ids)
    ensures HasFailed(Settled(steps, Elems(ids))) <==> HasFailed(steps)
  {
    hide AllMet;
    var after := Settled(steps, Elems(ids));
    forall i | 0 <= i < |steps| ensures after[i].status.Failed? <==> steps[i].status.Failed? {
      if steps[i].stepId in Elems(ids) {
        var k :| 0 <= k < |ids| && ids[k] == steps[i].stepId;
        assert Open(steps, ids[k]);
      }
    }
  }

  /** The plan a run has reached is the original with its completions settled. */
  lemma RecordedPlan(steps0: seq<PlanStep>, recorded: seq<string>)
    requires UniqueIds(steps0)
    ensures var steps := RecordAll(steps0, recorded);
      && UniqueIds(steps) && SameSkeleton(steps0, steps)
      && (ReadySound(steps0) ==> ReadySound(steps))
      && (Workable(steps0) ==> Workable(steps))
      && (AllOpen(steps0, recorded) ==> (HasFailed(steps) <==> HasFailed(steps0)))
  {
    hide Acyclic, WaitingGraph, Scheduled, ReadySound, StepIds, AllMet, HasFailed, AllOpen, RecordAll;
    if recorded == [] {
      NothingRecorded(steps0);
    } else {
      var done := Elems(recorded);
      RecordAllSettles(steps0, recorded);
      SettledTwice(steps0, done, {});
      if ReadySound(steps0) { SettledReadySound(steps0, done); }
      if Workable(steps0) {
        SettledScheduled(steps0, done);
        SettledWaits(steps0, done);
        SettledSkeleton(steps0, done);
      }
      if AllOpen(steps0, recorded) { SettledFailed(steps0, recorded); }
    }
  }

  lemma NothingRecorded(steps0: seq<PlanStep>)
    ensures RecordAll(steps0, []) == steps0
  {
  }

  // ----- The number of steps left -----

  ghost predicate NoneLost(a: seq<PlanStep>, b: seq<PlanStep>) {
    |a| == |b| && forall i :: 0 <= i < |a| && SatisfiesDependency(a[i].status) ==> SatisfiesDependency(b[i].status)
  }

  lemma {:induction false} UnsatisfiedShrinks(a: seq<PlanStep>, b: seq<PlanStep>)
    requires NoneLost(a, b)
    ensures StepsLeft(b) <= StepsLeft(a)
    ensures (exists i :: 0 <= i < |a| && !SatisfiesDependency(a[i].status) && SatisfiesDependency(b[i].status)) ==>
      StepsLeft(b) < StepsLeft(a)
  {
    if a != [] {
      UnsatisfiedShrinks(a[1..], b[1..]);
      if i :| 0 <= i < |a| && !SatisfiesDependency(a[i].status) && SatisfiesDependency(b[i].status) {
        if i > 0 { assert a[1..][i - 1] == a[i] && b[1..][i - 1] == b[i]; }
      }
    }
  }

  lemma RecordLeavesFewer(steps: seq<PlanStep>, id: string)
    requires UniqueIds(steps)
    ensures StepsLeft(Record(steps, id, PlanStepStatus.Completed)) <= StepsLeft(steps)
    ensures ReadyStep(steps, id) ==> StepsLeft(Record(steps, id, PlanStepStatus.Completed)) < StepsLeft(steps)
  {
    RecordSettles(steps, id);
    UnsatisfiedShrinks(steps, Settled(steps, {id}));
    if ReadyStep(steps, id) {
      var i :| 0 <= i < |steps| && steps[i].stepId == id && steps[i].status.Ready?;
      assert SatisfiesDependency(Settled(steps, {id})[i].status);
    }
  }

  // ----- The order in which steps complete -----

  // Everything step `id` of the original plan depends on is met once `recorded` are.
  ghost predicate Eligible(steps0: seq<PlanStep>, recorded: set<string>, id: string) {
    forall i :: 0 <= i < |steps0| && steps0[i].stepId == id ==> AllMet(steps0, recorded, steps0[i].dependsOn)
  }

  /** No step is recorded before the steps it depends on. */
  ghost predicate DependenciesFirst(steps0: seq<PlanStep>, recorded: seq<string>) {
    forall k :: 0 <= k < |recorded| ==> Eligible(steps0, Elems(recorded[..k]), recorded[k])
  }

  lemma AllMetAfterRecording(steps0: seq<PlanStep>, recorded: seq<string>, deps: seq<string>)
    requires UniqueIds(steps0)
    ensures AllMet(RecordAll(steps0, recorded), {}, deps) <==> AllMet(steps0, Elems(recorded), deps)
  {
    if recorded != [] {
      RecordAllSettles(steps0, recorded);
      AllMetAfterSettling(steps0, Elems(recorded), {}, deps);
      assert Elems(recorded) + {} == Elems(recorded);
    } else {
      assert Elems(recorded) == {};
    }
  }

  // A step ready by now was open to begin with.
  lemma ReadyIsOpen(steps0: seq<PlanStep>, recorded: seq<string>, id: string)
    requires UniqueIds(steps0) && ReadyStep(RecordAll(steps0, recorded), id)
    ensures Open(steps0, id)
  {
    var steps := RecordAll(steps0, recorded);
    var i :| 0 <= i < |steps| && steps[i].stepId == id && steps[i].status.Ready?;
    if recorded != [] { RecordAllSettles(steps0, recorded); }
    assert steps0[i].stepId == id && (steps0[i].status.Pending? || steps0[i].status.Ready?);
  }

  lemma ReadyIsEligible(steps0: seq<PlanStep>, recorded: seq<string>, id: string)
    requires UniqueIds(steps0) && ReadySound(steps0) && ReadyStep(RecordAll(steps0, recorded), id)
    ensures Eligible(steps0, Elems(recorded), id)
  {
    var steps := RecordAll(steps0, recorded);
    RecordedPlan(steps0, recorded);
    var i :| 0 <= i < |steps| && steps[i].stepId == id && steps[i].status.Ready?;
    AllMetAfterRecording(steps0, recorded, steps[i].dependsOn);
    assert steps0[i].stepId == id;
  }

  lemma EligibleGrows(steps0: seq<PlanStep>, fewer: set<string>, more: set<string>, id: string)
    requires fewer <= more && Eligible(steps0, fewer, id)
    ensures Eligible(steps0, more, id)
  {
    forall i | 0 <= i < |steps0| && steps0[i].stepId == id ensures AllMet(steps0, more, steps0[i].dependsOn) {
      AllMetGrows(steps0, fewer, more, steps0[i].dependsOn);
    }
  }

  lemma DependenciesFirstGrows(steps0: seq<PlanStep>, recorded: seq<string>, id: string)
    requires DependenciesFirst(steps0, recorded) && Eligible(steps0, Elems(recorded), id)
    ensures DependenciesFirst(steps0, recorded + [id])
  {
    var longer := recorded + [id];
    forall k | 0 <= k < |longer| ensures Eligible(steps0, Elems(longer[..k]), longer[k]) {
      assert longer[..k] == recorded[..k];
      assert recorded[..|recorded|] == recorded;
    }
  }
}
