/** What replaces reflection and delegation when they are switched off
    (`guards.rs`), and that switching delegation off is airtight. */
module Guards {
  import opened Wrappers
  import opened Text
  import opened Lifecycle
  import opened Planning
  import opened StepExecutor
  import opened Delegation
  import opened DeepLoop
  import opened DeepLoopRuns

  // ----- The guards -----

  function StripStep(step: PlanStep): PlanStep {
    if step.kind.Delegate? then step.(kind := Research, assignedAgent := None) else step
  }

  function StripDelegateSteps(plan: PlanDocument): PlanDocument {
    plan.(steps := seq(|plan.steps|, i requires 0 <= i < |plan.steps| => StripStep(plan.steps[i])))
  }

  /** Rewrites every delegate step into one the worker runs itself. */
  method StripInPlace(plan: PlanDocument) returns (stripped: PlanDocument)
    ensures stripped == StripDelegateSteps(plan)
  {
    var steps := plan.steps;
    for i := 0 to |steps|
      invariant |steps| == |plan.steps|
      invariant forall j :: 0 <= j < |steps| ==> steps[j] == if j < i then StripStep(plan.steps[j]) else plan.steps[j]
    {
      if steps[i].kind.Delegate? {
        steps := steps[i := steps[i].(kind := Research, assignedAgent := None)];
      }
    }
    assert steps == StripDelegateSteps(plan).steps;
    return plan.(steps := steps);
  }

  function WithoutDelegate(outcome: ReviewOutcome): ReviewOutcome {
    if outcome.verdict.Delegate? then outcome.(verdict := Accept) else outcome
  }

  type Reviewer<!W> = (W, string, string, Option<string>) -> (W, Result<ReviewOutcome, string>)

  /** A reviewer whose `Delegate` verdicts become `Accept`. */
  function NoDelegateVerdict<W>(inner: Reviewer<W>): Reviewer<W> {
    (w: W, id: string, artifact: string, ctx: Option<string>) =>
      var (w', r) := inner(w, id, artifact, ctx);
      (w', if r.Err? then r else Ok(WithoutDelegate(r.value)))
  }

  /** The guard changes a review only by accepting where it said to delegate. */
  lemma GuardedVerdict<W>(inner: Reviewer<W>, w: W, id: string, artifact: string, ctx: Option<string>)
    ensures var guarded, plain := NoDelegateVerdict(inner)(w, id, artifact, ctx), inner(w, id, artifact, ctx);
      && guarded.0 == plain.0
      && (plain.1.Err? ==> guarded.1 == plain.1)
      && (plain.1.Ok? ==> guarded.1.Ok? && guarded.1.value.valid == plain.1.value.valid)
      && (plain.1.Ok? ==> guarded.1.value.verdict == if plain.1.value.verdict.Delegate? then Accept
          else plain.1.value.verdict)
  {
  }

  function AcceptAllReflection<W>(): Reviewer<W> {
    (w: W, id: string, artifact: string, ctx: Option<string>) => (w, Ok(ReviewOutcome(Accept, true)))
  }

  const DELEGATION_OFF := "delegation is switched off for this deep worker"

  function RefuseChoice<W>(): (W, string, seq<string>) -> (W, Result<DelegationDecision, string>) {
    (w: W, goal: string, agents: seq<string>) => (w, Err(DELEGATION_OFF))
  }

  function RefuseSubtask<W>(): (W, SubtaskEnvelope) -> (W, Option<string>) {
    (w: W, sub: SubtaskEnvelope) => (w, Some(DELEGATION_OFF))
  }

  // ----- Delegation off is airtight -----

  ghost predicate NoDelegates(steps: seq<PlanStep>) {
    forall i :: 0 <= i < |steps| ==> !steps[i].kind.Delegate?
  }

  ghost predicate NoFailed(steps: seq<PlanStep>) {
    forall i :: 0 <= i < |steps| ==> !steps[i].status.Failed?
  }

  // The step as it was, but that a delegate step is research of nobody's.
  ghost predicate Stripped(step: PlanStep, step': PlanStep) {
    && (step'.stepId, step'.title, step'.status) == (step.stepId, step.title, step.status)
    && (step'.dependsOn, step'.outputSchemaRef) == (step.dependsOn, step.outputSchemaRef)
    && if step.kind.Delegate? then step'.kind.Research? && step'.assignedAgent.None?
       else (step'.kind, step'.assignedAgent) == (step.kind, step.assignedAgent)
  }

  /** Stripping leaves no delegate step, changes nothing else, and costs a plan
      neither its ids, statuses nor dependencies. */
  lemma StrippedHasNoDelegates(plan: PlanDocument)
    ensures NoDelegates(StripDelegateSteps(plan).steps)
    ensures var stripped := StripDelegateSteps(plan);
      && stripped == plan.(steps := stripped.steps) && |stripped.steps| == |plan.steps|
      && forall i :: 0 <= i < |plan.steps| ==> Stripped(plan.steps[i], stripped.steps[i])
    ensures NoDelegates(plan.steps) ==> StripDelegateSteps(plan) == plan
    ensures ValidPlan(plan) ==> ValidPlan(StripDelegateSteps(plan))
    ensures NoFailed(plan.steps) ==> NoFailed(StripDelegateSteps(plan).steps)
  {
    var stripped := StripDelegateSteps(plan);
    if NoDelegates(plan.steps) { assert stripped.steps == plan.steps; }
    if ValidPlan(plan) { StripKeepsValid(plan); }
  }

  lemma StripKeepsIds(plan: PlanDocument)
    ensures StepIds(StripDelegateSteps(plan).steps) == StepIds(plan.steps)
  {
    var a, b := plan.steps, StripDelegateSteps(plan).steps;
    forall id | id in StepIds(a) ensures id in StepIds(b) {
      var s :| s in a && s.stepId == id;
      var i :| 0 <= i < |a| && a[i] == s;
      assert b[i] in b && b[i].stepId == id;
    }
    forall id | id in StepIds(b) ensures id in StepIds(a) {
      var s :| s in b && s.stepId == id;
      var i :| 0 <= i < |b| && b[i] == s;
      assert a[i] in a && a[i].stepId == id;
    }
  }

  lemma StripKeepsValid(plan: PlanDocument)
    requires ValidPlan(plan)
    ensures ValidPlan(StripDelegateSteps(plan))
  {
    StripKeepsIds(plan);
    var stripped := StripDelegateSteps(plan);
    forall s | s in stripped.steps ensures ValidStep(s, StepIds(plan.steps)) {
      var i :| 0 <= i < |stripped.steps| && stripped.steps[i] == s;
      assert plan.steps[i] in plan.steps;
    }
  }

  // The planner never turns a step into a delegate step.
  ghost predicate KeepsKinds<W(!new)>(p: Providers<W>) {
    forall w, plan: PlanDocument, id, st ::
      NoDelegates(plan.steps) && p.recordStepResult(w, plan, id, st).1.Ok? ==>
        NoDelegates(p.recordStepResult(w, plan, id, st).1.value.steps)
  }

  lemma RecordKeepsKinds(steps: seq<PlanStep>, id: string, status: PlanStepStatus)
    requires NoDelegates(steps)
    ensures NoDelegates(Record(steps, id, status))
    ensures NoFailed(steps) && !status.Failed? ==> NoFailed(Record(steps, id, status))
  {
    MarkKeepsKinds(steps, id, status);
  }

  lemma {:induction false} MarkKeepsKinds(steps: seq<PlanStep>, id: string, status: PlanStepStatus)
    ensures NoDelegates(steps) ==> NoDelegates(MarkStep(steps, id, status))
    ensures NoFailed(steps) && !status.Failed? ==> NoFailed(MarkStep(steps, id, status))
  {
    if steps != [] {
      MarkKeepsKinds(steps[1..], id, status);
      assert steps == [steps[0]] + steps[1..];
    }
  }

  /** The deterministic planner keeps every step's kind. */
  lemma BookkeepingKeepsKinds<W(!new)>(p: Providers<W>)
    requires LlmBookkeeping(p)
    ensures KeepsKinds(p)
  {
    forall w, plan: PlanDocument, id, st | NoDelegates(plan.steps) && p.recordStepResult(w, plan, id, st).1.Ok?
      ensures NoDelegates(p.recordStepResult(w, plan, id, st).1.value.steps)
    {
      RecordKeepsKinds(plan.steps, id, st);
      assert p.recordStepResult(w, plan, id, st).1 == Ok(RecordStepResult(plan, id, st));
    }
  }

  // Nothing handed on, and nothing in the plan that could be.
  ghost predicate HandsNothingOn<W>(s: Loop<W>) {
    s.log.delegatorCalls == 0 && s.subtasks == []
  }

  ghost predicate DelegationFree<W>(f: Flow<W>) {
    && HandsNothingOn(f.s)
    && (f.Next? ==> NoDelegates(f.s.plan.steps))
    && (f.Done? ==> !f.status.Delegating?)
    && (f.Fault? ==> !f.error.DelegationFault?)
  }

  lemma {:induction false} ActionsDelegationFree<W(!new)>(p: Providers<W>, s: Loop<W>, actions: seq<PlannedAction>)
    requires ReviewNeverDelegates(p) && KeepsKinds(p) && HandsNothingOn(s) && NoDelegates(s.plan.steps)
    ensures DelegationFree(RunActions(p, s, actions))
    decreases |actions|
  {
    hide RunAction;
    if actions != [] && !HasStep(s.plan.steps, actions[0].stepId) {
      UnknownStepFaults(p, s, actions[0]);
    } else if actions != [] {
      RunActionActs(p, s, actions[0]);
      var f := RunAction(p, s, actions[0]);
      if f.Next? {
        var w :| p.recordStepResult(w, s.plan, actions[0].stepId, PlanStepStatus.Completed).1 == Ok(f.s.plan);
        ActionsDelegationFree(p, f.s, actions[1..]);
      }
    }
  }

  lemma NothingToDoDelegationFree<W(!new)>(p: Providers<W>, s: Loop<W>, ctx: Option<string>)
    requires HandsNothingOn(s) && NoDelegates(s.plan.steps)
    ensures DelegationFree(NothingToDo(p, s, ctx))
  {
  }

  lemma IterationDelegationFree<W(!new)>(p: Providers<W>, s: Loop<W>)
    requires ReviewNeverDelegates(p) && KeepsKinds(p) && HandsNothingOn(s) && NoDelegates(s.plan.steps)
    ensures DelegationFree(Iterate(p, s))
  {
    hide Consult, NothingToDo, RunActions;
    ConsultAsks(p, s);
    var (s1, r) := Consult(p, s);
    if r.Ok? {
      if r.value.1 == [] {
        NothingToDoDelegationFree(p, s1, r.value.0);
      } else {
        ActionsDelegationFree(p, s1, r.value.1);
      }
    }
  }

  lemma {:induction false} IterationsDelegationFree<W(!new)>(p: Providers<W>, s: Loop<W>, n: nat)
    requires ReviewNeverDelegates(p) && KeepsKinds(p) && HandsNothingOn(s) && NoDelegates(s.plan.steps)
    ensures DelegationFree(Iterations(p, s, n))
    decreases n
  {
    hide Iterate;
    if n > 0 {
      IterationDelegationFree(p, s);
      var f := Iterate(p, s);
      if f.Next? { IterationsDelegationFree(p, f.s, n - 1); }
    }
  }

  /** With no delegate step planned, no `Delegate` verdict and a planner that keeps
      kinds, no run turns to the delegator, hands a subtask on, or ends delegating. */
  lemma DelegationOffIsAirtight<W(!new)>(
    p: Providers<W>, env: TaskEnvelope, world: W, plan: PlanDocument, maxIterations: nat)
    requires ReviewNeverDelegates(p) && KeepsKinds(p) && NoDelegates(plan.steps)
    ensures DelegationFree(Run(p, env, world, plan, maxIterations))
  {
    var s := Fresh(Kernel(env, [], world), plan, maxIterations);
    if env.state.Created? {
      var (s1, r) := Operate(p, s, RuntimeOperation.Start);
      if r.Ok? { IterationsDelegationFree(p, s1, maxIterations); }
    } else {
      IterationsDelegationFree(p, s, maxIterations);
    }
  }

  // ----- With reflection off as well, a run completes or runs out of budget -----

  ghost predicate Unobstructed<W>(f: Flow<W>) {
    && HandsNothingOn(f.s)
    && (f.Next? ==> NoDelegates(f.s.plan.steps) && NoFailed(f.s.plan.steps))
    && (f.Done? ==> f.status.Completed? || f.status.BudgetExhausted?)
  }

  lemma {:induction false} ActionsUnobstructed<W(!new)>(p: Providers<W>, s: Loop<W>, actions: seq<PlannedAction>)
    requires Approves(p) && LlmBookkeeping(p)
    requires HandsNothingOn(s) && NoDelegates(s.plan.steps) && NoFailed(s.plan.steps)
    ensures Unobstructed(RunActions(p, s, actions))
    decreases |actions|
  {
    hide RunAction;
    if actions != [] && !HasStep(s.plan.steps, actions[0].stepId) {
      UnknownStepFaults(p, s, actions[0]);
    } else if actions != [] {
      RunActionActs(p, s, actions[0]);
      assert ReviewNeverDelegates(p);
      var f := RunAction(p, s, actions[0]);
      if f.Next? {
        var w :| p.recordStepResult(w, s.plan, actions[0].stepId, PlanStepStatus.Completed).1 == Ok(f.s.plan);
        RecordKeepsKinds(s.plan.steps, actions[0].stepId, PlanStepStatus.Completed);
        ActionsUnobstructed(p, f.s, actions[1..]);
      }
    }
  }

  lemma NothingToDoUnobstructed<W(!new)>(p: Providers<W>, s: Loop<W>, ctx: Option<string>)
    requires Approves(p) && LlmBookkeeping(p)
    requires HandsNothingOn(s) && NoDelegates(s.plan.steps) && NoFailed(s.plan.steps)
    ensures Unobstructed(NothingToDo(p, s, ctx))
  {
    var (w, state) := p.evaluateCompletion(s.kernel.world, s.plan);
    assert state == Ok(EvaluateCompletion(s.plan));
  }

  lemma IterationUnobstructed<W(!new)>(p: Providers<W>, s: Loop<W>)
    requires Approves(p) && LlmBookkeeping(p)
    requires HandsNothingOn(s) && NoDelegates(s.plan.steps) && NoFailed(s.plan.steps)
    ensures Unobstructed(Iterate(p, s))
  {
    hide Consult, NothingToDo, RunActions;
    ConsultAsks(p, s);
    var (s1, r) := Consult(p, s);
    if r.Ok? {
      if r.value.1 == [] {
        NothingToDoUnobstructed(p, s1, r.value.0);
      } else {
        ActionsUnobstructed(p, s1, r.value.1);
      }
    }
  }

  lemma {:induction false} IterationsUnobstructed<W(!new)>(p: Providers<W>, s: Loop<W>, n: nat)
    requires Approves(p) && LlmBookkeeping(p)
    requires HandsNothingOn(s) && NoDelegates(s.plan.steps) && NoFailed(s.plan.steps)
    ensures Unobstructed(Iterations(p, s, n))
    decreases n
  {
    hide Iterate;
    if n > 0 {
      IterationUnobstructed(p, s);
      var f := Iterate(p, s);
      if f.Next? { IterationsUnobstructed(p, f.s, n - 1); }
    }
  }

  /** With reflection off too, and no step failed to begin with, a run that does not
      fail on an error ends completed or out of budget. */
  lemma NoReflectionNoObstruction<W(!new)>(
    p: Providers<W>, env: TaskEnvelope, world: W, plan: PlanDocument, maxIterations: nat)
    requires Approves(p) && LlmBookkeeping(p) && NoDelegates(plan.steps) && NoFailed(plan.steps)
    ensures Unobstructed(Run(p, env, world, plan, maxIterations))
  {
    var s := Fresh(Kernel(env, [], world), plan, maxIterations);
    if env.state.Created? {
      var (s1, r) := Operate(p, s, RuntimeOperation.Start);
      if r.Ok? { IterationsUnobstructed(p, s1, maxIterations); }
    } else {
      IterationsUnobstructed(p, s, maxIterations);
    }
  }
}
