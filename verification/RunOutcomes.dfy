/** What the calls of a run mean for its outcome: every verdict is heeded, every step
    is executed with what the run has so far, and the status is what its last calls say. */
module RunOutcomes {
  import opened Wrappers
  import opened Text
  import opened CanonicalJson
  import opened Lifecycle
  import opened Planning
  import opened StepExecutor
  import opened Delegation
  import opened DeepLoop
  import opened RunTraces

  // ----- Read off the calls alone -----

  // The plan after these calls: as last recorded, and as last revised.
  ghost function PlanAfter<W>(plan: PlanDocument, h: seq<Moment<W>>): PlanDocument {
    if h == [] then plan
    else
      var (before, call) := (PlanAfter(plan, h[..|h| - 1]), h[|h| - 1].call);
      if call.AskRecord? && call.recorded.Ok? then call.recorded.value
      else if call.AskRevision? && call.revision.Ok? then before.(revision := call.revision.value)
      else before
  }

  ghost function RecordedIn<W>(h: seq<Moment<W>>): seq<string> {
    if h == [] then []
    else
      var (before, call) := (RecordedIn(h[..|h| - 1]), h[|h| - 1].call);
      if call.AskRecord? && call.recorded.Ok? then before + [call.stepId] else before
  }

  ghost function SubtasksIn<W>(h: seq<Moment<W>>): seq<SubtaskEnvelope> {
    if h == [] then []
    else
      var (before, call) := (SubtasksIn(h[..|h| - 1]), h[|h| - 1].call);
      if call.StartSubtask? && call.failure.None? then before + [call.subtask] else before
  }

  // What the executor has answered.
  ghost function BodiesIn<W>(h: seq<Moment<W>>): seq<Json> {
    if h == [] then []
    else
      var (before, call) := (BodiesIn(h[..|h| - 1]), h[|h| - 1].call);
      if call.Execute? && call.execution.Ok? then before + [call.execution.value.body] else before
  }

  ghost function ArtifactsIn<W>(h: seq<Moment<W>>): seq<string> {
    if h == [] then []
    else
      var (before, call) := (ArtifactsIn(h[..|h| - 1]), h[|h| - 1].call);
      if call.Create? && call.artifactId.Ok? then before + [call.artifactId.value] else before
  }

  // The tool calls charged: as reported, but never more than were granted.
  ghost function SpentIn<W>(h: seq<Moment<W>>): nat {
    if h == [] then 0
    else
      var (before, call) := (SpentIn(h[..|h| - 1]), h[|h| - 1].call);
      if call.Execute? && call.execution.Ok? then
        before + Least(call.execution.value.toolCallsUsed, call.task.maxToolCalls)
      else before
  }

  ghost function Least(a: nat, b: nat): nat {
    if a <= b then a else b
  }

  // What the executor was given, and what it made of it.
  ghost function ExecutionsIn<W>(
    h: seq<Moment<W>>): seq<(ExecuteStepRequest, Result<StepExecution, StepExecutionError>)>
  {
    if h == [] then []
    else
      var (before, call) := (ExecutionsIn(h[..|h| - 1]), h[|h| - 1].call);
      if call.Execute? then before + [(call.task, call.execution)] else before
  }

  // ----- A run and its trace -----

  /** A run that has ended, with the trace of its calls. */
  ghost predicate Ended<W>(x: Script<W>, f: Flow<W>) {
    !f.Next? && Traced(x, f.s) && Ends(x, Now(x, f.s), f)
  }

  /** What holds of the account between any two calls. */
  ghost predicate Settled<W>(x: Script<W>, a: Account, h: seq<Moment<W>>) {
    && a.last == (if h == [] then None else Some(h[|h| - 1].call))
    && a.plan == PlanAfter(x.plan, h) && a.recorded == RecordedIn(h) && a.subtasks == SubtasksIn(h)
    && a.outputs == BodiesIn(h) && a.artifactIds == ArtifactsIn(h)
    && a.budget.total == x.budget.total && a.budget.used == x.budget.used + SpentIn(h) <= a.budget.total
    && Phased(a)
  }

  // No action is left to do when an iteration or the run has just begun or is about to end;
  // only a step that is not to be handed on is carried out.
  ghost predicate Phased(a: Account) {
    if a.last.None? then a.todo == []
    else match a.last.value
      case AskActions(_, _, actions) => a.todo == if actions.Ok? then actions.value else []
      case AskCompletion(_, _) => a.todo == []
      case Mediate(operation, _) => operation.Start? ==> a.todo == []
      case TickRuntime(_) => CarriesOut(a)
      case Execute(_, _) => CarriesOut(a)
      case Create(_, _) => CarriesOut(a)
      case AskStepReview(_, _, _, _) => CarriesOut(a)
      case _ => true
  }

  ghost predicate CarriesOut(a: Account) {
    a.todo != [] && StepAtHand(a).Some? && !StepAtHand(a).value.kind.Delegate?
  }

  lemma EnterPhased<W>(x: Script<W>, a: Account, env: TaskEnvelope, call: Call)
    requires Phased(a) && Follows(x, a, env, call)
    ensures Phased(Enter(a, call))
  {
    hide Hands, FindStep;
  }

  lemma GrantFollows<W>(x: Script<W>, a: Account, env: TaskEnvelope, call: Call)
    requires Follows(x, a, env, call) && call.Execute?
    ensures call.task.maxToolCalls == a.budget.Grant()
  {
    hide Hands;
  }

  lemma EnterSettles<W>(x: Script<W>, a: Account, h: seq<Moment<W>>, m: Moment<W>)
    requires Settled(x, a, h) && x.budget.Sound() && Follows(x, a, m.before.env, m.call)
    ensures Settled(x, Enter(a, m.call), h + [m])
  {
    EnterPhased(x, a, m.before.env, m.call);
    EnterCharges(x, a, h, m);
    EnterReads(x, a, h, m);
    EnterAdds(a, h, m);
    hide Follows, Phased, Enter, SpentIn, PlanAfter, RecordedIn, SubtasksIn, BodiesIn, ArtifactsIn;
  }

  lemma EnterCharges<W>(x: Script<W>, a: Account, h: seq<Moment<W>>, m: Moment<W>)
    requires x.budget.Sound() && Follows(x, a, m.before.env, m.call)
    requires a.budget.total == x.budget.total && a.budget.used == x.budget.used + SpentIn(h) <= a.budget.total
    ensures var b := Enter(a, m.call).budget;
      b.total == x.budget.total && b.used == x.budget.used + SpentIn(h + [m]) <= b.total
  {
    if m.call.Execute? {
      GrantFollows(x, a, m.before.env, m.call);
      if m.call.execution.Ok? { ChargeWithinGrant(a.budget, m.call.execution.value.toolCallsUsed); }
    }
    hide Follows;
    assert (h + [m])[..|h|] == h;
  }

  lemma EnterReads<W>(x: Script<W>, a: Account, h: seq<Moment<W>>, m: Moment<W>)
    requires a.plan == PlanAfter(x.plan, h) && a.recorded == RecordedIn(h) && a.subtasks == SubtasksIn(h)
    ensures var (b, h') := (Enter(a, m.call), h + [m]);
      && b.last == Some(h'[|h'| - 1].call) && b.plan == PlanAfter(x.plan, h') && b.recorded == RecordedIn(h')
      && b.subtasks == SubtasksIn(h')
  {
    assert (h + [m])[..|h|] == h;
  }

  lemma EnterAdds<W>(a: Account, h: seq<Moment<W>>, m: Moment<W>)
    requires a.outputs == BodiesIn(h) && a.artifactIds == ArtifactsIn(h)
    ensures var (b, h') := (Enter(a, m.call), h + [m]); b.outputs == BodiesIn(h') && b.artifactIds == ArtifactsIn(h')
  {
    assert (h + [m])[..|h|] == h;
  }

  lemma {:induction false} TraceSettled<W>(x: Script<W>, h: seq<Moment<W>>, now: Kernel<W>)
    requires Trace(x, h, now) && x.budget.Sound()
    ensures Settled(x, AccountOf(x, h), h)
    decreases |h|
  {
    hide Answered, Follows, Settled, Enter;
    if h == [] {
      OpenedSettled(x);
    } else {
      var front, last := h[..|h| - 1], h[|h| - 1];
      TraceSettled(x, front, last.before);
      EnterSettles(x, AccountOf(x, front), front, last);
      assert front + [last] == h;
    }
  }

  lemma OpenedSettled<W>(x: Script<W>)
    requires x.budget.Sound()
    ensures Settled(x, Opened(x), [])
  {
  }

  lemma {:induction false} TraceAt<W>(x: Script<W>, h: seq<Moment<W>>, now: Kernel<W>, k: nat)
    requires Trace(x, h, now) && k < |h|
    ensures Trace(x, h[..k], h[k].before)
    ensures Answered(x.p, h[k]) && Follows(x, AccountOf(x, h[..k]), h[k].before.env, h[k].call)
    ensures h[k].after == if k + 1 < |h| then h[k + 1].before else now
    decreases |h|
  {
    hide Answered, Follows, AccountOf;
    if k + 1 < |h| {
      var front := h[..|h| - 1];
      TraceAt(x, front, h[|h| - 1].before, k);
      assert front[..k] == h[..k] && front[k] == h[k];
    }
  }

  /** The k-th call with what surrounds it. */
  lemma Unfolds<W>(x: Script<W>, f: Flow<W>, k: nat)
    requires Ended(x, f) && x.budget.Sound() && k < |f.s.log.calls|
    ensures var h := f.s.log.calls; var a := AccountOf(x, h[..k]);
      && Settled(x, a, h[..k]) && Answered(x.p, h[k]) && Follows(x, a, h[k].before.env, h[k].call)
      && AccountOf(x, h[..k + 1]) == Enter(a, h[k].call)
      && (k + 1 < |h| ==> Follows(x, Enter(a, h[k].call), h[k + 1].before.env, h[k + 1].call))
      && (k + 1 == |h| ==> Ends(x, Enter(a, h[k].call), f) && h[k].after == f.s.kernel)
  {
    hide Settled, Answered, Follows, Enter, Ends, Adds;
    var h := f.s.log.calls;
    TraceAt(x, h, f.s.kernel, k);
    TraceSettled(x, h[..k], h[k].before);
    assert h[..k + 1][..k] == h[..k];
    if k + 1 < |h| { TraceAt(x, h, f.s.kernel, k + 1); } else { assert h[..k + 1] == h; }
  }

  // ----- Every verdict is heeded -----

  /** The j-th call asks for step `id` to be recorded as completed, and it is, or the
      run fails as the planner does. */
  ghost predicate AsksToRecord<W>(plan: PlanDocument, f: Flow<W>, j: nat, id: string) {
    var h := f.s.log.calls;
    && j < |h| && h[j].call.AskRecord?
    && (h[j].call.plan, h[j].call.stepId, h[j].call.status) == (PlanAfter(plan, h[..j]), id, PlanStepStatus.Completed)
    && match h[j].call.recorded
       case Err(e) => |h| == j + 1 && f == Fault(f.s, PlanningFault(e))
       case Ok(_) => RecordedIn(h[..j + 1]) == RecordedIn(h[..j]) + [id]
  }

  /** The j-th call fails the task, and with it the run, unless the runtime refuses. */
  ghost predicate FailsRun<W>(f: Flow<W>, j: nat, reason: string) {
    var h := f.s.log.calls;
    && |h| == j + 1 && h[j].call.Mediate? && h[j].call.operation == RuntimeOperation.Fail(reason)
    && match h[j].call.event
       case Err(e) => f == Fault(f.s, RuntimeFault(e))
       case Ok(_) => f == Done(f.s, DeepLoopStatus.Failed) && f.s.kernel.env.state.Failed?
  }

  /** The j-th call asks for a revision of the plan, and the run ends with it. */
  ghost predicate RevisesRun<W>(plan: PlanDocument, f: Flow<W>, j: nat, reason: string, ctx: Option<string>) {
    var h := f.s.log.calls;
    && |h| == j + 1 && h[j].call.AskRevision?
    && (h[j].call.plan, h[j].call.reason, h[j].call.stepContext) == (PlanAfter(plan, h[..j]), reason, ctx)
    && match h[j].call.revision
       case Err(e) => f == Fault(f.s, PlanningFault(e))
       case Ok(n) => f == Done(f.s, Revising) && f.s.plan == PlanAfter(plan, h[..j]).(revision := n)
  }

  /** From the j-th call on the step is handed on: a delegate is chosen, a subtask started
      with it, and only then the step recorded. */
  ghost predicate HandsOn<W>(plan: PlanDocument, f: Flow<W>, j: nat, step: PlanStep) {
    var h := f.s.log.calls;
    && j < |h| && Chooses("review " + step.title, step, h[j].call)
    && match h[j].call.decision
       case Err(e) => |h| == j + 1 && f == Fault(f.s, DelegationFault(e))
       case Ok(decision) =>
         && j + 1 < |h| && h[j + 1].call.StartSubtask?
         && Hands(h[j + 1].before.env, step, decision, h[j + 1].call.subtask)
         && match h[j + 1].call.failure
            case Some(e) => |h| == j + 2 && f == Fault(f.s, DelegationFault(e))
            case None =>
              && SubtasksIn(h[..j + 2]) == SubtasksIn(h[..j]) + [h[j + 1].call.subtask]
              && AsksToRecord(plan, f, j + 2, step.stepId)
  }

  /** A review the run cannot use ends it. */
  ghost predicate Unusable<W>(review: Result<ReviewOutcome, string>, f: Flow<W>, k: nat) {
    && (review.Ok? ==> !review.value.valid)
    && |f.s.log.calls| == k + 1
    && f == Fault(f.s, ReflectionFault(if review.Err? then review.error else "invalid review"))
  }

  /** What the review of a step by the k-th call leads to. */
  ghost predicate StepReviewHeeded<W>(plan: PlanDocument, f: Flow<W>, k: nat)
    requires k < |f.s.log.calls| && f.s.log.calls[k].call.AskStepReview?
  {
    var (h, call) := (f.s.log.calls, f.s.log.calls[k].call);
    var step := FindStep(PlanAfter(plan, h[..k]).steps, call.stepId);
    if call.review.Err? || !call.review.value.valid then Unusable(call.review, f, k)
    else
      step.Some? && match call.review.value.verdict
      case Accept => AsksToRecord(plan, f, k + 1, call.stepId)
      case Retry => AsksToRecord(plan, f, k + 1, call.stepId)
      case Revise =>
        && RecordedIn(h) == RecordedIn(h[..k])
        && RevisesRun(plan, f, k + 1, "reflection requested revision for " + call.stepId, call.stepContext)
      case Delegate => HandsOn(plan, f, k + 1, step.value)
      case Fail =>
        RecordedIn(h) == RecordedIn(h[..k]) && FailsRun(f, k + 1, "reflection failed step " + call.stepId)
  }

  // The call completes the task, and with it the run, unless the runtime refuses.
  ghost predicate CompletesRun<W>(f: Flow<W>, j: nat) {
    var h := f.s.log.calls;
    && |h| == j + 1 && h[j].call.Mediate? && h[j].call.operation == Complete
    && match h[j].call.event
       case Err(e) => f == Fault(f.s, RuntimeFault(e))
       case Ok(_) => f == Done(f.s, DeepLoopStatus.Completed) && f.s.kernel.env.state.Completed?
  }

  /** What the final review by the k-th call leads to. */
  ghost predicate FinalReviewHeeded<W>(f: Flow<W>, k: nat)
    requires k < |f.s.log.calls| && f.s.log.calls[k].call.AskFinalReview?
  {
    var review := f.s.log.calls[k].call.review;
    if review.Err? || !review.value.valid then Unusable(review, f, k)
    else if review.value.verdict.Fail? then FailsRun(f, k + 1, "final review failed")
    else CompletesRun(f, k + 1)
  }

  // Between the calls the account reads as the calls do.
  lemma Reads<W>(x: Script<W>, f: Flow<W>, k: nat)
    requires Ended(x, f) && x.budget.Sound() && k <= |f.s.log.calls|
    ensures var h := f.s.log.calls; Settled(x, AccountOf(x, h[..k]), h[..k])
  {
    hide Settled, Answered, Follows, Enter, Ends, Adds;
    var h := f.s.log.calls;
    if k < |h| { Unfolds(x, f, k); } else { TraceSettled(x, h, f.s.kernel); assert h[..k] == h; }
  }

  lemma RecordErrEnds<W>(x: Script<W>, f: Flow<W>, j: nat)
    requires Ended(x, f) && x.budget.Sound() && j < |f.s.log.calls| && f.s.log.calls[j].call.AskRecord?
    requires f.s.log.calls[j].call.recorded.Err?
    ensures |f.s.log.calls| == j + 1 && f == Fault(f.s, PlanningFault(f.s.log.calls[j].call.recorded.error))
  {
    hide Answered, Traced, Settled;
    Unfolds(x, f, j);
  }

  lemma RecordingTells<W>(x: Script<W>, f: Flow<W>, j: nat, id: string)
    requires Ended(x, f) && x.budget.Sound() && j < |f.s.log.calls| && f.s.log.calls[j].call.AskRecord?
    requires var (h, call) := (f.s.log.calls, f.s.log.calls[j].call);
      (call.plan, call.stepId, call.status) == (AccountOf(x, h[..j]).plan, id, PlanStepStatus.Completed)
    ensures AsksToRecord(x.plan, f, j, id)
  {
    hide Ended;
    var h := f.s.log.calls;
    Reads(x, f, j);
    assert h[..j + 1][..j] == h[..j];
    if h[j].call.recorded.Err? { RecordErrEnds(x, f, j); }
  }

  // The rules, one kind of call at a time.

  lemma ReviewMade<W>(x: Script<W>, a: Account, env: TaskEnvelope, call: Call)
    requires Follows(x, a, env, call) && call.AskStepReview?
    ensures StepAtHand(a).Some? && StepAtHand(a).value.stepId == call.stepId && call.stepContext == a.stepContext
  {
    hide Hands;
  }

  lemma AfterReview<W>(x: Script<W>, a: Account, env: TaskEnvelope, call: Call)
    requires Follows(x, a, env, call) && a.last.Some?
    ensures a.last.value.AskStepReview? ==>
      StepAtHand(a).Some? && Heeds(a, StepAtHand(a).value, a.last.value.review, call)
    ensures a.last.value.AskFinalReview? ==> HeedsFinally(a.last.value.review, call)
  {
    hide Hands, Heeds, Stores, Chooses, Tasks;
  }

  lemma EndOnReview<W>(x: Script<W>, a: Account, f: Flow<W>)
    requires Ends(x, a, f) && a.last.Some?
    ensures a.last.value.AskStepReview? ==> EndsOnReview(a.last.value.review, f)
    ensures a.last.value.AskFinalReview? ==> EndsOnReview(a.last.value.review, f)
  {
  }

  // The call and the next follow by the rules, and the last one ends the run.
  lemma RuleAt<W>(x: Script<W>, f: Flow<W>, k: nat)
    requires Ended(x, f) && x.budget.Sound() && k < |f.s.log.calls|
    ensures var h := f.s.log.calls;
      && Follows(x, AccountOf(x, h[..k]), h[k].before.env, h[k].call)
      && AccountOf(x, h[..k + 1]) == Enter(AccountOf(x, h[..k]), h[k].call)
      && if k + 1 < |h| then Follows(x, AccountOf(x, h[..k + 1]), h[k + 1].before.env, h[k + 1].call)
         else Ends(x, AccountOf(x, h[..k + 1]), f)
  {
    hide Settled, Answered, Follows, Enter, Ends, Ended, AccountOf;
    Unfolds(x, f, k);
  }

  // The step a review is of.
  lemma ReviewOf<W>(x: Script<W>, f: Flow<W>, k: nat)
    requires Ended(x, f) && x.budget.Sound() && k < |f.s.log.calls| && f.s.log.calls[k].call.AskStepReview?
    ensures var (h, call) := (f.s.log.calls, f.s.log.calls[k].call); var a := AccountOf(x, h[..k + 1]);
      && StepAtHand(a).Some? && StepAtHand(a).value.stepId == call.stepId && a.stepContext == call.stepContext
      && a.last == Some(call) && a.plan == PlanAfter(x.plan, h[..k]) && RecordedIn(h[..k + 1]) == RecordedIn(h[..k])
  {
    var h := f.s.log.calls;
    RuleAt(x, f, k);
    Reads(x, f, k);
    hide Ended, Follows, Ends, AccountOf, Phased;
    ReviewMade(x, AccountOf(x, h[..k]), h[k].before.env, h[k].call);
    assert h[..k + 1][..k] == h[..k];
  }

  // What follows a review of a step, or ends the run there.
  lemma ReviewFollowed<W>(x: Script<W>, f: Flow<W>, k: nat)
    requires Ended(x, f) && x.budget.Sound() && k < |f.s.log.calls| && f.s.log.calls[k].call.AskStepReview?
    ensures var (h, call) := (f.s.log.calls, f.s.log.calls[k].call); var a := AccountOf(x, h[..k + 1]);
      if call.review.Err? || !call.review.value.valid then Unusable(call.review, f, k)
      else k + 1 < |h| && StepAtHand(a).Some? && Heeds(a, StepAtHand(a).value, call.review, h[k + 1].call)
  {
    var h := f.s.log.calls;
    hide Ended, Heeds, Follows, Ends, AccountOf, Phased, Enter;
    RuleAt(x, f, k);
    ReviewOf(x, f, k);
    var b := AccountOf(x, h[..k + 1]);
    if k + 1 < |h| {
      AfterReview(x, b, h[k + 1].before.env, h[k + 1].call);
      if h[k].call.review.Err? || !h[k].call.review.value.valid { UnusableStops(b, h[k].call.review, h[k + 1].call); }
    } else {
      EndOnReview(x, b, f);
    }
  }

  lemma UnusableStops(a: Account, review: Result<ReviewOutcome, string>, call: Call)
    requires StepAtHand(a).Some? && Heeds(a, StepAtHand(a).value, review, call)
    ensures review.Ok? && review.value.valid
  {
  }

  // A call to the runtime that fails or completes the task is the run's last.
  lemma MediationEnds<W>(x: Script<W>, f: Flow<W>, j: nat)
    requires Ended(x, f) && x.budget.Sound() && j < |f.s.log.calls| && f.s.log.calls[j].call.Mediate?
    requires f.s.log.calls[j].call.operation.Fail? || f.s.log.calls[j].call.operation == Complete
    ensures var op := f.s.log.calls[j].call.operation;
      if op.Fail? then FailsRun(f, j, op.reason) else CompletesRun(f, j)
  {
    hide Ended, Follows, Ends, AccountOf, Enter;
    var h := f.s.log.calls;
    RuleAt(x, f, j);
    Reads(x, f, j + 1);
    if j + 1 < |h| {
      MediationStops(x, AccountOf(x, h[..j + 1]), h[j + 1].before.env, h[j].call, h[j + 1].call);
    } else {
      Mediates(x, f, j);
      MediationCloses(x, AccountOf(x, h[..j + 1]), h[j].call, f);
    }
  }

  lemma MediationStops<W>(x: Script<W>, a: Account, env: TaskEnvelope, call: Call, next: Call)
    requires a.last == Some(call) && call.Mediate? && (call.operation.Fail? || call.operation == Complete)
    ensures !Follows(x, a, env, next)
  {
  }

  lemma MediationCloses<W>(x: Script<W>, a: Account, call: Call, f: Flow<W>)
    requires a.last == Some(call) && call.Mediate? && Ends(x, a, f)
    ensures call.event.Err? ==> f == Fault(f.s, RuntimeFault(call.event.error))
    ensures call.event.Ok? && call.operation.Fail? ==> f == Done(f.s, DeepLoopStatus.Failed)
    ensures call.event.Ok? && call.operation == Complete ==> f == Done(f.s, DeepLoopStatus.Completed)
  {
  }

  // The run's last mediated operation leaves the envelope in its target state.
  lemma Mediates<W>(x: Script<W>, f: Flow<W>, j: nat)
    requires Ended(x, f) && x.budget.Sound() && j + 1 == |f.s.log.calls| && f.s.log.calls[j].call.Mediate?
    ensures var m := f.s.log.calls[j];
      m.call.event.Ok? ==> f.s.kernel.env.state == TargetState(m.call.operation, m.before.env.state)
  {
    hide Settled, Follows, Ends, Ended;
    Unfolds(x, f, j);
  }

  lemma RevisionEnds<W>(x: Script<W>, f: Flow<W>, j: nat, reason: string, ctx: Option<string>)
    requires Ended(x, f) && x.budget.Sound() && j < |f.s.log.calls| && f.s.log.calls[j].call.AskRevision?
    requires var (h, call) := (f.s.log.calls, f.s.log.calls[j].call);
      (call.plan, call.reason, call.stepContext) == (AccountOf(x, h[..j]).plan, reason, ctx)
    ensures RevisesRun(x.plan, f, j, reason, ctx)
  {
    var h := f.s.log.calls;
    Reads(x, f, j);
    Reads(x, f, j + 1);
    RuleAt(x, f, j);
    hide AccountOf, PlanAfter, Phased;
    if j + 1 == |h| { assert h[..j + 1] == h; }
  }

  // What each verdict on a step leads to.

  lemma AcceptHeeded<W>(x: Script<W>, f: Flow<W>, k: nat)
    requires Ended(x, f) && x.budget.Sound() && k < |f.s.log.calls| && f.s.log.calls[k].call.AskStepReview?
    requires var review := f.s.log.calls[k].call.review;
      review == Ok(ReviewOutcome(Accept, true)) || review == Ok(ReviewOutcome(Retry, true))
    ensures AsksToRecord(x.plan, f, k + 1, f.s.log.calls[k].call.stepId)
  {
    hide Ended, AccountOf, PlanAfter, AsksToRecord, StepAtHand;
    ReviewOf(x, f, k);
    ReviewFollowed(x, f, k);
    RecordingTells(x, f, k + 1, f.s.log.calls[k].call.stepId);
  }

  lemma ReviseHeeded<W>(x: Script<W>, f: Flow<W>, k: nat)
    requires Ended(x, f) && x.budget.Sound() && k < |f.s.log.calls| && f.s.log.calls[k].call.AskStepReview?
    requires f.s.log.calls[k].call.review == Ok(ReviewOutcome(Revise, true))
    ensures var (h, call) := (f.s.log.calls, f.s.log.calls[k].call);
      && RevisesRun(x.plan, f, k + 1, "reflection requested revision for " + call.stepId, call.stepContext)
      && RecordedIn(h) == RecordedIn(h[..k])
  {
    hide Ended, AccountOf, PlanAfter, StepAtHand;
    var (h, call) := (f.s.log.calls, f.s.log.calls[k].call);
    ReviewOf(x, f, k);
    ReviewFollowed(x, f, k);
    RevisionEnds(x, f, k + 1, "reflection requested revision for " + call.stepId, call.stepContext);
    NothingRecorded(h, k);
  }

  lemma FailHeeded<W>(x: Script<W>, f: Flow<W>, k: nat)
    requires Ended(x, f) && x.budget.Sound() && k < |f.s.log.calls| && f.s.log.calls[k].call.AskStepReview?
    requires f.s.log.calls[k].call.review == Ok(ReviewOutcome(ReviewVerdict.Fail, true))
    ensures FailsRun(f, k + 1, "reflection failed step " + f.s.log.calls[k].call.stepId)
    ensures RecordedIn(f.s.log.calls) == RecordedIn(f.s.log.calls[..k])
  {
    hide Ended, AccountOf, PlanAfter, StepAtHand;
    ReviewOf(x, f, k);
    ReviewFollowed(x, f, k);
    MediationEnds(x, f, k + 1);
    NothingRecorded(f.s.log.calls, k);
  }

  lemma NothingRecorded<W>(h: seq<Moment<W>>, k: nat)
    requires |h| == k + 2 && !h[k].call.AskRecord? && !h[k + 1].call.AskRecord?
    ensures RecordedIn(h) == RecordedIn(h[..k])
  {
    assert h[..k + 1][..k] == h[..k];
  }

  // Choosing a delegate, and what follows it or ends the run there.
  lemma ChoiceFollowed<W>(x: Script<W>, f: Flow<W>, j: nat, step: PlanStep)
    requires Ended(x, f) && x.budget.Sound() && j < |f.s.log.calls| && f.s.log.calls[j].call.AskDelegate?
    requires StepAtHand(AccountOf(x, f.s.log.calls[..j])) == Some(step) && !step.kind.Delegate?
    ensures var (h, call) := (f.s.log.calls, f.s.log.calls[j].call); var a := AccountOf(x, h[..j + 1]);
      match call.decision
      case Err(e) => |h| == j + 1 && f == Fault(f.s, DelegationFault(e))
      case Ok(decision) =>
        && j + 1 < |h| && StepAtHand(a) == Some(step) && h[j + 1].call.StartSubtask?
        && Hands(h[j + 1].before.env, step, decision, h[j + 1].call.subtask)
  {
    hide Ended, Follows, Ends, AccountOf;
    var h := f.s.log.calls;
    RuleAt(x, f, j);
    var a := AccountOf(x, h[..j + 1]);
    ChosenStaysAtHand(AccountOf(x, h[..j]), h[j].call);
    hide Enter;
    if j + 1 < |h| {
      ChosenIsStarted(x, a, h[j + 1].before.env, step, h[j + 1].call);
    } else {
      ChoiceCloses(x, a, f);
    }
  }

  lemma ChosenStaysAtHand(a: Account, call: Call)
    requires call.AskDelegate?
    ensures var b := Enter(a, call);
      && StepAtHand(b) == StepAtHand(a) && b.last == Some(call)
      && b.decision == if call.decision.Ok? then Some(call.decision.value) else None
  {
  }

  lemma ChosenIsStarted<W>(x: Script<W>, a: Account, env: TaskEnvelope, step: PlanStep, next: Call)
    requires Follows(x, a, env, next) && a.last.Some? && a.last.value.AskDelegate?
    requires StepAtHand(a) == Some(step) && !step.kind.Delegate?
    ensures a.last.value.decision.Ok? && Starts(a, env, step, next)
  {
    hide Starts;
  }

  lemma ChoiceCloses<W>(x: Script<W>, a: Account, f: Flow<W>)
    requires Ends(x, a, f) && a.last.Some? && a.last.value.AskDelegate?
    ensures a.last.value.decision.Err? && f == Fault(f.s, DelegationFault(a.last.value.decision.error))
  {
  }

  // Starting a subtask, and what follows it or ends the run there.
  lemma StartFollowed<W>(x: Script<W>, f: Flow<W>, j: nat, step: PlanStep)
    requires Ended(x, f) && x.budget.Sound() && j < |f.s.log.calls| && f.s.log.calls[j].call.StartSubtask?
    requires StepAtHand(AccountOf(x, f.s.log.calls[..j])) == Some(step)
    ensures var (h, call) := (f.s.log.calls, f.s.log.calls[j].call);
      match call.failure
      case Some(e) => |h| == j + 1 && f == Fault(f.s, DelegationFault(e))
      case None => AsksToRecord(x.plan, f, j + 1, step.stepId)
  {
    hide Ended, Follows, Ends, AccountOf, AsksToRecord;
    var h := f.s.log.calls;
    RuleAt(x, f, j);
    var a := AccountOf(x, h[..j + 1]);
    StartedStaysAtHand(AccountOf(x, h[..j]), h[j].call);
    hide Enter;
    if j + 1 < |h| {
      StartedIsRecorded(x, a, h[j + 1].before.env, step, h[j + 1].call);
      RecordingTells(x, f, j + 1, step.stepId);
    } else {
      StartCloses(x, a, f);
    }
  }

  lemma StartedStaysAtHand(a: Account, call: Call)
    requires call.StartSubtask?
    ensures var b := Enter(a, call); StepAtHand(b) == StepAtHand(a) && b.last == Some(call)
  {
  }

  lemma StartedIsRecorded<W>(x: Script<W>, a: Account, env: TaskEnvelope, step: PlanStep, next: Call)
    requires Follows(x, a, env, next) && a.last.Some? && a.last.value.StartSubtask? && StepAtHand(a) == Some(step)
    ensures a.last.value.failure.None? && Records(a, step, next)
  {
    hide Records;
  }

  lemma StartCloses<W>(x: Script<W>, a: Account, f: Flow<W>)
    requires Ends(x, a, f) && a.last.Some? && a.last.value.StartSubtask?
    ensures a.last.value.failure.Some? && f == Fault(f.s, DelegationFault(a.last.value.failure.value))
  {
  }

  lemma DelegateHeeded<W>(x: Script<W>, f: Flow<W>, k: nat)
    requires Ended(x, f) && x.budget.Sound() && k < |f.s.log.calls| && f.s.log.calls[k].call.AskStepReview?
    requires f.s.log.calls[k].call.review == Ok(ReviewOutcome(ReviewVerdict.Delegate, true))
    ensures var (h, call) := (f.s.log.calls, f.s.log.calls[k].call);
      var step := FindStep(PlanAfter(x.plan, h[..k]).steps, call.stepId);
      step.Some? && HandsOn(x.plan, f, k + 1, step.value)
  {
    hide Ended, AccountOf, PlanAfter, StepAtHand, FindStep, AsksToRecord, Hands, SubtasksIn, Chooses;
    var h := f.s.log.calls;
    var step := DelegateChosen(x, f, k);
    ChoiceFollowed(x, f, k + 1, step);
    if h[k + 1].call.decision.Ok? {
      StartFollowed(x, f, k + 2, step);
      OneMoreSubtask(h, k + 1);
    }
  }

  lemma DelegateChosen<W>(x: Script<W>, f: Flow<W>, k: nat) returns (step: PlanStep)
    requires Ended(x, f) && x.budget.Sound() && k < |f.s.log.calls| && f.s.log.calls[k].call.AskStepReview?
    requires f.s.log.calls[k].call.review == Ok(ReviewOutcome(ReviewVerdict.Delegate, true))
    ensures var (h, call) := (f.s.log.calls, f.s.log.calls[k].call);
      && FindStep(PlanAfter(x.plan, h[..k]).steps, call.stepId) == Some(step) && step.stepId == call.stepId
      && StepAtHand(AccountOf(x, h[..k + 1])) == Some(step) && !step.kind.Delegate?
      && k + 1 < |h| && h[k + 1].call.AskDelegate? && Chooses("review " + step.title, step, h[k + 1].call)
  {
    hide Ended, AccountOf, PlanAfter;
    ReviewOf(x, f, k);
    ReviewFollowed(x, f, k);
    Reads(x, f, k + 1);
    step := StepAtHand(AccountOf(x, f.s.log.calls[..k + 1])).value;
  }

  lemma OneMoreSubtask<W>(h: seq<Moment<W>>, j: nat)
    requires j + 1 < |h| && h[j].call.AskDelegate? && h[j + 1].call.StartSubtask?
    ensures h[j + 1].call.failure.None? ==> SubtasksIn(h[..j + 2]) == SubtasksIn(h[..j]) + [h[j + 1].call.subtask]
  {
    assert h[..j + 2][..j + 1] == h[..j + 1] && h[..j + 1][..j] == h[..j];
  }

  lemma StepReviewIsHeeded<W>(x: Script<W>, f: Flow<W>, k: nat)
    requires Ended(x, f) && x.budget.Sound() && k < |f.s.log.calls| && f.s.log.calls[k].call.AskStepReview?
    ensures StepReviewHeeded(x.plan, f, k)
  {
    var (h, call) := (f.s.log.calls, f.s.log.calls[k].call);
    ReviewOf(x, f, k);
    assert FindStep(PlanAfter(x.plan, h[..k]).steps, call.stepId).Some?;
    hide StepAtHand, FindStep;
    hide Ended, AccountOf, PlanAfter, AsksToRecord, HandsOn, FailsRun, RevisesRun, RecordedIn, Heeds;
    if call.review.Err? || !call.review.value.valid {
      ReviewFollowed(x, f, k);
    } else {
      match call.review.value.verdict
      case Accept => AcceptHeeded(x, f, k);
      case Retry => AcceptHeeded(x, f, k);
      case Revise => ReviseHeeded(x, f, k);
      case Delegate => DelegateHeeded(x, f, k);
      case Fail => FailHeeded(x, f, k);
    }
  }

  lemma FinalReviewIsHeeded<W>(x: Script<W>, f: Flow<W>, k: nat)
    requires Ended(x, f) && x.budget.Sound() && k < |f.s.log.calls| && f.s.log.calls[k].call.AskFinalReview?
    ensures FinalReviewHeeded(f, k)
  {
    hide Ended, Follows, Ends, AccountOf, FailsRun, CompletesRun;
    var h := f.s.log.calls;
    RuleAt(x, f, k);
    var a := AccountOf(x, h[..k + 1]);
    if k + 1 < |h| {
      AfterReview(x, a, h[k + 1].before.env, h[k + 1].call);
      MediationEnds(x, f, k + 1);
    } else {
      EndOnReview(x, a, f);
    }
  }

  // The state a run leaves is what its calls say.
  ghost predicate LeftAsCalled<W>(plan: PlanDocument, s: Loop<W>) {
    var h := s.log.calls;
    && s.plan == PlanAfter(plan, h) && s.log.recorded == RecordedIn(h) && s.subtasks == SubtasksIn(h)
    && s.artifactIds == ArtifactsIn(h) && s.outputs == BodiesIn(h) && s.budget.used == SpentIn(h)
  }

  lemma RunEnded<W>(p: Providers<W>, env: TaskEnvelope, world: W, plan: PlanDocument, maxIterations: nat)
    ensures var (f, x) := (Run(p, env, world, plan, maxIterations), ScriptOf(p, env, world, plan, maxIterations));
      Ended(x, f) && x.budget.Sound() && LeftAsCalled(plan, f.s)
  {
    hide Run, Ends, Trace, AccountOf;
    var (f, x) := (Run(p, env, world, plan, maxIterations), ScriptOf(p, env, world, plan, maxIterations));
    EveryRunTraced(p, env, world, plan, maxIterations);
    FreshBudget(maxIterations);
    TraceSettled(x, f.s.log.calls, f.s.kernel);
  }

  /** Whatever its providers answer, a run heeds every review. One it cannot use ends it.
      A step is recorded exactly if its review accepts it or asks for a retry, or delegates
      it and somebody takes it; a step to be revised or failed is not recorded, and the run
      ends revising or failed, unless the planner or the runtime refuses. */
  lemma ReviewsHeeded<W>(p: Providers<W>, env: TaskEnvelope, world: W, plan: PlanDocument, maxIterations: nat)
    ensures var f := Run(p, env, world, plan, maxIterations);
      var h := f.s.log.calls;
      && LeftAsCalled(plan, f.s)
      && (forall k :: 0 <= k < |h| && h[k].call.AskStepReview? ==> StepReviewHeeded(plan, f, k))
      && (forall k :: 0 <= k < |h| && h[k].call.AskFinalReview? ==> FinalReviewHeeded(f, k))
  {
    hide Run, Ended, LeftAsCalled, StepReviewHeeded, FinalReviewHeeded;
    var (f, x) := (Run(p, env, world, plan, maxIterations), ScriptOf(p, env, world, plan, maxIterations));
    var h := f.s.log.calls;
    RunEnded(p, env, world, plan, maxIterations);
    forall k | 0 <= k < |h| && h[k].call.AskStepReview? ensures StepReviewHeeded(plan, f, k) {
      StepReviewIsHeeded(x, f, k);
    }
    forall k | 0 <= k < |h| && h[k].call.AskFinalReview? ensures FinalReviewHeeded(f, k) {
      FinalReviewIsHeeded(x, f, k);
    }
  }

  /** Only the last review can be unusable, revise or fail: every step review before
      another accepts, asks for a retry or delegates. */
  lemma EarlierReviewsGoOn<W>(
    p: Providers<W>, env: TaskEnvelope, world: W, plan: PlanDocument, maxIterations: nat, j: nat, k: nat)
    requires var h := Run(p, env, world, plan, maxIterations).s.log.calls;
      j < k < |h| && h[j].call.AskStepReview? && (h[k].call.AskStepReview? || h[k].call.AskFinalReview?)
    ensures var review := Run(p, env, world, plan, maxIterations).s.log.calls[j].call.review;
      review.Ok? && review.value.valid &&
      (review.value.verdict.Accept? || review.value.verdict.Retry? || review.value.verdict.Delegate?)
  {
    hide Run, LeftAsCalled, PlanAfter, FindStep, RecordedIn, HandsOn, AsksToRecord;
    ReviewsHeeded(p, env, world, plan, maxIterations);
    var f := Run(p, env, world, plan, maxIterations);
    assert StepReviewHeeded(plan, f, j);
  }

  // ----- Every step is carried out with what the run has so far -----

  /** What the executor is given by the k-th call: the goal, the step as the plan has it,
      the context just retrieved for it, every output so far in order, and as many tool
      calls as the cap and the budget allow. What it answers in the memory it finds is
      stored next, or ends the run. */
  ghost predicate ExecutedAsShown<W>(x: Script<W>, f: Flow<W>, k: nat)
    requires k < |f.s.log.calls| && f.s.log.calls[k].call.Execute?
  {
    var (h, task, execution) := (f.s.log.calls, f.s.log.calls[k].call.task, f.s.log.calls[k].call.execution);
    var plan := PlanAfter(x.plan, h[..k]);
    && x.p.executor.Some? && x.p.executor.value(h[k].before.world, task) == (h[k].after.world, execution)
    && k >= 2 && h[k - 1].call.TickRuntime? && h[k - 1].call.events.Ok?
    && h[k - 2].call == AskContext(task.step.title, task.step.stepId, Ok(task.context))
    && task.goal == plan.goal && FindStep(plan.steps, task.step.stepId) == Some(task.step)
    && task.priorOutputs == BodiesIn(h[..k])
    && x.budget.total >= x.budget.used + SpentIn(h[..k])
    && task.maxToolCalls == Least(6, x.budget.total - x.budget.used - SpentIn(h[..k]))
    && match execution
       case Err(e) => |h| == k + 1 && f == Fault(f.s, ExecutionFault(e))
       case Ok(done) =>
         && k + 1 < |h| && h[k + 1].call.Create? && h[k + 1].call.request.body == x.p.render(done.body)
         && h[k + 1].call.request.title == "Output for " + task.step.title
  }

  lemma ExecuteMade<W>(x: Script<W>, a: Account, env: TaskEnvelope, call: Call)
    requires Follows(x, a, env, call) && call.Execute?
    ensures StepAtHand(a).Some? && Tasks(a, StepAtHand(a).value, call)
    ensures a.last.Some? && a.last.value.TickRuntime? && a.last.value.events.Ok?
  {
    hide Hands;
  }

  lemma TickMade<W>(x: Script<W>, a: Account, env: TaskEnvelope, call: Call)
    requires Follows(x, a, env, call) && call.TickRuntime?
    ensures a.todo != [] && a.last.Some? && a.last.value.AskContext? && a.last.value.context.Ok?
  {
    hide Hands;
  }

  lemma ContextMade<W>(x: Script<W>, a: Account, env: TaskEnvelope, call: Call)
    requires Follows(x, a, env, call) && call.AskContext? && Phased(a) && a.todo != []
    ensures Begins(a, call)
  {
    hide Hands;
  }

  lemma TickKeepsAccount(a: Account, call: Call)
    requires call.TickRuntime?
    ensures Enter(a, call) == a.(last := Some(call))
  {
  }

  lemma ContextNoted(a: Account, call: Call)
    requires call.AskContext? && call.context.Ok? && a.todo != []
    ensures Enter(a, call) == a.(last := Some(call), stepContext := call.context.value)
  {
  }

  // The step carried out by the k-th call, and the two calls before it.
  lemma ExecutionPrepared<W>(x: Script<W>, f: Flow<W>, k: nat)
    requires Ended(x, f) && x.budget.Sound() && k < |f.s.log.calls| && f.s.log.calls[k].call.Execute?
    ensures var (h, task) := (f.s.log.calls, f.s.log.calls[k].call.task); var a := AccountOf(x, h[..k]);
      && k >= 2 && h[k - 1].call.TickRuntime? && h[k - 1].call.events.Ok?
      && h[k - 2].call == AskContext(task.step.title, task.step.stepId, Ok(task.context))
      && StepAtHand(a).Some? && Tasks(a, StepAtHand(a).value, f.s.log.calls[k].call)
  {
    hide Ended, Follows, Ends, AccountOf, Enter, PlanAfter, BodiesIn, SpentIn, RecordedIn, SubtasksIn, ArtifactsIn;
    var h := f.s.log.calls;
    RuleAt(x, f, k);
    Reads(x, f, k);
    ExecuteMade(x, AccountOf(x, h[..k]), h[k].before.env, h[k].call);
    RuleAt(x, f, k - 1);
    var a1 := AccountOf(x, h[..k - 1]);
    TickKeepsAccount(a1, h[k - 1].call);
    Reads(x, f, k - 1);
    TickMade(x, a1, h[k - 1].before.env, h[k - 1].call);
    TickPrepared(x, f, k - 1);
  }

  // The context for the step was retrieved just before the runtime's tick.
  lemma TickPrepared<W>(x: Script<W>, f: Flow<W>, k: nat)
    requires Ended(x, f) && x.budget.Sound() && k < |f.s.log.calls| && f.s.log.calls[k].call.TickRuntime?
    ensures var h := f.s.log.calls; var a := AccountOf(x, h[..k]);
      && k >= 1 && StepAtHand(a).Some?
      && h[k - 1].call == AskContext(StepAtHand(a).value.title, StepAtHand(a).value.stepId, Ok(a.stepContext))
  {
    hide Ended, Follows, Ends, AccountOf, Enter, PlanAfter, BodiesIn, SpentIn, RecordedIn, SubtasksIn, ArtifactsIn;
    var h := f.s.log.calls;
    RuleAt(x, f, k);
    Reads(x, f, k);
    TickMade(x, AccountOf(x, h[..k]), h[k].before.env, h[k].call);
    RuleAt(x, f, k - 1);
    Reads(x, f, k - 1);
    var a0 := AccountOf(x, h[..k - 1]);
    ContextKeepsTodo(a0, h[k - 1].call);
    ContextNoted(a0, h[k - 1].call);
    ContextMade(x, a0, h[k - 1].before.env, h[k - 1].call);
  }

  lemma ContextKeepsTodo(a: Account, call: Call)
    requires call.AskContext?
    ensures Enter(a, call).todo == a.todo
  {
  }

  lemma ExecutionIsShown<W>(x: Script<W>, f: Flow<W>, k: nat)
    requires Ended(x, f) && x.budget.Sound() && k < |f.s.log.calls| && f.s.log.calls[k].call.Execute?
    ensures ExecutedAsShown(x, f, k)
  {
    hide Ended, Follows, Ends, AccountOf, Enter, PlanAfter, BodiesIn, SpentIn, RecordedIn, SubtasksIn, ArtifactsIn,
        Phased;
    ExecutionPrepared(x, f, k);
    Reads(x, f, k);
    ExecutorAnswers(x, f, k);
    ExecutionFollowed(x, f, k);
  }

  lemma ExecutorAnswers<W>(x: Script<W>, f: Flow<W>, k: nat)
    requires Ended(x, f) && x.budget.Sound() && k < |f.s.log.calls| && f.s.log.calls[k].call.Execute?
    ensures var m := f.s.log.calls[k];
      x.p.executor.Some? && x.p.executor.value(m.before.world, m.call.task) == (m.after.world, m.call.execution)
  {
    hide Follows, Ended, Settled, Ends, Enter, AccountOf;
    Unfolds(x, f, k);
  }

  lemma ExecutionFollowed<W>(x: Script<W>, f: Flow<W>, k: nat)
    requires Ended(x, f) && x.budget.Sound() && k < |f.s.log.calls| && f.s.log.calls[k].call.Execute?
    requires var a := AccountOf(x, f.s.log.calls[..k]); StepAtHand(a) == Some(f.s.log.calls[k].call.task.step)
    ensures var (h, call) := (f.s.log.calls, f.s.log.calls[k].call);
       match call.execution
       case Err(e) => |h| == k + 1 && f == Fault(f.s, ExecutionFault(e))
       case Ok(done) =>
         && k + 1 < |h| && h[k + 1].call.Create? && h[k + 1].call.request.body == x.p.render(done.body)
         && h[k + 1].call.request.title == "Output for " + call.task.step.title
  {
    hide Ended, Follows, Ends, AccountOf;
    var h := f.s.log.calls;
    RuleAt(x, f, k);
    var a := AccountOf(x, h[..k + 1]);
    assert StepAtHand(a) == Some(h[k].call.task.step) && a.last == Some(h[k].call);
    hide Enter;
    if k + 1 < |h| {
      ExecutedIsStored(x, a, h[k + 1].before.env, h[k + 1].call);
    } else {
      ExecutionCloses(x, a, f);
    }
  }

  lemma ExecutedIsStored<W>(x: Script<W>, a: Account, env: TaskEnvelope, next: Call)
    requires Follows(x, a, env, next) && a.last.Some? && a.last.value.Execute?
    ensures StepAtHand(a).Some? && a.last.value.execution.Ok?
    ensures Stores(a, env, StepAtHand(a).value, x.p.render(a.last.value.execution.value.body), next)
  {
    hide Stores;
  }

  lemma ExecutionCloses<W>(x: Script<W>, a: Account, f: Flow<W>)
    requires Ends(x, a, f) && a.last.Some? && a.last.value.Execute?
    ensures a.last.value.execution.Err? && f == Fault(f.s, ExecutionFault(a.last.value.execution.error))
  {
  }

  /** Whatever its providers answer, every execution of a run is given the goal and the
      step of the plan, the context just retrieved for the step, every output of the run
      so far, and what the cap and the budget leave; its answer is the executor's own, and
      is what is stored next. */
  lemma ExecutionsAsShown<W>(p: Providers<W>, env: TaskEnvelope, world: W, plan: PlanDocument, maxIterations: nat)
    ensures var (f, x) := (Run(p, env, world, plan, maxIterations), ScriptOf(p, env, world, plan, maxIterations));
      var h := f.s.log.calls;
      && LeftAsCalled(plan, f.s)
      && x.budget == ToolBudget(Least(3 * maxIterations, USIZE_MAX), 0)
      && (forall k :: 0 <= k < |h| && h[k].call.Execute? ==> ExecutedAsShown(x, f, k))
  {
    hide Run, Ended, LeftAsCalled, ExecutedAsShown;
    var (f, x) := (Run(p, env, world, plan, maxIterations), ScriptOf(p, env, world, plan, maxIterations));
    var h := f.s.log.calls;
    RunEnded(p, env, world, plan, maxIterations);
    FreshBudget(maxIterations);
    forall k | 0 <= k < |h| && h[k].call.Execute? ensures ExecutedAsShown(x, f, k) { ExecutionIsShown(x, f, k); }
  }

  // ----- Every status has its cause -----

  // The call that leads to the last one.
  ghost function Cause<W>(f: Flow<W>): Call
    requires |f.s.log.calls| >= 2
  {
    f.s.log.calls[|f.s.log.calls| - 2].call
  }

  ghost predicate Judged(call: Call, verdict: ReviewVerdict) {
    call.AskStepReview? && call.review == Ok(ReviewOutcome(verdict, true))
  }

  /** Why a run may return a status, given its last calls. */
  ghost predicate EndsForCause<W>(plan: PlanDocument, f: Flow<W>) {
    var h := f.s.log.calls;
    f.Done? ==> match f.status
    case Completed =>
      && |h| >= 2 && CompletesRun(f, |h| - 1)
      && Cause(f).AskFinalReview? && Cause(f).review.Ok? && Cause(f).review.value.valid
      && !Cause(f).review.value.verdict.Fail?
    case Failed =>
      && |h| >= 2
      && (|| (Judged(Cause(f), ReviewVerdict.Fail) && FailsRun(f, |h| - 1, "reflection failed step " + Cause(f).stepId))
          || (Cause(f).AskFinalReview? && Cause(f).review == Ok(ReviewOutcome(ReviewVerdict.Fail, true)) &&
              FailsRun(f, |h| - 1, "final review failed"))
          || (Cause(f).AskCompletion? && Cause(f).plan == f.s.plan && Cause(f).completion == Ok(Unsatisfied) &&
              FailsRun(f, |h| - 1, "completion check unsatisfied")))
    case Revising =>
      && |h| >= 2 && Judged(Cause(f), Revise)
      && RevisesRun(plan, f, |h| - 1, "reflection requested revision for " + Cause(f).stepId, Cause(f).stepContext)
    case Delegating =>
      h != [] && h[|h| - 1].call.AskActions? && h[|h| - 1].call.actions == Ok([]) && SubtasksIn(h) != []
    case BudgetExhausted =>
      h == [] || (match h[|h| - 1].call
        case Mediate(operation, event) => |h| == 1 && operation == Start && event.Ok?
        case AskCompletion(_, completion) => completion == Ok(Incomplete)
        case AskRecord(_, _, _, recorded) => recorded.Ok?
        case _ => false)
    case _ => false
  }

  // What fails, completes or revises a run, by the rules.
  lemma FailingMade<W>(x: Script<W>, a: Account, env: TaskEnvelope, call: Call, reason: string)
    requires Follows(x, a, env, call) && Fails(reason, call)
    ensures a.last.Some?
    ensures match a.last.value
      case AskStepReview(stepId, _, _, review) =>
        review == Ok(ReviewOutcome(ReviewVerdict.Fail, true)) && StepAtHand(a).Some? &&
        reason == "reflection failed step " + StepAtHand(a).value.stepId
      case AskFinalReview(_, _, _, review) =>
        review == Ok(ReviewOutcome(ReviewVerdict.Fail, true)) && reason == "final review failed"
      case AskCompletion(_, completion) => completion == Ok(Unsatisfied) && reason == "completion check unsatisfied"
      case _ => false
  {
    hide Hands;
  }

  lemma CompletingMade<W>(x: Script<W>, a: Account, env: TaskEnvelope, call: Call)
    requires Follows(x, a, env, call) && call.Mediate? && call.operation == Complete
    ensures a.last.Some? && a.last.value.AskFinalReview? && a.last.value.review.Ok? && a.last.value.review.value.valid
    ensures !a.last.value.review.value.verdict.Fail?
  {
    hide Hands;
  }

  lemma StartingMade<W>(x: Script<W>, a: Account, env: TaskEnvelope, call: Call)
    requires Follows(x, a, env, call) && call.Mediate? && call.operation == Start
    ensures a.last.None?
  {
    hide Hands;
  }

  lemma RevisionMade<W>(x: Script<W>, a: Account, env: TaskEnvelope, call: Call)
    requires Follows(x, a, env, call) && call.AskRevision?
    ensures a.last.Some? && Judged(a.last.value, Revise)
  {
    hide Hands;
  }

  lemma CompletionMade<W>(x: Script<W>, a: Account, env: TaskEnvelope, call: Call)
    requires Follows(x, a, env, call) && call.AskCompletion?
    ensures call.plan == a.plan
  {
    hide Hands;
  }

  // What the last call of a run that returns may be.
  lemma LastCall<W>(x: Script<W>, a: Account, f: Flow<W>)
    requires Ends(x, a, f) && f.Done?
    ensures match f.status
      case Completed =>
        a.last.Some? && a.last.value.Mediate? && a.last.value.operation == Complete && a.last.value.event.Ok?
      case Failed => a.last.Some? && a.last.value.Mediate? && a.last.value.operation.Fail? && a.last.value.event.Ok?
      case Revising => a.last.Some? && a.last.value.AskRevision? && a.last.value.revision.Ok?
      case Delegating => a.last.Some? && a.last.value.AskActions? && a.last.value.actions == Ok([]) && a.subtasks != []
      case BudgetExhausted => a.last.None? || (match a.last.value
        case Mediate(operation, event) => operation == Start && event.Ok?
        case AskCompletion(_, completion) => completion == Ok(Incomplete)
        case AskRecord(_, _, _, recorded) => recorded.Ok?
        case _ => false)
      case _ => false
  {
  }

  // The run's last call, and the account it leaves.
  lemma AtTheEnd<W>(x: Script<W>, f: Flow<W>)
    requires Ended(x, f) && x.budget.Sound()
    ensures var h := f.s.log.calls; var a := AccountOf(x, h);
      && Ends(x, a, f) && f.s.plan == a.plan == PlanAfter(x.plan, h) && a.subtasks == SubtasksIn(h)
      && a.last == if h == [] then None else Some(h[|h| - 1].call)
  {
    var h := f.s.log.calls;
    hide Ends, AccountOf, PlanAfter, SubtasksIn, RecordedIn, ArtifactsIn, BodiesIn, SpentIn, Trace;
    Reads(x, f, |h|);
    assert h[..|h|] == h;
  }

  // What the last call but one was.
  lemma BeforeTheLast<W>(x: Script<W>, f: Flow<W>)
    requires Ended(x, f) && x.budget.Sound() && f.s.log.calls != []
    ensures var (h, j) := (f.s.log.calls, |f.s.log.calls| - 1);
      && Follows(x, AccountOf(x, h[..j]), h[j].before.env, h[j].call)
      && AccountOf(x, h[..j]).last == if j == 0 then None else Some(h[j - 1].call)
  {
    var h := f.s.log.calls;
    hide Ended, Follows, Ends, Enter, AccountOf, PlanAfter, SubtasksIn, RecordedIn, ArtifactsIn, BodiesIn, SpentIn;
    RuleAt(x, f, |h| - 1);
    Reads(x, f, |h| - 1);
  }

  lemma CompletedForCause<W>(x: Script<W>, f: Flow<W>)
    requires Ended(x, f) && x.budget.Sound() && f.Done? && f.status.Completed?
    ensures EndsForCause(x.plan, f)
  {
    hide Ended, Follows, Ends, AccountOf;
    var h := f.s.log.calls;
    AtTheEnd(x, f);
    LastCall(x, AccountOf(x, h), f);
    BeforeTheLast(x, f);
    MediationEnds(x, f, |h| - 1);
    CompletingMade(x, AccountOf(x, h[..|h| - 1]), h[|h| - 1].before.env, h[|h| - 1].call);
  }

  lemma FailedForCause<W>(x: Script<W>, f: Flow<W>)
    requires Ended(x, f) && x.budget.Sound() && f.Done? && f.status.Failed?
    ensures EndsForCause(x.plan, f)
  {
    hide Ended, Follows, Ends, AccountOf, FailsRun, StepAtHand;
    var h := f.s.log.calls;
    var j := |h| - 1;
    AtTheEnd(x, f);
    LastCall(x, AccountOf(x, h), f);
    BeforeTheLast(x, f);
    MediationEnds(x, f, j);
    FailingMade(x, AccountOf(x, h[..j]), h[j].before.env, h[j].call, h[j].call.operation.reason);
    if h[j - 1].call.AskStepReview? { ReviewOf(x, f, j - 1); }
    if h[j - 1].call.AskCompletion? { CompletionIsOfFinalPlan(x, f); }
  }

  // A completion check followed by one mediated call was of the plan the run ends with.
  lemma CompletionIsOfFinalPlan<W>(x: Script<W>, f: Flow<W>)
    requires Ended(x, f) && x.budget.Sound() && |f.s.log.calls| >= 2
    requires Cause(f).AskCompletion? && f.s.log.calls[|f.s.log.calls| - 1].call.Mediate?
    ensures Cause(f).plan == f.s.plan
  {
    hide Ended, Follows, Ends, AccountOf;
    var h := f.s.log.calls;
    var i := |h| - 2;
    AtTheEnd(x, f);
    RuleAt(x, f, i);
    Reads(x, f, i);
    CompletionMade(x, AccountOf(x, h[..i]), h[i].before.env, h[i].call);
    assert h[..i + 1][..i] == h[..i];
  }

  lemma RevisingForCause<W>(x: Script<W>, f: Flow<W>)
    requires Ended(x, f) && x.budget.Sound() && f.Done? && f.status.Revising?
    ensures EndsForCause(x.plan, f)
  {
    hide Ended, Follows, Ends, AccountOf, RevisesRun;
    var h := f.s.log.calls;
    AtTheEnd(x, f);
    LastCall(x, AccountOf(x, h), f);
    BeforeTheLast(x, f);
    RevisionMade(x, AccountOf(x, h[..|h| - 1]), h[|h| - 1].before.env, h[|h| - 1].call);
    ReviseHeeded(x, f, |h| - 2);
  }

  lemma RunEndsForCause<W>(x: Script<W>, f: Flow<W>)
    requires Ended(x, f) && x.budget.Sound()
    ensures EndsForCause(x.plan, f)
  {
    hide Ended, Follows, Ends, AccountOf;
    if f.Done? {
      var h := f.s.log.calls;
      AtTheEnd(x, f);
      LastCall(x, AccountOf(x, h), f);
      match f.status
      case Completed => CompletedForCause(x, f);
      case Failed => FailedForCause(x, f);
      case Revising => RevisingForCause(x, f);
      case Delegating =>
      case BudgetExhausted =>
        if h != [] && h[|h| - 1].call.Mediate? {
          BeforeTheLast(x, f);
          StartingMade(x, AccountOf(x, h[..|h| - 1]), h[|h| - 1].before.env, h[|h| - 1].call);
        }
    }
  }

  /** Whatever its providers answer, a run returns a status only for cause: completed
      after a final review that did not fail it, failed after a review that failed a step
      or the whole, or after the check found the plan unsatisfied, revising after a review
      that asked for it, delegating with subtasks out and nothing more to do. */
  lemma StatusForCause<W>(p: Providers<W>, env: TaskEnvelope, world: W, plan: PlanDocument, maxIterations: nat)
    ensures EndsForCause(plan, Run(p, env, world, plan, maxIterations))
  {
    hide Run, Ended, EndsForCause;
    var (f, x) := (Run(p, env, world, plan, maxIterations), ScriptOf(p, env, world, plan, maxIterations));
    RunEnded(p, env, world, plan, maxIterations);
    RunEndsForCause(x, f);
  }

  // ----- The calls of a run follow one another, and each is answered -----

  /** Each call finds what the one before it left. */
  ghost predicate Chained<W>(start: Kernel<W>, h: seq<Moment<W>>, now: Kernel<W>) {
    && (h == [] ==> start == now)
    && (forall k :: 0 <= k < |h| ==> h[k].before == if k == 0 then start else h[k - 1].after)
    && (h != [] ==> h[|h| - 1].after == now)
  }

  lemma CallsChained<W>(x: Script<W>, h: seq<Moment<W>>, now: Kernel<W>)
    requires Trace(x, h, now)
    ensures Chained(x.start, h, now) && forall k :: 0 <= k < |h| ==> Answered(x.p, h[k])
  {
    hide Trace, Answered;
    if h == [] {
      TraceOfNothing(x, now);
    } else {
      FirstFindsStart(x, h, now);
      TraceAt(x, h, now, |h| - 1);
    }
    forall k | 0 <= k < |h|
      ensures Answered(x.p, h[k]) && h[k].before == if k == 0 then x.start else h[k - 1].after
    {
      TraceAt(x, h, now, k);
      if k > 0 { TraceAt(x, h, now, k - 1); }
    }
  }

  lemma TraceOfNothing<W>(x: Script<W>, now: Kernel<W>)
    requires Trace(x, [], now)
    ensures now == x.start
  {
  }

  lemma FirstFindsStart<W>(x: Script<W>, h: seq<Moment<W>>, now: Kernel<W>)
    requires Trace(x, h, now) && h != []
    ensures h[0].before == x.start
  {
    hide Trace;
    TraceAt(x, h, now, 0);
    assert h[..0] == [];
    TraceOfNothing(x, h[0].before);
  }

  // ----- The executions of a run -----

  /** The loop's log of executions is what the executor was given. */
  lemma {:induction false} ExecutionsLogged<W>(x: Script<W>, h: seq<Moment<W>>)
    ensures var (log, given) := (AccountOf(x, h).executed, ExecutionsIn(h));
      |log| == |given| && forall k :: 0 <= k < |given| ==>
        log[k] == ExecutionLog(given[k].0.step, given[k].0.priorOutputs, given[k].0.maxToolCalls)
    decreases |h|
  {
    if h != [] { ExecutionsLogged(x, h[..|h| - 1]); }
  }

  /** Once there is a body for every execution, they are the executions' own, in order. */
  lemma {:induction false} BodiesAreAnswers<W>(h: seq<Moment<W>>)
    ensures var (bodies, given) := (BodiesIn(h), ExecutionsIn(h));
      && |bodies| <= |given|
      && (|bodies| == |given| ==> forall k :: 0 <= k < |given| ==> given[k].1.Ok? && given[k].1.value.body == bodies[k])
    decreases |h|
  {
    if h != [] { BodiesAreAnswers(h[..|h| - 1]); }
  }
}
