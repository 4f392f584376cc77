/** Plans and the deterministic half of the planner: validation, recording a step's
    result, and the completion check. */
module Planning {
  import opened Wrappers
  import opened Text
  import opened Graphs

  datatype PlanStepKind = Research | ToolCall | Delegate | Review

  datatype PlanStepStatus = Pending | Ready | Running | Blocked | Completed | Failed | Skipped

  datatype CompletionState = Incomplete | Satisfied | Unsatisfied

  datatype PlanStep = PlanStep(
    stepId: string, title: string, kind: PlanStepKind, status: PlanStepStatus,
    dependsOn: seq<string>, assignedAgent: Option<string>, outputSchemaRef: Option<string>)

  datatype PlanEdge = PlanEdge(from: string, to: string)

  datatype PlanDocument = PlanDocument(
    planId: string, goal: string, revision: nat, successCriteria: seq<string>,
    steps: seq<PlanStep>, edges: seq<PlanEdge>)

  datatype PlannedAction = PlannedAction(stepId: string, action: string)

  // What a plan, or a choice of actions, can be rejected for.
  datatype PlanRule =
    | EmptyPlanId | EmptyGoal | NoSuccessCriteria
    | EmptyStepId | DuplicateStepId(id: string) | EmptyTitle(id: string) | EmptyDependency(id: string)
    | UnknownEdgeStart(id: string) | UnknownEdgeEnd(id: string) | EdgeToItself
    | UnknownDependency(id: string, dependency: string) | SelfDependency(id: string)
    | UnknownActionStep(id: string)

  datatype PlanningError = Validation(rule: PlanRule) | Provider(message: string)

  // ----- Recording a step's result -----

  predicate SatisfiesDependency(s: PlanStepStatus) {
    s.Completed? || s.Skipped?
  }

  predicate IsTerminal(s: PlanStepStatus) {
    s.Completed? || s.Skipped? || s.Failed?
  }

  // The first step with the id takes the status.
  function MarkStep(steps: seq<PlanStep>, id: string, status: PlanStepStatus): (r: seq<PlanStep>)
    ensures |r| == |steps|
  {
    if steps == [] then []
    else if steps[0].stepId == id then [steps[0].(status := status)] + steps[1..]
    else [steps[0]] + MarkStep(steps[1..], id, status)
  }

  // Statuses by id; a repeated id keeps the last.
  function StatusById(steps: seq<PlanStep>): map<string, PlanStepStatus> {
    if steps == [] then map[]
    else
      var last := steps[|steps| - 1];
      StatusById(steps[..|steps| - 1])[last.stepId := last.status]
  }

  predicate DependenciesSatisfied(deps: seq<string>, statuses: map<string, PlanStepStatus>) {
    forall d :: d in deps ==> d in statuses && SatisfiesDependency(statuses[d])
  }

  function Promoted(step: PlanStep, statuses: map<string, PlanStepStatus>): PlanStep {
    if step.status.Pending? && DependenciesSatisfied(step.dependsOn, statuses) then step.(status := Ready) else step
  }

  function Promote(steps: seq<PlanStep>, statuses: map<string, PlanStepStatus>): (r: seq<PlanStep>)
    ensures |r| == |steps| && forall i :: 0 <= i < |steps| ==> r[i] == Promoted(steps[i], statuses)
  {
    seq(|steps|, i requires 0 <= i < |steps| => Promoted(steps[i], statuses))
  }

  function Record(steps: seq<PlanStep>, id: string, status: PlanStepStatus): (r: seq<PlanStep>)
    ensures |r| == |steps|
  {
    var marked := MarkStep(steps, id, status);
    Promote(marked, StatusById(marked))
  }

  function RecordStepResult(plan: PlanDocument, id: string, status: PlanStepStatus): PlanDocument {
    plan.(steps := Record(plan.steps, id, status))
  }

  // Marking changes the first step that carries the id, if any does.
  lemma {:induction false} MarkFirst(steps: seq<PlanStep>, id: string, status: PlanStepStatus, i: nat)
    requires i <= |steps| && forall j :: 0 <= j < i ==> steps[j].stepId != id
    ensures i == |steps| ==> MarkStep(steps, id, status) == steps
    ensures i < |steps| && steps[i].stepId == id ==>
      MarkStep(steps, id, status) == steps[i := steps[i].(status := status)]
  {
    if i > 0 {
      MarkFirst(steps[1..], id, status, i - 1);
      assert steps == [steps[0]] + steps[1..];
    }
  }

  method MarkInPlace(steps0: seq<PlanStep>, id: string, status: PlanStepStatus) returns (steps: seq<PlanStep>)
    ensures steps == MarkStep(steps0, id, status)
  {
    steps := steps0;
    for i := 0 to |steps|
      invariant steps == steps0 && forall j :: 0 <= j < i ==> steps[j].stepId != id
    {
      if steps[i].stepId == id {
        MarkFirst(steps0, id, status, i);
        steps := steps[i := steps[i].(status := status)];
        return;
      }
    }
    MarkFirst(steps0, id, status, |steps|);
  }

  method CollectStatuses(steps: seq<PlanStep>) returns (statuses: map<string, PlanStepStatus>)
    ensures statuses == StatusById(steps)
  {
    statuses := map[];
    for i := 0 to |steps|
      invariant statuses == StatusById(steps[..i])
    {
      assert steps[..i + 1][..i] == steps[..i];
      statuses := statuses[steps[i].stepId := steps[i].status];
    }
    assert steps[..|steps|] == steps;
  }

  /** Records a result as the planner does: one pass marking, one pass promoting. */
  method RecordInPlace(plan: PlanDocument, id: string, status: PlanStepStatus) returns (updated: PlanDocument)
    ensures updated == RecordStepResult(plan, id, status)
  {
    var steps := MarkInPlace(plan.steps, id, status);
    ghost var marked := steps;
    var statuses := CollectStatuses(steps);
    for j := 0 to |steps|
      invariant |steps| == |marked| && forall k :: j <= k < |steps| ==> steps[k] == marked[k]
      invariant forall k :: 0 <= k < j ==> steps[k] == Promoted(marked[k], statuses)
    {
      if !steps[j].status.Pending? { continue; }
      if DependenciesSatisfied(steps[j].dependsOn, statuses) {
        steps := steps[j := steps[j].(status := Ready)];
      }
    }
    assert steps == Promote(marked, statuses);
    return plan.(steps := steps);
  }

  // ----- What recording changes, in words -----

  // The step at `i` is the first that carries the id.
  ghost predicate FirstWith(steps: seq<PlanStep>, id: string, i: nat) {
    i < |steps| && steps[i].stepId == id && forall j :: 0 <= j < i ==> steps[j].stepId != id
  }

  // The step at `i` is the last that carries the id.
  ghost predicate LastWith(steps: seq<PlanStep>, id: string, i: nat) {
    i < |steps| && steps[i].stepId == id && forall j :: i < j < |steps| ==> steps[j].stepId != id
  }

  // The status of the step at `i` once the result is entered.
  ghost function Entered(steps: seq<PlanStep>, id: string, status: PlanStepStatus, i: nat): PlanStepStatus
    requires i < |steps|
  {
    if FirstWith(steps, id, i) then status else steps[i].status
  }

  // The last step that carries the id of the dependency has completed or was skipped.
  ghost predicate MetOnceEntered(steps: seq<PlanStep>, id: string, status: PlanStepStatus, d: string) {
    exists i: nat :: LastWith(steps, d, i) && SatisfiesDependency(Entered(steps, id, status, i))
  }

  ghost predicate SameButStatus(step: PlanStep, step': PlanStep) {
    && (step'.stepId, step'.title, step'.kind) == (step.stepId, step.title, step.kind)
    && (step'.dependsOn, step'.assignedAgent, step'.outputSchemaRef) ==
       (step.dependsOn, step.assignedAgent, step.outputSchemaRef)
  }

  lemma {:induction false} EnteredByMarking(steps: seq<PlanStep>, id: string, status: PlanStepStatus, i: nat)
    requires i < |steps|
    ensures var step' := MarkStep(steps, id, status)[i];
      SameButStatus(steps[i], step') && step'.status == Entered(steps, id, status, i)
  {
    if steps[0].stepId != id && i > 0 {
      var rest := steps[1..];
      EnteredByMarking(rest, id, status, i - 1);
      assert forall j :: 0 < j < |steps| ==> steps[j] == rest[j - 1];
      assert FirstWith(rest, id, i - 1) <==> FirstWith(steps, id, i);
    }
  }

  lemma {:induction false} StatusOfLast(steps: seq<PlanStep>, d: string)
    ensures d in StatusById(steps) <==> exists i: nat :: LastWith(steps, d, i)
    ensures forall i: nat :: LastWith(steps, d, i) ==> d in StatusById(steps) && StatusById(steps)[d] == steps[i].status
  {
    if steps != [] {
      var n := |steps| - 1;
      var front := steps[..n];
      StatusOfLast(front, d);
      if steps[n].stepId == d {
        assert LastWith(steps, d, n);
      } else {
        assert forall i: nat :: LastWith(front, d, i) <==> LastWith(steps, d, i);
      }
    }
  }

  /** Whatever the plan, valid or not, and whatever the status: the first step that
      carries the id takes it, a step then pending whose dependencies are all met becomes
      ready, and nothing else about the plan changes. */
  lemma RecordEffect(plan: PlanDocument, id: string, status: PlanStepStatus)
    ensures var updated := RecordStepResult(plan, id, status);
      && (updated.planId, updated.goal, updated.revision) == (plan.planId, plan.goal, plan.revision)
      && (updated.successCriteria, updated.edges) == (plan.successCriteria, plan.edges)
      && |updated.steps| == |plan.steps|
      && forall i :: 0 <= i < |plan.steps| ==>
        && SameButStatus(plan.steps[i], updated.steps[i])
        && updated.steps[i].status ==
           var entered := Entered(plan.steps, id, status, i);
           if entered.Pending? && forall d :: d in plan.steps[i].dependsOn ==> MetOnceEntered(plan.steps, id, status, d)
           then Ready else entered
  {
    hide MetOnceEntered, StatusById;
    var steps := plan.steps;
    forall i | 0 <= i < |steps| { EnteredByMarking(steps, id, status, i); }
    forall d { StatusesOnceEntered(steps, id, status, d); }
  }

  lemma StatusesOnceEntered(steps: seq<PlanStep>, id: string, status: PlanStepStatus, d: string)
    ensures var statuses := StatusById(MarkStep(steps, id, status));
      MetOnceEntered(steps, id, status, d) <==> d in statuses && SatisfiesDependency(statuses[d])
  {
    var marked := MarkStep(steps, id, status);
    forall i | 0 <= i < |steps| { EnteredByMarking(steps, id, status, i); }
    StatusOfLast(marked, d);
    assert forall i: nat :: LastWith(marked, d, i) <==> LastWith(steps, d, i);
  }

  // ----- The completion check -----

  function EvaluateCompletion(plan: PlanDocument): CompletionState {
    if exists i :: 0 <= i < |plan.steps| && plan.steps[i].status.Failed? then Unsatisfied
    else if forall i :: 0 <= i < |plan.steps| ==> IsTerminal(plan.steps[i].status) then Satisfied
    else Incomplete
  }

  ghost predicate AllSatisfied(steps: seq<PlanStep>) {
    forall i :: 0 <= i < |steps| ==> SatisfiesDependency(steps[i].status)
  }

  /** A plan counts as done exactly when every step completed or was skipped. */
  lemma CompletionMeansAllSatisfied(plan: PlanDocument)
    ensures EvaluateCompletion(plan).Satisfied? <==> AllSatisfied(plan.steps)
    ensures EvaluateCompletion(plan).Unsatisfied? <==> exists i :: 0 <= i < |plan.steps| && plan.steps[i].status.Failed?
  {
  }

  // ----- The scheduler does not depend on the order of results -----

  ghost predicate UniqueIds(steps: seq<PlanStep>) {
    forall i, j :: 0 <= i < j < |steps| ==> steps[i].stepId != steps[j].stepId
  }

  lemma {:induction false} MarkedStep(steps: seq<PlanStep>, id: string, status: PlanStepStatus, i: nat)
    requires UniqueIds(steps) && i < |steps|
    ensures MarkStep(steps, id, status)[i] == if steps[i].stepId == id then steps[i].(status := status) else steps[i]
  {
    if steps[0].stepId != id && i > 0 {
      assert steps[1..][i - 1] == steps[i];
      MarkedStep(steps[1..], id, status, i - 1);
    }
  }

  predicate HasStep(steps: seq<PlanStep>, id: string) {
    exists i :: 0 <= i < |steps| && steps[i].stepId == id
  }

  lemma {:induction false} StatusOfStep(steps: seq<PlanStep>)
    requires UniqueIds(steps)
    ensures forall i :: 0 <= i < |steps| ==>
      steps[i].stepId in StatusById(steps) && StatusById(steps)[steps[i].stepId] == steps[i].status
    ensures forall d :: d in StatusById(steps) ==> HasStep(steps, d)
  {
    if steps != [] {
      var front := steps[..|steps| - 1];
      StatusOfStep(front);
      assert forall i :: 0 <= i < |front| ==> steps[i] == front[i];
      forall d | HasStep(front, d) ensures HasStep(steps, d) {
        var i :| 0 <= i < |front| && front[i].stepId == d;
        assert steps[i].stepId == d;
      }
      assert HasStep(steps, steps[|steps| - 1].stepId);
    }
  }

  // A dependency is met once its step has been recorded, or was met to begin with.
  ghost predicate Met(steps: seq<PlanStep>, recorded: set<string>, d: string) {
    exists i :: 0 <= i < |steps| && steps[i].stepId == d && (d in recorded || SatisfiesDependency(steps[i].status))
  }

  ghost predicate AllMet(steps: seq<PlanStep>, recorded: set<string>, deps: seq<string>) {
    forall d :: d in deps ==> Met(steps, recorded, d)
  }

  ghost function SettledStep(steps: seq<PlanStep>, recorded: set<string>, step: PlanStep): PlanStep {
    if step.stepId in recorded then step.(status := Completed)
    else if step.status.Pending? && AllMet(steps, recorded, step.dependsOn) then step.(status := Ready)
    else step
  }

  /** The plan after completing a set of steps, said in one go: those steps are
      completed, pending steps with every dependency met are ready, nothing else moves. */
  ghost function Settled(steps: seq<PlanStep>, recorded: set<string>): (r: seq<PlanStep>)
    ensures |r| == |steps|
    ensures forall i :: 0 <= i < |steps| ==> r[i] == SettledStep(steps, recorded, steps[i])
  {
    seq(|steps|, i requires 0 <= i < |steps| => SettledStep(steps, recorded, steps[i]))
  }

  lemma MetByStep(steps: seq<PlanStep>, recorded: set<string>, i: nat)
    requires UniqueIds(steps) && i < |steps|
    ensures Met(steps, recorded, steps[i].stepId) <==>
      steps[i].stepId in recorded || SatisfiesDependency(steps[i].status)
  {
  }

  // The status table of a marked plan says which dependencies are met.
  lemma StatusesSayMet(steps: seq<PlanStep>, id: string, d: string)
    requires UniqueIds(steps)
    ensures var statuses := StatusById(MarkStep(steps, id, Completed));
      Met(steps, {id}, d) <==> d in statuses && SatisfiesDependency(statuses[d])
  {
    var marked := MarkStep(steps, id, Completed);
    MarkKeepsIds(steps, id, Completed);
    StatusOfStep(marked);
    if i: nat :| i < |steps| && steps[i].stepId == d {
      MetByStep(steps, {id}, i);
      MarkedStep(steps, id, Completed, i);
    }
  }

  lemma MarkKeepsIds(steps: seq<PlanStep>, id: string, status: PlanStepStatus)
    requires UniqueIds(steps)
    ensures UniqueIds(MarkStep(steps, id, status))
    ensures forall i :: 0 <= i < |steps| ==> MarkStep(steps, id, status)[i].stepId == steps[i].stepId
  {
    forall i | 0 <= i < |steps| { MarkedStep(steps, id, status, i); }
  }

  lemma RecordSettles(steps: seq<PlanStep>, id: string)
    requires UniqueIds(steps)
    ensures Record(steps, id, Completed) == Settled(steps, {id})
  {
    var marked := MarkStep(steps, id, Completed);
    var statuses := StatusById(marked);
    forall i | 0 <= i < |steps| { MarkedStep(steps, id, Completed, i); }
    forall i | 0 <= i < |steps| ensures Record(steps, id, Completed)[i] == Settled(steps, {id})[i] {
      forall d { StatusesSayMet(steps, id, d); }
      assert DependenciesSatisfied(steps[i].dependsOn, statuses) <==> AllMet(steps, {id}, steps[i].dependsOn);
    }
  }

  lemma MetAfterSettling(steps: seq<PlanStep>, first: set<string>, second: set<string>, d: string)
    ensures Met(Settled(steps, first), second, d) <==> Met(steps, first + second, d)
  {
    var once := Settled(steps, first);
    if i :| 0 <= i < |once| && once[i].stepId == d && (d in second || SatisfiesDependency(once[i].status)) {
      assert steps[i].stepId == d;
    }
    if i :| 0 <= i < |steps| && steps[i].stepId == d && (d in first + second || SatisfiesDependency(steps[i].status)) {
      assert once[i].stepId == d;
    }
  }

  lemma AllMetAfterSettling(steps: seq<PlanStep>, first: set<string>, second: set<string>, deps: seq<string>)
    ensures AllMet(Settled(steps, first), second, deps) <==> AllMet(steps, first + second, deps)
  {
    forall d { MetAfterSettling(steps, first, second, d); }
  }

  lemma AllMetGrows(steps: seq<PlanStep>, fewer: set<string>, more: set<string>, deps: seq<string>)
    requires fewer <= more && AllMet(steps, fewer, deps)
    ensures AllMet(steps, more, deps)
  {
    forall d | d in deps ensures Met(steps, more, d) {
      assert Met(steps, fewer, d);
    }
  }

  lemma SettledTwice(steps: seq<PlanStep>, first: set<string>, second: set<string>)
    requires UniqueIds(steps)
    ensures UniqueIds(Settled(steps, first))
    ensures Settled(Settled(steps, first), second) == Settled(steps, first + second)
  {
    var once := Settled(steps, first);
    forall i | 0 <= i < |steps| ensures Settled(once, second)[i] == Settled(steps, first + second)[i] {
      AllMetAfterSettling(steps, first, second, steps[i].dependsOn);
      if AllMet(steps, first, steps[i].dependsOn) { AllMetGrows(steps, first, first + second, steps[i].dependsOn); }
    }
  }

  // Completions recorded one after another.
  function RecordAll(steps: seq<PlanStep>, ids: seq<string>): seq<PlanStep> {
    if ids == [] then steps else Record(RecordAll(steps, ids[..|ids| - 1]), ids[|ids| - 1], Completed)
  }

  /** Recording completions one by one reaches the closed form of their set. */
  lemma {:induction false} RecordAllSettles(steps: seq<PlanStep>, ids: seq<string>)
    requires UniqueIds(steps) && ids != []
    ensures RecordAll(steps, ids) == Settled(steps, Elems(ids))
  {
    var front, last := ids[..|ids| - 1], ids[|ids| - 1];
    assert ids == front + [last];
    assert Elems(ids) == Elems(front) + {last};
    if front == [] {
      RecordSettles(steps, last);
      assert Elems(ids) == {last};
    } else {
      RecordAllSettles(steps, front);
      SettledTwice(steps, Elems(front), {last});
      RecordSettles(Settled(steps, Elems(front)), last);
    }
  }

  /** Neither the order in which results arrive nor their repetition matters. */
  lemma SchedulerConfluent(steps: seq<PlanStep>, a: seq<string>, b: seq<string>)
    requires UniqueIds(steps) && Elems(a) == Elems(b)
    ensures RecordAll(steps, a) == RecordAll(steps, b)
  {
    assert a != [] ==> a[0] in Elems(b);
    assert b != [] ==> b[0] in Elems(a);
    if a != [] {
      RecordAllSettles(steps, a);
      RecordAllSettles(steps, b);
    }
  }

  // ----- Validation -----

  ghost function StepIds(steps: seq<PlanStep>): set<string> {
    set s | s in steps :: s.stepId
  }

  ghost predicate WellNamed(step: PlanStep) {
    !Blank(step.stepId) && !Blank(step.title) && forall d :: d in step.dependsOn ==> !Blank(d)
  }

  ghost predicate KnownDependencies(step: PlanStep, ids: set<string>) {
    forall d :: d in step.dependsOn ==> d in ids && d != step.stepId
  }

  ghost predicate ValidStep(step: PlanStep, ids: set<string>) {
    WellNamed(step) && KnownDependencies(step, ids)
  }

  ghost predicate ValidEdge(e: PlanEdge, ids: set<string>) {
    e.from in ids && e.to in ids && e.from != e.to
  }

  ghost predicate ValidPlan(plan: PlanDocument) {
    var ids := StepIds(plan.steps);
    && !Blank(plan.planId) && !Blank(plan.goal) && plan.successCriteria != []
    && UniqueIds(plan.steps)
    && (forall s :: s in plan.steps ==> ValidStep(s, ids))
    && (forall e :: e in plan.edges ==> ValidEdge(e, ids))
  }

  // ----- The first rule a plan breaks -----

  function EdgeFault(e: PlanEdge, ids: set<string>): Option<PlanRule> {
    if e.from !in ids then Some(UnknownEdgeStart(e.from))
    else if e.to !in ids then Some(UnknownEdgeEnd(e.to))
    else if e.from == e.to then Some(EdgeToItself)
    else None
  }

  function EdgesFault(edges: seq<PlanEdge>, ids: set<string>): Option<PlanRule> {
    if edges == [] then None
    else
      var first := EdgeFault(edges[0], ids);
      if first.Some? then first else EdgesFault(edges[1..], ids)
  }

  function DependencyFault(id: string, deps: seq<string>, ids: set<string>): Option<PlanRule> {
    if deps == [] then None
    else if deps[0] !in ids then Some(UnknownDependency(id, deps[0]))
    else if deps[0] == id then Some(SelfDependency(id))
    else DependencyFault(id, deps[1..], ids)
  }

  function DependenciesFault(steps: seq<PlanStep>, ids: set<string>): Option<PlanRule> {
    if steps == [] then None
    else
      var first := DependencyFault(steps[0].stepId, steps[0].dependsOn, ids);
      if first.Some? then first else DependenciesFault(steps[1..], ids)
  }

  function NameFault(step: PlanStep, seen: set<string>): Option<PlanRule> {
    if Blank(step.stepId) then Some(EmptyStepId)
    else if step.stepId in seen then Some(DuplicateStepId(step.stepId))
    else if Blank(step.title) then Some(EmptyTitle(step.stepId))
    else if exists d :: d in step.dependsOn && Blank(d) then Some(EmptyDependency(step.stepId))
    else None
  }

  // `seen` holds the ids of the steps before.
  ghost function NamesFault(steps: seq<PlanStep>, seen: set<string>): Option<PlanRule> {
    if steps == [] then None
    else
      var first := NameFault(steps[0], seen);
      if first.Some? then first else NamesFault(steps[1..], seen + {steps[0].stepId})
  }

  /** The rule a plan is rejected for: the first broken, in the order they are checked. */
  ghost function PlanFault(plan: PlanDocument): Option<PlanRule> {
    var ids := StepIds(plan.steps);
    if Blank(plan.planId) then Some(EmptyPlanId)
    else if Blank(plan.goal) then Some(EmptyGoal)
    else if plan.successCriteria == [] then Some(NoSuccessCriteria)
    else
      var named := NamesFault(plan.steps, {});
      if named.Some? then named
      else
        var joined := EdgesFault(plan.edges, ids);
        if joined.Some? then joined else DependenciesFault(plan.steps, ids)
  }

  lemma {:induction false} EdgesFaultless(edges: seq<PlanEdge>, ids: set<string>)
    ensures EdgesFault(edges, ids).None? <==> forall e :: e in edges ==> ValidEdge(e, ids)
  {
    if edges != [] {
      EdgesFaultless(edges[1..], ids);
      assert EdgeFault(edges[0], ids).None? <==> ValidEdge(edges[0], ids);
      assert forall e :: e in edges <==> e == edges[0] || e in edges[1..];
    }
  }

  lemma {:induction false} DependencyFaultless(id: string, deps: seq<string>, ids: set<string>)
    ensures DependencyFault(id, deps, ids).None? <==> forall d :: d in deps ==> d in ids && d != id
  {
    if deps != [] {
      DependencyFaultless(id, deps[1..], ids);
      assert deps == [deps[0]] + deps[1..];
    }
  }

  lemma {:induction false} DependenciesFaultless(steps: seq<PlanStep>, ids: set<string>)
    ensures DependenciesFault(steps, ids).None? <==> forall s :: s in steps ==> KnownDependencies(s, ids)
  {
    if steps != [] {
      DependencyFaultless(steps[0].stepId, steps[0].dependsOn, ids);
      DependenciesFaultless(steps[1..], ids);
      assert KnownDependencies(steps[0], ids) <==> DependencyFault(steps[0].stepId, steps[0].dependsOn, ids).None?;
      assert forall s :: s in steps <==> s == steps[0] || s in steps[1..];
    }
  }

  ghost predicate FreshIds(steps: seq<PlanStep>, seen: set<string>) {
    UniqueIds(steps) && forall s :: s in steps ==> s.stepId !in seen
  }

  lemma FreshIdsFirst(steps: seq<PlanStep>, seen: set<string>)
    requires steps != []
    ensures FreshIds(steps, seen) <==> steps[0].stepId !in seen && FreshIds(steps[1..], seen + {steps[0].stepId})
  {
    var first, rest := steps[0], steps[1..];
    assert steps == [first] + rest;
    if FreshIds(rest, seen + {first.stepId}) {
      forall i, j | 0 <= i < j < |steps| ensures steps[i].stepId != steps[j].stepId {
        assert steps[j] == rest[j - 1] && steps[j] in rest;
        assert i > 0 ==> steps[i] == rest[i - 1];
      }
    }
    if FreshIds(steps, seen) {
      forall s | s in rest ensures s.stepId !in seen + {first.stepId} {
        var j :| 0 <= j < |rest| && rest[j] == s;
        assert steps[j + 1] == s && s in steps;
      }
    }
  }

  lemma {:induction false} NamesFaultless(steps: seq<PlanStep>, seen: set<string>)
    ensures NamesFault(steps, seen).None? <==> FreshIds(steps, seen) && forall s :: s in steps ==> WellNamed(s)
  {
    if steps != [] {
      NamesFaultless(steps[1..], seen + {steps[0].stepId});
      FreshIdsFirst(steps, seen);
      assert forall s :: s in steps <==> s == steps[0] || s in steps[1..];
    }
  }

  /** A plan breaks no rule exactly if it is valid. */
  lemma FaultlessIsValid(plan: PlanDocument)
    ensures PlanFault(plan).None? <==> ValidPlan(plan)
  {
    hide FreshIds, UniqueIds, WellNamed, KnownDependencies, ValidEdge, Blank, StepIds;
    hide NamesFault, EdgesFault, DependenciesFault;
    var ids := StepIds(plan.steps);
    NamesFaultless(plan.steps, {});
    FreshInNothing(plan.steps);
    EdgesFaultless(plan.edges, ids);
    DependenciesFaultless(plan.steps, ids);
  }

  lemma FreshInNothing(steps: seq<PlanStep>)
    ensures FreshIds(steps, {}) <==> UniqueIds(steps)
  {
  }

  // ----- The rule reported is the first one broken -----

  // The steps before the i-th are named and told apart as they must be.
  ghost predicate NamedUpTo(steps: seq<PlanStep>, i: nat) {
    i <= |steps| && UniqueIds(steps[..i]) && forall s :: s in steps[..i] ==> WellNamed(s)
  }

  ghost predicate JoinedUpTo(edges: seq<PlanEdge>, ids: set<string>, i: nat) {
    i <= |edges| && forall e :: e in edges[..i] ==> ValidEdge(e, ids)
  }

  ghost predicate KnownUpTo(steps: seq<PlanStep>, ids: set<string>, i: nat) {
    i <= |steps| && forall s :: s in steps[..i] ==> KnownDependencies(s, ids)
  }

  // What is wrong with the i-th step's names, those before it being in order.
  ghost predicate MisnamedAt(steps: seq<PlanStep>, rule: PlanRule, i: nat)
    requires i < |steps|
  {
    var (step, taken) := (steps[i], StepIds(steps[..i]));
    match rule
    case EmptyStepId => Blank(step.stepId)
    case DuplicateStepId(id) => id == step.stepId && !Blank(id) && id in taken
    case EmptyTitle(id) => id == step.stepId && !Blank(id) && id !in taken && Blank(step.title)
    case EmptyDependency(id) =>
      && id == step.stepId && !Blank(id) && id !in taken && !Blank(step.title)
      && exists d :: d in step.dependsOn && Blank(d)
    case _ => false
  }

  ghost predicate MisjoinedAt(edges: seq<PlanEdge>, ids: set<string>, rule: PlanRule, i: nat)
    requires i < |edges|
  {
    match rule
    case UnknownEdgeStart(id) => id == edges[i].from && id !in ids
    case UnknownEdgeEnd(id) => id == edges[i].to && id !in ids && edges[i].from in ids
    case EdgeToItself => edges[i].from == edges[i].to && edges[i].from in ids
    case _ => false
  }

  // What is wrong with the first of the i-th step's dependencies that is not in order.
  ghost predicate DependsWronglyAt(steps: seq<PlanStep>, ids: set<string>, rule: PlanRule, i: nat)
    requires i < |steps|
  {
    var step := steps[i];
    exists k :: 0 <= k < |step.dependsOn| && (forall j :: 0 <= j < k ==>
      step.dependsOn[j] in ids && step.dependsOn[j] != step.stepId) &&
      if step.dependsOn[k] !in ids then rule == UnknownDependency(step.stepId, step.dependsOn[k])
      else step.dependsOn[k] == step.stepId && rule == SelfDependency(step.stepId)
  }

  /** The plan breaks the rule, as reported, and none that is checked before it. */
  ghost predicate BreaksFirst(plan: PlanDocument, rule: PlanRule) {
    var (steps, edges, ids) := (plan.steps, plan.edges, StepIds(plan.steps));
    if Blank(plan.planId) then rule == EmptyPlanId
    else if Blank(plan.goal) then rule == EmptyGoal
    else if plan.successCriteria == [] then rule == NoSuccessCriteria
    else
      || (exists i: nat :: i < |steps| && NamedUpTo(steps, i) && MisnamedAt(steps, rule, i))
      || (NamedUpTo(steps, |steps|) &&
          exists i: nat :: i < |edges| && JoinedUpTo(edges, ids, i) && MisjoinedAt(edges, ids, rule, i))
      || (NamedUpTo(steps, |steps|) && JoinedUpTo(edges, ids, |edges|) &&
          exists i: nat :: i < |steps| && KnownUpTo(steps, ids, i) && DependsWronglyAt(steps, ids, rule, i))
  }

  lemma {:induction false} NamesFaultAt(steps: seq<PlanStep>, seen: set<string>) returns (i: nat)
    requires NamesFault(steps, seen).Some?
    ensures i < |steps| && NamesFault(steps[..i], seen).None?
    ensures NamesFault(steps, seen) == NameFault(steps[i], seen + StepIds(steps[..i]))
  {
    if NameFault(steps[0], seen).Some? {
      i := 0;
      assert seen + StepIds(steps[..0]) == seen;
    } else {
      var (rest, more) := (steps[1..], seen + {steps[0].stepId});
      var k := NamesFaultAt(rest, more);
      i := k + 1;
      assert steps[..i] == [steps[0]] + rest[..k];
      assert StepIds(steps[..i]) == {steps[0].stepId} + StepIds(rest[..k]);
      assert seen + StepIds(steps[..i]) == more + StepIds(rest[..k]);
      assert steps[..i][1..] == rest[..k];
    }
  }

  lemma {:induction false} EdgesFaultAt(edges: seq<PlanEdge>, ids: set<string>) returns (i: nat)
    requires EdgesFault(edges, ids).Some?
    ensures i < |edges| && EdgesFault(edges[..i], ids).None? && EdgesFault(edges, ids) == EdgeFault(edges[i], ids)
  {
    if EdgeFault(edges[0], ids).Some? {
      i := 0;
    } else {
      var k := EdgesFaultAt(edges[1..], ids);
      i := k + 1;
      assert edges[..i][1..] == edges[1..][..k];
    }
  }

  lemma {:induction false} DependencyFaultAt(id: string, deps: seq<string>, ids: set<string>) returns (k: nat)
    requires DependencyFault(id, deps, ids).Some?
    ensures k < |deps| && forall j :: 0 <= j < k ==> deps[j] in ids && deps[j] != id
    ensures DependencyFault(id, deps, ids).value ==
      if deps[k] !in ids then UnknownDependency(id, deps[k]) else SelfDependency(id)
    ensures deps[k] in ids ==> deps[k] == id
  {
    if deps[0] !in ids || deps[0] == id {
      k := 0;
    } else {
      var n := DependencyFaultAt(id, deps[1..], ids);
      k := n + 1;
      assert forall j :: 1 <= j < |deps| ==> deps[j] == deps[1..][j - 1];
    }
  }

  lemma {:induction false} DependenciesFaultAt(steps: seq<PlanStep>, ids: set<string>) returns (i: nat)
    requires DependenciesFault(steps, ids).Some?
    ensures i < |steps| && DependenciesFault(steps[..i], ids).None?
    ensures DependenciesFault(steps, ids) == DependencyFault(steps[i].stepId, steps[i].dependsOn, ids)
  {
    if DependencyFault(steps[0].stepId, steps[0].dependsOn, ids).Some? {
      i := 0;
    } else {
      var k := DependenciesFaultAt(steps[1..], ids);
      i := k + 1;
      assert steps[..i][1..] == steps[1..][..k];
    }
  }

  lemma UpToTheEnd(plan: PlanDocument)
    ensures plan.steps[..|plan.steps|] == plan.steps && plan.edges[..|plan.edges|] == plan.edges
  {
  }

  // The steps before the i-th have names in order if the check finds nothing there.
  lemma NothingMisnamed(steps: seq<PlanStep>, i: nat)
    requires i <= |steps|
    ensures NamesFault(steps[..i], {}).None? <==> NamedUpTo(steps, i)
  {
    hide UniqueIds, WellNamed;
    NamesFaultless(steps[..i], {});
    FreshInNothing(steps[..i]);
  }

  /** The rule a plan is rejected for is broken as reported, at the first place where any
      rule is, in the order of the checks: the plan's own names, the steps', the edges, and
      last the dependencies. */
  lemma FirstBroken(plan: PlanDocument)
    requires PlanFault(plan).Some?
    ensures BreaksFirst(plan, PlanFault(plan).value)
  {
    hide NamesFault, EdgesFault, DependenciesFault, DependencyFault, NamedUpTo, StepIds, Blank;
    var (steps, edges, ids) := (plan.steps, plan.edges, StepIds(plan.steps));
    UpToTheEnd(plan);
    NothingMisnamed(steps, |steps|);
    EdgesFaultless(edges, ids);
    if Blank(plan.planId) || Blank(plan.goal) || plan.successCriteria == [] {
    } else if NamesFault(steps, {}).Some? {
      var i := NamesFaultAt(steps, {});
      NothingMisnamed(steps, i);
      assert {} + StepIds(steps[..i]) == StepIds(steps[..i]);
      assert MisnamedAt(steps, PlanFault(plan).value, i);
    } else if EdgesFault(edges, ids).Some? {
      var i := EdgesFaultAt(edges, ids);
      EdgesFaultless(edges[..i], ids);
      assert JoinedUpTo(edges, ids, i) && MisjoinedAt(edges, ids, PlanFault(plan).value, i);
    } else {
      var i := DependenciesFaultAt(steps, ids);
      DependenciesFaultless(steps[..i], ids);
      var k := DependencyFaultAt(steps[i].stepId, steps[i].dependsOn, ids);
      assert KnownUpTo(steps, ids, i) && DependsWronglyAt(steps, ids, PlanFault(plan).value, i);
    }
  }

  // ----- Validation as the program runs it -----

  // The answer to a check: the rule broken, if any.
  ghost predicate Answers<T>(r: Result<T, PlanningError>, fault: Option<PlanRule>) {
    (r.Ok? <==> fault.None?) && (r.Err? ==> fault.Some? && r.error == Validation(fault.value))
  }

  method ValidateEdge(e: PlanEdge, ids: set<string>) returns (r: Result<(), PlanningError>)
    ensures r.Ok? <==> ValidEdge(e, ids)
    ensures Answers(r, EdgeFault(e, ids))
  {
    if e.from !in ids { return Err(Validation(UnknownEdgeStart(e.from))); }
    if e.to !in ids { return Err(Validation(UnknownEdgeEnd(e.to))); }
    if e.from == e.to { return Err(Validation(EdgeToItself)); }
    return Ok(());
  }

  method ValidateDependencies(step: PlanStep, ids: set<string>) returns (r: Result<(), PlanningError>)
    ensures r.Ok? <==> forall d :: d in step.dependsOn ==> d in ids && d != step.stepId
    ensures Answers(r, DependencyFault(step.stepId, step.dependsOn, ids))
  {
    var deps := step.dependsOn;
    DependencyFaultless(step.stepId, deps, ids);
    for i := 0 to |deps|
      invariant DependencyFault(step.stepId, deps, ids) == DependencyFault(step.stepId, deps[i..], ids)
    {
      assert deps[i..][1..] == deps[i + 1..];
      if deps[i] !in ids { return Err(Validation(UnknownDependency(step.stepId, deps[i]))); }
      if deps[i] == step.stepId { return Err(Validation(SelfDependency(step.stepId))); }
    }
    return Ok(());
  }

  method ValidateName(step: PlanStep, seen: set<string>) returns (r: Result<(), PlanningError>)
    ensures Answers(r, NameFault(step, seen))
  {
    if EmptyWhenTrimmed(step.stepId) { return Err(Validation(EmptyStepId)); }
    if step.stepId in seen { return Err(Validation(DuplicateStepId(step.stepId))); }
    if EmptyWhenTrimmed(step.title) { return Err(Validation(EmptyTitle(step.stepId))); }
    for i := 0 to |step.dependsOn|
      invariant forall k :: 0 <= k < i ==> !Blank(step.dependsOn[k])
    {
      if EmptyWhenTrimmed(step.dependsOn[i]) { return Err(Validation(EmptyDependency(step.stepId))); }
    }
    return Ok(());
  }

  // The first pass over the steps: names, and no id twice.
  method ValidateNames(steps: seq<PlanStep>) returns (r: Result<set<string>, PlanningError>)
    ensures r.Ok? <==> UniqueIds(steps) && forall s :: s in steps ==> WellNamed(s)
    ensures r.Ok? ==> r.value == StepIds(steps)
    ensures Answers(r, NamesFault(steps, {}))
  {
    hide NameFault, FreshIds, UniqueIds;
    NamesFaultless(steps, {});
    FreshInNothing(steps);
    var ids: set<string> := {};
    for i := 0 to |steps|
      invariant ids == StepIds(steps[..i])
      invariant NamesFault(steps, {}) == NamesFault(steps[i..], ids)
    {
      assert steps[i..][1..] == steps[i + 1..];
      assert steps[..i + 1] == steps[..i] + [steps[i]];
      var named := ValidateName(steps[i], ids);
      if named.Err? { return Err(named.error); }
      ids := ids + {steps[i].stepId};
    }
    assert steps[..|steps|] == steps;
    return Ok(ids);
  }

  method ValidateEdges(edges: seq<PlanEdge>, ids: set<string>) returns (r: Result<(), PlanningError>)
    ensures Answers(r, EdgesFault(edges, ids))
  {
    for i := 0 to |edges|
      invariant EdgesFault(edges, ids) == EdgesFault(edges[i..], ids)
    {
      assert edges[i..][1..] == edges[i + 1..];
      var joined := ValidateEdge(edges[i], ids);
      if joined.Err? { return joined; }
    }
    return Ok(());
  }

  method ValidateAllDependencies(steps: seq<PlanStep>, ids: set<string>) returns (r: Result<(), PlanningError>)
    ensures Answers(r, DependenciesFault(steps, ids))
  {
    for i := 0 to |steps|
      invariant DependenciesFault(steps, ids) == DependenciesFault(steps[i..], ids)
    {
      assert steps[i..][1..] == steps[i + 1..];
      var known := ValidateDependencies(steps[i], ids);
      if known.Err? { return known; }
    }
    return Ok(());
  }

  /** Accepts exactly the well-formed plans, and names the first rule another breaks. */
  method ValidatePlan(plan: PlanDocument) returns (r: Result<(), PlanningError>)
    ensures r.Ok? <==> ValidPlan(plan)
    ensures Answers(r, PlanFault(plan))
    ensures r.Err? ==> r.error.Validation? && BreaksFirst(plan, r.error.rule)
  {
    if PlanFault(plan).Some? { FirstBroken(plan); }
    hide BreaksFirst;
    hide ValidPlan, NamesFault, EdgesFault, DependenciesFault;
    FaultlessIsValid(plan);
    if EmptyWhenTrimmed(plan.planId) { return Err(Validation(EmptyPlanId)); }
    if EmptyWhenTrimmed(plan.goal) { return Err(Validation(EmptyGoal)); }
    if plan.successCriteria == [] { return Err(Validation(NoSuccessCriteria)); }
    var names := ValidateNames(plan.steps);
    if names.Err? { return Err(names.error); }
    var edges := ValidateEdges(plan.edges, names.value);
    if edges.Err? { return edges; }
    r := ValidateAllDependencies(plan.steps, names.value);
  }

  /** The planner's check on a model's choice: the first action aimed at no step. */
  function ActionsFault(plan: PlanDocument, actions: seq<PlannedAction>): (fault: Option<PlanRule>)
    ensures fault.None? <==> forall k :: 0 <= k < |actions| ==> HasStep(plan.steps, actions[k].stepId)
  {
    if actions == [] then None
    else if !HasStep(plan.steps, actions[0].stepId) then Some(UnknownActionStep(actions[0].stepId))
    else
      assert forall k :: 1 <= k < |actions| ==> actions[k] == actions[1..][k - 1];
      ActionsFault(plan, actions[1..])
  }

  // ----- A plan with nothing ready is done, unless its pending steps wait in a circle -----

  ghost function PlanGraph(steps: seq<PlanStep>): Graph {
    map id | id in StepIds(steps) :: set s, d | s in steps && s.stepId == id && d in s.dependsOn :: d
  }

  ghost function PendingIds(steps: seq<PlanStep>): set<string> {
    set s | s in steps && s.status.Pending? :: s.stepId
  }

  /** Which pending steps wait for which. */
  ghost function WaitingGraph(steps: seq<PlanStep>): Graph {
    map id | id in PendingIds(steps) ::
      set s, d | s in steps && s.stepId == id && d in s.dependsOn && d in PendingIds(steps) :: d
  }

  ghost predicate NoneReady(steps: seq<PlanStep>) {
    forall i :: 0 <= i < |steps| ==> !steps[i].status.Ready?
  }

  ghost predicate Workaday(s: PlanStepStatus) {
    s.Pending? || s.Ready? || SatisfiesDependency(s)
  }

  /** No step failed or is stuck mid-way, and pending steps are overlooked only while
      some step is ready. */
  ghost predicate Scheduled(steps: seq<PlanStep>) {
    && (forall s :: s in steps ==> Workaday(s.status))
    && (NoneReady(steps) ==> forall s :: s in steps && s.status.Pending? ==> !AllMet(steps, {}, s.dependsOn))
  }

  /** The plan can be worked to its end by completing ready steps. */
  ghost predicate Completable(steps: seq<PlanStep>) {
    Scheduled(steps) && Acyclic(WaitingGraph(steps))
  }

  /** A plan whose dependencies are acyclic has no pending steps waiting in a circle. */
  lemma AcyclicPlanWaitsInLine(steps: seq<PlanStep>)
    requires Acyclic(PlanGraph(steps))
    ensures Acyclic(WaitingGraph(steps))
  {
    var g, h := PlanGraph(steps), WaitingGraph(steps);
    forall id | id in h ensures id in g && h[id] <= g[id] {
      forall d | d in h[id] ensures d in g[id] {
        var s :| s in steps && s.stepId == id && d in s.dependsOn;
      }
    }
    SubgraphAcyclic(g, h);
  }

  lemma PendingWaitsOnPending(steps: seq<PlanStep>, s: PlanStep) returns (d: string)
    requires Scheduled(steps) && NoneReady(steps) && s in steps && s.status.Pending?
    requires forall s :: s in steps ==> Elems(s.dependsOn) <= StepIds(steps)
    ensures d in s.dependsOn && d in PendingIds(steps)
  {
    d :| d in s.dependsOn && !Met(steps, {}, d);
    assert d in Elems(s.dependsOn);
    var t :| t in steps && t.stepId == d;
    var i :| 0 <= i < |steps| && steps[i] == t;
  }

  lemma NothingReadyMeansDone(steps: seq<PlanStep>)
    requires Completable(steps) && NoneReady(steps)
    requires forall s :: s in steps ==> Elems(s.dependsOn) <= StepIds(steps)
    ensures AllSatisfied(steps)
  {
    var g, pending := WaitingGraph(steps), PendingIds(steps);
    forall id | id in pending ensures g[id] * pending != {} {
      var s :| s in steps && s.status.Pending? && s.stepId == id;
      var d := PendingWaitsOnPending(steps, s);
      assert d in g[id] * pending;
    }
    if id :| id in pending {
      Trapped(g, pending, id);
      AcyclicMeansNoneReaches(g);
    }
    forall i | 0 <= i < |steps| ensures SatisfiesDependency(steps[i].status) {
      assert steps[i] in steps;
      assert steps[i].stepId !in pending;
    }
  }
}
