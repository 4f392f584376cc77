# Greentic Digital Worker: a verified model of the deep-worker run

The repository runs "digital workers": a planner produces a plan of steps, a
deep loop carries the steps out one after another, each step may be a bounded
conversation between a model and tools, reviewers judge the outputs, and some
steps may be handed to other agents. This project models that machinery in
Dafny and proves what it guarantees, together with the coordinator flow for
callable worker tools, the bundle planner and the script that orders releases.

## How to read it

Everything a run consults (models, reviewers, delegators, tools, hooks, the
state store) is a *total function over an arbitrary memory* `W`: it may answer
anything, remember anything and change its mind. A theorem quantified over
`Providers<W>` or `Host<V>` therefore speaks about all models, all tools and
all interleavings of their answers. Each operation is a specification function
in this world-passing style; the deep loop and a step's conversation also log every
call they make, with the memory before and after it. The classes `DwRuntime`,
`LlmToolStepExecutor`, `Coordinator` and `CoordinatorRuntime` update their fields in
place, as the program does, and are proved to compute exactly those functions; the
theorems are about the functions and so about the classes.

What the loop and a step's conversation must do is also said without those
functions. `RunTraces.Follows` and `RunTraces.Ends` give the protocol of the deep
loop call by call, `ToolDialogue.StepEnds` gives a step from its replies and
answers, `WorkerTools.RoutePermitted` reads a route off the configuration, and
`Dispatch.HostAnswers` says whom each call of a dispatch reaches; the theorems
connect every run, step, handoff and dispatch with them.

| module | what it holds |
|---|---|
| `PublishOrder`, `Graphs` | the release orderer; walks, cycles and orders in dependency graphs |
| `Lifecycle` | task states, operations, batches and ticks; what observers and the state store see |
| `Planning` | plan validation, recording a step's result, the completion check |
| `CanonicalJson`, `ToolConversation`, `StepExecutor` | the tool conversation of one step, its cache and the tool budget |
| `ToolDialogue` | what a step's conversation says, told from the replies and answers alone |
| `DeepLoop`, `DeepLoopRuns` | the deep loop and what every run of it keeps |
| `RunTraces` | the loop as a protocol: which call may follow which, with what arguments, and how a run may end after it |
| `RunOutcomes` | what the calls of a run mean for it: verdicts heeded, executions, the cause of every status |
| `DeepLoopCoordinator` | the deep loop as nested loops over fields |
| `Guards` | reflection and delegation switched off |
| `Progress`, `CooperativeRuns`, `Obstacles` | which plans are completed, how fast, in which order, and how the others end |
| `Dispatch` | one whole dispatch: real store, real executor, real guards wired into the loop |
| `Counterexamples` | concrete plans and dispatches for which a promise of the program fails |
| `Delegation`, `WorkerTools`, `CoordinatorFlow` | handoffs, results, the final response, the coordinator's event trace |
| `BundlePlan` | merging dependency entries into a bundle plan |
| `Text`, `Wrappers` | sorting, numerals, blank text; results and saturating arithmetic |

Three promises turned out to hold only under a condition. Each condition is proved
exact, and each failure is shown on a concrete plan that validation accepts:

* The loop does not complete every valid plan. `validate_plan` rejects a step
  that depends on itself but no longer circle, and nothing promotes a pending
  step until some step has been recorded. A cooperative run of a plan without
  delegate steps completes exactly the plans in which no step failed or hangs, no
  pending steps wait in a circle, and no pending step is overlooked while nothing
  is ready; it fails exactly those with a failed step, and runs every other until
  its budget ends (`Obstacles.EndsExactly`). Two steps that wait for each other are
  such a plan (`Counterexamples.CircleNeverCompletes`).
* Steps are completed after their dependencies, for every cooperative planner,
  exactly when the steps a plan calls ready to begin with have theirs met
  (`Obstacles.InOrderExactlyIfReadySound`). A plan with one step ready too early is
  completed in the wrong order (`Counterexamples.TooEarlyCompletesOutOfOrder`).
* Artifact ids of one run repeat exactly when the 32-bit counter has gone round
  and plan and step ids read the same joined by a slash
  (`DeepLoopRuns.ArtifactIdsCoincide`). A dispatch that gets so far is refused its
  own artifact (`Counterexamples.CounterGoesRound`).

## Model

| member | source | states |
|---|---|---|
| PublishOrder.ComputeOrder | ci/publish_order.py:27-60 | succeeds exactly on acyclic dependencies; the order is topological and the least such order in list comparison; otherwise the report is ascending and lists exactly the packages from which dependencies lead onto a cycle |
| PublishOrder.BuildEdges | ci/publish_order.py:27-35 | `incoming` is the dependency relation restricted to the packages being published, and `outgoing` is its exact mirror image |
| PublishOrder.AddDependencies | ci/publish_order.py:31-35 | entering one package's dependencies keeps the two edge maps mirror images and leaves every other package's dependencies alone |
| PublishOrder.ReleaseDependents | ci/publish_order.py:43-47 | after striking an emitted package, the ready list is again ascending and holds exactly the unemitted packages waiting for nothing |
| PublishOrder.EmitNext | ci/publish_order.py:40-47 | one turn emits a package never emitted before and keeps: dependencies first, no topological order beats the output, `incoming` is what is still waited for |
| PublishOrder.EmitReady | ci/publish_order.py:37-47 | the loop ends; its output is dependency-closed and unbeaten, and what it never emits is exactly what reaches a cycle |
| PublishOrder.LeastPrefixStep | ci/publish_order.py:41-42 | emitting the least package whose dependencies are out keeps the output at or below every topological order |
| PublishOrder.LeftOverReachesCycle | ci/publish_order.py:49-50 | once nothing is ready, a package is missing if and only if following its dependencies can lead onto a cycle |
| PublishOrder.CompleteOrAcyclic | ci/publish_order.py:49-50 | comparing lengths decides acyclicity: the counts agree exactly when every package was emitted, exactly when there is no cycle |
| Graphs.Trapped | ci/publish_order.py:49-50 | if every node of a finite set depends on a node of the set, each of them reaches a cycle |
| Graphs.OrderedReachesNoCycle | ci/publish_order.py:40-47 | no node of a dependencies-first list reaches a cycle |
| CanonicalJson.CanonicalExact | crates/greentic-dw-operala-invoker/src/executor.rs:53-72 | two argument values get the same cache key if and only if they are the same value up to object-key order at every depth |
| CanonicalJson.CanonicalIdempotent | crates/greentic-dw-operala-invoker/src/executor.rs:53-72 | sorting keys a second time changes nothing |
| CanonicalJson.CanonicalKeepsMeaning | crates/greentic-dw-operala-invoker/src/executor.rs:53-72 | sorting keys at every depth keeps the value's meaning and leaves strictly ascending keys everywhere |
| CanonicalJson.SortedDetermined | crates/greentic-dw-operala-invoker/src/executor.rs:53-72 | among values with sorted keys, the meaning determines the value |
| Lifecycle.DrivenOnPath | crates/greentic-dw-runtime/src/runtime.rs:169-324 | after any mix of operations and ticks, failures included, observers have seen one connected path from the initial to the current state, each edge a self-loop or a legal transition |
| Lifecycle.TickKeepsPath | crates/greentic-dw-runtime/src/runtime.rs:169-172 | a tick, whatever the engine decides, extends that path |
| Lifecycle.FinalStatesAbsorb | crates/greentic-dw-types/src/task.rs:20-49 | once observers have seen a final state, no later event shows another |
| Lifecycle.OperationEffect | crates/greentic-dw-runtime/src/runtime.rs:311-324 | an operation takes effect on envelope and observers together or not at all; only a failed save is reported after it took effect |
| Lifecycle.HookDecides | crates/greentic-dw-runtime/src/runtime.rs:311-324 | an operation is answered as blocked if and only if the pre-hook, asked first, blocks it, and as illegal if and only if the hook lets through a transition that is not allowed; either way envelope and observers are untouched, and any other operation takes effect |
| Lifecycle.DrivenLetThrough | crates/greentic-dw-pack/src/lib.rs:120-136 | over any mix of operations and ticks, every event observers see belongs to an operation the hook, asked when the events before it had been seen, let through |
| Lifecycle.BatchStopsWhereBlocked | crates/greentic-dw-runtime/src/runtime.rs:301-307 | a blocked batch stops at the very operation the hook blocked in the state reached |
| Lifecycle.TickAppliesDecision | crates/greentic-dw-runtime/src/runtime.rs:169-172 | a tick asks the engine once and applies exactly what it decided; a failing engine changes nothing but its memory |
| Lifecycle.TransitionsInWords | crates/greentic-dw-types/src/task.rs:20-49 | which transitions are legal, said by rule instead of by table |
| Lifecycle.OperationsInWords | crates/greentic-dw-core/src/lib.rs:56-71 | each operation leads to the one state named for it; stepping and observing stay put |
| Lifecycle.BatchAppliesPrefix | crates/greentic-dw-runtime/src/runtime.rs:301-307 | a batch leaves exactly a prefix applied, all of it if it succeeds; an illegal transition is the next operation tried in the state reached |
| Lifecycle.StoreFollows | crates/greentic-dw-runtime/src/runtime.rs:311-324 | the state store holds the new envelope after a success and is untouched by every kind of failure |
| Lifecycle.StoreFollowsBatch | crates/greentic-dw-runtime/src/runtime.rs:301-324 | after a batch the store agrees with the envelope unless a save failed |
| Lifecycle.DwRuntime.constructor | crates/greentic-dw-runtime/src/runtime.rs:58-69 | a new runtime has told its observers nothing |
| Lifecycle.DwRuntime.Apply | crates/greentic-dw-runtime/src/runtime.rs:311-324 | the in-place operation reaches the state, log and answer of the specification the hook, path and prefix theorems are about |
| Lifecycle.DwRuntime.ApplyAll | crates/greentic-dw-runtime/src/runtime.rs:301-307 | the batch loop reaches the state and answer of the recursive specification |
| Lifecycle.DwRuntime.TickEngine | crates/greentic-dw-runtime/src/runtime.rs:169-172 | asking the engine and applying its decision in place matches the specification of a tick |
| Planning.RecordInPlace | crates/greentic-dw-planning-llm/src/lib.rs:105-141 | the two passes over the cloned steps compute the recorded plan, for any plan, repeated ids included |
| Planning.MarkInPlace | crates/greentic-dw-planning-llm/src/lib.rs:108-114 | only the first step with the id takes the status |
| Planning.CollectStatuses | crates/greentic-dw-planning-llm/src/lib.rs:116-122 | the lookup map gives a repeated id its last status |
| Planning.RecordEffect | crates/greentic-dw-planning-llm/src/lib.rs:105-141 | for any plan and status, repeated ids included: the first step with the id takes the status, a step then pending becomes ready exactly if the last step under each of its dependencies is completed or skipped, and nothing else of the plan changes: not its id, goal, revision, criteria, edges or any other field of a step |
| Planning.RecordSettles | crates/greentic-dw-planning-llm/src/lib.rs:105-141 | with unique ids, recording a completion equals the closed form: that step completed, pending steps with every dependency met ready, nothing else moved |
| Planning.SettledTwice | crates/greentic-dw-planning-llm/src/lib.rs:105-141 | settling one set of completions and then another is settling their union |
| Planning.RecordAllSettles | crates/greentic-dw-planning-llm/src/lib.rs:105-141 | recording completions one by one reaches the closed form of their set |
| Planning.SchedulerConfluent | crates/greentic-dw-planning-llm/src/lib.rs:105-141 | neither the order in which completions arrive nor their repetition changes the plan |
| Planning.CompletionMeansAllSatisfied | crates/greentic-dw-planning-llm/src/lib.rs:148-166 | the goal counts as met if and only if every step completed or was skipped, and as unsatisfied if and only if one failed |
| Planning.NothingReadyMeansDone | crates/greentic-dw-planning-llm/src/lib.rs:124-138 | in a completable plan, no ready step means every step is satisfied |
| Planning.AcyclicPlanWaitsInLine | crates/greentic-dw-planning/src/validate.rs:54-69 | acyclic dependencies leave no pending steps waiting for each other in a circle |
| Planning.ValidatePlan | crates/greentic-dw-planning/src/validate.rs:4-72 | accepts exactly the plans with named, uniquely identified steps, known and non-self dependencies, and edges between different known steps; otherwise names the first rule broken and the ids that break it |
| Planning.FirstBroken | crates/greentic-dw-planning/src/validate.rs:4-93 | a rejected plan breaks the rule reported, with the ids reported, at the first place where any rule is broken: the plan's own names, then the steps' names, then the edges, then the dependencies |
| Planning.FaultlessIsValid | crates/greentic-dw-planning/src/validate.rs:4-72 | the ordered checks find nothing wrong with a plan if and only if it is valid |
| Planning.ValidateNames | crates/greentic-dw-planning/src/validate.rs:21-48 | the first pass accepts exactly unique, well-named steps, collects exactly their ids, and otherwise names the first rule broken |
| Planning.ValidateEdge | crates/greentic-dw-planning/src/validate.rs:74-93 | an edge is accepted exactly when it joins two different known steps, and the error names the unknown end or the loop |
| Planning.ValidateDependencies | crates/greentic-dw-planning/src/validate.rs:54-69 | a step is accepted exactly when it depends on known steps other than itself, and the error names the first dependency at fault |
| Text.BlankIsTrimmedAway | crates/greentic-dw-planning/src/validate.rs:5-9 | a text consists of white space alone if and only if trimming it leaves nothing, so the validators' `trim().is_empty()` finds exactly the missing names |
| Text.TrimStrips | crates/greentic-dw-operala-invoker/src/executor.rs:245-248 | trimming takes white space off both ends, all of it and nothing else |
| StepExecutor.ChargeWithinGrant | crates/greentic-dw-runtime/src/step_executor.rs:82-98 | a grant is six calls, or whatever is left if that is less; a charge never overdraws and saturation never loses an honestly reported call |
| StepExecutor.FreshBudget | crates/greentic-dw-runtime/src/step_executor.rs:74-80 | a fresh budget is unused and is exactly three times the iteration limit, or the counter's maximum where that would overflow |
| ToolConversation.ResolveKeepsRefinement | crates/greentic-dw-operala-invoker/src/executor.rs:135-176 | resolving a call keeps the cache equal to the successes in the log of host calls and answers as that log alone demands: with the success its tool and canonical arguments once had; otherwise, within the budget, by calling the host once with the very arguments of the call; it charges exactly when it reaches the host |
| ToolConversation.OutcomesInWords | crates/greentic-dw-operala-invoker/src/executor.rs:82-101 | what is recorded and what the model is shown of each kind of answer |
| ToolDialogue.ResolveAllTells | crates/greentic-dw-operala-invoker/src/executor.rs:265-276 | a reply's calls each get one answer, one record and one result message, in order and under their ids, and the host is called for exactly those answered by running or failing, in the memory the call before left |
| ToolDialogue.RoundSpoken | crates/greentic-dw-operala-invoker/src/executor.rs:218-277 | after a round the messages are again the dialogue its replies and answers determine, the reply as it came and a result to each of its calls |
| ToolDialogue.ConverseEnds | crates/greentic-dw-operala-invoker/src/executor.rs:209-278 | a step ends as it must: every request was the dialogue so far, offering the tools exactly while calls and rounds remained; each reply and host answer was given in the memory logged; the output is the text of the last reply, trimmed, with a record of every call |
| ToolDialogue.StepBounded | crates/greentic-dw-operala-invoker/src/executor.rs:209-278 | whatever the model answers, a step ends so within grant + 4 model calls; its host calls are at most the grant, are the records marked ok or error, and are reported exactly; the cache still refines the log |
| ToolConversation.LlmToolStepExecutor.constructor | crates/greentic-dw-operala-invoker/src/executor.rs:114-133 | a new executor's cache refines its empty log |
| ToolConversation.LlmToolStepExecutor.Resolve | crates/greentic-dw-operala-invoker/src/executor.rs:135-176 | the in-place call resolution reaches the state, outcome and count of the refinement theorem's specification |
| ToolConversation.LlmToolStepExecutor.Execute | crates/greentic-dw-operala-invoker/src/executor.rs:209-278 | the conversation loop ends and computes the conversation and the answer the theorems about steps speak of |
| DeepLoopRuns.EveryRunSound | crates/greentic-dw-runtime/src/deep_loop.rs:138-395 | for all providers: observers see a connected path to the final state, charged tool calls stay within three times the iteration limit over the whole run, artifacts are numbered in order and hold the executions' outputs, the k-th execution was shown exactly the earlier outputs, and the state a run is left in fits the status it returns |
| DeepLoopRuns.PlannerCallsBounded | crates/greentic-dw-runtime/src/deep_loop.rs:160-394 | at most one planner call per iteration, and exactly `max_iterations` of them when the budget is reported exhausted |
| DeepLoopRuns.RunKeeps | crates/greentic-dw-runtime/src/deep_loop.rs:138-395 | with an honest executor and store, also: the host calls made equal those charged, every artifact created reads back as written, and a duplicate refusal is explained |
| RunTraces.EveryRunTraced | crates/greentic-dw-runtime/src/deep_loop.rs:138-395 | every run, whatever its providers answer, keeps the loop's protocol: each call follows the one before it, with the arguments the calls before it determine, and is answered by its provider in the memory it found; the run's state is what its calls add up to; it ends as its last call demands |
| RunTraces.ReviewOutputTraced | crates/greentic-dw-runtime/src/deep_loop.rs:310-378 | what follows a step's review is what its verdict calls for, by the protocol |
| RunTraces.ExecuteBodyTraced | crates/greentic-dw-runtime/src/deep_loop.rs:267-283 | what the executor is given is what the protocol says: goal, step, its context, every output so far, the grant |
| RunTraces.HandsAsBuilt | crates/greentic-dw-runtime/src/deep_loop.rs:406-449 | a subtask goes to the first agent the delegator named unless it declined, else to the step's own, else to the default, and carries run, step and schema as named |
| RunOutcomes.ReviewsHeeded | crates/greentic-dw-runtime/src/deep_loop.rs:310-378 | over every run: a review that is no use ends it; after a valid one an accepted or retried step is recorded next; a failed one fails the task, and the run ends failed with its envelope unless the runtime refuses; one to be revised ends the run revising unless the planner refuses, and is recorded in neither case; one to be delegated is recorded only after one more subtask was started for it; the final review fails or completes the task |
| RunOutcomes.EarlierReviewsGoOn | crates/greentic-dw-runtime/src/deep_loop.rs:310-378 | every step review before another review of the run is usable and accepts, asks for a retry or delegates |
| RunOutcomes.DelegateHeeded | crates/greentic-dw-runtime/src/deep_loop.rs:343-364 | a step its review delegates: delegate chosen, subtask started with the agent chosen, and only then recorded; a refusal on the way ends the run |
| RunOutcomes.ExecutionsAsShown | crates/greentic-dw-runtime/src/deep_loop.rs:267-283 | over every run: each execution gets the plan's goal and step, the context just retrieved for it, the bodies of all earlier executions in order, and six calls or what the budget has left; the answer is the executor's own to that very request, and what is stored next is its body |
| RunOutcomes.StatusForCause | crates/greentic-dw-runtime/src/deep_loop.rs:160-394 | a run returns completed only after a final review that did not fail it, failed only after a review that failed a step or the whole or a check that found the plan unsatisfied, revising only after a review that asked for it, delegating only with subtasks out and nothing to do |
| RunOutcomes.CallsChained | crates/greentic-dw-runtime/src/deep_loop.rs:138-395 | each call of a run finds the runtime and the memory as the one before left them |
| DeepLoopRuns.RunActionActs | crates/greentic-dw-runtime/src/deep_loop.rs:230-381 | an action goes on only by recording its own step, stops only as failed or revising, and turns to the delegator only for a delegate step or verdict |
| DeepLoopRuns.RunActionKeeps | crates/greentic-dw-runtime/src/deep_loop.rs:230-381 | every action keeps the run's invariant, however it ends |
| DeepLoopRuns.ExecuteBodyKeeps | crates/greentic-dw-runtime/src/deep_loop.rs:267-283 | an execution is granted at most six calls, is charged what it made, and keeps the run's invariant |
| DeepLoopRuns.CreateOutputKeeps | crates/greentic-dw-runtime/src/deep_loop.rs:284-308 | a created artifact carries the next number and reads back as written; a refusal leaves the earlier ones readable |
| DeepLoopRuns.ArtifactIdDetermines | crates/greentic-dw-runtime/src/deep_loop.rs:287-290 | two artifact ids are equal if and only if their numbers are and plan and step read the same joined by a slash, slashes inside them included |
| DeepLoopRuns.ArtifactIdsCoincide | crates/greentic-dw-runtime/src/deep_loop.rs:145-148 | two artifacts of a run share an id exactly when their numbers agree modulo 2^32 and plan and step read the same; fewer than 2^32 apart they never do |
| DeepLoopRuns.RefusedOnlyIfTaken | crates/greentic-dw-runtime/src/deep_loop.rs:284-308 | an id is taken only if it was before the run or the counter has gone round |
| DeepLoopRuns.DelegationMediated | crates/greentic-dw-runtime/src/deep_loop.rs:245-264 | a delegate step is handed on only after the runtime allowed it and observers saw the delegation to the very agent the subtask names; a runtime refusal starts nothing |
| DeepLoopRuns.SubtaskIdsFollowSteps | crates/greentic-dw-runtime/src/deep_loop.rs:406-449 | within a task, subtask and correlation ids are equal exactly for equal step ids, whatever the delegate |
| DeepLoopCoordinator.Coordinator.constructor | crates/greentic-dw-runtime/src/deep_loop.rs:143-151 | a run begins with no subtasks, no artifacts, number zero and the whole tool budget |
| DeepLoopCoordinator.Coordinator.RunLoop | crates/greentic-dw-runtime/src/deep_loop.rs:138-395 | the nested loops end in exactly the state and status of the specification every whole-run theorem is about |
| DeepLoopCoordinator.Coordinator.IterateInPlace | crates/greentic-dw-runtime/src/deep_loop.rs:160-382 | one iteration in place: the inner loop over actions stops at the first that returns or fails |
| DeepLoopCoordinator.Coordinator.ActInPlace | crates/greentic-dw-runtime/src/deep_loop.rs:231-380 | one action in place matches its specification in state and in how it ends |
| DeepLoopCoordinator.Coordinator.PerformInPlace | crates/greentic-dw-runtime/src/deep_loop.rs:265-379 | tick, execute, store, review: the run's fields change in that order and stop where a stage fails |
| DeepLoopCoordinator.Coordinator.ExecuteInPlace | crates/greentic-dw-runtime/src/deep_loop.rs:267-283 | the executor is asked with the specified request, and budget and outputs are updated only if it succeeds |
| DeepLoopCoordinator.Coordinator.ReviewInPlace | crates/greentic-dw-runtime/src/deep_loop.rs:310-378 | each verdict leads to its own new state: record, revise and return, hand on, or fail |
| DeepLoopCoordinator.Coordinator.ReviseInPlace | crates/greentic-dw-runtime/src/deep_loop.rs:325-342 | a revision changes the plan's revision and nothing else, and ends the run |
| DeepLoopCoordinator.Coordinator.CreateInPlace | crates/greentic-dw-runtime/src/deep_loop.rs:284-308 | number and artifact list advance only when the workspace took the artifact |
| DeepLoopCoordinator.Coordinator.FinalReviewInPlace | crates/greentic-dw-runtime/src/deep_loop.rs:182-214 | the final review and the lifecycle operation it leads to |
| DeepLoopCoordinator.Coordinator.ConsultInPlace | crates/greentic-dw-runtime/src/deep_loop.rs:160-169 | context for the goal, then the planner's choice |
| DeepLoopCoordinator.Coordinator.DelegateStepInPlace | crates/greentic-dw-runtime/src/deep_loop.rs:245-264 | the runtime is asked between choosing a delegate and starting the subtask |
| DeepLoopCoordinator.Coordinator.FinishInPlace | crates/greentic-dw-runtime/src/deep_loop.rs:170-228 | with nothing to do: delegating if subtasks were emitted, else the completion check, final review and lifecycle operation decide |
| Guards.StripInPlace | crates/greentic-dw-operala-invoker/src/guards.rs:112-119 | the loop rewrites every delegate step and no other |
| Guards.StrippedHasNoDelegates | crates/greentic-dw-operala-invoker/src/guards.rs:109-119 | a delegate step becomes research of nobody's and every other field of every step and of the plan stays; a valid plan stays valid and no step becomes failed |
| Guards.GuardedVerdict | crates/greentic-dw-operala-invoker/src/guards.rs:88-107 | the guarded reviewer asks the same reviewer once and changes only a delegate verdict, into acceptance |
| Guards.BookkeepingKeepsKinds | crates/greentic-dw-operala-invoker/src/guards.rs:109-119 | recording never turns a step into a delegate step, so stripping once after planning is enough |
| Guards.DelegationOffIsAirtight | crates/greentic-dw-operala-invoker/src/guards.rs:48-119 | without delegate steps and verdicts no run calls the delegator, emits a subtask, ends delegating or fails on delegation |
| Guards.NoReflectionNoObstruction | crates/greentic-dw-operala-invoker/src/guards.rs:31-46 | with reviews accepting and no step failed, every run that does not err ends completed or out of budget |
| Progress.RecordLeavesFewer | crates/greentic-dw-planning-llm/src/lib.rs:105-141 | recording never adds steps to do, and completing a ready step takes one away |
| Progress.RecordedPlan | crates/greentic-dw-planning-llm/src/lib.rs:105-141 | whatever has been recorded, ids, kinds and dependencies are the original's, ready steps still have their dependencies met, a completable plan stays completable, and completing open steps hides no failure |
| CooperativeRuns.CooperativeRunEnds | crates/greentic-dw-runtime/src/deep_loop.rs:138-395 | delegate steps included: a cooperative run with one iteration more than steps to do stops with nothing ready, its plan the original with the recorded steps completed in dependency order, delegating if it handed a step on and otherwise with the status its plan has come to; only the workspace can stop it earlier |
| CooperativeRuns.CooperativeRunCompletes | crates/greentic-dw-runtime/src/deep_loop.rs:160-382 | a completable plan is worked to its end within one iteration more than it has steps to do: completed, or delegating exactly if a delegate step was open; every step satisfied, in dependency order if ready steps had theirs met |
| CooperativeRuns.IterationAchieves | crates/greentic-dw-runtime/src/deep_loop.rs:160-382 | every cooperative iteration ends the run, leaves it hanging with nothing ready, or leaves strictly fewer steps to do |
| CooperativeRuns.ActionsOnTrack | crates/greentic-dw-runtime/src/deep_loop.rs:230-381 | whatever open steps are picked, in whatever order or number, the plan stays the original with the recorded steps completed, in dependency order |
| CooperativeRuns.ActionRecords | crates/greentic-dw-runtime/src/deep_loop.rs:230-381 | an action of a cooperative run hands a delegate step on and leaves the task delegated, or carries the step out into exactly one artifact of its own, and records it |
| CooperativeRuns.NothingToDoTells | crates/greentic-dw-runtime/src/deep_loop.rs:170-228 | with nothing ready the run reports delegating, completed or failed as its plan stands, and otherwise goes on unchanged |
| Obstacles.EndsExactly | crates/greentic-dw-runtime/src/deep_loop.rs:138-395 | among valid plans without delegate steps, a cooperative run with one iteration more than steps to do ends completed exactly for the completable ones, failed exactly for those with a failed step, and out of budget for all others |
| Obstacles.IncompletableNeverCompletes | crates/greentic-dw-runtime/src/deep_loop.rs:170-228 | a planner that picks only ready steps never completes a plan in which a step failed or hangs, pending steps wait in a circle, or nothing is ready though a pending step could be: not with any models, reviews or budget |
| Obstacles.RecordKeepsStuck | crates/greentic-dw-planning-llm/src/lib.rs:124-138 | completing any other step leaves a circle of pending steps waiting |
| Obstacles.InOrderExactlyIfReadySound | crates/greentic-dw-runtime/src/deep_loop.rs:230-381 | if the plan's ready steps have their dependencies met, every cooperative planner, with any memory, works it in dependency order; if not, already one without memory does not |
| Obstacles.EagerRunsEarly | crates/greentic-dw-planning-llm/src/lib.rs:105-141 | a planner that picks a step ready too early first completes it before what it depends on |
| Counterexamples.CircleNeverCompletes | crates/greentic-dw-planning/src/validate.rs:54-69 | a plan of two steps that wait for each other passes validation, and every dispatch of it, with whatever iteration limit, ends out of budget |
| Counterexamples.TooEarlyCompletesOutOfOrder | crates/greentic-dw-planning/src/validate.rs:21-48 | a plan with a step ready before its dependency passes validation, and a cooperative run completes it with that step done first |
| Counterexamples.CounterGoesRound | crates/greentic-dw-runtime/src/deep_loop.rs:284-308 | a dispatch of a valid one-step plan whose planner picks the step 2^32 + 1 times in one answer is refused an artifact of its own as a duplicate |
| Dispatch.DispatchAnswered | crates/greentic-dw-operala-invoker/src/lib.rs:244-315 | every call a dispatch makes finds what the one before it left, beginning with an empty workspace and an executor that has called nothing, and is answered by the host's own model, tools and agents in the state they are in, except where a setting that is off answers for them; books, store and runtime are the worker's own |
| Dispatch.AnswersAsWired | crates/greentic-dw-operala-invoker/src/lib.rs:256-307 | as wired: the model's choice is checked against the plan, reviews and delegation go through their guards, an artifact is refused exactly if blank or taken, a step is one conversation within its grant |
| Dispatch.DispatchHeeds | crates/greentic-dw-operala-invoker/src/lib.rs:265-310 | a dispatch begins exactly if the model's plan is valid; it works on that very plan, or without delegation on it with each delegate step made the worker's own, heeds every review, and returns a status only for cause |
| Dispatch.ToolCallsConserved | crates/greentic-dw-operala-invoker/src/lib.rs:244-315 | over a whole dispatch `tool_calls_used` equals the host calls made, at most three times the iteration limit in all even in a failing run; they are made by the executions, each making at most what it was granted, never more than six, and reporting what it made, and by no other call; no call that succeeded was made again |
| Dispatch.OutputsReadBack | crates/greentic-dw-operala-invoker/src/lib.rs:108-127 | reading `output_artifact_ids` back yields what the executor answered, all of it, in the order of the executions and under their steps' titles; each execution was given the answers of those before it |
| Dispatch.NeverRefusedAsDuplicate | crates/greentic-dw-workspace-mem/src/lib.rs:73-102 | the fresh store never refuses a run's artifact as a duplicate before more than 2^32 were created |
| Dispatch.ReadBack | crates/greentic-dw-operala-invoker/src/lib.rs:109-127 | ids that are all stored read back one for one, in order |
| Dispatch.DispatchWithoutDelegation | crates/greentic-dw-operala-invoker/src/lib.rs:266-290 | with delegation off no dispatch delegates in any way; with reflection off too it ends completed or out of budget if it does not err |
| Dispatch.NoMissingStep | crates/greentic-dw-planning-llm/src/lib.rs:197-224 | the planner's check on the model's choice means no dispatch ever fails on a missing step |
| Dispatch.CooperativeDispatchEnds | crates/greentic-dw-operala-invoker/src/lib.rs:244-315 | with reflection off, a cooperative model's dispatch works every completable plan to its end, whatever the tools answer: completed, or delegating exactly if delegation is on and a delegate step was open, every step satisfied and in order; with delegation off the status is exact for every other plan too; only after 2^32 artifacts may it end otherwise, on a duplicate |
| Dispatch.WiredFramed | crates/greentic-dw-operala-invoker/src/lib.rs:256-307 | as wired, only the executor calls tools, only the loop stores artifacts, and both within what they were asked for |
| Dispatch.WiredReviewer | crates/greentic-dw-operala-invoker/src/lib.rs:277-285 | delegation off means no review delegates; reflection off means every review lets the run go on |
| Dispatch.VerdictsAreTheModels | crates/greentic-dw-operala-invoker/src/lib.rs:277-309 | every review a dispatch acts on is what the model's own reviewer says in the state it was asked in, but for a delegate verdict where delegation is off; it ends revising only if the model's last review said so, and failed only if that review failed it or the plan has a failed step; with reflection off it never revises |
| Dispatch.OwnArtifactsValid | crates/greentic-dw-workspace-mem/src/lib.rs:73-74 | the store's request check accepts every artifact a run asks for |
| WorkerTools.FromRouting | crates/greentic-dw-runtime/src/worker_tool_registry.rs:50-87 | a registry exists exactly for a non-empty list of tools with distinct ids, and otherwise the first id to repeat is named; it knows just those tools and just the routes either notation allows |
| WorkerTools.CollectTools | crates/greentic-dw-runtime/src/worker_tool_registry.rs:57-67 | the map is refused exactly on a repeated id, naming the first to repeat, and otherwise holds exactly the tools listed |
| WorkerTools.SplitsAtFirstArrow | crates/greentic-dw-runtime/src/worker_tool_registry.rs:75-79 | a textual route counts exactly if it has an arrow, and is split at the first |
| WorkerTools.RoutesFollowConfiguration | crates/greentic-dw-runtime/src/worker_tool_registry.rs:69-150 | a registry allows a route if and only if its configuration does: a listed route marked allowed with exactly these two ends, a text that splits into them, or, with no route configured at all, the coordinator as source and some callable worker's agent as target |
| WorkerTools.HandoffAuthorised | crates/greentic-dw-runtime/src/worker_tool_execution.rs:48-83 | under a configuration, a request for a tool it lists becomes a handoff if and only if no field is blank and the configuration permits the route to the tool's agent; the handoff carries the request on unchanged, and a refusal says which of the two it was |
| WorkerTools.UnknownToolRefused | crates/greentic-dw-runtime/src/worker_tool_registry.rs:101-134 | an unknown tool is named in the error exactly if the configuration lists no such tool; without a registry nothing is handed on |
| WorkerTools.HandoffFollowsConfiguration | crates/greentic-dw-runtime/src/worker_tool_registry.rs:101-134 | a handoff passes the registry's check if and only if the configuration lists its tool with its target and schema and permits its route; a refusal names the first of these to fail |
| WorkerTools.BuiltHandoffStaysValid | crates/greentic-dw-runtime/src/worker_tool_registry.rs:101-134 | a handoff that could be built passes the registry's check again later |
| WorkerTools.ValidResultMirrors | crates/greentic-dw-runtime/src/worker_tool_execution.rs:85-136 | a result is accepted if and only if it is filled in and every identifying field mirrors its handoff, source and target swapped |
| WorkerTools.ResultFaultIsFirst | crates/greentic-dw-runtime/src/worker_tool_execution.rs:85-136 | a result is refused for a blank field, or for the first identifying field that differs |
| WorkerTools.ComposeFinalResponse | crates/greentic-dw-runtime/src/final_response.rs:45-96 | composes exactly when there is content, the expected finalizer, every pair valid and no subtask twice; sources are the results in order; an error is exactly the one for the first thing wrong, finalizers and subtask named |
| WorkerTools.OnlyRepeatsAtFault | crates/greentic-dw-runtime/src/final_response.rs:71-88 | among pairs that pass both checks only a subtask that occurs again is at fault, and the first to do so is named |
| WorkerTools.FinalizerFollowsConfiguration | crates/greentic-dw-runtime/src/final_response.rs:45-70 | the finalizer expected is the one the configuration names, else its coordinator; an unexpected one is answered with it |
| CoordinatorFlow.CoordinatorRuntime.RunFlow | crates/greentic-dw-runtime/src/coordinator_flow.rs:69-151 | succeeds exactly when the request is sound, every call is answered validly and the response can be composed; then calls, handoffs, results and sources correspond one to one in order with distinct tools, each handoff permitted by the configuration and each delegator and worker asked in turn, and observers are told started (handoff result)^n final completed; a failure tells a proper prefix of that word and reports what went wrong first |
| CoordinatorFlow.CoordinatorRuntime.RunCalls | crates/greentic-dw-runtime/src/coordinator_flow.rs:85-150 | the loop over the calls of a sound request gathers one authorised handoff and one mirroring result per call, in order |
| CoordinatorFlow.CoordinatorRuntime.RunCall | crates/greentic-dw-runtime/src/coordinator_flow.rs:95-127 | one call: the handoff event only after the delegator accepted, the result event only after the result was found to mirror the handoff |
| CoordinatorFlow.CoordinatorRuntime.StartHandoff | crates/greentic-dw-runtime/src/worker_tool_execution.rs:48-83 | the delegator is asked exactly for authorised handoffs, and nothing but its memory changes |
| CoordinatorFlow.CoordinatorRuntime.Conclude | crates/greentic-dw-runtime/src/coordinator_flow.rs:129-150 | once every result is in, only missing content, the wrong finalizer or a tool called twice can fail the run: never the checks composition makes again |
| CoordinatorFlow.CallTells | crates/greentic-dw-runtime/src/coordinator_flow.rs:95-127 | a call is answered exactly if its handoff is authorised, the delegator takes it, the worker answers and the answer mirrors the handoff; otherwise the first of these to fail is the error and nobody after it was asked |
| CoordinatorFlow.AnsweredOneByOne | crates/greentic-dw-runtime/src/coordinator_flow.rs:85-127 | all calls are answered exactly if each is, in the memory those before it left |
| CoordinatorFlow.AnswersInTurn | crates/greentic-dw-runtime/src/coordinator_flow.rs:85-127 | the handoffs and results gathered are what delegator and workers answered when asked one after another |
| CoordinatorFlow.GatheredPairsValid | crates/greentic-dw-runtime/src/final_response.rs:71-82 | every gathered pair passes composition's checks, and subtasks repeat exactly when tools do |
| CoordinatorFlow.CorrelationIdsDistinct | crates/greentic-dw-runtime/src/coordinator_flow.rs:99-99 | correlation ids are equal only for the same tool at the same index, whatever the tools are called |
| CoordinatorFlow.SubtaskIdsFollowTools | crates/greentic-dw-runtime/src/worker_tool_execution.rs:61-61 | within a run, subtask ids are equal exactly for equal tool ids |
| CoordinatorFlow.CutShort | crates/greentic-dw-runtime/src/coordinator_flow.rs:85-144 | stopping before, or just after, any handoff event leaves a proper prefix of the whole word |
| BundlePlan.ToBundlePlan | crates/greentic-dw-types/src/bundle_plan.rs:94-201 | a plan exists exactly when the source reference can be read; its references are the merged ones, its inclusions mirror them field by field, application first, then providers, then support packs, and no two share an id |
| BundlePlan.MergeDependencies | crates/greentic-dw-types/src/bundle_plan.rs:113-165 | one reference per pack, strictly ascending by id, its agents the strictly sorted union over all its entries, the rest from the first entry |
| BundlePlan.MergeTables | crates/greentic-dw-types/src/bundle_plan.rs:121-162 | repeated extend, sort and dedup builds the table of unions, provider and support packs apart |
| BundlePlan.AgentsAreNamed | crates/greentic-dw-types/src/bundle_plan.rs:135-139 | an agent is listed for a pack if and only if some entry for the pack names it |
| BundlePlan.PacksAreListed | crates/greentic-dw-types/src/bundle_plan.rs:121-162 | a pack is referenced if and only if it has an entry of that kind |
| BundlePlan.FirstEntryIsFirst | crates/greentic-dw-types/src/bundle_plan.rs:121-162 | the entry that gives a pack its source, version and provider is the one no other entry for it precedes |
| BundlePlan.LastRationaleCounts | crates/greentic-dw-types/src/bundle_plan.rs:115-119 | a support pack's rationale is the one the last entry under its id gives |
| BundlePlan.InclusionsMirror | crates/greentic-dw-types/src/bundle_plan.rs:167-191 | inclusions field by field: id, pack, kind, resolution, agents and rationale are those of the reference they stand for |
| BundlePlan.MergeOrderIrrelevant | crates/greentic-dw-types/src/bundle_plan.rs:113-165 | if a pack's entries agree but for their agents, neither their order nor their repetition changes the references |
| BundlePlan.PlanOrderIrrelevant | crates/greentic-dw-types/src/bundle_plan.rs:94-201 | two orders of entries that agree but for their agents give one and the same plan, inclusions included |
| BundlePlan.InclusionsDistinct | crates/greentic-dw-types/src/bundle_plan.rs:167-191 | inclusion ids of packs with distinct ids never coincide, across kinds included |
| Text.SortedUniqueIsSet | crates/greentic-dw-types/src/bundle_plan.rs:204-208 | sorting and dropping adjacent repeats gives the one strictly ascending list of the elements |
| Text.DecimalReads | crates/greentic-dw-runtime/src/deep_loop.rs:287-290 | the printed artifact number is the decimal numeral of the number, without leading zeros |
| Text.NumberedSuffix | crates/greentic-dw-runtime/src/deep_loop.rs:287-290 | a text ending in a separator and a decimal number determines both the number and what stands before it |

## Left out

- The `cargo metadata` call, the filter on publishable packages and the printing of `ci/publish_order.py`; packages are given by name with their dependency names.
- Prompt texts, model replies as JSON text and their extraction, sampling settings, the LLM itself: a provider's answer is arbitrary.
- Printing JSON: `render` and `show` are arbitrary functions, the latter standing for printing and `truncate_marked` together; a cache key holds the canonical value instead of its text, the printer being taken as injective; JSON numbers are tokens.
- Mutex poisoning, Tokio, blocking threads: a run is sequential, and the only source of a poisoned lock is a panic.
- DeepLoopRuns.ArtifactIdsCoincide: the artifact counter wraps at 2^32, as in a release build; a debug build would stop with an overflow panic instead.
- The counters `used` and `rounds` of a conversation are unbounded; they are proved to stay within the grant and the round limit, so they cannot overflow where these fit the machine word. The saturating operators are modelled at 64 bits.
- The wording of error messages, which field of a handoff or result was blank, and the two values of a mismatch between them; which check failed is kept.
- Control hooks are one pre hook that may block and one post hook; observers are the log of events. What the hooks are told besides the envelope and the event is left out.
- The range check of review scores is one boolean with the outcome; scores, findings and suggested actions are left out, as are plan metadata, assumptions, risks, retry counts and delegation rationales.
- Artifact kinds, mime types, team and agent scope, versions, checksums, clocks, provenance and links; updating, listing and linking artifacts, since no run does so.
- `to_application_pack_spec` and reading a source reference are inputs of the bundle planner.
- `merge_result`, context compression and summaries, memory and capability dispatch, `load_state`: no modelled flow calls them.
- The observer events of the coordinator flow are kept apart from the lifecycle log: they are synthetic and show no transition.
- `synthesize_reply` and `outcome_from_run`: sentences about a finished run.
- NATS, HTTP and OCI plumbing, the command line, the wizard, pack building, schema export, manifest validation: I/O around the modelled core.
