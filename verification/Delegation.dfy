/** Subtask handoffs and their results, as delegators and worker tools exchange them. */
module Delegation {
  import opened Wrappers
  import opened Text

  datatype DelegationMode = NoDelegation | Single | Parallel | MapReduce

  datatype MergePolicy = FirstSuccess | CollectAllResults | MajorityVote | WeightedMerge | ReducerArtifact

  datatype DelegationDecision = DelegationDecision(mode: DelegationMode, targetAgents: seq<string>,
      mergePolicy: MergePolicy)

  datatype HandoffContextScope = ExplicitPackageOnly | ParentTaskOnly | SharedMemoryAndArtifacts

  datatype HandoffReturnPolicy = Sync | FirstReturn | CollectAll | Async

  datatype SubtaskEnvelope = SubtaskEnvelope(
    subtaskId: string, parentRunId: string, correlationId: string, sourceAgentId: string, targetAgent: string,
    toolId: string, goal: string, contextPackageRef: string, contextScope: HandoffContextScope,
    expectedOutputSchema: string, permissionsProfile: string, deadline: string, returnPolicy: HandoffReturnPolicy)

  datatype SubtaskResultEnvelope = SubtaskResultEnvelope(
    subtaskId: string, correlationId: string, sourceAgentId: string, targetAgentId: string, toolId: string,
    status: string, outputArtifactRef: string, outputSchemaRef: string)

  predicate NoneBlank(fields: seq<string>) {
    forall f :: f in fields ==> !Blank(f)
  }

  // Every text field of a handoff is filled in.
  predicate FilledHandoff(e: SubtaskEnvelope) {
    NoneBlank([e.subtaskId, e.parentRunId, e.correlationId, e.sourceAgentId, e.targetAgent, e.toolId, e.goal,
               e.contextPackageRef, e.expectedOutputSchema, e.permissionsProfile, e.deadline])
  }

  predicate FilledResult(r: SubtaskResultEnvelope) {
    NoneBlank([r.subtaskId, r.correlationId, r.sourceAgentId, r.targetAgentId, r.toolId, r.status,
               r.outputArtifactRef, r.outputSchemaRef])
  }
}
