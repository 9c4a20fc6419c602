/** The stage enumeration shared by every task document (Xenon's TaskState.TaskStage). */
module TaskStages {

  datatype TaskStage = CREATED | STARTED | FINISHED | FAILED | CANCELLED

  /** The terminal stages: TaskUtils.finalTaskStages. */
  predicate IsFinalStage(stage: TaskStage) {
    stage == FINISHED || stage == FAILED || stage == CANCELLED
  }
}
