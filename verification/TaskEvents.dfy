/** The events a task is announced by (core/enums.py, brain/orchestrator.py). */
module TaskEvents {
  /** The task events of a run, in order of publication. */
  datatype TaskEvent =
    | TaskCreated
    | PlanCreated
    | PlanRejected
    | PlanApproved
    | RollbackStarted
    | RollbackCompleted(attempted: nat, succeeded: nat)
    | TaskCompleted
    | TaskFailed

  predicate Closing(e: TaskEvent) {
    e == TaskCompleted || e == TaskFailed
  }

  predicate NoneClosing(events: seq<TaskEvent>) {
    forall i :: 0 <= i < |events| ==> !Closing(events[i])
  }

  /** Exactly one closing event, and nothing after it. */
  predicate ClosedOnce(events: seq<TaskEvent>) {
    events != [] && Closing(events[|events| - 1]) && NoneClosing(events[..|events| - 1])
  }
}
