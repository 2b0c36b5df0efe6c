/** The task state machine (core/models.py) and what running out of something
    looks like (core/errors.py). */
module Tasks {
  datatype TaskState =
    | Created
    | Planning
    | AwaitingApproval
    | Executing
    | Verifying
    | RollingBack
    | Completed
    | Failed
    | Cancelled

  predicate Terminal(s: TaskState) {
    s in {Completed, Failed, Cancelled}
  }

  /** `TASK_TRANSITIONS`. */
  function Targets(s: TaskState): set<TaskState> {
    match s
    case Created => {Planning, Cancelled, Failed}
    case Planning => {Executing, AwaitingApproval, Completed, Failed, Cancelled}
    case AwaitingApproval => {Executing, Planning, Failed, Cancelled}
    case Executing => {Verifying, AwaitingApproval, Planning, RollingBack, Failed, Cancelled}
    case Verifying => {Executing, Planning, Completed, RollingBack, Failed, Cancelled}
    case RollingBack => {Failed, Completed, Cancelled}
    case Completed => {}
    case Failed => {}
    case Cancelled => {}
  }

  predicate CanTransition(current: TaskState, target: TaskState) {
    target in Targets(current)
  }

  datatype Limit = TimeLimit | StepLimit | ModelCallLimit | FailureLimit | ReplanLimit

  /** The raised errors the orchestrator tells apart. */
  datatype Error = LimitExceeded(limit: Limit) | ProviderError | OtherError | InvalidStateTransition

  /** Raised by an agent, a tool or storage. */
  predicate FromOutside(e: Error) {
    e == ProviderError || e == OtherError
  }

  /** A call that returns nothing, or raises. */
  datatype Check = Pass | Raise(error: Error) {
    predicate IsFailure() { Raise? }
    function PropagateFailure(): Check requires Raise? { this }
  }

  /** A call that returns a value, or raises. */
  datatype Reply<+T> = Answer(value: T) | Raised(error: Error)

  /** A walk from CREATED along legal transitions. */
  predicate LegalPath(visited: seq<TaskState>) {
    && visited != []
    && visited[0] == Created
    && forall i :: 0 <= i < |visited| - 1 ==> CanTransition(visited[i], visited[i + 1])
  }

  /** A task ends once: a terminal state can only be the last one visited. */
  lemma TerminalIsLast(visited: seq<TaskState>, i: nat)
    requires LegalPath(visited) && i < |visited| && Terminal(visited[i])
    ensures i == |visited| - 1
  {
    assert i < |visited| - 1 ==> CanTransition(visited[i], visited[i + 1]);
  }

  class Task {
    var state: TaskState
    var replanCount: nat
    var modelCalls: nat
    ghost var visited: seq<TaskState>

    ghost predicate Valid()
      reads this
    {
      LegalPath(visited) && state == visited[|visited| - 1]
    }

    constructor ()
      ensures Valid() && state == Created && replanCount == 0 && modelCalls == 0
    {
      state, replanCount, modelCalls, visited := Created, 0, 0, [Created];
    }

    /** `transition_to`: staying put is allowed, an illegal move raises. */
    method TransitionTo(target: TaskState) returns (c: Check)
      requires Valid()
      modifies this`state, this`visited
      ensures Valid()
      ensures c.Pass? <==> target == old(state) || CanTransition(old(state), target)
      ensures c.Pass? ==> state == target
      ensures visited == if c.Pass? && target != old(state) then old(visited) + [target] else old(visited)
      ensures c.Raise? ==> c.error == InvalidStateTransition && state == old(state)
    {
      if target == state {
        return Pass;
      }
      if !CanTransition(state, target) {
        return Raise(InvalidStateTransition);
      }
      state := target;
      visited := visited + [target];
      return Pass;
    }
  }
}
