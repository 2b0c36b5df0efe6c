/** Execution budgets (brain/limits.py). */
module Limits {
  import opened Tasks

  /** How many failures the results end with. */
  function Trailing(results: seq<bool>): nat {
    if results == [] || results[|results| - 1] then 0 else 1 + Trailing(results[..|results| - 1])
  }

  /** `Trailing` is the longest run of failures at the end. */
  lemma {:induction false} TrailingIsTheRun(results: seq<bool>)
    ensures Trailing(results) <= |results|
    ensures forall i :: |results| - Trailing(results) <= i < |results| ==> !results[i]
    ensures Trailing(results) < |results| ==> results[|results| - Trailing(results) - 1]
  {
    if results != [] && !results[|results| - 1] {
      TrailingIsTheRun(results[..|results| - 1]);
    }
  }

  datatype Limits = Limits(
    maxPlanSteps: nat, maxReplans: nat, maxTaskSeconds: real, maxFailures: nat, maxModelCalls: nat)

  /** The first of the counting budgets a step would overrun, in checking order. */
  function Exhausted(l: Limits, steps: nat, calls: nat, failures: nat): (hit: set<Limit>)
    ensures |hit| <= 1
  {
    if steps >= l.maxPlanSteps then {StepLimit}
    else if calls >= l.maxModelCalls then {ModelCallLimit}
    else if failures >= l.maxFailures then {FailureLimit}
    else {}
  }

  class TaskBudget {
    const limits: Limits
    const startedAt: real
    var stepsExecuted: nat
    var replans: nat
    var consecutiveFailures: nat
    var modelCalls: nat
    ghost var results: seq<bool>  // of every step recorded, in order

    ghost predicate Valid()
      reads this
    {
      stepsExecuted == |results| && consecutiveFailures == Trailing(results)
    }

    constructor (limits: Limits, now: real)
      ensures Valid() && this.limits == limits && startedAt == now
      ensures replans == 0 && modelCalls == 0 && results == []
    {
      this.limits, startedAt := limits, now;
      stepsExecuted, replans, consecutiveFailures, modelCalls, results := 0, 0, 0, 0, [];
    }

    method CheckTime(now: real) returns (c: Check)
      ensures c == if now - startedAt >= limits.maxTaskSeconds then Raise(LimitExceeded(TimeLimit)) else Pass
    {
      if now - startedAt >= limits.maxTaskSeconds {
        return Raise(LimitExceeded(TimeLimit));
      }
      return Pass;
    }

    method CheckSteps() returns (c: Check)
      ensures c == if stepsExecuted >= limits.maxPlanSteps then Raise(LimitExceeded(StepLimit)) else Pass
    {
      if stepsExecuted >= limits.maxPlanSteps {
        return Raise(LimitExceeded(StepLimit));
      }
      return Pass;
    }

    method CheckModelCalls() returns (c: Check)
      ensures c == if modelCalls >= limits.maxModelCalls then Raise(LimitExceeded(ModelCallLimit)) else Pass
    {
      if modelCalls >= limits.maxModelCalls {
        return Raise(LimitExceeded(ModelCallLimit));
      }
      return Pass;
    }

    method CheckFailures() returns (c: Check)
      ensures c == if consecutiveFailures >= limits.maxFailures then Raise(LimitExceeded(FailureLimit)) else Pass
    {
      if consecutiveFailures >= limits.maxFailures {
        return Raise(LimitExceeded(FailureLimit));
      }
      return Pass;
    }

    method CheckReplans() returns (c: Check)
      ensures c == if replans >= limits.maxReplans then Raise(LimitExceeded(ReplanLimit)) else Pass
    {
      if replans >= limits.maxReplans {
        return Raise(LimitExceeded(ReplanLimit));
      }
      return Pass;
    }

    /** Time first, then the counting budgets in order. */
    method CheckAll(now: real) returns (c: Check)
      requires Valid()
      ensures c.Pass? ==> Exhausted(limits, |results|, modelCalls, Trailing(results)) == {}
      ensures c.Raise? ==>
                c.error.LimitExceeded? &&
                (c.error.limit == TimeLimit
                 || {c.error.limit} == Exhausted(limits, |results|, modelCalls, Trailing(results)))
      ensures c == Raise(LimitExceeded(TimeLimit)) <==> now - startedAt >= limits.maxTaskSeconds
      ensures now - startedAt < limits.maxTaskSeconds ==>
                c == if |results| >= limits.maxPlanSteps then Raise(LimitExceeded(StepLimit))
                     else if modelCalls >= limits.maxModelCalls then Raise(LimitExceeded(ModelCallLimit))
                     else if Trailing(results) >= limits.maxFailures then Raise(LimitExceeded(FailureLimit))
                     else Pass
    {
      c := Pass;
      :- CheckTime(now);
      :- CheckSteps();
      :- CheckModelCalls();
      :- CheckFailures();
    }

    method RecordStep(success: bool)
      requires Valid()
      modifies this`stepsExecuted, this`consecutiveFailures, this`results
      ensures Valid() && results == old(results) + [success]
    {
      stepsExecuted := stepsExecuted + 1;
      consecutiveFailures := if success then 0 else consecutiveFailures + 1;
      results := results + [success];
      assert results[..|results| - 1] == old(results);
    }

    method RecordModelCall()
      modifies this`modelCalls
      ensures modelCalls == old(modelCalls) + 1
    {
      modelCalls := modelCalls + 1;
    }

    method RecordReplan()
      modifies this`replans
      ensures replans == old(replans) + 1
    {
      replans := replans + 1;
    }
  }
}
