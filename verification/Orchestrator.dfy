/** The orchestration loop: plan, review, execute, verify, then replan, recover or
    conclude (brain/orchestrator.py). Agents, clock and tools are adversaries:
    any of them may answer anything or raise. */
module Orchestrator {
  import opened Common
  import opened Risk
  import opened TaskEvents
  import opened Tasks
  import opened Limits
  import opened Cycles
  import opened Tallies
  import opened Launches
  import opened Agents
  import R = Registry
  import P = Protocol
  import T = ProtocolTheorems
  import E = Executor

  /** `TaskOutcome`, with the record of the run beside it. */
  class TaskOutcome {
    var succeeded: bool
    var stoppedBecause: Option<Error>
    var executed: nat
    var events: seq<TaskEvent>
    ghost var asks: nat                   // agent turns attempted
    ghost var cycles: seq<Cycle>
    ghost var recovery: Option<Recovery>
    ghost var heard: Answers              // what the agents answered
    ghost var launched: seq<Launch>       // calls handed to the executor
    ghost var ran: seq<Ran>               // steps that came back, in order
    ghost const known: set<P.CallId>      // calls of the task that were there before the run
    ghost const before: seq<P.CallId>     // calls handed over before the run

    constructor (ghost known: set<P.CallId>, ghost before: seq<P.CallId>)
      ensures !succeeded && stoppedBecause == None && executed == 0 && events == []
      ensures asks == 0 && cycles == [] && recovery == None && launched == [] && ran == []
      ensures heard == NOTHING && this.known == known && this.before == before
    {
      succeeded, stoppedBecause, executed, events := false, None, 0, [];
      asks, cycles, recovery, heard, launched, ran := 0, [], None, NOTHING, [], [];
      this.known, this.before := known, before;
    }

    method Publish(e: TaskEvent)
      modifies this`events
      ensures events == old(events) + [e]
    {
      events := events + [e];
    }
  }

  /** One turn of the step loop: stopped by a budget, broken off by an exception,
      or through. */
  datatype Turn = Stopped(limit: Limit, elapsed: real) | Broke(error: Error, call: P.CallId) | Through(ran: Ran)

  /** The call was submitted for a step that an approved review allowed or that Mahesh
      proposed, under the limits of the objective. */
  ghost predicate CallIsSanctioned(procs: Procs, heard: Answers, c: P.CallId, obj: Objective) {
    c in procs && exists step :: Sanctioned(heard, step) && JobFor(procs[c].call.job, step, obj)
  }

  lemma NewCallsAreSanctioned(
      l: Limits, procs: Procs, known: set<P.CallId>, launched: seq<Launch>, ran: seq<Ran>, obj: Objective,
      heard: Answers, cycles: seq<Cycle>, recovery: Option<Recovery>)
    requires Accounted(procs, known, launched, ran, obj)
    requires launched == Attempts(cycles) + RecoveryAttempts(recovery)
    requires Admissible(l, cycles) && Obeyed(l, heard, cycles, PlansOf(recovery))
    requires recovery.Some? ==> RecoveryOk(l, Results(cycles), Clock(cycles), recovery.value)
    ensures |P.CallsUnder(procs, obj.task) - known| == |launched|
    ensures forall c :: c in P.CallsUnder(procs, obj.task) - known ==> CallIsSanctioned(procs, heard, c, obj)
  {
    hide Admissible, Obeyed, Sanctioned, Accounted, RecoveryOk, P.CallsUnder;
    StepsAreSanctioned(l, heard, cycles, recovery);
    NewCallsAreLaunched(procs, known, launched, ran, obj);
    forall c | c in P.CallsUnder(procs, obj.task) - known ensures CallIsSanctioned(procs, heard, c, obj) {
      var x :| x in launched && x.call == c && JobFor(procs[c].call.job, x.step, obj);
      assert Sanctioned(heard, x.step);
    }
  }

  class Orchestrator {
    const limits: Limits
    const executor: E.ToolExecutor
    var clock: real

    constructor (limits: Limits, executor: E.ToolExecutor)
      ensures this.limits == limits && this.executor == executor
    {
      this.limits, this.executor, clock := limits, executor, 0.0;
    }

    /** Task and budget count the same things. */
    ghost predicate Agreed(task: Task, budget: TaskBudget)
      reads task, budget
    {
      && task.Valid() && budget.Valid()
      && budget.limits == limits
      && budget.modelCalls == task.modelCalls
      && budget.replans == task.replanCount
    }

    /** The record of the run is true of the calls it made, and it made no others. */
    ghost predicate Recorded(out: TaskOutcome, obj: Objective)
      reads out`launched, out`ran, executor`procs, executor`handed
    {
      && Accounted(executor.procs, out.known, out.launched, out.ran, obj)
      && HandedOver(executor.handed, out.before, out.launched)
    }

    /** Seconds since the run began. */
    ghost function Elapsed(budget: TaskBudget): real
      reads this`clock
    {
      clock - budget.startedAt
    }

    /** No reading in the record is ahead of the clock. */
    ghost predicate OnTime(budget: TaskBudget, out: TaskOutcome)
      reads this`clock, out`cycles, out`recovery
    {
      && Clock(out.cycles) <= Elapsed(budget) && 0.0 <= Elapsed(budget)
      && (out.recovery.Some? && out.recovery.value.cut.OutOfBudget? ==>
            out.recovery.value.cut.elapsed <= Elapsed(budget))
    }

    /** What holds between any two statements of a run. */
    ghost predicate Consistent(task: Task, budget: TaskBudget, out: TaskOutcome, obj: Objective)
      reads this`clock, task, budget, out`launched, out`ran, out`cycles, out`recovery
      reads executor, executor.approvals, executor.audit
    {
      Agreed(task, budget) && executor.Valid() && Recorded(out, obj) && OnTime(budget, out)
    }

    /** An exception that leaves the loop is someone else's, or names a budget that
        is exhausted. */
    ghost predicate Justified(e: Error, budget: TaskBudget)
      reads this`clock, budget
    {
      match e
      case LimitExceeded(TimeLimit) => clock - budget.startedAt >= limits.maxTaskSeconds
      case LimitExceeded(ModelCallLimit) => budget.modelCalls >= limits.maxModelCalls
      case LimitExceeded(ReplanLimit) => budget.replans >= limits.maxReplans
      case _ => FromOutside(e)
    }

    /** The clock only moves forward; how far is anyone's choice. */
    method Now() returns (t: real)
      modifies this`clock
      ensures t == clock && clock >= old(clock)
    {
      var d: real := *;
      if d > 0.0 {
        clock := clock + d;
      }
      t := clock;
    }

    /** Any deliberate error but an illegal transition, which only the task raises. */
    method AnyError() returns (e: Error)
      ensures FromOutside(e)
    {
      var provider: bool := *;
      e := if provider then ProviderError else OtherError;
    }

    // ---- the agents: any answer; a turn is what the budget calls an inference

    method Ask(task: Task, out: TaskOutcome) returns (r: Reply<()>)
      modifies task`modelCalls, out`asks
      ensures out.asks == old(out.asks) + 1
      ensures task.modelCalls == old(task.modelCalls) + if r.Answer? then 1 else 0
      ensures r.Raised? ==> FromOutside(r.error)
    {
      out.asks := out.asks + 1;
      var fails: bool := *;
      if fails {
        var e := AnyError();
        return Raised(e);
      }
      task.modelCalls := task.modelCalls + 1;
      return Answer(());
    }

    method BrahmaPlan(out: TaskOutcome) returns (proposal: seq<PlanStep>)
      modifies out`heard
      ensures out.heard == old(out.heard).(proposals := old(out.heard).proposals + [proposal])
    {
      proposal := *;
      out.heard := out.heard.(proposals := out.heard.proposals + [proposal]);
    }

    method VishnuReview(out: TaskOutcome, plan: seq<PlanStep>) returns (answer: Review)
      modifies out`heard
      ensures out.heard == old(out.heard).(reviews := old(out.heard).reviews + [Reviewing(plan, answer)])
    {
      answer := *;
      out.heard := out.heard.(reviews := out.heard.reviews + [Reviewing(plan, answer)]);
    }

    method VishnuVerify(out: TaskOutcome) returns (v: Verdict)
      modifies out`heard
      ensures out.heard == old(out.heard).(verdicts := old(out.heard).verdicts + [v])
    {
      v := *;
      out.heard := out.heard.(verdicts := out.heard.verdicts + [v]);
    }

    method MaheshRecover(out: TaskOutcome) returns (steps: seq<PlanStep>)
      modifies out`heard
      ensures out.heard == old(out.heard).(recoveries := old(out.heard).recoveries + [steps])
    {
      steps := *;
      out.heard := out.heard.(recoveries := out.heard.recoveries + [steps]);
    }

    // ---- steps

    /** `_execute_step`: one call, under the limits of the objective. */
    method ExecuteStep(task: Task, budget: TaskBudget, step: PlanStep, out: TaskOutcome, obj: Objective)
      returns (r: Reply<E.Outcome>, c: P.CallId)
      requires Consistent(task, budget, out, obj)
      modifies out`executed, out`launched, executor, executor.approvals, executor.audit
      ensures Consistent(task, budget, out, obj)
      ensures out.launched == old(out.launched) + [Launch(c, step)] && c !in old(executor.procs)
      ensures c in executor.procs
      ensures var job := executor.procs[c].call.job;
              && job.tool == step.tool && job.arguments == step.arguments && job.declaredRisk == step.expectedRisk
              && job.task == obj.task && job.maxRisk == obj.maxRisk && job.dryRun == obj.dryRun
      ensures r.Answer? ==> EndedAs(executor.procs, c, step, obj, r.value.success, r.value.denied)
      ensures old(out.executed) <= out.executed <= old(out.executed) + 1
      ensures r.Answer? ==> out.executed == old(out.executed) + 1
      ensures r.Raised? ==> FromOutside(r.error)
    {
      c := executor.FreshCallId();
      ghost var before, procs, handed := executor.actions, executor.procs, executor.handed;
      var result := executor.Execute(c, JobOf(step, obj));
      T.JobsPersist(executor.Cfg(), before, executor.actions);
      T.DonePersists(executor.Cfg(), before, executor.actions);
      LaunchIsAccounted(procs, executor.procs, out.known, out.launched, out.ran, obj, Launch(c, step));
      HandingOver(handed, out.before, out.launched, Launch(c, step));
      out.launched := out.launched + [Launch(c, step)];
      if result.Err? {
        return Raised(OtherError), c;
      }
      out.executed := out.executed + 1;
      var forgets: bool := *;  // episodic memory may refuse the observation
      if forgets {
        return Raised(OtherError), c;
      }
      return Answer(result.value), c;
    }

    /** What a step came to joins the record. */
    ghost method RecordStep(
        task: Task, budget: TaskBudget, out: TaskOutcome, obj: Objective, x: Ran)
      requires Consistent(task, budget, out, obj) && Faithful(executor.procs, x, obj)
      requires |out.launched| == |out.ran| + 1 && out.launched[|out.ran|] == Launch(x.call, x.step)
      modifies out`ran
      ensures Consistent(task, budget, out, obj) && out.ran == old(out.ran) + [x]
    {
      LineIsAccounted(executor.procs, out.known, out.launched, out.ran, obj, x);
      out.ran := out.ran + [x];
    }

    /** Check every budget, execute, record. */
    method TakeStep(task: Task, budget: TaskBudget, step: PlanStep, out: TaskOutcome, obj: Objective)
      returns (turn: Turn)
      requires Consistent(task, budget, out, obj) && |out.launched| == |out.ran|
      modifies this`clock, budget`stepsExecuted, budget`consecutiveFailures, budget`results
      modifies out`executed, out`launched, out`ran, out`stoppedBecause, executor, executor.approvals, executor.audit
      ensures Consistent(task, budget, out, obj) && clock >= old(clock)
      ensures var hit := BudgetHit(limits, old(budget.results), budget.modelCalls);
              match turn
              case Stopped(limit, elapsed) =>
                && elapsed == Elapsed(budget) && (limit == TimeLimit <==> elapsed >= limits.maxTaskSeconds)
                && (limit != TimeLimit ==> hit == {limit})
                && budget.results == old(budget.results)
                && out.launched == old(out.launched) && out.ran == old(out.ran)
              case Broke(error, call) =>
                && hit == {} && FromOutside(error)
                && budget.results == old(budget.results)
                && out.launched == old(out.launched) + [Launch(call, step)] && out.ran == old(out.ran)
              case Through(x) =>
                && hit == {} && x.step == step && (x.denied ==> !x.success)
                && x.elapsed == Elapsed(budget) < limits.maxTaskSeconds
                && x.call !in old(executor.procs) && Faithful(executor.procs, x, obj)
                && budget.results == old(budget.results) + [x.success]
                && out.launched == old(out.launched) + [Launch(x.call, step)] && out.ran == old(out.ran) + [x]
    {
      hide P.Run, P.CallsUnder, Trailing, Exhausted, Accounted, HandedOver, Clock, LegalPath;
      var now := Now();
      var check := budget.CheckAll(now);
      if check.Raise? {
        out.stoppedBecause := Some(check.error);
        return Stopped(check.error.limit, now - budget.startedAt);
      }
      var result, c := ExecuteStep(task, budget, step, out, obj);
      if result.Raised? {
        return Broke(result.error, c);
      }
      budget.RecordStep(result.value.success);
      var x := Ran(step, c, result.value.success, result.value.denied, now - budget.startedAt);
      RecordStep(task, budget, out, obj, x);
      return Through(x);
    }

    lemma NewLinesAreTrue(out: TaskOutcome, obj: Objective, past: seq<Ran>, ran: seq<Ran>)
      requires Recorded(out, obj) && out.ran == past + ran
      ensures forall k :: 0 <= k < |ran| ==> Faithful(executor.procs, ran[k], obj)
    {
      NewLinesAreFaithful(executor.procs, out.known, out.launched, past, ran, obj);
    }

    /** The next step of the plan, and what it makes of the cycle so far. */
    method TakePlanStep(
        task: Task, budget: TaskBudget, out: TaskOutcome, obj: Objective, plan: seq<PlanStep>, ran: seq<Ran>,
        ghost prior: seq<bool>, ghost calls: nat, ghost from: real)
      returns (turn: Turn)
      requires Consistent(task, budget, out, obj) && |out.launched| == |out.ran|
      requires |ran| < |plan| && Progress(limits, prior, calls + 2, from, plan, ran)
      requires 0.0 <= from < limits.maxTaskSeconds && LastRan(from, ran) <= Elapsed(budget)
      requires budget.results == prior + Successes(ran) && budget.modelCalls == calls + 2 && calls < limits.maxModelCalls
      modifies this`clock, budget`stepsExecuted, budget`consecutiveFailures, budget`results
      modifies out`executed, out`launched, out`ran, out`stoppedBecause, executor, executor.approvals, executor.audit
      ensures Consistent(task, budget, out, obj)
      ensures match turn
              case Stopped(limit, elapsed) =>
                && budget.results == old(budget.results) && elapsed == Elapsed(budget)
                && out.launched == old(out.launched) && out.ran == old(out.ran)
                && CycleOk(limits, prior, calls, Cycle(from, true, plan, ran, OutOfBudget(limit, elapsed), None))
              case Broke(error, call) =>
                && budget.results == old(budget.results) && FromOutside(error)
                && out.launched == old(out.launched) + [Launch(call, plan[|ran|])] && out.ran == old(out.ran)
                && LastRan(from, ran) <= Elapsed(budget)
                && CycleOk(limits, prior, calls, Cycle(from, true, plan, ran, Torn(call), None))
              case Through(x) =>
                && x.call !in old(executor.procs)
                && budget.results == prior + Successes(ran + [x])
                && LastRan(from, ran + [x]) == x.elapsed == Elapsed(budget)
                && x.step == plan[|ran|] && Lines(ran + [x]) == Lines(ran) + [Launch(x.call, x.step)]
                && out.launched == old(out.launched) + [Launch(x.call, x.step)] && out.ran == old(out.ran) + [x]
                && (if x.denied then CycleOk(limits, prior, calls, Cycle(from, true, plan, ran + [x], PolicyDenied, None))
                    else Progress(limits, prior, calls + 2, from, plan, ran + [x]))
    {
      hide CycleOk, Progress, P.Run, Accounted, HandedOver, Faithful, LastRan, Paced;
      turn := TakeStep(task, budget, plan[|ran|], out, obj);
      match turn
      case Stopped(limit, elapsed) =>
        ProgressStops(limits, prior, calls, from, plan, ran, OutOfBudget(limit, elapsed));
      case Broke(_, call) =>
        ProgressStops(limits, prior, calls, from, plan, ran, Torn(call));
      case Through(x) =>
        LinesExtend(ran, x);
        ProgressExtends(limits, prior, calls, from, plan, ran, x);
    }

    /** The step loop of one cycle: what it returns is what the executor did with
        the plan, step by step, until a budget was exhausted, a step was denied, or
        an exception came. */
    method ExecutePlan(task: Task, budget: TaskBudget, out: TaskOutcome, obj: Objective, plan: seq<PlanStep>)
      returns (c: Check, ran: seq<Ran>, cut: Cut)
      requires Consistent(task, budget, out, obj) && |out.launched| == |out.ran|
      requires plan != [] && 2 <= budget.modelCalls < limits.maxModelCalls + 2
      requires 0.0 <= Elapsed(budget) < limits.maxTaskSeconds
      modifies this`clock, budget`stepsExecuted, budget`consecutiveFailures, budget`results
      modifies out`executed, out`launched, out`ran, out`stoppedBecause, executor, executor.approvals, executor.audit
      ensures Consistent(task, budget, out, obj)
      ensures budget.results == old(budget.results) + Successes(ran)
      ensures CycleOk(limits, old(budget.results), budget.modelCalls - 2,
                      Cycle(old(Elapsed(budget)), true, plan, ran, cut, None))
      ensures out.ran == old(out.ran) + ran
      ensures out.launched == old(out.launched) + AttemptsIn(plan, ran, cut)
      ensures |out.launched| == |out.ran| + if cut.Torn? then 1 else 0
      ensures |ran| <= |plan|
      ensures forall k :: 0 <= k < |ran| ==> ran[k].step == plan[k] && Faithful(executor.procs, ran[k], obj)
      ensures Reading(old(Elapsed(budget)), ran, cut) <= Elapsed(budget)
      ensures cut.OutOfBudget? ==> cut.elapsed == Elapsed(budget)
      ensures c.Raise? <==> cut.Torn?
      ensures c.Raise? ==> FromOutside(c.error)
    {
      hide Recorded, CycleOk, Progress, Successes, P.Run, P.CallsUnder, LastRan, Paced, Accounted, HandedOver, Faithful;
      c, ran, cut := Pass, [], Exhaustive;
      ghost var prior, calls, from, past := budget.results, budget.modelCalls - 2, Elapsed(budget), out.ran;
      ghost var before := out.launched;
      ProgressStarts(limits, prior, calls, from, plan);
      while |ran| < |plan|
        invariant Consistent(task, budget, out, obj)
        invariant |ran| <= |plan| && Progress(limits, prior, calls + 2, from, plan, ran)
        invariant budget.results == prior + Successes(ran) && LastRan(from, ran) <= Elapsed(budget)
        invariant out.ran == past + ran && |out.launched| == |out.ran|
        invariant out.launched == before + Lines(ran)
        invariant c == Pass && cut == Exhaustive
      {
        var turn := TakePlanStep(task, budget, out, obj, plan, ran, prior, calls, from);
        match turn {
          case Stopped(limit, elapsed) =>
            cut := OutOfBudget(limit, elapsed);
            break;
          case Broke(error, call) =>
            c, cut := Raise(error), Torn(call);
            break;
          case Through(x) =>
            assert past + (ran + [x]) == (past + ran) + [x];
            assert before + Lines(ran + [x]) == (before + Lines(ran)) + [Launch(x.call, x.step)];
            ran := ran + [x];
            if x.denied {
              cut := PolicyDenied;
              break;
            }
        }
      }
      if cut == Exhaustive {
        ProgressStops(limits, prior, calls, from, plan, ran, Exhaustive);
      }
      CycleFollowsPlan(limits, prior, calls, Cycle(from, true, plan, ran, cut, None));
      NewLinesAreTrue(out, obj, past, ran);
    }

    // ---- between steps

    /** One turn, counted when it answers. */
    method Infer(task: Task, budget: TaskBudget, out: TaskOutcome) returns (c: Check)
      requires Agreed(task, budget)
      modifies task`modelCalls, budget`modelCalls, out`asks
      ensures Agreed(task, budget)
      ensures out.asks == old(out.asks) + 1
      ensures budget.modelCalls == old(budget.modelCalls) + if c.Pass? then 1 else 0
      ensures c.Raise? ==> FromOutside(c.error)
    {
      var answer := Ask(task, out);
      if answer.Raised? {
        return Raise(answer.error);
      }
      budget.RecordModelCall();
      return Pass;
    }

    ghost function TallyOf(budget: TaskBudget, out: TaskOutcome): Tally
      reads budget, out
    {
      Tally(out.cycles, out.recovery, out.ran, budget.results, out.launched, budget.modelCalls, out.asks, budget.replans)
    }

    /** The record of the run so far is what the budgets allow. */
    ghost predicate Bounded(budget: TaskBudget, out: TaskOutcome)
      reads budget, out
    {
      TallyOf(budget, out).Within(limits)
    }

    /** The run has kept to what the agents answered. */
    ghost predicate Heeded(out: TaskOutcome)
      reads out
    {
      Obeyed(limits, out.heard, out.cycles, PlansOf(out.recovery))
    }

    /** The top of the loop. */
    ghost predicate AtHead(task: Task, budget: TaskBudget, out: TaskOutcome)
      reads task, budget, out
    {
      && TallyOf(budget, out).AtHead(limits)
      && AllRecorded(limits, out.heard, out.cycles)
      && Open(task, out) && out.events == Story(out.cycles, [])
      && (task.state == Created || task.state == Planning || task.state == Verifying)
    }

    ghost predicate Open(task: Task, out: TaskOutcome)
      reads task, out
    {
      !Terminal(task.state) && !out.succeeded
    }

    /** Ended, and announced as such. */
    ghost predicate Ended(task: Task, out: TaskOutcome)
      reads task, out
    {
      && (task.state == Completed || task.state == Failed)
      && (out.succeeded <==> task.state == Completed)
      && ClosedStory(out.events, out.cycles, out.recovery, out.succeeded)
    }

    /** `_complete`; the transition is legal. */
    method CompleteTask(task: Task, out: TaskOutcome)
      requires task.Valid() && task.state == Verifying && Open(task, out)
      requires out.events == Story(out.cycles, [])
      modifies task`state, task`visited, out`succeeded, out`events
      ensures task.Valid() && Ended(task, out) && out.succeeded
    {
      var moved := task.TransitionTo(Completed);
      assert moved.Pass?;
      out.succeeded := true;
      StoryGoesOn(out.cycles, [], [TaskCompleted]);
      out.Publish(TaskCompleted);
    }

    /** `_fail`; FAILED can be reached from wherever a run stands. */
    method FailTask(task: Task, out: TaskOutcome)
      requires task.Valid() && Open(task, out)
      requires OpenStory(out.events, out.cycles)
      modifies task`state, task`visited, out`succeeded, out`events
      ensures task.Valid() && Ended(task, out) && !out.succeeded
    {
      if !Terminal(task.state) {
        var moved := task.TransitionTo(Failed);
        assert moved.Pass?;
      }
      out.succeeded := false;
      FailureClosesStory(out.events, out.cycles, out.recovery);
      out.Publish(TaskFailed);
    }

    // ---- recovery

    /** Time and step budgets only; then the same executor, the same limits. */
    method TakeRecoveryStep(task: Task, budget: TaskBudget, step: PlanStep, out: TaskOutcome, obj: Objective)
      returns (turn: Turn)
      requires Consistent(task, budget, out, obj) && |out.launched| == |out.ran|
      modifies this`clock, budget`stepsExecuted, budget`consecutiveFailures, budget`results
      modifies out`executed, out`launched, out`ran, executor, executor.approvals, executor.audit
      ensures Consistent(task, budget, out, obj) && clock >= old(clock)
      ensures match turn
              case Stopped(limit, elapsed) =>
                && elapsed == Elapsed(budget) && (limit == TimeLimit <==> elapsed >= limits.maxTaskSeconds)
                && (limit == TimeLimit || (limit == StepLimit && |old(budget.results)| >= limits.maxPlanSteps))
                && budget.results == old(budget.results)
                && out.launched == old(out.launched) && out.ran == old(out.ran)
              case Broke(error, call) =>
                && |old(budget.results)| < limits.maxPlanSteps && FromOutside(error)
                && budget.results == old(budget.results)
                && out.launched == old(out.launched) + [Launch(call, step)] && out.ran == old(out.ran)
              case Through(x) =>
                && |old(budget.results)| < limits.maxPlanSteps && x.step == step
                && x.elapsed == Elapsed(budget) < limits.maxTaskSeconds
                && x.call !in old(executor.procs) && Faithful(executor.procs, x, obj)
                && budget.results == old(budget.results) + [x.success]
                && out.launched == old(out.launched) + [Launch(x.call, step)] && out.ran == old(out.ran) + [x]
    {
      hide P.Run, P.CallsUnder, Trailing, Accounted, HandedOver, Clock, LegalPath;
      var now := Now();
      var check := budget.CheckTime(now);
      if check.Pass? {
        check := budget.CheckSteps();
      }
      if check.Raise? {
        return Stopped(check.error.limit, now - budget.startedAt);
      }
      var result, c := ExecuteStep(task, budget, step, out, obj);
      if result.Raised? {
        return Broke(result.error, c);
      }
      budget.RecordStep(result.value.success);
      var x := Ran(step, c, result.value.success, result.value.denied, now - budget.startedAt);
      RecordStep(task, budget, out, obj, x);
      return Through(x);
    }

    /** The recovery loop; a failed or denied step does not stop it. */
    method RunRecovery(task: Task, budget: TaskBudget, out: TaskOutcome, obj: Objective, plan: seq<PlanStep>)
      returns (c: Check, recovered: nat)
      requires Consistent(task, budget, out, obj) && out.recovery == None
      requires |out.launched| == |out.ran| == |budget.results| <= limits.maxPlanSteps
      modifies this`clock, budget`stepsExecuted, budget`consecutiveFailures, budget`results
      modifies out`executed, out`launched, out`ran, out`recovery, executor, executor.approvals, executor.audit
      ensures Consistent(task, budget, out, obj)
      ensures out.recovery.Some? && out.recovery.value.plan == plan
      ensures RecoveryOk(limits, old(budget.results), Clock(out.cycles), out.recovery.value)
      ensures budget.results == old(budget.results) + RecoveryResults(out.recovery)
      ensures out.ran == old(out.ran) + out.recovery.value.ran
      ensures var ran := out.recovery.value.ran;
              |ran| <= |plan| && forall k :: 0 <= k < |ran| ==>
                ran[k].step == plan[k] && Faithful(executor.procs, ran[k], obj)
      ensures out.launched == old(out.launched) + RecoveryAttempts(out.recovery)
      ensures out.recovery.value.cut.OutOfBudget? ==> out.recovery.value.cut.elapsed == Elapsed(budget)
      ensures |out.launched| <= limits.maxPlanSteps
      ensures c.Raise? <==> out.recovery.value.cut.Torn?
      ensures c.Raise? ==> FromOutside(c.error)
      ensures recovered == Count(RecoveryResults(out.recovery))
    {
      hide RecoveryOk, Recovering, Successes, Count, P.Run, P.CallsUnder, LastRan, Paced, Accounted, HandedOver;
      hide Faithful, Clock;
      ghost var prior, from, past, before := budget.results, Clock(out.cycles), out.ran, out.launched;
      var ran: seq<Ran> := [];
      var cut := Exhaustive;
      c, recovered := Pass, 0;
      hide Recorded, Trailing, LegalPath;
      RecoveryStarts(limits, prior, from, plan);
      while |ran| < |plan|
        invariant Consistent(task, budget, out, obj)
        invariant |ran| <= |plan| && Recovering(limits, prior, from, plan, ran)
        invariant budget.results == prior + Successes(ran) && LastRan(from, ran) <= Elapsed(budget)
        invariant out.launched == before + Lines(ran)
        invariant out.ran == past + ran && |out.launched| == |out.ran| == |budget.results| <= limits.maxPlanSteps
        invariant recovered == Count(Successes(ran))
        invariant c == Pass && cut == Exhaustive
      {
        var turn := TakeRecoveryStep(task, budget, plan[|ran|], out, obj);
        match turn {
          case Stopped(limit, elapsed) =>
            cut := OutOfBudget(limit, elapsed);
            break;
          case Broke(error, call) =>
            c, cut := Raise(error), Torn(call);
            break;
          case Through(x) =>
            RecoveryExtends(limits, prior, from, plan, ran, x);
            LinesExtend(ran, x);
            assert before + Lines(ran + [x]) == (before + Lines(ran)) + [Launch(x.call, x.step)];
            assert past + (ran + [x]) == (past + ran) + [x];
            ran := ran + [x];
            if x.success {
              recovered := recovered + 1;
            }
        }
      }
      RecoveryStops(limits, prior, from, plan, ran, cut);
      NewLinesAreTrue(out, obj, past, ran);
      out.recovery := Some(Recovery(plan, ran, cut));
    }

    /** Announce the rollback and consult Mahesh. */
    method EnterRollback(task: Task, budget: TaskBudget, out: TaskOutcome) returns (c: Check)
      requires Agreed(task, budget) && Open(task, out) && task.state == Verifying
      modifies task`state, task`visited, task`modelCalls, budget`modelCalls, out`asks, out`events
      ensures Agreed(task, budget) && Open(task, out) && task.state == RollingBack
      ensures out.asks == old(out.asks) + 1
      ensures budget.modelCalls == old(budget.modelCalls) + if c.Pass? then 1 else 0
      ensures c.Raise? ==> FromOutside(c.error)
      ensures out.events == old(out.events) + [RollbackStarted]
    {
      var moved := task.TransitionTo(RollingBack);
      assert moved.Pass?;
      out.Publish(RollbackStarted);
      c := Infer(task, budget, out);
    }

    method CloseRollback(task: Task, out: TaskOutcome, attempted: nat, recovered: nat)
      requires task.Valid() && Open(task, out) && task.state == RollingBack
      requires out.recovery.Some? && attempted == |out.recovery.value.plan|
      requires recovered == Count(Successes(out.recovery.value.ran))
      requires out.events == Story(out.cycles, [RollbackStarted])
      modifies task`state, task`visited, out`succeeded, out`events
      ensures task.Valid() && Ended(task, out) && !out.succeeded
    {
      StoryGoesOn(out.cycles, [RollbackStarted], [RollbackCompleted(attempted, recovered), TaskFailed]);
      out.Publish(RollbackCompleted(attempted, recovered));
      var moved := task.TransitionTo(Failed);
      assert moved.Pass?;
      out.succeeded := false;
      out.Publish(TaskFailed);
    }

    /** Run what Mahesh proposed, then fail the task whatever came of it. */
    method Recover(task: Task, budget: TaskBudget, out: TaskOutcome, obj: Objective, plan: seq<PlanStep>) returns (c: Check)
      requires Consistent(task, budget, out, obj) && Bounded(budget, out) && Open(task, out)
      requires task.state == RollingBack && out.recovery == None
      requires |out.launched| == |out.ran| == |budget.results|
      requires Concludes(out.cycles, Rollback) && Obeyed(limits, out.heard, out.cycles, [plan])
      requires out.events == Story(out.cycles, [RollbackStarted])
      modifies this`clock, task, budget, out, executor, executor.approvals, executor.audit
      ensures out.cycles == old(out.cycles)
      ensures Consistent(task, budget, out, obj) && Bounded(budget, out) && Heeded(out)
      ensures c.Pass? ==> Ended(task, out) && !out.succeeded
      ensures c.Raise? ==> Open(task, out) && FromOutside(c.error)
      ensures c.Raise? ==> OpenStory(out.events, out.cycles)
      ensures c.Pass? ==> ByVerdict(out.cycles, out.recovery)
    {
      hide P.Run, Admissible, LegalPath, Successes, Accounted, HandedOver, Faithful, Clock, Obeyed;
      hide P.CallsUnder, Story, AttemptsIn, Concludes, RecoveryOk, RecoveryAttempts, Reading, Results, Record;
      hide Attempts, Tally.Within, Tally.AtHead;
      ghost var start := TallyOf(budget, out);
      start.WithinMeans(limits);
      var recovered: nat;
      c, recovered := RunRecovery(task, budget, out, obj, plan);
      start.RecoveryStaysWithin(limits, TallyOf(budget, out));
      if c.Pass? {
        CloseRollback(task, out, |plan|, recovered);
      }
    }

    /** `_rollback`: recovery, then failure; nothing is ever recovered into success. */
    method RollBack(task: Task, budget: TaskBudget, out: TaskOutcome, obj: Objective) returns (c: Check)
      requires Consistent(task, budget, out, obj) && Open(task, out)
      requires task.state == Verifying && TallyOf(budget, out).JustVerified(limits, Rollback)
      requires AllRecorded(limits, out.heard, out.cycles)
      requires out.events == Story(out.cycles, [])
      modifies this`clock, task, budget, out, executor, executor.approvals, executor.audit
      ensures out.cycles == old(out.cycles)
      ensures Consistent(task, budget, out, obj) && Bounded(budget, out) && Heeded(out)
      ensures c.Pass? ==> Ended(task, out) && !out.succeeded
      ensures c.Raise? ==> Open(task, out) && FromOutside(c.error)
      ensures c.Raise? ==> OpenStory(out.events, out.cycles)
      ensures c.Pass? ==> ByVerdict(out.cycles, out.recovery)
    {
      hide Admissible, Accounted, HandedOver, Faithful, Clock, Obeyed, P.Run;
      ghost var start := TallyOf(budget, out);
      StoryGoesOn(out.cycles, [], [RollbackStarted]);
      c := EnterRollback(task, budget, out);
      start.AskStaysWithin(limits, TallyOf(budget, out));
      if c.Pass? {
        ghost var before := out.heard;
        var plan := MaheshRecover(out);
        RecoveryIsHeard(limits, before, out.cycles, plan);
        c := Recover(task, budget, out, obj, plan);
      }
    }

    // ---- one cycle

    /** The top of the loop: time, inferences, then PLANNING. */
    method EnterPlanning(task: Task, budget: TaskBudget, out: TaskOutcome) returns (c: Check)
      requires Agreed(task, budget) && Open(task, out)
      requires task.state == Created || task.state == Planning || task.state == Verifying
      modifies this`clock, task`state, task`visited
      ensures Agreed(task, budget) && Open(task, out) && clock >= old(clock)
      ensures c.Pass? ==> task.state == Planning && budget.modelCalls < limits.maxModelCalls
      ensures c.Pass? ==> Elapsed(budget) < limits.maxTaskSeconds
      ensures c.Raise? ==> Justified(c.error, budget)
    {
      var now := Now();
      :- budget.CheckTime(now);
      :- budget.CheckModelCalls();
      var moved := task.TransitionTo(Planning);
      assert moved.Pass?;
      return Pass;
    }

    /** Brahma proposes, and is cut to the steps that remain; Vishnu reviews. */
    method PlanAndReview(task: Task, budget: TaskBudget, out: TaskOutcome) returns (r: Reply<Review>)
      requires Agreed(task, budget) && Open(task, out) && task.state == Planning
      requires out.asks == budget.modelCalls
      requires AllRecorded(limits, out.heard, out.cycles) && budget.results == Results(out.cycles)
      modifies task`modelCalls, budget`modelCalls, out`asks, out`heard, out`events
      ensures Agreed(task, budget) && Open(task, out)
      ensures old(out.asks) <= out.asks <= old(out.asks) + 2
      ensures budget.modelCalls <= out.asks <= budget.modelCalls + 1
      ensures r.Answer? ==>
                && out.asks == budget.modelCalls == old(out.asks) + 2
                && out.heard.reviews != []
                && var answer := out.heard.reviews[|out.heard.reviews| - 1].answer;
                   && (r.value.approved <==> answer.approved && answer.steps != [])
                   && r.value.steps == answer.steps
                   && Pending(limits, out.heard, out.cycles, r.value, [])
      ensures r.Raised? ==> FromOutside(r.error) && Obeyed(limits, out.heard, out.cycles, [])
      ensures out.events == old(out.events) || out.events == old(out.events) + [PlanCreated]
      ensures r.Answer? ==> out.events == old(out.events) + [PlanCreated]
    {
      hide Pending, Obeyed, CutTo, Remaining, Story;
      var check := Infer(task, budget, out);
      if check.Raise? {
        return Raised(check.error);
      }
      ghost var before := out.heard;
      var proposal := BrahmaPlan(out);
      var plan := CutTo(proposal, Remaining(limits, budget.stepsExecuted));
      out.Publish(PlanCreated);
      check := Infer(task, budget, out);
      if check.Raise? {
        ProposalIsHeard(limits, before, out.cycles, proposal);
        return Raised(check.error);
      }
      var answer := VishnuReview(out, plan);
      ReviewIsPending(limits, before, out.cycles, proposal, answer, budget.stepsExecuted);
      return Answer(Settled(answer));
    }

    /** Publish the approval and run the reviewed plan. */
    method ExecuteReviewed(
        task: Task, budget: TaskBudget, out: TaskOutcome, obj: Objective, plan: seq<PlanStep>, ghost before: Tally)
      returns (c: Check, ghost cy: Cycle)
      requires Consistent(task, budget, out, obj) && Open(task, out) && task.state == Planning
      requires plan != [] && before.asks == before.modelCalls < limits.maxModelCalls
      requires 0.0 <= Elapsed(budget) < limits.maxTaskSeconds && |out.launched| == |out.ran|
      requires TallyOf(budget, out) == before.(asks := before.asks + 2, modelCalls := before.modelCalls + 2)
      modifies this`clock, task`state, task`visited
      modifies budget`stepsExecuted, budget`consecutiveFailures, budget`results
      modifies out`executed, out`launched, out`ran, out`stoppedBecause, out`events
      modifies executor, executor.approvals, executor.audit
      ensures Consistent(task, budget, out, obj) && Open(task, out) && task.state == Executing
      ensures before.Through(limits, cy, TallyOf(budget, out)) && cy.approved && cy.verdict == None
      ensures cy.began == old(Elapsed(budget)) && cy.plan == plan
      ensures Reading(cy.began, cy.ran, cy.cut) <= Elapsed(budget)
      ensures out.asks == budget.modelCalls == before.asks + 2
      ensures c.Raise? <==> cy.cut.Torn?
      ensures c.Raise? ==> FromOutside(c.error)
      ensures out.events == old(out.events) + [PlanApproved]
    {
      hide CycleOk, Accounted, HandedOver, Faithful, Clock, Reading, AttemptsIn, Successes, Results, Record;
      hide P.Run, P.CallsUnder;
      ghost var began := Elapsed(budget);
      out.Publish(PlanApproved);
      var moved := task.TransitionTo(Executing);
      assert moved.Pass?;
      var ran, cut;
      c, ran, cut := ExecutePlan(task, budget, out, obj, plan);
      cy := Cycle(began, true, plan, ran, cut, None);
    }

    /** Whatever the steps came to, Vishnu verifies. */
    method VerifyCycle(task: Task, budget: TaskBudget, out: TaskOutcome, ghost review: Review)
      returns (r: Reply<Verdict>)
      requires Agreed(task, budget) && Open(task, out) && task.state == Executing
      requires Pending(limits, out.heard, out.cycles, review, [])
      modifies task`state, task`visited, task`modelCalls, budget`modelCalls, out`asks, out`heard
      ensures Agreed(task, budget) && Open(task, out) && task.state == Verifying
      ensures Pending(limits, out.heard, out.cycles, review, SaidBy(r))
      ensures out.asks == old(out.asks) + 1
      ensures budget.modelCalls == old(budget.modelCalls) + if r.Answer? then 1 else 0
      ensures r.Raised? ==> FromOutside(r.error)
    {
      hide Pending;
      var moved := task.TransitionTo(Verifying);
      assert moved.Pass?;
      var check := Infer(task, budget, out);
      if check.Raise? {
        return Raised(check.error);
      }
      VerdictsArePending(limits, out.heard, out.cycles, review);
      var verdict := VishnuVerify(out);
      return Answer(verdict);
    }

    static function SaidBy(r: Reply<Verdict>): seq<Verdict> {
      if r.Answer? then [r.value] else []
    }

    /** An approved plan: executed, verified and on the record. */
    method ExecuteAndVerify(
        task: Task, budget: TaskBudget, out: TaskOutcome, obj: Objective, plan: seq<PlanStep>, ghost before: Tally)
      returns (r: Reply<Verdict>)
      requires Consistent(task, budget, out, obj) && Open(task, out) && task.state == Planning
      requires plan != [] && before.AtHead(limits) && before.modelCalls < limits.maxModelCalls
      requires 0.0 <= Elapsed(budget) < limits.maxTaskSeconds
      requires TallyOf(budget, out) == before.(asks := before.asks + 2, modelCalls := before.modelCalls + 2)
      requires out.events == Story(out.cycles, [PlanCreated])
      requires Pending(limits, out.heard, out.cycles, Review(true, plan), [])
      modifies this`clock, task, budget, out, executor, executor.approvals, executor.audit
      ensures Consistent(task, budget, out, obj) && Open(task, out)
      ensures Bounded(budget, out) && AllRecorded(limits, out.heard, out.cycles) && out.recovery == None
      ensures r.Raised? ==> !Concluded(out.cycles) && FromOutside(r.error)
      ensures r.Answer? ==>
                && task.state == Verifying && TallyOf(budget, out).JustVerified(limits, r.value)
                && Concludes(out.cycles, r.value)
                && budget.replans == before.replans
      ensures out.events == Story(out.cycles, [])
    {
      hide Admissible, CycleOk, LegalPath, Accounted, HandedOver, Faithful, Clock, Reading, Story, Pending, P.Run;
      hide Recorded, AllRecorded, Obeyed, OpenStory, Trailing, BudgetHit, P.CallsUnder, Concludes, Results;
      hide Record, Attempts, Successes, AttemptsIn;
      hide Tally.Within, Tally.AtHead, Tally.JustVerified, Tally.Through;
      var check;
      ghost var cy;
      before.HeadIsWithin(limits);
      check, cy := ExecuteReviewed(task, budget, out, obj, plan, before);
      ghost var ran := TallyOf(budget, out);
      r := Raised(if check.Raise? then check.error else OtherError);
      if check.Pass? {
        r := VerifyCycle(task, budget, out, Review(true, plan));
      }
      RecordCycle(budget, out, cy, r, ran, before);
    }

    /** A cycle joins the record, with the verdict if there was one. */
    ghost method RecordCycle(
        budget: TaskBudget, out: TaskOutcome, cy: Cycle, r: Reply<Verdict>, ran: Tally, before: Tally)
      requires before.AtHead(limits) && before.Through(limits, cy, ran) && cy.approved && cy.verdict == None
      requires OnTime(budget, out) && Reading(cy.began, cy.ran, cy.cut) <= Elapsed(budget)
      requires ran.asks == ran.modelCalls == before.asks + 2 && (r.Answer? ==> !cy.cut.Torn?)
      requires TallyOf(budget, out) == ran.(asks := out.asks, modelCalls := budget.modelCalls)
      requires budget.modelCalls == ran.modelCalls + if r.Answer? then 1 else 0
      requires ran.asks <= out.asks <= ran.asks + 1 && (r.Answer? ==> out.asks == ran.asks + 1)
      requires out.events == Story(out.cycles, [PlanCreated]) + [PlanApproved]
      requires Pending(limits, out.heard, out.cycles, Review(true, cy.plan), SaidBy(r))
      modifies out`cycles
      ensures Bounded(budget, out) && OnTime(budget, out)
      ensures AllRecorded(limits, out.heard, out.cycles) && out.recovery == None
      ensures r.Raised? ==> !Concluded(out.cycles)
      ensures r.Answer? ==> TallyOf(budget, out).JustVerified(limits, r.value)
      ensures r.Answer? ==> Concludes(out.cycles, r.value)
      ensures out.events == Story(out.cycles, [])
    {
      hide Admissible, CycleOk, Pending, Obeyed, Tally.Within, Tally.AtHead, Tally.JustVerified;
      if r.Raised? {
        PendingIsRecorded(limits, out.heard, out.cycles, Review(true, cy.plan), cy);
        StoryOfCycle(out.cycles, cy);
        out.cycles := out.cycles + [cy];
        before.CycleTorn(limits, cy, ran, TallyOf(budget, out));
      } else {
        PendingIsRecorded(limits, out.heard, out.cycles, Review(true, cy.plan), cy.(verdict := Some(r.value)));
        StoryOfCycle(out.cycles, cy.(verdict := Some(r.value)));
        out.cycles := out.cycles + [cy.(verdict := Some(r.value))];
        before.CycleVerified(limits, cy, r.value, ran, TallyOf(budget, out));
      }
    }

    /** Another cycle costs a replan. */
    method SpendReplan(task: Task, budget: TaskBudget, out: TaskOutcome) returns (c: Check)
      requires Agreed(task, budget)
      modifies task`replanCount, budget`replans
      ensures Agreed(task, budget)
      ensures c.Pass? <==> old(budget.replans) < limits.maxReplans
      ensures budget.replans == old(budget.replans) + if c.Pass? then 1 else 0
      ensures c.Raise? ==> Justified(c.error, budget)
    {
      c := Pass;
      :- budget.CheckReplans();
      budget.RecordReplan();
      task.replanCount := task.replanCount + 1;
    }

    /** A rejected plan is a cycle too, and going round again costs the same. */
    method Reject(task: Task, budget: TaskBudget, out: TaskOutcome, plan: seq<PlanStep>, ghost before: Tally)
      returns (c: Check)
      requires Agreed(task, budget) && Open(task, out) && task.state == Planning
      requires before.AtHead(limits) && before.modelCalls < limits.maxModelCalls
      requires OnTime(budget, out) && 0.0 <= Elapsed(budget) < limits.maxTaskSeconds
      requires TallyOf(budget, out) == before.(asks := before.asks + 2, modelCalls := before.modelCalls + 2)
      requires out.events == Story(out.cycles, [PlanCreated])
      requires Pending(limits, out.heard, out.cycles, Review(false, plan), [])
      modifies task`replanCount, budget`replans, out`events, out`cycles
      ensures Agreed(task, budget) && Open(task, out) && task.state == Planning
      ensures Bounded(budget, out) && OnTime(budget, out) && AllRecorded(limits, out.heard, out.cycles)
      ensures c.Raise? ==> !Concluded(out.cycles) && Justified(c.error, budget)
      ensures c.Pass? ==> TallyOf(budget, out).AtHead(limits) && budget.replans == before.replans + 1
      ensures out.events == Story(out.cycles, [])
    {
      hide Admissible, Pending, Obeyed, Tally.Within, Tally.AtHead, Tally.Unpaid;
      ghost var cy := Cycle(Elapsed(budget), false, plan, [], Exhaustive, None);
      StoryOfCycle(out.cycles, cy);
      PendingIsRecorded(limits, out.heard, out.cycles, Review(false, plan), cy);
      out.Publish(PlanRejected);
      ghost var ran := TallyOf(budget, out);
      out.cycles := out.cycles + [cy];
      ghost var full := TallyOf(budget, out);
      before.CycleRejected(limits, cy.began, plan, ran, full);
      c := SpendReplan(task, budget, out);
      if c.Pass? {
        full.ReplanReturnsToHead(limits, TallyOf(budget, out));
      }
    }

    /** Act on the verdict: end the task, or pay for another cycle. */
    method Act(task: Task, budget: TaskBudget, out: TaskOutcome, obj: Objective, verdict: Verdict) returns (c: Check)
      requires Consistent(task, budget, out, obj) && Open(task, out) && task.state == Verifying
      requires TallyOf(budget, out).JustVerified(limits, verdict) && AllRecorded(limits, out.heard, out.cycles)
      requires out.events == Story(out.cycles, [])
      modifies this`clock, task, budget, out, executor, executor.approvals, executor.audit
      ensures out.cycles == old(out.cycles)
      ensures Consistent(task, budget, out, obj) && Bounded(budget, out) && Heeded(out)
      ensures c.Raise? ==> Open(task, out) && verdict != Complete && Justified(c.error, budget)
      ensures c.Pass? && !GoesRound(verdict) ==>
                Ended(task, out) && (out.succeeded <==> verdict == Complete) && ByVerdict(out.cycles, out.recovery)
      ensures c.Pass? && GoesRound(verdict) ==>
                AtHead(task, budget, out) && budget.replans == old(budget.replans) + 1
      ensures c.Raise? ==> OpenStory(out.events, out.cycles)
    {
      hide Accounted, HandedOver, Clock, Obeyed, Results, Record, Attempts, Tally.Within, Tally.AtHead, P.Run;
      hide P.CallsUnder;
      if verdict == Complete {
        CompleteTask(task, out);
        return Pass;
      }
      if verdict == Abort {
        FailTask(task, out);
        return Pass;
      }
      if verdict == Rollback {
        c := RollBack(task, budget, out, obj);
        return;
      }
      ghost var full := TallyOf(budget, out);
      c := SpendReplan(task, budget, out);
      if c.Pass? {
        full.ReplanReturnsToHead(limits, TallyOf(budget, out));
      }
    }

    /** An approved plan, to its verdict and what that leads to. */
    method Proceed(
        task: Task, budget: TaskBudget, out: TaskOutcome, obj: Objective, plan: seq<PlanStep>, ghost before: Tally)
      returns (c: Check, done: bool)
      requires Consistent(task, budget, out, obj) && Open(task, out) && task.state == Planning
      requires plan != [] && before.AtHead(limits) && before.modelCalls < limits.maxModelCalls
      requires 0.0 <= Elapsed(budget) < limits.maxTaskSeconds
      requires TallyOf(budget, out) == before.(asks := before.asks + 2, modelCalls := before.modelCalls + 2)
      requires out.events == Story(out.cycles, [PlanCreated])
      requires Pending(limits, out.heard, out.cycles, Review(true, plan), [])
      modifies this`clock, task, budget, out, executor, executor.approvals, executor.audit
      ensures Consistent(task, budget, out, obj) && Bounded(budget, out) && Heeded(out)
      ensures c.Raise? ==> Open(task, out) && !Concluded(out.cycles) && Justified(c.error, budget)
      ensures c.Pass? && done ==>
                Ended(task, out) && (out.succeeded <==> Concluded(out.cycles)) && ByVerdict(out.cycles, out.recovery)
      ensures c.Pass? && !done ==> AtHead(task, budget, out) && budget.replans == before.replans + 1
      ensures c.Raise? ==> OpenStory(out.events, out.cycles)
    {
      hide Tally.Within, Tally.AtHead, Tally.JustVerified, Accounted, HandedOver, Clock, Obeyed, Pending, P.Run;
      hide Recorded, P.CallsUnder, Results, Record, Attempts, Successes, AttemptsIn, Trailing, Admissible;
      hide CycleOk, LegalPath;
      done := false;
      var verified := ExecuteAndVerify(task, budget, out, obj, plan, before);
      if verified.Raised? {
        c := Raise(verified.error);
        return;
      }
      c := Act(task, budget, out, obj, verified.value);
      done := !GoesRound(verified.value);
    }

    /** One turn of `_drive`'s loop, from the top. */
    method OneTurn(task: Task, budget: TaskBudget, out: TaskOutcome, obj: Objective) returns (c: Check, done: bool)
      requires Consistent(task, budget, out, obj) && AtHead(task, budget, out)
      modifies this`clock, task, budget, out, executor, executor.approvals, executor.audit
      ensures Consistent(task, budget, out, obj) && Bounded(budget, out) && Heeded(out)
      ensures c.Raise? ==> Open(task, out) && !Concluded(out.cycles) && Justified(c.error, budget)
      ensures c.Pass? && done ==>
                Ended(task, out) && (out.succeeded <==> Concluded(out.cycles)) && ByVerdict(out.cycles, out.recovery)
      ensures c.Pass? && !done ==> AtHead(task, budget, out) && budget.replans == old(budget.replans) + 1
      ensures c.Raise? ==> OpenStory(out.events, out.cycles)
    {
      hide Tally.Within, Tally.AtHead, Tally.JustVerified, Accounted, HandedOver, Clock, Obeyed, Pending, P.Run;
      hide Recorded, P.CallsUnder, Results, Record, Attempts, Successes, AttemptsIn, Trailing, Admissible;
      hide CycleOk, LegalPath;
      ghost var before := TallyOf(budget, out);
      before.HeadIsWithin(limits);
      done := false;
      c := EnterPlanning(task, budget, out);
      if c.Raise? {
        return;
      }
      StoryOfCycle(out.cycles, Cycle(0.0, true, [], [], Exhaustive, None));
      var review := PlanAndReview(task, budget, out);
      if review.Raised? {
        before.CycleAsksStayWithin(limits, TallyOf(budget, out));
        c := Raise(review.error);
        return;
      }
      if !review.value.approved || review.value.steps == [] {
        c := Reject(task, budget, out, review.value.steps, before);
        return;
      }
      c, done := Proceed(task, budget, out, obj, review.value.steps, before);
    }

    /** `_drive`. Every way round the loop costs a replan, so it ends. */
    method Drive(task: Task, budget: TaskBudget, out: TaskOutcome, obj: Objective) returns (c: Check)
      requires Consistent(task, budget, out, obj) && AtHead(task, budget, out)
      modifies this`clock, task, budget, out, executor, executor.approvals, executor.audit
      ensures Consistent(task, budget, out, obj) && Bounded(budget, out) && Heeded(out)
      ensures c.Raise? ==> Open(task, out) && !Concluded(out.cycles) && Justified(c.error, budget)
      ensures c.Pass? ==>
                Ended(task, out) && (out.succeeded <==> Concluded(out.cycles)) && ByVerdict(out.cycles, out.recovery)
      ensures c.Raise? ==> OpenStory(out.events, out.cycles)
    {
      var done := false;
      while true
        invariant Consistent(task, budget, out, obj) && AtHead(task, budget, out)
        decreases limits.maxReplans - budget.replans
      {
        c, done := OneTurn(task, budget, out, obj);
        if c.Raise? || done {
          return;
        }
      }
    }

    /** Whatever `_drive` raises ends the task too. */
    method Conclude(task: Task, budget: TaskBudget, out: TaskOutcome, obj: Objective)
      requires Consistent(task, budget, out, obj) && AtHead(task, budget, out)
      modifies this`clock, task, budget, out, executor, executor.approvals, executor.audit
      ensures Consistent(task, budget, out, obj) && Bounded(budget, out) && Heeded(out)
      ensures Ended(task, out) && (out.succeeded <==> Concluded(out.cycles))
      ensures ByVerdict(out.cycles, out.recovery) ||
                (out.stoppedBecause.Some? && Justified(out.stoppedBecause.value, budget))
    {
      hide Tally.Within, Tally.AtHead, Obeyed, P.Run;
      var c := Drive(task, budget, out, obj);
      if c.Raise? {
        out.stoppedBecause := Some(c.error);
        FailTask(task, out);
      }
    }

    /** The calls of the task that this run brought about. */
    ghost function NewCalls(out: TaskOutcome, obj: Objective): set<P.CallId>
      reads executor`procs
    {
      executor.Under(obj.task) - out.known
    }

    /** Every tool started for the task since the run began, in the plan loop or in
        recovery, was allowed by the objective. */
    lemma StartsAreWithinObjective(out: TaskOutcome, obj: Objective)
      requires executor.Valid() && Recorded(out, obj)
      ensures forall c, tool, risk :: c in NewCalls(out, obj) && P.ToolStarted(c, tool, risk) in executor.trace ==>
                && c in executor.procs
                && R.StartAuthorised(executor.settings, executor.procs[c].call.job, risk)
                && risk.Rank() <= obj.maxRisk.Rank()
                && (obj.dryRun ==> risk == Read)
    {
      NewCallsAreLaunched(executor.procs, out.known, out.launched, out.ran, obj);
      forall c, tool, risk | c in NewCalls(out, obj) && P.ToolStarted(c, tool, risk) in executor.trace
        ensures c in executor.procs && R.StartAuthorised(executor.settings, executor.procs[c].call.job, risk)
      {
        T.NoStartWithoutAuthority(
          executor.settings, executor.approvals.ttl, executor.prompt, executor.actions, executor.View(), c, tool, risk);
      }
    }

    /** Every line of the record is in the ledger, under its own call. */
    lemma LinesAreInLedger(out: TaskOutcome, obj: Objective)
      requires executor.Valid() && Recorded(out, obj)
      ensures forall x :: x in out.ran ==> InLedger(executor.audit.ledger, x)
    {
      forall x | x in out.ran ensures InLedger(executor.audit.ledger, x) {
        var k :| 0 <= k < |out.ran| && out.ran[k] == x;
        assert Faithful(executor.procs, out.ran[k], obj);
        LineIsInLedger(
          executor.settings, executor.approvals.ttl, executor.prompt, executor.actions, executor.View(), x, obj);
      }
    }

    /** A task, its budget and its outcome, before the loop. */
    method Begin(obj: Objective) returns (task: Task, budget: TaskBudget, out: TaskOutcome)
      requires executor.Valid()
      modifies this`clock
      ensures fresh(task) && fresh(budget) && fresh(out)
      ensures Consistent(task, budget, out, obj) && AtHead(task, budget, out)
      ensures out.known == executor.Under(obj.task) && out.before == executor.handed && budget.startedAt >= old(clock)
    {
      hide P.Run, P.CallsUnder, Tally.AtHead, Tally.Within, Accounted, HandedOver, AllRecorded;
      task := new Task();
      var now := Now();
      budget := new TaskBudget(limits, now);
      out := new TaskOutcome(executor.Under(obj.task), executor.handed);
      out.Publish(TaskCreated);
      TallyOf(budget, out).StartIsAtHead(limits);
      NothingIsAccounted(executor.procs, executor.handed, obj);
      NothingIsObeyed(limits);
    }

    /** What the record of a run says of the executor: the new calls of the task are
        those it launched, each sanctioned by an answer, and its lines are in the
        ledger. */
    lemma RunIsAccountedFor(budget: TaskBudget, out: TaskOutcome, obj: Objective)
      requires executor.Valid() && Recorded(out, obj) && Heeded(out) && Bounded(budget, out)
      ensures out.launched == Attempts(out.cycles) + RecoveryAttempts(out.recovery)
      ensures |NewCalls(out, obj)| == |out.launched| <= limits.maxPlanSteps
      ensures forall x :: x in out.launched ==>
                && x.call in executor.procs
                && var job := executor.procs[x.call].call.job;
                   && job.tool == x.step.tool && job.arguments == x.step.arguments
                   && job.declaredRisk == x.step.expectedRisk
                   && job.task == obj.task && job.maxRisk == obj.maxRisk && job.dryRun == obj.dryRun
      ensures forall c :: c in NewCalls(out, obj) ==> CallIsSanctioned(executor.procs, out.heard, c, obj)
      ensures forall x :: x in out.ran ==> InLedger(executor.audit.ledger, x)
      ensures Accounted(executor.procs, out.known, out.launched, out.ran, obj)
      ensures executor.handed == out.before + CallsOf(out.launched)
      ensures forall c, tool, risk :: c in NewCalls(out, obj) && P.ToolStarted(c, tool, risk) in executor.trace ==>
                && c in executor.procs
                && R.StartAuthorised(executor.settings, executor.procs[c].call.job, risk)
                && risk.Rank() <= obj.maxRisk.Rank()
                && (obj.dryRun ==> risk == Read)
    {
      StartsAreWithinObjective(out, obj);
      hide CallsOf, R.StartAuthorised, P.Run, P.CallsUnder, Accounted, Admissible, RecoveryOk, Obeyed, InLedger;
      hide CallIsSanctioned, Tally.Within;
      TallyOf(budget, out).WithinMeans(limits);
      NewCallsAreSanctioned(
        limits, executor.procs, out.known, out.launched, out.ran, obj, out.heard, out.cycles, out.recovery);
      LinesAreInLedger(out, obj);
      LaunchesAreForSteps(executor.procs, out.known, out.launched, out.ran, obj);
    }

    /** How a run ended, as its answers and its story tell it. */
    lemma RunEndedAsTold(task: Task, budget: TaskBudget, out: TaskOutcome)
      requires Heeded(out) && Bounded(budget, out) && Ended(task, out) && (out.succeeded <==> Concluded(out.cycles))
      ensures ClosedOnce(out.events)
      ensures out.succeeded <==>
                out.heard.verdicts != [] && out.heard.verdicts[|out.heard.verdicts| - 1] == Complete
    {
      hide Admissible, RecoveryOk, Obeyed, ClosedStory, Tally.Within;
      TallyOf(budget, out).WithinMeans(limits);
      StoryClosesOnce(out.events, out.cycles, out.recovery, out.succeeded);
      LastVerdictDecides(limits, out.heard, out.cycles, PlansOf(out.recovery));
    }

    /** One objective, from statement to conclusion. Whatever the agents, the
        tools, the operator and the clock do, the task ends, once, in COMPLETED or
        FAILED; it succeeded exactly when the last verdict said so; nothing is
        spent beyond its budget; and every tool that was started for it was
        allowed by its objective. */
    method Run(obj: Objective) returns (task: Task, out: TaskOutcome)
      requires executor.Valid()
      modifies this`clock, executor, executor.approvals, executor.audit
      ensures fresh(task) && fresh(out)
      ensures executor.Valid()
      ensures Ended(task, out) && ClosedOnce(out.events)
      ensures LegalPath(task.visited) && task.visited[|task.visited| - 1] == task.state
      ensures out.succeeded <==> Concluded(out.cycles)
      ensures Admissible(limits, out.cycles)
      ensures ByVerdict(out.cycles, out.recovery) || out.stoppedBecause.Some?
      ensures !ByVerdict(out.cycles, out.recovery) ==>
                match out.stoppedBecause.value
                case LimitExceeded(TimeLimit) => clock - old(clock) >= limits.maxTaskSeconds
                case LimitExceeded(ModelCallLimit) => task.modelCalls >= limits.maxModelCalls
                case LimitExceeded(ReplanLimit) => task.replanCount == limits.maxReplans
                case e => FromOutside(e)
      ensures out.recovery.Some? ==>
                && Concludes(out.cycles, Rollback)
                && RecoveryOk(limits, Results(out.cycles), Clock(out.cycles), out.recovery.value)
      ensures Clock(out.cycles) <= clock - old(clock)
      ensures out.recovery.Some? && out.recovery.value.cut.OutOfBudget? ==>
                out.recovery.value.cut.elapsed <= clock - old(clock)
      ensures Obeyed(limits, out.heard, out.cycles, PlansOf(out.recovery))
      ensures out.succeeded <==>
                out.heard.verdicts != [] && out.heard.verdicts[|out.heard.verdicts| - 1] == Complete
      ensures out.ran == Record(out.cycles) + RecoveryRan(out.recovery)
      ensures out.launched == Attempts(out.cycles) + RecoveryAttempts(out.recovery)
      ensures out.known == old(executor.Under(obj.task))
      ensures executor.handed == old(executor.handed) + CallsOf(out.launched)
      ensures Accounted(executor.procs, out.known, out.launched, out.ran, obj)
      ensures forall x :: x in out.ran ==> InLedger(executor.audit.ledger, x)
      ensures forall c :: c in NewCalls(out, obj) ==> CallIsSanctioned(executor.procs, out.heard, c, obj)
      ensures |NewCalls(out, obj)| == |out.launched| <= limits.maxPlanSteps
      ensures forall x :: x in out.launched ==>
                x.call in executor.procs && JobFor(executor.procs[x.call].call.job, x.step, obj)
      ensures |out.cycles| <= task.replanCount + 1 <= limits.maxReplans + 1
      ensures task.modelCalls <= out.asks <= limits.maxModelCalls + 3 && out.asks <= 3 * (limits.maxReplans + 1) + 1
      ensures limits.maxModelCalls == 0 ==> out.asks == 0
      ensures forall c, tool, risk :: c in NewCalls(out, obj) && P.ToolStarted(c, tool, risk) in executor.trace ==>
                && c in executor.procs
                && R.StartAuthorised(executor.settings, executor.procs[c].call.job, risk)
                && risk.Rank() <= obj.maxRisk.Rank()
                && (obj.dryRun ==> risk == Read)
    {
      hide CallsOf, Admissible, Accounted, Faithful, InLedger, RecoveryOk, LegalPath, Obeyed, P.Run, P.CallsUnder;
      hide Tally.Within, Tally.AtHead, ClosedStory, CallIsSanctioned, NewCalls, Story, R.StartAuthorised, JobFor;
      hide AllRecorded, Recorded, HandedOver, ByVerdict, Concludes, Results, Record, Attempts, RecoveryRan;
      hide RecoveryAttempts, PlansOf, Clock, Trailing;
      var budget;
      task, budget, out := Begin(obj);
      Conclude(task, budget, out, obj);
      TallyOf(budget, out).WithinMeans(limits);
      RunEndedAsTold(task, budget, out);
      RunIsAccountedFor(budget, out, obj);
      LaunchesAreForSteps(executor.procs, out.known, out.launched, out.ran, obj);
    }
  }
}
