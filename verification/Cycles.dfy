/** The record of a run of the orchestration loop, and what the budgets force on
    every record, whatever the agents, the tools and the clock did
    (brain/orchestrator.py, brain/limits.py). */
module Cycles {
  import opened Common
  import opened Risk
  import opened Tasks
  import opened Limits
  import A = Approvals

  datatype PlanStep = PlanStep(tool: string, arguments: string, expectedRisk: RiskLevel)

  /** A step that came back from the executor: the call it became, how that ended,
      and the seconds on the clock when its budgets were checked; `denied` covers a
      policy denial and malformed arguments. */
  datatype Ran = Ran(step: PlanStep, call: A.CallId, success: bool, denied: bool, elapsed: real)

  /** Why a step loop stopped; a budget is named with the clock reading, an exception
      with the call it broke off. */
  datatype Cut = Exhaustive | OutOfBudget(limit: Limit, elapsed: real) | PolicyDenied | Torn(call: A.CallId)

  /** A call handed to the executor, and the step it was for. */
  datatype Launch = Launch(call: A.CallId, step: PlanStep)

  datatype Verdict = Continue | Replan | Complete | Rollback | Abort

  /** One turn of the loop from an accepted review on; `began` is the clock reading
      at its top, and `verdict` is None when the plan was rejected or an exception
      came first. */
  datatype Cycle = Cycle(
    began: real, approved: bool, plan: seq<PlanStep>, ran: seq<Ran>, cut: Cut, verdict: Option<Verdict>)

  datatype Recovery = Recovery(plan: seq<PlanStep>, ran: seq<Ran>, cut: Cut)

  function Successes(ran: seq<Ran>): seq<bool> {
    seq(|ran|, i requires 0 <= i < |ran| => ran[i].success)
  }

  function Lines(ran: seq<Ran>): seq<Launch> {
    seq(|ran|, i requires 0 <= i < |ran| => Launch(ran[i].call, ran[i].step))
  }

  /** The calls of one step loop: those that came back and the one broken off. */
  function AttemptsIn(plan: seq<PlanStep>, ran: seq<Ran>, cut: Cut): seq<Launch> {
    Lines(ran) + if cut.Torn? && |ran| < |plan| then [Launch(cut.call, plan[|ran|])] else []
  }

  /** The calls of all cycles. */
  function Attempts(cycles: seq<Cycle>): seq<Launch> {
    if cycles == [] then []
    else
      var last := cycles[|cycles| - 1];
      Attempts(cycles[..|cycles| - 1]) + AttemptsIn(last.plan, last.ran, last.cut)
  }

  lemma LinesExtend(ran: seq<Ran>, x: Ran)
    ensures Lines(ran + [x]) == Lines(ran) + [Launch(x.call, x.step)]
  {
  }

  /** Every step that came back, over all cycles. */
  function Record(cycles: seq<Cycle>): seq<Ran> {
    if cycles == [] then []
    else Record(cycles[..|cycles| - 1]) + cycles[|cycles| - 1].ran
  }

  /** The outcomes of every step, over all cycles. */
  function Results(cycles: seq<Cycle>): seq<bool> {
    if cycles == [] then []
    else Results(cycles[..|cycles| - 1]) + Successes(cycles[|cycles| - 1].ran)
  }

  /** The inferences the cycles answered for. */
  function Calls(cycles: seq<Cycle>): nat {
    if cycles == [] then 0
    else Calls(cycles[..|cycles| - 1]) + if cycles[|cycles| - 1].verdict.Some? then 3 else 2
  }

  /** Continuing and replanning both mean another cycle. */
  predicate GoesRound(v: Verdict) {
    v == Continue || v == Replan
  }

  /** The loop goes round again. */
  predicate Replans(cy: Cycle) {
    cy.approved ==> cy.verdict.Some? && GoesRound(cy.verdict.value)
  }

  function BudgetHit(l: Limits, results: seq<bool>, calls: nat): set<Limit> {
    Exhausted(l, |results|, calls, Trailing(results))
  }

  /** The last clock reading of a step loop that began at `from`. */
  function Reading(from: real, ran: seq<Ran>, cut: Cut): real {
    if cut.OutOfBudget? then cut.elapsed else LastRan(from, ran)
  }

  function LastRan(from: real, ran: seq<Ran>): real {
    if ran == [] then from else ran[|ran| - 1].elapsed
  }

  /** The clock of a step loop: it never goes back, every step was checked before
      time was up, and time is named exactly when it was. */
  predicate Timed(l: Limits, from: real, ran: seq<Ran>, cut: Cut) {
    && Paced(l, from, ran)
    && (cut.OutOfBudget? ==>
          LastRan(from, ran) <= cut.elapsed && (cut.limit == TimeLimit <==> cut.elapsed >= l.maxTaskSeconds))
  }

  predicate Paced(l: Limits, from: real, ran: seq<Ran>) {
    forall k :: 0 <= k < |ran| ==>
      (if k == 0 then from else ran[k - 1].elapsed) <= ran[k].elapsed < l.maxTaskSeconds
  }

  /** One cycle, begun with `prior` outcomes and `calls` inferences behind it. The
      steps that ran are a prefix of the reviewed plan; each was affordable when
      it was reached; and the prefix stops short only at the budget that is
      exhausted there, at a denial, or at an exception. */
  predicate CycleOk(l: Limits, prior: seq<bool>, calls: nat, cy: Cycle) {
    && calls < l.maxModelCalls
    && 0.0 <= cy.began < l.maxTaskSeconds
    && Timed(l, cy.began, cy.ran, cy.cut)
    && (if cy.approved then cy.plan != [] else cy.ran == [] && cy.cut == Exhaustive && cy.verdict == None)
    && |cy.ran| <= |cy.plan|
    && (forall k :: 0 <= k < |cy.ran| ==>
          && cy.ran[k].step == cy.plan[k]
          && BudgetHit(l, prior + Successes(cy.ran[..k]), calls + 2) == {}
          && (cy.ran[k].denied ==> !cy.ran[k].success && k == |cy.ran| - 1 && cy.cut == PolicyDenied))
    && match cy.cut
       case Exhaustive => cy.approved ==> |cy.ran| == |cy.plan|
       case PolicyDenied => cy.ran != [] && cy.ran[|cy.ran| - 1].denied
       case OutOfBudget(limit, _) =>
         && |cy.ran| < |cy.plan|
         && (limit == TimeLimit || limit in BudgetHit(l, prior + Successes(cy.ran), calls + 2))
       case Torn(_) =>
         && |cy.ran| < |cy.plan|
         && cy.verdict == None
         && BudgetHit(l, prior + Successes(cy.ran), calls + 2) == {}
  }

  /** The clock reading a record ends with. */
  function Clock(cycles: seq<Cycle>): real {
    if cycles == [] then 0.0
    else var last := cycles[|cycles| - 1]; Reading(last.began, last.ran, last.cut)
  }

  /** A record of cycles: each admissible after those before it, all but the last
      going round again, each later one paid for with a replan, and the clock never
      going back. */
  predicate Admissible(l: Limits, cycles: seq<Cycle>) {
    cycles != [] ==>
      var n := |cycles| - 1;
      && Admissible(l, cycles[..n])
      && (n > 0 ==> Replans(cycles[n - 1]))
      && n <= l.maxReplans
      && Clock(cycles[..n]) <= cycles[n].began
      && CycleOk(l, Results(cycles[..n]), Calls(cycles[..n]), cycles[n])
  }

  /** Recovery, from clock reading `from` on: its steps check time and step budgets,
      nothing else, and a denial does not stop them. */
  predicate RecoveryOk(l: Limits, prior: seq<bool>, from: real, rec: Recovery) {
    && Timed(l, from, rec.ran, rec.cut)
    && |rec.ran| <= |rec.plan|
    && (forall k :: 0 <= k < |rec.ran| ==> rec.ran[k].step == rec.plan[k] && |prior| + k < l.maxPlanSteps)
    && match rec.cut
       case Exhaustive => |rec.ran| == |rec.plan|
       case OutOfBudget(limit, _) =>
         && |rec.ran| < |rec.plan|
         && (limit == TimeLimit || (limit == StepLimit && |prior| + |rec.ran| >= l.maxPlanSteps))
       case Torn(_) => |rec.ran| < |rec.plan| && |prior| + |rec.ran| < l.maxPlanSteps
       case PolicyDenied => false
  }

  // ---- building a record, step by step

  /** The step loop is still going. */
  predicate Progress(l: Limits, prior: seq<bool>, calls: nat, from: real, plan: seq<PlanStep>, ran: seq<Ran>) {
    && Paced(l, from, ran)
    && |ran| <= |plan|
    && forall k :: 0 <= k < |ran| ==>
         ran[k].step == plan[k] && !ran[k].denied && BudgetHit(l, prior + Successes(ran[..k]), calls) == {}
  }

  lemma ProgressStarts(l: Limits, prior: seq<bool>, calls: nat, from: real, plan: seq<PlanStep>)
    ensures Progress(l, prior, calls + 2, from, plan, [])
    ensures prior == prior + Successes([]) && LastRan(from, []) == from
  {
  }

  lemma PacedExtends(l: Limits, from: real, ran: seq<Ran>, x: Ran)
    requires Paced(l, from, ran) && LastRan(from, ran) <= x.elapsed < l.maxTaskSeconds
    ensures Paced(l, from, ran + [x]) && LastRan(from, ran + [x]) == x.elapsed
    ensures Successes(ran + [x]) == Successes(ran) + [x.success]
  {
    var more := ran + [x];
    assert forall k :: 0 <= k < |ran| ==> more[k] == ran[k];
  }

  lemma ProgressExtends(
      l: Limits, prior: seq<bool>, calls: nat, from: real, plan: seq<PlanStep>, ran: seq<Ran>, x: Ran)
    requires Progress(l, prior, calls + 2, from, plan, ran) && |ran| < |plan| && x.step == plan[|ran|]
    requires calls < l.maxModelCalls && BudgetHit(l, prior + Successes(ran), calls + 2) == {}
    requires 0.0 <= from < l.maxTaskSeconds && LastRan(from, ran) <= x.elapsed < l.maxTaskSeconds
    requires x.denied ==> !x.success
    ensures Successes(ran + [x]) == Successes(ran) + [x.success]
    ensures LastRan(from, ran + [x]) == x.elapsed
    ensures !x.denied ==> Progress(l, prior, calls + 2, from, plan, ran + [x])
    ensures x.denied ==> CycleOk(l, prior, calls, Cycle(from, true, plan, ran + [x], PolicyDenied, None))
  {
    hide Paced, LastRan, BudgetHit;
    PacedExtends(l, from, ran, x);
    var more := ran + [x];
    assert forall k :: 0 <= k <= |ran| ==> more[..k] == ran[..k];
    assert more[..|ran|] == ran;
  }

  lemma ProgressStops(
      l: Limits, prior: seq<bool>, calls: nat, from: real, plan: seq<PlanStep>, ran: seq<Ran>, cut: Cut)
    requires Progress(l, prior, calls + 2, from, plan, ran) && plan != [] && calls < l.maxModelCalls
    requires 0.0 <= from < l.maxTaskSeconds
    requires cut.OutOfBudget? ==>
               LastRan(from, ran) <= cut.elapsed && (cut.limit == TimeLimit <==> cut.elapsed >= l.maxTaskSeconds)
    requires var hit := BudgetHit(l, prior + Successes(ran), calls + 2);
             match cut
             case Exhaustive => |ran| == |plan|
             case PolicyDenied => false
             case OutOfBudget(limit, _) => |ran| < |plan| && (limit == TimeLimit || limit in hit)
             case Torn(_) => |ran| < |plan| && hit == {}
    ensures CycleOk(l, prior, calls, Cycle(from, true, plan, ran, cut, None))
  {
  }

  /** Each line is about the step in its place in the plan. */
  lemma CycleFollowsPlan(l: Limits, prior: seq<bool>, calls: nat, cy: Cycle)
    requires CycleOk(l, prior, calls, cy)
    ensures |cy.ran| <= |cy.plan| && forall k :: 0 <= k < |cy.ran| ==> cy.ran[k].step == cy.plan[k]
  {
  }

  function Count(results: seq<bool>): nat {
    multiset(results)[true]
  }

  /** The recovery loop is still going. */
  predicate Recovering(l: Limits, prior: seq<bool>, from: real, plan: seq<PlanStep>, ran: seq<Ran>) {
    && Paced(l, from, ran)
    && |ran| <= |plan|
    && forall k :: 0 <= k < |ran| ==> ran[k].step == plan[k] && |prior| + k < l.maxPlanSteps
  }

  lemma RecoveryStarts(l: Limits, prior: seq<bool>, from: real, plan: seq<PlanStep>)
    ensures Recovering(l, prior, from, plan, [])
    ensures prior == prior + Successes([]) && Count(Successes([])) == 0 && LastRan(from, []) == from
  {
  }

  lemma RecoveryStops(l: Limits, prior: seq<bool>, from: real, plan: seq<PlanStep>, ran: seq<Ran>, cut: Cut)
    requires Recovering(l, prior, from, plan, ran)
    requires cut.OutOfBudget? ==>
               LastRan(from, ran) <= cut.elapsed && (cut.limit == TimeLimit <==> cut.elapsed >= l.maxTaskSeconds)
    requires var steps := |prior + Successes(ran)|;
             match cut
             case Exhaustive => |ran| == |plan|
             case PolicyDenied => false
             case OutOfBudget(limit, _) =>
               |ran| < |plan| && (limit == TimeLimit || (limit == StepLimit && steps >= l.maxPlanSteps))
             case Torn(_) => |ran| < |plan| && steps < l.maxPlanSteps
    ensures RecoveryOk(l, prior, from, Recovery(plan, ran, cut))
  {
  }

  lemma RecoveryExtends(l: Limits, prior: seq<bool>, from: real, plan: seq<PlanStep>, ran: seq<Ran>, x: Ran)
    requires Recovering(l, prior, from, plan, ran) && |ran| < |plan| && x.step == plan[|ran|]
    requires |prior + Successes(ran)| < l.maxPlanSteps
    requires LastRan(from, ran) <= x.elapsed < l.maxTaskSeconds
    ensures Recovering(l, prior, from, plan, ran + [x])
    ensures LastRan(from, ran + [x]) == x.elapsed
    ensures Successes(ran + [x]) == Successes(ran) + [x.success]
    ensures Count(Successes(ran + [x])) == Count(Successes(ran)) + if x.success then 1 else 0
  {
    hide Paced, LastRan;
    PacedExtends(l, from, ran, x);
  }

  // ---- what follows for every record

  /** The budgets hold over the whole record: steps across all cycles, cycles, and
      inferences, which are checked twice a cycle and overshoot by at most two. */
  lemma {:induction false} BudgetsHold(l: Limits, cycles: seq<Cycle>)
    requires Admissible(l, cycles)
    ensures |Results(cycles)| <= l.maxPlanSteps
    ensures |cycles| <= l.maxReplans + 1
    ensures Calls(cycles) <= 3 * |cycles|
    ensures Calls(cycles) <= l.maxModelCalls + 2
  {
    if cycles != [] {
      var n := |cycles| - 1;
      BudgetsHold(l, cycles[..n]);
      var last := cycles[n];
      if last.ran != [] {
        var k := |last.ran| - 1;
        assert BudgetHit(l, Results(cycles[..n]) + Successes(last.ran[..k]), Calls(cycles[..n]) + 2) == {};
      } else {
        assert Results(cycles) == Results(cycles[..n]);
      }
    }
  }

  /** Once the run of failures reaches its limit, no later cycle of the plan loop
      executes a single step, however often it replans. */
  lemma {:induction false} FailureLimitIsFinal(l: Limits, cycles: seq<Cycle>, i: nat)
    requires Admissible(l, cycles) && i <= |cycles|
    requires Trailing(Results(cycles[..i])) >= l.maxFailures
    ensures Results(cycles) == Results(cycles[..i])
    ensures forall j :: i <= j < |cycles| ==> cycles[j].ran == []
  {
    hide Timed, Clock, Trailing;
    if i == |cycles| {
      assert cycles[..i] == cycles;
    } else {
      var n := |cycles| - 1;
      assert cycles[..n][..i] == cycles[..i];
      FailureLimitIsFinal(l, cycles[..n], i);
      NoStepBeyond(l, Results(cycles[..n]), Calls(cycles[..n]), cycles[n]);
    }
  }

  lemma NoStepBeyond(l: Limits, prior: seq<bool>, calls: nat, cy: Cycle)
    requires CycleOk(l, prior, calls, cy)
    requires BudgetHit(l, prior, calls + 2) != {}
    ensures cy.ran == []
  {
    assert cy.ran != [] ==> prior + Successes(cy.ran[..0]) == prior;
  }

  /** The same for the step budget and the inference budget. */
  lemma {:induction false} StepLimitIsFinal(l: Limits, cycles: seq<Cycle>, i: nat)
    requires Admissible(l, cycles) && i <= |cycles|
    requires |Results(cycles[..i])| >= l.maxPlanSteps
    ensures Results(cycles) == Results(cycles[..i])
  {
    if i == |cycles| {
      assert cycles[..i] == cycles;
    } else {
      var n := |cycles| - 1;
      assert cycles[..n][..i] == cycles[..i];
      StepLimitIsFinal(l, cycles[..n], i);
      NoStepBeyond(l, Results(cycles[..n]), Calls(cycles[..n]), cycles[n]);
    }
  }

  /** The steps are the same and ended alike. */
  predicate SameOutcome(x: Ran, y: Ran) {
    x.step == y.step && x.success == y.success && x.denied == y.denied
  }

  /** The reason without the clock. */
  predicate SameReason(a: Cut, b: Cut) {
    a == b || (a.OutOfBudget? && b.OutOfBudget? && a.limit == b.limit)
  }

  /** What ran is determined by the plan and the outcomes alone: two admissible
      cycles with the same plan and history that agree on every common outcome
      and were not stopped by the clock or an exception ran the same steps. */
  lemma PrefixIsDetermined(l: Limits, prior: seq<bool>, calls: nat, a: Cycle, b: Cycle)
    requires CycleOk(l, prior, calls, a) && CycleOk(l, prior, calls, b)
    requires a.approved && b.approved && a.plan == b.plan
    requires forall k :: 0 <= k < |a.ran| && k < |b.ran| ==> SameOutcome(a.ran[k], b.ran[k])
    requires !SameReason(a.cut, OutOfBudget(TimeLimit, 0.0)) && !a.cut.Torn?
    requires !SameReason(b.cut, OutOfBudget(TimeLimit, 0.0)) && !b.cut.Torn?
    ensures |a.ran| == |b.ran| && SameReason(a.cut, b.cut)
  {
    hide BudgetHit, Timed;
    ShorterIsNotCut(l, prior, calls, a, b);
    ShorterIsNotCut(l, prior, calls, b, a);
    OneIsNamed(l, prior + Successes(a.ran), calls + 2);
    assert Successes(a.ran) == Successes(b.ran);
  }

  lemma OneIsNamed(l: Limits, results: seq<bool>, calls: nat)
    ensures var hit := BudgetHit(l, results, calls);
            forall x, y :: x in hit && y in hit ==> x == y
  {
  }

  lemma ShorterIsNotCut(l: Limits, prior: seq<bool>, calls: nat, a: Cycle, b: Cycle)
    requires CycleOk(l, prior, calls, a) && CycleOk(l, prior, calls, b)
    requires a.approved && b.approved && a.plan == b.plan
    requires forall k :: 0 <= k < |a.ran| && k < |b.ran| ==> SameOutcome(a.ran[k], b.ran[k])
    requires !SameReason(a.cut, OutOfBudget(TimeLimit, 0.0)) && !a.cut.Torn?
    ensures |a.ran| >= |b.ran|
  {
    hide BudgetHit, Timed;
    var m := if |a.ran| <= |b.ran| then |a.ran| else |b.ran|;
    assert a.ran[..|a.ran|] == a.ran;
    assert Successes(a.ran[..m]) == Successes(b.ran[..m]);
    assert m > 0 ==> SameOutcome(a.ran[m - 1], b.ran[m - 1]);
  }
}
