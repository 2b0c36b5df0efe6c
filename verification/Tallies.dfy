/** What a run of the orchestration loop has used up, and the bounds the record of
    its cycles forces on it (brain/orchestrator.py, brain/limits.py). */
module Tallies {
  import opened Common
  import opened Limits
  import opened Cycles
  import opened TaskEvents

  /** The last cycle was verified, and this was the verdict. */
  predicate Concludes(cycles: seq<Cycle>, v: Verdict) {
    cycles != [] && cycles[|cycles| - 1].approved && cycles[|cycles| - 1].verdict == Some(v)
  }

  predicate Concluded(cycles: seq<Cycle>) {
    Concludes(cycles, Complete)
  }

  /** The last verdict ended the run; if it was to roll back, recovery came to its
      end. */
  predicate ByVerdict(cycles: seq<Cycle>, recovery: Option<Recovery>) {
    || Concludes(cycles, Complete)
    || Concludes(cycles, Abort)
    || (Concludes(cycles, Rollback) && recovery.Some? && !recovery.value.cut.Torn?)
  }

  function RecoveryRan(rec: Option<Recovery>): seq<Ran> {
    match rec
    case None => []
    case Some(r) => r.ran
  }

  function RecoveryResults(rec: Option<Recovery>): seq<bool> {
    match rec
    case None => []
    case Some(r) => Successes(r.ran)
  }

  function RecoveryAttempts(rec: Option<Recovery>): seq<Launch> {
    match rec
    case None => []
    case Some(r) => AttemptsIn(r.plan, r.ran, r.cut)
  }

  // ---- how a run is announced

  /** Two events a cycle: the plan, and what the review made of it. */
  function Announced(cycles: seq<Cycle>): seq<TaskEvent> {
    if cycles == [] then []
    else
      Announced(cycles[..|cycles| - 1])
      + [PlanCreated, if cycles[|cycles| - 1].approved then PlanApproved else PlanRejected]
  }

  function Story(cycles: seq<Cycle>, tail: seq<TaskEvent>): seq<TaskEvent> {
    [TaskCreated] + Announced(cycles) + tail
  }

  /** Where an exception may find the story: between cycles, in planning, or
      rolling back. */
  predicate OpenStory(events: seq<TaskEvent>, cycles: seq<Cycle>) {
    events == Story(cycles, []) || events == Story(cycles, [PlanCreated]) || events == Story(cycles, [RollbackStarted])
  }

  /** How the story may end. */
  predicate ClosedStory(events: seq<TaskEvent>, cycles: seq<Cycle>, recovery: Option<Recovery>, succeeded: bool) {
    if succeeded then events == Story(cycles, [TaskCompleted])
    else
      || events == Story(cycles, [TaskFailed])
      || events == Story(cycles, [PlanCreated, TaskFailed])
      || events == Story(cycles, [RollbackStarted, TaskFailed])
      || (recovery.Some? && events == Story(cycles, RolledBack(recovery.value)))
  }

  function RolledBack(rec: Recovery): seq<TaskEvent> {
    [RollbackStarted, RollbackCompleted(|rec.plan|, Count(Successes(rec.ran))), TaskFailed]
  }

  lemma StoryOfCycle(cycles: seq<Cycle>, cy: Cycle)
    ensures Story(cycles, []) + [PlanCreated] == Story(cycles, [PlanCreated])
    ensures Story(cycles, [PlanCreated]) + [if cy.approved then PlanApproved else PlanRejected] == Story(cycles + [cy], [])
  {
    assert (cycles + [cy])[..|cycles|] == cycles;
  }

  lemma StoryGoesOn(cycles: seq<Cycle>, tail: seq<TaskEvent>, more: seq<TaskEvent>)
    ensures Story(cycles, tail) + more == Story(cycles, tail + more)
  {
  }

  /** An exception ends the story with a failure. */
  lemma FailureClosesStory(events: seq<TaskEvent>, cycles: seq<Cycle>, recovery: Option<Recovery>)
    requires OpenStory(events, cycles)
    ensures ClosedStory(events + [TaskFailed], cycles, recovery, false)
  {
    StoryGoesOn(cycles, [], [TaskFailed]);
    StoryGoesOn(cycles, [PlanCreated], [TaskFailed]);
    StoryGoesOn(cycles, [RollbackStarted], [TaskFailed]);
  }

  lemma {:induction false} AnnouncedCloseNothing(cycles: seq<Cycle>)
    ensures NoneClosing(Announced(cycles))
  {
    if cycles != [] {
      AnnouncedCloseNothing(cycles[..|cycles| - 1]);
    }
  }

  /** Such a story has one closing event, its last, and it says how it ended. */
  lemma StoryClosesOnce(events: seq<TaskEvent>, cycles: seq<Cycle>, recovery: Option<Recovery>, succeeded: bool)
    requires ClosedStory(events, cycles, recovery, succeeded)
    ensures ClosedOnce(events) && events[0] == TaskCreated
    ensures events[|events| - 1] == if succeeded then TaskCompleted else TaskFailed
  {
    AnnouncedCloseNothing(cycles);
  }

  /** What a cycle adds to the record. */
  lemma OneMoreCycle(l: Limits, cycles: seq<Cycle>, cy: Cycle)
    requires Admissible(l, cycles) && (cycles != [] ==> Replans(cycles[|cycles| - 1])) && |cycles| <= l.maxReplans
    requires Clock(cycles) <= cy.began && CycleOk(l, Results(cycles), Calls(cycles), cy)
    ensures Admissible(l, cycles + [cy])
    ensures Results(cycles + [cy]) == Results(cycles) + Successes(cy.ran)
    ensures Record(cycles + [cy]) == Record(cycles) + cy.ran
    ensures Attempts(cycles + [cy]) == Attempts(cycles) + AttemptsIn(cy.plan, cy.ran, cy.cut)
    ensures Calls(cycles + [cy]) == Calls(cycles) + if cy.verdict.Some? then 3 else 2
  {
    hide CycleOk, Clock, Replans, AttemptsIn, Successes;
    assert (cycles + [cy])[..|cycles|] == cycles;
  }

  /** Every step a cycle attempts is within the step budget, and it began within the
      inference budget. */
  lemma AttemptsFit(l: Limits, prior: seq<bool>, calls: nat, cy: Cycle)
    requires CycleOk(l, prior, calls, cy) && |prior| <= l.maxPlanSteps
    ensures |prior| + |AttemptsIn(cy.plan, cy.ran, cy.cut)| <= l.maxPlanSteps && calls < l.maxModelCalls
  {
    if cy.ran != [] {
      assert BudgetHit(l, prior + Successes(cy.ran[..|cy.ran| - 1]), calls + 2) == {};
    }
  }

  /** Everything a run has used up so far. */
  datatype Tally = Tally(
    cycles: seq<Cycle>, recovery: Option<Recovery>, ran: seq<Ran>, results: seq<bool>, launched: seq<Launch>,
    modelCalls: nat, asks: nat, replans: nat)
  {
    /** A record the budgets allow: at most one cycle more than replans, never
        more calls to the executor than plan steps, and inferences that overshoot
        their budget by at most three. */
    ghost predicate Within(l: Limits) {
      && Admissible(l, cycles)
      && ran == Record(cycles) + RecoveryRan(recovery)
      && results == Results(cycles) + RecoveryResults(recovery)
      && (recovery.Some? ==>
            Concludes(cycles, Rollback) && RecoveryOk(l, Results(cycles), Clock(cycles), recovery.value))
      && launched == Attempts(cycles) + RecoveryAttempts(recovery)
      && |launched| <= l.maxPlanSteps
      && modelCalls <= asks <= modelCalls + 1
      && asks <= l.maxModelCalls + 3
      && (l.maxModelCalls == 0 ==> asks == 0)
      && asks <= 3 * (l.maxReplans + 1) + 1
      && replans <= l.maxReplans
      && |cycles| <= replans + 1
    }

    lemma WithinMeans(l: Limits)
      requires Within(l)
      ensures Admissible(l, cycles)
      ensures recovery.Some? ==>
                Concludes(cycles, Rollback) && RecoveryOk(l, Results(cycles), Clock(cycles), recovery.value)
      ensures ran == Record(cycles) + RecoveryRan(recovery)
      ensures launched == Attempts(cycles) + RecoveryAttempts(recovery)
      ensures |launched| <= l.maxPlanSteps && |cycles| <= replans + 1 <= l.maxReplans + 1
      ensures modelCalls <= asks <= l.maxModelCalls + 3 && asks <= 3 * (l.maxReplans + 1) + 1
      ensures l.maxModelCalls == 0 ==> asks == 0
    {
    }

    /** Before recovery the record is that of the cycles alone. */
    lemma WithoutRecovery(l: Limits)
      requires recovery == None && Admissible(l, cycles)
      requires ran == Record(cycles) && results == Results(cycles) && launched == Attempts(cycles)
      requires |launched| <= l.maxPlanSteps && modelCalls <= asks <= modelCalls + 1
      requires asks <= l.maxModelCalls + 3 && (l.maxModelCalls == 0 ==> asks == 0)
      requires asks <= 3 * (l.maxReplans + 1) + 1 && replans <= l.maxReplans && |cycles| <= replans + 1
      ensures Within(l)
    {
      hide Admissible, Record, Results, Attempts;
    }

    /** One more inference, answered or not, while there is room for one. */
    lemma AskStaysWithin(l: Limits, next: Tally)
      requires Within(l) && asks == modelCalls && l.maxModelCalls > 0
      requires asks < l.maxModelCalls + 3 && asks < 3 * (l.maxReplans + 1) + 1
      requires next == this.(asks := asks + 1, modelCalls := next.modelCalls)
      requires next.modelCalls == modelCalls || next.modelCalls == modelCalls + 1
      ensures next.Within(l)
    {
    }

    /** The top of the loop: every cycle went round again and was paid for. */
    ghost predicate AtHead(l: Limits) {
      && Within(l)
      && recovery == None
      && (cycles != [] ==> Replans(cycles[|cycles| - 1]))
      && replans == |cycles|
      && modelCalls == Calls(cycles) == asks
      && |launched| == |results| == |ran|
    }

    lemma StartIsAtHead(l: Limits)
      requires this == Tally([], None, [], [], [], 0, 0, 0)
      ensures AtHead(l)
    {
    }

    lemma HeadIsWithin(l: Limits)
      requires AtHead(l)
      ensures Within(l) && asks == modelCalls && recovery == None && |launched| == |ran| && !Concluded(cycles)
      ensures results == Results(cycles)
    {
    }

    lemma HeadIsCycles(l: Limits)
      requires AtHead(l)
      ensures recovery == None && Admissible(l, cycles) && (cycles != [] ==> Replans(cycles[|cycles| - 1]))
      ensures ran == Record(cycles) && results == Results(cycles) && launched == Attempts(cycles)
      ensures modelCalls == Calls(cycles) == asks && replans == |cycles| <= l.maxReplans
      ensures |launched| == |results| <= l.maxPlanSteps
    {
      hide Admissible;
    }

    /** Up to three inferences into a cycle that began within budget. */
    lemma CycleAsksStayWithin(l: Limits, next: Tally)
      requires AtHead(l)
      requires next == this.(asks := next.asks, modelCalls := next.modelCalls)
      requires asks <= next.asks <= asks + 3 && next.modelCalls <= next.asks <= next.modelCalls + 1
      requires next.asks > asks ==> modelCalls < l.maxModelCalls
      ensures next.Within(l)
    {
      BudgetsHold(l, cycles);
    }

    /** Through the steps of one cycle: what `next` has that this did not. */
    ghost predicate Through(l: Limits, cy: Cycle, next: Tally) {
      && CycleOk(l, results, modelCalls, cy)
      && Clock(cycles) <= cy.began
      && next == this.(ran := ran + cy.ran, results := results + Successes(cy.ran),
                       launched := launched + AttemptsIn(cy.plan, cy.ran, cy.cut),
                       asks := next.asks, modelCalls := next.modelCalls)
      && asks + 2 <= next.asks <= asks + 3
      && next.modelCalls <= next.asks <= next.modelCalls + 1
    }

    /** A finished cycle joins the record. */
    lemma CycleStaysWithin(l: Limits, cy: Cycle, ran: Tally, next: Tally)
      requires AtHead(l) && Through(l, cy, ran) && next == ran.(cycles := cycles + [cy])
      ensures next.Within(l)
      ensures Calls(next.cycles) == Calls(cycles) + if cy.verdict.Some? then 3 else 2
      ensures next.asks < l.maxModelCalls + 3 && next.asks < 3 * (l.maxReplans + 1) + 1 && l.maxModelCalls > 0
    {
      hide AtHead, Within, Admissible, CycleOk, Clock, Replans, Results, Record, Attempts, Calls, AttemptsIn, Successes;
      HeadIsCycles(l);
      AttemptsFit(l, results, modelCalls, cy);
      OneMoreCycle(l, cycles, cy);
      BudgetsHold(l, cycles);
      BudgetsHold(l, next.cycles);
      next.WithoutRecovery(l);
    }

    /** A cycle has just been verified and recorded, and nothing has been done
        about it. */
    ghost predicate JustVerified(l: Limits, v: Verdict) {
      && Within(l) && recovery == None && Concludes(cycles, v)
      && |cycles| == replans + 1
      && modelCalls == asks == Calls(cycles) && |launched| == |results| == |ran|
      && asks < l.maxModelCalls + 3 && asks < 3 * (l.maxReplans + 1) + 1 && l.maxModelCalls > 0
    }

    /** A verdict changes nothing about the steps. */
    lemma CycleVerified(l: Limits, cy: Cycle, v: Verdict, ran: Tally, next: Tally)
      requires AtHead(l) && Through(l, cy, ran) && cy.approved && !cy.cut.Torn?
      requires ran.asks == ran.modelCalls == asks + 2
      requires next == ran.(asks := asks + 3, modelCalls := asks + 3, cycles := cycles + [cy.(verdict := Some(v))])
      ensures next.JustVerified(l, v) && next.Within(l) && Concludes(next.cycles, v)
    {
      var done := cy.(verdict := Some(v));
      assert Through(l, done, next.(cycles := cycles));
      CycleStaysWithin(l, done, next.(cycles := cycles), next);
    }

    /** An exception ends a cycle that was not verified. */
    lemma CycleTorn(l: Limits, cy: Cycle, ran: Tally, next: Tally)
      requires AtHead(l) && Through(l, cy, ran) && cy.verdict == None
      requires next == ran.(asks := next.asks, cycles := cycles + [cy])
      requires ran.modelCalls == asks + 2 && asks + 2 <= next.asks <= asks + 3
      ensures next.Within(l) && next.recovery == None && !Concluded(next.cycles)
    {
      assert Through(l, cy, next.(cycles := cycles));
      CycleStaysWithin(l, cy, next.(cycles := cycles), next);
    }

    /** A rejected plan is a cycle too. */
    lemma CycleRejected(l: Limits, began: real, plan: seq<PlanStep>, ran: Tally, next: Tally)
      requires AtHead(l) && modelCalls < l.maxModelCalls
      requires 0.0 <= began < l.maxTaskSeconds && Clock(cycles) <= began
      requires ran == this.(asks := asks + 2, modelCalls := modelCalls + 2)
      requires next == ran.(cycles := cycles + [Cycle(began, false, plan, [], Exhaustive, None)])
      ensures next.Unpaid(l) && next.Within(l) && !Concluded(next.cycles)
    {
      var cy := Cycle(began, false, plan, [], Exhaustive, None);
      assert Successes(cy.ran) == [] && results + [] == results && this.ran + [] == this.ran;
      assert AttemptsIn(cy.plan, cy.ran, cy.cut) == [] && launched + [] == launched;
      assert Through(l, cy, ran);
      CycleStaysWithin(l, cy, ran, next);
    }

    /** The last cycle goes round again and has yet to be paid for. */
    ghost predicate Unpaid(l: Limits) {
      && Within(l) && recovery == None
      && cycles != [] && Replans(cycles[|cycles| - 1])
      && |cycles| == replans + 1
      && modelCalls == asks == Calls(cycles) && |launched| == |results| == |ran|
    }

    /** One replan spent, and round again. */
    lemma ReplanReturnsToHead(l: Limits, next: Tally)
      requires Unpaid(l) && replans < l.maxReplans && next == this.(replans := replans + 1)
      ensures next.AtHead(l) && next.Within(l)
    {
    }

    lemma RecoveryStaysWithin(l: Limits, next: Tally)
      requires Within(l) && recovery == None && next.recovery.Some? && Concludes(cycles, Rollback)
      requires next == this.(recovery := next.recovery, ran := next.ran, results := next.results, launched := next.launched)
      requires RecoveryOk(l, results, Clock(cycles), next.recovery.value)
      requires next.ran == ran + next.recovery.value.ran
      requires next.results == results + RecoveryResults(next.recovery)
      requires next.launched == launched + RecoveryAttempts(next.recovery)
      requires |next.launched| <= l.maxPlanSteps
      ensures next.Within(l)
    {
      assert Results(cycles) + [] == Results(cycles) && Record(cycles) + [] == Record(cycles);
      assert Attempts(cycles) + [] == Attempts(cycles);
    }
  }
}
