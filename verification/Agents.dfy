/** What the agents answered in a run, and that the run kept to it
    (brain/orchestrator.py, agents/brahma.py, agents/vishnu.py, agents/mahesh.py). */
module Agents {
  import opened Common
  import opened Limits
  import opened Cycles
  import opened Tallies

  /** A review: Vishnu's verdict on a plan and the steps he is willing to run. */
  datatype Review = Review(approved: bool, steps: seq<PlanStep>)

  /** A plan put to Vishnu, and what he answered. */
  datatype Reviewing = Reviewing(proposal: seq<PlanStep>, answer: Review)

  /** Every answer of every agent, in order, as it was given. */
  datatype Answers = Answers(
    proposals: seq<seq<PlanStep>>, reviews: seq<Reviewing>, verdicts: seq<Verdict>, recoveries: seq<seq<PlanStep>>)

  const NOTHING := Answers([], [], [], [])

  /** Brahma's proposal is cut to that many steps. */
  function CutTo(steps: seq<PlanStep>, most: nat): seq<PlanStep> {
    if |steps| > most then steps[..most] else steps
  }

  /** The steps that remain, but never none. */
  function Remaining(l: Limits, done: nat): nat {
    if l.maxPlanSteps - done > 1 then l.maxPlanSteps - done else 1
  }

  /** Approving an empty plan does not count. The review is not cut again. */
  function Settled(answer: Review): Review {
    Review(answer.approved && answer.steps != [], answer.steps)
  }

  // ---- a run that keeps to the answers

  /** Vishnu was shown as much of the proposal as the steps that remain allow, and one
      step in any case. */
  predicate WasShown(l: Limits, proposal: seq<PlanStep>, x: Reviewing, prior: seq<bool>) {
    && x.proposal <= proposal
    && (|proposal| <= l.maxPlanSteps - |prior| ==> x.proposal == proposal)
    && (|x.proposal| <= l.maxPlanSteps - |prior| || |x.proposal| <= 1)
    && (x.proposal != proposal ==> |x.proposal| >= 1 && |x.proposal| >= l.maxPlanSteps - |prior|)
  }

  /** The cycle has the plan of his answer, and is approved if he approved and there
      is something to run. */
  predicate FollowsReview(l: Limits, proposal: seq<PlanStep>, x: Reviewing, prior: seq<bool>, cy: Cycle) {
    && WasShown(l, proposal, x, prior)
    && (cy.approved <==> x.answer.approved && x.answer.steps != [])
    && cy.plan == x.answer.steps
  }

  function VerdictOf(cy: Cycle): seq<Verdict> {
    match cy.verdict
    case None => []
    case Some(v) => [v]
  }

  function Verdicts(cycles: seq<Cycle>): seq<Verdict> {
    if cycles == [] then []
    else Verdicts(cycles[..|cycles| - 1]) + VerdictOf(cycles[|cycles| - 1])
  }

  function PlansOf(recovery: Option<Recovery>): seq<seq<PlanStep>> {
    match recovery
    case None => []
    case Some(rec) => [rec.plan]
  }

  predicate ReviewsFollowed(l: Limits, heard: Answers, cycles: seq<Cycle>) {
    && |cycles| <= |heard.proposals| && |cycles| <= |heard.reviews|
    && forall i :: 0 <= i < |cycles| ==>
         FollowsReview(l, heard.proposals[i], heard.reviews[i], Results(cycles[..i]), cycles[i])
  }

  /** Cycle by cycle, plan and approval are those of the review; the verdicts on
      record are the answers given to the question, each acted on; and what ran in
      recovery is what Mahesh proposed. A proposal may have gone unreviewed. */
  predicate Obeyed(l: Limits, heard: Answers, cycles: seq<Cycle>, recovered: seq<seq<PlanStep>>) {
    && ReviewsFollowed(l, heard, cycles)
    && |heard.reviews| == |cycles| && |heard.proposals| <= |cycles| + 1
    && heard.verdicts == Verdicts(cycles)
    && heard.recoveries == recovered
  }

  /** Between cycles. */
  predicate AllRecorded(l: Limits, heard: Answers, cycles: seq<Cycle>) {
    Obeyed(l, heard, cycles, []) && |heard.proposals| == |cycles|
  }

  /** Within a cycle: its review is in, and so perhaps its verdict. */
  predicate Pending(l: Limits, heard: Answers, cycles: seq<Cycle>, review: Review, said: seq<Verdict>) {
    var n := |cycles|;
    && ReviewsFollowed(l, heard, cycles)
    && |heard.proposals| == |heard.reviews| == n + 1
    && WasShown(l, heard.proposals[n], heard.reviews[n], Results(cycles))
    && heard.verdicts == Verdicts(cycles) + said
    && heard.recoveries == []
    && var answer := heard.reviews[n].answer;
       (review.approved <==> answer.approved && answer.steps != []) && review.steps == answer.steps
  }

  lemma NothingIsObeyed(l: Limits)
    ensures AllRecorded(l, NOTHING, [])
  {
  }

  lemma ProposalIsHeard(l: Limits, heard: Answers, cycles: seq<Cycle>, proposal: seq<PlanStep>)
    requires AllRecorded(l, heard, cycles)
    ensures Obeyed(l, heard.(proposals := heard.proposals + [proposal]), cycles, [])
  {
  }

  lemma ReviewIsPending(
      l: Limits, heard: Answers, cycles: seq<Cycle>, proposal: seq<PlanStep>, answer: Review, done: nat)
    requires AllRecorded(l, heard, cycles) && done == |Results(cycles)|
    ensures var x := Reviewing(CutTo(proposal, Remaining(l, done)), answer);
            Pending(l, heard.(proposals := heard.proposals + [proposal], reviews := heard.reviews + [x]), cycles,
                    Settled(answer), [])
  {
  }

  lemma VerdictsArePending(l: Limits, heard: Answers, cycles: seq<Cycle>, review: Review)
    requires Pending(l, heard, cycles, review, [])
    ensures forall v :: Pending(l, heard.(verdicts := heard.verdicts + [v]), cycles, review, [v])
  {
  }

  /** A cycle joins the record as it was reviewed and verified. */
  lemma PendingIsRecorded(l: Limits, heard: Answers, cycles: seq<Cycle>, review: Review, cy: Cycle)
    requires Pending(l, heard, cycles, review, VerdictOf(cy)) && review == Review(cy.approved, cy.plan)
    ensures AllRecorded(l, heard, cycles + [cy])
  {
    var all := cycles + [cy];
    assert all[..|cycles|] == cycles;
    forall i | 0 <= i < |all|
      ensures FollowsReview(l, heard.proposals[i], heard.reviews[i], Results(all[..i]), all[i])
    {
      if i < |cycles| {
        assert all[..i] == cycles[..i];
      }
    }
  }

  lemma RecoveryIsHeard(l: Limits, heard: Answers, cycles: seq<Cycle>, plan: seq<PlanStep>)
    requires AllRecorded(l, heard, cycles)
    ensures Obeyed(l, heard.(recoveries := heard.recoveries + [plan]), cycles, [plan])
  {
  }

  // ---- what follows

  /** The step is one that a review with Vishnu's approval allowed, or that Mahesh
      proposed. */
  predicate Sanctioned(heard: Answers, step: PlanStep) {
    || (exists i :: 0 <= i < |heard.reviews| && heard.reviews[i].answer.approved
                    && step in heard.reviews[i].answer.steps)
    || (exists i :: 0 <= i < |heard.recoveries| && step in heard.recoveries[i])
  }

  /** Whatever ran, in any cycle or in recovery, was sanctioned by an answer; that
      holds of the step an exception broke off too. */
  lemma StepsAreSanctioned(l: Limits, heard: Answers, cycles: seq<Cycle>, recovery: Option<Recovery>)
    requires Admissible(l, cycles) && Obeyed(l, heard, cycles, PlansOf(recovery))
    requires recovery.Some? ==> RecoveryOk(l, Results(cycles), Clock(cycles), recovery.value)
    ensures forall x :: x in Attempts(cycles) + RecoveryAttempts(recovery) ==> Sanctioned(heard, x.step)
  {
    CycleStepsAreSanctioned(l, heard, cycles);
    forall x | x in RecoveryAttempts(recovery) ensures Sanctioned(heard, x.step) {
      var rec := recovery.value;
      AttemptsAreOfPlan(rec.plan, rec.ran, rec.cut);
      assert heard.recoveries[0] == rec.plan;
    }
  }

  lemma AttemptsAreOfPlan(plan: seq<PlanStep>, ran: seq<Ran>, cut: Cut)
    requires |ran| <= |plan| && forall k :: 0 <= k < |ran| ==> ran[k].step == plan[k]
    ensures forall x :: x in AttemptsIn(plan, ran, cut) ==> x.step in plan
  {
  }

  lemma EarlierReviewsFollowed(l: Limits, heard: Answers, cycles: seq<Cycle>)
    requires cycles != [] && ReviewsFollowed(l, heard, cycles)
    ensures ReviewsFollowed(l, heard, cycles[..|cycles| - 1])
  {
    hide FollowsReview;
    var past := cycles[..|cycles| - 1];
    forall i | 0 <= i < |past|
      ensures FollowsReview(l, heard.proposals[i], heard.reviews[i], Results(past[..i]), past[i])
    {
      assert past[..i] == cycles[..i];
    }
  }

  lemma LastStepsAreSanctioned(l: Limits, heard: Answers, n: nat, prior: seq<bool>, calls: nat, cy: Cycle)
    requires n < |heard.proposals| && n < |heard.reviews| && CycleOk(l, prior, calls, cy)
    requires FollowsReview(l, heard.proposals[n], heard.reviews[n], prior, cy)
    ensures forall x :: x in AttemptsIn(cy.plan, cy.ran, cy.cut) ==> Sanctioned(heard, x.step)
  {
    CycleFollowsPlan(l, prior, calls, cy);
    AttemptsAreOfPlan(cy.plan, cy.ran, cy.cut);
    assert !cy.approved ==> AttemptsIn(cy.plan, cy.ran, cy.cut) == [];
  }

  lemma VerdictNeedsApproval(l: Limits, prior: seq<bool>, calls: nat, cy: Cycle)
    requires CycleOk(l, prior, calls, cy)
    ensures cy.verdict.Some? ==> cy.approved
  {
  }

  lemma {:induction false} CycleStepsAreSanctioned(l: Limits, heard: Answers, cycles: seq<Cycle>)
    requires Admissible(l, cycles) && ReviewsFollowed(l, heard, cycles)
    ensures forall x :: x in Attempts(cycles) ==> Sanctioned(heard, x.step)
  {
    if cycles != [] {
      hide CycleOk, Clock, FollowsReview, AttemptsIn;
      var n := |cycles| - 1;
      EarlierReviewsFollowed(l, heard, cycles);
      CycleStepsAreSanctioned(l, heard, cycles[..n]);
      LastStepsAreSanctioned(
        l, heard, n, Results(cycles[..n]), Calls(cycles[..n]), cycles[n]);
    }
  }

  /** The last verdict on record concludes the run exactly if the last answer to the
      question did: nothing was answered after it, and no earlier one was passed
      over. */
  lemma LastVerdictDecides(
      l: Limits, heard: Answers, cycles: seq<Cycle>, recovered: seq<seq<PlanStep>>)
    requires Admissible(l, cycles) && Obeyed(l, heard, cycles, recovered)
    ensures Concluded(cycles) <==> heard.verdicts != [] && heard.verdicts[|heard.verdicts| - 1] == Complete
  {
    if cycles != [] {
      var past := cycles[..|cycles| - 1];
      EarlierVerdictsGoRound(l, past);
      var last := cycles[|cycles| - 1];
      VerdictNeedsApproval(l, Results(past), Calls(past), last);
      assert heard.verdicts == Verdicts(past) + VerdictOf(last);
      if heard.verdicts != [] && last.verdict == None {
        assert heard.verdicts[|heard.verdicts| - 1] in Verdicts(past);
      }
    }
  }

  lemma {:induction false} EarlierVerdictsGoRound(l: Limits, past: seq<Cycle>)
    requires Admissible(l, past) && (past != [] ==> Replans(past[|past| - 1]))
    ensures forall v :: v in Verdicts(past) ==> GoesRound(v)
  {
    if past != [] {
      EarlierVerdictsGoRound(l, past[..|past| - 1]);
    }
  }
}
