/** When the inference budget is a cap, and by how much it is overrun when it is
    not (brain/orchestrator.py, brain/limits.py). */
module Overshoot {
  import opened Common
  import opened Risk
  import opened Tasks
  import opened Limits
  import opened Cycles
  import opened Tallies

  /** A record of a whole run: its cycles, and the recovery if it rolled back. */
  predicate Possible(l: Limits, cycles: seq<Cycle>, recovery: Option<Recovery>) {
    && Admissible(l, cycles)
    && (recovery.Some? ==>
          Concludes(cycles, Rollback) && RecoveryOk(l, Results(cycles), Clock(cycles), recovery.value))
  }

  /** The inferences such a run was answered: those of its cycles, and one for the
      recovery plan. */
  function Inferences(cycles: seq<Cycle>, recovery: Option<Recovery>): nat {
    Calls(cycles) + if recovery.Some? then 1 else 0
  }

  const STEP := PlanStep("host.info", "{}", Read)

  /** A cycle that is verified whatever the budgets are: its one step runs if it is
      affordable, and the exhausted budget cuts it off if not. No time passes. */
  function Verified(l: Limits, prior: seq<bool>, calls: nat, v: Verdict): Cycle {
    var hit := BudgetHit(l, prior, calls + 2);
    if hit == {} then Cycle(0.0, true, [STEP], [Ran(STEP, |prior|, true, false, 0.0)], Exhaustive, Some(v))
    else Cycle(0.0, true, [STEP], [], OutOfBudget(OnlyOne(hit), 0.0), Some(v))
  }

  /** The counting budget that is exhausted. */
  function OnlyOne(hit: set<Limit>): Limit {
    if StepLimit in hit then StepLimit else if ModelCallLimit in hit then ModelCallLimit else FailureLimit
  }

  const REJECTED := Cycle(0.0, false, [], [], Exhaustive, None)

  lemma VerifiedIsOk(l: Limits, prior: seq<bool>, calls: nat, v: Verdict)
    requires calls < l.maxModelCalls && l.maxTaskSeconds > 0.0
    ensures var cy := Verified(l, prior, calls, v);
            CycleOk(l, prior, calls, cy) && Reading(cy.began, cy.ran, cy.cut) == 0.0
  {
    var cy := Verified(l, prior, calls, v);
    assert prior + Successes([]) == prior;
    assert cy.ran[..0] == [];
  }

  lemma OneMore(l: Limits, cycles: seq<Cycle>, cy: Cycle)
    requires Admissible(l, cycles) && Clock(cycles) == 0.0 && |cycles| <= l.maxReplans
    requires cycles != [] ==> Replans(cycles[|cycles| - 1])
    requires CycleOk(l, Results(cycles), Calls(cycles), cy) && cy.began == 0.0
    ensures Admissible(l, cycles + [cy])
    ensures Calls(cycles + [cy]) == Calls(cycles) + if cy.verdict.Some? then 3 else 2
    ensures Clock(cycles + [cy]) == Reading(cy.began, cy.ran, cy.cut)
  {
    assert (cycles + [cy])[..|cycles|] == cycles;
  }

  /** Cycles that go round again and make exactly `n` inferences. Two and three add
      up to every number but one. */
  function Rounds(l: Limits, n: nat): seq<Cycle>
    requires n != 1
  {
    if n == 0 then []
    else if n == 2 || n == 4 then Rounds(l, n - 2) + [REJECTED]
    else
      var past := Rounds(l, n - 3);
      past + [Verified(l, Results(past), Calls(past), Continue)]
  }

  /** A record that goes round again without a second passing. */
  predicate Round(l: Limits, cycles: seq<Cycle>) {
    && Admissible(l, cycles) && Clock(cycles) == 0.0
    && (cycles != [] ==> Replans(cycles[|cycles| - 1]))
  }

  lemma RejectOnce(l: Limits, past: seq<Cycle>)
    requires Round(l, past) && |past| <= l.maxReplans && Calls(past) < l.maxModelCalls && l.maxTaskSeconds > 0.0
    ensures Round(l, past + [REJECTED]) && Calls(past + [REJECTED]) == Calls(past) + 2
  {
    OneMore(l, past, REJECTED);
  }

  lemma VerifyOnce(l: Limits, past: seq<Cycle>, v: Verdict)
    requires Round(l, past) && |past| <= l.maxReplans && Calls(past) < l.maxModelCalls && l.maxTaskSeconds > 0.0
    ensures var more := past + [Verified(l, Results(past), Calls(past), v)];
            Admissible(l, more) && Clock(more) == 0.0 && Concludes(more, v) && Calls(more) == Calls(past) + 3
  {
    hide CycleOk;
    VerifiedIsOk(l, Results(past), Calls(past), v);
    OneMore(l, past, Verified(l, Results(past), Calls(past), v));
  }

  lemma {:induction false} RoundsAreAdmissible(l: Limits, n: nat)
    requires n != 1 && n <= l.maxModelCalls && n <= 3 * l.maxReplans && l.maxTaskSeconds > 0.0
    ensures Round(l, Rounds(l, n)) && Calls(Rounds(l, n)) == n && 3 * |Rounds(l, n)| <= n + 2
  {
    hide CycleOk, Verified, Clock;
    if n == 0 {
      NothingIsRound(l);
    } else if n == 2 || n == 4 {
      RoundsAreAdmissible(l, n - 2);
      assert n == 4 ==> |Rounds(l, 2)| == |Rounds(l, 0)| + 1 == 1;
      RejectOnce(l, Rounds(l, n - 2));
    } else {
      RoundsAreAdmissible(l, n - 3);
      VerifyOnce(l, Rounds(l, n - 3), Continue);
    }
  }

  lemma NothingIsRound(l: Limits)
    ensures Round(l, []) && Calls([]) == 0
  {
  }

  /** The last cycle of a run: verified, with that verdict. */
  lemma LastCycle(l: Limits, n: nat, v: Verdict) returns (cycles: seq<Cycle>)
    requires n != 1 && n < l.maxModelCalls && n <= 3 * l.maxReplans && l.maxTaskSeconds > 0.0
    ensures Admissible(l, cycles) && Calls(cycles) == n + 3 && Concludes(cycles, v) && Clock(cycles) == 0.0
  {
    RoundsAreAdmissible(l, n);
    var past := Rounds(l, n);
    cycles := past + [Verified(l, Results(past), Calls(past), v)];
    VerifyOnce(l, past, v);
  }

  /** The most a run can make of `n` inferences at the top of its last cycle: three
      for the cycle and one for recovery. */
  lemma RollingBackAddsFour(l: Limits, n: nat) returns (cycles: seq<Cycle>, recovery: Option<Recovery>)
    requires n != 1 && n < l.maxModelCalls && n <= 3 * l.maxReplans && l.maxTaskSeconds > 0.0
    ensures Possible(l, cycles, recovery) && Inferences(cycles, recovery) == n + 4
  {
    cycles := LastCycle(l, n, Rollback);
    recovery := Some(Recovery([], [], Exhaustive));
  }

  /** No inference can be made at all, or the replans run out before the
      inferences do. */
  predicate IsCap(l: Limits) {
    l.maxModelCalls == 0 || l.maxTaskSeconds <= 0.0 || l.maxModelCalls >= 3 * (l.maxReplans + 1) + 1
  }

  /** The inference budget caps the inferences of every run if and only if the
      settings make it a formality: it is nothing, there is no time, or it is at
      least what the replan budget allows anyway. */
  lemma InferenceBudgetIsCap(l: Limits)
    ensures IsCap(l) <==>
              forall cycles, recovery :: Possible(l, cycles, recovery) ==> Inferences(cycles, recovery) <= l.maxModelCalls
  {
    if IsCap(l) {
      forall cycles, recovery | Possible(l, cycles, recovery) ensures Inferences(cycles, recovery) <= l.maxModelCalls {
        BudgetsHold(l, cycles);
      }
    } else {
      var n := if l.maxModelCalls == 2 then 0
               else if l.maxModelCalls - 1 <= 3 * l.maxReplans then l.maxModelCalls - 1 else 3 * l.maxReplans;
      var cycles, recovery := RollingBackAddsFour(l, n);
      assert Possible(l, cycles, recovery) && Inferences(cycles, recovery) > l.maxModelCalls;
    }
  }

  /** The bound of three above the budget is exact: wherever the replans leave room,
      it is reached, but for a budget of two, because no cycle starts after one
      inference. */
  lemma OvershootIsExact(l: Limits)
    requires !IsCap(l) && l.maxModelCalls <= 3 * l.maxReplans + 1
    ensures l.maxModelCalls != 2 <==>
              exists cycles, recovery ::
                Possible(l, cycles, recovery) && Inferences(cycles, recovery) == l.maxModelCalls + 3
  {
    if l.maxModelCalls != 2 {
      var cycles, recovery := RollingBackAddsFour(l, l.maxModelCalls - 1);
      assert Possible(l, cycles, recovery) && Inferences(cycles, recovery) == l.maxModelCalls + 3;
    } else {
      forall cycles, recovery | Possible(l, cycles, recovery) ensures Inferences(cycles, recovery) != 5 {
        NoCycleAfterOne(l, cycles);
      }
    }
  }

  lemma NoCycleAfterOne(l: Limits, cycles: seq<Cycle>)
    requires Admissible(l, cycles) && l.maxModelCalls == 2
    ensures Calls(cycles) <= 3
  {
    if cycles != [] {
      var past := cycles[..|cycles| - 1];
      assert Calls(past) < 2;
      assert past != [] ==> Calls(past) >= 2;
    }
  }
}
