/** What a run handed to the executor, and that its record of it is true
    (brain/orchestrator.py, tools/executor.py). */
module Launches {
  import opened Common
  import opened Risk
  import opened Cycles
  import R = Registry
  import P = Protocol
  import T = ProtocolTheorems
  import I = ProtocolInvariant
  import E = Executor

  /** What an objective says of its calls, and the id of the task it became. */
  datatype Objective = Objective(task: R.TaskId, maxRisk: RiskLevel, dryRun: bool)

  type Procs = map<P.CallId, P.Proc>

  /** The call a step becomes. */
  function JobOf(step: PlanStep, obj: Objective): R.Job {
    R.Job(obj.task, step.tool, step.arguments, step.expectedRisk, obj.maxRisk, obj.dryRun)
  }

  /** The job is the step's own tool, arguments and expected risk, under the task and
      the limits of the objective. */
  predicate JobFor(job: R.Job, step: PlanStep, obj: Objective) {
    && job.tool == step.tool && job.arguments == step.arguments && job.declaredRisk == step.expectedRisk
    && job.task == obj.task && job.maxRisk == obj.maxRisk && job.dryRun == obj.dryRun
  }

  /** Call `c` was submitted for this step, has returned, and ended that way. */
  predicate EndedAs(procs: Procs, c: P.CallId, step: PlanStep, obj: Objective, success: bool, denied: bool) {
    && c in procs
    && JobFor(procs[c].call.job, step, obj)
    && procs[c].pc.Done? && !procs[c].aborted
    && var route := procs[c].pc.route;
       && (success <==> route.Ran? && route.ok)
       && (denied <==> route.Refused? || route.BadArguments?)
  }

  /** A line of the record says what happened to the call it names. */
  predicate Faithful(procs: Procs, x: Ran, obj: Objective) {
    EndedAs(procs, x.call, x.step, obj, x.success, x.denied)
  }

  /** The call was submitted by this run, for that step, under its objective. */
  predicate LaunchedFor(procs: Procs, known: set<P.CallId>, x: Launch, obj: Objective) {
    x.call in procs && x.call !in known && JobFor(procs[x.call].call.job, x.step, obj)
  }

  function Ids(launched: seq<Launch>): set<P.CallId> {
    set x <- launched :: x.call
  }

  /** The record accounts for the calls of a run: the calls of its task are those
      known before and those it launched, each once, each for its own step; each
      line of the record is true of its own call; and the lines are in the order of
      the calls. */
  predicate Accounted(procs: Procs, known: set<P.CallId>, launched: seq<Launch>, ran: seq<Ran>, obj: Objective) {
    && P.CallsUnder(procs, obj.task) == known + Ids(launched)
    && (forall k :: 0 <= k < |launched| ==> LaunchedFor(procs, known, launched[k], obj))
    && (forall i, j :: 0 <= i < j < |launched| ==> launched[i].call != launched[j].call)
    && (forall k :: 0 <= k < |ran| ==> Faithful(procs, ran[k], obj))
    && Lines(ran) <= launched
  }

  function CallsOf(launched: seq<Launch>): seq<P.CallId> {
    seq(|launched|, i requires 0 <= i < |launched| => launched[i].call)
  }

  /** What was handed to the executor since `before` is what was launched. */
  predicate HandedOver(handed: seq<P.CallId>, before: seq<P.CallId>, launched: seq<Launch>) {
    handed == before + CallsOf(launched)
  }

  lemma HandingOver(handed: seq<P.CallId>, before: seq<P.CallId>, launched: seq<Launch>, x: Launch)
    requires HandedOver(handed, before, launched)
    ensures HandedOver(handed + [x.call], before, launched + [x])
  {
    assert CallsOf(launched + [x]) == CallsOf(launched) + [x.call];
  }

  lemma NothingIsAccounted(procs: Procs, handed: seq<P.CallId>, obj: Objective)
    ensures Accounted(procs, P.CallsUnder(procs, obj.task), [], [], obj)
    ensures HandedOver(handed, handed, [])
  {
  }

  lemma IdsExtend(launched: seq<Launch>, x: Launch)
    ensures Ids(launched + [x]) == Ids(launched) + {x.call}
  {
    assert (launched + [x])[|launched|] == x;
    forall y | y in launched ensures y in launched + [x] {
    }
  }

  /** Whatever anyone does while a call runs, the record stays true, and if that call
      is the one new call of the task, the record accounts for it. */
  lemma LaunchIsAccounted(
      procs: Procs, later: Procs, known: set<P.CallId>, launched: seq<Launch>, ran: seq<Ran>, obj: Objective,
      x: Launch)
    requires Accounted(procs, known, launched, ran, obj)
    requires forall c :: c in procs ==> c in later && later[c].call.job == procs[c].call.job
    requires forall c :: c in procs && procs[c].pc.Done? && !procs[c].aborted ==> later[c] == procs[c]
    requires P.CallsUnder(later, obj.task) == P.CallsUnder(procs, obj.task) + {x.call}
    requires x.call !in procs && x.call in later && JobFor(later[x.call].call.job, x.step, obj)
    ensures Accounted(later, known, launched + [x], ran, obj)
  {
    assert known <= P.CallsUnder(procs, obj.task) <= procs.Keys;
    hide P.CallsUnder, Ids;
    IdsExtend(launched, x);
    forall k | 0 <= k < |launched| + 1 ensures LaunchedFor(later, known, (launched + [x])[k], obj) {
      if k < |launched| {
        assert LaunchedFor(procs, known, launched[k], obj);
      }
    }
    forall k | 0 <= k < |ran| ensures Faithful(later, ran[k], obj) {
      assert Faithful(procs, ran[k], obj);
    }
  }

  lemma LineIsAccounted(
      procs: Procs, known: set<P.CallId>, launched: seq<Launch>, ran: seq<Ran>, obj: Objective, x: Ran)
    requires Accounted(procs, known, launched, ran, obj) && Faithful(procs, x, obj)
    requires |launched| == |ran| + 1 && launched[|ran|] == Launch(x.call, x.step)
    ensures Accounted(procs, known, launched, ran + [x], obj)
  {
    hide P.CallsUnder, Ids, LaunchedFor;
    LinesExtend(ran, x);
  }

  /** The lines a step loop added are true. */
  lemma NewLinesAreFaithful(
      procs: Procs, known: set<P.CallId>, launched: seq<Launch>, past: seq<Ran>, ran: seq<Ran>, obj: Objective)
    requires Accounted(procs, known, launched, past + ran, obj)
    ensures forall k :: 0 <= k < |ran| ==> Faithful(procs, ran[k], obj)
  {
    hide P.CallsUnder, Ids, LaunchedFor;
    forall k | 0 <= k < |ran| ensures Faithful(procs, ran[k], obj) {
      assert (past + ran)[|past| + k] == ran[k];
    }
  }

  lemma LaunchesAreForSteps(
      procs: Procs, known: set<P.CallId>, launched: seq<Launch>, ran: seq<Ran>, obj: Objective)
    requires Accounted(procs, known, launched, ran, obj)
    ensures forall x :: x in launched ==> x.call in procs && JobFor(procs[x.call].call.job, x.step, obj)
  {
    forall x | x in launched ensures x.call in procs && JobFor(procs[x.call].call.job, x.step, obj) {
      var k :| 0 <= k < |launched| && launched[k] == x;
      assert LaunchedFor(procs, known, launched[k], obj);
    }
  }

  lemma {:induction false} DistinctIds(launched: seq<Launch>)
    requires forall i, j :: 0 <= i < j < |launched| ==> launched[i].call != launched[j].call
    ensures |Ids(launched)| == |launched|
  {
    if launched != [] {
      var n := |launched| - 1;
      DistinctIds(launched[..n]);
      IdsExtend(launched[..n], launched[n]);
      assert launched[..n] + [launched[n]] == launched;
      assert launched[n].call !in Ids(launched[..n]);
    }
  }

  /** The calls of the task that were not there before the run are exactly as many
      as it launched, and each was launched for a step of its own. */
  lemma NewCallsAreLaunched(
      procs: Procs, known: set<P.CallId>, launched: seq<Launch>, ran: seq<Ran>, obj: Objective)
    requires Accounted(procs, known, launched, ran, obj)
    ensures |P.CallsUnder(procs, obj.task) - known| == |launched|
    ensures forall c :: c in P.CallsUnder(procs, obj.task) - known ==>
              c in procs && exists x :: x in launched && x.call == c && JobFor(procs[c].call.job, x.step, obj)
  {
    DistinctIds(launched);
    forall c | c in Ids(launched)
      ensures c !in known && exists x :: x in launched && x.call == c && JobFor(procs[c].call.job, x.step, obj)
    {
      var x :| x in launched && x.call == c;
      var k :| 0 <= k < |launched| && launched[k] == x;
      assert LaunchedFor(procs, known, launched[k], obj);
    }
    assert P.CallsUnder(procs, obj.task) - known == Ids(launched);
  }

  /** The ledger row of the call a line names holds the line's tool and outcome, and
      a denial, or no decision at all where the arguments were malformed, exactly
      if the line says so. */
  predicate InLedger(ledger: map<P.CallId, P.LedgerRow>, x: Ran) {
    && x.call in ledger
    && ledger[x.call].tool == x.step.tool
    && ledger[x.call].success == Some(x.success)
    && (x.denied <==> ledger[x.call].decision in {Some(T.Policy.Deny), None})
  }

  /** A true line of the record is in the ledger. So the run of failures the budget
      counts is a run of failures in the ledger. */
  lemma LineIsInLedger(st: R.Settings, ttl: nat, prompt: bool, actions: seq<P.Action>, s: P.State, x: Ran, obj: Objective)
    requires s == P.Run(T.Gate(st, ttl, prompt), actions) && Faithful(s.procs, x, obj)
    ensures InLedger(s.ledger, x)
  {
    var cfg := T.Gate(st, ttl, prompt);
    T.GateIsWellJudged(st, ttl, prompt);
    T.ReturnedCallIsClosed(cfg, actions, s, x.call);
    I.RunKeeps(cfg, actions);
    assert I.CallOk(cfg, s, x.call);
    DecisionOfRoute(cfg, s.procs[x.call].call.job, s.procs[x.call].pc.route);
  }

  lemma DecisionOfRoute(cfg: P.Config, job: R.Job, route: P.Route)
    requires I.RouteFits(cfg, cfg.admit(job), route)
    ensures route.Refused? || route.BadArguments? <==>
              I.ExpectedRow(cfg.admit(job), job.tool).decision in {Some(T.Policy.Deny), None}
  {
  }
}
