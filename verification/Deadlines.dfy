/** When approvals are opened, answered and spent, over whole runs
    (security/approvals.py, tools/executor.py, core/models.py). */
module Deadlines {
  import opened Common
  import opened Registry
  import opened Protocol
  import opened ProtocolInvariant
  import opened ProtocolTheorems
  import Policy
  import A = Approvals

  /** What one action does to deadlines: a new row has its own, counted from the
      clock; an answer is dated by the clock, and accepted only while the deadline
      of its row is ahead; and the clock does not go back. */
  ghost predicate Timely(cfg: Config, s: State, t: State) {
    && s.now <= t.now
    && (forall a :: a in t.rows && a !in s.rows ==> t.rows[a].expiresAt == Some(s.now + cfg.ttl))
    && (forall a :: a in t.resolutions && a !in s.resolutions ==>
          && a in s.rows && t.resolutions[a].at == s.now
          && (s.rows[a].expiresAt.Some? ==> s.now < s.rows[a].expiresAt.value))
  }

  lemma SameIsTimely(cfg: Config, s: State, t: State)
    requires t.rows.Keys == s.rows.Keys && t.resolutions == s.resolutions && s.now <= t.now
    ensures Timely(cfg, s, t)
  {
  }

  lemma ResolveIsTimely(cfg: Config, s: State, answer: A.Answer, via: Channel)
    ensures Timely(cfg, s, Resolve(s, answer, via))
  {
  }

  lemma GateIsTimely(cfg: Config, s: State, c: CallId, choice: Choice)
    requires c in s.procs && !s.procs[c].aborted && AtGate(s.procs[c].pc)
    ensures Timely(cfg, s, StepCall(cfg, s, c, choice))
  {
    var t := StepCall(cfg, s, c, choice);
    match s.procs[c].pc
    case OpenApproval =>
    case Resolving(a, approved, phrase) =>
      ResolveIsTimely(cfg, s, A.Answer(a, approved, phrase), Prompt);
    case Consuming(a) =>
      SameIsTimely(cfg, s, t);
  }

  lemma StepKeepsClock(cfg: Config, s: State, c: CallId, choice: Choice)
    requires c in s.procs
    ensures StepCall(cfg, s, c, choice).now == s.now
  {
    if !s.procs[c].aborted {
      match s.procs[c].pc
      case Begin =>
      case RecordResult(_) =>
      case _ =>
    }
  }

  lemma ActionIsTimely(cfg: Config, s: State, action: Action)
    ensures Timely(cfg, s, Apply(cfg, s, action))
  {
    match action
    case Step(c, choice) =>
      if c in s.procs {
        if !s.procs[c].aborted && AtGate(s.procs[c].pc) {
          GateIsTimely(cfg, s, c, choice);
        } else {
          OffGateLeavesApprovals(cfg, s, c, choice);
          StepKeepsClock(cfg, s, c, choice);
          hide StepCall;
          SameIsTimely(cfg, s, Apply(cfg, s, action));
        }
      }
    case Answer(answer) => ResolveIsTimely(cfg, s, answer, OutOfBand);
    case _ => SameIsTimely(cfg, s, Apply(cfg, s, action));
  }

  /** The state before action `n` of the schedule. */
  function At(cfg: Config, actions: seq<Action>, n: nat): State
    requires n <= |actions|
  {
    Run(cfg, actions[..n])
  }

  lemma NextIs(cfg: Config, actions: seq<Action>, n: nat)
    requires n < |actions|
    ensures At(cfg, actions, n + 1) == Apply(cfg, At(cfg, actions, n), actions[n])
  {
    assert actions[..n + 1][..n] == actions[..n];
  }

  lemma LastIs(cfg: Config, actions: seq<Action>)
    ensures At(cfg, actions, |actions|) == Run(cfg, actions)
  {
    assert actions[..|actions|] == actions;
  }

  lemma {:induction false} ClockNeverTurnsBack(cfg: Config, actions: seq<Action>, m: nat, n: nat)
    requires m <= n <= |actions|
    ensures At(cfg, actions, m).now <= At(cfg, actions, n).now
  {
    hide Run;
    if m < n {
      ClockNeverTurnsBack(cfg, actions, m, n - 1);
      NextIs(cfg, actions, n - 1);
      ActionIsTimely(cfg, At(cfg, actions, n - 1), actions[n - 1]);
    }
  }

  /** What is there stays there, and keeps its deadline and its answer. */
  lemma StaysFrom(cfg: Config, actions: seq<Action>, m: nat, n: nat, a: ApprovalId)
    requires WellJudged(cfg) && m <= n <= |actions| && a in At(cfg, actions, m).rows
    ensures var s, t := At(cfg, actions, m), At(cfg, actions, n);
            && a in t.rows && t.rows[a].expiresAt == s.rows[a].expiresAt
            && (a in s.resolutions ==> a in t.resolutions && t.resolutions[a] == s.resolutions[a])
            && (Spent(s, a) ==> Spent(t, a))
  {
    assert actions[..n] == actions[..m] + actions[m..n];
    ApprovalsEvolveAlongRuns(cfg, actions[..m], actions[m..n], a);
  }

  /** The action that opened a request. */
  ghost predicate OpenedBy(cfg: Config, actions: seq<Action>, a: ApprovalId, k: nat) {
    k < |actions| && a !in At(cfg, actions, k).rows && a in At(cfg, actions, k + 1).rows
  }

  ghost predicate AnsweredBy(cfg: Config, actions: seq<Action>, a: ApprovalId, k: nat) {
    k < |actions| && a !in At(cfg, actions, k).resolutions && a in At(cfg, actions, k + 1).resolutions
  }

  ghost predicate SpentBy(cfg: Config, actions: seq<Action>, a: ApprovalId, k: nat) {
    k < |actions| && !Spent(At(cfg, actions, k), a) && Spent(At(cfg, actions, k + 1), a)
  }

  lemma {:induction false} OpeningOf(cfg: Config, actions: seq<Action>, n: nat, a: ApprovalId) returns (k: nat)
    requires n <= |actions| && a in At(cfg, actions, n).rows
    ensures k < n && OpenedBy(cfg, actions, a, k)
  {
    if a in At(cfg, actions, n - 1).rows {
      k := OpeningOf(cfg, actions, n - 1, a);
    } else {
      k := n - 1;
    }
  }

  lemma {:induction false} AnswerOf(cfg: Config, actions: seq<Action>, n: nat, a: ApprovalId) returns (k: nat)
    requires n <= |actions| && a in At(cfg, actions, n).resolutions
    ensures k < n && AnsweredBy(cfg, actions, a, k)
  {
    if a in At(cfg, actions, n - 1).resolutions {
      k := AnswerOf(cfg, actions, n - 1, a);
    } else {
      k := n - 1;
    }
  }

  lemma {:induction false} SpendingOf(cfg: Config, actions: seq<Action>, n: nat, a: ApprovalId) returns (k: nat)
    requires n <= |actions| && Spent(At(cfg, actions, n), a)
    ensures k < n && SpentBy(cfg, actions, a, k)
  {
    if Spent(At(cfg, actions, n - 1), a) {
      k := SpendingOf(cfg, actions, n - 1, a);
    } else {
      k := n - 1;
    }
  }

  /** Every request has its deadline the agreed time after the moment it was opened. */
  lemma DeadlineCountsFromOpening(cfg: Config, actions: seq<Action>, s: State, a: ApprovalId) returns (opening: nat)
    requires WellJudged(cfg) && s == Run(cfg, actions) && a in s.rows
    ensures OpenedBy(cfg, actions, a, opening)
    ensures s.rows[a].expiresAt == Some(At(cfg, actions, opening).now + cfg.ttl)
  {
    hide Run;
    LastIs(cfg, actions);
    opening := OpeningOf(cfg, actions, |actions|, a);
    NextIs(cfg, actions, opening);
    ActionIsTimely(cfg, At(cfg, actions, opening), actions[opening]);
    StaysFrom(cfg, actions, opening + 1, |actions|, a);
  }

  /** Every accepted answer came between the opening of its request and the
      deadline, by the clock of the run. */
  lemma AnsweredInTime(cfg: Config, actions: seq<Action>, s: State, a: ApprovalId) returns (opening: nat, answering: nat)
    requires WellJudged(cfg) && s == Run(cfg, actions) && a in s.resolutions
    ensures a in s.rows && OpenedBy(cfg, actions, a, opening) && AnsweredBy(cfg, actions, a, answering)
    ensures opening < answering
    ensures s.resolutions[a].at == At(cfg, actions, answering).now
    ensures var t := At(cfg, actions, opening).now;
            t <= s.resolutions[a].at < t + cfg.ttl && s.rows[a].expiresAt == Some(t + cfg.ttl)
  {
    hide Run, Timely;
    LastIs(cfg, actions);
    answering := AnswerOf(cfg, actions, |actions|, a);
    NextIs(cfg, actions, answering);
    AnswerIsTimely(cfg, At(cfg, actions, answering), actions[answering], a);
    StaysFrom(cfg, actions, answering, |actions|, a);
    AnswerStays(cfg, actions, answering, a);
    opening := DeadlineCountsFromOpening(cfg, actions, s, a);
    if answering <= opening {
      StaysFrom(cfg, actions, answering, opening, a);
    }
    ClockNeverTurnsBack(cfg, actions, opening, answering);
  }

  lemma AnswerIsTimely(cfg: Config, s: State, action: Action, a: ApprovalId)
    requires var t := Apply(cfg, s, action); a !in s.resolutions && a in t.resolutions
    ensures a in s.rows && Apply(cfg, s, action).resolutions[a].at == s.now
    ensures s.rows[a].expiresAt.Some? ==> s.now < s.rows[a].expiresAt.value
  {
    ActionIsTimely(cfg, s, action);
  }

  lemma AnswerStays(cfg: Config, actions: seq<Action>, n: nat, a: ApprovalId)
    requires WellJudged(cfg) && n < |actions|
    requires a in At(cfg, actions, n).rows && a in At(cfg, actions, n + 1).resolutions
    ensures a in At(cfg, actions, |actions|).resolutions
    ensures At(cfg, actions, |actions|).resolutions[a] == At(cfg, actions, n + 1).resolutions[a]
  {
    StaysFrom(cfg, actions, n, n + 1, a);
    StaysFrom(cfg, actions, n + 1, |actions|, a);
  }

  /** A request that is spent by this action was approved, answered, and still ahead
      of its deadline. */
  lemma SpendingIsTimely(cfg: Config, actions: seq<Action>, n: nat, a: ApprovalId)
    requires WellJudged(cfg) && SpentBy(cfg, actions, a, n)
    ensures var s := At(cfg, actions, n);
            && a in s.rows && a in s.resolutions && s.resolutions[a].approved
            && (s.rows[a].expiresAt.Some? ==> s.now < s.rows[a].expiresAt.value)
  {
    var s := At(cfg, actions, n);
    NextIs(cfg, actions, n);
    RunKeeps(cfg, actions[..n]);
    hide Run;
    ApprovalsEvolve(cfg, s, actions[n]);
    assert RowOk(cfg, s, a);
  }

  /** Every approval that was spent was opened, answered with yes and spent in that
      order, all before the deadline that its opening set. */
  lemma SpentInTime(cfg: Config, actions: seq<Action>, s: State, a: ApprovalId)
    returns (opening: nat, answering: nat, spending: nat)
    requires WellJudged(cfg) && s == Run(cfg, actions) && Spent(s, a)
    ensures OpenedBy(cfg, actions, a, opening) && AnsweredBy(cfg, actions, a, answering)
    ensures SpentBy(cfg, actions, a, spending)
    ensures opening < answering < spending
    ensures a in s.rows && a in s.resolutions && s.resolutions[a].approved
    ensures var t, u, v := At(cfg, actions, opening).now, At(cfg, actions, answering).now, At(cfg, actions, spending).now;
            t <= u <= v < t + cfg.ttl && s.rows[a].expiresAt == Some(t + cfg.ttl) && s.resolutions[a].at == u
  {
    hide Run;
    LastIs(cfg, actions);
    spending := SpendingOf(cfg, actions, |actions|, a);
    SpendingIsTimely(cfg, actions, spending, a);
    StaysFrom(cfg, actions, spending, |actions|, a);
    opening, answering := AnsweredInTime(cfg, actions, s, a);
    if spending <= answering {
      StaysFrom(cfg, actions, spending, answering, a);
    }
    ClockNeverTurnsBack(cfg, actions, answering, spending);
  }
}
