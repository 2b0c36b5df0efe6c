/** What the gate guarantees, over every interleaving of any number of calls,
    answers from outside, timeouts, aborts and clock ticks. */
module ProtocolTheorems {
  import opened Common
  import opened Risk
  import opened Registry
  import opened Protocol
  import opened ProtocolInvariant
  import Policy
  import A = Approvals

  /** The gate over a registry and its settings. */
  function Gate(st: Settings, ttl: nat, prompt: bool): Config {
    Config((job: Job) => Admit(st, job), ttl, prompt)
  }

  lemma GateIsWellJudged(st: Settings, ttl: nat, prompt: bool)
    ensures WellJudged(Gate(st, ttl, prompt))
  {
    forall job ensures Coherent(Gate(st, ttl, prompt).admit(job)) {
      AdmissionIsAuthority(st, job);
    }
  }

  ghost predicate Started(s: State, c: CallId) {
    exists tool, risk :: ToolStarted(c, tool, risk) in s.trace
  }

  predicate Spent(s: State, a: ApprovalId) {
    a in s.rows && s.rows[a].state == A.Consumed
  }

  /** The call waits between spending its approval and announcing the start, or
      was torn down there. */
  predicate OnTheWay(s: State, c: CallId, a: ApprovalId) {
    c in s.procs && (s.procs[c].pc == EmitApproved(a) || s.procs[c].pc == EmitStarted(Some(a)))
  }

  // ---- from a call's own history to the shared trace

  /** Each event of the trace is in the history of its call, as often. */
  lemma {:induction false} OfCounts(trace: seq<Event>, e: Event)
    ensures multiset(trace)[e] == multiset(Of(trace, e.c))[e]
  {
    if trace != [] {
      var rest, last := trace[..|trace| - 1], trace[|trace| - 1];
      assert trace == rest + [last];
      OfCounts(rest, e);
    }
  }

  /** Whatever a call writes or publishes comes after the first thing it writes. */
  lemma {:induction false} FirstComesFirst(trace: seq<Event>, i: nat)
    requires i < |trace|
    ensures Of(trace, trace[i].c) != []
    ensures exists j: nat :: j <= i && trace[j] == Of(trace, trace[i].c)[0]
  {
    var n, c := |trace| - 1, trace[i].c;
    var rest := Of(trace[..n], c);
    if i < n {
      FirstComesFirst(trace[..n], i);
      var j: nat :| j <= i && trace[..n][j] == rest[0];
      assert trace[j] == Of(trace, c)[0];
    } else if rest == [] {
      assert trace[n] == Of(trace, c)[0];
    } else {
      FirstIsThere(trace[..n], c);
      var j: nat :| j < n && trace[..n][j] == rest[0];
      assert trace[j] == Of(trace, c)[0];
    }
  }

  lemma {:induction false} FirstIsThere(trace: seq<Event>, c: CallId)
    requires Of(trace, c) != []
    ensures exists j: nat :: j < |trace| && trace[j] == Of(trace, c)[0]
  {
    var n := |trace| - 1;
    if Of(trace[..n], c) != [] {
      FirstIsThere(trace[..n], c);
      var j: nat :| j < n && trace[..n][j] == Of(trace[..n], c)[0];
      assert trace[j] == Of(trace, c)[0];
    } else {
      assert trace[n] == Of(trace, c)[0];
    }
  }

  // ---- one call, in any reachable state

  lemma WrittenIsKnown(cfg: Config, s: State, c: CallId)
    requires Inv(cfg, s)
    ensures c !in s.procs ==> Of(s.trace, c) == [] && c !in s.ledger
  {
    if c !in s.procs {
      assert Untouched(s, c);
    }
  }

  /** A call has started exactly when its counter says so, and once only. */
  lemma StartedIff(cfg: Config, s: State, c: CallId)
    requires Inv(cfg, s) && c in s.procs
    ensures var Proc(call, pc, _) := s.procs[c];
            && (Started(s, c) <==> HasRun(pc))
            && (forall tool, risk ::
                  && multiset(s.trace)[ToolStarted(c, tool, risk)] <= 1
                  && (ToolStarted(c, tool, risk) in s.trace ==>
                        tool == call.job.tool && risk == JobRisk(cfg.admit(call.job))))
  {
    var Proc(call, pc, _) := s.procs[c];
    assert CallOk(cfg, s, c);
    forall tool, risk
      ensures ToolStarted(c, tool, risk) in s.trace <==> multiset(s.trace)[ToolStarted(c, tool, risk)] > 0
      ensures multiset(s.trace)[ToolStarted(c, tool, risk)]
              == multiset(History(cfg, call.job, c, pc))[ToolStarted(c, tool, risk)]
    {
      OfCounts(s.trace, ToolStarted(c, tool, risk));
    }
    forall tool, risk
      ensures multiset(s.trace)[ToolStarted(c, tool, risk)] ==
              if HasRun(pc) && ToolStarted(c, tool, risk) == ToolStarted(c, call.job.tool, JobRisk(cfg.admit(call.job)))
              then 1 else 0
    {
      StartInHistory(cfg, call.job, c, pc, ToolStarted(c, tool, risk));
    }
    assert Started(s, c) <==> ToolStarted(c, call.job.tool, JobRisk(cfg.admit(call.job))) in s.trace;
  }

  predicate NoStart(h: seq<Event>) {
    forall k :: 0 <= k < |h| ==> !h[k].ToolStarted?
  }

  /** At most one start among events that hold none otherwise. */
  lemma StartAmong(early: seq<Event>, start: Event, late: seq<Event>, e: Event)
    requires NoStart(early) && NoStart(late) && start.ToolStarted? && e.ToolStarted?
    ensures multiset(early + late)[e] == 0
    ensures multiset(early + [start] + late)[e] == if e == start then 1 else 0
  {
    assert multiset(early)[e] == 0 && multiset(late)[e] == 0;
  }

  /** The counter is past the start. */
  predicate HasRun(pc: PC) {
    pc.Running? || (Settled(pc).Some? && Settled(pc).value.Ran?)
  }

  lemma HistoryOfRun(cfg: Config, job: Job, c: CallId, pc: PC)
    requires HasRun(pc)
    ensures ApprovalOf(pc) == if pc.Running? then pc.gate else Settled(pc).value.gate
    ensures NoStart(Granted(c, ApprovalOf(pc))) && NoStart(Late(c, pc))
    ensures History(cfg, job, c, pc) ==
            Granted(c, ApprovalOf(pc)) + [ToolStarted(c, job.tool, JobRisk(cfg.admit(job)))] + Late(c, pc)
  {
  }

  lemma HistoryWithoutRun(cfg: Config, job: Job, c: CallId, pc: PC)
    requires !HasRun(pc)
    ensures NoStart(History(cfg, job, c, pc))
  {
    if Settled(pc).Some? {
      assert NoStart(Before(cfg, job, c, Settled(pc).value)) && NoStart(Late(c, pc));
    }
  }

  lemma StartInHistory(cfg: Config, job: Job, c: CallId, pc: PC, e: Event)
    requires e.ToolStarted?
    ensures multiset(History(cfg, job, c, pc))[e] ==
            if HasRun(pc) && e == ToolStarted(c, job.tool, JobRisk(cfg.admit(job))) then 1 else 0
  {
    var start := ToolStarted(c, job.tool, JobRisk(cfg.admit(job)));
    if HasRun(pc) {
      HistoryOfRun(cfg, job, c, pc);
      StartAmong(Granted(c, ApprovalOf(pc)), start, Late(c, pc), e);
    } else {
      HistoryWithoutRun(cfg, job, c, pc);
      var h := History(cfg, job, c, pc);
      assert forall k :: 0 <= k < |h| ==> h[k] != e;
      assert e !in multiset(h);
    }
  }

  // ---- the theorems

  /** The call's admission asked for a human. */
  predicate NeedsApproval(cfg: Config, s: State, c: CallId) {
    c in s.procs && Decided(cfg.admit(s.procs[c].call.job), Policy.RequireApproval)
  }

  /** No start without authority: whatever started, anywhere, any number of calls
      interleaved, was registered, enabled and within every ceiling. */
  lemma NoStartWithoutAuthority(
      st: Settings, ttl: nat, prompt: bool, actions: seq<Action>, s: State, c: CallId, tool: string, risk: RiskLevel)
    requires s == Run(Gate(st, ttl, prompt), actions) && ToolStarted(c, tool, risk) in s.trace
    ensures && c in s.procs
            && tool == s.procs[c].call.job.tool
            && StartAuthorised(st, s.procs[c].call.job, risk)
  {
    var cfg := Gate(st, ttl, prompt);
    GateIsWellJudged(st, ttl, prompt);
    RunKeeps(cfg, actions);
    OfCounts(s.trace, ToolStarted(c, tool, risk));
    WrittenIsKnown(cfg, s, c);
    StartedIff(cfg, s, c);
    assert Started(s, c) && CallOk(cfg, s, c);
    var job := s.procs[c].call.job;
    StartWasDecided(cfg, job, s.procs[c].pc);
    AdmissionIsAuthority(st, job);
  }

  lemma StartWasDecided(cfg: Config, job: Job, pc: PC)
    requires HasRun(pc) && Fits(cfg, cfg.admit(job), pc)
    ensures GateFits(cfg, cfg.admit(job), ApprovalOf(pc))
    ensures cfg.admit(job).Judged? && cfg.admit(job).v.decision != Policy.Deny
  {
  }

  /** A call starts at most once; if its admission asked for a human, only with
      an approver attached and after spending an approval opened for that very
      call and granted through its own prompt; if not, without any. */
  lemma StartSpendsOwnApproval(cfg: Config, actions: seq<Action>, s: State, c: CallId)
    requires WellJudged(cfg) && s == Run(cfg, actions)
    ensures Started(s, c) ==>
              && c in s.procs
              && (forall tool, risk :: multiset(s.trace)[ToolStarted(c, tool, risk)] <= 1)
              && (!NeedsApproval(cfg, s, c) ==> forall a :: a in s.rows ==> s.rows[a].callId != c)
              && (NeedsApproval(cfg, s, c) ==>
                    && cfg.prompt
                    && exists a :: Spent(s, a) && s.rows[a].callId == c
                         && a in s.resolutions && s.resolutions[a].approved && s.resolutions[a].via == Prompt)
  {
    RunKeeps(cfg, actions);
    if Started(s, c) {
      var tool, risk :| ToolStarted(c, tool, risk) in s.trace;
      OfCounts(s.trace, ToolStarted(c, tool, risk));
      WrittenIsKnown(cfg, s, c);
      StartedIff(cfg, s, c);
      assert CallOk(cfg, s, c);
      var pc := s.procs[c].pc;
      StartWasDecided(cfg, s.procs[c].call.job, pc);
      if ApprovalOf(pc).Some? {
        assert RowOk(cfg, s, ApprovalOf(pc).value);
      } else {
        forall a | a in s.rows ensures s.rows[a].callId != c { assert RowOk(cfg, s, a); }
      }
    }
  }

  /** An approval is spent on one call only, its own, which has started unless it
      is between the two steps; so spent approvals and gated starts are in
      bijection once nothing is in between. */
  lemma SpentStartsOwnCall(cfg: Config, actions: seq<Action>, s: State, a: ApprovalId)
    requires WellJudged(cfg) && s == Run(cfg, actions)
    ensures Spent(s, a) ==>
              && var c := s.rows[a].callId;
                 && NeedsApproval(cfg, s, c)
                 && (Started(s, c) || OnTheWay(s, c, a))
                 && !(Started(s, c) && OnTheWay(s, c, a))
                 && forall b :: b in s.rows && s.rows[b].callId == c ==> b == a
  {
    RunKeeps(cfg, actions);
    if Spent(s, a) {
      assert RowOk(cfg, s, a);
      var c := s.rows[a].callId;
      assert CallOk(cfg, s, c);
      StartedIff(cfg, s, c);
      SpentCounter(cfg, cfg.admit(s.procs[c].call.job), s.procs[c].pc, a, Via(s, a));
      forall b | b in s.rows && s.rows[b].callId == c ensures b == a { assert RowOk(cfg, s, b); }
    }
  }

  lemma SpentCounter(cfg: Config, adm: Admission, pc: PC, a: ApprovalId, via: Option<Channel>)
    requires ApprovalOf(pc) == Some(a) && Standing(pc, A.Consumed, via) && Fits(cfg, adm, pc)
    ensures Decided(adm, Policy.RequireApproval)
    ensures HasRun(pc) <==> !(pc == EmitApproved(a) || pc == EmitStarted(Some(a)))
  {
  }

  function SpentIds(s: State): set<ApprovalId> {
    set a | a in s.rows && Spent(s, a)
  }

  ghost function GatedStarts(cfg: Config, s: State): set<CallId> {
    set c | c in s.procs && Started(s, c) && NeedsApproval(cfg, s, c)
  }

  /** Calls that have spent their approval and have yet to announce the start, or
      were torn down there. */
  function InBetween(s: State): set<CallId> {
    set c | c in s.procs && (s.procs[c].pc.EmitApproved? || (s.procs[c].pc.EmitStarted? && s.procs[c].pc.gate.Some?))
  }

  lemma InBetweenHasSpent(cfg: Config, actions: seq<Action>, s: State, c: CallId)
    requires WellJudged(cfg) && s == Run(cfg, actions) && c in InBetween(s)
    ensures exists a :: a in SpentIds(s) && s.rows[a].callId == c && OnTheWay(s, c, a)
  {
    RunKeeps(cfg, actions);
    assert CallOk(cfg, s, c);
    var a := ApprovalOf(s.procs[c].pc).value;
    assert OnTheWay(s, c, a) && a in SpentIds(s);
  }

  /** Spent approvals are paired by call id, one to one, with the approval-gated
      starts and the few calls in between; when there are none of those, there
      are exactly as many spent approvals as gated starts. */
  lemma SpentEqualsGatedStarts(cfg: Config, actions: seq<Action>, s: State)
    requires WellJudged(cfg) && s == Run(cfg, actions)
    ensures GatedStarts(cfg, s) !! InBetween(s)
    ensures forall a :: a in SpentIds(s) ==> s.rows[a].callId in GatedStarts(cfg, s) + InBetween(s)
    ensures forall a, b :: a in SpentIds(s) && b in SpentIds(s) && s.rows[a].callId == s.rows[b].callId ==> a == b
    ensures forall c :: c in GatedStarts(cfg, s) + InBetween(s) ==> exists a :: a in SpentIds(s) && s.rows[a].callId == c
    ensures |SpentIds(s)| == |GatedStarts(cfg, s)| + |InBetween(s)|
  {
    var calls := GatedStarts(cfg, s) + InBetween(s);
    forall a | a in SpentIds(s)
      ensures s.rows[a].callId in calls
      ensures forall b :: b in SpentIds(s) && s.rows[b].callId == s.rows[a].callId ==> b == a
    {
      SpentStartsOwnCall(cfg, actions, s, a);
    }
    forall c | c in GatedStarts(cfg, s) ensures exists a :: a in SpentIds(s) && s.rows[a].callId == c {
      StartSpendsOwnApproval(cfg, actions, s, c);
    }
    forall c | c in InBetween(s)
      ensures c !in GatedStarts(cfg, s)
      ensures exists a :: a in SpentIds(s) && s.rows[a].callId == c
    {
      InBetweenHasSpent(cfg, actions, s, c);
      var a :| a in SpentIds(s) && s.rows[a].callId == c && OnTheWay(s, c, a);
      SpentStartsOwnCall(cfg, actions, s, a);
    }
    PairedSetsHaveOneSize(s.rows, SpentIds(s), calls);
  }

  lemma {:induction false} PairedSetsHaveOneSize(rows: A.Table, ids: set<ApprovalId>, calls: set<CallId>)
    requires ids <= rows.Keys
    requires forall a :: a in ids ==> rows[a].callId in calls
    requires forall a, b :: a in ids && b in ids && rows[a].callId == rows[b].callId ==> a == b
    requires forall c :: c in calls ==> exists a :: a in ids && rows[a].callId == c
    ensures |ids| == |calls|
    decreases |ids|
  {
    if ids == {} {
      assert calls == {};
    } else {
      var a :| a in ids;
      var c := rows[a].callId;
      forall d | d in calls - {c} ensures exists b :: b in ids - {a} && rows[b].callId == d {
        var b :| b in ids && rows[b].callId == d;
      }
      PairedSetsHaveOneSize(rows, ids - {a}, calls - {c});
    }
  }

  /** An answer given out of band never starts a tool: the approval it settled is
      never spent and its call never runs. */
  lemma OutOfBandNeverStarts(cfg: Config, actions: seq<Action>, s: State, a: ApprovalId)
    requires WellJudged(cfg) && s == Run(cfg, actions)
    requires a in s.resolutions && s.resolutions[a].via == OutOfBand
    ensures a in s.rows && !Spent(s, a) && !Started(s, s.rows[a].callId)
  {
    RunKeeps(cfg, actions);
    assert RowOk(cfg, s, a);
    var c := s.rows[a].callId;
    forall b | b in s.rows && s.rows[b].callId == c ensures b == a {
      assert RowOk(cfg, s, b);
    }
    StartSpendsOwnApproval(cfg, actions, s, c);
  }

  /** No DESTRUCTIVE request reaches approval without the exact phrase. */
  lemma DestructiveNeedsPhrase(cfg: Config, actions: seq<Action>, s: State, a: ApprovalId)
    requires WellJudged(cfg) && s == Run(cfg, actions)
    requires a in s.rows && s.rows[a].risk == Destructive && s.rows[a].state in {A.Approved, A.Consumed}
    ensures a in s.resolutions && s.resolutions[a].phrase == Some(A.CONFIRMATION_PHRASE)
  {
    RunKeeps(cfg, actions);
    assert RowOk(cfg, s, a);
  }

  /** Every request was opened for a call whose admission asked for it, with the
      risk that admission found, so reading it back rebuilds the very phrase
      requirement the policy made. */
  lemma RowsCarryTheVerdict(cfg: Config, actions: seq<Action>, s: State, a: ApprovalId)
    requires WellJudged(cfg) && s == Run(cfg, actions)
    requires a in s.rows
    ensures && var row := s.rows[a];
               && NeedsApproval(cfg, s, row.callId)
               && row.tool == s.procs[row.callId].call.job.tool
               && A.FromRow(a, row).needsPhrase == cfg.admit(s.procs[row.callId].call.job).v.phrase
  {
    RunKeeps(cfg, actions);
    assert RowOk(cfg, s, a);
    var c := s.rows[a].callId;
    assert CallOk(cfg, s, c);
    OpenedWasDecided(cfg, cfg.admit(s.procs[c].call.job), s.procs[c].pc);
    assert Coherent(cfg.admit(s.procs[c].call.job));
  }

  lemma OpenedWasDecided(cfg: Config, adm: Admission, pc: PC)
    requires ApprovalOf(pc).Some? && Fits(cfg, adm, pc)
    ensures Decided(adm, Policy.RequireApproval)
  {
  }

  /** What one action may do to the approvals. */
  ghost predicate ApprovalStep(s: State, t: State, action: Action) {
    && A.Evolves(s.rows, t.rows, s.now)
    && (forall a :: a in s.resolutions ==> a in t.resolutions && t.resolutions[a] == s.resolutions[a])
    && (forall a :: Spent(t, a) && !Spent(s, a) ==> a in s.rows && action.Step? && action.c == s.rows[a].callId)
  }

  lemma OpenEvolves(cfg: Config, s: State, c: CallId, call: Call, a: ApprovalId)
    requires a !in s.rows && s.resolutions.Keys <= s.rows.Keys
    ensures ApprovalStep(s, StepOpen(cfg, s, c, call, a), Step(c, FreshApproval(a)))
  {
  }

  /** Accepting an answer: only a pending request takes one, so none is replaced. */
  lemma ResolveEvolves(cfg: Config, s: State, answer: A.Answer, via: Channel, action: Action)
    requires Inv(cfg, s)
    ensures ApprovalStep(s, Resolve(s, answer, via), action)
  {
    if answer.requestId in s.rows { assert RowOk(cfg, s, answer.requestId); }
    A.ResolveEvolves(s.rows, answer, s.now);
  }

  lemma ConsumeEvolves(cfg: Config, s: State, c: CallId, a: ApprovalId, choice: Choice)
    requires a in s.rows && s.rows[a].callId == c
    ensures ApprovalStep(s, s.(rows := A.AfterConsume(s.rows, a, s.now)), Step(c, choice))
  {
    A.ConsumeEvolves(s.rows, a, s.now);
  }

  lemma SameApprovals(s: State, t: State, action: Action)
    requires t.rows == s.rows && t.resolutions == s.resolutions
    ensures ApprovalStep(s, t, action)
  {
  }

  predicate AtGate(pc: PC) {
    pc.OpenApproval? || pc.Resolving? || pc.Consuming?
  }

  lemma OffGateLeavesApprovals(cfg: Config, s: State, c: CallId, choice: Choice)
    requires c in s.procs && (s.procs[c].aborted || !AtGate(s.procs[c].pc))
    ensures var t := StepCall(cfg, s, c, choice); t.rows == s.rows && t.resolutions == s.resolutions
  {
    if s.procs[c].aborted { return; }
    match s.procs[c].pc
    case Begin =>
    case RecordResult(_) =>
    case _ =>
  }

  lemma GateEvolves(cfg: Config, s: State, c: CallId, choice: Choice)
    requires Inv(cfg, s) && c in s.procs && !s.procs[c].aborted && AtGate(s.procs[c].pc)
    ensures ApprovalStep(s, StepCall(cfg, s, c, choice), Step(c, choice))
  {
    var t := StepCall(cfg, s, c, choice);
    var Proc(call, pc, _) := s.procs[c];
    match pc
    case OpenApproval =>
      if choice.FreshApproval? && choice.a !in s.rows {
        OpenEvolves(cfg, s, c, call, choice.a);
      } else {
        SameApprovals(s, t, Step(c, choice));
      }
    case Resolving(a, approved, phrase) =>
      AnswerStepEvolves(cfg, s, c, call, A.Answer(a, approved, phrase), choice);
    case Consuming(a) =>
      assert CallOk(cfg, s, c);
      SpendStepEvolves(cfg, s, c, call, a, choice);
  }

  lemma AnswerStepEvolves(cfg: Config, s: State, c: CallId, call: Call, answer: A.Answer, choice: Choice)
    requires Inv(cfg, s)
    ensures ApprovalStep(s, StepResolve(s, c, call, answer, choice.StoreFails?), Step(c, choice))
  {
    ResolveEvolves(cfg, s, answer, Prompt, Step(c, choice));
    SameApprovals(s, s, Step(c, choice));
  }

  lemma SpendStepEvolves(cfg: Config, s: State, c: CallId, call: Call, a: ApprovalId, choice: Choice)
    requires a in s.rows && s.rows[a].callId == c
    ensures ApprovalStep(s, StepConsume(s, c, call, a, choice.StoreFails?), Step(c, choice))
  {
    ConsumeEvolves(cfg, s, c, a, choice);
    SameApprovals(s, s, Step(c, choice));
  }

  /** One step: approvals move only along their lifecycle, an accepted answer is
      never replaced, and only the owning call can spend, before the deadline. */
  lemma ApprovalsEvolve(cfg: Config, s: State, action: Action)
    requires Inv(cfg, s)
    ensures ApprovalStep(s, Apply(cfg, s, action), action)
  {
    match action
    case Step(c, choice) =>
      if c in s.procs && !s.procs[c].aborted && AtGate(s.procs[c].pc) {
        GateEvolves(cfg, s, c, choice);
      } else {
        if c in s.procs { OffGateLeavesApprovals(cfg, s, c, choice); }
        SameApprovals(s, Apply(cfg, s, action), action);
      }
    case Answer(answer) => ResolveEvolves(cfg, s, answer, OutOfBand, action);
    case Timeout(a) => A.ExpireEvolves(s.rows, a, s.now);
    case _ => SameApprovals(s, Apply(cfg, s, action), action);
  }

  /** So it is for the next action of any run. */
  lemma NextActionEvolves(cfg: Config, actions: seq<Action>, action: Action, s: State, t: State)
    requires WellJudged(cfg) && s == Run(cfg, actions) && t == Run(cfg, actions + [action])
    ensures A.Evolves(s.rows, t.rows, s.now)
    ensures forall a :: a in s.resolutions ==> a in t.resolutions && t.resolutions[a] == s.resolutions[a]
    ensures forall a :: Spent(t, a) && !Spent(s, a) ==> a in s.rows && action.Step? && action.c == s.rows[a].callId
  {
    RunKeeps(cfg, actions);
    ApprovalsEvolve(cfg, s, action);
    assert (actions + [action])[..|actions|] == actions;
  }

  /** The same along any continuation of any run. */
  lemma {:induction false} ApprovalsEvolveAlongRuns(cfg: Config, past: seq<Action>, future: seq<Action>, a: ApprovalId)
    requires WellJudged(cfg)
    requires a in Run(cfg, past).rows
    ensures var s, t := Run(cfg, past), Run(cfg, past + future);
            && a in t.rows
            && t.rows[a] == s.rows[a].(state := t.rows[a].state)
            && Reachable(s.rows[a].state, t.rows[a].state)
            && (a in s.resolutions ==> a in t.resolutions && t.resolutions[a] == s.resolutions[a])
  {
    if future == [] {
      assert past + future == past;
    } else {
      var n := |future| - 1;
      ApprovalsEvolveAlongRuns(cfg, past, future[..n], a);
      var all := past + future;
      assert all[..|all| - 1] == past + future[..n] && all[|all| - 1] == future[n];
      RunKeeps(cfg, past + future[..n]);
      ApprovalsEvolve(cfg, Run(cfg, past + future[..n]), future[n]);
    }
  }

  /** The states an approval can be in later. */
  predicate Reachable(before: A.ApprovalState, after: A.ApprovalState) {
    A.Move(before, after) || (before == A.Pending && after == A.Consumed)
  }

  function Closings(trace: seq<Event>, c: CallId): nat {
    multiset(trace)[ToolCompleted(c)] + multiset(trace)[ToolFailed(c)] + multiset(trace)[PolicyDenied(c)]
  }

  /** Every call that returns leaves one ledger row that says how it ended, and
      exactly one closing event, a completion exactly when it succeeded. */
  lemma ReturnedCallIsClosed(cfg: Config, actions: seq<Action>, s: State, c: CallId)
    requires WellJudged(cfg) && s == Run(cfg, actions)
    requires c in s.procs && s.procs[c].pc.Done?
    ensures var route := s.procs[c].pc.route;
            var success := route.Ran? && route.ok;
            && c in s.ledger
            && s.ledger[c].success == Some(success)
            && Closings(s.trace, c) == 1
            && (ToolCompleted(c) in s.trace <==> success)
            && (PolicyDenied(c) in s.trace <==> s.ledger[c].decision == Some(Policy.Deny))
  {
    RunKeeps(cfg, actions);
    assert CallOk(cfg, s, c);
    var route := s.procs[c].pc.route;
    OfCounts(s.trace, ToolCompleted(c));
    OfCounts(s.trace, ToolFailed(c));
    OfCounts(s.trace, PolicyDenied(c));
    ClosingOfHistory(cfg, s.procs[c].call.job, c, route);
    DeniedRow(cfg, cfg.admit(s.procs[c].call.job), s.procs[c].call.job.tool, route);
  }

  lemma DeniedRow(cfg: Config, adm: Admission, tool: string, route: Route)
    requires RouteFits(cfg, adm, route)
    ensures ExpectedRow(adm, tool).decision == Some(Policy.Deny) <==> route.Refused?
  {
  }

  predicate IsClosing(e: Event) {
    e.ToolCompleted? || e.ToolFailed? || e.PolicyDenied?
  }

  lemma BeforeClosing(cfg: Config, job: Job, c: CallId, route: Route, e: Event)
    requires IsClosing(e)
    ensures multiset(Before(cfg, job, c, route))[e] == 0
  {
    BeforeIsOpen(cfg, job, c, route);
    hide Before, IsClosing;
    assert e !in Before(cfg, job, c, route);
  }

  lemma BeforeIsOpen(cfg: Config, job: Job, c: CallId, route: Route)
    ensures forall e :: e in Before(cfg, job, c, route) ==> !IsClosing(e)
  {
  }

  lemma LateClosing(c: CallId, route: Route)
    ensures var m := multiset(Late(c, Done(route)));
            && m[ToolCompleted(c)] == (if Succeeded(route) then 1 else 0)
            && m[PolicyDenied(c)] == (if route.Refused? then 1 else 0)
            && m[ToolFailed(c)] == (if Succeeded(route) || route.Refused? then 0 else 1)
  {
  }

  lemma ClosingOfHistory(cfg: Config, job: Job, c: CallId, route: Route)
    ensures var m := multiset(History(cfg, job, c, Done(route)));
            && m[ToolCompleted(c)] == (if Succeeded(route) then 1 else 0)
            && m[PolicyDenied(c)] == (if route.Refused? then 1 else 0)
            && m[ToolFailed(c)] == (if Succeeded(route) || route.Refused? then 0 else 1)
  {
    LateClosing(c, route);
    BeforeClosing(cfg, job, c, route, ToolCompleted(c));
    BeforeClosing(cfg, job, c, route, PolicyDenied(c));
    BeforeClosing(cfg, job, c, route, ToolFailed(c));
    SettledSplit(cfg, job, c, route);
  }

  lemma SettledSplit(cfg: Config, job: Job, c: CallId, route: Route)
    ensures multiset(History(cfg, job, c, Done(route))) ==
            multiset(Before(cfg, job, c, route)) + multiset(Late(c, Done(route)))
  {
  }

  /** The ledger is written on the way in: nothing a call publishes precedes its row. */
  lemma RowPrecedesEverything(cfg: Config, actions: seq<Action>, s: State, i: nat)
    requires WellJudged(cfg) && s == Run(cfg, actions)
    requires i < |s.trace|
    ensures exists j: nat :: j <= i && s.trace[j] == CallRow(s.trace[i].c)
  {
    RunKeeps(cfg, actions);
    FirstComesFirst(s.trace, i);
    var c := s.trace[i].c;
    WrittenIsKnown(cfg, s, c);
    assert CallOk(cfg, s, c);
    assert Of(s.trace, c)[0] == CallRow(c);
  }

  /** The security notes list the approval state among the columns of every
      recorded call. The row is written before the approval exists and only its
      outcome is updated, so in every run those two columns stay empty. */
  lemma LedgerNeverNamesApproval(cfg: Config, actions: seq<Action>, s: State, c: CallId)
    requires WellJudged(cfg) && s == Run(cfg, actions)
    requires c in s.ledger
    ensures var row := s.ledger[c]; row.approvalId == None && row.approvalState == None
  {
    RunKeeps(cfg, actions);
    WrittenIsKnown(cfg, s, c);
    assert CallOk(cfg, s, c);
  }

  /** The approval columns of a call's row say what the approvals table says. */
  predicate ColumnsAgree(s: State, c: CallId)
    requires c in s.ledger
  {
    var row := s.ledger[c];
    && (forall a :: a in s.rows && s.rows[a].callId == c ==>
          row.approvalId == Some(a) && row.approvalState == Some(s.rows[a].state))
    && (row.approvalId.Some? ==> row.approvalId.value in s.rows && s.rows[row.approvalId.value].callId == c)
    && (row.approvalState.Some? ==> row.approvalId.Some?)
  }

  /** They do exactly when no request was ever opened for the call. */
  lemma ColumnsAgreeWithoutRequest(cfg: Config, actions: seq<Action>, s: State, c: CallId)
    requires WellJudged(cfg) && s == Run(cfg, actions) && c in s.ledger
    ensures ColumnsAgree(s, c) <==> forall a :: a in s.rows ==> s.rows[a].callId != c
  {
    LedgerNeverNamesApproval(cfg, actions, s, c);
  }

  /** What decides it is known before the first await: the row of a call that has
      returned agrees with the approvals table exactly when the policy did not ask
      for approval. */
  lemma ColumnsAgreeUnlessGated(cfg: Config, actions: seq<Action>, s: State, c: CallId)
    requires WellJudged(cfg) && s == Run(cfg, actions)
    requires c in s.procs && s.procs[c].pc.Done?
    ensures c in s.ledger
    ensures ColumnsAgree(s, c) <==> !Decided(cfg.admit(s.procs[c].call.job), Policy.RequireApproval)
  {
    RunKeeps(cfg, actions);
    assert CallOk(cfg, s, c);
    ColumnsAgreeWithoutRequest(cfg, actions, s, c);
    forall a | a in s.rows && s.rows[a].callId == c
      ensures Decided(cfg.admit(s.procs[c].call.job), Policy.RequireApproval)
    {
      RowsCarryTheVerdict(cfg, actions, s, a);
    }
    if Decided(cfg.admit(s.procs[c].call.job), Policy.RequireApproval) {
      GatedWasOpened(cfg, cfg.admit(s.procs[c].call.job), s.procs[c].pc);
    }
  }

  lemma GatedWasOpened(cfg: Config, adm: Admission, pc: PC)
    requires pc.Done? && Fits(cfg, adm, pc) && Decided(adm, Policy.RequireApproval)
    ensures ApprovalOf(pc).Some?
  {
  }

  /** A call keeps its job for good. */
  lemma {:induction false} JobsPersist(cfg: Config, past: seq<Action>, actions: seq<Action>)
    requires past <= actions
    ensures forall c :: c in Run(cfg, past).procs ==>
              c in Run(cfg, actions).procs && Run(cfg, actions).procs[c].call.job == Run(cfg, past).procs[c].call.job
    decreases |actions|
  {
    if |past| < |actions| {
      var n := |actions| - 1;
      JobsPersist(cfg, past, actions[..n]);
      ActionKeepsJobs(cfg, Run(cfg, actions[..n]), actions[n]);
    } else {
      assert past == actions;
    }
  }

  /** A call that has returned stays as it returned. */
  lemma {:induction false} DonePersists(cfg: Config, past: seq<Action>, actions: seq<Action>)
    requires past <= actions
    ensures var s, t := Run(cfg, past), Run(cfg, actions);
            forall c :: c in s.procs && s.procs[c].pc.Done? && !s.procs[c].aborted ==>
              c in t.procs && t.procs[c] == s.procs[c]
    decreases |actions|
  {
    if |past| < |actions| {
      var n := |actions| - 1;
      DonePersists(cfg, past, actions[..n]);
      ActionKeepsDone(cfg, Run(cfg, actions[..n]), actions[n]);
    } else {
      assert past == actions;
    }
  }

  lemma ActionKeepsDone(cfg: Config, s: State, action: Action)
    ensures var t := Apply(cfg, s, action);
            forall c :: c in s.procs && s.procs[c].pc.Done? ==> c in t.procs && t.procs[c] == s.procs[c]
  {
    if action.Step? && action.c in s.procs {
      StepKeepsJob(cfg, s, action.c, action.choice);
      assert Apply(cfg, s, action) == StepCall(cfg, s, action.c, action.choice);
    }
  }

  /** A step changes its own call only, and not its job. */
  predicate OnlyOwnProc(s: State, t: State, c: CallId)
    requires c in s.procs
  {
    c in t.procs && t.procs == s.procs[c := t.procs[c]] && t.procs[c].call.job == s.procs[c].call.job
  }

  lemma EarlyStepsKeepJob(cfg: Config, s: State, c: CallId, choice: Choice)
    requires c in s.procs
    ensures OnlyOwnProc(s, StepBegin(cfg, s, c, s.procs[c].call), c)
    ensures forall v :: OnlyOwnProc(s, StepRequested(s, c, s.procs[c].call, v), c)
    ensures forall a :: a !in s.rows ==> OnlyOwnProc(s, StepOpen(cfg, s, c, s.procs[c].call, a), c)
  {
  }

  lemma GateStepsKeepJob(s: State, c: CallId, answer: A.Answer, a: ApprovalId, storeFails: bool)
    requires c in s.procs
    ensures OnlyOwnProc(s, StepResolve(s, c, s.procs[c].call, answer, storeFails), c)
    ensures OnlyOwnProc(s, StepConsume(s, c, s.procs[c].call, a, storeFails), c)
  {
  }

  lemma WaitingKeepsJob(cfg: Config, s: State, c: CallId, choice: Choice)
    requires c in s.procs && !s.procs[c].aborted
    requires s.procs[c].pc.Prompting? || s.procs[c].pc.Running? || s.procs[c].pc.Done?
    ensures OnlyOwnProc(s, StepCall(cfg, s, c, choice), c)
  {
    assert s.procs == s.procs[c := s.procs[c]];
  }

  lemma WritingKeepsJob(cfg: Config, s: State, c: CallId, choice: Choice)
    requires c in s.procs && !s.procs[c].aborted
    requires s.procs[c].pc.RefuseCall? || s.procs[c].pc.RecordResult?
    ensures OnlyOwnProc(s, StepCall(cfg, s, c, choice), c)
  {
  }

  lemma EmittingKeepsJob(cfg: Config, s: State, c: CallId, choice: Choice)
    requires c in s.procs && !s.procs[c].aborted
    requires var pc := s.procs[c].pc; pc.EmitApproved? || pc.EmitStarted? || pc.Announce? || pc.AnnounceDecline?
    ensures OnlyOwnProc(s, StepCall(cfg, s, c, choice), c)
  {
  }

  lemma StepKeepsJob(cfg: Config, s: State, c: CallId, choice: Choice)
    requires c in s.procs
    ensures OnlyOwnProc(s, StepCall(cfg, s, c, choice), c)
  {
    var Proc(call, pc, aborted) := s.procs[c];
    assert s.procs == s.procs[c := s.procs[c]];
    if aborted {
    } else if pc.Resolving? {
      GateStepsKeepJob(s, c, A.Answer(pc.a, pc.approved, pc.phrase), pc.a, choice.StoreFails?);
    } else if pc.Consuming? {
      GateStepsKeepJob(s, c, A.Answer(pc.a, true, None), pc.a, choice.StoreFails?);
    } else if pc.Begin? || pc.EmitRequested? || pc.OpenApproval? {
      EarlyStepsKeepJob(cfg, s, c, choice);
    } else if pc.RefuseCall? || pc.RecordResult? {
      WritingKeepsJob(cfg, s, c, choice);
    } else if pc.Prompting? || pc.Running? || pc.Done? {
      WaitingKeepsJob(cfg, s, c, choice);
    } else {
      EmittingKeepsJob(cfg, s, c, choice);
    }
  }

  lemma ActionKeepsJobs(cfg: Config, s: State, action: Action)
    ensures forall c :: c in s.procs ==>
              c in Apply(cfg, s, action).procs && Apply(cfg, s, action).procs[c].call.job == s.procs[c].call.job
  {
    if action.Step? && action.c in s.procs {
      StepKeepsJob(cfg, s, action.c, action.choice);
      assert Apply(cfg, s, action) == StepCall(cfg, s, action.c, action.choice);
    }
  }
}
