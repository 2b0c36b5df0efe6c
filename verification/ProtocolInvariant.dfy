/** What every reachable state of the protocol satisfies. A call's whole written
    and published history is a function of its job and its program counter; a
    row of the approvals table belongs to exactly one call. */
module ProtocolInvariant {
  import opened Common
  import opened Risk
  import opened Registry
  import opened Protocol
  import Policy
  import A = Approvals

  // ---- the history a program counter stands for

  /** The part of the trace written by call `c`. */
  function Of(trace: seq<Event>, c: CallId): seq<Event> {
    if trace == [] then []
    else
      var rest, e := Of(trace[..|trace| - 1], c), trace[|trace| - 1];
      if e.c == c then rest + [e] else rest
  }

  lemma OfEmit(trace: seq<Event>, e: Event, c: CallId)
    ensures Of(trace + [e], c) == if e.c == c then Of(trace, c) + [e] else Of(trace, c)
  {
    assert (trace + [e])[..|trace|] == trace;
  }

  function Asked(c: CallId): seq<Event> {
    [CallRow(c), ToolRequested(c)]
  }

  function Granted(c: CallId, gate: Option<ApprovalId>): seq<Event> {
    match gate
    case None => Asked(c)
    case Some(a) => Asked(c) + [ApprovalOpened(c, a), ToolApproved(c, a)]
  }

  function JobRisk(adm: Admission): RiskLevel {
    match adm
    case NotFound => Destructive
    case Malformed(ceiling) => ceiling
    case Judged(risk, _) => risk
  }

  /** Everything before the result is recorded. */
  function Before(cfg: Config, job: Job, c: CallId, route: Route): seq<Event> {
    match route
    case Refused(asked) => if asked then Asked(c) + [CallRow(c)] else [CallRow(c)]
    case BadArguments => [CallRow(c)]
    case Ran(gate, _) => Granted(c, gate) + [ToolStarted(c, job.tool, JobRisk(cfg.admit(job)))]
    case _ => Asked(c) + [ApprovalOpened(c, route.a)]
  }

  /** The route a call has settled on. */
  function Settled(pc: PC): Option<Route> {
    match pc
    case RecordResult(route) => Some(route)
    case Announce(route) => Some(route)
    case AnnounceDecline(a) => Some(Declined(a))
    case Done(route) => Some(route)
    case _ => None
  }

  /** What follows once the result is in. */
  function Late(c: CallId, pc: PC): seq<Event> {
    match pc
    case Announce(route) => [ResultRow(c, Succeeded(route))]
    case AnnounceDecline(_) => [ResultRow(c, false), ToolFailed(c)]
    case Done(route) =>
      if route.Declined? then [ResultRow(c, false), ToolFailed(c), OperatorDeclined(c)]
      else [ResultRow(c, Succeeded(route)), Announcement(c, route)]
    case _ => []
  }

  function History(cfg: Config, job: Job, c: CallId, pc: PC): seq<Event> {
    match pc
    case Begin => []
    case EmitRequested(_) => [CallRow(c)]
    case RefuseCall(_) => Asked(c)
    case OpenApproval => Asked(c)
    case Prompting(a) => Asked(c) + [ApprovalOpened(c, a)]
    case Resolving(a, _, _) => Asked(c) + [ApprovalOpened(c, a)]
    case Consuming(a) => Asked(c) + [ApprovalOpened(c, a)]
    case EmitApproved(a) => Asked(c) + [ApprovalOpened(c, a)]
    case EmitStarted(gate) => Granted(c, gate)
    case Running(gate) => Granted(c, gate) + [ToolStarted(c, job.tool, JobRisk(cfg.admit(job)))]
    case _ => Before(cfg, job, c, Settled(pc).value) + Late(c, pc)
  }

  // ---- what else a program counter implies

  function RouteApproval(route: Route): Option<ApprovalId> {
    match route
    case Refused(_) => None
    case BadArguments => None
    case Ran(gate, _) => gate
    case _ => Some(route.a)
  }

  /** The approval a call has opened. */
  function ApprovalOf(pc: PC): Option<ApprovalId> {
    match pc
    case Begin => None
    case EmitRequested(_) => None
    case RefuseCall(_) => None
    case OpenApproval => None
    case EmitStarted(gate) => gate
    case Running(gate) => gate
    case Prompting(a) => Some(a)
    case Resolving(a, _, _) => Some(a)
    case Consuming(a) => Some(a)
    case EmitApproved(a) => Some(a)
    case _ => RouteApproval(Settled(pc).value)
  }

  predicate Decided(adm: Admission, d: Policy.Decision) {
    adm.Judged? && adm.v.decision == d
  }

  predicate GateFits(cfg: Config, adm: Admission, gate: Option<ApprovalId>) {
    if gate.Some? then Decided(adm, Policy.RequireApproval) && cfg.prompt else Decided(adm, Policy.Allow)
  }

  predicate RouteFits(cfg: Config, adm: Admission, route: Route) {
    match route
    case Refused(asked) => if asked then Decided(adm, Policy.Deny) else adm.NotFound?
    case BadArguments => adm.Malformed?
    case Unanswered(_) => Decided(adm, Policy.RequireApproval) && !cfg.prompt
    case Ran(gate, _) => GateFits(cfg, adm, gate)
    case _ => Decided(adm, Policy.RequireApproval) && cfg.prompt
  }

  /** The call took the branch its admission dictates. */
  predicate Fits(cfg: Config, adm: Admission, pc: PC) {
    match pc
    case Begin => true
    case EmitRequested(v) => adm.Judged? && v == adm.v
    case RefuseCall(v) => Decided(adm, Policy.Deny) && v == adm.v
    case OpenApproval => Decided(adm, Policy.RequireApproval)
    case EmitStarted(gate) => GateFits(cfg, adm, gate)
    case Running(gate) => GateFits(cfg, adm, gate)
    case Prompting(_) => Decided(adm, Policy.RequireApproval) && cfg.prompt
    case Resolving(_, _, _) => Decided(adm, Policy.RequireApproval) && cfg.prompt
    case Consuming(_) => Decided(adm, Policy.RequireApproval) && cfg.prompt
    case EmitApproved(_) => Decided(adm, Policy.RequireApproval) && cfg.prompt
    case _ => RouteFits(cfg, adm, Settled(pc).value)
  }

  /** The ledger row of a job: settled at request time, except for `success`. */
  function ExpectedRow(adm: Admission, tool: string): LedgerRow {
    match adm
    case NotFound =>
      LedgerRow(tool, Destructive, Some(Policy.Deny), Some(Policy.UnknownTool), None, None, None)
    case Malformed(ceiling) => LedgerRow(tool, ceiling, None, None, None, None, None)
    case Judged(risk, v) => LedgerRow(tool, risk, Some(v.decision), Some(v.rule), None, None, None)
  }

  function SuccessAt(pc: PC): Option<bool> {
    match pc
    case Announce(route) => Some(Succeeded(route))
    case AnnounceDecline(_) => Some(false)
    case Done(route) => Some(Succeeded(route))
    case _ => None
  }

  /** The state the call's approval must be in. */
  predicate Standing(pc: PC, state: A.ApprovalState, via: Option<Channel>) {
    match pc
    case Consuming(_) => state == A.Approved && via == Some(Prompt)
    case EmitApproved(_) => state == A.Consumed
    case EmitStarted(_) => state == A.Consumed
    case Running(_) => state == A.Consumed
    case Prompting(_) => state != A.Consumed
    case Resolving(_, _, _) => state != A.Consumed
    case _ =>
      match Settled(pc)
      case None => true
      case Some(route) =>
        if route.Ran? then state == A.Consumed
        else if route.Declined? then state == A.Denied
        else state != A.Consumed
  }

  function Via(s: State, a: ApprovalId): Option<Channel> {
    if a in s.resolutions then Some(s.resolutions[a].via) else None
  }

  ghost predicate CallOk(cfg: Config, s: State, c: CallId)
    requires c in s.procs
  {
    var Proc(call, pc, _) := s.procs[c];
    && Of(s.trace, c) == History(cfg, call.job, c, pc)
    && Fits(cfg, cfg.admit(call.job), pc)
    && LedgerOk(cfg, s, c)
    && ApprovalOk(s, c)
  }

  ghost predicate LedgerOk(cfg: Config, s: State, c: CallId)
    requires c in s.procs
  {
    var Proc(call, pc, _) := s.procs[c];
    if pc == Begin then
      c !in s.ledger && call == NewCall(call.job)
    else
      && c in s.ledger
      && s.ledger[c] == ExpectedRow(cfg.admit(call.job), call.job.tool).(success := SuccessAt(pc))
      && call.risk == s.ledger[c].risk
      && (pc.RefuseCall? ==> call.approvalId == None && call.approvalState == None)
      && (pc.EmitRequested? ==> call.approvalId == None && call.approvalState == None)
  }

  ghost predicate ApprovalOk(s: State, c: CallId)
    requires c in s.procs
  {
    match ApprovalOf(s.procs[c].pc)
    case None => true
    case Some(a) =>
      && a in s.rows
      && s.rows[a].callId == c
      && Standing(s.procs[c].pc, s.rows[a].state, Via(s, a))
  }

  ghost predicate RowOk(cfg: Config, s: State, a: ApprovalId)
    requires a in s.rows
  {
    var row := s.rows[a];
    && row.callId in s.procs
    && ApprovalOf(s.procs[row.callId].pc) == Some(a)
    && var job := s.procs[row.callId].call.job;
       && row.tool == job.tool
       && row.risk == JobRisk(cfg.admit(job))
       && row.expiresAt.Some?
       && (row.state == A.Pending ==> a !in s.resolutions)
       && (row.state in {A.Approved, A.Consumed} ==> a in s.resolutions && s.resolutions[a].approved)
       && (row.state == A.Denied ==> a in s.resolutions && !s.resolutions[a].approved)
       && (row.state == A.Expired && a in s.resolutions ==> s.resolutions[a].approved)
       && (row.state == A.Consumed ==> Via(s, a) == Some(Prompt))
       && (a in s.resolutions && s.resolutions[a].approved && row.risk == Destructive ==>
             s.resolutions[a].phrase == Some(A.CONFIRMATION_PHRASE))
  }

  ghost predicate WellJudged(cfg: Config) {
    forall job :: Coherent(cfg.admit(job))
  }

  ghost predicate Inv(cfg: Config, s: State) {
    && (forall c {:trigger CallOk(cfg, s, c)} :: c in s.procs ==> CallOk(cfg, s, c))
    && (forall a {:trigger RowOk(cfg, s, a)} :: a in s.rows ==> RowOk(cfg, s, a))
    && (forall c {:trigger Untouched(s, c)} :: c !in s.procs ==> Untouched(s, c))
    && s.resolutions.Keys <= s.rows.Keys
  }

  /** Nothing was written for `c`. */
  ghost predicate Untouched(s: State, c: CallId) {
    Of(s.trace, c) == [] && c !in s.ledger
  }

  // ---- a step of one call touches only what is its own

  ghost predicate Touches(s: State, t: State, c: CallId) {
    && c in t.procs
    && t.procs == s.procs[c := t.procs[c]]
    && (forall d :: d != c ==> Of(t.trace, d) == Of(s.trace, d))
    && (forall d :: d != c ==> (d in t.ledger <==> d in s.ledger) && (d in s.ledger ==> t.ledger[d] == s.ledger[d]))
    && (forall a :: a in s.rows ==> a in t.rows && (s.rows[a].callId != c ==> t.rows[a] == s.rows[a]))
    && (forall a :: a in t.rows && a !in s.rows ==> t.rows[a].callId == c && a !in t.resolutions)
    && (forall a :: a in s.rows && s.rows[a].callId != c ==>
          (a in t.resolutions <==> a in s.resolutions) && (a in s.resolutions ==> t.resolutions[a] == s.resolutions[a]))
    && t.resolutions.Keys <= t.rows.Keys
  }

  lemma EmitTouches(s: State, e: Event)
    ensures forall d :: d != e.c ==> Of(Emit(s, e).trace, d) == Of(s.trace, d)
    ensures Of(Emit(s, e).trace, e.c) == Of(s.trace, e.c) + [e]
  {
    forall d ensures Of(s.trace + [e], d) == if e.c == d then Of(s.trace, d) + [e] else Of(s.trace, d) {
      OfEmit(s.trace, e, d);
    }
  }

  /** What `c` did not touch still holds. */
  lemma OthersKeep(cfg: Config, s: State, t: State, c: CallId)
    requires Inv(cfg, s) && Touches(s, t, c)
    ensures forall d {:trigger CallOk(cfg, t, d)} :: d in t.procs && d != c ==> CallOk(cfg, t, d)
    ensures forall a {:trigger RowOk(cfg, t, a)} :: a in s.rows && s.rows[a].callId != c ==> RowOk(cfg, t, a)
    ensures forall d {:trigger Untouched(t, d)} :: d !in t.procs ==> Untouched(t, d)
  {
    forall d | d !in t.procs ensures Untouched(t, d) {
      assert Untouched(s, d);
    }
    forall d | d in t.procs && d != c ensures CallOk(cfg, t, d) {
      assert CallOk(cfg, s, d);
    }
    forall a | a in s.rows && s.rows[a].callId != c ensures RowOk(cfg, t, a) {
      assert RowOk(cfg, s, a);
    }
  }

  /** For a step that touches its own call, it is enough to look at that call
      and the rows opened for it. */
  lemma StepEnough(cfg: Config, s: State, t: State, c: CallId)
    requires Inv(cfg, s) && Touches(s, t, c)
    requires CallOk(cfg, t, c)
    requires forall a {:trigger RowOk(cfg, t, a)} :: a in t.rows && t.rows[a].callId == c ==> RowOk(cfg, t, a)
    requires forall a :: a in s.rows ==> t.rows[a].callId == s.rows[a].callId
    ensures Inv(cfg, t)
  {
    OthersKeep(cfg, s, t, c);
    forall a | a in t.rows ensures RowOk(cfg, t, a) {
      if t.rows[a].callId != c {
        assert a in s.rows;
      }
    }
  }

  /** A step that leaves the approvals alone and writes at most one event. */
  ghost predicate Quiet(s: State, t: State, c: CallId, written: seq<Event>) {
    && c in s.procs && c in t.procs
    && t.procs == s.procs[c := t.procs[c]]
    && t.procs[c].call.job == s.procs[c].call.job
    && ApprovalOf(t.procs[c].pc) == ApprovalOf(s.procs[c].pc)
    && t.rows == s.rows && t.resolutions == s.resolutions
    && |written| <= 1
    && (written != [] ==> written[0].c == c)
    && t.trace == s.trace + written
    && (t.ledger == s.ledger || (c in t.ledger && t.ledger == s.ledger[c := t.ledger[c]]))
  }

  lemma WrittenTouches(s: State, t: State, c: CallId, written: seq<Event>)
    requires |written| <= 1 && (written != [] ==> written[0].c == c) && t.trace == s.trace + written
    ensures forall d :: d != c ==> Of(t.trace, d) == Of(s.trace, d)
    ensures Of(t.trace, c) == Of(s.trace, c) + written
  {
    if written == [] {
      assert t.trace == s.trace;
    } else {
      assert written == [written[0]];
      EmitTouches(s, written[0]);
    }
  }

  lemma QuietKeeps(cfg: Config, s: State, t: State, c: CallId, written: seq<Event>)
    requires Inv(cfg, s) && Quiet(s, t, c, written)
    requires var job := s.procs[c].call.job;
             History(cfg, job, c, s.procs[c].pc) + written == History(cfg, job, c, t.procs[c].pc)
    requires Fits(cfg, cfg.admit(s.procs[c].call.job), t.procs[c].pc)
    requires LedgerOk(cfg, t, c)
    requires ApprovalOk(t, c)
    ensures Inv(cfg, t)
  {
    WrittenTouches(s, t, c, written);
    assert CallOk(cfg, s, c);
    forall a | a in t.rows && t.rows[a].callId == c ensures RowOk(cfg, t, a) {
      assert RowOk(cfg, s, a);
    }
    StepEnough(cfg, s, t, c);
  }

  // ---- preservation, one await at a time

  lemma FirstRowKeeps(cfg: Config, s: State, c: CallId, call: Call, pc: PC)
    requires Inv(cfg, s) && c in s.procs && s.procs[c].pc == Begin
    requires call.job == s.procs[c].call.job && call.approvalId == None && call.approvalState == None
    requires RowOf(call) == ExpectedRow(cfg.admit(call.job), call.job.tool)
    requires pc.EmitRequested? || pc == RecordResult(Refused(false)) || pc == RecordResult(BadArguments)
    requires Fits(cfg, cfg.admit(call.job), pc)
    ensures Inv(cfg, With(WriteCall(s, c, call), c, call, pc))
  {
    QuietKeeps(cfg, s, With(WriteCall(s, c, call), c, call, pc), c, [CallRow(c)]);
  }

  lemma BeginKeeps(cfg: Config, s: State, c: CallId)
    requires Inv(cfg, s) && c in s.procs && s.procs[c].pc == Begin
    ensures Inv(cfg, StepBegin(cfg, s, c, s.procs[c].call))
  {
    assert CallOk(cfg, s, c);
    var call := s.procs[c].call;
    match cfg.admit(call.job)
    case NotFound =>
      FirstRowKeeps(cfg, s, c, DeniedCall(call, UNKNOWN), RecordResult(Refused(false)));
    case Malformed(ceiling) =>
      FirstRowKeeps(cfg, s, c, call.(risk := ceiling), RecordResult(BadArguments));
    case Judged(risk, v) =>
      FirstRowKeeps(cfg, s, c, call.(risk := risk, decision := Some(v.decision), rule := Some(v.rule)), EmitRequested(v));
  }

  lemma RequestedKeeps(cfg: Config, s: State, c: CallId)
    requires Inv(cfg, s) && c in s.procs && s.procs[c].pc.EmitRequested?
    ensures Inv(cfg, StepRequested(s, c, s.procs[c].call, s.procs[c].pc.v))
  {
    assert CallOk(cfg, s, c);
    QuietKeeps(cfg, s, StepRequested(s, c, s.procs[c].call, s.procs[c].pc.v), c, [ToolRequested(c)]);
  }

  lemma RefuseKeeps(cfg: Config, s: State, c: CallId, choice: Choice)
    requires Inv(cfg, s) && c in s.procs && s.procs[c].pc.RefuseCall? && !s.procs[c].aborted
    requires Coherent(cfg.admit(s.procs[c].call.job))
    ensures Inv(cfg, StepCall(cfg, s, c, choice))
  {
    assert CallOk(cfg, s, c);
    QuietKeeps(cfg, s, StepCall(cfg, s, c, choice), c, [CallRow(c)]);
  }

  lemma ApprovedKeeps(cfg: Config, s: State, c: CallId, choice: Choice)
    requires Inv(cfg, s) && c in s.procs && !s.procs[c].aborted && s.procs[c].pc.EmitApproved?
    ensures Inv(cfg, StepCall(cfg, s, c, choice))
  {
    assert CallOk(cfg, s, c);
    QuietKeeps(cfg, s, StepCall(cfg, s, c, choice), c, [ToolApproved(c, s.procs[c].pc.a)]);
  }

  lemma StartKeeps(cfg: Config, s: State, c: CallId, choice: Choice)
    requires Inv(cfg, s) && c in s.procs && !s.procs[c].aborted && s.procs[c].pc.EmitStarted?
    ensures Inv(cfg, StepCall(cfg, s, c, choice))
  {
    assert CallOk(cfg, s, c);
    QuietKeeps(cfg, s, StepCall(cfg, s, c, choice), c,
               [ToolStarted(c, s.procs[c].call.job.tool, s.procs[c].call.risk)]);
  }

  lemma RunningKeeps(cfg: Config, s: State, c: CallId, choice: Choice)
    requires Inv(cfg, s) && c in s.procs && !s.procs[c].aborted && s.procs[c].pc.Running?
    ensures Inv(cfg, StepCall(cfg, s, c, choice))
  {
    assert CallOk(cfg, s, c);
    if choice.ToolReturns? {
      QuietKeeps(cfg, s, StepCall(cfg, s, c, choice), c, []);
    }
  }

  lemma RecordKeeps(cfg: Config, s: State, c: CallId, choice: Choice)
    requires Inv(cfg, s) && c in s.procs && !s.procs[c].aborted && s.procs[c].pc.RecordResult?
    ensures Inv(cfg, StepCall(cfg, s, c, choice))
  {
    assert CallOk(cfg, s, c);
    QuietKeeps(cfg, s, StepCall(cfg, s, c, choice), c, [ResultRow(c, Succeeded(s.procs[c].pc.route))]);
  }

  lemma AnnounceKeeps(cfg: Config, s: State, c: CallId, choice: Choice)
    requires Inv(cfg, s) && c in s.procs && !s.procs[c].aborted && s.procs[c].pc.Announce?
    ensures Inv(cfg, StepCall(cfg, s, c, choice))
  {
    assert CallOk(cfg, s, c);
    QuietKeeps(cfg, s, StepCall(cfg, s, c, choice), c, [Announcement(c, s.procs[c].pc.route)]);
  }

  lemma DeclineKeeps(cfg: Config, s: State, c: CallId, choice: Choice)
    requires Inv(cfg, s) && c in s.procs && !s.procs[c].aborted && s.procs[c].pc.AnnounceDecline?
    ensures Inv(cfg, StepCall(cfg, s, c, choice))
  {
    assert CallOk(cfg, s, c);
    QuietKeeps(cfg, s, StepCall(cfg, s, c, choice), c, [OperatorDeclined(c)]);
  }

  lemma OpenKeeps(cfg: Config, s: State, c: CallId, a: ApprovalId)
    requires Inv(cfg, s) && c in s.procs && s.procs[c].pc == OpenApproval && a !in s.rows
    ensures Inv(cfg, StepOpen(cfg, s, c, s.procs[c].call, a))
  {
    assert CallOk(cfg, s, c);
    var t := StepOpen(cfg, s, c, s.procs[c].call, a);
    WrittenTouches(s, t, c, [ApprovalOpened(c, a)]);
    forall b | b in s.rows ensures s.rows[b].callId != c {
      assert RowOk(cfg, s, b);
    }
    assert Touches(s, t, c);
    OpenedIsOk(cfg, s, c, a);
    StepEnough(cfg, s, t, c);
  }

  lemma OpenedIsOk(cfg: Config, s: State, c: CallId, a: ApprovalId)
    requires c in s.procs && s.procs[c].pc == OpenApproval && a !in s.rows && CallOk(cfg, s, c)
    requires var t := StepOpen(cfg, s, c, s.procs[c].call, a);
             Of(t.trace, c) == Of(s.trace, c) + [ApprovalOpened(c, a)]
    requires a !in s.resolutions
    ensures var t := StepOpen(cfg, s, c, s.procs[c].call, a);
            RowOk(cfg, t, a) && CallOk(cfg, t, c)
  {
  }

  /** A reply is held while the manager is asked. */
  lemma ReplyKeeps(cfg: Config, s: State, c: CallId, choice: Choice)
    requires Inv(cfg, s) && c in s.procs && s.procs[c].pc.Prompting? && !s.procs[c].aborted
    ensures Inv(cfg, StepCall(cfg, s, c, choice))
  {
    assert CallOk(cfg, s, c);
    if choice.Reply? {
      QuietKeeps(cfg, s, StepCall(cfg, s, c, choice), c, []);
    }
  }

  /** A silent step that may also move the call's own row. */
  lemma GateKeeps(cfg: Config, s: State, t: State, c: CallId, a: ApprovalId)
    requires Inv(cfg, s) && c in s.procs && ApprovalOf(s.procs[c].pc) == Some(a) && a in s.rows
    requires c in t.procs && t.procs == s.procs[c := t.procs[c]]
    requires t.procs[c].call.job == s.procs[c].call.job && t.procs[c].call.risk == s.procs[c].call.risk
    requires ApprovalOf(t.procs[c].pc) == Some(a)
    requires t.trace == s.trace && t.ledger == s.ledger
    requires a in t.rows && t.rows == s.rows[a := t.rows[a]] && t.rows[a].callId == s.rows[a].callId
    requires forall b :: b != a ==>
               (b in t.resolutions <==> b in s.resolutions) && (b in s.resolutions ==> t.resolutions[b] == s.resolutions[b])
    requires RowOk(cfg, t, a)
    requires var job := s.procs[c].call.job;
             History(cfg, job, c, s.procs[c].pc) == History(cfg, job, c, t.procs[c].pc)
    requires s.procs[c].pc != Begin && !s.procs[c].pc.EmitRequested? && !t.procs[c].pc.EmitRequested?
    requires t.procs[c].pc != Begin && !t.procs[c].pc.RefuseCall?
    requires SuccessAt(s.procs[c].pc) == SuccessAt(t.procs[c].pc)
    requires Fits(cfg, cfg.admit(s.procs[c].call.job), t.procs[c].pc)
    requires ApprovalOk(t, c)
    ensures Inv(cfg, t)
  {
    assert CallOk(cfg, s, c) && RowOk(cfg, s, a);
    forall b | b in s.rows && b != a ensures s.rows[b].callId != c {
      assert RowOk(cfg, s, b);
    }
    assert CallOk(cfg, t, c) by {
      assert LedgerOk(cfg, t, c);
    }
    assert Touches(s, t, c);
    StepEnough(cfg, s, t, c);
  }

  lemma ResolveKeeps(cfg: Config, s: State, c: CallId, storeFails: bool)
    requires Inv(cfg, s) && c in s.procs && s.procs[c].pc.Resolving?
    ensures var pc := s.procs[c].pc;
            Inv(cfg, StepResolve(s, c, s.procs[c].call, A.Answer(pc.a, pc.approved, pc.phrase), storeFails))
  {
    var Proc(call, Resolving(a, approved, phrase), _) := s.procs[c];
    assert CallOk(cfg, s, c) && RowOk(cfg, s, a);
    var answer := A.Answer(a, approved, phrase);
    var t := StepResolve(s, c, call, answer, storeFails);
    if storeFails {
      assert t.trace == s.trace + [];
      QuietKeeps(cfg, s, t, c, []);
    } else {
      AnsweredKeeps(cfg, s, c, answer, t.procs[c]);
    }
  }

  /** The manager's answer, and any continuation that suits the row's new state. */
  lemma AnsweredKeeps(cfg: Config, s: State, c: CallId, answer: A.Answer, p: Proc)
    requires Inv(cfg, s) && c in s.procs && s.procs[c].pc.Resolving? && s.procs[c].pc.a == answer.requestId
    requires p.call.job == s.procs[c].call.job && p.call.risk == s.procs[c].call.risk
    requires var a, rows := answer.requestId, A.AfterResolve(s.rows, answer, s.now);
             a in rows &&
             if !A.Resolvable(s.rows, answer, s.now) then p.pc == RecordResult(Unresolved(a))
             else if answer.approved then p.pc == Consuming(a) else p.pc == RecordResult(Declined(a))
    ensures Inv(cfg, Resolve(s, answer, Prompt).(procs := s.procs[c := p]))
  {
    var a, t := answer.requestId, Resolve(s, answer, Prompt).(procs := s.procs[c := p]);
    assert CallOk(cfg, s, c) && RowOk(cfg, s, a);
    assert t.rows == s.rows[a := t.rows[a]];
    assert RowOk(cfg, t, a);
    GateKeeps(cfg, s, t, c, a);
  }

  lemma ConsumeKeeps(cfg: Config, s: State, c: CallId, storeFails: bool)
    requires Inv(cfg, s) && c in s.procs && s.procs[c].pc.Consuming?
    ensures Inv(cfg, StepConsume(s, c, s.procs[c].call, s.procs[c].pc.a, storeFails))
  {
    var Proc(call, Consuming(a), _) := s.procs[c];
    assert CallOk(cfg, s, c) && RowOk(cfg, s, a);
    var t := StepConsume(s, c, call, a, storeFails);
    if storeFails {
      assert t.trace == s.trace + [];
      QuietKeeps(cfg, s, t, c, []);
    } else {
      SpentKeeps(cfg, s, c, a, t.procs[c]);
    }
  }

  lemma SpentKeeps(cfg: Config, s: State, c: CallId, a: ApprovalId, p: Proc)
    requires Inv(cfg, s) && c in s.procs && s.procs[c].pc == Consuming(a) && a in s.rows
    requires p.call.job == s.procs[c].call.job && p.call.risk == s.procs[c].call.risk
    requires if A.Spendable(s.rows, a, s.now) then p.pc == EmitApproved(a) else p.pc == RecordResult(Unspent(a))
    ensures Inv(cfg, s.(rows := A.AfterConsume(s.rows, a, s.now), procs := s.procs[c := p]))
  {
    var t := s.(rows := A.AfterConsume(s.rows, a, s.now), procs := s.procs[c := p]);
    assert CallOk(cfg, s, c) && RowOk(cfg, s, a);
    assert t.rows == s.rows[a := t.rows[a]];
    assert RowOk(cfg, t, a);
    GateKeeps(cfg, s, t, c, a);
  }

  lemma StepKeeps(cfg: Config, s: State, c: CallId, choice: Choice)
    requires Inv(cfg, s) && c in s.procs && Coherent(cfg.admit(s.procs[c].call.job))
    ensures Inv(cfg, StepCall(cfg, s, c, choice))
  {
    if s.procs[c].aborted { return; }
    match s.procs[c].pc
    case Begin => BeginKeeps(cfg, s, c);
    case EmitRequested(_) => RequestedKeeps(cfg, s, c);
    case RefuseCall(_) => RefuseKeeps(cfg, s, c, choice);
    case OpenApproval =>
      if choice.FreshApproval? && choice.a !in s.rows { OpenKeeps(cfg, s, c, choice.a); }
    case Prompting(_) => ReplyKeeps(cfg, s, c, choice);
    case Resolving(_, _, _) => ResolveKeeps(cfg, s, c, choice.StoreFails?);
    case Consuming(_) => ConsumeKeeps(cfg, s, c, choice.StoreFails?);
    case EmitApproved(_) => ApprovedKeeps(cfg, s, c, choice);
    case EmitStarted(_) => StartKeeps(cfg, s, c, choice);
    case Running(_) => RunningKeeps(cfg, s, c, choice);
    case RecordResult(_) => RecordKeeps(cfg, s, c, choice);
    case Announce(_) => AnnounceKeeps(cfg, s, c, choice);
    case AnnounceDecline(_) => DeclineKeeps(cfg, s, c, choice);
    case Done(_) =>
  }

  // ---- the rest of the world

  lemma SubmitKeeps(cfg: Config, s: State, c: CallId, job: Job)
    requires Inv(cfg, s) && c !in s.procs
    ensures Inv(cfg, With(s, c, NewCall(job), Begin))
  {
    var t := With(s, c, NewCall(job), Begin);
    assert Untouched(s, c);
    forall d | d in t.procs ensures CallOk(cfg, t, d) {
      if d != c { assert CallOk(cfg, s, d); }
    }
    forall a | a in t.rows ensures RowOk(cfg, t, a) {
      assert RowOk(cfg, s, a);
    }
    forall d | d !in t.procs ensures Untouched(t, d) {
      assert Untouched(s, d);
    }
  }

  lemma AbortKeeps(cfg: Config, s: State, c: CallId)
    requires Inv(cfg, s) && c in s.procs && !Finished(s.procs[c])
    ensures Inv(cfg, Apply(cfg, s, Abort(c)))
  {
    assert CallOk(cfg, s, c);
    var t := Apply(cfg, s, Abort(c));
    assert t.trace == s.trace + [];
    QuietKeeps(cfg, s, t, c, []);
  }

  /** An answer or a timeout from outside moves at most one row, a pending one,
      and no call past its prompt stands on a pending row. */
  lemma OutsideKeeps(cfg: Config, s: State, t: State, a: ApprovalId)
    requires Inv(cfg, s) && a in s.rows && s.rows[a].state == A.Pending
    requires t == s.(rows := t.rows, resolutions := t.resolutions)
    requires a in t.rows && t.rows == s.rows[a := s.rows[a].(state := t.rows[a].state)]
    requires t.rows[a].state in {A.Approved, A.Denied, A.Expired}
    requires forall b :: b != a ==>
               (b in t.resolutions <==> b in s.resolutions) && (b in s.resolutions ==> t.resolutions[b] == s.resolutions[b])
    requires RowOk(cfg, s, a) ==> RowOk(cfg, t, a)
    ensures Inv(cfg, t)
  {
    forall b | b in t.rows ensures RowOk(cfg, t, b) {
      assert RowOk(cfg, s, b);
    }
    forall c | c !in t.procs ensures Untouched(t, c) {
      assert Untouched(s, c);
    }
    forall c | c in t.procs ensures CallOk(cfg, t, c) {
      assert CallOk(cfg, s, c);
      if ApprovalOf(s.procs[c].pc) == Some(a) {
        StandingOnPending(s.procs[c].pc, t.rows[a].state, Via(t, a));
      }
    }
  }

  /** Only a call still at its prompt, or one that gave up on it, can stand on a
      pending row, and it does not mind which way the row moves. */
  lemma StandingOnPending(pc: PC, state: A.ApprovalState, via: Option<Channel>)
    requires ApprovalOf(pc).Some? && Standing(pc, A.Pending, None)
    requires state != A.Consumed
    ensures Standing(pc, state, via)
  {
  }

  lemma AnswerKeeps(cfg: Config, s: State, answer: A.Answer)
    requires Inv(cfg, s)
    ensures Inv(cfg, Resolve(s, answer, OutOfBand))
  {
    var t, a := Resolve(s, answer, OutOfBand), answer.requestId;
    if a in s.rows && s.rows[a].state == A.Pending && t.rows[a].state != A.Pending {
      OutsideKeeps(cfg, s, t, a);
    } else {
      assert t == s;
    }
  }

  lemma TimeoutKeeps(cfg: Config, s: State, a: ApprovalId)
    requires Inv(cfg, s)
    ensures Inv(cfg, s.(rows := A.AfterExpire(s.rows, a)))
  {
    var t := s.(rows := A.AfterExpire(s.rows, a));
    if a in s.rows && s.rows[a].state == A.Pending {
      OutsideKeeps(cfg, s, t, a);
    }
  }

  lemma ApplyKeeps(cfg: Config, s: State, action: Action)
    requires Inv(cfg, s) && WellJudged(cfg)
    ensures Inv(cfg, Apply(cfg, s, action))
  {
    match action
    case Submit(c, job) => if c !in s.procs { SubmitKeeps(cfg, s, c, job); }
    case Step(c, choice) => if c in s.procs { StepKeeps(cfg, s, c, choice); }
    case Abort(c) => if c in s.procs && !Finished(s.procs[c]) { AbortKeeps(cfg, s, c); }
    case Answer(answer) => AnswerKeeps(cfg, s, answer);
    case Timeout(a) => TimeoutKeeps(cfg, s, a);
    case Tick(dt) =>
      var t := Apply(cfg, s, action);
      forall c | c in t.procs ensures CallOk(cfg, t, c) { assert CallOk(cfg, s, c); }
      forall a | a in t.rows ensures RowOk(cfg, t, a) { assert RowOk(cfg, s, a); }
      forall c | c !in t.procs ensures Untouched(t, c) { assert Untouched(s, c); }
  }

  /** The invariant holds after every schedule. */
  lemma {:induction false} RunKeeps(cfg: Config, actions: seq<Action>)
    requires WellJudged(cfg)
    ensures Inv(cfg, Run(cfg, actions))
  {
    if actions != [] {
      RunKeeps(cfg, actions[..|actions| - 1]);
      ApplyKeeps(cfg, Run(cfg, actions[..|actions| - 1]), actions[|actions| - 1]);
    }
  }
}
