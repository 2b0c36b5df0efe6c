/** The gated execution protocol as a transition system: any number of `execute`
    calls, each with a program counter, interleaved at their awaits with
    out-of-band answers, waiter timeouts and a monotone clock
    (tools/executor.py, security/approvals.py, security/audit.py). */
module Protocol {
  import opened Common
  import opened Registry
  import opened Risk
  import Policy
  import A = Approvals

  type CallId = A.CallId
  type ApprovalId = A.ApprovalId

  /** `admit` is the synchronous head of `execute`: resolve, validate, classify
      and judge. `prompt` says whether an interactive approver is attached. */
  datatype Config = Config(admit: Job -> Admission, ttl: nat, prompt: bool)

  /** The mutable fields of a ToolCall. */
  datatype Call = Call(
    job: Job, risk: RiskLevel, decision: Option<Policy.Decision>, rule: Option<Policy.Rule>,
    approvalId: Option<ApprovalId>, approvalState: Option<A.ApprovalState>)

  function NewCall(job: Job): Call {
    Call(job, job.declaredRisk, None, None, None, None)
  }

  /** How a call came to its end. */
  datatype Route =
    | Refused(asked: bool)
    | BadArguments
    | Unanswered(a: ApprovalId)
    | Unresolved(a: ApprovalId)
    | Declined(a: ApprovalId)
    | Unspent(a: ApprovalId)
    | Ran(gate: Option<ApprovalId>, ok: bool)

  /** Where a call is waiting; every constructor but the last is an await. */
  datatype PC =
    | Begin
    | EmitRequested(v: Policy.Verdict)
    | RefuseCall(v: Policy.Verdict)
    | OpenApproval
    | Prompting(a: ApprovalId)
    | Resolving(a: ApprovalId, approved: bool, phrase: Option<string>)
    | Consuming(a: ApprovalId)
    | EmitApproved(a: ApprovalId)
    | EmitStarted(gate: Option<ApprovalId>)
    | Running(gate: Option<ApprovalId>)
    | RecordResult(route: Route)
    | Announce(route: Route)
    | AnnounceDecline(a: ApprovalId)
    | Done(route: Route)

  /** A call in flight; `aborted` when an exception or a cancellation left it
      where it stood. */
  datatype Proc = Proc(call: Call, pc: PC, aborted: bool)

  /** One row of the tool-call ledger. */
  datatype LedgerRow = LedgerRow(
    tool: string, risk: RiskLevel, decision: Option<Policy.Decision>, rule: Option<Policy.Rule>,
    approvalId: Option<ApprovalId>, approvalState: Option<A.ApprovalState>, success: Option<bool>)

  function RowOf(call: Call): LedgerRow {
    LedgerRow(call.job.tool, call.risk, call.decision, call.rule, call.approvalId, call.approvalState, None)
  }

  /** What `execute` writes and publishes, in order. */
  datatype Event =
    | CallRow(c: CallId)
    | ResultRow(c: CallId, success: bool)
    | ToolRequested(c: CallId)
    | ApprovalOpened(c: CallId, a: ApprovalId)
    | ToolApproved(c: CallId, a: ApprovalId)
    | ToolStarted(c: CallId, tool: string, risk: RiskLevel)
    | ToolCompleted(c: CallId)
    | ToolFailed(c: CallId)
    | PolicyDenied(c: CallId)
    | OperatorDeclined(c: CallId)

  datatype Channel = Prompt | OutOfBand

  /** An accepted answer. */
  datatype Resolution = Resolution(approved: bool, phrase: Option<string>, via: Channel, at: A.Time)

  datatype State = State(
    now: A.Time, rows: A.Table, resolutions: map<ApprovalId, Resolution>,
    ledger: map<CallId, LedgerRow>, trace: seq<Event>, procs: map<CallId, Proc>)

  /** What the world supplies to one step of a call. */
  datatype Choice =
    | Go
    | FreshApproval(a: ApprovalId)
    | Reply(approved: bool, phrase: Option<string>)
    | ToolReturns(ok: bool)
    | StoreFails

  datatype Action =
    | Submit(c: CallId, job: Job)
    | Step(c: CallId, choice: Choice)
    | Abort(c: CallId)
    | Answer(answer: A.Answer)
    | Timeout(a: ApprovalId)
    | Tick(dt: nat)

  /** The calls submitted under a task. */
  function CallsUnder(procs: map<CallId, Proc>, task: TaskId): set<CallId> {
    set c <- procs | procs[c].call.job.task == task
  }

  /** A call that moves on stays under its task. */
  lemma MovingKeepsTasks(procs: map<CallId, Proc>, c: CallId, p: Proc)
    requires c in procs && procs[c].call.job.task == p.call.job.task
    ensures forall task :: CallsUnder(procs[c := p], task) == CallsUnder(procs, task)
  {
  }

  // ---- one await of one call

  function DeniedCall(call: Call, v: Policy.Verdict): Call {
    call.(decision := Some(Policy.Deny), rule := Some(v.rule), risk := v.risk)
  }

  function With(s: State, c: CallId, call: Call, pc: PC): State {
    s.(procs := s.procs[c := Proc(call, pc, false)])
  }

  function Emit(s: State, e: Event): State {
    s.(trace := s.trace + [e])
  }

  /** INSERT OR REPLACE. */
  function WriteCall(s: State, c: CallId, call: Call): State {
    Emit(s.(ledger := s.ledger[c := RowOf(call)]), CallRow(c))
  }

  /** UPDATE ... WHERE id: nothing happens without a row. */
  function WriteResult(s: State, c: CallId, success: bool): State {
    Emit(if c in s.ledger then s.(ledger := s.ledger[c := s.ledger[c].(success := Some(success))]) else s,
         ResultRow(c, success))
  }

  function Resolve(s: State, answer: A.Answer, via: Channel): State {
    s.(rows := A.AfterResolve(s.rows, answer, s.now),
       resolutions := if A.Resolvable(s.rows, answer, s.now)
                      then s.resolutions[answer.requestId := Resolution(answer.approved, answer.phrase, via, s.now)]
                      else s.resolutions)
  }

  predicate Succeeded(route: Route) {
    route.Ran? && route.ok
  }

  function Announcement(c: CallId, route: Route): Event {
    if route.Refused? then PolicyDenied(c)
    else if Succeeded(route) then ToolCompleted(c)
    else ToolFailed(c)
  }

  function StepBegin(cfg: Config, s: State, c: CallId, call: Call): State {
    match cfg.admit(call.job)
    case NotFound =>
      var refused := DeniedCall(call, UNKNOWN);
      With(WriteCall(s, c, refused), c, refused, RecordResult(Refused(false)))
    case Malformed(ceiling) =>
      var failed := call.(risk := ceiling);
      With(WriteCall(s, c, failed), c, failed, RecordResult(BadArguments))
    case Judged(risk, v) =>
      var judged := call.(risk := risk, decision := Some(v.decision), rule := Some(v.rule));
      With(WriteCall(s, c, judged), c, judged, EmitRequested(v))
  }

  function StepRequested(s: State, c: CallId, call: Call, v: Policy.Verdict): State {
    With(Emit(s, ToolRequested(c)), c, call,
         match v.decision
         case Deny => RefuseCall(v)
         case RequireApproval => OpenApproval
         case Allow => EmitStarted(None))
  }

  function StepOpen(cfg: Config, s: State, c: CallId, call: Call, a: ApprovalId): State
    requires a !in s.rows
  {
    var row := A.NewRow(c, call.job.tool, call.risk, s.now, cfg.ttl);
    With(Emit(s.(rows := s.rows[a := row]), ApprovalOpened(c, a)), c,
         call.(approvalId := Some(a), approvalState := Some(A.Pending)),
         if cfg.prompt then Prompting(a) else RecordResult(Unanswered(a)))
  }

  function StepResolve(s: State, c: CallId, call: Call, answer: A.Answer, storeFails: bool): State {
    if storeFails || !A.Resolvable(s.rows, answer, s.now) then
      With(if storeFails then s else Resolve(s, answer, Prompt), c,
           call.(approvalState := Some(A.Expired)), RecordResult(Unresolved(answer.requestId)))
    else if !answer.approved then
      With(Resolve(s, answer, Prompt), c, call.(approvalState := Some(A.Denied)), RecordResult(Declined(answer.requestId)))
    else
      With(Resolve(s, answer, Prompt), c, call, Consuming(answer.requestId))
  }

  function StepConsume(s: State, c: CallId, call: Call, a: ApprovalId, storeFails: bool): State {
    if storeFails then
      With(s, c, call, RecordResult(Unspent(a)))
    else if !A.Spendable(s.rows, a, s.now) then
      With(s.(rows := A.AfterConsume(s.rows, a, s.now)), c, call, RecordResult(Unspent(a)))
    else
      With(s.(rows := A.AfterConsume(s.rows, a, s.now)), c, call.(approvalState := Some(A.Consumed)), EmitApproved(a))
  }

  /** One step of call `c`; a choice that does not fit leaves the call waiting. */
  function StepCall(cfg: Config, s: State, c: CallId, choice: Choice): State
    requires c in s.procs
  {
    var Proc(call, pc, aborted) := s.procs[c];
    if aborted then s else
    match pc
    case Begin => StepBegin(cfg, s, c, call)
    case EmitRequested(v) => StepRequested(s, c, call, v)
    case RefuseCall(v) =>
      var refused := DeniedCall(call, v);
      With(WriteCall(s, c, refused), c, refused, RecordResult(Refused(true)))
    case OpenApproval =>
      if choice.FreshApproval? && choice.a !in s.rows then StepOpen(cfg, s, c, call, choice.a) else s
    case Prompting(a) =>
      if choice.Reply? then With(s, c, call, Resolving(a, choice.approved, choice.phrase)) else s
    case Resolving(a, approved, phrase) =>
      StepResolve(s, c, call, A.Answer(a, approved, phrase), choice.StoreFails?)
    case Consuming(a) => StepConsume(s, c, call, a, choice.StoreFails?)
    case EmitApproved(a) => With(Emit(s, ToolApproved(c, a)), c, call, EmitStarted(Some(a)))
    case EmitStarted(gate) => With(Emit(s, ToolStarted(c, call.job.tool, call.risk)), c, call, Running(gate))
    case Running(gate) =>
      if choice.ToolReturns? then With(s, c, call, RecordResult(Ran(gate, choice.ok))) else s
    case RecordResult(route) => With(WriteResult(s, c, Succeeded(route)), c, call, Announce(route))
    case Announce(route) =>
      With(Emit(s, Announcement(c, route)), c, call,
           if route.Declined? then AnnounceDecline(route.a) else Done(route))
    case AnnounceDecline(a) => With(Emit(s, OperatorDeclined(c)), c, call, Done(Declined(a)))
    case Done(_) => s
  }

  predicate Finished(p: Proc) {
    p.pc.Done? || p.aborted
  }

  /** Submit needs a fresh id and Abort a live call; otherwise nothing happens. */
  function Apply(cfg: Config, s: State, action: Action): State {
    match action
    case Submit(c, job) => if c in s.procs then s else With(s, c, NewCall(job), Begin)
    case Step(c, choice) => if c in s.procs then StepCall(cfg, s, c, choice) else s
    case Abort(c) =>
      if c in s.procs && !Finished(s.procs[c]) then s.(procs := s.procs[c := s.procs[c].(aborted := true)]) else s
    case Answer(answer) => Resolve(s, answer, OutOfBand)
    case Timeout(a) => s.(rows := A.AfterExpire(s.rows, a))
    case Tick(dt) => s.(now := s.now + dt)
  }

  const INITIAL := State(0, map[], map[], map[], [], map[])

  /** The state after a schedule, from an empty table and ledger. */
  function Run(cfg: Config, actions: seq<Action>): State {
    if actions == [] then INITIAL
    else Apply(cfg, Run(cfg, actions[..|actions| - 1]), actions[|actions| - 1])
  }
}
