/** The executor as it is written: one method per call, straight down, changing
    the call, the ledger, the approvals table and the event stream as it goes
    (tools/executor.py, security/audit.py). Every change it makes is shown to be
    a step of the transition system, so every theorem about runs is a theorem
    about any number of these methods in flight. */
module Executor {
  import opened Common
  import opened Risk
  import opened Registry
  import opened Protocol
  import opened ProtocolInvariant
  import opened ProtocolTheorems
  import Policy
  import A = Approvals

  /** The tool-call ledger. */
  class AuditLog {
    var ledger: map<CallId, LedgerRow>

    constructor ()
      ensures ledger == map[]
    {
      ledger := map[];
    }

    method RecordCall(c: CallId, call: Call)
      modifies this
      ensures ledger == old(ledger)[c := RowOf(call)]
    {
      ledger := ledger[c := RowOf(call)];
    }

    method RecordResult(c: CallId, success: bool)
      modifies this
      ensures ledger == if c in old(ledger) then old(ledger)[c := old(ledger)[c].(success := Some(success))]
                        else old(ledger)
    {
      if c in ledger {
        ledger := ledger[c := ledger[c].(success := Some(success))];
      }
    }
  }

  /** The verdict of the outcome is a denial: by policy, or for its arguments. */
  predicate Denies(route: Route) {
    route.Refused? || route.BadArguments?
  }

  /** What `execute` returns. */
  datatype Outcome = Outcome(call: Call, success: bool, denied: bool, route: Route)

  /** An exception other than an expected refusal, or a cancellation. */
  datatype Torn = Torn

  class ToolExecutor {
    const settings: Settings
    const prompt: bool
    const approvals: A.ApprovalManager
    const audit: AuditLog
    var now: A.Time
    var used: set<CallId>

    // Histories: what was published and written, which answers were accepted,
    // where each call stands, and the schedule so far; and the calls handed to
    // `Execute` in one line of control, where others hand over theirs in their own.
    ghost var trace: seq<Event>
    ghost var resolutions: map<ApprovalId, Resolution>
    ghost var procs: map<CallId, Proc>
    ghost var actions: seq<Action>
    ghost var handed: seq<CallId>

    ghost function Cfg(): Config {
      Gate(settings, approvals.ttl, prompt)
    }

    ghost function View(): State
      reads this, approvals, audit
    {
      State(now, approvals.rows, resolutions, audit.ledger, trace, procs)
    }

    /** The state is the one the schedule leads to. */
    ghost predicate Valid()
      reads this, approvals, audit
    {
      View() == Run(Cfg(), actions) && procs.Keys <= used
    }

    /** Call `c` stands at `pc`. */
    ghost predicate At(c: CallId, call: Call, pc: PC)
      reads this
    {
      c in procs && procs[c] == Proc(call, pc, false)
    }

    /** The calls of a task. */
    ghost function Under(task: TaskId): set<CallId>
      reads this`procs
    {
      CallsUnder(procs, task)
    }

    /** The schedule went on, no call was submitted under this task, and none was
        handed over here. */
    twostate predicate Onward(task: TaskId)
      reads this`actions, this`procs, this`handed
    {
      old(actions) <= actions && Under(task) == old(Under(task)) && handed == old(handed)
    }

    constructor (settings: Settings, ttl: nat, prompt: bool)
      ensures Valid() && actions == [] && fresh(approvals) && fresh(audit)
      ensures this.settings == settings && this.prompt == prompt && approvals.ttl == ttl
    {
      this.settings, this.prompt := settings, prompt;
      approvals := new A.ApprovalManager(ttl);
      audit := new AuditLog();
      now, used := 0, {};
      trace, resolutions, procs, actions, handed := [], map[], map[], [], [];
    }

    /** What is in the fields now is one action further than the schedule. */
    ghost method Commit(action: Action)
      requires View() == Apply(Cfg(), Run(Cfg(), actions), action) && procs.Keys <= used
      modifies this`actions
      ensures Valid() && actions == old(actions) + [action]
    {
      assert (actions + [action])[..|actions|] == actions;
      actions := actions + [action];
    }

    /** Someone outside every call acts: time passes, an answer comes in out of
        band, or a waiter gives up. */
    method OutsideStep()
      requires Valid()
      modifies this`now, this`resolutions, this`actions, approvals
      ensures Valid() && old(actions) <= actions
    {
      var who: nat := *;
      if who == 0 {
        var dt: nat := *;
        now := now + dt;
        Commit(Tick(dt));
      } else if who == 1 {
        var approved: bool := *;
        var a: ApprovalId := *;
        var phrase: Option<string> := *;
        var answer := A.Answer(a, approved, phrase);
        var resolved := approvals.Resolve(answer, now);
        if resolved.Ok? {
          resolutions := resolutions[a := Resolution(approved, phrase, OutOfBand, now)];
        }
        Commit(Answer(answer));
      } else {
        var a: ApprovalId := *;
        approvals.Expire(a);
        Commit(Timeout(a));
      }
    }

    /** Yield to everyone else. Any number of outside steps happen here; the steps
        of other calls are theirs to take, and the contract leaves room for them and
        for calls of other tasks, but nobody else submits under the task of this one. */
    method Await(ghost c: CallId)
      requires Valid() && c in procs
      modifies this, approvals, audit
      ensures Valid() && c in procs && procs[c] == old(procs[c])
      ensures Onward(old(procs[c].call.job.task))
    {
      var steps: int := *;
      for i := 0 to if steps > 0 then steps else 0
        invariant Valid() && c in procs && procs[c] == old(procs[c])
        invariant Onward(old(procs[c].call.job.task))
      {
        OutsideStep();
      }
    }

    /** The call is torn down where it stands, or not. */
    method MayTear(c: CallId, ghost call: Call, ghost pc: PC) returns (torn: bool)
      requires Valid() && At(c, call, pc) && !pc.Done?
      modifies this`procs, this`actions
      ensures Valid() && Onward(call.job.task)
      ensures !torn ==> procs == old(procs) && actions == old(actions)
      ensures torn ==> c in procs && procs[c] == Proc(call, pc, true)
    {
      hide Run, CallsUnder;
      torn := *;
      if torn {
        MovingKeepsTasks(procs, c, procs[c].(aborted := true));
        procs := procs[c := procs[c].(aborted := true)];
        Commit(Abort(c));
      }
    }

    // ---- one await each

    method Publish(c: CallId, call: Call, ghost from: PC, ghost e: Event, ghost next: PC)
      requires Valid() && At(c, call, from)
      requires StepCall(Cfg(), View(), c, Go) == With(Emit(View(), e), c, call, next)
      modifies this, approvals, audit
      ensures Valid() && At(c, call, next) && Onward(call.job.task)
    {
      hide Run, CallsUnder;
      trace := trace + [e];
      MovingKeepsTasks(procs, c, Proc(call, next, false));
      procs := procs[c := Proc(call, next, false)];
      Commit(Step(c, Go));
      Await(c);
    }

    method RecordCall(c: CallId, ghost before: Call, call: Call, ghost from: PC, ghost next: PC) returns (torn: bool)
      requires Valid() && At(c, before, from) && !from.Done? && call.job == before.job
      requires StepCall(Cfg(), View(), c, Go) == With(WriteCall(View(), c, call), c, call, next)
      modifies this, approvals, audit
      ensures Valid() && Onward(call.job.task)
      ensures if torn then c in procs && procs[c].aborted else At(c, call, next)
    {
      hide Run, CallsUnder;
      torn := MayTear(c, before, from);
      if !torn {
        audit.RecordCall(c, call);
        trace := trace + [CallRow(c)];
        MovingKeepsTasks(procs, c, Proc(call, next, false));
        procs := procs[c := Proc(call, next, false)];
        Commit(Step(c, Go));
        Await(c);
      }
    }

    method RecordOutcome(c: CallId, call: Call, route: Route) returns (torn: bool)
      requires Valid() && At(c, call, RecordResult(route))
      modifies this, approvals, audit
      ensures Valid() && Onward(call.job.task)
      ensures c in procs && procs[c].call == call
      ensures if torn then procs[c].aborted else At(c, call, Announce(route))
    {
      hide Run, CallsUnder;
      torn := MayTear(c, call, RecordResult(route));
      if !torn {
        audit.RecordResult(c, Succeeded(route));
        trace := trace + [ResultRow(c, Succeeded(route))];
        MovingKeepsTasks(procs, c, Proc(call, Announce(route), false));
        procs := procs[c := Proc(call, Announce(route), false)];
        Commit(Step(c, Go));
        Await(c);
      }
    }

    /** The common ending: complete the ledger row, announce, return. */
    method Finish(c: CallId, call: Call, route: Route, denied: bool) returns (r: Result<Outcome, Torn>)
      requires Valid() && At(c, call, RecordResult(route))
      modifies this, approvals, audit
      ensures Valid() && Onward(call.job.task)
      ensures c in procs && procs[c].call == call
      ensures r.Err? ==> procs[c].aborted
      ensures r.Ok? ==> At(c, call, Done(route)) && r.value == Outcome(call, Succeeded(route), denied, route)
    {
      hide Run, CallsUnder;
      var torn := RecordOutcome(c, call, route);
      if torn {
        return Err(Torn);
      }
      r := Ok(Outcome(call, Succeeded(route), denied, route));
      if route.Declined? {
        Publish(c, call, Announce(route), Announcement(c, route), AnnounceDecline(route.a));
        Publish(c, call, AnnounceDecline(route.a), OperatorDeclined(c), Done(route));
      } else {
        Publish(c, call, Announce(route), Announcement(c, route), Done(route));
      }
    }

    /** A generated call id, never used before. */
    method FreshCallId() returns (c: CallId)
      requires Valid()
      ensures c !in procs
    {
      c := 0;
      var rest := used;
      while c in used
        invariant rest <= used
        invariant forall d :: d in used && d !in rest ==> d < c
        decreases |rest|
      {
        rest := rest - {c};
        c := c + 1;
      }
    }

    /** Enter the call into the schedule; its id is fresh. */
    method Enter(c: CallId, job: Job) returns (call: Call)
      requires Valid() && c !in procs
      modifies this`procs, this`actions, this`used, this`handed
      ensures Valid() && call == NewCall(job) && At(c, call, Begin) && old(actions) <= actions
      ensures Under(job.task) == old(Under(job.task)) + {c} && handed == old(handed) + [c]
    {
      call := NewCall(job);
      used, handed := used + {c}, handed + [c];
      procs := procs[c := Proc(call, Begin, false)];
      Commit(Submit(c, job));
    }

    // ---- the approval gate

    /** Open a request under a generated id; a collision is a store error. */
    method OpenRequest(c: CallId, call: Call, needsPhrase: bool) returns (r: Result<A.Request, Torn>, after: Call)
      requires Valid() && At(c, call, OpenApproval)
      modifies this, approvals, audit
      ensures Valid() && Onward(call.job.task)
      ensures c in procs && after.job == call.job
      ensures r.Err? ==> procs[c].aborted && procs[c].call.job == call.job
      ensures r.Ok? ==>
                At(c, after, if prompt then Prompting(r.value.id) else RecordResult(Unanswered(r.value.id)))
    {
      hide Run, CallsUnder;
      after := call;
      var torn := MayTear(c, call, OpenApproval);
      if torn {
        return Err(Torn), after;
      }
      var a: ApprovalId := *;
      if a in approvals.rows {
        MovingKeepsTasks(procs, c, procs[c].(aborted := true));
        procs := procs[c := procs[c].(aborted := true)];
        Commit(Abort(c));
        return Err(Torn), after;
      }
      var request := approvals.Open(a, c, call.job.tool, call.risk, needsPhrase, now);
      trace := trace + [ApprovalOpened(c, a)];
      after := call.(approvalId := Some(a), approvalState := Some(A.Pending));
      ghost var next := if prompt then Prompting(a) else RecordResult(Unanswered(a));
      MovingKeepsTasks(procs, c, Proc(after, next, false));
      procs := procs[c := Proc(after, next, false)];
      Commit(Step(c, FreshApproval(a)));
      Await(c);
      r := Ok(request);
    }

    /** Show the request and hold whatever the human says. */
    method AskHuman(c: CallId, call: Call, a: ApprovalId) returns (r: Result<A.Answer, Torn>)
      requires Valid() && At(c, call, Prompting(a))
      modifies this, approvals, audit
      ensures Valid() && Onward(call.job.task)
      ensures c in procs && procs[c].call == call
      ensures r.Err? ==> procs[c].aborted
      ensures r.Ok? ==> r.value.requestId == a && At(c, call, Resolving(a, r.value.approved, r.value.phrase))
    {
      hide Run, CallsUnder;
      var torn := MayTear(c, call, Prompting(a));
      if torn {
        return Err(Torn);
      }
      var approved: bool := *;
      var phrase: Option<string> := *;
      MovingKeepsTasks(procs, c, Proc(call, Resolving(a, approved, phrase), false));
      procs := procs[c := Proc(call, Resolving(a, approved, phrase), false)];
      Commit(Step(c, Reply(approved, phrase)));
      Await(c);
      r := Ok(A.Answer(a, approved, phrase));
    }

    /** Put the answer to the manager; any refusal or store failure is caught. */
    method Settle(c: CallId, call: Call, answer: A.Answer) returns (ok: bool, after: Call)
      requires Valid() && At(c, call, Resolving(answer.requestId, answer.approved, answer.phrase))
      modifies this, approvals, audit
      ensures Valid() && Onward(call.job.task) && after.job == call.job
      ensures !ok ==> At(c, after, RecordResult(Unresolved(answer.requestId)))
      ensures ok && answer.approved ==> At(c, after, Consuming(answer.requestId))
      ensures ok && !answer.approved ==> At(c, after, RecordResult(Declined(answer.requestId)))
    {
      hide Run, CallsUnder;
      var storeFails: bool := *;
      var a := answer.requestId;
      if storeFails {
        ok, after := false, call.(approvalState := Some(A.Expired));
        MovingKeepsTasks(procs, c, Proc(after, RecordResult(Unresolved(a)), false));
        procs := procs[c := Proc(after, RecordResult(Unresolved(a)), false)];
        Commit(Step(c, StoreFails));
        Await(c);
        return;
      }
      label before:
      var resolved := approvals.Resolve(answer, now);
      ok := resolved.Ok?;
      if ok {
        resolutions := resolutions[a := Resolution(answer.approved, answer.phrase, Prompt, now)];
      }
      after := if !ok then call.(approvalState := Some(A.Expired))
               else if answer.approved then call else call.(approvalState := Some(A.Denied));
      ghost var next := if !ok then RecordResult(Unresolved(a))
                        else if answer.approved then Consuming(a) else RecordResult(Declined(a));
      MovingKeepsTasks(procs, c, Proc(after, next, false));
      procs := procs[c := Proc(after, next, false)];
      assert View() == StepResolve(old@before(View()), c, call, answer, false);
      Commit(Step(c, Go));
      Await(c);
    }

    /** Spend the approval; any refusal or store failure is caught. */
    method Spend(c: CallId, call: Call, a: ApprovalId) returns (ok: bool, after: Call)
      requires Valid() && At(c, call, Consuming(a))
      modifies this, approvals, audit
      ensures Valid() && Onward(call.job.task) && after.job == call.job
      ensures At(c, after, if ok then EmitApproved(a) else RecordResult(Unspent(a)))
    {
      hide Run, CallsUnder;
      var storeFails: bool := *;
      if storeFails {
        ok, after := false, call;
        MovingKeepsTasks(procs, c, Proc(after, RecordResult(Unspent(a)), false));
        procs := procs[c := Proc(after, RecordResult(Unspent(a)), false)];
        Commit(Step(c, StoreFails));
        Await(c);
        return;
      }
      label before:
      var spent := approvals.Consume(a, now);
      ok := spent.Ok?;
      after := if ok then call.(approvalState := Some(A.Consumed)) else call;
      ghost var next := if ok then EmitApproved(a) else RecordResult(Unspent(a));
      MovingKeepsTasks(procs, c, Proc(after, next, false));
      procs := procs[c := Proc(after, next, false)];
      assert View() == StepConsume(old@before(View()), c, call, a, false);
      Commit(Step(c, Go));
      Await(c);
    }

    // ---- running the tool

    /** The tool answers, fails, times out or crashes; only the first is success. */
    method RunTool(c: CallId, call: Call, gate: Option<ApprovalId>) returns (r: Result<bool, Torn>)
      requires Valid() && At(c, call, EmitStarted(gate))
      modifies this, approvals, audit
      ensures Valid() && Onward(call.job.task)
      ensures c in procs && procs[c].call == call
      ensures r.Err? ==> procs[c].aborted
      ensures r.Ok? ==> At(c, call, RecordResult(Ran(gate, r.value)))
    {
      hide Run, CallsUnder;
      Publish(c, call, EmitStarted(gate), ToolStarted(c, call.job.tool, call.risk), Running(gate));
      var torn := MayTear(c, call, Running(gate));
      if torn {
        return Err(Torn);
      }
      var ok: bool := *;
      MovingKeepsTasks(procs, c, Proc(call, RecordResult(Ran(gate, ok)), false));
      procs := procs[c := Proc(call, RecordResult(Ran(gate, ok)), false)];
      Commit(Step(c, ToolReturns(ok)));
      Await(c);
      r := Ok(ok);
    }

    /** Resolve with the human's answer and spend what was granted: None to go on,
        else where the call ends. */
    method SettleAndSpend(c: CallId, call0: Call, answer: A.Answer) returns (stop: Option<Route>, call: Call)
      requires Valid() && At(c, call0, Resolving(answer.requestId, answer.approved, answer.phrase))
      modifies this, approvals, audit
      ensures Valid() && Onward(call0.job.task) && call.job == call0.job
      ensures stop.None? ==> At(c, call, EmitApproved(answer.requestId))
      ensures stop.Some? ==> At(c, call, RecordResult(stop.value)) && !Denies(stop.value)
    {
      hide Run, CallsUnder;
      var a := answer.requestId;
      var resolved: bool;
      resolved, call := Settle(c, call0, answer);
      if !resolved {
        return Some(Unresolved(a)), call;
      }
      if !answer.approved {
        return Some(Declined(a)), call;
      }
      var spent: bool;
      spent, call := Spend(c, call, a);
      stop := if spent then None else Some(Unspent(a));
    }

    /** Steps 5 and 6: ask, resolve, spend; then run. */
    method Gated(c: CallId, call0: Call, needsPhrase: bool) returns (r: Result<Outcome, Torn>)
      requires Valid() && At(c, call0, OpenApproval)
      modifies this, approvals, audit
      ensures Valid() && Onward(call0.job.task)
      ensures c in procs
      ensures r.Err? ==> procs[c].aborted
      ensures r.Ok? ==> Returned(c, call0.job, r.value)
    {
      hide Run, CallsUnder;
      var request, call := OpenRequest(c, call0, needsPhrase);
      if request.Err? {
        return Err(Torn);
      }
      var a := request.value.id;
      if !prompt {
        r := Finish(c, call, Unanswered(a), false);
        return;
      }
      var answer := AskHuman(c, call, a);
      if answer.Err? {
        return Err(Torn);
      }
      var stop: Option<Route>;
      stop, call := SettleAndSpend(c, call, answer.value);
      if stop.Some? {
        r := Finish(c, call, stop.value, false);
        return;
      }
      Publish(c, call, EmitApproved(a), ToolApproved(c, a), EmitStarted(Some(a)));
      r := Ungated(c, call, Some(a));
    }

    /** Step 7. */
    method Ungated(c: CallId, call: Call, gate: Option<ApprovalId>) returns (r: Result<Outcome, Torn>)
      requires Valid() && At(c, call, EmitStarted(gate))
      modifies this, approvals, audit
      ensures Valid() && Onward(call.job.task)
      ensures c in procs
      ensures r.Err? ==> procs[c].aborted
      ensures r.Ok? ==> Returned(c, call.job, r.value)
    {
      hide Run, CallsUnder;
      var ran := RunTool(c, call, gate);
      if ran.Err? {
        return Err(Torn);
      }
      r := Finish(c, call, Ran(gate, ran.value), false);
    }

    /** The call is done and its outcome says how. */
    ghost predicate Returned(c: CallId, job: Job, out: Outcome)
      reads this
    {
      && At(c, out.call, Done(out.route))
      && out.call.job == job
      && (out.success <==> out.route.Ran? && out.route.ok)
      && (out.denied <==> out.route.Refused? || out.route.BadArguments?)
    }

    /** `execute`: one call from request to closing event. It returns unless it is
        torn down; started or not, what happened is what the outcome says. */
    method Execute(c: CallId, job: Job) returns (r: Result<Outcome, Torn>)
      requires Valid() && c !in procs
      modifies this, approvals, audit
      ensures Valid() && old(actions) <= actions
      ensures c in procs && Under(job.task) == old(Under(job.task)) + {c} && handed == old(handed) + [c]
      ensures r.Err? ==> procs[c].aborted
      ensures r.Ok? ==> Returned(c, job, r.value)
      ensures procs[c].call.job == job
      ensures forall tool, risk :: ToolStarted(c, tool, risk) in trace ==> StartAuthorised(settings, job, risk)
    {
      var call := Enter(c, job);
      ghost var entered := actions;
      r := Perform(c, job, call);
      JobsPersist(Cfg(), entered, actions);
      forall tool, risk | ToolStarted(c, tool, risk) in trace ensures StartAuthorised(settings, job, risk) {
        NoStartWithoutAuthority(settings, approvals.ttl, prompt, actions, View(), c, tool, risk);
      }
    }

    method Perform(c: CallId, job: Job, entered: Call) returns (r: Result<Outcome, Torn>)
      requires Valid() && At(c, entered, Begin) && entered == NewCall(job)
      modifies this, approvals, audit
      ensures Valid() && Onward(job.task)
      ensures c in procs
      ensures r.Err? ==> procs[c].aborted
      ensures r.Ok? ==> Returned(c, job, r.value)
    {
      hide Run, CallsUnder;
      var call := entered;
      var torn: bool;
      ghost var first := call;

      // 1. Resolve.
      if job.tool !in settings.tools {
        call := DeniedCall(call, UNKNOWN);
        torn := RecordCall(c, first, call, Begin, RecordResult(Refused(false)));
        if torn {
          return Err(Torn);
        }
        r := Finish(c, call, Refused(false), true);
        return;
      }
      var tool := settings.tools[job.tool];

      // 2. Validate.
      if !tool.valid(job.arguments) {
        call := call.(risk := tool.risk);
        torn := RecordCall(c, first, call, Begin, RecordResult(BadArguments));
        if torn {
          return Err(Torn);
        }
        r := Finish(c, call, BadArguments, true);
        return;
      }

      // 3. Classify; a classifier that raises counts as the ceiling.
      var classified := tool.classify(job.arguments);
      var dynamic := if classified.Some? then classified.value else tool.risk;
      var effective := Worse(dynamic, Read);
      call := call.(risk := effective);

      // 4. Policy.
      var verdict := Policy.Evaluate(
        settings.allowApprovals, job.tool, effective,
        Policy.Context(job.maxRisk, job.dryRun, settings.tools.Keys, settings.disabled, tool.outside(job.arguments)));
      call := call.(decision := Some(verdict.decision), rule := Some(verdict.rule));
      r := Decided(c, first, call, verdict);
    }

    /** From the verdict on. */
    method Decided(c: CallId, ghost first: Call, call0: Call, verdict: Policy.Verdict) returns (r: Result<Outcome, Torn>)
      requires Valid() && At(c, first, Begin) && first.job == call0.job
      requires Admit(settings, first.job) == Judged(call0.risk, verdict)
      requires call0 == first.(risk := call0.risk, decision := Some(verdict.decision), rule := Some(verdict.rule))
      modifies this, approvals, audit
      ensures Valid() && Onward(first.job.task)
      ensures c in procs
      ensures r.Err? ==> procs[c].aborted
      ensures r.Ok? ==> Returned(c, first.job, r.value)
    {
      hide Run, CallsUnder;
      var call := call0;
      var torn := RecordCall(c, first, call, Begin, EmitRequested(verdict));
      if torn {
        return Err(Torn);
      }
      match verdict.decision {
        case Deny =>
          Publish(c, call, EmitRequested(verdict), ToolRequested(c), RefuseCall(verdict));
          var refused := DeniedCall(call, verdict);
          torn := RecordCall(c, call, refused, RefuseCall(verdict), RecordResult(Refused(true)));
          if torn {
            return Err(Torn);
          }
          r := Finish(c, refused, Refused(true), true);
        case RequireApproval =>
          Publish(c, call, EmitRequested(verdict), ToolRequested(c), OpenApproval);
          r := Gated(c, call, verdict.phrase);
        case Allow =>
          Publish(c, call, EmitRequested(verdict), ToolRequested(c), EmitStarted(None));
          r := Ungated(c, call, None);
      }
    }
  }
}
