/** One schedule in full: a call that needs approval is asked about, granted, spent
    and run, and its ledger row names no approval (tools/executor.py,
    security/audit.py). */
module ApprovedRun {
  import opened Common
  import opened Risk
  import opened Registry
  import opened Protocol
  import opened ProtocolTheorems
  import Policy
  import A = Approvals

  const RESTART := Tool(Privileged, (a: string) => true, (a: string) => Some(Privileged), (a: string) => false)
  const SETTINGS := Settings(map["service.restart" := RESTART], {}, true)
  const JOB := Job("t", "service.restart", "{}", Privileged, Privileged, false)
  const TTL: nat := 300
  const VERDICT := Policy.Verdict(Policy.RequireApproval, Privileged, Policy.PrivilegedRequiresApproval, false)

  function Cfg(): Config {
    Gate(SETTINGS, TTL, true)
  }

  /** Call 0 stands at `pc`, its request, if opened, is in that state, and its
      ledger row, if written, has no approval in it. */
  predicate Stage(s: State, pc: PC, request: Option<A.ApprovalState>) {
    && s.now == 0
    && 0 in s.procs && s.procs[0].pc == pc && !s.procs[0].aborted
    && s.procs[0].call.job == JOB && (pc != Begin ==> s.procs[0].call.risk == Privileged)
    && s.rows == (if request == None then map[]
                  else map[0 := A.Row(0, "service.restart", Privileged, Some(TTL), request.value)])
    && (pc != Begin ==> 0 in s.ledger && s.ledger[0].approvalId == None && s.ledger[0].approvalState == None)
  }

  lemma Advance(cfg: Config, actions: seq<Action>, s: State, action: Action) returns (more: seq<Action>, t: State)
    requires s == Run(cfg, actions)
    ensures more == actions + [action] && t == Run(cfg, more) == Apply(cfg, s, action)
  {
    more := actions + [action];
    assert more[..|actions|] == actions;
    t := Apply(cfg, s, action);
  }

  lemma Submitted() returns (actions: seq<Action>, s: State)
    ensures s == Run(Cfg(), actions) && Stage(s, Begin, None) && s.procs[0].call == NewCall(JOB)
  {
    actions, s := Advance(Cfg(), [], INITIAL, Submit(0, JOB));
  }

  /** The tool is found, its arguments are valid, and approval is required. */
  lemma Admitted()
    ensures Cfg().admit(JOB) == Judged(Privileged, VERDICT)
  {
  }

  lemma Recorded() returns (actions: seq<Action>, s: State)
    ensures s == Run(Cfg(), actions) && Stage(s, EmitRequested(VERDICT), None)
  {
    actions, s := Submitted();
    hide Run;
    Admitted();
    actions, s := Advance(Cfg(), actions, s, Step(0, Go));
  }

  lemma Requested() returns (actions: seq<Action>, s: State)
    ensures s == Run(Cfg(), actions) && Stage(s, OpenApproval, None)
  {
    actions, s := Recorded();
    hide Run;
    actions, s := Advance(Cfg(), actions, s, Step(0, Go));
  }

  lemma Opened() returns (actions: seq<Action>, s: State)
    ensures s == Run(Cfg(), actions) && Stage(s, Prompting(0), Some(A.Pending))
  {
    actions, s := Requested();
    hide Run;
    actions, s := Advance(Cfg(), actions, s, Step(0, FreshApproval(0)));
  }

  lemma Granted() returns (actions: seq<Action>, s: State)
    ensures s == Run(Cfg(), actions) && Stage(s, Consuming(0), Some(A.Approved))
  {
    actions, s := Opened();
    hide Run;
    actions, s := Advance(Cfg(), actions, s, Step(0, Reply(true, None)));
    assert Stage(s, Resolving(0, true, None), Some(A.Pending));
    actions, s := Advance(Cfg(), actions, s, Step(0, Go));
  }

  lemma Spent() returns (actions: seq<Action>, s: State)
    ensures s == Run(Cfg(), actions) && Stage(s, EmitApproved(0), Some(A.Consumed))
  {
    actions, s := Granted();
    hide Run;
    actions, s := Advance(Cfg(), actions, s, Step(0, Go));
  }

  lemma Started() returns (actions: seq<Action>, s: State)
    ensures s == Run(Cfg(), actions) && Stage(s, Running(Some(0)), Some(A.Consumed))
  {
    actions, s := Spent();
    hide Run;
    actions, s := Advance(Cfg(), actions, s, Step(0, Go));
    assert Stage(s, EmitStarted(Some(0)), Some(A.Consumed));
    actions, s := Advance(Cfg(), actions, s, Step(0, Go));
  }

  lemma Returned() returns (actions: seq<Action>, s: State)
    ensures s == Run(Cfg(), actions) && Stage(s, RecordResult(Ran(Some(0), true)), Some(A.Consumed))
  {
    actions, s := Started();
    hide Run;
    actions, s := Advance(Cfg(), actions, s, Step(0, ToolReturns(true)));
  }

  /** The call is done, its approval consumed, and the columns of its row empty. */
  lemma ApprovedCallHasEmptyColumns() returns (actions: seq<Action>, s: State)
    ensures s == Run(Cfg(), actions)
    ensures 0 in s.procs && s.procs[0].pc == Done(Ran(Some(0), true))
    ensures 0 in s.rows && s.rows[0].callId == 0 && s.rows[0].state == A.Consumed
    ensures 0 in s.ledger && s.ledger[0].approvalId == None && s.ledger[0].approvalState == None
    ensures !ColumnsAgree(s, 0)
  {
    actions, s := Returned();
    hide Run;
    actions, s := Advance(Cfg(), actions, s, Step(0, Go));
    assert Stage(s, Announce(Ran(Some(0), true)), Some(A.Consumed));
    actions, s := Advance(Cfg(), actions, s, Step(0, Go));
    assert Stage(s, Done(Ran(Some(0), true)), Some(A.Consumed));
  }
}
