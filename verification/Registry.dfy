/** The registered tools and the synchronous head of `execute`: resolve the name,
    validate the arguments, classify, and ask the policy engine
    (tools/base.py, tools/executor.py). */
module Registry {
  import opened Common
  import opened Risk
  import Policy

  type TaskId = string

  /** A proposed call, the task it is for and the limits it runs under. */
  datatype Job = Job(
    task: TaskId, tool: string, arguments: string, declaredRisk: RiskLevel, maxRisk: RiskLevel, dryRun: bool)

  /** A registered tool: its ceiling, its schema, its classifier (None when it
      raises) and whether an affected path resolves outside the workspace. */
  datatype Tool = Tool(
    risk: RiskLevel, valid: string -> bool, classify: string -> Option<RiskLevel>, outside: string -> bool)

  datatype Settings = Settings(tools: map<string, Tool>, disabled: set<string>, allowApprovals: bool)

  /** What is known about a job before its first await. */
  datatype Admission =
    | NotFound
    | Malformed(ceiling: RiskLevel)
    | Judged(risk: RiskLevel, v: Policy.Verdict)

  const UNKNOWN := Policy.Verdict(Policy.Deny, Destructive, Policy.UnknownTool, false)

  function Context(st: Settings, job: Job): Policy.Context
    requires job.tool in st.tools
  {
    Policy.Context(job.maxRisk, job.dryRun, st.tools.Keys, st.disabled, st.tools[job.tool].outside(job.arguments))
  }

  /** The classification, or the ceiling when classifying raises; the ceiling has
      no other influence. */
  function EffectiveRisk(tool: Tool, arguments: string): RiskLevel {
    match tool.classify(arguments)
    case None => Worse(tool.risk, Read)
    case Some(dynamic) => Worse(dynamic, Read)
  }

  function Admit(st: Settings, job: Job): Admission {
    if job.tool !in st.tools then NotFound
    else if !st.tools[job.tool].valid(job.arguments) then Malformed(st.tools[job.tool].risk)
    else
      var risk := EffectiveRisk(st.tools[job.tool], job.arguments);
      Judged(risk, Policy.Evaluate(st.allowApprovals, job.tool, risk, Context(st, job)))
  }

  /** The authority a started tool must have had: registered, enabled, arguments
      well formed, classified at or below the ceiling of its objective, READ in a
      dry run, and at most WRITE on an instance without approvals. */
  predicate StartAuthorised(st: Settings, job: Job, risk: RiskLevel) {
    && job.tool in st.tools
    && job.tool !in st.disabled
    && st.tools[job.tool].valid(job.arguments)
    && risk == (match st.tools[job.tool].classify(job.arguments)
                case None => st.tools[job.tool].risk
                case Some(dynamic) => dynamic)
    && risk.Rank() <= job.maxRisk.Rank()
    && (job.dryRun ==> risk == Read)
    && (!st.allowApprovals ==> risk.Rank() <= Write.Rank())
  }

  /** A verdict is coherent: denied or not, it speaks of the classified risk, and
      it wants the phrase exactly when it wants approval at DESTRUCTIVE. */
  predicate Coherent(adm: Admission) {
    adm.Judged? ==>
      && adm.v.risk == adm.risk
      && (adm.v.phrase <==> adm.v.decision == Policy.RequireApproval && adm.risk == Destructive)
  }

  /** Admission refuses exactly the jobs without that authority. */
  lemma AdmissionIsAuthority(st: Settings, job: Job)
    ensures Coherent(Admit(st, job))
    ensures Admit(st, job).Judged? && Admit(st, job).v.decision != Policy.Deny <==>
              job.tool in st.tools && StartAuthorised(st, job, EffectiveRisk(st.tools[job.tool], job.arguments))
    ensures Admit(st, job).Judged? && Admit(st, job).v.decision == Policy.Allow <==>
              && job.tool in st.tools
              && var risk := EffectiveRisk(st.tools[job.tool], job.arguments);
                 && StartAuthorised(st, job, risk)
                 && (risk == Read || (risk == Write && !st.tools[job.tool].outside(job.arguments)))
  {
    if job.tool in st.tools {
      Policy.EvaluateMeetsAuthority(
        st.allowApprovals, job.tool, EffectiveRisk(st.tools[job.tool], job.arguments), Context(st, job));
    }
  }

  /** The declared ceiling of a tool is not consulted while its classifier
      answers: two tools that differ only in their ceilings are judged alike. */
  lemma CeilingIsNotConsulted(st: Settings, job: Job, ceiling: RiskLevel)
    requires job.tool in st.tools && st.tools[job.tool].classify(job.arguments).Some?
    ensures var other := st.(tools := st.tools[job.tool := st.tools[job.tool].(risk := ceiling)]);
            Admit(st, job).Judged? ==> Admit(other, job) == Admit(st, job)
  {
    var other := st.(tools := st.tools[job.tool := st.tools[job.tool].(risk := ceiling)]);
    assert other.tools.Keys == st.tools.Keys;
  }

  /** The worse of the declared ceiling and the classification, which the comment
      says wins. */
  function WorseOfBoth(tool: Tool, arguments: string): RiskLevel {
    match tool.classify(arguments)
    case None => tool.risk
    case Some(dynamic) => Worse(tool.risk, dynamic)
  }

  /** It does win exactly when classifying raises or comes out no lower than the
      ceiling. */
  lemma WorseWinsUnlessDowngraded(tool: Tool, arguments: string)
    ensures EffectiveRisk(tool, arguments) == WorseOfBoth(tool, arguments) <==>
              tool.classify(arguments).None? || tool.classify(arguments).value.AtLeast(tool.risk)
  {
  }

  /** A tool with a DESTRUCTIVE ceiling whose arguments classify WRITE: the worse of
      the two would be refused under a WRITE objective, and the call is let through
      unasked. */
  lemma DowngradeIsAllowed()
    ensures var delete := Tool(Destructive, (a: string) => true, (a: string) => Some(Write), (a: string) => false);
            var st := Settings(map["fs.delete" := delete], {}, true);
            var job := Job("t", "fs.delete", "{}", Destructive, Write, false);
            && EffectiveRisk(delete, "{}") == Write && WorseOfBoth(delete, "{}") == Destructive
            && Admit(st, job).Judged? && Admit(st, job).v.decision == Policy.Allow
            && Policy.Evaluate(true, "fs.delete", Destructive, Context(st, job)).decision == Policy.Deny
  {
  }
}
