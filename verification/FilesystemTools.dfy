/** The mutating filesystem tools as registered tools, and what the gate guarantees
    of them (tools/filesystem.py, tools/executor.py, security/policy.py). */
module FilesystemTools {
  import opened Common
  import opened Risk
  import opened Registry
  import opened Paths
  import Policy
  import P = Protocol
  import T = ProtocolTheorems

  /** The declared ceilings. */
  const CEILINGS: map<string, RiskLevel> := map[
    "fs.mkdir" := Privileged, "fs.write" := Privileged, "fs.move" := Destructive, "fs.delete" := Destructive]

  /** A registered filesystem tool: `parse` is its argument schema, and the paths
      the policy engine looks at are those its arguments name. */
  function FsTool(fs: FileSystem, workspace: Path, parse: string -> Option<FsCall>, ceiling: RiskLevel): Tool {
    Tool(
      ceiling,
      (arguments: string) => parse(arguments).Some?,
      (arguments: string) =>
        match parse(arguments) case None => None case Some(call) => Some(Classify(fs, call, workspace)),
      (arguments: string) => match parse(arguments) case None => false case Some(call) => AnyOutside(fs, call, workspace))
  }

  /** In every run, a filesystem call that started without an approval of its own
      has every affected path inside the workspace. */
  lemma UnapprovedStartIsContained(
      st: Settings, ttl: nat, prompt: bool, actions: seq<P.Action>, s: P.State, c: P.CallId,
      fs: FileSystem, raw: Path, workspace: Path, parse: string -> Option<FsCall>, ceiling: RiskLevel)
    requires Idempotent(fs) && fs.resolve(raw) == Some(workspace)
    requires s == P.Run(T.Gate(st, ttl, prompt), actions) && T.Started(s, c) && c in s.procs
    requires var job := s.procs[c].call.job;
             job.tool in st.tools && st.tools[job.tool] == FsTool(fs, workspace, parse, ceiling)
    requires forall a :: a in s.rows ==> s.rows[a].callId != c
    ensures var call := parse(s.procs[c].call.job.arguments);
            call.Some? && Contained(fs, call.value, workspace)
  {
    var cfg, job := T.Gate(st, ttl, prompt), s.procs[c].call.job;
    T.GateIsWellJudged(st, ttl, prompt);
    T.StartSpendsOwnApproval(cfg, actions, s, c);
    var tool, risk :| P.ToolStarted(c, tool, risk) in s.trace;
    T.NoStartWithoutAuthority(st, ttl, prompt, actions, s, c, tool, risk);
    AdmissionIsAuthority(st, job);
    AllowedIsContained(st, job, fs, raw, workspace, parse, ceiling);
  }

  lemma AllowedIsContained(
      st: Settings, job: Job, fs: FileSystem, raw: Path, workspace: Path,
      parse: string -> Option<FsCall>, ceiling: RiskLevel)
    requires Idempotent(fs) && fs.resolve(raw) == Some(workspace)
    requires job.tool in st.tools && st.tools[job.tool] == FsTool(fs, workspace, parse, ceiling)
    requires Admit(st, job).Judged? && Admit(st, job).v.decision == Policy.Allow
    ensures var call := parse(job.arguments); call.Some? && Contained(fs, call.value, workspace)
  {
    var call := parse(job.arguments).value;
    ClassifierAndEngineAgree(fs, call, raw, workspace, true, Policy.Context(Read, false, {}, {}, false));
  }

  /** Deleting inside the workspace is WRITE although `fs.delete` declares
      DESTRUCTIVE: the worse of the two does not win. */
  lemma CeilingLosesOnDelete(
      fs: FileSystem, workspace: Path, parse: string -> Option<FsCall>, arguments: string, call: FsCall)
    requires parse(arguments) == Some(call) && call.Delete? && IsInsideWorkspace(fs, call.path, workspace)
    ensures var tool := FsTool(fs, workspace, parse, CEILINGS["fs.delete"]);
            EffectiveRisk(tool, arguments) == Write && Worse(tool.risk, Write) == Destructive
  {
  }
}
