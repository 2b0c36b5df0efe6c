/** Path containment: the write and read guards, the path half of the risk
    classifier and the four mutating filesystem tools (security/paths.py,
    security/risk.py, tools/filesystem.py). */
module Paths {
  import opened Common
  import opened Risk
  import Policy
  import Text

  /** Components of an absolute path; the root is the empty sequence. */
  type Path = seq<string>

  /** The filesystem as the guards see it, fixed for the length of one call.
      `resolve` follows symlinks and gives None for a loop or an OS error. */
  datatype FileSystem = FileSystem(
    lexical: string -> Path,
    resolve: Path -> Option<Path>,
    isSymlink: Path -> bool)

  /** Resolving a resolved path changes nothing. */
  ghost predicate Idempotent(fs: FileSystem) {
    forall p :: fs.resolve(p).Some? ==> fs.resolve(fs.resolve(p).value) == fs.resolve(p)
  }

  datatype Refusal = Garbage | Unresolvable | NeverWritable | CredentialPath | OutsideRoots | NoRoots | ThroughSymlink

  /** `candidate == root or candidate.is_relative_to(root)`, by components. */
  predicate IsWithin(candidate: Path, root: Path) {
    root <= candidate
  }

  const FORBIDDEN_WRITE_ROOTS: seq<Path> := [
    ["boot"], ["dev"], ["etc"], ["proc"], ["sys"], ["usr"], ["bin"], ["sbin"], ["lib"], ["lib64"],
    ["var", "lib", "dpkg"], ["var", "lib", "rpm"]]

  const SENSITIVE_READ_PATHS: seq<Path> := [
    ["etc", "shadow"], ["etc", "gshadow"], ["etc", "sudoers"], ["root", ".ssh"], ["root", ".aws"],
    ["etc", "ssh", "ssh_host_rsa_key"], ["etc", "ssh", "ssh_host_ecdsa_key"],
    ["etc", "ssh", "ssh_host_ed25519_key"]]

  predicate WithinAny(p: Path, roots: seq<Path>) {
    exists i :: 0 <= i < |roots| && IsWithin(p, roots[i])
  }

  /** `_resolve`: reject NUL bytes and blank text, then resolve. */
  function Resolve(fs: FileSystem, text: string): Result<Path, Refusal> {
    if '\0' in text || Text.Blank(text) then Err(Garbage)
    else
      match fs.resolve(fs.lexical(text))
      case None => Err(Unresolvable)
      case Some(p) => Ok(p)
  }

  /** `validate_write_path`. The workspace arrives resolved and is resolved again. */
  function ValidateWrite(fs: FileSystem, text: string, workspace: Path, extra: seq<Path>): Result<Path, Refusal> {
    match Resolve(fs, text)
    case Err(e) => Err(e)
    case Ok(p) =>
      match fs.resolve(workspace)
      case None => Err(Unresolvable)
      case Some(ws) =>
        if WithinAny(p, FORBIDDEN_WRITE_ROOTS) then Err(NeverWritable)
        else if !WithinAny(p, [ws] + extra) then Err(OutsideRoots)
        else if fs.isSymlink(p) then Err(ThroughSymlink)
        else Ok(p)
  }

  /** `validate_read_path`; the roots arrive resolved. */
  function ValidateRead(fs: FileSystem, text: string, roots: seq<Path>): Result<Path, Refusal> {
    match Resolve(fs, text)
    case Err(e) => Err(e)
    case Ok(p) =>
      if roots == [] then Err(NoRoots)
      else if WithinAny(p, SENSITIVE_READ_PATHS) then Err(CredentialPath)
      else if !WithinAny(p, roots) then Err(OutsideRoots)
      else Ok(p)
  }

  /** `is_inside_workspace`: what the classifier asks. */
  predicate IsInsideWorkspace(fs: FileSystem, text: string, workspace: Path) {
    match Resolve(fs, text)
    case Err(_) => false
    case Ok(p) =>
      match fs.resolve(workspace)
      case None => false
      case Some(ws) => IsWithin(p, ws)
  }

  /** `PolicyEngine._inside_workspace`: no garbage check, and the engine resolved
      its workspace when it was built. */
  predicate EngineInside(fs: FileSystem, text: string, workspace: Path) {
    match fs.resolve(fs.lexical(text))
    case None => false
    case Some(p) => IsWithin(p, workspace)
  }

  function ClassifyPathWrite(fs: FileSystem, text: string, workspace: Path): RiskLevel {
    if IsInsideWorkspace(fs, text, workspace) then Write else Privileged
  }

  function ClassifyPathDelete(fs: FileSystem, text: string, workspace: Path): RiskLevel {
    if IsInsideWorkspace(fs, text, workspace) then Write else Destructive
  }

  /** Parsed arguments of the mutating filesystem tools. */
  datatype FsCall =
    | Mkdir(path: string)
    | WriteFile(path: string)
    | Move(source: string, destination: string)
    | Delete(path: string, recursive: bool)

  function ToolName(call: FsCall): string {
    match call
    case Mkdir(_) => "fs.mkdir"
    case WriteFile(_) => "fs.write"
    case Move(_, _) => "fs.move"
    case Delete(_, _) => "fs.delete"
  }

  function AffectedPaths(call: FsCall): seq<string> {
    match call
    case Mkdir(p) => [p]
    case WriteFile(p) => [p]
    case Move(s, d) => [s, d]
    case Delete(p, _) => [p]
  }

  function Classify(fs: FileSystem, call: FsCall, workspace: Path): RiskLevel {
    match call
    case Mkdir(p) => ClassifyPathWrite(fs, p, workspace)
    case WriteFile(p) => ClassifyPathWrite(fs, p, workspace)
    case Move(s, d) =>
      var source, dest := ClassifyPathDelete(fs, s, workspace), ClassifyPathWrite(fs, d, workspace);
      if source.Rank() >= dest.Rank() then source else dest
    case Delete(p, _) => ClassifyPathDelete(fs, p, workspace)
  }

  /** The guards `run` passes through before it touches anything: the resolved
      targets, in order, or the first refusal. */
  function Guard(fs: FileSystem, call: FsCall, workspace: Path): Result<seq<Path>, Refusal> {
    match call
    case Move(s, d) => (
      match ValidateWrite(fs, s, workspace, [])
      case Err(e) => Err(e)
      case Ok(source) =>
        match ValidateWrite(fs, d, workspace, [])
        case Err(e) => Err(e)
        case Ok(dest) => Ok([source, dest])
    )
    case _ =>
      match ValidateWrite(fs, call.path, workspace, [])
      case Err(e) => Err(e)
      case Ok(p) => Ok([p])
  }

  predicate AnyOutside(fs: FileSystem, call: FsCall, workspace: Path) {
    exists i :: 0 <= i < |AffectedPaths(call)| && !EngineInside(fs, AffectedPaths(call)[i], workspace)
  }

  /** The verdict `execute` obtains for a filesystem call. */
  function VerdictFor(
      fs: FileSystem, call: FsCall, workspace: Path, allowApprovals: bool, ctx: Policy.Context): Policy.Verdict
  {
    Policy.Evaluate(allowApprovals, ToolName(call), Classify(fs, call, workspace),
                    ctx.(outside := AnyOutside(fs, call, workspace)))
  }

  // ---- containment, by components

  /** The components of `p` are those of `root`, and then some. */
  ghost predicate Beneath(p: Path, root: Path) {
    exists rest: Path :: p == root + rest
  }

  ghost predicate BeneathAny(p: Path, roots: seq<Path>) {
    exists i :: 0 <= i < |roots| && Beneath(p, roots[i])
  }

  /** The text is clean and names `p`. */
  ghost predicate Denotes(fs: FileSystem, text: string, p: Path) {
    && '\0' !in text
    && (exists i :: 0 <= i < |text| && !Text.IsSpace(text[i]))
    && fs.resolve(fs.lexical(text)) == Some(p)
  }

  ghost predicate PathContained(fs: FileSystem, text: string, workspace: Path) {
    exists p :: Denotes(fs, text, p) && Beneath(p, workspace)
  }

  /** Every path the call would touch is in the workspace. */
  ghost predicate Contained(fs: FileSystem, call: FsCall, workspace: Path) {
    match call
    case Move(s, d) => PathContained(fs, s, workspace) && PathContained(fs, d, workspace)
    case _ => PathContained(fs, call.path, workspace)
  }

  /** In the workspace, in no forbidden tree, and no symlink. */
  ghost predicate PathWritable(fs: FileSystem, text: string, workspace: Path, p: Path) {
    && Denotes(fs, text, p) && Beneath(p, workspace)
    && !BeneathAny(p, FORBIDDEN_WRITE_ROOTS)
    && !fs.isSymlink(p)
  }

  lemma WithinIsBeneath(p: Path, root: Path)
    ensures IsWithin(p, root) <==> Beneath(p, root)
  {
    if IsWithin(p, root) {
      assert p == root + p[|root|..];
    }
  }

  lemma WithinAnyIsBeneath(p: Path, roots: seq<Path>)
    ensures WithinAny(p, roots) <==> BeneathAny(p, roots)
  {
    forall i | 0 <= i < |roots| ensures IsWithin(p, roots[i]) <==> Beneath(p, roots[i]) {
      WithinIsBeneath(p, roots[i]);
    }
  }

  lemma ResolveDenotes(fs: FileSystem, text: string)
    ensures forall p :: Resolve(fs, text) == Ok(p) <==> Denotes(fs, text, p)
  {
  }

  /** The engine asks the same of the resolved path, and nothing of the text. */
  lemma EngineIsInside(fs: FileSystem, text: string, workspace: Path)
    ensures EngineInside(fs, text, workspace) <==>
              exists p :: fs.resolve(fs.lexical(text)) == Some(p) && Beneath(p, workspace)
  {
    forall p ensures IsWithin(p, workspace) <==> Beneath(p, workspace) {
      WithinIsBeneath(p, workspace);
    }
  }

  /** What the engine is told: some path the call would touch does not resolve, or
      resolves outside the workspace. */
  lemma OutsideIsReported(fs: FileSystem, call: FsCall, workspace: Path)
    ensures AnyOutside(fs, call, workspace) <==>
              match call
              case Move(s, d) => ResolvesOutside(fs, s, workspace) || ResolvesOutside(fs, d, workspace)
              case _ => ResolvesOutside(fs, call.path, workspace)
  {
    var paths := if call.Move? then [call.source, call.destination] else [call.path];
    forall i | 0 <= i < |paths|
      ensures EngineInside(fs, paths[i], workspace) <==> !ResolvesOutside(fs, paths[i], workspace)
    {
      EngineIsInside(fs, paths[i], workspace);
    }
    hide EngineInside, ResolvesOutside;
    assert paths[0] == if call.Move? then call.source else call.path;
    assert AffectedPaths(call)[0] == paths[0];
    if call.Move? {
      assert AffectedPaths(call)[1] == paths[1] == call.destination;
    }
  }

  ghost predicate ResolvesOutside(fs: FileSystem, text: string, workspace: Path) {
    forall p :: fs.resolve(fs.lexical(text)) == Some(p) ==> !Beneath(p, workspace)
  }

  lemma InsideIsContained(fs: FileSystem, text: string, workspace: Path)
    requires fs.resolve(workspace) == Some(workspace)
    ensures IsInsideWorkspace(fs, text, workspace) <==> PathContained(fs, text, workspace)
    ensures PathContained(fs, text, workspace) ==> EngineInside(fs, text, workspace)
  {
    EngineIsInside(fs, text, workspace);
    ResolveDenotes(fs, text);
    forall p ensures IsWithin(p, workspace) <==> Beneath(p, workspace) {
      WithinIsBeneath(p, workspace);
    }
  }

  /** Classifier and engine agree on what "inside" means: WRITE is given exactly
      to contained calls, so the engine never sees a WRITE that reaches outside
      and never lets a call that does run unasked. Deleting or moving away from
      outside is DESTRUCTIVE, writing there PRIVILEGED. */
  lemma ClassifierAndEngineAgree(
      fs: FileSystem, call: FsCall, raw: Path, workspace: Path, allowApprovals: bool, ctx: Policy.Context)
    requires Idempotent(fs) && fs.resolve(raw) == Some(workspace)
    ensures Classify(fs, call, workspace) == Write <==> Contained(fs, call, workspace)
    ensures Classify(fs, call, workspace) != Read
    ensures Classify(fs, call, workspace) == Destructive <==>
              || (call.Delete? && !PathContained(fs, call.path, workspace))
              || (call.Move? && !PathContained(fs, call.source, workspace))
    ensures VerdictFor(fs, call, workspace, allowApprovals, ctx).rule != Policy.WriteOutsideWorkspace
    ensures VerdictFor(fs, call, workspace, allowApprovals, ctx).decision == Policy.Allow ==>
              Contained(fs, call, workspace)
  {
    var paths := AffectedPaths(call);
    assert fs.resolve(workspace) == Some(workspace);
    forall i | 0 <= i < |paths|
      ensures IsInsideWorkspace(fs, paths[i], workspace) <==> PathContained(fs, paths[i], workspace)
      ensures IsInsideWorkspace(fs, paths[i], workspace) ==> EngineInside(fs, paths[i], workspace)
    {
      InsideIsContained(fs, paths[i], workspace);
    }
    hide IsInsideWorkspace, PathContained, EngineInside;
    assert paths[0] == AffectedPaths(call)[0];
    if call.Move? {
      assert paths[1] == call.destination;
    }
  }

  /** A path is accepted for writing exactly when it is clean, its components start
      with those of the workspace or of an extra root, with those of no forbidden
      root, and it is not a symlink. Extra roots widen the workspace, never the
      forbidden trees. */
  lemma WriteGuardIsExact(fs: FileSystem, text: string, workspace: Path, extra: seq<Path>)
    requires fs.resolve(workspace) == Some(workspace)
    ensures forall p :: ValidateWrite(fs, text, workspace, extra) == Ok(p) <==>
              && Denotes(fs, text, p)
              && (Beneath(p, workspace) || BeneathAny(p, extra))
              && !BeneathAny(p, FORBIDDEN_WRITE_ROOTS)
              && !fs.isSymlink(p)
  {
    ResolveDenotes(fs, text);
    forall p: Path
      ensures WithinAny(p, [workspace] + extra) <==> Beneath(p, workspace) || BeneathAny(p, extra)
      ensures WithinAny(p, FORBIDDEN_WRITE_ROOTS) <==> BeneathAny(p, FORBIDDEN_WRITE_ROOTS)
    {
      WorkspaceOrExtra(p, workspace, extra);
      WithinAnyIsBeneath(p, FORBIDDEN_WRITE_ROOTS);
    }
    hide WithinAny, BeneathAny, Beneath, IsWithin, Denotes;
  }

  lemma WorkspaceOrExtra(p: Path, workspace: Path, extra: seq<Path>)
    ensures WithinAny(p, [workspace] + extra) <==> Beneath(p, workspace) || BeneathAny(p, extra)
  {
    var roots := [workspace] + extra;
    WithinIsBeneath(p, workspace);
    WithinAnyIsBeneath(p, extra);
    hide IsWithin, Beneath, BeneathAny;
    assert roots[0] == workspace;
    if WithinAny(p, extra) {
      var i :| 0 <= i < |extra| && IsWithin(p, extra[i]);
      assert roots[i + 1] == extra[i];
    }
  }

  /** The targets the guard hands on are the call's own, in order. */
  ghost predicate Targets(fs: FileSystem, call: FsCall, workspace: Path, targets: seq<Path>) {
    match call
    case Move(s, d) =>
      |targets| == 2 && PathWritable(fs, s, workspace, targets[0]) && PathWritable(fs, d, workspace, targets[1])
    case _ => |targets| == 1 && PathWritable(fs, call.path, workspace, targets[0])
  }

  lemma GuardHandsOn(fs: FileSystem, call: FsCall, workspace: Path, targets: seq<Path>)
    requires fs.resolve(workspace) == Some(workspace)
    ensures Guard(fs, call, workspace) == Ok(targets) <==> Targets(fs, call, workspace, targets)
  {
    if call.Move? {
      WriteGuardIsExact(fs, call.source, workspace, []);
      WriteGuardIsExact(fs, call.destination, workspace, []);
    } else {
      WriteGuardIsExact(fs, call.path, workspace, []);
    }
    hide ValidateWrite, Denotes, Beneath, BeneathAny;
    if call.Move? && |targets| == 2 {
      assert targets == [targets[0], targets[1]];
    } else if !call.Move? && |targets| == 1 {
      assert targets == [targets[0]];
    }
  }

  /** The guard decides alone: it passes exactly the calls whose targets are in the
      workspace, in no forbidden tree and no symlinks, whatever was approved, and
      hands on just those targets; so a call classified above WRITE never runs. */
  lemma GuardAgrees(fs: FileSystem, call: FsCall, raw: Path, workspace: Path)
    requires Idempotent(fs) && fs.resolve(raw) == Some(workspace)
    ensures forall targets :: Guard(fs, call, workspace) == Ok(targets) <==> Targets(fs, call, workspace, targets)
    ensures Guard(fs, call, workspace).Ok? ==> Contained(fs, call, workspace)
    ensures Classify(fs, call, workspace) != Write ==> Guard(fs, call, workspace).Err?
  {
    assert fs.resolve(workspace) == Some(workspace);
    ClassifierAndEngineAgree(fs, call, raw, workspace, true, Policy.Context(Read, false, {}, {}, false));
    forall targets
      ensures Guard(fs, call, workspace) == Ok(targets) <==> Targets(fs, call, workspace, targets)
    {
      GuardHandsOn(fs, call, workspace, targets);
    }
    hide Guard, Classify, Denotes, Beneath, BeneathAny;
    if Guard(fs, call, workspace).Ok? {
      var targets := Guard(fs, call, workspace).value;
      assert Targets(fs, call, workspace, targets);
      assert Contained(fs, call, workspace);
    }
  }

  /** A path is readable exactly when it is clean and its components start with those
      of an allowed root and with those of no credential path, even under a root. */
  lemma ReadGuardIsExact(fs: FileSystem, text: string, roots: seq<Path>)
    ensures forall p :: ValidateRead(fs, text, roots) == Ok(p) <==>
              Denotes(fs, text, p) && BeneathAny(p, roots) && !BeneathAny(p, SENSITIVE_READ_PATHS)
  {
    ResolveDenotes(fs, text);
    forall p: Path
      ensures WithinAny(p, roots) <==> BeneathAny(p, roots)
      ensures WithinAny(p, SENSITIVE_READ_PATHS) <==> BeneathAny(p, SENSITIVE_READ_PATHS)
    {
      WithinAnyIsBeneath(p, roots);
      WithinAnyIsBeneath(p, SENSITIVE_READ_PATHS);
    }
    hide Denotes, Beneath, IsWithin;
  }
}
