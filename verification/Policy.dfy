/** The policy engine: an ordered chain of rules over one proposed call
    (security/policy.py). */
module Policy {
  import opened Risk

  datatype Decision = Allow | RequireApproval | Deny

  datatype Rule =
    | UnknownTool
    | ToolDisabled
    | DryRun
    | RiskCeiling
    | ReadAllowed
    | ApprovalsDisabled
    | WriteOutsideWorkspace
    | WriteInWorkspace
    | PrivilegedRequiresApproval
    | DestructiveRequiresConfirmation

  datatype Verdict = Verdict(decision: Decision, risk: RiskLevel, rule: Rule, phrase: bool)

  /** What the engine is told beyond the call. `outside` says whether some
      affected path resolves outside the workspace. */
  datatype Context = Context(
    maxRisk: RiskLevel, dryRun: bool, known: set<string>, disabled: set<string>, outside: bool)

  function Evaluate(allowApprovals: bool, tool: string, risk: RiskLevel, ctx: Context): Verdict {
    if ctx.known != {} && tool !in ctx.known then
      Verdict(Deny, Destructive, UnknownTool, false)
    else if tool in ctx.disabled then
      Verdict(Deny, risk, ToolDisabled, false)
    else if risk.AtLeast(Write) && ctx.dryRun then
      Verdict(Deny, risk, DryRun, false)
    else if risk.Rank() > ctx.maxRisk.Rank() then
      Verdict(Deny, risk, RiskCeiling, false)
    else if risk == Read then
      Verdict(Allow, risk, ReadAllowed, false)
    else if !allowApprovals && risk.AtLeast(Privileged) then
      Verdict(Deny, risk, ApprovalsDisabled, false)
    else if risk == Write then
      if ctx.outside then Verdict(RequireApproval, risk, WriteOutsideWorkspace, false)
      else Verdict(Allow, risk, WriteInWorkspace, false)
    else if risk == Privileged then
      Verdict(RequireApproval, risk, PrivilegedRequiresApproval, false)
    else
      Verdict(RequireApproval, risk, DestructiveRequiresConfirmation, true)
  }

  /** The authority every started tool must have, read off the objective and the
      settings rather than off the rule chain. */
  predicate Authorised(allowApprovals: bool, tool: string, risk: RiskLevel, ctx: Context) {
    && (ctx.known == {} || tool in ctx.known)
    && tool !in ctx.disabled
    && risk.Rank() <= ctx.maxRisk.Rank()
    && (ctx.dryRun ==> risk == Read)
    && (!allowApprovals ==> risk.Rank() <= Write.Rank())
  }

  /** The chain refuses exactly the calls without that authority, lets an
      authorised call through unasked exactly when it reads or writes inside the
      workspace, and asks for the phrase exactly at DESTRUCTIVE. */
  lemma EvaluateMeetsAuthority(allowApprovals: bool, tool: string, risk: RiskLevel, ctx: Context)
    ensures var v := Evaluate(allowApprovals, tool, risk, ctx);
            && (v.decision != Deny <==> Authorised(allowApprovals, tool, risk, ctx))
            && (v.decision == Allow <==>
                  Authorised(allowApprovals, tool, risk, ctx) && (risk == Read || (risk == Write && !ctx.outside)))
            && (v.phrase <==> v.decision == RequireApproval && risk == Destructive)
            && (v.decision != Deny ==> v.risk == risk)
  {
  }

  /** What each rule says about the call it was applied to. */
  predicate Applies(rule: Rule, allowApprovals: bool, tool: string, risk: RiskLevel, ctx: Context) {
    match rule
    case UnknownTool => ctx.known != {} && tool !in ctx.known
    case ToolDisabled => tool in ctx.disabled
    case DryRun => ctx.dryRun && risk != Read
    case RiskCeiling => risk.Rank() > ctx.maxRisk.Rank()
    case ReadAllowed => risk == Read
    case ApprovalsDisabled => !allowApprovals && risk.Rank() > Write.Rank()
    case WriteOutsideWorkspace => risk == Write && ctx.outside
    case WriteInWorkspace => risk == Write && !ctx.outside
    case PrivilegedRequiresApproval => risk == Privileged && allowApprovals
    case DestructiveRequiresConfirmation => risk == Destructive && allowApprovals
  }

  /** The rule named in the verdict applies, and no refusing rule that comes before
      it does. */
  lemma RuleNamesItsReason(allowApprovals: bool, tool: string, risk: RiskLevel, ctx: Context)
    ensures var v := Evaluate(allowApprovals, tool, risk, ctx);
            && Applies(v.rule, allowApprovals, tool, risk, ctx)
            && forall r: Rule :: Refusing(r) && Applies(r, allowApprovals, tool, risk, ctx) ==>
                 v.decision == Deny && Place(v.rule) <= Place(r)
  {
  }

  /** The order in which the refusing rules are tried. */
  function Place(rule: Rule): nat {
    match rule
    case UnknownTool => 0
    case ToolDisabled => 1
    case DryRun => 2
    case RiskCeiling => 3
    case ApprovalsDisabled => 4
    case _ => 5
  }

  predicate Refusing(rule: Rule) {
    Place(rule) < 5
  }

  /** Raising the danger of a call never loosens the answer. */
  lemma DangerNeverLoosens(
      allowApprovals: bool, tool: string, low: RiskLevel, high: RiskLevel, ctx: Context)
    requires low.Rank() <= high.Rank()
    ensures var v, w := Evaluate(allowApprovals, tool, low, ctx), Evaluate(allowApprovals, tool, high, ctx);
            && (v.decision == Deny ==> w.decision == Deny)
            && (v.decision == RequireApproval ==> w.decision != Allow)
  {
  }
}
