# Verification of the Scrappy OS control plane

Scrappy OS lets language-model agents propose operations on a machine and puts a
policy engine, an approval gate, budgets and an audit trail between a proposal and
its execution. This project models that control plane in Dafny and proves what its
design promises, over every run, every interleaving and every input.

Check it with `dafny verify dfyconfig.toml`.

## What is modelled

- **Gated execution.** `Protocol` is the transition system of any number of `execute`
  calls, interleaved at their awaits with out-of-band answers, waiter timeouts, aborts
  and a monotone clock. `ProtocolInvariant` proves what holds in every reachable
  state, `ProtocolTheorems` the guarantees: no start without authority, each approval
  spent once on its own call, one ledger row and one closing event per call.
  `Executor` is the method as it is written, straight down, with every change shown to
  be a step of that system. `Approvals`, `Policy`, `Registry` and `Risk` are the parts
  it rests on; `Deadlines` says when, in a run, approvals are opened, answered and
  spent; `ApprovedRun` is one schedule in full.
- **The orchestration loop.** `Orchestrator` drives plan, review, execution,
  verification, replanning and recovery against agents, tools and a clock that may
  answer anything or raise. `Tasks` is the task state machine, `Limits` the budgets,
  `Cycles` the record of a run and what the budgets and the clock force on it,
  `Launches` what makes that record true of the calls handed to the executor, `Agents`
  what makes it true of the answers the agents gave, `Tallies` the bounds and the
  story of task events, `Overshoot` when the inference budget is a cap, `Runtime` the
  counters fed by the interleaved streams of all runs.
- **The credential lifecycle.** `Tokens` is the token format and the Authorization
  header, `Credentials` minting and status, `CredentialHistory` every completed
  history of create, revoke, rotate, prune and use with its audit trail,
  `CredentialTrail` that trail as it is stored and read back, `Authn` the
  authenticators, `CredentialService` the store with its transactions, the audited
  operations and the last-used hook.
- **Supporting algorithms.** `Paths` (containment, guards, filesystem tools),
  `FilesystemTools` (the same tools behind the gate), `CommandRisk` (the argv
  classifier), `Events` (drop-oldest subscriptions and the bus), `Redaction` (nested
  payloads and what the audit trail stores).

Code that only computes is modelled by functions, code that changes things by
classes and methods whose contracts tie the new state to such functions; the
theorems are lemmas about the functions and invariants of the methods. Nothing was
executed.

## Where code and documentation disagree

The model follows the code in each case.

- The ledger row of a call is written before its approval exists and only its outcome
  is updated later, so its approval columns stay empty (`LedgerNeverNamesApproval`),
  even when the approval was granted and spent (`ApprovedCallHasEmptyColumns`); they
  are right exactly for calls whose policy verdict, known before the first await, asks
  for no approval (`ColumnsAgreeUnlessGated`). docs/SECURITY.md lists the
  approval state among the recorded columns.
- The risk of a call is its classification alone; the declared ceiling counts only
  when classifying raises (`CeilingIsNotConsulted`), though the comment says the worse
  of the two wins. It wins exactly when the classification is no lower than the
  ceiling (`WorseWinsUnlessDowngraded`), and not on a deletion inside the workspace
  (`CeilingLosesOnDelete`, `DowngradeIsAllowed`).
- An unlisted binary without a forcing flag is READ (`ClassifyCommand`,
  `UnlistedIsReadUnlessForced`), though the docstring promises at least PRIVILEGED; a
  capital letter escapes every forcing pattern (`CapitalFlagEscapes`,
  `BundleIsForcingWithoutCapitals`), though a comment lists `-Rf`
  (`CommentedFlagEscapes`).
- The inference budget is checked at the top of each cycle and before each plan step,
  so agent turns overshoot it by up to three, the failing or recovering one included
  (`Orchestrator.Run`). What it counts is turns: a turn whose first output does not
  parse is repaired once (src/scrappy_os/models/base.py:117-158), so provider
  generations are at most twice every bound stated here. The budget is a cap exactly
  when the replan budget makes it a formality (`InferenceBudgetIsCap`), and the three
  are reached (`OvershootIsExact`).
- The stored audit trail masks an actor id that looks like a secret, such as
  `AKIA0123456789ABCDEF`, which creating a credential accepts; the trail says whose
  credential it was exactly for the others (`StoredTrailRebuildsTable`,
  `MaskedActorIsNotRebuilt`).
- Recovery steps check the time and step budgets only (`RunRecovery`).
- Closing a full subscription loses the end marker, and its consumer waits for ever
  (`CloseAndDrain`).
- The pattern for credential ids admits a trailing newline (`PatternAdmitsANewline`);
  no token that came through a header can carry one (`HeaderTokensAreStrict`).
- `history(limit=0)` returns everything (`LimitIsKeptWhenPositive`).
- A filesystem call classified above WRITE can be approved but never passes the guards
  (`GuardAgrees`).

## Assumptions

- Each method of the approval manager and each operation of the credential service is
  one atomic step; generated ids are fresh and never used again; the clock is
  monotone; the prompt answers the request it was shown.
- Publishing an event does not raise. Any other await of `execute` may, and then the
  call stays where it was torn down; the audit entry of a completed credential
  operation is written.
- The keyed hash, the digest, Unicode lower-casing and pattern masking are functions
  of which nothing is assumed, except in `CommandRisk`, where lower-casing keeps a
  leading dash and adds none, and in `CredentialTrail`, where it leaves the lower-case
  payload keys alone and no masking pattern matches the name of a scope or an actor
  type, the word `rotation` or a generated id.
- Nobody but a run publishes task events, or submits calls, under the id of its task;
  `Executor.ToolExecutor.Await` leaves room for everything else.
- Resolving a path is a fixed idempotent function for the length of one call.
- Only deliberate errors (subclasses of the system's own base error) are raised by
  agents, tools and storage inside a run.

## Model

Functions that only compute are covered by the rows of the lemmas and methods about them.

| member | source | states |
|---|---|---|
| `Policy.EvaluateMeetsAuthority` | src/scrappy_os/security/policy.py:121-209 | The rule chain refuses exactly the calls that are unregistered, disabled, above the ceiling, more than READ in a dry run, or above WRITE with approvals off; it allows unasked exactly READ, and WRITE inside the workspace; it asks for the phrase exactly at DESTRUCTIVE. |
| `Policy.RuleNamesItsReason` | src/scrappy_os/security/policy.py:121-209 | The rule named in a verdict applies to the call, and it is the first of the refusing rules that does. |
| `Policy.DangerNeverLoosens` | src/scrappy_os/security/policy.py:121-209 | Classifying the same call as more dangerous never turns a denial into anything else, nor a request for approval into a permission. |
| `Registry.AdmissionIsAuthority` | src/scrappy_os/tools/executor.py:123-189 | Resolve, validate, classify and judge together let through exactly the jobs with start authority, and unasked exactly those that read, or write with no affected path outside; the verdict speaks of the classified risk. |
| `Registry.CeilingIsNotConsulted` | src/scrappy_os/tools/executor.py:154-169 | While the classifier answers, tools that differ only in their declared ceilings are admitted alike. |
| `Registry.WorseWinsUnlessDowngraded` | src/scrappy_os/tools/executor.py:154-169 | The effective risk is the worse of ceiling and classification, as the comment says it always is, if and only if classifying raises or comes out no lower than the ceiling. |
| `Registry.DowngradeIsAllowed` | src/scrappy_os/tools/executor.py:154-187 | A concrete call under a DESTRUCTIVE ceiling is classified WRITE and allowed unasked under a WRITE objective, where the worse of the two would be denied. |
| `Paths.ClassifierAndEngineAgree` | src/scrappy_os/security/policy.py:169-213 | For mkdir, write, move and delete, WRITE is given exactly to calls whose every path, resolved, begins with the components of the workspace; DESTRUCTIVE exactly to deleting, or moving away from, a place outside it; the write-outside-workspace rule never fires; an unapproved run is contained. |
| `Paths.OutsideIsReported` | src/scrappy_os/security/policy.py:200-213 | The engine is told of a path outside exactly when some path the call would touch does not resolve, or resolves to components that do not begin with the workspace's. |
| `Paths.GuardAgrees` | src/scrappy_os/tools/filesystem.py:235-392 | The guards in `run` hand on exactly the resolved targets that begin with the components of the workspace, of no forbidden root, and are no symlinks, whatever was approved; so a call classified above WRITE never gets past them. |
| `FilesystemTools.UnapprovedStartIsContained` | src/scrappy_os/tools/filesystem.py:235-392 | In every run, a filesystem call that started and has no approval of its own affects only paths inside the workspace. |
| `FilesystemTools.CeilingLosesOnDelete` | src/scrappy_os/tools/filesystem.py:359-387 | Every deletion inside the workspace is WRITE, where the worse of ceiling and classification is DESTRUCTIVE. |
| `Paths.WriteGuardIsExact` | src/scrappy_os/security/paths.py:103-136 | A path is writable if and only if its text is clean and its resolved components are those of the workspace or of an extra root and then some, those of no forbidden root and then some, and it is not a symlink. |
| `Paths.ReadGuardIsExact` | src/scrappy_os/security/paths.py:76-100 | A path is readable if and only if its text is clean and its resolved components are those of an allowed root and then some, and those of no credential path and then some. |
| `CommandRisk.HasMutatingVerb` | src/scrappy_os/security/risk.py:191-201 | The scan finds a mutating verb after the first occurrence of the subcommand, or anywhere without one, and nothing else. |
| `CommandRisk.Subcommand` | src/scrappy_os/security/risk.py:161 | The subcommand is the first argument that does not start with a dash, lower-cased. |
| `CommandRisk.ScanStartsAtSubcommand` | src/scrappy_os/security/risk.py:191-201 | The first occurrence of the subcommand is the first undashed argument, so the verb scan covers exactly what follows it. |
| `CommandRisk.SubcommandTablesDisjoint` | src/scrappy_os/security/risk.py:100-129 | No subcommand is both mutating and read-only, and every binary with mutating subcommands is a listed binary. |
| `CommandRisk.ContainsMeta` | src/scrappy_os/security/risk.py:145-152 | True exactly when some token holds a shell metacharacter. |
| `CommandRisk.ContainsForcing` | src/scrappy_os/security/risk.py:183-186 | True exactly when some argument matches one of the four forcing patterns. |
| `CommandRisk.ForcingIsExactly` | src/scrappy_os/security/risk.py:88-93 | The forcing arguments are exactly the five spelled-out ones and a dash with lower-case letters that hold r and f. |
| `CommandRisk.MetaIsInfix` | src/scrappy_os/security/risk.py:145-152 | A token has a metacharacter if and only if it is something, the metacharacter, and something. |
| `CommandRisk.PrefixHitIsDotted` | src/scrappy_os/security/risk.py:157-159 | A destructive prefix catches the name itself and its dotted variants, and nothing else. |
| `CommandRisk.PathNameIsLast` | src/scrappy_os/security/risk.py:142 | Whatever the directory, a binary goes by the name after the last slash. |
| `CommandRisk.DirectoryDoesNotMatter` | src/scrappy_os/security/risk.py:132-188 | A command is READ, or DESTRUCTIVE, by its path exactly when it is by its bare name. |
| `CommandRisk.ClassifyListed` | src/scrappy_os/security/risk.py:163-181 | A listed binary is READ exactly when its first undashed argument is a read-only subcommand with no mutating verb after it, and PRIVILEGED otherwise. |
| `CommandRisk.ClassifyCommand` | src/scrappy_os/security/risk.py:132-188 | READ if and only if nothing in the command is dangerous, said without the order of the checks; DESTRUCTIVE if and only if it is empty, has a metacharacter, a destructive executable, or an unlisted binary with a forcing flag; never WRITE. |
| `CommandRisk.UnlistedIsReadUnlessForced` | src/scrappy_os/security/risk.py:183-188 | A concrete unlisted binary is READ, against the docstring; for all unlisted, non-destructive commands without metacharacters, READ if and only if no argument is forcing. |
| `CommandRisk.ShortFlagBundle` | src/scrappy_os/security/risk.py:89-91 | A bundle of lower-case short flags is forcing if and only if it holds both r and f. |
| `CommandRisk.CapitalFlagEscapes` | src/scrappy_os/security/risk.py:88-93 | An argument with a capital letter matches no pattern, though the comment lists -Rf as one that does. |
| `CommandRisk.BundleIsForcingWithoutCapitals` | src/scrappy_os/security/risk.py:88-93 | A bundle of short flags that holds r and f, in either case, is forcing if and only if it has no capital letter. |
| `CommandRisk.CommentedFlagEscapes` | src/scrappy_os/security/risk.py:88-93 | The flag -Rf itself, which the comment lists, is not forcing; -rf is. |
| `Approvals.RowRoundTrip` | src/scrappy_os/security/approvals.py:255-356 | Persisting a request and reading it back is lossless if and only if the phrase was asked for exactly at DESTRUCTIVE. |
| `Approvals.ResolveIsExact` | src/scrappy_os/security/approvals.py:102-165 | A pending request takes an answer while the clock is below its deadline, with the exact phrase where one is due; at or past the deadline it lapses; otherwise nothing changes. |
| `Approvals.ConsumeIsExact` | src/scrappy_os/security/approvals.py:197-226 | An approved request is spent while the clock is below its deadline, and lapses at or past it; otherwise nothing changes. |
| `Approvals.ResolveEvolves` | src/scrappy_os/security/approvals.py:102-165 | Resolving keeps every row what it was opened for and moves states only along the lifecycle, accepting answers only before the deadline. |
| `Approvals.ConsumeEvolves` | src/scrappy_os/security/approvals.py:197-226 | Spending keeps to the lifecycle and happens only before the deadline. |
| `Approvals.ExpireEvolves` | src/scrappy_os/security/approvals.py:228-234 | Expiry by a waiter keeps to the lifecycle. |
| `Approvals.ApprovalManager.Open` | src/scrappy_os/security/approvals.py:56-100 | Adds one PENDING row with the deadline; the returned request is the row read back when the phrase follows the risk. |
| `Approvals.ApprovalManager.Resolve` | src/scrappy_os/security/approvals.py:102-165 | Accepts an answer if and only if the request is pending, in time, and the phrase matches at DESTRUCTIVE; a late answer expires the request; every other refusal changes nothing. |
| `Approvals.ApprovalManager.Consume` | src/scrappy_os/security/approvals.py:197-226 | Succeeds if and only if the request is approved and in time, and then it is consumed; past its deadline it becomes expired. |
| `Approvals.ApprovalManager.Expire` | src/scrappy_os/security/approvals.py:228-234 | Expires a request only while it is pending. |
| `ProtocolInvariant.RunKeeps` | src/scrappy_os/tools/executor.py:105-437 | In every reachable state of any number of interleaved calls, outside answers, timeouts, aborts and ticks, the trace, ledger row and approval of each call are what its program counter says. |
| `ProtocolTheorems.NoStartWithoutAuthority` | src/scrappy_os/tools/executor.py:154-205 | Whatever tool started, anywhere, was registered, enabled, validly called, classified at or below its ceiling, READ in a dry run, and at most WRITE with approvals off. |
| `ProtocolTheorems.StartSpendsOwnApproval` | src/scrappy_os/tools/executor.py:207-295 | A call starts at most once; if its verdict asked for approval, only after spending an approval opened for that very call and granted through its own prompt. |
| `ProtocolTheorems.SpentStartsOwnCall` | src/scrappy_os/security/approvals.py:197-226 | A consumed approval belongs to exactly one call, which has started or stands between spending and starting. |
| `ProtocolTheorems.SpentEqualsGatedStarts` | src/scrappy_os/tools/executor.py:263-295 | In every run, consumed approvals are in bijection by call id with the approval-gated starts and the calls that stand between spending and starting, and exactly as many. |
| `ProtocolTheorems.OutOfBandNeverStarts` | src/scrappy_os/security/approvals.py:102-165 | An approval settled out of band is never consumed and its call never starts. |
| `ProtocolTheorems.DestructiveNeedsPhrase` | src/scrappy_os/security/approvals.py:126-140 | No DESTRUCTIVE request is ever approved or consumed without the exact phrase. |
| `ProtocolTheorems.RowsCarryTheVerdict` | src/scrappy_os/security/approvals.py:337-356 | The request rebuilt from a stored row asks for the phrase exactly when the policy verdict of its call did. |
| `ProtocolTheorems.ApprovalsEvolve` | src/scrappy_os/security/approvals.py:102-234 | One action of anyone moves approvals only along their lifecycle, never replaces an accepted answer, and lets only the owning call spend, before the deadline. |
| `ProtocolTheorems.NextActionEvolves` | src/scrappy_os/security/approvals.py:102-234 | The same for the next action of every run from the start. |
| `ProtocolTheorems.ApprovalsEvolveAlongRuns` | src/scrappy_os/security/approvals.py:102-234 | Along every continuation of every run, rows persist, keep what they were opened for, and reach only later lifecycle states. |
| `Deadlines.DeadlineCountsFromOpening` | src/scrappy_os/security/approvals.py:56-100 | In every run the deadline of every request is the clock at its opening plus the configured time. |
| `Deadlines.AnsweredInTime` | src/scrappy_os/security/approvals.py:102-165 | In every run every accepted answer is dated by the clock and lies from the opening of its request up to, but not at, its deadline. |
| `Deadlines.SpentInTime` | src/scrappy_os/core/models.py:366-369 | In every run every spent approval was opened, answered with yes and spent in that order, each before the deadline that its opening set. |
| `ProtocolTheorems.ReturnedCallIsClosed` | src/scrappy_os/tools/executor.py:359-437 | A call that returns leaves one ledger row whose success is the outcome, and exactly one of completed, failed or policy-denied in the trace. |
| `ProtocolTheorems.RowPrecedesEverything` | src/scrappy_os/security/audit.py:113-138 | Nothing a call writes or publishes precedes its ledger row; in particular no start does. |
| `ProtocolTheorems.LedgerNeverNamesApproval` | src/scrappy_os/security/audit.py:113-160 | The approval columns of every ledger row stay empty in every run, although docs/SECURITY.md lists the approval state among what is recorded. |
| `ProtocolTheorems.ColumnsAgreeUnlessGated` | src/scrappy_os/tools/executor.py:171-229 | The approval columns of a returned call say what the approvals table says if and only if the policy, asked before the first await, did not require approval. |
| `ApprovedRun.ApprovedCallHasEmptyColumns` | src/scrappy_os/tools/executor.py:105-321 | A concrete schedule: a call is asked about, granted, spent and run to success; its approval is consumed and its row names none. |
| `ProtocolTheorems.JobsPersist` | src/scrappy_os/tools/executor.py:105-112 | No action changes what a submitted call was asked to do. |
| `ProtocolTheorems.DonePersists` | src/scrappy_os/tools/executor.py:415-437 | No action of anyone changes a call that has returned, nor how it ended. |
| `Executor.ToolExecutor.Execute` | src/scrappy_os/tools/executor.py:105-355 | The straight-line method: every change it makes is a step of the transition system; it submits this call and no other, and no call joins its task meanwhile; it returns a call that is done, or the call was torn; success is a run that succeeded and denied exactly a refusal or malformed arguments; whatever started for it was authorised. |
| `Executor.ToolExecutor.OutsideStep` | src/scrappy_os/security/approvals.py:102-234 | Time passing, an out-of-band answer and a waiter giving up are steps of the transition system. |
| `Executor.ToolExecutor.Perform` | src/scrappy_os/tools/executor.py:123-189 | Resolve, validate and classify, recording the call before anything else. |
| `Executor.ToolExecutor.Decided` | src/scrappy_os/tools/executor.py:187-209 | Row, announcement and the branch the verdict dictates. |
| `Executor.ToolExecutor.Gated` | src/scrappy_os/tools/executor.py:208-283 | Open, ask, resolve, spend, then run; every way out ends the call as its route says. |
| `Executor.ToolExecutor.OpenRequest` | src/scrappy_os/tools/executor.py:210-229 | Opens one request for this call; without an approver the call goes no further. |
| `Executor.ToolExecutor.Settle` | src/scrappy_os/tools/executor.py:231-261 | An answer the manager refuses, or a store failure, ends the call; a refusal by the human declines it. |
| `Executor.ToolExecutor.Spend` | src/scrappy_os/tools/executor.py:263-283 | The call goes on only with its approval consumed. |
| `Executor.ToolExecutor.RunTool` | src/scrappy_os/tools/executor.py:285-321 | Announces the start, then the tool succeeds or fails. |
| `Executor.ToolExecutor.Finish` | src/scrappy_os/tools/executor.py:415-437 | Completes the ledger row, then publishes the one closing event. |
| `Tasks.TerminalIsLast` | src/scrappy_os/core/models.py:98-136 | On a legal path a terminal state can only be the last one. |
| `Tasks.Task.TransitionTo` | src/scrappy_os/core/models.py:159-174 | Moves along the table or stays put; raises exactly on an illegal move and then changes nothing; the path stays legal. |
| `Limits.TrailingIsTheRun` | src/scrappy_os/brain/limits.py:107-109 | The count of consecutive failures is the longest run of failures at the end. |
| `Limits.TaskBudget.CheckAll` | src/scrappy_os/brain/limits.py:100-105 | Raises for time if and only if time is up, else for the one counting budget that is exhausted first, else not at all. |
| `Limits.TaskBudget.RecordStep` | src/scrappy_os/brain/limits.py:107-109 | Keeps the step count the number of outcomes and the failure count their trailing run of failures. |
| `Cycles.BudgetsHold` | src/scrappy_os/brain/orchestrator.py:154-284 | Every admissible record of cycles keeps within the step budget, has at most one cycle more than replans, and overshoots the inference budget by at most two turns. |
| `Cycles.FailureLimitIsFinal` | src/scrappy_os/brain/orchestrator.py:222-245 | Once the trailing run of failures reaches its limit, no later cycle of the plan loop executes a single step. |
| `Cycles.StepLimitIsFinal` | src/scrappy_os/brain/orchestrator.py:222-245 | Once the step budget is used up, no later cycle executes a step. |
| `Cycles.PrefixIsDetermined` | src/scrappy_os/brain/orchestrator.py:222-245 | With the clock and exceptions out of play, how far a reviewed plan runs and why it stops is determined by the plan, the history and the outcomes. |
| `Cycles.ProgressExtends` | src/scrappy_os/brain/orchestrator.py:222-245 | A step that was affordable and was the next one of the plan extends the executed prefix; a denial ends it. |
| `Overshoot.InferenceBudgetIsCap` | src/scrappy_os/brain/orchestrator.py:154-284 | The inference budget caps the agent turns of every admissible record if and only if it is zero, or there is no time at all, or it is at least 3(max_replans+1)+1. |
| `Overshoot.OvershootIsExact` | src/scrappy_os/brain/orchestrator.py:154-284 | Where the replans leave room, an overshoot of exactly three is reached by some record, recovery included, if and only if the budget is not two. |
| `Tallies.Tally.CycleStaysWithin` | src/scrappy_os/brain/orchestrator.py:154-284 | A finished cycle keeps every bound of the record and leaves room for one more turn. |
| `Tallies.Tally.CycleRejected` | src/scrappy_os/brain/orchestrator.py:194-208 | A rejected plan is a cycle of two turns and no steps that goes round again. |
| `Tallies.Tally.CycleVerified` | src/scrappy_os/brain/orchestrator.py:247-252 | A verified cycle is recorded with its verdict and three turns. |
| `Tallies.Tally.ReplanReturnsToHead` | src/scrappy_os/brain/orchestrator.py:278-284 | Going round again costs exactly one replan and re-establishes the state at the top of the loop. |
| `Tallies.StoryClosesOnce` | src/scrappy_os/brain/orchestrator.py:316-448 | A finished story of task events has exactly one closing event, its last, and that event says how the task ended. |
| `Launches.LaunchIsAccounted` | src/scrappy_os/brain/orchestrator.py:288-312 | Whatever anyone does while a call runs, each line of the record stays true of the call it names, and a call that is the one new call of the task is accounted for, with the step it was launched for. |
| `Launches.NewCallsAreLaunched` | src/scrappy_os/brain/orchestrator.py:288-312 | The calls of the task that were not there before the run are exactly as many as the run launched, each with the tool, arguments, risk and limits of a step of its own. |
| `Launches.LaunchesAreForSteps` | src/scrappy_os/brain/orchestrator.py:288-306 | Each launched call carries the tool, the arguments and the expected risk of its own step, and the task, ceiling and dry-run flag of the objective. |
| `Launches.LineIsInLedger` | src/scrappy_os/security/audit.py:140-160 | The ledger row of the call a line names holds the line's tool and outcome, and a denial or no decision exactly if the line says denied. |
| `Agents.PendingIsRecorded` | src/scrappy_os/brain/orchestrator.py:183-252 | A cycle recorded with the plan and approval of the last review, and the verdict given, keeps the record cycle by cycle equal to what the agents answered. |
| `Agents.StepsAreSanctioned` | src/scrappy_os/brain/orchestrator.py:194-245 | Every step that was attempted, the one an exception broke off included, is a step of an answer in which Vishnu said approved, or of the plan Mahesh proposed. |
| `Agents.LastVerdictDecides` | src/scrappy_os/brain/orchestrator.py:247-284 | The last cycle concludes a run if and only if the last answer Vishnu gave to the verification was complete. |
| `Orchestrator.NewCallsAreSanctioned` | src/scrappy_os/brain/orchestrator.py:288-306 | So every new call of the task was submitted for a step some answer sanctioned, under the limits of the objective. |
| `Orchestrator.Orchestrator.ExecuteStep` | src/scrappy_os/brain/orchestrator.py:288-312 | One call to the executor and no other, with the step's own tool, arguments and expected risk, the task's id and the objective's limits; what it answers is how that call ended. |
| `Orchestrator.Orchestrator.TakeStep` | src/scrappy_os/brain/orchestrator.py:222-245 | A step runs only when no budget is exhausted; a stop names the exhausted one, TIME exactly if the clock reading with it is at the limit; the line recorded is true of the one call launched for it. |
| `Orchestrator.Orchestrator.TakePlanStep` | src/scrappy_os/brain/orchestrator.py:222-245 | The step taken is the next one of the plan, and the record of the cycle so far stays what the budgets admit. |
| `Orchestrator.Orchestrator.ExecutePlan` | src/scrappy_os/brain/orchestrator.py:218-245 | The calls launched are those of a prefix of the plan, in order, each ended as its line says; the plan is cut short only by a budget that is exhausted there, by the clock reading for TIME, by a refused or malformed call, or by an exception, which names the call it broke off. |
| `Orchestrator.Orchestrator.PlanAndReview` | src/scrappy_os/brain/orchestrator.py:167-204 | Two agent turns, counted when they answer; the plan is announced between them; Vishnu is shown Brahma's proposal cut to the steps that remain; the review returned has the steps he answered with and is approved exactly if he said so and there are some. |
| `Orchestrator.Orchestrator.VerifyCycle` | src/scrappy_os/brain/orchestrator.py:247-252 | Whatever the steps came to, the task moves to VERIFYING and one more turn is made; the verdict returned is the answer. |
| `Orchestrator.Orchestrator.ExecuteAndVerify` | src/scrappy_os/brain/orchestrator.py:206-252 | An approved plan ends on the record as a cycle of that review and that verdict, or torn, within bounds, and the record is that of the calls which ran. |
| `Orchestrator.Orchestrator.Proceed` | src/scrappy_os/brain/orchestrator.py:206-284 | Only the plan of the pending, approving review is executed, and its own verdict is acted on. |
| `Orchestrator.Orchestrator.Reject` | src/scrappy_os/brain/orchestrator.py:194-208 | A rejected plan is announced, recorded, and paid for with a replan. |
| `Orchestrator.Orchestrator.Act` | src/scrappy_os/brain/orchestrator.py:254-284 | Each verdict leads where it must: completed, failed, rolled back and failed, or round again at the price of a replan. |
| `Orchestrator.Orchestrator.CompleteTask` | src/scrappy_os/brain/orchestrator.py:316-345 | Completing never raises, and closes the story with the one completion. |
| `Orchestrator.Orchestrator.FailTask` | src/scrappy_os/brain/orchestrator.py:347-371 | Failing never raises from wherever an exception left the task, and closes the story with the one failure. |
| `Orchestrator.Orchestrator.TakeRecoveryStep` | src/scrappy_os/brain/orchestrator.py:406-415 | A recovery step runs unless the clock reading is at the time limit or the step budget is exhausted, whatever the other budgets say; its line is true of its call. |
| `Orchestrator.Orchestrator.RunRecovery` | src/scrappy_os/brain/orchestrator.py:401-415 | Recovery runs a prefix of its plan, call by call, under the time and step budgets only, shares the step budget with the plan loop, and counts its successes. |
| `Orchestrator.Orchestrator.RollBack` | src/scrappy_os/brain/orchestrator.py:373-448 | What runs in recovery is the plan Mahesh answered with; recovery ends in failure whatever it achieved, or in an exception that leaves the task open. |
| `Orchestrator.Orchestrator.OneTurn` | src/scrappy_os/brain/orchestrator.py:163-284 | One turn of the loop raises, ends the task, or returns to the top with one replan more; in each case the record has kept to every answer of the agents. |
| `Orchestrator.Orchestrator.Drive` | src/scrappy_os/brain/orchestrator.py:154-284 | The loop terminates, keeping to the agents' answers; an exception it raises is never an illegal transition, and one that names a budget names an exhausted one. |
| `Orchestrator.Orchestrator.Conclude` | src/scrappy_os/brain/orchestrator.py:130-146 | Whatever exception the loop raises, the run ends in one failure. |
| `Orchestrator.Orchestrator.StartsAreWithinObjective` | src/scrappy_os/brain/orchestrator.py:288-306 | Every tool started for the task since the run began, by whatever call, had start authority under the objective's ceiling and dry-run flag. |
| `Orchestrator.Orchestrator.LinesAreInLedger` | src/scrappy_os/brain/orchestrator.py:288-312 | Every line of a run's record is in the ledger under its own call, so the failures the budget counts are failures in the ledger. |
| `Orchestrator.Orchestrator.RunIsAccountedFor` | src/scrappy_os/brain/orchestrator.py:288-312 | The new calls of the task are exactly as many as the attempted steps of the record and at most max_plan_steps; each is sanctioned by an answer; every line is in the ledger. |
| `Orchestrator.Orchestrator.RunEndedAsTold` | src/scrappy_os/brain/orchestrator.py:316-371 | A finished run has one closing event, and it succeeded if and only if the last verdict answered was complete. |
| `Orchestrator.Orchestrator.Run` | src/scrappy_os/brain/orchestrator.py:100-150 | For all agents, tools and clocks: the run ends in COMPLETED or FAILED by legal transitions only, with one closing event, and succeeded if and only if Vishnu's last verdict was complete; cycle by cycle, plan and approval are those he answered with, shown Brahma's proposal cut to the steps that remain, and recovery ran what Mahesh answered; the run ends by a verdict, or by an exception from outside or from a budget that is exhausted, by the clock for TIME; the calls of its task since it began, and all it handed to the executor, are those of the attempted steps in order, each for a step an answer sanctioned and started, if at all, within the objective, and what is on record of them is in the ledger; there are at most max_plan_steps of them, at most max_replans+1 cycles, and at most min(max_model_calls+3, 3(max_replans+1)+1) agent turns. |
| `Runtime.CountsAreRuns` | src/scrappy_os/heart/runtime.py:322-330 | However the event streams of runs interleave, the completed and failed counts are the numbers of runs that ended each way. |
| `Runtime.CountsAreFinishedRuns` | src/scrappy_os/heart/runtime.py:322-330 | When every run tells a story that closes once, in full or in part, the two counts are the runs told to the end, by how each ended, and together the number of finished runs. |
| `Runtime.Runtime.CountersAreRuns` | src/scrappy_os/heart/runtime.py:322-330 | So each of the two counters is the number of runs that ended its way. |
| `Runtime.Runtime.CountersAreFinishedRuns` | src/scrappy_os/heart/runtime.py:322-330 | And completed plus failed is the number of finished runs. |
| `Runtime.Runtime.Track` | src/scrappy_os/heart/runtime.py:322-330 | Each counter stays the count of its event in the stream. |
| `Runtime.Runtime.Spawn` | src/scrappy_os/heart/runtime.py:233-252 | A spawned run joins the active ones, at the end. |
| `Runtime.Runtime.Forget` | src/scrappy_os/heart/runtime.py:258-260 | The active ids are those spawned and not yet forgotten, in order, however often one is forgotten. |
| `Tokens.ParseUndoesFormat` | src/scrappy_os/security/credentials.py:105-145 | Every id the pattern admits and every non-empty secret, underscores included, comes back from its token within the length limit, and is refused beyond it. |
| `Tokens.FormatUndoesParse` | src/scrappy_os/security/credentials.py:105-145 | Every accepted token is reprinted character for character. |
| `Tokens.AcceptsExactlyThePrinted` | src/scrappy_os/security/credentials.py:119-145 | The parser accepts exactly the printed tokens of admissible length. |
| `Tokens.FormatIsInjective` | src/scrappy_os/security/credentials.py:105-116 | No token has two readings. |
| `Tokens.JoinUndoesSplit` | src/scrappy_os/security/credentials.py:134 | Splitting at underscores loses nothing, for any limit. |
| `Tokens.PatternAdmitsANewline` | src/scrappy_os/security/credentials.py:64-65 | A concrete id that ends in a newline matches the pattern and is not well-formed. |
| `Tokens.PatternIsExactButForNewlines` | src/scrappy_os/security/credentials.py:64-65 | The pattern is the documented shape if and only if the id has no newline. |
| `Tokens.IdShape` | src/scrappy_os/security/credentials.py:64-103 | A well-formed id is the prefix and twelve digits of lower-case hexadecimal, and nothing else. |
| `Tokens.LayoutIsAccepted` | src/scrappy_os/security/authn.py:185-206 | Scheme in any case, white space, token, with white space around: accepted, with exactly that token. |
| `Tokens.AcceptedHasLayout` | src/scrappy_os/security/authn.py:185-206 | Nothing else is accepted. |
| `Tokens.SchemeIsBearer` | src/scrappy_os/security/authn.py:185-206 | The scheme is the one word, each letter in either case. |
| `Tokens.HeaderTokensAreStrict` | src/scrappy_os/security/authn.py:345-354 | A token that came through a header carries a well-formed id, so the newline the pattern admits never reaches the store by that way. |
| `Tokens.IssuedTokenSurvivesHeader` | src/scrappy_os/security/authn.py:185-206 | Every token made of a generated id and a URL-safe secret survives an Authorization header and parses back. |
| `Credentials.StatusOnlyGetsWorse` | src/scrappy_os/security/credentials.py:224-239 | A credential that is not usable is never usable later, and revoked stays revoked. |
| `Credentials.IssueIsExact` | src/scrappy_os/security/credentials.py:304-337 | Minting goes through if and only if the key is set, the expiry lies ahead and the fields are within limits; the record holds the keyed hash of the drawn secret, dated now, unrevoked and unused. |
| `Credentials.IssuedIsUsable` | src/scrappy_os/security/credentials.py:304-337 | What is issued is usable at once, speaks for its holder, stores the keyed hash of its own secret, and its token reads back. |
| `CredentialHistory.TrailRebuildsTable` | src/scrappy_os/security/credential_service.py:75-261 | After every history, folding the trail of lifecycle entries, as they are handed over and before redaction, rebuilds the live table: ids, actor, type, scopes and revocation date, the first revocation standing. |
| `CredentialTrail.StoredTrailRebuildsTable` | src/scrappy_os/security/credential_service.py:75-101 | Folding the trail as it is stored rebuilds the live table with the actor ids masked as redaction masks them; it rebuilds it exactly if and only if no pattern matches the actor id of a live credential. |
| `CredentialTrail.RedactionMasksTheActor` | src/scrappy_os/security/audit.py:68-71 | Redaction takes from a lifecycle payload nothing but what it masks of the actor id. |
| `CredentialTrail.ReadUndoesPayload` | src/scrappy_os/security/credential_service.py:75-101 | Every lifecycle entry is read back from its payload. |
| `CredentialTrail.MaskedActorIsNotRebuilt` | src/scrappy_os/security/credential_service.py:103-130 | A credential created for an actor id in the shape of an access key is not rebuilt from the stored trail. |
| `CredentialHistory.ReplayPrunings` | src/scrappy_os/security/credential_service.py:255-261 | Replaying the prune entries removes exactly the pruned ids. |
| `CredentialHistory.RowsOnlyAge` | src/scrappy_os/security/credential_store.py:178-236 | Along every history a row only gains a revocation date and a last use; a date is never rewritten; a pruned id never comes back. |
| `CredentialHistory.PruneRemovesTheRetired` | src/scrappy_os/security/credential_service.py:218-261 | A prune removes exactly the credentials revoked before the cutoff, and those never revoked that have expired, before the cutoff too. |
| `CredentialHistory.VerifierIsOfDraw` | src/scrappy_os/security/credentials.py:304-337 | In every history the verifier stored under an id is the keyed hash of the secret drawn with it. |
| `CredentialHistory.RotationKeepsHolder` | src/scrappy_os/security/credential_service.py:155-216 | Along any chain of rotations, actor, type, display name and scopes are those of the original creation. |
| `CredentialHistory.RotationIsAllOrNothing` | src/scrappy_os/security/credential_store.py:199-220 | A rotation adds exactly the replacement and revokes the original if asked and not yet revoked, or changes nothing. |
| `CredentialService.CredentialStore.Create` | src/scrappy_os/security/credential_store.py:152-158 | Inserts a row under a new id, or fails and changes nothing. |
| `CredentialService.CredentialStore.Revoke` | src/scrappy_os/security/credential_store.py:178-191 | Dates the revocation once; revoking again keeps the first date. |
| `CredentialService.CredentialStore.UpdateLastUsed` | src/scrappy_os/security/credential_store.py:193-197 | Touches the last use of one row and nothing else. |
| `CredentialService.CredentialStore.Rotate` | src/scrappy_os/security/credential_store.py:199-220 | Whichever statement of the transaction fails, the table is as it was; otherwise both took effect. |
| `CredentialService.CredentialStore.DeleteMany` | src/scrappy_os/security/credential_store.py:222-236 | All the rows go, or none. |
| `CredentialService.CredentialStore.Rollback` | src/scrappy_os/memory/store.py:264-285 | The table the connection sees is again the committed one. |
| `CredentialService.CredentialStore.CountActive` | src/scrappy_os/security/credential_store.py:238-241 | Counts exactly the credentials usable at that moment. |
| `CredentialService.CredentialService.Create` | src/scrappy_os/security/credential_service.py:103-130 | Completes as one operation of the history, or fails and leaves table and trail alone. |
| `CredentialService.CredentialService.Revoke` | src/scrappy_os/security/credential_service.py:141-153 | The same; not found if and only if there is no such row. |
| `CredentialService.CredentialService.Rotate` | src/scrappy_os/security/credential_service.py:155-216 | The same, issuing for the holder of the original. |
| `CredentialService.CredentialService.Prune` | src/scrappy_os/security/credential_service.py:218-261 | Prunes exactly the retired credentials; refuses if and only if there are some and the store cannot delete; leaves everything alone when it fails. |
| `CredentialService.CredentialService.FindDoomed` | src/scrappy_os/security/credential_service.py:232-239 | The loop collects exactly the credentials that are not usable and stopped being so before the cutoff, each once. |
| `CredentialService.CredentialAuthenticator.Authenticate` | src/scrappy_os/security/authn.py:345-381 | The answer is decided by the rows before the call; noting the use afterwards dates one row, and only when the last use noted is at least five minutes back. |
| `Authn.LastMatchIsLast` | src/scrappy_os/security/authn.py:243-256 | Among configured tokens the last with the presented digest stands. |
| `Authn.StaticTokenAuthenticator.Authenticate` | src/scrappy_os/security/authn.py:231-257 | The loop that compares every token answers with the last match, or that it is unknown. |
| `Authn.AuthenticatesWhileInForce` | src/scrappy_os/security/authn.py:345-396 | In every history, an issued token authenticates at t, as exactly its holder, if and only if its credential was not withdrawn and t is before its expiry; otherwise the client learns only that it is unknown. |
| `Authn.SecretDecides` | src/scrappy_os/security/authn.py:345-396 | In every history, whatever secret is presented under an issued id: it authenticates if and only if its keyed hash is that of the drawn secret and the credential is in force; otherwise the client learns only that it is unknown. |
| `Authn.OnlyItsSecretAuthenticates` | src/scrappy_os/security/authn.py:345-381 | Whoever authenticates with a stored credential presented a secret with the keyed hash of the one drawn by the one operation that issued it. |
| `Authn.ConfiguredTokensSpeakForOthers` | src/scrappy_os/security/authn.py:345-396 | A configured token is accepted only where the presented one is not shaped like a credential's and has its digest; the last such token speaks. |
| `Authn.HeaderDecidesFirst` | src/scrappy_os/security/authn.py:185-206 | An absent or blank header is missing, one that is not a bearer scheme and a token is malformed, and nothing else is either. |
| `Authn.AuthenticatesAsOrigin` | src/scrappy_os/security/authn.py:345-381 | Whoever a stored credential authenticates is the holder the first credential of its rotation chain was created for. |
| `Authn.PruneIsInvisible` | src/scrappy_os/security/credential_service.py:218-261 | For every header and every moment from the prune on, the client gets the same answer before and after it, and the same credentials count as active. |
| `Authn.IssuedIsKept` | src/scrappy_os/security/credential_store.py:178-236 | What the table says of an issued credential after any history: its own data, revoked exactly if withdrawn, gone only if withdrawn or expired. |
| `Events.SelectedIsSubsequence` | src/scrappy_os/core/events.py:92-99 | Delivered events are a subsequence of the accepted ones, and delivered plus dropped is everything no longer queued. |
| `Events.Subscription.Offer` | src/scrappy_os/core/events.py:119-131 | An open subscription takes every matching event; full, it drops exactly its oldest. |
| `Events.Subscription.Get` | src/scrappy_os/core/events.py:133-135 | Hands over the head of the queue, the end, or waits. |
| `Events.Subscription.Close` | src/scrappy_os/core/events.py:137-144 | The end marker joins the queue if and only if there is room for it. |
| `Events.Subscription.Drain` | src/scrappy_os/core/events.py:157-162 | Iterating hands over exactly the outstanding events in order, and ends if and only if the marker is queued. |
| `Events.CloseAndDrain` | src/scrappy_os/core/events.py:137-162 | Closed with room, a subscription hands over the rest and ends; closed when full, it hands over the same and never ends. |
| `Events.LatestAreLast` | src/scrappy_os/core/events.py:181-198 | What history keeps are the last events published, as many as it may. |
| `Events.InProcessEventBus.Subscribe` | src/scrappy_os/core/events.py:209-220 | A new subscription starts empty, with the given filter and bound. |
| `Events.InProcessEventBus.Publish` | src/scrappy_os/core/events.py:181-198 | History keeps the latest events; every open matching subscription accepts the event, whatever the others do. |
| `Events.InProcessEventBus.History` | src/scrappy_os/core/events.py:225-227 | Recent events of the task, oldest first, cut as a negative slice cuts. |
| `Events.OfTaskKeepsOrder` | src/scrappy_os/core/events.py:225-227 | Filtering by task takes each event or leaves it, in the order they came. |
| `Events.LimitIsKeptWhenPositive` | src/scrappy_os/core/events.py:225-227 | A positive limit gives the latest so many, zero gives everything, a negative one all but the first so many; the limit is kept if and only if it is positive, or zero with nothing to return. |
| `Redaction.NonInterference` | src/scrappy_os/observability/redaction.py:102-131 | Payloads that differ only in non-null values under sensitive keys, or deeper than redaction looks, redact to equal trees. |
| `Redaction.StoredRowsDoNotInterfere` | src/scrappy_os/security/audit.py:68-160 | So the stored payload, its preview and its digest are the same, and the stored output of a call too. |
| `Redaction.StoredWholeOrSummed` | src/scrappy_os/security/audit.py:68-160 | A payload is stored whole up to 4000 characters of encoding; a longer one as its size, digest and first 500 characters. |
| `Redaction.RedactedIsClean` | src/scrappy_os/observability/redaction.py:102-131 | In a redacted tree there is nothing under a sensitive key but the marker or null, at any depth. |
| `Redaction.SensitiveKeysAreThese` | src/scrappy_os/observability/redaction.py:77-82 | A key is sensitive if and only if, lower-cased, it is something, one of the parts, and something, and is not on the exempt list. |
| `Redaction.SecretsAreMasked` | src/scrappy_os/observability/redaction.py:102-114 | Under such a key the result holds the marker whatever the value was, and null only for null. |
| `Redaction.TextIsMasked` | src/scrappy_os/observability/redaction.py:85-131 | Text comes out as the patterns mask it; beyond 8192 characters it is cut there and its length noted. |
| `Redaction.RedactedIsShallow` | src/scrappy_os/observability/redaction.py:92-108 | However deep the payload, the redacted tree is bounded in depth. |
| `Redaction.LastValueStands` | src/scrappy_os/observability/redaction.py:106-114 | Under each printed key the result holds the redaction of the last value given under it, and nothing under any other key. |
| `Redaction.DistinctKeysKeepTheirPlaces` | src/scrappy_os/observability/redaction.py:106-114 | Keys that print differently keep their number and order, each with its own value redacted. |
| `Redaction.PlainIsUntouched` | src/scrappy_os/observability/redaction.py:102-131 | A payload with nothing to hide or truncate comes out exactly as it went in. |
| `Redaction.RedactMapping` | src/scrappy_os/observability/redaction.py:106-114 | The loop that fills the result mapping computes the redaction; keys that print alike collapse to the last. |
| `Redaction.RedactValue` | src/scrappy_os/observability/redaction.py:102-131 | The recursive method computes the redaction of any tree. |

## Left out

- The HTTP routes, command line, doctor and terminal formatting: plumbing over what is modelled.
- Model providers, prompts and parsing of model output: agents are oracles that answer anything of the right shape, or raise.
- Tool bodies that touch the machine: a tool succeeds, fails, times out or crashes; what it does to files, processes or the network is not modelled.
- SQLite itself: tables are maps; a statement may fail and then changes nothing; a commit does not fail.
- Waiter futures of the approval manager: only the effect of a waiter's timeout on the table is modelled.
- Text shown to humans: summaries, reasons, operation descriptions, prompts and conclusions.
- Task ids, arguments, actors and timestamps of ledger rows: a row keeps tool, risk, decision, rule, approval columns and outcome.
- The order in which credentials are listed: newest first in the source, any order here; the trail of a prune follows it.
- Unknown scope names dropped when a row is read: every stored scope is known.
- Handlers of the event bus and their error counter: subscriptions and history only.
- Sets inside payloads and the credential-shaped patterns of free text: mappings, lists, strings, bytes and scalars only.
- Columns an audit row promotes from a payload before redaction: only the payload, preview and digest columns are modelled.
- Task cancellation, runtime shutdown, `submit`, and exceptions outside the system's own error class.
- Encoding of audit payloads as text, and the digest that replaces a payload longer than the stored maximum: `CredentialTrail` reads payload trees back as they were redacted.
- Overshoot.InferenceBudgetIsCap: is about records that the budgets and the clock admit, which every run leaves; that some run of the loop leaves each such record is not shown.
- Metadata of credentials other than what they were rotated from, and the administrator recorded beside each lifecycle event.
- Settings, heartbeat, logging, working, semantic and episodic memory beyond the possibility that remembering an observation raises.
- Plan renumbering and risk summaries of plans: computed for display.
- Executor.ToolExecutor.Await: performs the steps of outsiders only; those of other calls are left to its contract, which allows anything the transition system allows but calls submitted under the task of the waiting one.
- Executor.ToolExecutor.RunTool: does not model how long a tool may run; a timeout is one of its failures.
- Orchestrator.Orchestrator.PlanAndReview: does not relate the steps Vishnu answers with to those he was shown; the code does not compare them, and he may answer with any.
- Authn.AuthenticatesWhileInForce: is stated for moments not before the latest prune's own notion of now, because a prune run with a clock ahead of the authenticator's removes credentials early.
- Authn.SecretDecides: has the same restriction, for the same reason; Authn.OnlyItsSecretAuthenticates has none.
