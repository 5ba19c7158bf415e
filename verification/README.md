# Verified model of CADRIG's transactional and budgeted cores

CADRIG lets a language model edit CAD documents through validated action plans, and runs large
benchmark cohorts of such edits under token and cost budgets. This project models the parts of it
that have to be right over whole runs, and proves what they promise.

| files | what they model |
|---|---|
| `Contracts.dfy` | actions, plans, snapshots, receipts, JSON values under Python equality |
| `MemoryAdapter.dfy`, `MemoryHistory.dfy`, `MemoryKernel.dfy` | the in-memory kernel: optimistic concurrency, dry runs, atomic application, conflict-checked rollback; first on values, then over histories, then as objects that are copied and changed in place |
| `Verification.dfy`, `PlannedEffects.dfy`, `Tracing.dfy`, `NativeAgent.dfy`, `AgentSafety.dfy`, `AgentMeaning.dfy` | the contract verifier, what it finds of a plan's actions, replay traces, and the agent's preview, commit, verify and rollback loop |
| `CohortLedger.dfy`, `CohortProtocol.dfy`, `CohortSafety.dfy`, `CohortTheorems.dfy`, `CohortBudget.dfy`, `CohortOverruns.dfy`, `CohortStatus.dfy`, `CohortPublication.dfy`, `CohortWitnesses.dfy`, `CohortRunner.dfy` | the resumable scheduler: its ledger, a transition system with a durable and a volatile copy and a crash between any two saves, its invariants, what each step writes, the spending theorem, overruns and orphans with their exact conditions and concrete runs, and the scheduler's loop as runs of that system |
| `BatchPlan.dfy`, `Sorting.dfy`, `ComplexityBands.dfy`, `BatchAssignment.dfy`, `PlannedBatches.dfy` | the planner above it: capacities, complexity bands by rank, the greedy assignment, and budgets that suffice for the scheduler |
| `TokenCap.dfy`, `UsageEvidence.dfy` | the capped model client below it, and the evidence by which an attempt is charged |
| `Matrix.dfy` | many cohorts side by side |
| `CandidateGate.dfy`, `Publication.dfy` | acceptance with backup and restore of candidate files, and which candidate becomes canonical |
| `MeshRegions.dfy`, `MeshEdits.dfy` | connected mesh regions and the vertex moves built on them |
| `ProcessLock.dfy` | the lock file shared by processes that may crash at any step |
| `FreeCadPreflight.dfy`, `NativeMeaning.dfy`, `ExportRoots.dfy` | the native adapter's static check against its executor, both by kind of action, and the choice of export roots |

Code that changes things in place is a class or a method with loops, proved against a function or a
relation on values; the lemmas are about those. What such a function computes is said once more without
it, in terms of its inputs alone, mostly in lemmas named after that (`SelectedMeaning`, `RunMeaning`,
`ExecutionMeaning`), so that a function and the method that mirrors it cannot both be wrong. Concurrency and crashes are step relations, and a
property of runs is stated for every sequence of steps. Theorems meet across modules: a capped client
makes a compliant attempt (`UsageEvidence`), compliant attempts keep every cohort within its budgets
through any crashes (`CohortBudget`), planned batches and matrix cells are such cohorts
(`PlannedBatches`, `Matrix`), and what is published is what the gate accepted (`Publication`).

Check everything with `dafny verify dfyconfig.toml`.

## Findings

Where the code does less than its surroundings suggest, the code is modelled as it is, the gap is stated
or shown on a concrete run, and the exact condition is proved where there is one.

- Settled usage replaces a reservation even when it is larger (`scheduler.py:490`), so debits alone can
  pass a budget (`CohortWitnesses.DebitsCanExceedBudget`): in some state of a run exactly when a saved
  outcome overruns (`CohortOverruns.DebitsFitIffNoOverrun`). `CohortTheorems.LedgerSafety` bounds, without any
  hypothesis, the debits counted up to their reservations; `CohortBudget.CrashSafeBudget` bounds debits and
  true spend for providers that respect the per-attempt cap.
- A published candidate can be left without any record that its task completed, and then the task never
  completes and every later verified session of it raises (`CohortPublication.OrphanedForever`). There are
  two causes: a crash after publishing and before saving, and, with no crash at all, a published candidate
  that is not found when it is read back (`scheduler.py:520`). A run leaves no orphan exactly when neither
  happens (`CohortPublication.OrphansIffAbandoned`; runs for both in `CohortWitnesses`).
- The lock is not exclusive when two contenders reclaim at once, nor when an owner read alive ends and
  the lock passes on before it is checked (`ProcessLock.TwoReclaimersCanBothEnter`,
  `ProcessLock.OwnerEndingMeanwhileCanBreakExclusion`). It is exclusive, with every holder's file present,
  exactly when each reclaiming unlink hits the file that was judged or a free lock
  (`ProcessLock.ExclusionIffUnlinksSafe`).
- A feature id of more than 128 characters passes validation and application, and then the snapshot raises
  instead of reporting (`memory.py:165`, `contracts.py:194`); the exception leaves the agent's run
  (`AgentSafety.LongIdEscapes`). `MemoryHistory.RaisingCalls` gives the exact condition; nothing is written.
- A proposal can raise what the planner does not catch, such as a list of actions that are no objects; an
  exception there leaves the run as well (`NativeAgent.NativeCADAgent.Run`).
- A refused run may report a newer plan with an older receipt (`AgentSafety.RefusalCanReportApart`), exactly
  when the newer plan failed its preflight (`AgentSafety.RefusalReports`).
- The client's consumption and its ledger agree exactly when no provider call reports a negative total
  (`TokenCap.ConsumedMatchesLedger`): the ledger clamps and the consumption does not, as in
  `TokenCap.NegativeTotalSplitsAccounts`.
- An attempt without any answered call leaves no ledger file, and its evidence is then whatever the trace
  says: exact if and only if the trace reports no tokens (`UsageEvidence.CappedAttemptIsCompliant`).
- A gate turn keeps working and accepted candidates equal exactly under the condition of
  `CandidateGate.AgreesIffBehaves`; in particular an execution that changes a candidate without reporting
  it breaks the agreement, and a done signal is still believed (`CandidateGate.UnreportedChangeIsBelieved`).
- Later trust is by program text, not by execution: `Publication.PublishedProgramWasAccepted` says what
  that gives, and `Publication.RerunTextIsPublished` is a run whose published file no turn was accepted with.
  The file itself is the newest accepted one exactly when it equals the gate's backup at that point
  (`Publication.PublishedContentIsBackup`), which `Publication.PublishedContentWasAccepted` derives for turns
  that behave.
- The native adapter's check can raise instead of reporting, on a list or an object where a name is
  expected (`freecad.py:543`, `freecad.py:565`): exactly when `FreeCadPreflight.CrashMeaning` says, as on the
  plan of `FreeCadPreflight.UnhashablePlaneCrashes`.
- A deletion keeps the check's view of the document right exactly when no other object shares the id
  (`FreeCadPreflight.DeletionPredictedIffUnshared`; a document with a shared id in
  `FreeCadPreflight.SharedIdSurvivesDeletion`).
- A native step that stops at a later item leaves the earlier items in the sketch until the transaction is
  aborted (`FreeCadPreflight.StopLeavesEarlierItems`, `FreeCadPreflight.StopCanLeaveAShape`).

## Model

| member | source | states |
|---|---|---|
| `Contracts.OfKindOnlyFirst` | src/cadrig/adapters/memory.py:109-118 | a plan meets the creation rule of a missing document exactly when its first action creates the document and no later one does |
| `Contracts.WhitespaceCodes` | src/cadrig/contracts.py:59-61 | the characters a name may not consist of alone are exactly the Unicode white space, by code point |
| `MemoryAdapter.DiagnoseMeaning` | src/cadrig/adapters/memory.py:84-129 | validation reports nothing exactly when every kind is supported, the plan's base revision is the current one, and the document is created if and only if it is missing, first and once |
| `MemoryAdapter.DiagnoseCodes` | src/cadrig/adapters/memory.py:84-129 | validation reports exactly: each unsupported action by its own id, a stale base revision, a missing document that is not created first and once, and, by the id of its first creation, a document that exists; and nothing else |
| `MemoryAdapter.ActionTouchesOnlyItsSubject` | src/cadrig/adapters/memory.py:234-319 | an action that succeeds leaves revision, identity, order and every feature but its own untouched; an addition makes its feature, a deletion removes it, an edit keeps it |
| `MemoryAdapter.RefusalMeaning` | src/cadrig/adapters/memory.py:234-319 | an action is refused exactly for the first check that fails, with its own action id: unsupported kind, unknown target, duplicate id, parameter the target does not have, or malformed addition or non-positive value; each code if and only if its condition holds, and no other code |
| `MemoryAdapter.CreationMeaning` | src/cadrig/adapters/memory.py:234-249 | a creation makes an empty document at revision 0, and without a document every other action is refused |
| `MemoryAdapter.ApplyActionsTidy` | src/cadrig/adapters/memory.py:148-151 | whatever plan succeeds on a document with unique feature ids and complete positive parameters leaves such a document |
| `MemoryAdapter.ExecutionMeaning` | src/cadrig/adapters/memory.py:131-184 | a refused plan writes nothing, shows its document twice and says why: what validation reports or the first action that fails; an accepted one shows what its actions build one by one, at the next revision, and stores it with an undo record unless the call is a dry run; the call raises exactly when that document has a blank id or one of more than 128 characters |
| `MemoryAdapter.RaisesIffUnlistableAddition` | src/cadrig/adapters/memory.py:163-165 | taking the snapshot of the built document raises exactly when the plan would otherwise be accepted and one of its additions has an id that is no identifier of at most 128 characters |
| `MemoryHistory.HistoryRefinement` | src/cadrig/adapters/memory.py:131-217 | after any interleaving of executions, dry runs, rollbacks and calls that raise, over any documents, each stored document is its surviving plans applied in order, its undo records expect revisions 1 to current, and record k restores the state after k - 1 survivors |
| `MemoryHistory.RollbackIffNewest` | src/cadrig/adapters/memory.py:186-217 | in every history a rollback succeeds if and only if its receipt is the newest surviving application of some document, however often revision numbers were reused |
| `MemoryHistory.RollbackDiscardsOnlyNewest` | src/cadrig/adapters/memory.py:193-210 | a successful rollback discards exactly the newest application of one document; every other document keeps state and history |
| `MemoryHistory.RollbackReceipts` | src/cadrig/adapters/memory.py:186-217 | in every history a rollback that succeeds names the plan it undoes and shows the document as it was and as it is now; one that fails writes and shows nothing, and is a conflict exactly when its receipt belongs to a surviving application that is not the newest, otherwise an unknown receipt |
| `MemoryHistory.HistoryIsObservable` | src/cadrig/adapters/memory.py:79-82 | in every history every stored and every saved document can be listed, so observation and rollback never raise |
| `MemoryHistory.RaisingCalls` | src/cadrig/contracts.py:194-196 | in every history a call raises if and only if its plan is accepted but for an addition that cannot be listed, and then it writes nothing |
| `MemoryKernel.AddFeatureTo` | src/cadrig/adapters/memory.py:267-302 | adding in place refuses what the specification refuses, in the same order of checks, and otherwise leaves exactly the specified document |
| `MemoryKernel.SetParameterIn` | src/cadrig/adapters/memory.py:304-319 | editing a parameter in place agrees with the specification, which touches one parameter of one feature |
| `MemoryKernel.DeleteFrom` | src/cadrig/adapters/memory.py:250-257 | deleting in place agrees with the specification, or fails and changes nothing |
| `MemoryKernel.ApplyTo` | src/cadrig/adapters/memory.py:234-265 | one action applied to the candidate object gives the specified document or the specified diagnostic; only creation makes a new object |
| `MemoryKernel.Document.TakeSnapshot` | src/cadrig/contracts.py:194-196 | the snapshot lists the document's features in order, or raises exactly when one has an id that is no identifier |
| `MemoryKernel.MemoryKernelAdapter.Observe` | src/cadrig/adapters/memory.py:79-82 | observation returns the stored document's snapshot, or nothing |
| `MemoryKernel.MemoryKernelAdapter.Validate` | src/cadrig/adapters/memory.py:84-129 | the loop collects exactly the specified diagnostics, whose emptiness DiagnoseMeaning characterizes |
| `MemoryKernel.MemoryKernelAdapter.BuildCandidate` | src/cadrig/adapters/memory.py:148-163 | all actions run on a private copy, so a plan is applied as a whole or not at all and the stored object never shows a partial plan |
| `MemoryKernel.MemoryKernelAdapter.Execute` | src/cadrig/adapters/memory.py:131-184 | the object-level execution of deep copies and dictionaries refines the value-level step of MemoryHistory, receipts and raising snapshots included |
| `MemoryKernel.MemoryKernelAdapter.Rollback` | src/cadrig/adapters/memory.py:186-217 | the object-level rollback refines the value-level step of MemoryHistory, receipts included |
| `Verification.Verify` | src/cadrig/verification.py:45-76 | the three loops report exactly the issues of the specification, in order |
| `Verification.RequirementMeaning` | src/cadrig/verification.py:78-122 | a requirement raises no issue exactly when it is a requirement kind whose declarative meaning holds of the states before and after |
| `Verification.InvariantMeaning` | src/cadrig/verification.py:124-156 | an invariant raises no issue exactly when it is an invariant kind and holds of the states before and after: a preserved feature has the same type, the same parameter names and values that are alike, a preserved parameter is alike, the feature count is within the delta |
| `Verification.RequirementIssueMeaning` | src/cadrig/verification.py:78-122 | which issue a failed requirement raises is determined by what the states show, code by code |
| `Verification.InvariantIssueMeaning` | src/cadrig/verification.py:124-156 | which issue a failed invariant raises is determined by its kind and by which states are missing |
| `Verification.ReportMeaning` | src/cadrig/verification.py:45-76 | a report carries the receipt's two snapshots and lists exactly the codes of a refused execution's diagnostics, or that it was refused without one, and what each failed requirement and invariant raises; it accepts exactly when it lists nothing |
| `Verification.EqualIsAlike` | src/cadrig/verification.py:134-150 | the equality of values is that of their kinds: numbers by value with a bool as one or zero, texts, arrays item by item, objects key by key |
| `Verification.EquivalentIsWithin` | src/cadrig/verification.py:158-165 | an actual value meets an expected one when both are numbers and no bools and differ by at most the tolerance, and otherwise when they are alike |
| `Verification.SameIsUnchanged` | src/cadrig/verification.py:134-141 | a feature counts as preserved exactly when type, parameter names and each value are unchanged |
| `Verification.AcceptedMeaning` | src/cadrig/verification.py:45-156 | a report accepts if and only if the receipt is accepted and every requirement and invariant means what holds |
| `Verification.VerdictIgnoresIdentity` | src/cadrig/verification.py:45-76 | two accepted receipts with the same snapshots get the same verdict, whatever their ids, kind or adapter |
| `Verification.PreservationChains` | src/cadrig/verification.py:134-150 | preserve_feature and preserve_parameter carried by every report of a chain hold from the first state to the last |
| `Verification.DeltaChains` | src/cadrig/verification.py:151-155 | max_feature_delta m carried by every one of n chained reports bounds the change of the feature count by n * m |
| `PlannedEffects.HistoryIsTidy` | src/cadrig/adapters/memory.py:131-217 | in every history every stored and every saved document has unique feature ids and complete positive dimensions |
| `PlannedEffects.LastActionIsVerified` | src/cadrig/adapters/memory.py:148-184 | in every history the verifier finds between the snapshots of an accepted receipt what the plan's last action set: the added feature with each of its dimensions, the edited parameter's new value, or the deleted feature's absence |
| `Tracing.TraceBuilder.Record` | src/cadrig/tracing.py:68-76 | recording appends one event numbered by the length so far, which keeps sequence numbers equal to positions |
| `Tracing.TraceBuilder.Finish` | src/cadrig/tracing.py:78-85 | the finished trace is the numbered word of everything recorded |
| `NativeAgent.NativeCADAgent.Run` | src/cadrig/native_agent.py:150-318 | a call is refused before planning exactly when the adapter is unknown or the contract does not compile; an exception leaves it exactly when a proposal or a preview snapshot raises before any preview is accepted; either way nothing is written, and otherwise it is failed attempts followed by one accepted preview with its conclusion, or by exhaustion |
| `NativeAgent.NativeCADAgent.Attempts` | src/cadrig/native_agent.py:203-318 | the repair loop makes at most max_repairs + 1 attempts, stops at the first accepted preview or the first exception, and reports the newest plan, receipt and report |
| `NativeAgent.NativeCADAgent.Attempt` | src/cadrig/native_agent.py:209-262 | up to its preview verification an attempt leaves the store alone, and it fails, passes or raises for exactly the first reason that applies |
| `NativeAgent.NativeCADAgent.Conclude` | src/cadrig/native_agent.py:263-307 | an accepted preview ends the run as a preview, or goes on to commit, verify again and undo |
| `NativeAgent.NativeCADAgent.CommitOrUndo` | src/cadrig/native_agent.py:274-307 | commit, second verification and rollback compose to the specified store and run |
| `NativeAgent.Publish` | src/cadrig/tracing.py:61-85 | recording the marks of a run one by one yields their numbered trace |
| `AgentSafety.ApplyThenRollback` | src/cadrig/adapters/memory.py:131-217 | rolling back the application just made restores documents and undo table exactly |
| `AgentSafety.NoNetEffectUnlessCommitted` | src/cadrig/native_agent.py:200-318 | for any planner and any verifier, with fresh receipt ids, a run that does not end committed leaves documents and undo table as they were |
| `AgentSafety.CommittedIsOneVerifiedExecution` | src/cadrig/native_agent.py:263-292 | a committed run changed the store by exactly one execution of its own plan, whose preview and receipt were both accepted |
| `AgentSafety.PreviewPredicts` | src/cadrig/adapters/memory.py:148-184 | a dry run and the real execution that follows it have the same snapshots, diagnostics and acceptance |
| `AgentSafety.PreviewAcceptedMeansCommitted` | src/cadrig/native_agent.py:240-307 | with the contract verifier an accepted preview is always committed: rolled back is unreachable, and a refusal always means the repair budget ran out |
| `AgentSafety.CommittedRunsPreserve` | src/cadrig/native_agent.py:263-292 | preservation invariants carried by any number of consecutive committed runs hold end to end, and a feature-delta bound m over k runs holds with bound k * m |
| `AgentSafety.WordOfRun` | src/cadrig/native_agent.py:200-318 | every run's trace is a word of the observe, compile, (failed attempt, repair)*, final attempt grammar, and the status of every event is that of the receipt, report or exception it stands for |
| `AgentSafety.TraceCounts` | src/cadrig/native_agent.py:200-318 | sequence numbers are positions, repair events are one fewer than attempts, and attempts are at most max_repairs + 1, with equality on exhaustion |
| `AgentSafety.ExecutionFollowsAcceptedPreview` | src/cadrig/native_agent.py:240-284 | a real execution directly follows the accepted verification of a preview of the same attempt, and there is at most one per run |
| `AgentSafety.RefusalReports` | src/cadrig/native_agent.py:205-318 | a run that exhausts its attempts reports the plan of the newest attempt that proposed one and the preview of the newest attempt that was previewed, and these are the same attempt exactly when the reported plan passes its preflight |
| `AgentSafety.RefusalPairsIffPreflightPassed` | src/cadrig/native_agent.py:205-318 | a refused run that reports a plan and a receipt pairs them whenever the plan passes its preflight and, unless the planner reuses a plan id, only then |
| `AgentSafety.OtherRunsReportTogether` | src/cadrig/native_agent.py:240-318 | every run that is not exhausted reports the plan of its last attempt with a receipt of that plan |
| `AgentSafety.RefusalCanReportApart` | src/cadrig/native_agent.py:224-234 | a run from an empty kernel, with one repair and a planner whose plans all pass the planner's own checks, that reports its second plan, which creates its document twice, with the receipt of its first |
| `AgentSafety.LongIdEscapes` | src/cadrig/adapters/memory.py:163-165 | a plan that passes every check and whose feature id of 129 characters makes the first preview raise out of the run |
| `AgentMeaning.RunMeaning` | src/cadrig/native_agent.py:203-318 | a run is decided by its last attempt: the first whose plan is admitted and whose dry run the verifier accepts, which is reported, and executed, verified again and, when executed but not accepted, undone as asked; or the last allowed one, and then it is refused and leaves everything alone |
| `AgentMeaning.EscapeMeaning` | src/cadrig/native_agent.py:203-262 | an exception leaves a run exactly when one of its allowed attempts raises and every earlier one neither succeeds nor raises |
| `AgentMeaning.TraceTells` | src/cadrig/native_agent.py:200-318 | the trace tells, attempt by attempt with a repair request between any two, whether a plan was proposed, admitted, previewed and accepted, and then the ending: an exhausted repair budget, or what became of the accepted preview |
| `CohortLedger.Recalculate` | src/cadrig/benchmarks/cadgenbench/scheduler.py:171-207 | the nested loops compute exactly the sums over all attempts of all fixtures, in tokens and in cost |
| `CohortLedger.ReconcileTask` | src/cadrig/benchmarks/cadgenbench/scheduler.py:338-358 | every attempt left running is abandoned at its full reservation and the task is failed; everything else is unchanged |
| `CohortLedger.Reconcile` | src/cadrig/benchmarks/cadgenbench/scheduler.py:332-360 | exactly the tasks with a running attempt are closed and returned |
| `CohortTheorems.StepKeepsInv` | src/cadrig/benchmarks/cadgenbench/scheduler.py:395-557 | every step of the scheduler, crash included, keeps the relation between state file, memory, budgets and running attempts |
| `CohortTheorems.LedgerSafety` | src/cadrig/benchmarks/cadgenbench/scheduler.py:171-207 | in every state of every run totals are the sums of their rows, unsettled attempts hold their full reservation, and debits counted up to their reservations fit both budgets, whatever the provider does |
| `CohortTheorems.ProviderUnderReservation` | src/cadrig/benchmarks/cadgenbench/scheduler.py:416-456 | whenever the provider can be called exactly one durable attempt is running and it holds the full token and cost reservation |
| `CohortTheorems.LaunchedOnce` | src/cadrig/benchmarks/cadgenbench/scheduler.py:405-421 | no task is launched twice in one invocation, nor one that was left running in the state file the invocation started from |
| `CohortTheorems.LedgerOnlyGrows` | src/cadrig/benchmarks/cadgenbench/scheduler.py:409-533 | over any stretch of any run completed tasks never change, attempts are only added and closed attempts are final |
| `CohortStatus.StatusSafety` | src/cadrig/benchmarks/cadgenbench/scheduler.py:332-557 | in every state of every run a task is pending exactly while it was never attempted, running exactly while an attempt is, completed exactly when it has a candidate and its newest attempt completed, and otherwise failed; a completed cohort has only completed tasks, a stopped one names the budget that the next attempt does not fit, and a fresh one is empty |
| `CohortStatus.RunWrites` | src/cadrig/benchmarks/cadgenbench/scheduler.py:404-557 | every step of every run writes to the state file exactly this: a start abandons what was left running at its full reservation, a reservation adds one running attempt, an outcome closes the newest attempt at the usage found or at its reservation, a close settles the status; all other steps write nothing |
| `CohortStatus.TotalsSafety` | src/cadrig/benchmarks/cadgenbench/scheduler.py:171-207 | in every state of every run prompt, completion, unclassified and total tokens, debits and costs are the sums of these over all attempts of all fixtures, and what is debited beyond the reported is unverified |
| `CohortBudget.CrashSafeBudget` | src/cadrig/benchmarks/cadgenbench/scheduler.py:299-360 | if no attempt is billed more than its cap and found evidence is exact, then in every state file of every crash and resume history the true spend is at most the debits and the debits at most the token and cost budgets |
| `CohortOverruns.SettlementMovesDebits` | src/cadrig/benchmarks/cadgenbench/scheduler.py:487-495 | saving an outcome moves the debited tokens and the debited cost by exactly what the evidence reports beyond the reservation, so a budget is passed if and only if the report exceeds the room left plus the reservation |
| `CohortOverruns.ReservationFits` | src/cadrig/benchmarks/cadgenbench/scheduler.py:299-312 | an admitted reservation adds exactly itself to the debits and leaves them within both budgets |
| `CohortOverruns.DebitsFitIffNoOverrun` | src/cadrig/benchmarks/cadgenbench/scheduler.py:487-495 | over every crash and resume history the debits fit both budgets in every state if and only if no saved outcome reports more than the room left plus its reservation |
| `CohortWitnesses.DebitsCanExceedBudget` | src/cadrig/benchmarks/cadgenbench/scheduler.py:487-495 | a concrete run whose saved debits exceed its total token budget |
| `CohortBudget.UsageCostCoversEverySplit` | src/cadrig/benchmarks/cadgenbench/scheduler.py:158-168 | the cost of a report is the least that covers every split of its unclassified tokens between prompt and completion |
| `CohortBudget.ReservationIsWorstCase` | src/cadrig/benchmarks/cadgenbench/scheduler.py:315-323 | the cost reserved for an attempt is the least that covers every way its token cap can be used up |
| `CohortBudget.PlannedAdmission` | src/cadrig/benchmarks/cadgenbench/scheduler.py:299-312 | with budgets of one cap per fixture, admission is refused only once there are as many attempts as fixtures |
| `CohortBudget.PlannedBudgetsSuffice` | src/cadrig/benchmarks/cadgenbench/scheduler.py:409-419 | such a cohort can stop on a budget only once it has made at least as many attempts as fixtures, over any crash and resume history |
| `CohortPublication.CompletedIsPublished` | src/cadrig/benchmarks/cadgenbench/scheduler.py:517-526 | in every state of every run a task recorded as completed is published, and the hash on record is that of what was published |
| `CohortPublication.AbandoningOrphans` | src/cadrig/benchmarks/cadgenbench/scheduler.py:519-533 | a publication that cannot be read back, or a crash while a published outcome is not saved, leaves a published task that no record knows to be completed |
| `CohortPublication.OrphansIffAbandoned` | src/cadrig/benchmarks/cadgenbench/scheduler.py:519-533 | a run, whatever crashes in it, never orphans a published candidate if and only if every published candidate can be read back and no crash comes between a publication and the save after it |
| `CohortPublication.OrphanedForever` | src/cadrig/benchmarks/cadgenbench/scheduler.py:363-375 | an orphaned task is never completed in any later state of the run and never published again: every later verified session of it ends in an exception |
| `CohortWitnesses.UnreadableCandidateIsOrphaned` | src/cadrig/benchmarks/cadgenbench/scheduler.py:520-533 | a concrete run without any crash that orphans its candidate |
| `CohortWitnesses.CrashBeforeSaveOrphans` | src/cadrig/benchmarks/cadgenbench/scheduler.py:519-533 | a concrete run in which only a crash before the save orphans a candidate |
| `CohortRunner.Scheduler.constructor` | src/cadrig/benchmarks/cadgenbench/scheduler.py:210-240 | a fresh cohort starts the protocol in its initial state |
| `CohortRunner.Scheduler.StartUp` | src/cadrig/benchmarks/cadgenbench/scheduler.py:404-407 | an invocation first reconciles, then saves, as one step of the protocol |
| `CohortRunner.Scheduler.ReserveFor` | src/cadrig/benchmarks/cadgenbench/scheduler.py:421-450 | the reservation is durable before the provider is used |
| `CohortRunner.Scheduler.CallProvider` | src/cadrig/benchmarks/cadgenbench/scheduler.py:452-495 | bills and evidence are the protocol's steps, compliant ones when the session keeps to the cap, and settling happens in memory only |
| `CohortRunner.Scheduler.Judge` | src/cadrig/benchmarks/cadgenbench/scheduler.py:497-527 | a verified candidate is published exactly when its destination is free; an occupied one raises |
| `CohortRunner.Scheduler.RecordOutcome` | src/cadrig/benchmarks/cadgenbench/scheduler.py:528-533 | closing an attempt is saved as one step, which completes the task exactly when there is a candidate |
| `CohortRunner.Scheduler.VisitFixture` | src/cadrig/benchmarks/cadgenbench/scheduler.py:409-419 | a completed fixture is re-verified and an attempted one skipped; any other stops the loop exactly when a reservation is refused and is attempted otherwise, ending completed or failed by its verdict; it raises exactly when re-verification fails or a verified session finds its destination taken |
| `CohortRunner.Scheduler.AttemptFixture` | src/cadrig/benchmarks/cadgenbench/scheduler.py:421-533 | reserve, call, judge and record compose: the task ends completed exactly when the session was verified and its candidate can be read, an occupied destination raises and leaves it running, and the ledger only grows |
| `CohortRunner.Scheduler.VisitAll` | src/cadrig/benchmarks/cadgenbench/scheduler.py:409-533 | without a stop or an exception every fixture ends completed or attempted, and an exception has its reason in some fixture |
| `CohortRunner.Scheduler.CloseUp` | src/cadrig/benchmarks/cadgenbench/scheduler.py:535-557 | the final status is completed exactly when every task is; the result counts the completed and the failed tasks, the rest as pending, and the tokens of the saved totals |
| `CohortRunner.Scheduler.RunCohort` | src/cadrig/benchmarks/cadgenbench/scheduler.py:395-557 | a whole invocation is a run of the protocol that reports completion exactly when every task is completed and raises only for a completed fixture that fails its re-verification or a verified session whose destination is taken; with sessions that keep to the cap and state their bill it stays a compliant run, so what was billed is within the debits and these within the budgets |
| `BatchPlan.CapacitiesAreBalanced` | src/cadrig/benchmarks/cadgenbench/batch_plan.py:196-200 | capacities sum to the number of tasks, differ by at most one with the larger first, lie between one and the target, and no smaller number of batches would do |
| `ComplexityBands.ClampNeverFires` | src/cadrig/benchmarks/cadgenbench/batch_plan.py:148-150 | the clamp to the last band never changes a band |
| `ComplexityBands.AssignBands` | src/cadrig/benchmarks/cadgenbench/batch_plan.py:143-151 | ranking each family by score and id and banding it gives every profile the band of its rank and changes nothing else |
| `ComplexityBands.BandsFollowScores` | src/cadrig/benchmarks/cadgenbench/batch_plan.py:143-150 | in the banded profiles of a family a lower score, or an equal score with an earlier id, never has a higher band |
| `ComplexityBands.BandMeaning` | src/cadrig/benchmarks/cadgenbench/batch_plan.py:143-150 | with distinct ids a profile is simple, moderate or complex by the third of its family it ranks in, where its rank is the number of family members with a lower score, or an equal score and an earlier id |
| `ComplexityBands.BandedSizesDifferByAtMostOne` | src/cadrig/benchmarks/cadgenbench/batch_plan.py:143-150 | in the banded profiles any two bands of a family differ in size by at most one |
| `Sorting.SortedKeeps` | src/cadrig/benchmarks/cadgenbench/batch_plan.py:209-213 | sorting permutes |
| `Sorting.SortedOrders` | src/cadrig/benchmarks/cadgenbench/batch_plan.py:209-213 | after sorting no element must precede the one before it |
| `Sorting.SortedLeavesOrdered` | src/cadrig/benchmarks/cadgenbench/batch_plan.py:209-213 | sorting moves nothing that is in order, so ties keep their order |
| `Sorting.TextBeforeMeaning` | src/cadrig/benchmarks/cadgenbench/batch_plan.py:143-146 | ids compare by their first differing character, a proper prefix first |
| `BatchAssignment.HardestFirst` | src/cadrig/benchmarks/cadgenbench/batch_plan.py:210-212 | of two members of a stratum the one placed first has the higher score, or the same score and no later id |
| `BatchAssignment.SmallestFirst` | src/cadrig/benchmarks/cadgenbench/batch_plan.py:209-209 | of two strata the one placed first is smaller, or as large with no later name of family and band |
| `BatchAssignment.Select` | src/cadrig/benchmarks/cadgenbench/batch_plan.py:214-236 | the chosen batch has room and no batch with room ranks below it; there is none exactly when all are full |
| `BatchAssignment.SelectedMeaning` | src/cadrig/benchmarks/cadgenbench/batch_plan.py:214-236 | the chosen batch is below its capacity, and no other such batch has fewer of the stratum, then of the family, then of the band, then fewer members, then the lower score, then the earlier place counted from the offset |
| `BatchAssignment.ScoreAddsUp` | src/cadrig/benchmarks/cadgenbench/batch_plan.py:232-232 | the score of a batch is the sum of its members' scores |
| `BatchAssignment.SelectionIsUnique` | src/cadrig/benchmarks/cadgenbench/batch_plan.py:219-236 | the rotation breaks every tie, so the choice does not depend on the order of comparison |
| `BatchAssignment.GroupByKey` | src/cadrig/benchmarks/cadgenbench/batch_plan.py:205-207 | the strata have distinct keys, each holds one key only, and together they are the profiles |
| `BatchAssignment.PlaceStratum` | src/cadrig/benchmarks/cadgenbench/batch_plan.py:210-237 | placing fails only when capacity runs out, and otherwise appends exactly the members, one minimal placement at a time |
| `BatchAssignment.BalancedWhilePlacing` | src/cadrig/benchmarks/cadgenbench/batch_plan.py:210-237 | while a stratum is placed any two batches' counts of it differ by at most one unless the one with fewer is full |
| `BatchAssignment.BalancedThroughout` | src/cadrig/benchmarks/cadgenbench/batch_plan.py:203-238 | that balance holds for every stratum after every single placement of the whole assignment |
| `BatchAssignment.AssignBatches` | src/cadrig/benchmarks/cadgenbench/batch_plan.py:203-238 | the assignment exists exactly when the capacities suffice, is a permutation of the profiles within capacity, and leaves every stratum level up to batches that were already full of strata placed no later |
| `BatchAssignment.ExactCapacitiesAreFilled` | src/cadrig/benchmarks/cadgenbench/batch_plan.py:203-238 | capacities that sum to the number of profiles are filled exactly |
| `PlannedBatches.BatchIsLaunchable` | src/cadrig/benchmarks/cadgenbench/batch_plan.py:267-282 | a batch becomes a valid cohort configuration with distinct fixtures and the policy's rates and cap, whose token budget is exactly its fixtures' caps and whose cost budget, there exactly with rates, is exactly as many of the scheduler's own reservations, and whose budgets admit each fixture once |
| `PlannedBatches.BudgetsAddUp` | src/cadrig/benchmarks/cadgenbench/batch_plan.py:279-280 | batch token and cost budgets add up to the plan's own maximum, which is the remaining tasks' caps and reservations |
| `PlannedBatches.ConservativeCostFunds` | src/cadrig/benchmarks/cadgenbench/batch_plan.py:241-246 | the cost set aside for so many tasks is that many of the scheduler's reservations for one attempt |
| `PlannedBatches.CreatePlan` | src/cadrig/benchmarks/cadgenbench/batch_plan.py:249-308 | a plan exists for any remaining tasks, has each of them in exactly one batch and nothing else, has batches of one to target tasks within one of each other with fixtures in id order and budgets of exactly one reservation per fixture, and sums to the plan maximum; capacity never runs out |
| `PlannedBatches.PlannedBatchCanTryEveryTask` | src/cadrig/benchmarks/cadgenbench/batch_plan.py:372-390 | any batch of any plan, run through crashes and resumes with a compliant provider, stops on a budget only after as many attempts as tasks |
| `UsageEvidence.LedgerCategoriesCoverTotal` | src/cadrig/benchmarks/cadgenbench/official_cli.py:1244-1262 | the ledger's categories never sum to less than its total, and to exactly the total if and only if no call classifies more than it reports |
| `UsageEvidence.TraceNeverUndercounts` | src/cadrig/benchmarks/cadgenbench/scheduler.py:133-155 | evidence read from a trace states the turns' prompt and completion sums floored at zero and as its total the greatest of zero, what the turns add up to and what the trace reports; it is fully classified when no sum is negative |
| `UsageEvidence.EvidenceStatesAnswers` | src/cadrig/benchmarks/cadgenbench/scheduler.py:124-168 | the evidence read back from a client's ledger is, category by category, the sum of what the provider stated in its answers, and the cost charged is the price of those answers |
| `UsageEvidence.ZeroCountsAreSilent` | src/cadrig/benchmarks/cadgenbench/scheduler.py:133-155 | a trace whose every count is zero, as those of the synthesized stops are, reports no tokens |
| `UsageEvidence.CappedAttemptIsCompliant` | src/cadrig/benchmarks/cadgenbench/official_cli.py:1276-1381 | when the provider honours its limits and prompts are foreseen, an attempt through the capped client consumes at most its cap, and the evidence read back is exact and fully classified if and only if some call was answered or the trace reports no tokens |
| `UsageEvidence.CappedSessionIsGood` | src/cadrig/benchmarks/cadgenbench/scheduler.py:452-495 | under exactly that condition the session of such an attempt, billed call by call as its ledger says, is one for which the scheduler's invocation stays compliant |
| `Matrix.CellIdIsInjective` | src/cadrig/benchmarks/cadgenbench/matrix.py:180-183 | two positions of the matrix never share a cell id, whatever slugs or hashes collide |
| `Matrix.CellMeaning` | src/cadrig/benchmarks/cadgenbench/matrix.py:180-194 | a cell is of its own model and backend, keeps its cohort under its own id, and its id names both positions, the model's slug, the backend and the pair's hash |
| `Matrix.PaddedReadsBack` | src/cadrig/benchmarks/cadgenbench/matrix.py:183-183 | a position is written in decimal digits that read back as it, at least two, with a leading zero only to make two |
| `Matrix.CellPosition` | src/cadrig/benchmarks/cadgenbench/matrix.py:186-197 | cells are listed model by model and for each model backend by backend |
| `Matrix.Cells` | src/cadrig/benchmarks/cadgenbench/matrix.py:186-197 | building the dictionary of cells never replaces an entry and yields the grid in order |
| `Matrix.CellsAreIsolated` | src/cadrig/benchmarks/cadgenbench/matrix.py:186-197 | there are exactly models times backends cells, one per pair, with distinct ids and distinct cohort directories |
| `Matrix.CellsAreLaunchable` | src/cadrig/benchmarks/cadgenbench/matrix.py:93-118 | every cell of a valid matrix runs a valid cohort over all fixtures with the cell's token budget and its model's own prices and cost budget, whose budgets admit each fixture once |
| `Matrix.Recalculate` | src/cadrig/benchmarks/cadgenbench/matrix.py:272-297 | the loop sums the saved cohorts and skips missing ones |
| `Matrix.TotalsAddUp` | src/cadrig/benchmarks/cadgenbench/matrix.py:272-297 | each cell adds the total and the debits of its saved cohort, if it has one, to totals that start at zero |
| `Matrix.MatrixStaysWithinAdmission` | src/cadrig/benchmarks/cadgenbench/matrix.py:139-141 | the debited tokens of all cells together never exceed models times backends times the cell budget, which is maximum_admitted_tokens, when each saved cohort comes from a compliant run |
| `TokenCap.Allowance` | src/cadrig/benchmarks/cadgenbench/compat.py:12-18 | the allowance is the largest completion up to the request that fits under the cap, zero when none does, and invalid inputs are refused |
| `TokenCap.ReceivedIsAnswer` | src/cadrig/benchmarks/cadgenbench/official_cli.py:1276-1345 | what comes back is the provider's answer to the most tokens that the cap, the estimate and the margin admit, after the inspection limits |
| `TokenCap.OutcomeMeaning` | src/cadrig/benchmarks/cadgenbench/official_cli.py:1282-1381 | which outcome a request has: each exception exactly for its reason, an answer exactly when the cap still holds with it |
| `TokenCap.CappedClient.Complete` | src/cadrig/benchmarks/cadgenbench/official_cli.py:1276-1381 | each request is one step of the client's history, with the specified outcome |
| `TokenCap.CappedClient.Charge` | src/cadrig/benchmarks/cadgenbench/official_cli.py:1351-1381 | charging moves consumption, margin, ledger and stop flag together and decides acceptance against the cap |
| `TokenCap.LedgerRecordsAnswers` | src/cadrig/benchmarks/cadgenbench/official_cli.py:1244-1262 | in every history the ledger lists the provider's answers in order, each with its own prompt, completion and total, a missing or negative count as zero |
| `TokenCap.BudgetStopIffStopped` | src/cadrig/benchmarks/cadgenbench/official_cli.py:1331-1381 | the stop flag is up exactly when some request was answered by a synthesized stop |
| `TokenCap.ConsumedMatchesLedger` | src/cadrig/benchmarks/cadgenbench/official_cli.py:1227-1266 | consumption equals the ledger total exactly when no provider call reported a negative total, and is otherwise below it |
| `TokenCap.NegativeTotalSplitsAccounts` | src/cadrig/benchmarks/cadgenbench/official_cli.py:1227-1262 | a concrete history in which consumption is minus one and the ledger total zero |
| `TokenCap.OneRejectionEndsIt` | src/cadrig/benchmarks/cadgenbench/official_cli.py:1308-1381 | at most one call is ever rejected, it is the last in the ledger, consumption exceeds the cap exactly then, and no provider call follows it |
| `TokenCap.MarginIsWorstUnderestimate` | src/cadrig/benchmarks/cadgenbench/official_cli.py:1315-1361 | the margin is the larger of 4096 and the worst underestimate so far plus 2048 |
| `TokenCap.NoRejectionWhenForeseen` | src/cadrig/benchmarks/cadgenbench/official_cli.py:1308-1381 | no call is rejected while the provider honours its limit and each underestimate is at most 4096 or an earlier one plus 2048 |
| `TokenCap.CountersCount` | src/cadrig/benchmarks/cadgenbench/official_cli.py:1284-1362 | the ledger has one entry per answered call, and the reported calibrations and inspection stops count exactly the calls they name |
| `CandidateGate.ValidationState.ReviewTurn` | src/cadrig/benchmarks/cadgenbench/official_cli.py:807-913 | a turn that reports a candidate passes exactly when it ran, its mesh and render feedback and evidence are good and an edit changed the part; then its program's hash is accepted and each reported file backed up, otherwise each reported name is back to its backup or gone; a turn that reports nothing keeps the earlier verdict |
| `CandidateGate.AcceptsIffClears` | src/cadrig/benchmarks/cadgenbench/official_cli.py:832-868 | acceptance is reporting a candidate, running, good feedback, a changed part when editing, and evidence |
| `CandidateGate.ValidationState.BackUp` | src/cadrig/benchmarks/cadgenbench/official_cli.py:871-874 | the loop over reported names backs up exactly the reported candidates that exist |
| `CandidateGate.ValidationState.Restore` | src/cadrig/benchmarks/cadgenbench/official_cli.py:880-886 | the loop over reported names puts every reported candidate back to its backup, or removes it without one |
| `CandidateGate.ValidationState.StopOnBudget` | src/cadrig/benchmarks/cadgenbench/official_cli.py:1331-1333 | a budget stop is recorded only after an acceptance |
| `CandidateGate.ValidationState.HasDoneSignal` | src/cadrig/benchmarks/cadgenbench/official_cli.py:777-797 | done is believed exactly when a text without code says so, or comments alone do, and the last verdict was a pass or a budget stop came |
| `CandidateGate.AgreesIffBehaves` | src/cadrig/benchmarks/cadgenbench/official_cli.py:807-913 | from agreement of working and accepted files, a turn ends in agreement exactly when it left unreported candidates alone and its accepted candidates are present or never backed up |
| `CandidateGate.AlwaysAgreesIffAllBehave` | src/cadrig/benchmarks/cadgenbench/official_cli.py:807-913 | working candidates equal their last accepted backups after every turn of a run exactly when they do at the start and every turn behaves |
| `CandidateGate.UnreportedChangeIsBelieved` | src/cadrig/benchmarks/cadgenbench/official_cli.py:807-831 | a concrete run in which a turn changes a candidate without reporting it and a done signal is then believed with a file no turn was accepted with |
| `CandidateGate.FlagsMeanAccepted` | src/cadrig/benchmarks/cadgenbench/official_cli.py:863-865 | ever_passed holds exactly when some earlier turn reported a candidate, ran, and met feedback, change and evidence; passed and budget_stop each imply it |
| `CandidateGate.AcceptedHashes` | src/cadrig/benchmarks/cadgenbench/official_cli.py:866-870 | the accepted hashes are exactly those of the programs of such turns |
| `CandidateGate.BackupIsNewestAccepted` | src/cadrig/benchmarks/cadgenbench/official_cli.py:871-874 | a backup is the content of the newest accepted turn that produced its name, or the initial one |
| `CandidateGate.DoneMeansAcceptedCandidate` | src/cadrig/benchmarks/cadgenbench/official_cli.py:777-797 | when turns change only what they report and accepted ones leave a reported candidate: whenever a done signal is believed the work directory holds a candidate, and every candidate in it is the newest accepted one of its name |
| `CandidateGate.InspectionIsBounded` | src/cadrig/benchmarks/cadgenbench/official_cli.py:1282-1294 | without an acceptance a run spends at most four turns on inspection alone |
| `CandidateGate.CountersCount` | src/cadrig/benchmarks/cadgenbench/official_cli.py:814-913 | the reported counters of inspection turns, no-op and invariance rejections and recovered done signals count exactly those events |
| `Publication.FateOf` | src/cadrig/benchmarks/cadgenbench/official_cli.py:1060-1085 | a candidate's fate is that of the last execution of its turn to produce it: stale without one, failed if that failed, kept if that is trusted |
| `Publication.TrustsIffBelieved` | src/cadrig/benchmarks/cadgenbench/official_cli.py:1060-1071 | an execution is trusted when it succeeded and, only with enforcement, the hash of its program was accepted |
| `Publication.LastProducers` | src/cadrig/benchmarks/cadgenbench/official_cli.py:1060-1071 | the loops over executions and names record exactly the last producer's success and trust |
| `Publication.SavedRun.SanitizeTurn` | src/cadrig/benchmarks/cadgenbench/official_cli.py:1073-1085 | each candidate of a turn is kept, quarantined or removed by its fate |
| `Publication.SavedRun.Publish` | src/cadrig/benchmarks/cadgenbench/official_cli.py:1092-1098 | the root receives the offer of the newest turn that has one, and nothing exactly when none has |
| `Publication.SavedRun.Sanitize` | src/cadrig/benchmarks/cadgenbench/official_cli.py:1046-1098 | the whole pass leaves every turn sanitized and the root holding the newest offer |
| `Publication.OnlyQualifyingRemain` | src/cadrig/benchmarks/cadgenbench/official_cli.py:1073-1085 | under its own name a candidate survives exactly when its last producer succeeded and, with enforcement, its program's hash was accepted; failed and unvalidated ones survive only under their quarantine names |
| `Publication.CanonicalIsNewestQualifying` | src/cadrig/benchmarks/cadgenbench/official_cli.py:1046-1098 | the canonical artifact is the untouched candidate of the newest qualifying turn, STEP before STP, and nothing is published exactly when no turn qualifies |
| `Publication.PublishedProgramWasAccepted` | src/cadrig/benchmarks/cadgenbench/official_cli.py:866-870 | with enforcement the program behind the canonical artifact is textually one that the gate accepted |
| `Publication.PublishedContentWasAccepted` | src/cadrig/benchmarks/cadgenbench/official_cli.py:1046-1098 | when saved turns hold the gate's work directory the canonical artifact is the very file the gate accepted last |
| `Publication.PublishedContentIsBackup` | src/cadrig/benchmarks/cadgenbench/official_cli.py:871-874 | a saved content is the newest accepted one of its name if and only if it equals the gate's backup of that name at that point, however turns behave |
| `Publication.RerunTextIsPublished` | src/cadrig/benchmarks/cadgenbench/official_cli.py:1060-1098 | a concrete run whose canonical artifact was written by re-running an accepted program and was itself never accepted |
| `MeshRegions.BuildOwners` | src/cadrig/benchmarks/cadgenbench/mesh_fallback.py:404-409 | the table lists for every edge the owners of exactly the candidate sides on it |
| `MeshRegions.BuildNeighbors` | src/cadrig/benchmarks/cadgenbench/mesh_fallback.py:410-414 | two triangles are neighbors exactly when some edge has precisely these two owners |
| `MeshRegions.NeighborsAreAdjacent` | src/cadrig/benchmarks/cadgenbench/mesh_fallback.py:404-414 | the two tables together compute the relation of two triangles, each with a side that joins the same two vertices, in either direction, which no third candidate side joins |
| `MeshRegions.EdgesAreUndirected` | src/cadrig/benchmarks/cadgenbench/mesh_fallback.py:408-408 | two pairs of vertices name the same edge exactly when they are the same two vertices in some order |
| `MeshRegions.Flood` | src/cadrig/benchmarks/cadgenbench/mesh_fallback.py:420-429 | one breadth-first search takes exactly the seed's reachability class out of the remaining triangles, and terminates |
| `MeshRegions.Components` | src/cadrig/benchmarks/cadgenbench/mesh_fallback.py:416-429 | the loops return a partition of the candidates into reachability classes, whichever seed is popped when |
| `MeshRegions.MeshComponents` | src/cadrig/benchmarks/cadgenbench/mesh_fallback.py:404-429 | for every mesh and candidate subset the components are disjoint, cover the candidates, and are each closed and connected under having a side of the same two vertices that no third side joins |
| `MeshRegions.PartitionIsUnique` | src/cadrig/benchmarks/cadgenbench/mesh_fallback.py:419-429 | the partition does not depend on the order in which seeds are popped |
| `MeshEdits.GrowPatch` | src/cadrig/benchmarks/cadgenbench/mesh_fallback.py:352-359 | the patch search, which tests membership in the component itself, also returns exactly the seed's class |
| `MeshEdits.TranslatePatch` | src/cadrig/benchmarks/cadgenbench/mesh_fallback.py:326-364 | exactly the corners of the seed's class move, each once, by the distance; a patch of fewer than three vertices moves nothing |
| `MeshEdits.ArgMin` | src/cadrig/benchmarks/cadgenbench/mesh_fallback.py:625-625 | the first of the smallest distances is chosen |
| `MeshEdits.SelectRegions` | src/cadrig/benchmarks/cadgenbench/mesh_fallback.py:620-630 | selection succeeds with every seed's nearest region, all within the tolerance and no two the same, and otherwise fails at the first seed that is too far from every region or whose region an earlier seed has |
| `MeshEdits.MoveRegions` | src/cadrig/benchmarks/cadgenbench/mesh_fallback.py:632-640 | moving succeeds exactly when no two selected regions share a vertex, and then each vertex moved once by its own region's distance |
| `ProcessLock.ExclusionIffUnlinksSafe` | src/cadrig/benchmarks/cadgenbench/common.py:69-94 | in every run, with any number of contenders and crashes anywhere, the lock is exclusive and each holder's own file at the path at every point if and only if every reclaiming unlink finds the file its process judged or happens while the lock is free |
| `ProcessLock.StepMeaning` | src/cadrig/benchmarks/cadgenbench/common.py:62-94 | what a process may do next follows the lock's code: create exclusively or contend, read an owner or fail, go on only past a dead owner, unlink what is at the path, create again or fail, write its pid, leave, and unlink again; each call does exactly this to path and files and nothing to other processes |
| `ProcessLock.JudgedUnlinksExclude` | src/cadrig/benchmarks/cadgenbench/common.py:69-94 | the lock is exclusive in every run in which each reclaiming unlink finds at the path the file its process judged, with no bound on contenders |
| `ProcessLock.UnsafeUnlinkBreaksExclusion` | src/cadrig/benchmarks/cadgenbench/common.py:78-82 | any other reclaiming unlink while the lock is held lets two processes hold it two steps later |
| `ProcessLock.GuardedExclusion` | src/cadrig/benchmarks/cadgenbench/common.py:69-94 | with at most one contender at a time between reading a dead owner and re-creating the file, whatever ends or crashes when, provided that a file whose owner dies between read and check is then still at the path, every reclaiming unlink hits the judged file, at most one process holds the lock and its file is present and its own |
| `ProcessLock.ClosedForever` | src/cadrig/benchmarks/cadgenbench/common.py:71-76 | a creator that ends before its pid is written leaves the lock closed: while reclaiming unlinks hit the file they judged, nobody holds it again and its file is never removed |
| `ProcessLock.GuardedClosedForever` | src/cadrig/benchmarks/cadgenbench/common.py:71-76 | the same under the guard on contenders |
| `ProcessLock.TwoReclaimersCanBothEnter` | src/cadrig/benchmarks/cadgenbench/common.py:73-82 | two contenders that found the same dead owner can both end up in the body |
| `ProcessLock.OwnerEndingMeanwhileCanBreakExclusion` | src/cadrig/benchmarks/cadgenbench/common.py:73-79 | one contender at a time is not enough: when the owner it read alive releases and ends, and the lock passes on, before the check, two processes end up holding it |
| `FreeCadPreflight.Validate` | src/cadrig/adapters/freecad.py:138-203 | the loop with its simulated id set reports exactly the specified diagnostics, and raises exactly when some action trips over an unhashable plane or geometry type |
| `FreeCadPreflight.CrashMeaning` | src/cadrig/adapters/freecad.py:538-570 | the check of an action raises exactly for a new sketch with an array or object as its plane, or for geometry on a known sketch whose first ill-formed item is a named object with an array or object as its type |
| `FreeCadPreflight.UnhashablePlaneCrashes` | src/cadrig/adapters/freecad.py:541-547 | a concrete plan on which validation raises |
| `FreeCadPreflight.AcceptedMeaning` | src/cadrig/adapters/freecad.py:138-203 | a plan is accepted exactly when its document id is well formed, its revision current, creation first and only for a missing document, and every action passes against the ids simulated so far; then nothing raises |
| `FreeCadPreflight.NativeDocument.Step` | src/cadrig/adapters/freecad.py:595-765 | one action, item by item on the document itself, ends as specified; or it stops, leaving in a sketch exactly the shapes or constraints of the items before the first bad one |
| `FreeCadPreflight.NativeDocument.AddShapes` | src/cadrig/adapters/freecad.py:652-684 | the loop over geometry items adds a shape per item until the first bad one and only collects the adapter's map |
| `FreeCadPreflight.NativeDocument.AddConstraintsTo` | src/cadrig/adapters/freecad.py:686-728 | the loop over constraint items adds a constraint per item until the first bad one |
| `FreeCadPreflight.StopLeavesEarlierItems` | src/cadrig/adapters/freecad.py:652-728 | a step that stops leaves the document as it was but for n shapes or constraints of its target sketch, where the first n items can be added and the next one is what stops it |
| `FreeCadPreflight.StopCanLeaveAShape` | src/cadrig/adapters/freecad.py:652-684 | a concrete action that passes its check and stops with its sketch grown |
| `FreeCadPreflight.StepKeepsMaps` | src/cadrig/adapters/freecad.py:652-684 | completed or stopped half-way, a step leaves every geometry map pointing different ids to different existing shapes |
| `FreeCadPreflight.NativeDocument.Run` | src/cadrig/adapters/freecad.py:239-250 | the actions run in order inside one transaction, and a stop, even half-way through an action, restores the document |
| `FreeCadPreflight.CheckedStepIsSound` | src/cadrig/adapters/freecad.py:517-770 | a step whose check passed against the ids present meets no missing target, duplicate id or unsupported kind, and leaves exactly the predicted ids |
| `FreeCadPreflight.PreflightIsSound` | src/cadrig/adapters/freecad.py:183-202 | over a whole run the simulated ids equal the ids present before every step, ids stay unique, and only the residual refusals of a kind can stop a step |
| `FreeCadPreflight.AcceptedPlanIsSound` | src/cadrig/adapters/freecad.py:205-264 | for every accepted plan on a document with unique ids the executor never applies a creation and every step finds the ids its check assumed |
| `FreeCadPreflight.DeletionPredictedIffUnshared` | src/cadrig/adapters/freecad.py:873-876 | a deletion leaves exactly the predicted ids if and only if no later object shares the id |
| `FreeCadPreflight.SharedIdSurvivesDeletion` | src/cadrig/adapters/freecad.py:873-876 | a concrete document in which a checked deletion completes and its id is still present |
| `FreeCadPreflight.StepTouchesOnlyItsSubject` | src/cadrig/adapters/freecad.py:595-770 | a completed step appends one object with the action's own id and dimensions, removes its target, or changes only its target in the way its kind allows |
| `FreeCadPreflight.UniquenessNeedsTheCheck` | src/cadrig/adapters/freecad.py:520-525 | the executor looks for no duplicates: a completed creation keeps ids unique if and only if its id was new, which is what the check ensures |
| `NativeMeaning.PassesMeaning` | src/cadrig/adapters/freecad.py:517-595 | an action passes its check exactly when it carries what its kind demands: a non-blank new id, a known target, positive dimensions, a plane of three, named new lines or circles, constraints, a known other tool, a named number |
| `NativeMeaning.CodeMeaning` | src/cadrig/adapters/freecad.py:517-595 | an action that neither passes nor raises gets one diagnostic, with the code of the first thing wrong: unsupported kind, repeated id, missing feature, or invalid parameter |
| `NativeMeaning.PlanCodesMeaning` | src/cadrig/adapters/freecad.py:138-182 | each diagnostic of the plan as a whole is reported exactly when what it names is wrong, an existing document at the plan's first creation |
| `NativeMeaning.PlanCodesInOrder` | src/cadrig/adapters/freecad.py:138-182 | they come in that order, each at most once |
| `NativeMeaning.DocumentIdMeaning` | src/cadrig/adapters/freecad.py:140-146 | a document id is a letter or underscore followed by letters, digits and underscores |
| `NativeMeaning.StepMeaning` | src/cadrig/adapters/freecad.py:595-770 | an action completes with a document exactly when action and document meet what its kind needs and the document is the old one with exactly that kind's change: one new object of the given type and numbers, named shapes in order, more constraints, one number, or one object less |
| `NativeMeaning.AddingMeaning` | src/cadrig/adapters/freecad.py:652-684 | geometry is added item by item up to the first that has no text id, repeats one or cannot be drawn, and each of these stops it in its own way; when all are added their ids stand for the host's next shapes in order |
| `NativeMeaning.ConstrainingMeaning` | src/cadrig/adapters/freecad.py:686-728 | constraints are added up to the first that names unknown geometry or lacks what its type needs |
| `NativeMeaning.StopMeaning` | src/cadrig/adapters/freecad.py:595-770 | a step that does not complete stops for exactly the reason of its kind and leaves behind the shapes or constraints of the items before the faulty one, and nothing else |
| `ExportRoots.ExportsExactlyTheRoots` | src/cadrig/adapters/freecad.py:493-510 | the export lists, once and in document order, exactly the solid-producing objects that no solid-producing object depends on directly |
| `ExportRoots.ExportedAreNotConsumed` | src/cadrig/adapters/freecad.py:503-510 | no exported object is a direct dependency of another solid-producing object |
| `ExportRoots.ExportCoversEverything` | src/cadrig/adapters/freecad.py:493-510 | in every acyclic document each solid-producing object is reached from an exported one through solid-producing objects, so a document with a solid exports something |
| `ExportRoots.ExportedOnlyCoverThemselves` | src/cadrig/adapters/freecad.py:493-510 | the export is the smallest covering set: whatever covers an exported object is that object |
| `ExportRoots.CycleExportsNothing` | src/cadrig/adapters/freecad.py:503-510 | without acyclicity coverage fails: two objects that depend on each other export nothing |

## Left out

- Numbers are exact: floats, `Decimal(str(...))` rounding, non-finite values and integers beyond the float
  range are not modelled, so the finiteness checks of the native adapter are always met.
- Hashes, fingerprints, timestamps and uuids: abstract equality and fresh ids. A hash collision, or a
  uuid that repeats, is outside the model.
- Message texts, payloads of trace events, and the words of feedback to the planner.
- The planner, the contract compiler, the provider, HTTP, prompts and subprocesses: parameters of the
  runs, arbitrary unless a lemma says otherwise. An exception that escapes the scheduler is a crash of
  its process.
- Episode storage and a failing observation of the agent: the memory kernel's observation cannot fail
  (`MemoryHistory.HistoryIsObservable`). An exception inside the verifier is not modelled.
- The trace of a run is collected as marks and recorded into the builder when the run ends; the original
  records as it goes. Nothing reads the builder in between.
- Threads inside the memory kernel: its lock makes every call one step.
- A contract with a kind in the wrong list is refused by its constructor in the original; here such
  contracts exist and the verifier reports them, as its code does.
- Run directories, provider paths, cohort manifests, the reported cost of a single attempt, and the
  refusal to start in a non-empty or corrupt directory.
- CohortProtocol: one scheduler process at a time per cohort, which is what the process lock is for; see
  ProcessLock for when the lock provides it. No claim that a cohort ever completes.
- Batch plans: complexity scores are given, the plan file with its fingerprint and the evidence of
  completed tasks are not modelled. Batch scores are summed exactly, so ties are exact ties.
- Matrix: statuses, costs and the harness evaluation; slugs and hashes are arbitrary functions.
- The client without a configured cap, the lowered reasoning effort, and code-block extraction; a ledger
  file is configured and starts fresh, and only the attempt writes it.
- Candidate verdicts (mesh validity, edit comparison, instance evidence) are uninterpreted, as are the
  files an execution writes; names are compared exactly, so a report that differs only in letter case is
  taken as the lower-case file.
- Publication assumes saved turns with distinct numbers where it speaks about the original directories;
  the pass itself is modelled for any numbering.
- Mesh normals, areas, centers and the choice of the nearest region's distance table: an arbitrary subset
  of candidates and arbitrary distances. Negative vertex indices, which numpy counts from the end, and STEP
  writing are not modelled. The other mesh edits select vertices by a formula and add no graph reasoning.
- ProcessLock: a file's creator writes its pid in one step; a write that fails half-way with a readable
  result, and a lock file edited by hand, are not modelled.
- FreeCadPreflight: a snapshot of objects with ids of more than 128 characters raises in the original too;
  here the ids present are compared without snapshots. The host adds and removes exactly one object per
  request, keeps its own names unique, and never fails; a sketch's geometry map is readable. Geometry
  items that the check rejects are not told apart as the executor would. Revisions by fingerprint,
  recomputation, undo and rollback under native edits, camera and selection are not modelled.
- Geometry kernels, rendering, the sanity script, the macro review, packaging, the Qt panel and reports.
