/** The agent's bounded repair loop over the memory kernel: propose, preflight, preview, verify,
    commit, verify again, roll back. Planner and verifier are arbitrary; receipt ids are fresh. */
module NativeAgent {
  import opened Contracts
  import opened MemoryAdapter
  import opened MemoryKernel
  import opened Verification
  import opened Tracing

  /** A plan, the planner's own error, or any other exception, which nothing catches. */
  datatype Proposal = Proposed(plan: ActionPlan) | PlanningError | ProposalRaises

  /** Everything the agent does not control, indexed by attempt. */
  datatype World = World(
    propose: nat -> Proposal,
    verdict: (nat, ExecutionReceipt) -> Report,
    previewId: nat -> string, applyId: nat -> string, rollbackId: nat -> string)

  /** No uuid handed out during the run is already a receipt. */
  ghost predicate FreshIds(w: World, s: Store)
  {
    forall n :: w.applyId(n) !in s.undo
  }

  datatype AgentRunStatus = PreviewedRun | CommittedRun | RefusedByAgent | RolledBackRun

  datatype AgentRun = AgentRun(
    status: AgentRunStatus, plan: Option<ActionPlan>, receipt: Option<ExecutionReceipt>,
    verification: Option<Report>, trace: seq<TraceEvent>, attempts: nat,
    rollbackReceipt: Option<ExecutionReceipt>)

  // -------------------------------------------------- what an attempt does

  /** Why an attempt ends before the commit decision. */
  datatype AttemptEnd = PlanFailed | PreflightFailed | PreviewRejected

  /** An attempt fails, passes its preview, or ends the run with an exception. */
  datatype Trial = Fails(end: AttemptEnd) | Passes | Escapes

  /** The attempt proposes a plan whose execution does not raise. */
  predicate Executable(w: World, s: Store, a: nat)
  {
    w.propose(a).Proposed? && !SnapshotRaises(s, w.propose(a).plan)
  }

  function PreviewReceipt(w: World, s: Store, a: nat): ExecutionReceipt
    requires Executable(w, s, a)
  {
    ExecuteOn(s, w.propose(a).plan, true, w.previewId(a)).1.value
  }

  function TrialOf(w: World, s: Store, a: nat): (trial: Trial)
    ensures trial.Passes? || trial == Fails(PreviewRejected) ==> Executable(w, s, a)
    ensures trial.Fails? && !trial.end.PlanFailed? ==> w.propose(a).Proposed?
  {
    match w.propose(a)
    case PlanningError => Fails(PlanFailed)
    case ProposalRaises => Escapes
    case Proposed(plan) =>
      if Diagnose(Lookup(s, plan.documentId), plan) != [] then Fails(PreflightFailed)
      else if !Executable(w, s, a) then Escapes
      else if !w.verdict(a, PreviewReceipt(w, s, a)).accepted then Fails(PreviewRejected)
      else Passes
  }

  /** The latest of the failed attempts that proposed a plan, and the latest that was previewed;
      0 if none. Attempts are numbered from 1. */
  function LastProposed(failed: seq<AttemptEnd>): (n: nat)
    ensures n <= |failed| && (n > 0 ==> !failed[n - 1].PlanFailed?)
  {
    if failed == [] then 0
    else if failed[|failed| - 1].PlanFailed? then LastProposed(failed[..|failed| - 1])
    else |failed|
  }

  function LastPreviewed(failed: seq<AttemptEnd>): (n: nat)
    ensures n <= |failed| && (n > 0 ==> failed[n - 1].PreviewRejected?)
  {
    if failed == [] then 0
    else if failed[|failed| - 1].PreviewRejected? then |failed|
    else LastPreviewed(failed[..|failed| - 1])
  }

  // ------------------------------------------------------- the trace language

  function FailedMarks(end: AttemptEnd, a: nat): seq<Mark>
  {
    match end
    case PlanFailed => [Mark(Plan, Failed, a)]
    case PreflightFailed => [Mark(Plan, Okay, a), Mark(Preflight, Failed, a)]
    case PreviewRejected => PreviewMarks(a, Rejected)
  }

  function PreviewMarks(a: nat, verdict: EventStatus): seq<Mark>
  {
    [Mark(Plan, Okay, a), Mark(Preflight, Okay, a), Mark(Execute, Preview, a), Mark(Verify, verdict, a)]
  }

  const PROLOGUE := [Mark(Observe, Okay, 0), Mark(Compile, Okay, 0)]

  /** The prologue and the failed attempts, each followed by a repair request. */
  function Retries(failed: seq<AttemptEnd>): seq<Mark>
  {
    if failed == [] then PROLOGUE
    else Retries(failed[..|failed| - 1]) + FailedMarks(failed[|failed| - 1], |failed|) + [Mark(Repair, Requested, 0)]
  }

  /** All attempts failed: the last one gets no repair request. */
  function ExhaustedWord(failed: seq<AttemptEnd>): seq<Mark>
    requires failed != []
  {
    Retries(failed[..|failed| - 1]) + FailedMarks(failed[|failed| - 1], |failed|)
    + [Mark(Refuse, RepairBudgetExhausted, 0)]
  }

  /** The attempt after the failed ones passed its preview, and then came the ending. */
  function PassedWord(failed: seq<AttemptEnd>, ending: seq<Mark>): seq<Mark>
  {
    Retries(failed) + PreviewMarks(|failed| + 1, Tracing.Accepted) + ending
  }

  // ----------------------------------------------------------- conclusions

  /** The run whose preview passed after the failed attempts, and the store it leaves. */
  function Concluded(w: World, s: Store, apply: bool, failed: seq<AttemptEnd>): (Store, AgentRun)
    requires Executable(w, s, |failed| + 1)
  {
    var a := |failed| + 1;
    if apply then Committing(w, s, failed) else
    (s, AgentRun(PreviewedRun, Some(w.propose(a).plan), Some(PreviewReceipt(w, s, a)),
                 Some(w.verdict(a, PreviewReceipt(w, s, a))),
                 Numbered(PassedWord(failed, [Mark(Commit, PreviewOnly, 0)])), a, None))
  }

  /** The marks from a real execution to the end of its run. */
  function EndingOf(a: nat, receipt: ExecutionReceipt, accepted: bool, rollback: Option<ExecutionReceipt>): seq<Mark>
  {
    [Mark(Execute, if receipt.Accepted() then AppliedRun else RefusedRun, a),
     Mark(Verify, if accepted then Tracing.Accepted else Rejected, a)]
    + (if accepted then [Mark(Commit, Committed, 0)]
       else (if rollback.None? then []
             else [Mark(Rollback, if rollback.value.Accepted() then RollbackDone else RollbackRefused, 0)])
            + [Mark(Refuse, PostCommitVerificationFailed, 0)])
  }

  function Committing(w: World, s: Store, failed: seq<AttemptEnd>): (Store, AgentRun)
    requires Executable(w, s, |failed| + 1)
  {
    var a := |failed| + 1;
    var plan := w.propose(a).plan;
    var (s', returned) := ExecuteOn(s, plan, false, w.applyId(a));
    var receipt := returned.value;
    var report := w.verdict(a, receipt);
    var undoes := !report.accepted && receipt.Accepted();
    var (s'', undone) := RollbackOn(s', receipt.receiptId, w.rollbackId(a));
    var rollback := if undoes then Some(undone) else None;
    var status := if report.accepted then CommittedRun
                  else if undoes && undone.Accepted() then RolledBackRun
                  else RefusedByAgent;
    (if undoes then s'' else s',
     AgentRun(status, Some(plan), Some(receipt), Some(report),
              Numbered(PassedWord(failed, EndingOf(a, receipt, report.accepted, rollback))), a, rollback))
  }

  /** The attempts named by `failed` did fail that way. */
  predicate AllFailed(w: World, s: Store, failed: seq<AttemptEnd>)
  {
    forall i | 0 <= i < |failed| :: TrialOf(w, s, i + 1) == Fails(failed[i])
  }

  function LastPlan(w: World, s: Store, failed: seq<AttemptEnd>): Option<ActionPlan>
    requires AllFailed(w, s, failed)
  {
    var p := LastProposed(failed);
    if p == 0 then None else assert TrialOf(w, s, p - 1 + 1) == Fails(failed[p - 1]); Some(w.propose(p).plan)
  }

  function LastReceipt(w: World, s: Store, failed: seq<AttemptEnd>): Option<ExecutionReceipt>
    requires AllFailed(w, s, failed)
  {
    var v := LastPreviewed(failed);
    if v == 0 then None else assert TrialOf(w, s, v - 1 + 1) == Fails(failed[v - 1]); Some(PreviewReceipt(w, s, v))
  }

  function LastReport(w: World, s: Store, failed: seq<AttemptEnd>): Option<Report>
    requires AllFailed(w, s, failed)
  {
    var r := LastReceipt(w, s, failed);
    if r.None? then None else Some(w.verdict(LastPreviewed(failed), r.value))
  }

  /** The run whose attempts all failed. It reports the newest plan and the newest preview, which
      need not belong together. */
  function Exhausted(w: World, s: Store, failed: seq<AttemptEnd>): AgentRun
    requires failed != [] && AllFailed(w, s, failed)
  {
    AgentRun(RefusedByAgent, LastPlan(w, s, failed), LastReceipt(w, s, failed), LastReport(w, s, failed),
             Numbered(ExhaustedWord(failed)), |failed|, None)
  }

  /** What a call to Run amounts to: failed attempts, then either one whose preview passed or the
      end of the repair budget. */
  ghost predicate IsRun(w: World, s: Store, apply: bool, maxRepairs: nat, failed: seq<AttemptEnd>,
                        run: AgentRun, s': Store)
  {
    && AllFailed(w, s, failed) && |failed| <= maxRepairs + 1
    && if |failed| == maxRepairs + 1 then s' == s && run == Exhausted(w, s, failed)
       else TrialOf(w, s, |failed| + 1).Passes? && (s', run) == Concluded(w, s, apply, failed)
  }

  /** The failed attempts are followed by one whose planner or whose execution raises. */
  ghost predicate IsEscape(w: World, s: Store, maxRepairs: nat, failed: seq<AttemptEnd>)
  {
    AllFailed(w, s, failed) && |failed| <= maxRepairs && TrialOf(w, s, |failed| + 1).Escapes?
  }

  /** Some attempt raises, and every one before it fails. */
  ghost predicate EscapesFirst(w: World, s: Store, maxRepairs: nat)
  {
    exists n: nat :: n <= maxRepairs && FailsUpTo(w, s, n) && TrialOf(w, s, n + 1).Escapes?
  }

  predicate FailsUpTo(w: World, s: Store, n: nat)
  {
    forall a: nat | 1 <= a <= n :: TrialOf(w, s, a).Fails?
  }

  lemma FailedUpTo(w: World, s: Store, failed: seq<AttemptEnd>)
    requires AllFailed(w, s, failed)
    ensures FailsUpTo(w, s, |failed|)
  {
    hide TrialOf;
    forall a: nat | 1 <= a <= |failed| ensures TrialOf(w, s, a).Fails?
    {
      assert TrialOf(w, s, a - 1 + 1) == Fails(failed[a - 1]);
    }
  }

  /** A run that concludes or exhausts its attempts met no exception. */
  lemma RunMeetsNoException(w: World, s: Store, apply: bool, maxRepairs: nat, failed: seq<AttemptEnd>, run: AgentRun,
                            s': Store)
    requires IsRun(w, s, apply, maxRepairs, failed, run, s')
    ensures !EscapesFirst(w, s, maxRepairs)
  {
    hide TrialOf, Concluded, Exhausted;
    FailedUpTo(w, s, failed);
    var k: nat := |failed| + 1;
    forall n: nat | n <= maxRepairs && FailsUpTo(w, s, n) ensures !TrialOf(w, s, n + 1).Escapes?
    {
      assert n < |failed| ==> TrialOf(w, s, n + 1).Fails?;
      assert k <= n ==> TrialOf(w, s, k).Fails?;
    }
  }

  lemma EscapeComesFirst(w: World, s: Store, maxRepairs: nat, failed: seq<AttemptEnd>)
    requires IsEscape(w, s, maxRepairs, failed)
    ensures EscapesFirst(w, s, maxRepairs)
  {
    hide TrialOf;
    FailedUpTo(w, s, failed);
  }

  /** Raised: the adapter is unknown or the contract did not compile, with the trace kept as a failure.
      Escaped: an exception of an attempt passes through, and no trace is kept. */
  datatype RunResult = Raised(trace: seq<TraceEvent>) | Escaped | Finished(run: AgentRun)

  // ------------------------------------------------------- the loop so far

  /** The loop's last_plan, last_receipt and last_report. */
  datatype Latest = Latest(plan: Option<ActionPlan>, receipt: Option<ExecutionReceipt>, report: Option<Report>)

  /** What one attempt leaves behind. */
  ghost predicate Attempted(w: World, s: Store, a: nat, last: Latest, trial: Trial, marks: seq<Mark>, latest: Latest)
  {
    && trial == TrialOf(w, s, a)
    && (trial.Fails? ==> marks == FailedMarks(trial.end, a))
    && (trial.Passes? ==> marks == PreviewMarks(a, Tracing.Accepted))
    && latest.plan == (if w.propose(a).Proposed? then Some(w.propose(a).plan) else last.plan)
    && (trial in {Fails(PlanFailed), Fails(PreflightFailed)} ==>
          latest.receipt == last.receipt && latest.report == last.report)
    && (trial in {Passes, Fails(PreviewRejected)} ==>
          latest.receipt == Some(PreviewReceipt(w, s, a))
          && latest.report == Some(w.verdict(a, PreviewReceipt(w, s, a))))
  }

  ghost predicate Midway(w: World, s: Store, maxRepairs: nat, failed: seq<AttemptEnd>, trace: seq<Mark>, last: Latest)
  {
    && AllFailed(w, s, failed) && |failed| <= maxRepairs + 1
    && (|failed| <= maxRepairs ==> trace == Retries(failed))
    && (|failed| == maxRepairs + 1 ==> trace + [Mark(Refuse, RepairBudgetExhausted, 0)] == ExhaustedWord(failed))
    && last == Latest(LastPlan(w, s, failed), LastReceipt(w, s, failed), LastReport(w, s, failed))
  }

  lemma ReturnsUnlessRaises(s: Store, plan: ActionPlan, dryRun: bool, receiptId: string)
    ensures ExecuteOn(s, plan, dryRun, receiptId).1.None? <==> SnapshotRaises(s, plan)
  {
  }

  lemma PreviewWritesNothing(s: Store, plan: ActionPlan, receiptId: string)
    ensures ExecuteOn(s, plan, true, receiptId).0 == s
    ensures ExecuteOn(s, plan, true, receiptId).1.None? <==> SnapshotRaises(s, plan)
    ensures SnapshotRaises(s, plan) ==> Diagnose(Lookup(s, plan.documentId), plan) == []
  {
  }

  lemma NothingTried(w: World, s: Store, maxRepairs: nat)
    ensures Midway(w, s, maxRepairs, [], PROLOGUE, Latest(None, None, None))
  {
  }

  lemma EscapesNow(w: World, s: Store, maxRepairs: nat, failed: seq<AttemptEnd>, trace: seq<Mark>, last: Latest,
                   trial: Trial, marks: seq<Mark>, latest: Latest)
    requires Midway(w, s, maxRepairs, failed, trace, last) && |failed| <= maxRepairs
    requires Attempted(w, s, |failed| + 1, last, trial, marks, latest) && trial.Escapes?
    ensures IsEscape(w, s, maxRepairs, failed)
  {
    hide TrialOf, Retries, ExhaustedWord, LastPlan, LastReceipt, LastReport;
  }

  lemma PassedFacts(w: World, s: Store, maxRepairs: nat, failed: seq<AttemptEnd>, trace: seq<Mark>, last: Latest,
                    trial: Trial, marks: seq<Mark>, latest: Latest)
    requires Midway(w, s, maxRepairs, failed, trace, last) && |failed| <= maxRepairs
    requires Attempted(w, s, |failed| + 1, last, trial, marks, latest) && trial.Passes?
    ensures trace + marks == Retries(failed) + PreviewMarks(|failed| + 1, Tracing.Accepted)
    ensures latest.plan.Some?
    ensures Executable(w, s, |failed| + 1) && w.propose(|failed| + 1) == Proposed(latest.plan.value)
  {
    hide TrialOf, Retries, ExhaustedWord, LastPlan, LastReceipt, LastReport;
  }

  lemma CommittedIsRun(w: World, s: Store, maxRepairs: nat, failed: seq<AttemptEnd>, trace: seq<Mark>, last: Latest,
                       trial: Trial, marks: seq<Mark>, latest: Latest, run: AgentRun, s': Store)
    requires Midway(w, s, maxRepairs, failed, trace, last) && |failed| <= maxRepairs
    requires Attempted(w, s, |failed| + 1, last, trial, marks, latest) && trial.Passes?
    requires Executable(w, s, |failed| + 1) && (s', run) == Committing(w, s, failed)
    ensures IsRun(w, s, true, maxRepairs, failed, run, s')
  {
    hide TrialOf, Retries, ExhaustedWord, LastPlan, LastReceipt, LastReport, Committing;
  }

  lemma PreviewedIsRun(w: World, s: Store, maxRepairs: nat, failed: seq<AttemptEnd>, trace: seq<Mark>, last: Latest,
                       trial: Trial, marks: seq<Mark>, latest: Latest, run: AgentRun)
    requires Midway(w, s, maxRepairs, failed, trace, last) && |failed| <= maxRepairs
    requires Attempted(w, s, |failed| + 1, last, trial, marks, latest) && trial.Passes?
    requires run == AgentRun(PreviewedRun, latest.plan, latest.receipt, latest.report,
                             Numbered(trace + marks + [Mark(Commit, PreviewOnly, 0)]), |failed| + 1, None)
    ensures IsRun(w, s, false, maxRepairs, failed, run, s)
  {
    hide TrialOf, Retries, ExhaustedWord, LastPlan, LastReceipt, LastReport, Committing, ExecuteOn, Numbered;
  }

  lemma ExhaustedIsRun(w: World, s: Store, apply: bool, maxRepairs: nat, failed: seq<AttemptEnd>, trace: seq<Mark>,
                       last: Latest, run: AgentRun)
    requires Midway(w, s, maxRepairs, failed, trace, last) && |failed| == maxRepairs + 1
    requires run == AgentRun(RefusedByAgent, last.plan, last.receipt, last.report,
                             Numbered(trace + [Mark(Refuse, RepairBudgetExhausted, 0)]), |failed|, None)
    ensures IsRun(w, s, apply, maxRepairs, failed, run, s)
  {
    hide TrialOf, Retries, ExhaustedWord, LastPlan, LastReceipt, LastReport, Numbered;
  }

  lemma FailureExtends(w: World, s: Store, maxRepairs: nat, failed: seq<AttemptEnd>, trace: seq<Mark>, last: Latest,
                       trial: Trial, marks: seq<Mark>, latest: Latest)
    requires Midway(w, s, maxRepairs, failed, trace, last) && |failed| <= maxRepairs
    requires Attempted(w, s, |failed| + 1, last, trial, marks, latest) && trial.Fails?
    ensures var more := if |failed| < maxRepairs then [Mark(Repair, Requested, 0)] else [];
            Midway(w, s, maxRepairs, failed + [trial.end], trace + marks + more, latest)
  {
    var longer := failed + [trial.end];
    assert longer[..|failed|] == failed;
    hide TrialOf, FailedMarks, PreviewReceipt;
    assert AllFailed(w, s, longer);
    LatestOfLonger(w, s, failed, trial.end);
    hide LastPlan, LastReceipt, LastReport;
    if |failed| == maxRepairs {
      assert trace + marks + [] == trace + marks;
    }
  }

  lemma LatestOfLonger(w: World, s: Store, failed: seq<AttemptEnd>, end: AttemptEnd)
    requires AllFailed(w, s, failed + [end])
    ensures AllFailed(w, s, failed)
    ensures var longer, a := failed + [end], |failed| + 1;
      && TrialOf(w, s, a) == Fails(end)
      && LastPlan(w, s, longer) == (if end.PlanFailed? then LastPlan(w, s, failed) else Some(w.propose(a).plan))
      && LastReceipt(w, s, longer)
         == (if end.PreviewRejected? then Some(PreviewReceipt(w, s, a)) else LastReceipt(w, s, failed))
      && LastReport(w, s, longer)
         == (if end.PreviewRejected? then Some(w.verdict(a, PreviewReceipt(w, s, a))) else LastReport(w, s, failed))
  {
    var longer := failed + [end];
    assert longer[..|failed|] == failed;
    assert forall i | 0 <= i < |failed| :: longer[i] == failed[i];
    assert TrialOf(w, s, |failed| + 1) == Fails(longer[|failed|]);
    hide TrialOf, PreviewReceipt;
  }

  class NativeCADAgent {
    const adapter: MemoryKernelAdapter
    const maxRepairs: nat

    constructor (adapter: MemoryKernelAdapter, maxRepairs: nat)
      ensures this.adapter == adapter && this.maxRepairs == maxRepairs
    {
      this.adapter, this.maxRepairs := adapter, maxRepairs;
    }

    method Run(w: World, adapterId: string, documentId: string, compiles: bool, apply: bool)
      returns (result: RunResult, ghost failed: seq<AttemptEnd>)
      requires adapter.Valid()
      modifies adapter
      ensures adapter.Valid()
      ensures result.Raised? <==> adapterId != ADAPTER_ID || !compiles
      ensures !result.Finished? ==> adapter.store == old(adapter.store)
      ensures result.Raised? ==> result.trace == Numbered(
        if adapterId != ADAPTER_ID then [Mark(Observe, Failed, 0)]
        else [Mark(Observe, Okay, 0), Mark(Compile, Failed, 0)])
      ensures result.Escaped? <==>
        adapterId == ADAPTER_ID && compiles && EscapesFirst(w, old(adapter.store), maxRepairs)
      ensures result.Finished? ==> IsRun(w, old(adapter.store), apply, maxRepairs, failed, result.run, adapter.store)
    {
      failed := [];
      if adapterId != ADAPTER_ID {
        var events := Publish([Mark(Observe, Failed, 0)]);
        return Raised(events), [];
      }
      var snapshot := adapter.Observe(documentId);
      var trace := [Mark(Observe, Okay, 0)];
      if !compiles {
        var events := Publish(trace + [Mark(Compile, Failed, 0)]);
        return Raised(events), [];
      }
      trace := trace + [Mark(Compile, Okay, 0)];
      var run;
      run, failed := Attempts(w, apply, trace);
      hide IsRun, IsEscape, EscapesFirst;
      if run.Some? {
        RunMeetsNoException(w, old(adapter.store), apply, maxRepairs, failed, run.value, adapter.store);
        result := Finished(run.value);
      } else {
        EscapeComesFirst(w, old(adapter.store), maxRepairs, failed);
        result := Escaped;
      }
    }

    /** The repair loop; None when an attempt raises. */
    method Attempts(w: World, apply: bool, prologue: seq<Mark>)
      returns (run: Option<AgentRun>, ghost failed: seq<AttemptEnd>)
      requires adapter.Valid() && prologue == PROLOGUE
      modifies adapter
      ensures adapter.Valid()
      ensures run.None? ==> IsEscape(w, old(adapter.store), maxRepairs, failed) && adapter.store == old(adapter.store)
      ensures run.Some? ==> IsRun(w, old(adapter.store), apply, maxRepairs, failed, run.value, adapter.store)
    {
      hide *;
      ghost var s := adapter.store;
      failed := [];
      var trace := prologue;
      var last := Latest(None, None, None);
      var attempts := 0;
      NothingTried(w, s, maxRepairs);
      while attempts < maxRepairs + 1
        invariant 0 <= attempts == |failed| <= maxRepairs + 1
        invariant adapter.Valid() && adapter.store == s
        invariant Midway(w, s, maxRepairs, failed, trace, last)
      {
        attempts := attempts + 1;
        var trial, marks, latest := Attempt(w, attempts, last);
        if trial.Escapes? {
          EscapesNow(w, s, maxRepairs, failed, trace, last, trial, marks, latest);
          return None, failed;
        }
        if trial.Passes? {
          var concluded := Conclude(w, apply, failed, trace, last, trial, marks, latest, attempts);
          return Some(concluded), failed;
        }
        FailureExtends(w, s, maxRepairs, failed, trace, last, trial, marks, latest);
        assert trace + marks + [] == trace + marks;
        trace := trace + marks;
        if attempts < maxRepairs + 1 {
          trace := trace + [Mark(Repair, Requested, 0)];
        }
        failed := failed + [trial.end];
        last := latest;
      }
      var refused := GiveUp(w, apply, failed, trace, last, attempts);
      run := Some(refused);
    }

    /** No attempt passed: report the latest plan, receipt and report. */
    method GiveUp(w: World, apply: bool, ghost failed: seq<AttemptEnd>, trace: seq<Mark>, last: Latest, attempts: nat)
      returns (run: AgentRun)
      requires adapter.Valid() && attempts == |failed| == maxRepairs + 1
      requires Midway(w, adapter.store, maxRepairs, failed, trace, last)
      ensures adapter.Valid()
      ensures IsRun(w, adapter.store, apply, maxRepairs, failed, run, adapter.store)
    {
      hide Midway, IsRun;
      var events := Publish(trace + [Mark(Refuse, RepairBudgetExhausted, 0)]);
      run := AgentRun(RefusedByAgent, last.plan, last.receipt, last.report, events, attempts, None);
      ExhaustedIsRun(w, adapter.store, apply, maxRepairs, failed, trace, last, run);
    }

    /** After an accepted preview: commit, verify again and undo, or stop at the preview. */
    method Conclude(w: World, apply: bool, ghost failed: seq<AttemptEnd>, trace: seq<Mark>, ghost last: Latest,
                    trial: Trial, marks: seq<Mark>, latest: Latest, attempts: nat)
      returns (run: AgentRun)
      requires adapter.Valid() && attempts == |failed| + 1 <= maxRepairs + 1 && trial.Passes?
      requires Midway(w, adapter.store, maxRepairs, failed, trace, last)
      requires Attempted(w, adapter.store, attempts, last, trial, marks, latest)
      modifies adapter
      ensures adapter.Valid()
      ensures IsRun(w, old(adapter.store), apply, maxRepairs, failed, run, adapter.store)
    {
      ghost var s := adapter.store;
      hide ExecuteOn, Midway, IsRun, Attempted, Executable;
      if apply {
        PassedFacts(w, s, maxRepairs, failed, trace, last, trial, marks, latest);
        run := CommitOrUndo(w, attempts, latest.plan.value, trace + marks, failed);
        CommittedIsRun(w, s, maxRepairs, failed, trace, last, trial, marks, latest, run, adapter.store);
      } else {
        var events := Publish(trace + marks + [Mark(Commit, PreviewOnly, 0)]);
        run := AgentRun(PreviewedRun, latest.plan, latest.receipt, latest.report, events, attempts, None);
        PreviewedIsRun(w, s, maxRepairs, failed, trace, last, trial, marks, latest, run);
      }
    }

    /** One proposal up to and including its preview verification. */
    method Attempt(w: World, a: nat, last: Latest) returns (trial: Trial, marks: seq<Mark>, latest: Latest)
      requires adapter.Valid()
      modifies adapter
      ensures adapter.Valid() && adapter.store == old(adapter.store)
      ensures Attempted(w, adapter.store, a, last, trial, marks, latest)
    {
      trial, marks, latest := Escapes, [], last;
      var proposal := w.propose(a);
      if proposal.PlanningError? {
        return Fails(PlanFailed), [Mark(Plan, Failed, a)], last;
      }
      if proposal.ProposalRaises? {
        return;
      }
      latest := last.(plan := Some(proposal.plan));
      marks := marks + [Mark(Plan, Okay, a)];
      var diagnostics := adapter.Validate(proposal.plan);
      if diagnostics != [] {
        return Fails(PreflightFailed), marks + [Mark(Preflight, Failed, a)], latest;
      }
      marks := marks + [Mark(Preflight, Okay, a)];
      var returned := adapter.Execute(proposal.plan, true, w.previewId(a));
      PreviewWritesNothing(old(adapter.store), proposal.plan, w.previewId(a));
      hide ExecuteOn, Diagnose, SnapshotRaises;
      if returned.None? {
        return;
      }
      var preview := returned.value;
      marks := marks + [Mark(Execute, Preview, a)];
      var verdict := w.verdict(a, preview);
      marks := marks + [Mark(Verify, if verdict.accepted then Tracing.Accepted else Rejected, a)];
      trial := if verdict.accepted then Passes else Fails(PreviewRejected);
      latest := latest.(receipt := Some(preview), report := Some(verdict));
    }

    method CommitOrUndo(w: World, a: nat, plan: ActionPlan, trace: seq<Mark>, ghost failed: seq<AttemptEnd>)
      returns (run: AgentRun)
      requires adapter.Valid()
      requires a == |failed| + 1 && w.propose(a) == Proposed(plan) && Executable(w, adapter.store, a)
      requires trace == Retries(failed) + PreviewMarks(a, Tracing.Accepted)
      modifies adapter
      ensures adapter.Valid()
      ensures (adapter.store, run) == Committing(w, old(adapter.store), failed)
    {
      hide ExecuteOn, RollbackOn, Diagnose, SnapshotRaises, Retries, PreviewMarks, Numbered;
      ReturnsUnlessRaises(adapter.store, plan, false, w.applyId(a));
      var returned := adapter.Execute(plan, false, w.applyId(a));
      var receipt := returned.value;
      var report := w.verdict(a, receipt);
      var rollback: Option<ExecutionReceipt> := None;
      var status := CommittedRun;
      var marks := [Mark(Execute, if receipt.Accepted() then AppliedRun else RefusedRun, a)];
      marks := marks + [Mark(Verify, if report.accepted then Tracing.Accepted else Rejected, a)];
      if report.accepted {
        marks := marks + [Mark(Commit, Committed, 0)];
      } else {
        status := RefusedByAgent;
        if receipt.Accepted() {
          var undone := adapter.Rollback(receipt.receiptId, w.rollbackId(a));
          rollback := Some(undone);
          status := if undone.Accepted() then RolledBackRun else RefusedByAgent;
          marks := marks + [Mark(Rollback, if undone.Accepted() then RollbackDone else RollbackRefused, 0)];
        }
        marks := marks + [Mark(Refuse, PostCommitVerificationFailed, 0)];
      }
      assert marks == EndingOf(a, receipt, report.accepted, rollback);
      hide EndingOf;
      var events := Publish(trace + marks);
      run := AgentRun(status, Some(plan), Some(receipt), Some(report), events, a, rollback);
    }
  }

  /** Record the marks of a finished run one by one. */
  method Publish(marks: seq<Mark>) returns (events: seq<TraceEvent>)
    ensures events == Numbered(marks)
  {
    var builder := new TraceBuilder();
    for i := 0 to |marks|
      invariant builder.Valid() && fresh(builder) && builder.word == marks[..i]
    {
      builder.Record(marks[i].phase, marks[i].status, marks[i].attempt);
    }
    events := builder.Finish();
  }
}
