/** What every run of the agent guarantees, whatever planner and verifier do. */
module AgentSafety {
  import opened Contracts
  import opened MemoryAdapter
  import opened Verification
  import opened Tracing
  import opened NativeAgent

  // ----------------------------------------------- no effect unless committed

  /** Rolling back the application just made restores documents and undo table exactly. */
  lemma ApplyThenRollback(s: Store, plan: ActionPlan, receiptId: string, newReceiptId: string)
    requires receiptId !in s.undo && !SnapshotRaises(s, plan)
    requires ExecuteOn(s, plan, false, receiptId).1.value.Accepted()
    ensures var (s', rollback) := RollbackOn(ExecuteOn(s, plan, false, receiptId).0, receiptId, newReceiptId);
      s' == s && rollback.status == RolledBack
  {
    var applied := ExecuteOn(s, plan, false, receiptId).0;
    var s' := RollbackOn(applied, receiptId, newReceiptId).0;
    assert applied.undo - {receiptId} == s.undo;
    if Lookup(s, plan.documentId).None? {
      assert applied.documents - {plan.documentId} == s.documents;
    } else {
      assert applied.documents[plan.documentId := s.documents[plan.documentId]] == s.documents;
    }
  }

  /** Previews, refusals and calls that raise never touch the store. */
  lemma OnlyAppliedWrites(s: Store, plan: ActionPlan, dryRun: bool, receiptId: string)
    ensures var (s', returned) := ExecuteOn(s, plan, dryRun, receiptId);
      && (returned.None? <==> SnapshotRaises(s, plan))
      && (returned.None? ==> s' == s)
      && (returned.Some? ==>
            var receipt := returned.value;
            && (receipt.status != Applied ==> s' == s)
            && (receipt.status == Applied ==> Lookup(s', plan.documentId) == receipt.after)
            && receipt.before == Lookup(s, plan.documentId)
            && (receipt.status == Applied ==> !dryRun)
            && receipt.status in {Applied, DryRun, Refused} && receipt.planId == plan.planId)
  {
  }

  /** Whatever planner and verifier answer, a run that does not end committed leaves documents and
      undo table as they were. */
  lemma NoNetEffectUnlessCommitted(w: World, s: Store, apply: bool, maxRepairs: nat, failed: seq<AttemptEnd>,
                                   run: AgentRun, s': Store)
    requires IsRun(w, s, apply, maxRepairs, failed, run, s') && FreshIds(w, s)
    ensures run.status != CommittedRun ==> s' == s
    ensures run.status == CommittedRun ==> apply
  {
    if |failed| <= maxRepairs && apply {
      var a := |failed| + 1;
      assert Executable(w, s, a);
      OnlyAppliedWrites(s, w.propose(a).plan, false, w.applyId(a));
      if ExecuteOn(s, w.propose(a).plan, false, w.applyId(a)).1.value.Accepted() {
        ApplyThenRollback(s, w.propose(a).plan, w.applyId(a), w.rollbackId(a));
      }
      hide TrialOf, SnapshotRaises, RollbackOn;
    }
  }

  /** A committed run changed the store by exactly one real execution of its own plan, whose preview
      and whose receipt the verifier both accepted. */
  lemma CommittedIsOneVerifiedExecution(w: World, s: Store, apply: bool, maxRepairs: nat, failed: seq<AttemptEnd>,
                                        run: AgentRun, s': Store)
    requires IsRun(w, s, apply, maxRepairs, failed, run, s') && run.status == CommittedRun
    ensures run.plan == Some(w.propose(run.attempts).plan) && Executable(w, s, run.attempts)
    ensures (s', run.receipt) == ExecuteOn(s, w.propose(run.attempts).plan, false, w.applyId(run.attempts))
    ensures w.verdict(run.attempts, PreviewReceipt(w, s, run.attempts)).accepted
    ensures run.receipt.Some? && w.verdict(run.attempts, run.receipt.value).accepted
  {
    hide RollbackOn, Diagnose, SnapshotRaises;
    assert |failed| <= maxRepairs;
    assert TrialOf(w, s, |failed| + 1).Passes?;
    OnlyAppliedWrites(s, w.propose(|failed| + 1).plan, false, w.applyId(|failed| + 1));
    hide ExecuteOn;
  }

  // -------------------------------------------------- with the real verifier

  /** The verifier is the deterministic contract verifier. */
  ghost predicate Judges(w: World, contract: DesignContract)
  {
    forall a, r :: w.verdict(a, r) == Judge(contract, r)
  }

  /** A preview predicts the execution it precedes: same snapshots, accepted together. */
  lemma PreviewPredicts(s: Store, plan: ActionPlan, previewId: string, applyId: string)
    ensures ExecuteOn(s, plan, true, previewId).1.None? <==> ExecuteOn(s, plan, false, applyId).1.None?
    ensures !SnapshotRaises(s, plan) ==>
      var preview, applied := ExecuteOn(s, plan, true, previewId).1.value, ExecuteOn(s, plan, false, applyId).1.value;
      && preview.before == applied.before && preview.after == applied.after
      && preview.Accepted() == applied.Accepted() && preview.diagnostics == applied.diagnostics
  {
  }

  /** With the contract verifier a plan whose preview is accepted is always committed: no run is
      ever rolled back, and a refusal always means the repair budget ran out. */
  lemma PreviewAcceptedMeansCommitted(w: World, contract: DesignContract, s: Store, apply: bool, maxRepairs: nat,
                                      failed: seq<AttemptEnd>, run: AgentRun, s': Store)
    requires IsRun(w, s, apply, maxRepairs, failed, run, s') && Judges(w, contract)
    ensures run.status != RolledBackRun
    ensures run.status == RefusedByAgent <==> |failed| == maxRepairs + 1
    ensures run.status == CommittedRun <==> apply && |failed| <= maxRepairs
    ensures run.status == CommittedRun ==> run.receipt.Some? && run.receipt.value.status == Applied
    ensures run.status == CommittedRun ==> Judge(contract, run.receipt.value).accepted
  {
    if |failed| <= maxRepairs {
      var a := |failed| + 1;
      var plan := w.propose(a).plan;
      assert TrialOf(w, s, a).Passes? && Executable(w, s, a);
      var preview, applied := PreviewReceipt(w, s, a), ExecuteOn(s, plan, false, w.applyId(a)).1.value;
      PreviewPredicts(s, plan, w.previewId(a), w.applyId(a));
      OnlyAppliedWrites(s, plan, false, w.applyId(a));
      AcceptedMeaning(contract, preview);
      VerdictIgnoresIdentity(contract, preview, applied);
      AppliedIfAccepted(s, plan, w.applyId(a));
      hide ExecuteOn, RollbackOn, Diagnose, Judge, SnapshotRaises;
      assert w.verdict(a, applied).accepted;
    }
  }

  lemma AppliedIfAccepted(s: Store, plan: ActionPlan, receiptId: string)
    requires !SnapshotRaises(s, plan)
    ensures var r := ExecuteOn(s, plan, false, receiptId).1.value; r.Accepted() <==> r.status == Applied
  {
  }

  // ------------------------------------------------------ runs in sequence

  /** One committed run of the agent under a contract. */
  datatype CommittedStep = CommittedStep(
    w: World, contract: DesignContract, maxRepairs: nat, failed: seq<AttemptEnd>, run: AgentRun)

  /** Consecutive committed runs on one document, from store to store. */
  ghost predicate CommitChain(stores: seq<Store>, commits: seq<CommittedStep>, documentId: string)
  {
    && |stores| == |commits| + 1
    && forall i | 0 <= i < |commits| :: CommitStep(stores[i], commits[i], stores[i + 1], documentId)
  }

  ghost predicate CommitStep(s: Store, c: CommittedStep, s': Store, documentId: string)
  {
    && IsRun(c.w, s, true, c.maxRepairs, c.failed, c.run, s') && Judges(c.w, c.contract)
    && c.run.status == CommittedRun && c.run.plan.value.documentId == documentId
  }

  lemma CommitReceipt(s: Store, c: CommittedStep, s': Store, documentId: string)
    requires CommitStep(s, c, s', documentId)
    ensures c.run.receipt.Some? && Judge(c.contract, c.run.receipt.value).accepted
    ensures c.run.receipt.value.before == Lookup(s, documentId)
    ensures c.run.receipt.value.after == Lookup(s', documentId)
  {
    PreviewAcceptedMeansCommitted(c.w, c.contract, s, true, c.maxRepairs, c.failed, c.run, s');
    CommittedIsOneVerifiedExecution(c.w, s, true, c.maxRepairs, c.failed, c.run, s');
    OnlyAppliedWrites(s, c.run.plan.value, false, c.w.applyId(c.run.attempts));
  }

  ghost predicate CarriedBy(k: PredicateKind, commits: seq<CommittedStep>)
  {
    forall i | 0 <= i < |commits| :: exists p :: p in commits[i].contract.invariants && p.kind == k
  }

  /** Whatever preservation invariant every one of n consecutive committed runs carried holds between
      the first document and the last, and a feature-count bound m holds with bound n * m. */
  lemma CommittedRunsPreserve(stores: seq<Store>, commits: seq<CommittedStep>, documentId: string, k: PredicateKind)
    requires commits != [] && CommitChain(stores, commits, documentId) && CarriedBy(k, commits)
    requires k.PreserveFeature? || k.PreserveParameter? || k.MaxFeatureDelta?
    ensures Holds(if k.MaxFeatureDelta? then MaxFeatureDelta(|commits| * k.maximum) else k,
                  Lookup(stores[0], documentId), Lookup(stores[|commits|], documentId))
  {
    hide CommitStep, Judge, Holds, Lookup, IsRun;
    var n := |commits|;
    forall i | 0 <= i < n
      ensures commits[i].run.receipt.Some?
      ensures Judge(commits[i].contract, commits[i].run.receipt.value).accepted
      ensures commits[i].run.receipt.value.before == Lookup(stores[i], documentId)
      ensures commits[i].run.receipt.value.after == Lookup(stores[i + 1], documentId)
    {
      CommitReceipt(stores[i], commits[i], stores[i + 1], documentId);
    }
    var contracts := seq(n, i requires 0 <= i < n => commits[i].contract);
    var receipts := seq(n, i requires 0 <= i < n => commits[i].run.receipt.value);
    assert Chained(receipts);
    assert CarriedThroughout(k, contracts, receipts);
    if k.MaxFeatureDelta? {
      DeltaChains(k.maximum, contracts, receipts);
    } else {
      PreservationChains(k, contracts, receipts);
    }
  }

  // ------------------------------------------------------------- the trace

  function CountPhase(word: seq<Mark>, phase: AgentPhase): nat
  {
    if word == [] then 0
    else CountPhase(word[..|word| - 1], phase) + (if word[|word| - 1].phase == phase then 1 else 0)
  }

  lemma {:induction false} CountPhaseSplits(a: seq<Mark>, b: seq<Mark>, phase: AgentPhase)
    ensures CountPhase(a + b, phase) == CountPhase(a, phase) + CountPhase(b, phase)
  {
    if b == [] {
      assert a + b == a;
    } else {
      assert (a + b)[..|a + b| - 1] == a + b[..|b| - 1];
      CountPhaseSplits(a, b[..|b| - 1], phase);
    }
  }

  /** The marks a run's trace numbers. */
  function Word(run: AgentRun): seq<Mark>
  {
    seq(|run.trace|, i requires 0 <= i < |run.trace| => run.trace[i].mark)
  }

  predicate RealExecution(m: Mark)
  {
    m.phase == Execute && m.status != Preview
  }

  /** No repair request and no real execution. */
  predicate Quiet(marks: seq<Mark>)
  {
    forall i | 0 <= i < |marks| :: marks[i].phase != Repair && !RealExecution(marks[i])
  }

  lemma {:induction false} QuietCounts(marks: seq<Mark>)
    requires Quiet(marks)
    ensures CountPhase(marks, Repair) == 0
  {
    if marks != [] {
      QuietCounts(marks[..|marks| - 1]);
    }
  }

  lemma AttemptsAreQuiet(end: AttemptEnd, a: nat, verdict: EventStatus)
    ensures Quiet(FailedMarks(end, a)) && Quiet(PreviewMarks(a, verdict))
  {
  }

  lemma {:induction false} RetriesShape(failed: seq<AttemptEnd>)
    ensures CountPhase(Retries(failed), Repair) == |failed|
    ensures forall i | 0 <= i < |Retries(failed)| :: !RealExecution(Retries(failed)[i])
  {
    RetriesAreUnreal(failed);
    hide RealExecution;
    if failed == [] {
      assert Quiet(PROLOGUE) by { PrologueIsQuiet(); }
      QuietCounts(PROLOGUE);
    } else {
      var n := |failed| - 1;
      RetriesShape(failed[..n]);
      AttemptsAreQuiet(failed[n], n + 1, Rejected);
      RetryCounts(Retries(failed[..n]), FailedMarks(failed[n], n + 1));
    }
  }

  lemma PrologueIsQuiet()
    ensures Quiet(PROLOGUE)
  {
  }

  lemma {:induction false} RetriesAreUnreal(failed: seq<AttemptEnd>)
    ensures forall i | 0 <= i < |Retries(failed)| :: !RealExecution(Retries(failed)[i])
  {
    if failed != [] {
      var n := |failed| - 1;
      RetriesAreUnreal(failed[..n]);
      AttemptsAreQuiet(failed[n], n + 1, Rejected);
      hide FailedMarks;
    }
  }

  lemma RetryCounts(before: seq<Mark>, attempt: seq<Mark>)
    requires Quiet(attempt)
    ensures CountPhase(before + attempt + [Mark(Repair, Requested, 0)], Repair) == CountPhase(before, Repair) + 1
  {
    QuietCounts(attempt);
    CountPhaseSplits(before, attempt, Repair);
    assert (before + attempt + [Mark(Repair, Requested, 0)])[..|before + attempt|] == before + attempt;
  }

  /** The marks after the accepted preview of a passing attempt. */
  predicate IsEnding(ending: seq<Mark>, a: nat)
  {
    if |ending| < 3 then ending == [Mark(Commit, PreviewOnly, 0)]
    else
      && RealExecution(ending[0]) && ending[0].attempt == a && ending[1].phase == Verify
      && if |ending| == 3 then ending[2] == Mark(Commit, Committed, 0) || ending[2].phase == Refuse
         else |ending| == 4 && ending[2].phase == Rollback && ending[3].phase == Refuse
  }

  /** The ending says what became of the accepted preview, in the words of the run's own status, receipt and
      rollback: not committed at all; executed, verified and committed; or executed and not verified, and then
      rolled back, not rolled back, or with nothing to roll back. */
  ghost predicate Ends(ending: seq<Mark>, run: AgentRun)
  {
    var a := run.attempts;
    match run.status
    case PreviewedRun => ending == [Mark(Commit, PreviewOnly, 0)]
    case CommittedRun =>
      run.receipt.Some? && run.rollbackReceipt.None? && |ending| == 3 && ExecutionMark(ending[0], run.receipt.value, a)
      && ending[1] == Mark(Verify, Tracing.Accepted, a) && ending[2] == Mark(Commit, Committed, 0)
    case RolledBackRun =>
      run.receipt.Some? && run.receipt.value.Accepted() && run.rollbackReceipt.Some?
      && ending == [Mark(Execute, AppliedRun, a), Mark(Verify, Rejected, a), Mark(Rollback, RollbackDone, 0),
                    Mark(Refuse, PostCommitVerificationFailed, 0)]
    case RefusedByAgent =>
      if run.rollbackReceipt.Some? then
        ending == [Mark(Execute, AppliedRun, a), Mark(Verify, Rejected, a), Mark(Rollback, RollbackRefused, 0),
                   Mark(Refuse, PostCommitVerificationFailed, 0)]
      else
        ending == [Mark(Execute, RefusedRun, a), Mark(Verify, Rejected, a),
                   Mark(Refuse, PostCommitVerificationFailed, 0)]
  }

  ghost predicate ExecutionMark(m: Mark, receipt: ExecutionReceipt, a: nat)
  {
    m.phase == Execute && m.attempt == a && (m.status == AppliedRun <==> receipt.Accepted())
    && (m.status == RefusedRun <==> !receipt.Accepted())
  }

  /** The word of a run is the failed attempts, each but an exhausting one followed by a repair
      request, and then a refusal or an accepted preview with its ending. */
  lemma WordOfRun(w: World, s: Store, apply: bool, maxRepairs: nat, failed: seq<AttemptEnd>, run: AgentRun, s': Store)
    returns (ending: seq<Mark>)
    requires IsRun(w, s, apply, maxRepairs, failed, run, s')
    ensures |failed| == maxRepairs + 1 ==> Word(run) == ExhaustedWord(failed) && run.attempts == |failed|
    ensures |failed| <= maxRepairs ==> Word(run) == PassedWord(failed, ending) && IsEnding(ending, run.attempts)
                                       && run.attempts == |failed| + 1 && Ends(ending, run)
    ensures run.trace == Numbered(Word(run))
  {
    hide Retries, PassedWord, ExhaustedWord, Numbered, Concluded, TrialOf, SnapshotRaises, IsEnding, Word, Ends;
    ending := [];
    if |failed| == maxRepairs + 1 {
      WordNumbers(run, ExhaustedWord(failed));
      ExhaustedAttempts(w, s, failed);
    } else {
      ending := ConcludedTrace(w, s, apply, failed);
      WordNumbers(run, PassedWord(failed, ending));
    }
  }

  lemma WordNumbers(run: AgentRun, word: seq<Mark>)
    requires run.trace == Numbered(word)
    ensures Word(run) == word
  {
  }

  lemma ExhaustedAttempts(w: World, s: Store, failed: seq<AttemptEnd>)
    requires failed != [] && AllFailed(w, s, failed)
    ensures Exhausted(w, s, failed).attempts == |failed|
  {
    hide AllFailed, LastPlan, LastReceipt, LastReport;
  }

  lemma ConcludedTrace(w: World, s: Store, apply: bool, failed: seq<AttemptEnd>) returns (ending: seq<Mark>)
    requires Executable(w, s, |failed| + 1)
    ensures Concluded(w, s, apply, failed).1.trace == Numbered(PassedWord(failed, ending))
    ensures Concluded(w, s, apply, failed).1.attempts == |failed| + 1 && IsEnding(ending, |failed| + 1)
    ensures Ends(ending, Concluded(w, s, apply, failed).1)
  {
    if !apply {
      return [Mark(Commit, PreviewOnly, 0)];
    }
    ending := CommittingTrace(w, s, failed);
  }

  lemma CommittingTrace(w: World, s: Store, failed: seq<AttemptEnd>) returns (ending: seq<Mark>)
    requires Executable(w, s, |failed| + 1)
    ensures Committing(w, s, failed).1.trace == Numbered(PassedWord(failed, ending))
    ensures Committing(w, s, failed).1.attempts == |failed| + 1 && IsEnding(ending, |failed| + 1)
    ensures Ends(ending, Committing(w, s, failed).1)
  {
    var run := Committing(w, s, failed).1;
    hide RollbackOn, PassedWord, Numbered, ExecuteOn, SnapshotRaises, IsEnding;
    ending := EndingOf(|failed| + 1, run.receipt.value, run.verification.value.accepted, run.rollbackReceipt);
    EndingIsEnding(|failed| + 1, run.receipt.value, run.verification.value.accepted, run.rollbackReceipt);
  }

  lemma EndingIsEnding(a: nat, receipt: ExecutionReceipt, accepted: bool, rollback: Option<ExecutionReceipt>)
    ensures IsEnding(EndingOf(a, receipt, accepted, rollback), a)
  {
  }

  /** Every run's trace numbers its events by position and requests exactly one repair less than it
      makes attempts; there are at most maxRepairs + 1 attempts, and that many on exhaustion. */
  lemma TraceCounts(w: World, s: Store, apply: bool, maxRepairs: nat, failed: seq<AttemptEnd>, run: AgentRun, s': Store)
    requires IsRun(w, s, apply, maxRepairs, failed, run, s')
    ensures forall i | 0 <= i < |run.trace| :: run.trace[i].sequence == i
    ensures CountPhase(Word(run), Repair) == run.attempts - 1
    ensures 1 <= run.attempts <= maxRepairs + 1
    ensures |failed| == maxRepairs + 1 ==> run.attempts == maxRepairs + 1
  {
    var ending := WordOfRun(w, s, apply, maxRepairs, failed, run, s');
    hide IsRun, Retries;
    if |failed| == maxRepairs + 1 {
      var n := |failed| - 1;
      ExhaustedCounts(failed);
    } else {
      PassedCounts(failed, ending);
    }
  }

  lemma ExhaustedCounts(failed: seq<AttemptEnd>)
    requires failed != []
    ensures CountPhase(ExhaustedWord(failed), Repair) == |failed| - 1
    ensures forall i | 0 <= i < |ExhaustedWord(failed)| :: !RealExecution(ExhaustedWord(failed)[i])
  {
    var n := |failed| - 1;
    var marks, last := FailedMarks(failed[n], n + 1), [Mark(Refuse, RepairBudgetExhausted, 0)];
    RetriesShape(failed[..n]);
    AttemptsAreQuiet(failed[n], n + 1, Rejected);
    QuietCounts(marks);
    QuietCounts(last);
    CountPhaseSplits(Retries(failed[..n]), marks, Repair);
    CountPhaseSplits(Retries(failed[..n]) + marks, last, Repair);
  }

  lemma PassedCounts(failed: seq<AttemptEnd>, ending: seq<Mark>)
    requires IsEnding(ending, |failed| + 1)
    ensures CountPhase(PassedWord(failed, ending), Repair) == |failed|
  {
    var marks := PreviewMarks(|failed| + 1, Tracing.Accepted);
    RetriesShape(failed);
    AttemptsAreQuiet(PlanFailed, |failed| + 1, Tracing.Accepted);
    QuietCounts(marks);
    CountPhaseSplits(Retries(failed), marks, Repair);
    CountPhaseSplits(Retries(failed) + marks, ending, Repair);
    EndingHasNoRepair(ending, |failed| + 1);
  }

  lemma EndingHasNoRepair(ending: seq<Mark>, a: nat)
    requires IsEnding(ending, a)
    ensures CountPhase(ending, Repair) == 0
  {
    if |ending| == 3 {
      assert ending == [ending[0]] + [ending[1]] + [ending[2]];
      CountPhaseSplits([ending[0]] + [ending[1]], [ending[2]], Repair);
      CountPhaseSplits([ending[0]], [ending[1]], Repair);
    } else if |ending| == 4 {
      assert ending == [ending[0]] + [ending[1]] + [ending[2]] + [ending[3]];
      CountPhaseSplits([ending[0]] + [ending[1]] + [ending[2]], [ending[3]], Repair);
      CountPhaseSplits([ending[0]] + [ending[1]], [ending[2]], Repair);
      CountPhaseSplits([ending[0]], [ending[1]], Repair);
    }
  }

  /** A real execution in the trace directly follows the accepted verification of a preview made in
      the same attempt, so of the same plan; and there is at most one per run. */
  lemma ExecutionFollowsAcceptedPreview(
    w: World, s: Store, apply: bool, maxRepairs: nat, failed: seq<AttemptEnd>, run: AgentRun, s': Store, i: nat)
    requires IsRun(w, s, apply, maxRepairs, failed, run, s')
    requires i < |run.trace| && RealExecution(run.trace[i].mark)
    ensures i >= 2 && run.trace[i].mark.attempt == run.attempts
    ensures run.trace[i - 1].mark == Mark(Verify, Tracing.Accepted, run.attempts)
    ensures run.trace[i - 2].mark == Mark(Execute, Preview, run.attempts)
    ensures forall j | 0 <= j < |run.trace| && RealExecution(run.trace[j].mark) :: j == i
  {
    assert |failed| <= maxRepairs + 1;
    hide IsRun, ExhaustedWord, PassedWord, Retries, Numbered, IsEnding, RealExecution, FollowsPreview, Word;
    var ending := WordOfRun(w, s, apply, maxRepairs, failed, run, s');
    MarkOfWord(run, i);
    if |failed| == maxRepairs + 1 {
      ExhaustedCounts(failed);
    } else {
      PassedFollows(failed, ending, i);
      ReadInTrace(run, i);
    }
  }

  /** The only real execution of the word is the mark at i, right after an accepted preview of attempt a. */
  ghost predicate FollowsPreview(word: seq<Mark>, a: nat, i: nat)
  {
    && 2 <= i < |word| && word[i].attempt == a
    && word[i - 1] == Mark(Verify, Tracing.Accepted, a) && word[i - 2] == Mark(Execute, Preview, a)
    && forall j | 0 <= j < |word| && RealExecution(word[j]) :: j == i
  }

  lemma MarkOfWord(run: AgentRun, i: nat)
    requires i < |run.trace|
    ensures i < |Word(run)| && Word(run)[i] == run.trace[i].mark
  {
  }

  lemma ReadInTrace(run: AgentRun, i: nat)
    requires FollowsPreview(Word(run), run.attempts, i)
    ensures 2 <= i < |run.trace| && run.trace[i].mark.attempt == run.attempts
    ensures run.trace[i - 1].mark == Mark(Verify, Tracing.Accepted, run.attempts)
    ensures run.trace[i - 2].mark == Mark(Execute, Preview, run.attempts)
    ensures forall j | 0 <= j < |run.trace| && RealExecution(run.trace[j].mark) :: j == i
  {
    hide RealExecution;
    assert forall j | 0 <= j < |run.trace| :: Word(run)[j] == run.trace[j].mark;
  }

  lemma PassedFollows(failed: seq<AttemptEnd>, ending: seq<Mark>, i: nat)
    requires IsEnding(ending, |failed| + 1)
    requires i < |PassedWord(failed, ending)| && RealExecution(PassedWord(failed, ending)[i])
    ensures FollowsPreview(PassedWord(failed, ending), |failed| + 1, i)
  {
    PassedExecution(failed, ending);
    hide PassedWord, IsEnding, Retries, RealExecution;
  }

  lemma PassedExecution(failed: seq<AttemptEnd>, ending: seq<Mark>)
    requires IsEnding(ending, |failed| + 1)
    ensures var word, n, a := PassedWord(failed, ending), |Retries(failed)|, |failed| + 1;
      && |word| > n + 4 && word[n + 3] == Mark(Verify, Tracing.Accepted, a) && word[n + 2] == Mark(Execute, Preview, a)
      && (RealExecution(word[n + 4]) ==> word[n + 4].attempt == a)
      && (forall j | 0 <= j < |word| && RealExecution(word[j]) :: j == n + 4)
  {
    RetriesShape(failed);
    hide Retries;
  }

  // ------------------------------------------------- what a refusal reports

  /** The attempt proposed a plan that passed its preflight, so it was previewed. */
  predicate Previewed(w: World, s: Store, a: nat)
  {
    w.propose(a).Proposed? && Diagnose(Lookup(s, w.propose(a).plan.documentId), w.propose(a).plan) == []
  }

  /** Attempt a is the newest of the first n that proposed a plan; 0 if none did. */
  ghost predicate IsNewestProposal(w: World, n: nat, a: nat)
  {
    a <= n && (a > 0 ==> w.propose(a).Proposed?) && forall i: nat | a < i <= n :: !w.propose(i).Proposed?
  }

  ghost predicate IsNewestPreview(w: World, s: Store, n: nat, b: nat)
  {
    b <= n && (b > 0 ==> Previewed(w, s, b) && Executable(w, s, b)) && forall i: nat | b < i <= n :: !Previewed(w, s, i)
  }

  lemma {:induction false} NewestOfFailed(w: World, s: Store, failed: seq<AttemptEnd>)
    requires AllFailed(w, s, failed)
    ensures IsNewestProposal(w, |failed|, LastProposed(failed))
    ensures IsNewestPreview(w, s, |failed|, LastPreviewed(failed))
  {
    hide TrialOf, Executable, Previewed;
    if failed != [] {
      var n := |failed| - 1;
      assert TrialOf(w, s, n + 1) == Fails(failed[n]);
      FailedTrial(w, s, n + 1);
      assert AllFailed(w, s, failed[..n]);
      NewestOfFailed(w, s, failed[..n]);
      hide IsNewestProposal, IsNewestPreview, AllFailed;
      NewestStep(w, s, n, LastProposed(failed[..n]), LastPreviewed(failed[..n]));
    } else {
      assert IsNewestProposal(w, 0, 0) && IsNewestPreview(w, s, 0, 0);
    }
  }

  lemma NewestStep(w: World, s: Store, n: nat, a: nat, b: nat)
    requires IsNewestProposal(w, n, a) && IsNewestPreview(w, s, n, b)
    requires Previewed(w, s, n + 1) ==> Executable(w, s, n + 1)
    ensures IsNewestProposal(w, n + 1, if w.propose(n + 1).Proposed? then n + 1 else a)
    ensures IsNewestPreview(w, s, n + 1, if Previewed(w, s, n + 1) then n + 1 else b)
  {
    hide Previewed, Executable;
  }

  lemma FailedTrial(w: World, s: Store, a: nat)
    requires TrialOf(w, s, a).Fails?
    ensures TrialOf(w, s, a).end.PlanFailed? <==> !w.propose(a).Proposed?
    ensures TrialOf(w, s, a).end.PreviewRejected? <==> Previewed(w, s, a)
    ensures Previewed(w, s, a) ==> Executable(w, s, a)
  {
    hide Diagnose, SnapshotRaises, PreviewReceipt;
  }

  /** A run that exhausts its attempts reports the plan of the newest attempt a that proposed one and the
      preview of the newest attempt b that was previewed. They are the same attempt exactly when the
      reported plan passed its preflight. */
  lemma RefusalReports(w: World, s: Store, apply: bool, maxRepairs: nat, failed: seq<AttemptEnd>, run: AgentRun,
                       s': Store)
    returns (a: nat, b: nat)
    requires IsRun(w, s, apply, maxRepairs, failed, run, s') && |failed| == maxRepairs + 1
    ensures IsNewestProposal(w, |failed|, a) && IsNewestPreview(w, s, |failed|, b) && b <= a
    ensures run.plan == (if a == 0 then None else Some(w.propose(a).plan))
    ensures run.receipt == (if b == 0 then None else Some(PreviewReceipt(w, s, b)))
    ensures a > 0 ==> (a == b <==> Diagnose(Lookup(s, run.plan.value.documentId), run.plan.value) == [])
  {
    a, b := LastProposed(failed), LastPreviewed(failed);
    assert run == Exhausted(w, s, failed);
    hide IsRun, TrialOf, Diagnose, Executable, PreviewReceipt, ExhaustedWord, AllFailed, Numbered;
    NewestOfFailed(w, s, failed);
    hide LastProposed, LastPreviewed;
    if a > 0 {
      assert Previewed(w, s, a) <==> Diagnose(Lookup(s, w.propose(a).plan.documentId), w.propose(a).plan) == [];
      assert Previewed(w, s, a) ==> a <= b;
    }
  }

  lemma PreviewNamesItsPlan(w: World, s: Store, a: nat)
    requires Executable(w, s, a)
    ensures PreviewReceipt(w, s, a).planId == w.propose(a).plan.planId
  {
    OnlyAppliedWrites(s, w.propose(a).plan, true, w.previewId(a));
    hide ExecuteOn;
  }

  /** The planner never reuses a plan id within the run. */
  ghost predicate DistinctPlanIds(w: World, n: nat)
  {
    forall i: nat, j: nat | 1 <= i < j <= n && w.propose(i).Proposed? && w.propose(j).Proposed? ::
      w.propose(i).plan.planId != w.propose(j).plan.planId
  }

  /** A refused run that reports both reports a plan with its own receipt whenever that plan passed its
      preflight, and, when plan ids are not reused, only then. */
  lemma RefusalPairsIffPreflightPassed(w: World, s: Store, apply: bool, maxRepairs: nat, failed: seq<AttemptEnd>,
                                       run: AgentRun, s': Store)
    requires IsRun(w, s, apply, maxRepairs, failed, run, s') && |failed| == maxRepairs + 1
    requires run.plan.Some? && run.receipt.Some?
    ensures var passed := Diagnose(Lookup(s, run.plan.value.documentId), run.plan.value) == [];
      && (passed ==> run.receipt.value.planId == run.plan.value.planId)
      && (DistinctPlanIds(w, |failed|) ==> (run.receipt.value.planId == run.plan.value.planId <==> passed))
  {
    var a, b := RefusalReports(w, s, apply, maxRepairs, failed, run, s');
    PreviewNamesItsPlan(w, s, b);
    hide IsRun, Diagnose, PreviewReceipt;
  }

  /** Every other run reports a plan together with a receipt of that plan. */
  lemma OtherRunsReportTogether(w: World, s: Store, apply: bool, maxRepairs: nat, failed: seq<AttemptEnd>,
                                run: AgentRun, s': Store)
    requires IsRun(w, s, apply, maxRepairs, failed, run, s') && |failed| <= maxRepairs
    ensures run.plan.Some? && run.receipt.Some? && run.receipt.value.planId == run.plan.value.planId
    ensures run.plan.value == w.propose(run.attempts).plan
  {
    var a := |failed| + 1;
    assert Executable(w, s, a);
    hide TrialOf, Diagnose, RollbackOn, SnapshotRaises, Numbered, PassedWord, EndingOf, PreviewReceipt;
    PreviewNamesItsPlan(w, s, a);
    OnlyAppliedWrites(s, w.propose(a).plan, false, w.applyId(a));
    hide ExecuteOn;
  }

  // ------------------------------------------------------------- witnesses

  const CREATE := Action("a", CreateDocument, None, map[])
  const CREATE_AGAIN := Action("b", CreateDocument, None, map[])

  /** What the planner itself checks of a plan before it proposes it. */
  predicate Plannable(s: Store, plan: ActionPlan)
  {
    var current := Lookup(s, plan.documentId);
    && plan.baseRevision == (if current.Some? then current.value.revision else 0)
    && (forall a | a in plan.actions :: Supported(a.kind))
    && (current.None? ==> plan.actions[0].kind == CreateDocument)
  }

  /** A plan of these actions for document d, made against revision 0. */
  function PlanOf(planId: string, actions: seq<Action>): (p: ActionPlan)
    requires IsIdentifier(planId) && actions in {[CREATE], [CREATE, CREATE_AGAIN]}
    ensures p.planId == planId && p.documentId == "d"
  {
    assert !IsSpace("d"[0]) && !IsSpace("a"[0]) && !IsSpace("b"[0]);
    assert [CREATE] != [CREATE, CREATE_AGAIN] by { assert |[CREATE]| == 1; }
    ActionPlan(planId, "d", 0, actions)
  }

  /** A planner that proposes one plan, and after its rejection always another. */
  function TwoPlansWorld(first: ActionPlan, second: ActionPlan): World
  {
    World((a: nat) => if a == 1 then Proposed(first) else Proposed(second),
          (a: nat, r: ExecutionReceipt) => Report(false, [], None, None),
          (a: nat) => "preview", (a: nat) => "apply", (a: nat) => "rollback")
  }

  lemma TwoPlansProposed(first: ActionPlan, second: ActionPlan)
    ensures forall a :: TwoPlansWorld(first, second).propose(a) in {Proposed(first), Proposed(second)}
  {
  }

  /** One creation is accepted for a missing document; a second one in the same plan is what only the
      preflight sees. */
  lemma CreationPlans(planId: string)
    requires IsIdentifier(planId)
    ensures Diagnose(None, PlanOf(planId, [CREATE])) == [] && !SnapshotRaises(EMPTY, PlanOf(planId, [CREATE]))
    ensures Diagnose(None, PlanOf(planId, [CREATE, CREATE_AGAIN])) != []
    ensures Plannable(EMPTY, PlanOf(planId, [CREATE])) && Plannable(EMPTY, PlanOf(planId, [CREATE, CREATE_AGAIN]))
  {
    var once, twice := PlanOf(planId, [CREATE]), PlanOf(planId, [CREATE, CREATE_AGAIN]);
    DiagnoseMeaning(None, once);
    DiagnoseMeaning(None, twice);
    assert once.actions[1..] == [] && once.actions[0] == CREATE && twice.actions[1] == CREATE_AGAIN;
    assert ApplyActions("d", None, [CREATE]) == Success(Some(DocumentSnapshot("d", 0, [])));
    hide Diagnose;
  }

  /** From an empty kernel, with one repair and a planner whose every plan passes the planner's own checks,
      a run reports the second plan with the first one's receipt. */
  lemma RefusalCanReportApart() returns (w: World, failed: seq<AttemptEnd>, run: AgentRun)
    ensures IsRun(w, EMPTY, true, 1, failed, run, EMPTY) && |failed| == 2
    ensures forall a :: w.propose(a).Proposed? && Plannable(EMPTY, w.propose(a).plan)
    ensures run.plan.Some? && run.receipt.Some? && run.receipt.value.planId != run.plan.value.planId
  {
    hide Diagnose, SnapshotRaises, PlanOf, IsRun, Plannable, TwoPlansWorld;
    assert !IsSpace("p"[0]) && !IsSpace("q"[0]);
    var first, second := PlanOf("p", [CREATE]), PlanOf("q", [CREATE, CREATE_AGAIN]);
    CreationPlans("p");
    CreationPlans("q");
    assert first.planId != second.planId;
    w := TwoPlansWorld(first, second);
    TwoPlansProposed(first, second);
    failed, run := RunReportsApart(first, second);
  }

  lemma RunReportsApart(first: ActionPlan, second: ActionPlan) returns (failed: seq<AttemptEnd>, run: AgentRun)
    requires first.documentId == second.documentId == "d" && first.planId != second.planId
    requires Diagnose(None, first) == [] && !SnapshotRaises(EMPTY, first) && Diagnose(None, second) != []
    ensures IsRun(TwoPlansWorld(first, second), EMPTY, true, 1, failed, run, EMPTY) && |failed| == 2
    ensures run.plan.Some? && run.receipt.Some? && run.receipt.value.planId != run.plan.value.planId
  {
    TwoPlansTrials(first, second);
    hide TrialOf, Diagnose, SnapshotRaises, TwoPlansWorld, PreviewReceipt, Concluded, Previewed;
    var w := TwoPlansWorld(first, second);
    failed := [PreviewRejected, PreflightFailed];
    assert AllFailed(w, EMPTY, failed);
    run := Exhausted(w, EMPTY, failed);
    assert IsRun(w, EMPTY, true, 1, failed, run, EMPTY);
    hide Exhausted, IsRun, AllFailed;
    var a, b := RefusalReports(w, EMPTY, true, 1, failed, run, EMPTY);
    assert a == 2 && b == 1;
    PreviewNamesItsPlan(w, EMPTY, b);
  }

  lemma TwoPlansTrials(first: ActionPlan, second: ActionPlan)
    requires first.documentId == second.documentId == "d"
    requires Diagnose(None, first) == [] && !SnapshotRaises(EMPTY, first) && Diagnose(None, second) != []
    ensures var w := TwoPlansWorld(first, second);
      && w.propose(1) == Proposed(first) && w.propose(2) == Proposed(second)
      && TrialOf(w, EMPTY, 1) == Fails(PreviewRejected) && TrialOf(w, EMPTY, 2) == Fails(PreflightFailed)
      && Previewed(w, EMPTY, 1) && !Previewed(w, EMPTY, 2)
  {
    hide Diagnose, SnapshotRaises, ExecuteOn;
    assert Lookup(EMPTY, "d") == None;
  }

  /** A feature id of 129 characters passes every check and still cannot be listed, so the preview raises
      and the exception leaves the run. */
  lemma LongIdEscapes() returns (w: World)
    ensures EscapesFirst(w, EMPTY, 0) && w.propose(1).Proposed? && Plannable(EMPTY, w.propose(1).plan)
    ensures Diagnose(Lookup(EMPTY, w.propose(1).plan.documentId), w.propose(1).plan) == []
  {
    var plan := LongIdPlan();
    w := TwoPlansWorld(plan, plan);
    hide Diagnose, SnapshotRaises, ExecuteOn;
    assert TrialOf(w, EMPTY, 0 + 1).Escapes?;
    assert FailsUpTo(w, EMPTY, 0);
  }

  lemma LongIdPlan() returns (plan: ActionPlan)
    ensures SnapshotRaises(EMPTY, plan) && Diagnose(Lookup(EMPTY, plan.documentId), plan) == []
    ensures Plannable(EMPTY, plan)
  {
    var box := LongIdBox();
    assert !IsSpace("p"[0]) && !IsSpace("d"[0]) && !IsSpace("a"[0]) && !IsSpace("b"[0]);
    var data := ActionPlan("p", "d", 0, [CREATE, box]);
    assert data.WellFormed();
    plan := data;
    hide Outcome, Diagnose, SnapshotRaises;
    BoxPlanSucceeds(plan, box);
    assert box in plan.actions && AddsUnlistable(box);
    hide AddsUnlistable, IsSpace, NonBlank;
    RaisesIffUnlistableAddition(EMPTY, plan);
  }

  lemma LongIdBox() returns (box: Action)
    ensures box.actionId == "b" && box.kind == AddBox && box.targetId == None && AddsUnlistable(box)
    ensures IsNonBlankText(Get(box.parameters, "feature_id"))
    ensures IsPositiveNumber(Get(box.parameters, "width")) && IsPositiveNumber(Get(box.parameters, "depth"))
    ensures IsPositiveNumber(Get(box.parameters, "height"))
  {
    var id := seq(129, _ => 'x');
    assert !IsSpace(id[0]) && NonBlank(id);
    box := Action("b", AddBox, None, map["feature_id" := Text(id), "width" := Number(1.0), "depth" := Number(1.0),
                                         "height" := Number(1.0)]);
  }

  lemma BoxPlanSucceeds(plan: ActionPlan, box: Action)
    requires plan.documentId == "d" && plan.baseRevision == 0 && plan.actions == [CREATE, box] && box.kind == AddBox
    requires IsNonBlankText(Get(box.parameters, "feature_id"))
    requires IsPositiveNumber(Get(box.parameters, "width")) && IsPositiveNumber(Get(box.parameters, "depth"))
    requires IsPositiveNumber(Get(box.parameters, "height"))
    ensures Outcome(None, plan).Success? && Diagnose(None, plan) == []
  {
    DiagnoseMeaning(None, plan);
    var empty := DocumentSnapshot("d", 0, []);
    assert plan.actions[1..] == [box] && plan.actions[1..][1..] == [];
    assert ApplyAction("d", Some(empty), box).Success?;
    assert ApplyActions("d", Some(empty), [box]).Success? by {
      assert [box][1..] == [];
    }
    FirstCreates("d", plan.actions);
    hide Diagnose, ApplyAction;
  }
}
