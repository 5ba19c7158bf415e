/** What a run of the agent amounts to, told by what planner, kernel and verifier answered: how it ends, what
    it reports, what it leaves in the store, and the story its trace tells. */
module AgentMeaning {
  import opened Contracts
  import opened MemoryAdapter
  import opened Verification
  import opened Tracing
  import opened NativeAgent
  import opened AgentSafety

  // -------------------------------------------------------------- attempts

  /** The attempt proposed a plan, and its validation reports nothing. */
  ghost predicate Admitted(w: World, s: Store, a: nat)
  {
    && w.propose(a).Proposed?
    && var plan := w.propose(a).plan;
       Diagnose(if plan.documentId in s.documents then Some(s.documents[plan.documentId]) else None, plan) == []
  }

  /** The receipt of the attempt's dry run; None when it raises. */
  ghost function DryRunOf(w: World, s: Store, a: nat): Option<ExecutionReceipt>
    requires w.propose(a).Proposed?
  {
    ExecuteOn(s, w.propose(a).plan, true, w.previewId(a)).1
  }

  /** The proposal raises what is no planning error, or the dry run of an admitted plan raises. */
  ghost predicate Raises(w: World, s: Store, a: nat)
  {
    w.propose(a).ProposalRaises? || (Admitted(w, s, a) && DryRunOf(w, s, a).None?)
  }

  /** The verifier accepts the dry run of an admitted plan. */
  ghost predicate Succeeds(w: World, s: Store, a: nat)
  {
    Admitted(w, s, a) && DryRunOf(w, s, a).Some? && w.verdict(a, DryRunOf(w, s, a).value).accepted
  }

  lemma TrialMeaning(w: World, s: Store, a: nat)
    ensures TrialOf(w, s, a).Escapes? <==> Raises(w, s, a)
    ensures TrialOf(w, s, a).Passes? <==> Succeeds(w, s, a)
    ensures TrialOf(w, s, a) == Fails(PlanFailed) <==> w.propose(a).PlanningError?
    ensures TrialOf(w, s, a) == Fails(PreflightFailed) <==> w.propose(a).Proposed? && !Admitted(w, s, a)
    ensures Executable(w, s, a) ==> DryRunOf(w, s, a) == Some(PreviewReceipt(w, s, a))
  {
    if w.propose(a).Proposed? {
      PreviewWritesNothing(s, w.propose(a).plan, w.previewId(a));
    }
    hide Diagnose, SnapshotRaises, ExecuteOn;
  }

  /** The first n attempts neither succeed nor raise. */
  ghost predicate FirstFail(w: World, s: Store, n: nat)
  {
    forall a: nat | 1 <= a <= n :: !Succeeds(w, s, a) && !Raises(w, s, a)
  }

  lemma FailsMeaning(w: World, s: Store, n: nat)
    ensures FailsUpTo(w, s, n) <==> FirstFail(w, s, n)
  {
    hide TrialOf, Raises, Succeeds;
    forall a: nat ensures TrialOf(w, s, a).Fails? <==> !Succeeds(w, s, a) && !Raises(w, s, a)
    {
      TrialMeaning(w, s, a);
    }
  }

  /** An exception leaves a run exactly when one of its allowed attempts raises and all before it fail. */
  lemma EscapeMeaning(w: World, s: Store, maxRepairs: nat)
    ensures EscapesFirst(w, s, maxRepairs)
            <==> exists a: nat :: 1 <= a <= maxRepairs + 1 && Raises(w, s, a) && FirstFail(w, s, a - 1)
  {
    hide TrialOf, Raises, FirstFail, FailsUpTo;
    forall n: nat ensures FailsUpTo(w, s, n) <==> FirstFail(w, s, n)
    {
      FailsMeaning(w, s, n);
    }
    forall a: nat ensures TrialOf(w, s, a).Escapes? <==> Raises(w, s, a)
    {
      TrialMeaning(w, s, a);
    }
    if EscapesFirst(w, s, maxRepairs) {
      var n: nat :| n <= maxRepairs && FailsUpTo(w, s, n) && TrialOf(w, s, n + 1).Escapes?;
      assert Raises(w, s, n + 1) && FirstFail(w, s, n + 1 - 1);
    }
    if a: nat :| 1 <= a <= maxRepairs + 1 && Raises(w, s, a) && FirstFail(w, s, a - 1) {
      var n: nat := a - 1;
      assert FailsUpTo(w, s, n) && TrialOf(w, s, n + 1).Escapes?;
    }
  }

  // ------------------------------------------------------------------ runs

  /** What a run without apply reports of its successful attempt. */
  ghost predicate IsPreviewed(w: World, s: Store, a: nat, run: AgentRun, s': Store)
    requires Succeeds(w, s, a)
  {
    && s' == s && run.status == PreviewedRun && run.receipt == DryRunOf(w, s, a) && run.rollbackReceipt.None?
    && run.verification == Some(w.verdict(a, DryRunOf(w, s, a).value))
  }

  /** The successful attempt's plan is executed, verified again, and undone when it was executed but not
      accepted. */
  ghost predicate IsExecuted(w: World, s: Store, a: nat, run: AgentRun, s': Store)
    requires Succeeds(w, s, a)
  {
    var executed := ExecuteOn(s, w.propose(a).plan, false, w.applyId(a));
    && executed.1.Some? && run.receipt == executed.1
    && var report := w.verdict(a, executed.1.value);
       var undone := RollbackOn(executed.0, executed.1.value.receiptId, w.rollbackId(a));
       && run.verification == Some(report)
       && if report.accepted then run.status == CommittedRun && s' == executed.0 && run.rollbackReceipt.None?
          else if executed.1.value.status == Refused then
            run.status == RefusedByAgent && s' == executed.0 && run.rollbackReceipt.None?
          else
            && s' == undone.0 && run.rollbackReceipt == Some(undone.1)
            && run.status == if undone.1.status == Refused then RefusedByAgent else RolledBackRun
  }

  /** A run is decided by its last attempt: the first that succeeds, whose plan it reports, previewed or
      executed as asked; or the last allowed one, and then it is refused and leaves everything alone. */
  lemma RunMeaning(w: World, s: Store, apply: bool, maxRepairs: nat, failed: seq<AttemptEnd>, run: AgentRun, s': Store)
    requires IsRun(w, s, apply, maxRepairs, failed, run, s')
    ensures 1 <= run.attempts <= maxRepairs + 1 && FirstFail(w, s, run.attempts - 1) && !Raises(w, s, run.attempts)
    ensures !Succeeds(w, s, run.attempts) ==>
      run.attempts == maxRepairs + 1 && run.status == RefusedByAgent && s' == s && run.rollbackReceipt.None?
    ensures Succeeds(w, s, run.attempts) ==>
      && run.plan == Some(w.propose(run.attempts).plan)
      && (if apply then IsExecuted(w, s, run.attempts, run, s') else IsPreviewed(w, s, run.attempts, run, s'))
  {
    FailedUpTo(w, s, failed);
    FailsMeaning(w, s, |failed|);
    hide FailsUpTo, Succeeds, Raises, IsExecuted, IsPreviewed;
    if |failed| == maxRepairs + 1 {
      ExhaustedMeaning(w, s, failed);
    } else {
      TrialMeaning(w, s, |failed| + 1);
      ConcludedMeaning(w, s, apply, failed);
    }
    hide TrialOf, Concluded, Exhausted, AllFailed;
  }

  lemma ExhaustedMeaning(w: World, s: Store, failed: seq<AttemptEnd>)
    requires failed != [] && AllFailed(w, s, failed)
    ensures var run := Exhausted(w, s, failed);
      run.attempts == |failed| && run.status == RefusedByAgent && run.rollbackReceipt.None?
  {
    hide AllFailed, LastPlan, LastReceipt, LastReport;
  }

  lemma ConcludedMeaning(w: World, s: Store, apply: bool, failed: seq<AttemptEnd>)
    requires TrialOf(w, s, |failed| + 1).Passes?
    ensures var (s', run) := Concluded(w, s, apply, failed);
      && run.attempts == |failed| + 1 && Succeeds(w, s, run.attempts) && run.plan == Some(w.propose(run.attempts).plan)
      && (if apply then IsExecuted(w, s, run.attempts, run, s') else IsPreviewed(w, s, run.attempts, run, s'))
  {
    hide TrialOf, Diagnose, SnapshotRaises, ExecuteOn, RollbackOn, Numbered, PassedWord, EndingOf, Admitted, Raises;
    var a := |failed| + 1;
    TrialMeaning(w, s, a);
    if apply {
      ReturnsUnlessRaises(s, w.propose(a).plan, false, w.applyId(a));
    } else {
      hide Committing, IsExecuted;
    }
  }

  // ----------------------------------------------------------------- traces

  /** What the trace tells of one attempt. */
  ghost function Chapter(w: World, s: Store, a: nat): seq<Mark>
  {
    if !w.propose(a).Proposed? then [Mark(Plan, Failed, a)]
    else if !Admitted(w, s, a) then [Mark(Plan, Okay, a), Mark(Preflight, Failed, a)]
    else [Mark(Plan, Okay, a), Mark(Preflight, Okay, a), Mark(Execute, Preview, a),
          Mark(Verify, if Succeeds(w, s, a) then Tracing.Accepted else Rejected, a)]
  }

  /** What the trace tells of the first n attempts: a repair is requested between any two. */
  ghost function Story(w: World, s: Store, n: nat): seq<Mark>
  {
    if n == 0 then []
    else if n == 1 then [Mark(Observe, Okay, 0), Mark(Compile, Okay, 0)] + Chapter(w, s, 1)
    else Story(w, s, n - 1) + [Mark(Repair, Requested, 0)] + Chapter(w, s, n)
  }

  lemma FailedChapter(w: World, s: Store, a: nat, end: AttemptEnd)
    requires TrialOf(w, s, a) == Fails(end)
    ensures FailedMarks(end, a) == Chapter(w, s, a)
  {
    TrialMeaning(w, s, a);
    hide TrialOf, Admitted, Succeeds, Raises;
  }

  lemma PassedChapter(w: World, s: Store, a: nat)
    requires TrialOf(w, s, a).Passes?
    ensures PreviewMarks(a, Tracing.Accepted) == Chapter(w, s, a)
  {
    TrialMeaning(w, s, a);
    hide TrialOf, Raises;
  }

  lemma {:induction false} RetriesTell(w: World, s: Store, failed: seq<AttemptEnd>)
    requires AllFailed(w, s, failed)
    ensures Retries(failed) + Chapter(w, s, |failed| + 1) == Story(w, s, |failed| + 1)
  {
    hide TrialOf, Chapter, FailedMarks;
    if failed != [] {
      var n := |failed| - 1;
      assert TrialOf(w, s, n + 1) == Fails(failed[n]);
      RetriesTell(w, s, failed[..n]);
      FailedChapter(w, s, n + 1, failed[n]);
    }
  }

  /** The trace of every run tells what happened in each attempt, in order, and then how the run ended: with
      the repair budget exhausted, or as Ends says. */
  lemma TraceTells(w: World, s: Store, apply: bool, maxRepairs: nat, failed: seq<AttemptEnd>, run: AgentRun, s': Store)
    returns (ending: seq<Mark>)
    requires IsRun(w, s, apply, maxRepairs, failed, run, s')
    ensures Word(run) == Story(w, s, run.attempts) + ending
    ensures if Succeeds(w, s, run.attempts) then Ends(ending, run)
            else ending == [Mark(Refuse, RepairBudgetExhausted, 0)]
  {
    RunMeaning(w, s, apply, maxRepairs, failed, run, s');
    var told := WordOfRun(w, s, apply, maxRepairs, failed, run, s');
    hide IsRun, TrialOf, Succeeds, Raises, FirstFail, Word, Ends, IsEnding, Story, Chapter, IsExecuted, IsPreviewed;
    if |failed| == maxRepairs + 1 {
      ending := [Mark(Refuse, RepairBudgetExhausted, 0)];
      ExhaustedFails(w, s, apply, maxRepairs, failed, run, s');
      ExhaustedTells(w, s, failed);
    } else {
      ending := told;
      PassedTells(w, s, apply, maxRepairs, failed, run, s', ending);
    }
  }

  lemma ExhaustedFails(w: World, s: Store, apply: bool, maxRepairs: nat, failed: seq<AttemptEnd>, run: AgentRun,
                       s': Store)
    requires IsRun(w, s, apply, maxRepairs, failed, run, s') && |failed| == maxRepairs + 1
    ensures AllFailed(w, s, failed) && !Succeeds(w, s, |failed|)
  {
    hide TrialOf, Succeeds, Raises, Exhausted;
    assert TrialOf(w, s, maxRepairs + 1) == Fails(failed[maxRepairs]);
    TrialMeaning(w, s, maxRepairs + 1);
  }

  lemma ExhaustedTells(w: World, s: Store, failed: seq<AttemptEnd>)
    requires failed != [] && AllFailed(w, s, failed)
    ensures ExhaustedWord(failed) == Story(w, s, |failed|) + [Mark(Refuse, RepairBudgetExhausted, 0)]
  {
    var n := |failed| - 1;
    hide TrialOf, Chapter, Story, FailedMarks, Retries;
    assert TrialOf(w, s, n + 1) == Fails(failed[n]);
    FailedChapter(w, s, n + 1, failed[n]);
    RetriesTell(w, s, failed[..n]);
  }

  lemma PassedTells(w: World, s: Store, apply: bool, maxRepairs: nat, failed: seq<AttemptEnd>, run: AgentRun, s': Store,
                    ending: seq<Mark>)
    requires IsRun(w, s, apply, maxRepairs, failed, run, s') && |failed| <= maxRepairs
    ensures PassedWord(failed, ending) == Story(w, s, |failed| + 1) + ending && Succeeds(w, s, |failed| + 1)
  {
    hide TrialOf, Chapter, Story, Retries, PreviewMarks, Concluded, Succeeds, Raises;
    TrialMeaning(w, s, |failed| + 1);
    PassedChapter(w, s, |failed| + 1);
    RetriesTell(w, s, failed);
  }
}
