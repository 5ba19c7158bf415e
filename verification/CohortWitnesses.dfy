/** Concrete runs of a cohort with one fixture and a budget of one token. */
module CohortWitnesses {
  import opened Contracts
  import opened CohortLedger
  import opened CohortProtocol
  import opened CohortSafety
  import opened CohortTheorems
  import opened CohortOverruns
  import opened CohortPublication

  const ONE_TASK := Config(["a"], 1, 1, None, None)

  lemma RowsOfOne(t: string, tasks: map<string, Task>)
    ensures Rows([t], tasks) == AttemptsOf(tasks, t)
  {
    assert [t][..0] == [];
  }

  /** A fresh cohort that has loaded its state and is about to look at its only fixture. */
  lemma OneTaskStarted() returns (g: Global)
    ensures g.pc == At(0) && g.memory == Some(g.durable) && g.attempted == {} && g.published == map[]
    ensures Next(ONE_TASK, Initial(ONE_TASK), Start(map[]), g)
    ensures g.durable.tasks == map["a" := Task(Pending, [], None)] && g.durable.accounting.debitedTokens == 0
  {
    var c, g0 := ONE_TASK, Initial(ONE_TASK);
    var s := Reconciled(c, g0.durable, map[]).(status := CohortRunning);
    assert g0.durable.tasks == map["a" := Task(Pending, [], None)];
    assert LeftRunning(g0.durable) == {};
    assert s.tasks["a"] == Task(Pending, [], None);
    assert s.tasks == map["a" := Task(Pending, [], None)];
    g := g0.(durable := s, memory := Some(s), pc := At(0), attempted := {}, launched := []);
    RowsOfOne("a", s.tasks);
  }

  /** Its first attempt reserves the whole budget. */
  lemma OneTaskReserved(g: Global) returns (g': Global)
    requires g.pc == At(0) && g.memory == Some(g.durable) && g.attempted == {}
    requires g.durable.tasks == map["a" := Task(Pending, [], None)] && g.durable.accounting.debitedTokens == 0
    ensures Next(ONE_TASK, g, Reserve("x"), g') && g'.pc == Calling(0) && g'.memory == Some(g'.durable)
    ensures "a" in g'.durable.tasks && g'.durable.tasks["a"].attempts == [NewAttempt(ONE_TASK, "x")]
    ensures g'.durable.accounting.debitedTokens == 1 && g'.published == g.published
  {
    var c := ONE_TASK;
    var s := Reserved(c, g.durable, "a", "x");
    g' := g.(durable := s, memory := Some(s), pc := Calling(0), attempted := {"a"}, launched := g.launched + ["a"]);
    assert [] + [NewAttempt(c, "x")] == [NewAttempt(c, "x")];
    RowsOfOne("a", s.tasks);
    SumOne(DEBIT, [], NewAttempt(c, "x"));
    hide Rows, Sum, UsageOf;
  }

  /** The memory copy has an attempt of the only fixture to settle or to close. */
  predicate HasAttempt(g: Global)
  {
    g.memory.Some? && "a" in g.memory.value.tasks && g.memory.value.tasks["a"].attempts != []
  }

  /** The provider answers with the given evidence. */
  lemma OneTaskReturned(g: Global, u: Usage) returns (g': Global)
    requires g.pc == Calling(0) && HasAttempt(g)
    ensures Next(ONE_TASK, g, Return(u), g') && g'.pc == Judging(0, u) && HasAttempt(g')
    ensures g'.durable == g.durable && g'.published == g.published
  {
    hide Recalculated, Reserved, Reconciled, Closed, ReserveRefused;
    SettledKeepsTask(g.memory.value, "a", u);
    hide Settled;
    g' := g.(memory := Some(Settled(ONE_TASK, g.memory.value, "a", u)), pc := Judging(0, u));
  }

  lemma SettledKeepsTask(s: Cohort, t: string, u: Usage)
    requires t in s.tasks && s.tasks[t].attempts != []
    ensures t in Settled(ONE_TASK, s, t, u).tasks && Settled(ONE_TASK, s, t, u).tasks[t].attempts != []
  {
    hide Rows, UsageOf, AccountingOf, SettledAttempt;
  }

  /** The outcome is saved. */
  lemma OneTaskSaved(g: Global) returns (g': Global)
    requires g.pc.Finishing? && g.pc.i == 0 && HasAttempt(g)
    ensures Next(ONE_TASK, g, Record, g')
  {
    hide Recalculated, Reserved, Reconciled, Settled, ReserveRefused;
    var closed := Closed(g.memory.value, "a", g.pc.candidate);
    hide Closed;
    g' := g.(durable := closed, memory := Some(closed), pc := At(1));
  }

  lemma OneTaskRejected(g: Global) returns (g': Global)
    requires g.pc.Judging? && HasAttempt(g)
    ensures Next(ONE_TASK, g, Reject, g') && g'.pc == Finishing(g.pc.i, g.pc.usage, None) && HasAttempt(g')
    ensures g'.durable == g.durable
  {
    g' := g.(pc := Finishing(g.pc.i, g.pc.usage, None));
  }

  /** Five steps from the initial state are a run. */
  lemma FiveSteps(g1: Global, g2: Global, g3: Global, g4: Global, g5: Global,
                  l1: Label, l2: Label, l3: Label, l4: Label, l5: Label)
    returns (states: seq<Global>, labels: seq<Label>)
    requires Next(ONE_TASK, Initial(ONE_TASK), l1, g1) && Next(ONE_TASK, g1, l2, g2) && Next(ONE_TASK, g2, l3, g3)
    requires Next(ONE_TASK, g3, l4, g4) && Next(ONE_TASK, g4, l5, g5)
    ensures ONE_TASK.Valid() && IsRun(ONE_TASK, states, labels) && |labels| == 5 && |states| == 6
    ensures states[0] == Initial(ONE_TASK) && states[3] == g3 && states[4] == g4 && states[5] == g5
    ensures labels == [l1, l2, l3, l4, l5]
  {
    hide Next, Initial;
    states, labels := [Initial(ONE_TASK), g1, g2, g3, g4, g5], [l1, l2, l3, l4, l5];
  }

  /** A run whose saved debits exceed the total budget: one fixture, a budget of one token, and evidence
      of two. */
  lemma DebitsCanExceedBudget() returns (states: seq<Global>, labels: seq<Label>)
    ensures ONE_TASK.Valid() && IsRun(ONE_TASK, states, labels) && states[0] == Initial(ONE_TASK)
    ensures states[|labels|].durable.accounting.debitedTokens == 2 > ONE_TASK.totalTokens
  {
    hide Next, Initial, Inv, IsRun;
    var u := Usage(false, true, 0, 0, 2, 2);
    var g1 := OneTaskStarted();
    var g2 := OneTaskReserved(g1);
    var g3 := OneTaskReturned(g2, u);
    var g4 := OneTaskRejected(g3);
    var g5 := OneTaskSaved(g4);
    hide HasAttempt;
    states, labels := FiveSteps(g1, g2, g3, g4, g5, Start(map[]), Reserve("x"), Return(u), Reject, Record);
    LedgerSafety(ONE_TASK, states, labels, 4);
    SettlementMovesDebits(ONE_TASK, g4, Record, g5);
  }

  /** The first session verifies and its candidate is published. */
  lemma OneTaskPublished(readable: bool) returns (g1: Global, g2: Global, g3: Global, g4: Global)
    ensures Next(ONE_TASK, Initial(ONE_TASK), Start(map[]), g1) && Next(ONE_TASK, g1, Reserve("x"), g2)
    ensures Next(ONE_TASK, g2, Return(NO_USAGE), g3) && Next(ONE_TASK, g3, Publish("h", readable), g4)
    ensures g4.pc == Finishing(0, NO_USAGE, if readable then Some("h") else None) && HasAttempt(g4)
  {
    hide Next, Initial;
    g1 := OneTaskStarted();
    g2 := OneTaskReserved(g1);
    g3 := OneTaskReturned(g2, NO_USAGE);
    g4 := PublishStep(g3, readable);
  }

  lemma PublishStep(g: Global, readable: bool) returns (g': Global)
    requires g.pc.Judging? && g.pc.i == 0 && HasAttempt(g) && "a" !in g.published
    ensures Next(ONE_TASK, g, Publish("h", readable), g') && HasAttempt(g')
    ensures g'.pc == Finishing(0, g.pc.usage, if readable then Some("h") else None)
  {
    g' := g.(pc := Finishing(0, g.pc.usage, if readable then Some("h") else None),
             published := g.published["a" := "h"]);
  }

  /** A run without any crash that orphans its candidate: it is published, cannot be read back, and the
      attempt is saved as failed. */
  lemma UnreadableCandidateIsOrphaned() returns (states: seq<Global>, labels: seq<Label>)
    ensures ONE_TASK.Valid() && IsRun(ONE_TASK, states, labels) && states[0] == Initial(ONE_TASK)
    ensures Orphaned(ONE_TASK, states[|labels|], "a") && forall k | 0 <= k < |labels| :: !labels[k].Crash?
  {
    hide Next, Initial, Inv, IsRun, HasAttempt, RecordsPublished, Orphaned;
    var g1, g2, g3, g4 := OneTaskPublished(false);
    var g5 := OneTaskSaved(g4);
    states, labels := FiveSteps(
      g1, g2, g3, g4, g5, Start(map[]), Reserve("x"), Return(NO_USAGE), Publish("h", false), Record);
    LedgerSafety(ONE_TASK, states, labels, 3);
    CompletedIsPublished(ONE_TASK, states, labels, 3);
    var t := AbandoningOrphans(ONE_TASK, g3, Publish("h", false), g4);
    OrphanedForever(ONE_TASK, states, labels, 4, 5, t);
  }

  /** A run whose only publication can be read back, and in which a crash before the save orphans it. */
  lemma CrashBeforeSaveOrphans() returns (states: seq<Global>, labels: seq<Label>)
    ensures ONE_TASK.Valid() && IsRun(ONE_TASK, states, labels) && states[0] == Initial(ONE_TASK)
    ensures Orphaned(ONE_TASK, states[|labels|], "a")
    ensures forall k | 0 <= k < |labels| && labels[k].Publish? :: labels[k].readable
  {
    hide Next, Initial, Inv, IsRun, HasAttempt, RecordsPublished, Orphaned;
    var g1, g2, g3, g4 := OneTaskPublished(true);
    var g5 := Lost(g4);
    CrashIsStep(g4);
    states, labels := FiveSteps(
      g1, g2, g3, g4, g5, Start(map[]), Reserve("x"), Return(NO_USAGE), Publish("h", true), Crash);
    LedgerSafety(ONE_TASK, states, labels, 4);
    CompletedIsPublished(ONE_TASK, states, labels, 4);
    var t := AbandoningOrphans(ONE_TASK, g4, Crash, g5);
  }

  lemma CrashIsStep(g: Global)
    ensures Next(ONE_TASK, g, Crash, Lost(g))
  {
  }
}
