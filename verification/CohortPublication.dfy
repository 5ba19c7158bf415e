/** Published candidates against the ledger: what a completed task means in every state, and exactly which
    runs leave a published candidate that no record ever knows to be completed. */
module CohortPublication {
  import opened Contracts
  import opened CohortLedger
  import opened CohortProtocol
  import opened CohortSafety
  import opened CohortTheorems
  import opened CohortBudget

  // ------------------------------------------- completed means published

  /** The task whose outcome is a published candidate that is not saved yet. */
  ghost predicate Pending(c: Config, g: Global, t: string)
  {
    g.pc.Finishing? && g.pc.i < |c.fixtures| && c.fixtures[g.pc.i] == t && g.pc.candidate.Some?
  }

  /** A completed task's recorded hash is that of its published candidate, a pending one's will be, and
      only tasks of the ledger are published. */
  ghost predicate RecordsPublished(c: Config, g: Global)
  {
    && (forall t | t in g.durable.tasks && g.durable.tasks[t].status == TaskCompleted ::
          t in g.published && g.durable.tasks[t].candidate == Some(g.published[t]))
    && (forall t | Pending(c, g, t) :: t in g.published && g.pc.candidate == Some(g.published[t]))
    && (forall t | t in g.published :: t in g.durable.tasks)
  }

  lemma NothingIsPublished(c: Config)
    ensures RecordsPublished(c, Initial(c))
  {
  }

  lemma RecordKeepsPublished(c: Config, g: Global, l: Label, g': Global)
    requires c.Valid() && Inv(c, g) && RecordsPublished(c, g) && Next(c, g, l, g') && l.Record?
    ensures RecordsPublished(c, g')
  {
    hide LedgerHolds, OnlyRunning, Settled, Closed, Rows, UsageOf, AccountingOf, SettledAttempt, Recalculated;
    var t, task := c.fixtures[g.pc.i], g.durable.tasks[c.fixtures[g.pc.i]];
    SettleThenClose(c, g.durable, t, g.pc.usage, g.pc.candidate);
    RecalculatedTasks(c, g.durable.(tasks := g.durable.tasks[t := ClosedTask(c, task, g.pc.usage, g.pc.candidate)]));
    assert g.pc.candidate.Some? ==> Pending(c, g, t);
  }

  lemma StartKeepsPublished(c: Config, g: Global, l: Label, g': Global)
    requires c.Valid() && Inv(c, g) && RecordsPublished(c, g) && Next(c, g, l, g') && l.Start?
    ensures RecordsPublished(c, g')
  {
    hide Rows, UsageOf, AccountingOf, WithinBudget, TaskHolds;
  }

  lemma ReserveKeepsPublished(c: Config, g: Global, l: Label, g': Global)
    requires c.Valid() && Inv(c, g) && RecordsPublished(c, g) && Next(c, g, l, g') && l.Reserve?
    ensures RecordsPublished(c, g')
  {
    hide LedgerHolds, Rows, UsageOf, AccountingOf, NewAttempt, ReserveRefused;
  }

  lemma OthersKeepPublished(c: Config, g: Global, l: Label, g': Global)
    requires c.Valid() && Inv(c, g) && RecordsPublished(c, g) && Next(c, g, l, g')
    requires !l.Record? && !l.Start? && !l.Reserve?
    ensures RecordsPublished(c, g')
  {
    hide Inv, Recalculated, Settled, FinalStatus, ReserveRefused;
    if l.Publish? {
      InFlightIsNotCompleted(c, g);
    }
    if l.Close? {
      CloseKeepsTasks(c, g);
    }
  }

  lemma CloseKeepsTasks(c: Config, g: Global)
    requires Inv(c, g) && (g.pc.Closing? || g.pc.At?) && g.memory.Some?
    ensures Recalculated(c, g.memory.value).tasks == g.durable.tasks
  {
    RecalculatedTasks(c, g.memory.value);
    hide LedgerHolds, Recalculated;
  }

  lemma InFlightIsNotCompleted(c: Config, g: Global)
    requires Inv(c, g) && (g.pc.Judging? || g.pc.Finishing?)
    ensures g.pc.i < |c.fixtures| && c.fixtures[g.pc.i] in g.durable.tasks
    ensures g.durable.tasks[c.fixtures[g.pc.i]].status == TaskRunning
  {
    hide Rows, UsageOf, AccountingOf, WithinBudget, Settled, RowHolds;
    var task := g.durable.tasks[c.fixtures[g.pc.i]];
    assert TaskHolds(c, task) && task.attempts[|task.attempts| - 1].status == Running;
  }

  lemma StepKeepsPublished(c: Config, g: Global, l: Label, g': Global)
    requires c.Valid() && Inv(c, g) && RecordsPublished(c, g) && Next(c, g, l, g')
    ensures RecordsPublished(c, g')
  {
    hide Inv, Next, RecordsPublished;
    match l
    case Record => RecordKeepsPublished(c, g, l, g');
    case Start(_) => StartKeepsPublished(c, g, l, g');
    case Reserve(_) => ReserveKeepsPublished(c, g, l, g');
    case _ => OthersKeepPublished(c, g, l, g');
  }

  /** In every state of every run a task recorded as completed is published, and the hash on record is the
      hash of what was published. */
  lemma {:induction false} CompletedIsPublished(c: Config, states: seq<Global>, labels: seq<Label>, i: nat)
    requires c.Valid() && IsRun(c, states, labels) && states[0] == Initial(c) && i < |states|
    ensures RecordsPublished(c, states[i])
  {
    hide Next, Inv, RecordsPublished;
    if i == 0 {
      NothingIsPublished(c);
    } else {
      CompletedIsPublished(c, states, labels, i - 1);
      LedgerSafety(c, states, labels, i - 1);
      StepKeepsPublished(c, states[i - 1], labels[i - 1], states[i - 1 + 1]);
    }
  }

  // ---------------------------------------------- published, never completed

  /** The candidate of t is published, but neither the state file nor memory knows it completed, and
      no outcome for t is pending. */
  ghost predicate Orphaned(c: Config, g: Global, t: string)
  {
    && t in g.published
    && t in g.durable.tasks && g.durable.tasks[t].status != TaskCompleted
    && !Pending(c, g, t)
  }

  ghost predicate NoOrphan(c: Config, g: Global)
  {
    forall t :: !Orphaned(c, g, t)
  }

  /** A step that publishes a candidate nobody can read back, or a crash while a published one is not yet
      saved. */
  predicate Abandons(g: Global, l: Label)
  {
    (l.Publish? && !l.readable) || (l.Crash? && g.pc.Finishing? && g.pc.candidate.Some?)
  }

  lemma AbandoningOrphans(c: Config, g: Global, l: Label, g': Global) returns (t: string)
    requires c.Valid() && Inv(c, g) && RecordsPublished(c, g) && Next(c, g, l, g') && Abandons(g, l)
    ensures t in c.fixtures && Orphaned(c, g', t)
  {
    hide Inv, RecordsPublished, Orphaned;
    if l.Publish? {
      assert g.pc.Judging?;
      t := UnreadableOrphans(c, g, l, g');
    } else {
      t := CrashOrphans(c, g, l, g');
    }
    hide Next;
  }

  lemma UnreadableOrphans(c: Config, g: Global, l: Label, g': Global) returns (t: string)
    requires Inv(c, g) && g.pc.Judging? && Next(c, g, l, g') && l.Publish? && !l.readable
    ensures t in c.fixtures && Orphaned(c, g', t)
  {
    hide Inv;
    InFlightIsNotCompleted(c, g);
    t := c.fixtures[g.pc.i];
  }

  lemma CrashOrphans(c: Config, g: Global, l: Label, g': Global) returns (t: string)
    requires Inv(c, g) && RecordsPublished(c, g) && Next(c, g, l, g') && l.Crash?
    requires g.pc.Finishing? && g.pc.candidate.Some?
    ensures t in c.fixtures && Orphaned(c, g', t)
  {
    hide Inv;
    InFlightIsNotCompleted(c, g);
    t := c.fixtures[g.pc.i];
    assert Pending(c, g, t);
  }

  /** Completed tasks stay completed, so only the pending task can become an orphan. */
  lemma OtherStepsOrphanNothing(c: Config, g: Global, l: Label, g': Global)
    requires c.Valid() && Inv(c, g) && NoOrphan(c, g) && RecordsPublished(c, g) && Next(c, g, l, g')
    requires !Abandons(g, l)
    ensures NoOrphan(c, g')
  {
    StepGrows(c, g, l, g');
    hide Inv, Next, Grows, RecordsPublished, Abandons, Orphaned;
    forall t ensures !Orphaned(c, g', t)
    {
      OnlyPendingCompletes(c, g, l, g', t);
    }
  }

  lemma OnlyPendingCompletes(c: Config, g: Global, l: Label, g': Global, t: string)
    requires c.Valid() && Inv(c, g) && !Orphaned(c, g, t) && RecordsPublished(c, g) && Next(c, g, l, g')
    requires !Abandons(g, l) && Grows(g.durable, g'.durable)
    ensures !Orphaned(c, g', t)
  {
    hide Inv, Reconciled, Reserved, Settled, Closed, Recalculated, FinalStatus;
    if t in g.published {
      if g.durable.tasks[t].status == TaskCompleted {
        assert TaskGrows(g.durable.tasks[t], g'.durable.tasks[t]);
      } else {
        PendingStep(c, g, l, g', t);
      }
    }
  }

  lemma PendingStep(c: Config, g: Global, l: Label, g': Global, t: string)
    requires c.Valid() && Next(c, g, l, g') && Pending(c, g, t) && !Abandons(g, l) && Inv(c, g)
    ensures Pending(c, g', t) || (t in g'.durable.tasks && g'.durable.tasks[t].status == TaskCompleted)
  {
    hide Inv, Rows, UsageOf, AccountingOf, Settled;
  }

  /** A run, whatever crashes in it, never orphans a published candidate if and only if no published
      candidate fails to be read back and no crash comes between a publication and the save after it. */
  lemma OrphansIffAbandoned(c: Config, states: seq<Global>, labels: seq<Label>)
    requires c.Valid() && IsRun(c, states, labels) && states[0] == Initial(c)
    ensures (forall i | 0 <= i < |states| :: NoOrphan(c, states[i]))
            <==> forall i | 0 <= i < |labels| :: !Abandons(states[i], labels[i])
  {
    hide Next, Inv, RecordsPublished, NoOrphan, Abandons;
    if forall i | 0 <= i < |labels| :: !Abandons(states[i], labels[i]) {
      forall i: nat | i < |states| ensures NoOrphan(c, states[i])
      {
        NeverAbandonedMeansNoOrphan(c, states, labels, i);
      }
    }
    if i :| 0 <= i < |labels| && Abandons(states[i], labels[i]) {
      LedgerSafety(c, states, labels, i);
      CompletedIsPublished(c, states, labels, i);
      var t := AbandoningOrphans(c, states[i], labels[i], states[i + 1]);
      OrphanRefutes(c, states[i + 1], t);
    }
  }

  lemma OrphanRefutes(c: Config, g: Global, t: string)
    requires Orphaned(c, g, t)
    ensures !NoOrphan(c, g)
  {
  }

  lemma {:induction false} NeverAbandonedMeansNoOrphan(
    c: Config, states: seq<Global>, labels: seq<Label>, i: nat)
    requires c.Valid() && IsRun(c, states, labels) && states[0] == Initial(c) && i < |states|
    requires forall k | 0 <= k < |labels| :: !Abandons(states[k], labels[k])
    ensures NoOrphan(c, states[i])
  {
    hide Next, Inv, RecordsPublished, Abandons;
    if i > 0 {
      NeverAbandonedMeansNoOrphan(c, states, labels, i - 1);
      LedgerSafety(c, states, labels, i - 1);
      CompletedIsPublished(c, states, labels, i - 1);
      hide NoOrphan;
      OtherStepsOrphanNothing(c, states[i - 1], labels[i - 1], states[i - 1 + 1]);
    }
  }

  predicate PublishesTask(c: Config, g: Global, l: Label, t: string)
  {
    l.Publish? && g.pc.Judging? && g.pc.i < |c.fixtures| && c.fixtures[g.pc.i] == t
  }

  lemma OrphanIsRefused(c: Config, g: Global, l: Label, g': Global, t: string)
    requires Next(c, g, l, g') && Orphaned(c, g, t)
    ensures !PublishesTask(c, g, l, t)
  {
  }

  lemma OrphanStep(c: Config, g: Global, l: Label, g': Global, t: string)
    requires c.Valid() && Inv(c, g) && Next(c, g, l, g') && Orphaned(c, g, t)
    ensures Orphaned(c, g', t)
  {
    hide Rows, UsageOf, AccountingOf, WithinBudget, TaskHolds, SettledAttempt;
  }

  /** An orphan is permanent: its task is never completed in any later state of the run, and it is never
      published again, so every later session for it that verifies ends in an exception. */
  lemma {:induction false} OrphanedForever(
    c: Config, states: seq<Global>, labels: seq<Label>, i: nat, j: nat, t: string)
    requires c.Valid() && IsRun(c, states, labels) && states[0] == Initial(c) && i <= j < |states|
    requires Orphaned(c, states[i], t)
    ensures Orphaned(c, states[j], t)
    ensures j < |labels| ==> !PublishesTask(c, states[j], labels[j], t)
    decreases j
  {
    hide Next, Inv, Orphaned, PublishesTask;
    if i < j {
      OrphanedForever(c, states, labels, i, j - 1, t);
      LedgerSafety(c, states, labels, j - 1);
      OrphanStep(c, states[j - 1], labels[j - 1], states[j - 1 + 1], t);
    }
    if j < |labels| {
      OrphanIsRefused(c, states[j], labels[j], states[j + 1], t);
    }
  }
}
