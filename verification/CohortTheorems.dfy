/** Safety of every run of the scheduler: any number of invocations, a crash between any two steps. */
module CohortTheorems {
  import opened Contracts
  import opened CohortLedger
  import opened CohortProtocol
  import opened CohortSafety

  // ---------------------------------------------------------- the invariant

  lemma {:induction false} NoRows(c: Config, names: seq<string>)
    ensures Rows(names, InitialState(c).tasks) == []
  {
    if names != [] {
      NoRows(c, names[..|names| - 1]);
    }
  }

  lemma InitialHolds(c: Config)
    requires c.Valid()
    ensures Inv(c, Initial(c))
  {
    NoRows(c, c.fixtures);
  }

  lemma StatusIrrelevant(c: Config, s: Cohort, s': Cohort)
    requires LedgerHolds(c, s) && s'.tasks == s.tasks && s'.usage == s.usage && s'.accounting == s.accounting
    ensures LedgerHolds(c, s')
  {
  }

  lemma StartKeepsInv(c: Config, g: Global, l: Label, g': Global)
    requires c.Valid() && Inv(c, g) && Next(c, g, l, g') && l.Start?
    ensures Inv(c, g')
  {
    hide LedgerHolds, Reconciled;
    ReconcileKeepsLedger(c, g.durable, l.evidence);
    StatusIrrelevant(c, Reconciled(c, g.durable, l.evidence), g'.durable);
  }

  lemma ReserveKeepsInv(c: Config, g: Global, l: Label, g': Global)
    requires c.Valid() && Inv(c, g) && Next(c, g, l, g') && l.Reserve?
    ensures Inv(c, g')
  {
    hide LedgerHolds, OnlyRunning, Reserved, ReserveRefused;
    var t := c.fixtures[g.pc.i];
    ReserveKeepsLedger(c, g.durable, t, l.attemptId);
    ReservedShape(c, g.durable, t, l.attemptId);
  }

  lemma ReservedShape(c: Config, s: Cohort, t: string, id: string)
    requires t in s.tasks
    ensures var s' := Reserved(c, s, t, id);
      && s'.status == s.status && s'.tasks.Keys == s.tasks.Keys
      && s'.tasks[t].attempts == s.tasks[t].attempts + [NewAttempt(c, id)]
      && (forall u | u in s.tasks && u != t :: s'.tasks[u] == s.tasks[u])
  {
    hide Rows, UsageOf, AccountingOf;
  }

  lemma RecordKeepsInv(c: Config, g: Global, l: Label, g': Global)
    requires c.Valid() && Inv(c, g) && Next(c, g, l, g') && l.Record?
    ensures Inv(c, g')
  {
    hide LedgerHolds, OnlyRunning, Settled, Closed;
    CloseKeepsLedger(c, g.durable, c.fixtures[g.pc.i], g.pc.usage, g.pc.candidate);
  }

  lemma CloseKeepsInv(c: Config, g: Global, l: Label, g': Global)
    requires c.Valid() && Inv(c, g) && Next(c, g, l, g') && l.Close?
    ensures Inv(c, g')
  {
    hide Rows, OnlyRunning, WithinBudget, TaskHolds;
  }

  lemma OthersKeepInv(c: Config, g: Global, l: Label, g': Global)
    requires c.Valid() && Inv(c, g) && Next(c, g, l, g')
    requires !l.Start? && !l.Reserve? && !l.Record? && !l.Close?
    ensures Inv(c, g')
    ensures g'.durable == g.durable
  {
    hide LedgerHolds, OnlyRunning, Settled;
  }

  /** Every step of scheduler, provider or crash keeps the ledger's invariant. */
  lemma StepKeepsInv(c: Config, g: Global, l: Label, g': Global)
    requires c.Valid() && Inv(c, g) && Next(c, g, l, g')
    ensures Inv(c, g')
  {
    hide Inv, Next;
    match l
    case Start(_) => StartKeepsInv(c, g, l, g');
    case Reserve(_) => ReserveKeepsInv(c, g, l, g');
    case Record => RecordKeepsInv(c, g, l, g');
    case Close => CloseKeepsInv(c, g, l, g');
    case _ => OthersKeepInv(c, g, l, g');
  }

  /** In every state of every run the ledger holds: totals are the sums of the rows, unsettled
      attempts hold their full reservation, and debits counted up to their reservations fit both
      budgets. No assumption about the provider is needed. */
  lemma {:induction false} LedgerSafety(c: Config, states: seq<Global>, labels: seq<Label>, i: nat)
    requires c.Valid() && IsRun(c, states, labels) && states[0] == Initial(c) && i < |states|
    ensures Inv(c, states[i])
  {
    hide Next, Inv;
    if i == 0 {
      InitialHolds(c);
    } else {
      LedgerSafety(c, states, labels, i - 1);
      StepKeepsInv(c, states[i - 1], labels[i - 1], states[i - 1 + 1]);
    }
  }

  /** While the provider may be called, exactly one durable attempt is running, and it holds the
      full token and cost reservation. */
  lemma ProviderUnderReservation(c: Config, states: seq<Global>, labels: seq<Label>, i: nat)
    requires c.Valid() && IsRun(c, states, labels) && states[0] == Initial(c) && i < |states|
    requires states[i].pc.Calling?
    ensures var g := states[i];
      && g.pc.i < |c.fixtures| && c.fixtures[g.pc.i] in g.durable.tasks
      && var t := c.fixtures[g.pc.i];
         var n := |g.durable.tasks[t].attempts|;
      && n > 0
      && g.durable.tasks[t].attempts[n - 1].debitTokens == c.tokensPerTask
      && g.durable.tasks[t].attempts[n - 1].debitCost == CostReservation(c)
      && forall u, k | u in g.durable.tasks && 0 <= k < |g.durable.tasks[u].attempts| ::
           g.durable.tasks[u].attempts[k].status == Running <==> u == t && k == n - 1
  {
    hide Next, Rows, WithinBudget, UsageOf, AccountingOf, RowHolds;
    LedgerSafety(c, states, labels, i);
    var g := states[i];
    forall u, k | u in g.durable.tasks && 0 <= k < |g.durable.tasks[u].attempts|
      ensures g.durable.tasks[u].attempts[k].status == Running
         <==> u == c.fixtures[g.pc.i] && k == |g.durable.tasks[c.fixtures[g.pc.i]].attempts| - 1
    {
      assert TaskHolds(c, g.durable.tasks[u]);
    }
  }

  /** The tasks are set aside: counted as attempted, and none of them launched. */
  ghost predicate SetAside(g: Global, left: set<string>)
  {
    left <= g.attempted && forall k | 0 <= k < |g.launched| :: g.launched[k] !in left
  }

  lemma StepSetsAside(c: Config, g: Global, l: Label, g': Global, left: set<string>)
    requires Next(c, g, l, g') && if l.Start? then left == LeftRunning(g.durable) else SetAside(g, left)
    ensures SetAside(g', left)
  {
    hide Reconciled, Reserved, Settled, Closed, Recalculated, ReserveRefused, LeftRunning;
  }

  /** The invocation that step i belongs to, or followed, began at step s. */
  ghost predicate LatestStart(labels: seq<Label>, s: nat, i: nat)
  {
    s < i <= |labels| && labels[s].Start? && forall k | s < k < i :: !labels[k].Start?
  }

  /** What a crash had left running when an invocation started is set aside until the next one starts. */
  lemma {:induction false} LeftRunningIsSetAside(c: Config, states: seq<Global>, labels: seq<Label>, s: nat, i: nat)
    requires IsRun(c, states, labels) && LatestStart(labels, s, i)
    ensures SetAside(states[i], LeftRunning(states[s].durable))
  {
    hide Next, SetAside;
    if s + 1 < i {
      LeftRunningIsSetAside(c, states, labels, s, i - 1);
    }
    StepSetsAside(c, states[i - 1], labels[i - 1], states[i - 1 + 1], LeftRunning(states[s].durable));
  }

  /** No task is launched twice in one invocation, and none that a crash left running before it. */
  lemma LaunchedOnce(c: Config, states: seq<Global>, labels: seq<Label>, i: nat)
    requires c.Valid() && IsRun(c, states, labels) && states[0] == Initial(c) && i < |states|
    ensures forall a, b | 0 <= a < b < |states[i].launched| :: states[i].launched[a] != states[i].launched[b]
    ensures forall s: nat, a | LatestStart(labels, s, i) && 0 <= a < |states[i].launched| ::
      states[i].launched[a] !in LeftRunning(states[s].durable)
  {
    LedgerSafety(c, states, labels, i);
    hide Next, LedgerHolds, MemoryHolds, LeftRunning;
    forall s: nat | LatestStart(labels, s, i) ensures SetAside(states[i], LeftRunning(states[s].durable))
    {
      LeftRunningIsSetAside(c, states, labels, s, i);
    }
  }

  // ------------------------------------------------- the ledger only grows

  /** Completed tasks never change again, attempts are only added, and an attempt that is no longer
      running is final. */
  ghost predicate Grows(s: Cohort, s': Cohort)
  {
    forall t | t in s.tasks :: t in s'.tasks && TaskGrows(s.tasks[t], s'.tasks[t])
  }

  ghost predicate TaskGrows(a: Task, b: Task)
  {
    && (a.status == TaskCompleted ==> b == a)
    && |a.attempts| <= |b.attempts|
    && (forall k | 0 <= k < |a.attempts| :: b.attempts[k].attemptId == a.attempts[k].attemptId)
    && (forall k | 0 <= k < |a.attempts| && a.attempts[k].status != Running :: b.attempts[k] == a.attempts[k])
  }

  lemma ReconciledTaskGrows(c: Config, t: string, task: Task, ev: Evidence)
    requires TaskHolds(c, task)
    ensures TaskGrows(task, ReconciledTask(c, t, task, ev))
  {
    var task' := ReconciledTask(c, t, task, ev);
    assert forall k | 0 <= k < |task.attempts| ::
        task'.attempts[k] == AbandonedAttempt(c, task.attempts[k], EvidenceFor(ev, t, k));
    if task.status == TaskCompleted {
      assert task'.attempts == task.attempts;
    }
  }

  lemma ClosedTaskGrows(c: Config, task: Task, u: Usage, candidate: Option<string>)
    requires TaskHolds(c, task) && task.attempts != [] && Last(task).status == Running
    ensures TaskGrows(task, ClosedTask(c, task, u, candidate))
  {
    assert task.status == TaskRunning;
  }

  lemma StepGrows(c: Config, g: Global, l: Label, g': Global)
    requires c.Valid() && Inv(c, g) && Next(c, g, l, g')
    ensures Grows(g.durable, g'.durable)
  {
    hide Inv, Next, Grows;
    match l
    case Start(ev) => StartGrows(c, g, l, g');
    case Record => RecordGrows(c, g, l, g');
    case Reserve(_) => ReserveGrows(c, g, l, g');
    case _ => OthersGrow(c, g, l, g');
  }

  lemma StartGrows(c: Config, g: Global, l: Label, g': Global)
    requires c.Valid() && Inv(c, g) && Next(c, g, l, g') && l.Start?
    ensures Grows(g.durable, g'.durable)
  {
    hide Rows, UsageOf, AccountingOf, TaskGrows, TaskHolds, WithinBudget, ReconciledTask;
    forall t | t in g.durable.tasks ensures TaskGrows(g.durable.tasks[t], g'.durable.tasks[t])
    {
      ReconciledTaskGrows(c, t, g.durable.tasks[t], l.evidence);
    }
  }

  lemma RecordGrows(c: Config, g: Global, l: Label, g': Global)
    requires c.Valid() && Inv(c, g) && Next(c, g, l, g') && l.Record?
    ensures Grows(g.durable, g'.durable)
  {
    hide Rows, ClosedTask, Settled, Closed, UsageOf, AccountingOf, TaskHolds, WithinBudget;
    var t := c.fixtures[g.pc.i];
    SettleThenClose(c, g.durable, t, g.pc.usage, g.pc.candidate);
    LedgerTask(c, g.durable, t);
    ClosedTaskGrows(c, g.durable.tasks[t], g.pc.usage, g.pc.candidate);
  }

  lemma ReserveGrows(c: Config, g: Global, l: Label, g': Global)
    requires c.Valid() && Inv(c, g) && Next(c, g, l, g') && l.Reserve?
    ensures Grows(g.durable, g'.durable)
  {
    hide LedgerHolds, OnlyRunning, Reserved, ReserveRefused;
    ReservedShape(c, g.durable, c.fixtures[g.pc.i], l.attemptId);
  }

  lemma OthersGrow(c: Config, g: Global, l: Label, g': Global)
    requires c.Valid() && Inv(c, g) && Next(c, g, l, g') && !l.Start? && !l.Record? && !l.Reserve?
    ensures Grows(g.durable, g'.durable)
  {
    hide Rows, UsageOf, AccountingOf, Settled, LedgerHolds;
  }

  lemma GrowsReflexive(s: Cohort)
    ensures Grows(s, s)
  {
  }

  lemma GrowsTransitive(a: Cohort, b: Cohort, c: Cohort)
    requires Grows(a, b) && Grows(b, c)
    ensures Grows(a, c)
  {
    forall t | t in a.tasks ensures t in c.tasks && TaskGrows(a.tasks[t], c.tasks[t])
    {
      assert TaskGrows(a.tasks[t], b.tasks[t]) && TaskGrows(b.tasks[t], c.tasks[t]);
    }
  }

  /** Over any stretch of any run the ledger only grows; completed tasks stay completed. */
  lemma {:induction false} LedgerOnlyGrows(c: Config, states: seq<Global>, labels: seq<Label>, i: nat, j: nat)
    requires c.Valid() && IsRun(c, states, labels) && states[0] == Initial(c) && i <= j < |states|
    ensures Grows(states[i].durable, states[j].durable)
    decreases j
  {
    hide Next, Inv, Grows;
    GrowsReflexive(states[i].durable);
    if i < j {
      LedgerOnlyGrows(c, states, labels, i, j - 1);
      LedgerSafety(c, states, labels, j - 1);
      StepGrows(c, states[j - 1], labels[j - 1], states[j - 1 + 1]);
      GrowsTransitive(states[i].durable, states[j - 1].durable, states[j].durable);
    }
  }
}
