/** What the statuses in a state file mean: of a task by its attempts, of a cohort by its tasks and budgets. */
module CohortStatus {
  import opened Contracts
  import opened CohortLedger
  import opened CohortProtocol
  import opened CohortSafety
  import opened CohortTheorems

  /** A task is pending exactly while it was never attempted and running exactly while an attempt is; then
      its newest attempt decides whether it completed, with the published hash, or failed. */
  ghost predicate TaskMeans(task: Task)
  {
    && (task.status == Pending <==> task.attempts == [])
    && (task.status == TaskRunning <==> exists k :: 0 <= k < |task.attempts| && task.attempts[k].status == Running)
    && (task.status == TaskCompleted <==> task.candidate.Some?)
    && (task.status == TaskCompleted ==> task.attempts[|task.attempts| - 1].status == Completed)
    && (task.status == TaskFailed ==> task.attempts[|task.attempts| - 1].status in {Failed, Abandoned})
  }

  /** Why a cohort stopped: one more attempt does not fit the token budget; or it does, but not the cost
      budget. */
  ghost predicate StopMeans(c: Config, s: Cohort, reason: BudgetStop)
  {
    var tokensFit := s.accounting.debitedTokens + c.tokensPerTask <= c.totalTokens;
    match reason
    case TokenBudget => !tokensFit
    case CostBudget =>
      && tokensFit && c.totalCost.Some?
      && s.accounting.debitedCost.GetOr(0.0) + CostReservation(c).GetOr(0.0) > c.totalCost.value
  }

  ghost predicate AllDone(s: Cohort)
  {
    forall t | t in s.tasks :: s.tasks[t].status == TaskCompleted
  }

  ghost predicate CohortMeans(c: Config, s: Cohort)
  {
    match s.status
    case CohortCompleted => AllDone(s)
    case Partial => !AllDone(s)
    case Stopped(reason) => !AllDone(s) && StopMeans(c, s, reason)
    case _ => true
  }

  ghost predicate StatusHolds(c: Config, g: Global)
  {
    && (forall t | t in g.durable.tasks :: TaskMeans(g.durable.tasks[t]))
    && CohortMeans(c, g.durable)
    && (g.pc.Closing? && g.memory.Some? && g.memory.value.status.Stopped? ==>
          StopMeans(c, g.durable, g.memory.value.status.reason))
  }

  lemma NothingDone(c: Config)
    ensures StatusHolds(c, Initial(c))
  {
  }

  lemma ClosedMeans(c: Config, task: Task, u: Usage, candidate: Option<string>)
    requires TaskHolds(c, task) && TaskMeans(task) && task.attempts != [] && Last(task).status == Running
    ensures TaskMeans(ClosedTask(c, task, u, candidate))
  {
    ClosedTaskHolds(c, task, u, candidate);
  }

  lemma ReconciledMeans(c: Config, t: string, task: Task, ev: Evidence)
    requires TaskHolds(c, task) && TaskMeans(task)
    ensures TaskMeans(ReconciledTask(c, t, task, ev))
  {
    ReconciledTaskHolds(c, t, task, ev);
    var task' := ReconciledTask(c, t, task, ev);
    assert forall k | 0 <= k < |task.attempts| ::
        task'.attempts[k] == AbandonedAttempt(c, task.attempts[k], EvidenceFor(ev, t, k));
    if task.attempts != [] {
      var n := |task.attempts| - 1;
      assert task'.attempts[n] == AbandonedAttempt(c, task.attempts[n], EvidenceFor(ev, t, n));
    }
  }

  lemma ReservedMeans(c: Config, task: Task, id: string)
    requires TaskMeans(task) && task.status != TaskCompleted
    ensures TaskMeans(task.(status := TaskRunning, attempts := task.attempts + [NewAttempt(c, id)]))
  {
    var longer := task.attempts + [NewAttempt(c, id)];
    assert longer[|task.attempts|].status == Running;
  }

  lemma StartMeans(c: Config, g: Global, l: Label, g': Global)
    requires c.Valid() && Inv(c, g) && StatusHolds(c, g) && Next(c, g, l, g') && l.Start?
    ensures StatusHolds(c, g')
  {
    hide Rows, UsageOf, AccountingOf, WithinBudget, ReconciledTask, TaskHolds, TaskMeans;
    forall t | t in g.durable.tasks ensures TaskMeans(ReconciledTask(c, t, g.durable.tasks[t], l.evidence))
    {
      ReconciledMeans(c, t, g.durable.tasks[t], l.evidence);
    }
  }

  lemma ReserveMeans(c: Config, g: Global, l: Label, g': Global)
    requires c.Valid() && Inv(c, g) && StatusHolds(c, g) && Next(c, g, l, g') && l.Reserve?
    ensures StatusHolds(c, g')
  {
    hide Rows, UsageOf, AccountingOf, WithinBudget, TaskHolds, TaskMeans, NewAttempt, ReserveRefused;
    ReservedMeans(c, g.durable.tasks[c.fixtures[g.pc.i]], l.attemptId);
  }

  lemma RecordMeans(c: Config, g: Global, l: Label, g': Global)
    requires c.Valid() && Inv(c, g) && StatusHolds(c, g) && Next(c, g, l, g') && l.Record?
    ensures StatusHolds(c, g')
  {
    hide Rows, UsageOf, AccountingOf, WithinBudget, TaskHolds, TaskMeans, ClosedTask, Settled, Closed;
    var t := c.fixtures[g.pc.i];
    SettleThenClose(c, g.durable, t, g.pc.usage, g.pc.candidate);
    ClosedMeans(c, g.durable.tasks[t], g.pc.usage, g.pc.candidate);
  }

  lemma CloseMeans(c: Config, g: Global, l: Label, g': Global)
    requires c.Valid() && Inv(c, g) && StatusHolds(c, g) && Next(c, g, l, g') && l.Close?
    ensures StatusHolds(c, g')
  {
    hide Rows, OnlyRunning, WithinBudget, TaskHolds, UsageOf, AccountingOf, TaskMeans, StopMeans;
    assert g'.durable.tasks == g.durable.tasks && g'.durable.accounting == g.durable.accounting;
    SameAccountsMean(c, g.durable, g'.durable);
  }

  lemma SameAccountsMean(c: Config, s: Cohort, s': Cohort)
    requires s'.accounting == s.accounting
    ensures forall reason :: StopMeans(c, s, reason) == StopMeans(c, s', reason)
  {
  }

  lemma OthersMean(c: Config, g: Global, l: Label, g': Global)
    requires c.Valid() && Inv(c, g) && StatusHolds(c, g) && Next(c, g, l, g')
    requires !l.Start? && !l.Reserve? && !l.Record? && !l.Close?
    ensures StatusHolds(c, g')
  {
    hide LedgerHolds, OnlyRunning, Settled, TaskMeans, AllDone;
  }

  lemma StepKeepsStatus(c: Config, g: Global, l: Label, g': Global)
    requires c.Valid() && Inv(c, g) && StatusHolds(c, g) && Next(c, g, l, g')
    ensures StatusHolds(c, g')
  {
    hide Inv, Next, StatusHolds;
    match l
    case Start(_) => StartMeans(c, g, l, g');
    case Reserve(_) => ReserveMeans(c, g, l, g');
    case Record => RecordMeans(c, g, l, g');
    case Close => CloseMeans(c, g, l, g');
    case _ => OthersMean(c, g, l, g');
  }

  /** In every state of every run each task's status says what its attempts came to, and the cohort's status
      what its tasks and budgets came to. */
  lemma {:induction false} StatusSafety(c: Config, states: seq<Global>, labels: seq<Label>, i: nat)
    requires c.Valid() && IsRun(c, states, labels) && states[0] == Initial(c) && i < |states|
    ensures (forall t | t in states[i].durable.tasks :: TaskMeans(states[i].durable.tasks[t]))
    ensures CohortMeans(c, states[i].durable)
    ensures i == 0 ==> states[i].durable.status == Ready && states[i].spent == map[] && states[i].published == map[]
    ensures i == 0 ==> forall t | t in c.fixtures ::
              t in states[i].durable.tasks && states[i].durable.tasks[t] == Task(Pending, [], None)
    ensures StatusHolds(c, states[i])
  {
    hide Next, Inv, CohortMeans, TaskMeans;
    if i == 0 {
      NothingDone(c);
    } else {
      StatusSafety(c, states, labels, i - 1);
      LedgerSafety(c, states, labels, i - 1);
      StepKeepsStatus(c, states[i - 1], labels[i - 1], states[i - 1 + 1]);
    }
  }

  // ------------------------------------------------------ what is written

  ghost function NoEvidence(): Usage
  {
    Usage(false, false, 0, 0, 0, 0)
  }

  /** A start abandons every attempt left running, at its full reservation and with whatever evidence there is,
      leaves the others alone, and will not attempt those tasks again. */
  ghost predicate StartWrites(c: Config, g: Global, ev: Evidence, g': Global)
  {
    && g'.durable.status == CohortRunning && g'.durable.tasks.Keys == g.durable.tasks.Keys
    && (forall t | t in g.durable.tasks :: Abandons(c, t, g.durable.tasks[t], ev, g'.durable.tasks[t]))
    && forall t :: t in g'.attempted
         <==> t in g.durable.tasks && exists k :: 0 <= k < |g.durable.tasks[t].attempts|
                                                  && g.durable.tasks[t].attempts[k].status == Running
  }

  ghost predicate Abandons(c: Config, t: string, task: Task, ev: Evidence, task': Task)
  {
    && task'.candidate == task.candidate && |task'.attempts| == |task.attempts|
    && task'.status == (if task.status == TaskRunning then TaskFailed else task.status)
    && forall k | 0 <= k < |task.attempts| ::
         task'.attempts[k] == if task.attempts[k].status != Running then task.attempts[k]
                              else Attempt(task.attempts[k].attemptId, Abandoned, c.tokensPerTask, CostReservation(c),
                                           if (t, k) in ev then ev[(t, k)] else NoEvidence())
  }

  /** A reservation adds one running attempt, with nothing used yet, to one task. */
  ghost predicate ReserveWrites(c: Config, g: Global, id: string, g': Global)
  {
    && g.pc.At? && g.pc.i < |c.fixtures| && c.fixtures[g.pc.i] in g.durable.tasks
    && var t := c.fixtures[g.pc.i];
       g'.durable.tasks == g.durable.tasks[t := Task(
         TaskRunning,
         g.durable.tasks[t].attempts + [Attempt(id, Running, c.tokensPerTask, CostReservation(c), NoEvidence())],
         g.durable.tasks[t].candidate)]
  }

  /** An outcome closes the newest attempt: what was found is debited in place of the reservation, which stays
      when nothing was found. */
  ghost predicate RecordWrites(c: Config, g: Global, g': Global)
  {
    && g.pc.Finishing? && g.pc.i < |c.fixtures| && c.fixtures[g.pc.i] in g.durable.tasks
    && g.durable.tasks[c.fixtures[g.pc.i]].attempts != []
    && var t, u, hash := c.fixtures[g.pc.i], g.pc.usage, g.pc.candidate;
       var attempts := g.durable.tasks[t].attempts;
       var n, found := |attempts| - 1, u.traceFound || u.providerUsageFound;
       g'.durable.tasks == g.durable.tasks[t := Task(
         if hash.Some? then TaskCompleted else TaskFailed,
         attempts[..n] + [Attempt(attempts[n].attemptId, if hash.Some? then Completed else Failed,
                                  if found then u.total else c.tokensPerTask,
                                  if found then UsageCost(c, u) else CostReservation(c), u)],
         hash)]
  }

  /** A close changes no task; the cohort is completed when every task is, and otherwise keeps the budget that
      stopped it or is partial. */
  ghost predicate CloseWrites(c: Config, g: Global, g': Global)
  {
    && g.memory.Some? && g'.durable.tasks == g.durable.tasks
    && g'.durable.status == if AllDone(g.durable) then CohortCompleted
                            else if g.memory.value.status.Stopped? then g.memory.value.status else Partial
  }

  /** What every step writes to the state file; the other steps write nothing. */
  ghost predicate Writes(c: Config, g: Global, l: Label, g': Global)
  {
    match l
    case Start(ev) => StartWrites(c, g, ev, g')
    case Reserve(id) => ReserveWrites(c, g, id, g')
    case Record => RecordWrites(c, g, g')
    case Close => CloseWrites(c, g, g')
    case _ => g'.durable == g.durable
  }

  lemma TaskAbandons(c: Config, t: string, task: Task, ev: Evidence)
    requires TaskMeans(task)
    ensures Abandons(c, t, task, ev, ReconciledTask(c, t, task, ev))
  {
  }

  lemma StepStart(c: Config, g: Global, l: Label, g': Global)
    requires c.Valid() && Inv(c, g) && StatusHolds(c, g) && Next(c, g, l, g') && l.Start?
    ensures Writes(c, g, l, g')
  {
    hide LedgerHolds, MemoryHolds, UsageOf, AccountingOf, Rows, CohortMeans, TaskMeans, ReconciledTask, Abandons;
    forall t | t in g.durable.tasks
      ensures Abandons(c, t, g.durable.tasks[t], l.evidence, ReconciledTask(c, t, g.durable.tasks[t], l.evidence))
    {
      TaskAbandons(c, t, g.durable.tasks[t], l.evidence);
    }
  }

  lemma StepRecord(c: Config, g: Global, l: Label, g': Global)
    requires c.Valid() && Inv(c, g) && StatusHolds(c, g) && Next(c, g, l, g') && l.Record?
    ensures Writes(c, g, l, g')
  {
    hide Rows, UsageOf, AccountingOf, WithinBudget, TaskHolds, StatusHolds;
    var t := c.fixtures[g.pc.i];
    var task, m := g.durable.tasks[t], g.memory.value.tasks;
    assert m == g.durable.tasks[t := WithLast(task, SettledAttempt(c, Last(task), g.pc.usage))];
    assert OnlyRunning(g.durable, Some(t));
    RunningIsNotCompleted(c, g, t);
  }

  lemma RunningIsNotCompleted(c: Config, g: Global, t: string)
    requires StatusHolds(c, g) && t in g.durable.tasks && g.durable.tasks[t].attempts != []
    requires Last(g.durable.tasks[t]).status == Running
    ensures g.durable.tasks[t].candidate == None
  {
    assert TaskMeans(g.durable.tasks[t]);
  }

  lemma StepReserve(c: Config, g: Global, l: Label, g': Global)
    requires Inv(c, g) && Next(c, g, l, g') && l.Reserve?
    ensures Writes(c, g, l, g')
  {
    hide LedgerHolds, OnlyRunning, UsageOf, AccountingOf, Rows, ReserveRefused;
  }

  lemma StepClose(c: Config, g: Global, l: Label, g': Global)
    requires Inv(c, g) && Next(c, g, l, g') && l.Close?
    ensures Writes(c, g, l, g')
  {
    hide LedgerHolds, OnlyRunning, UsageOf, AccountingOf, Rows;
  }

  lemma StepKeeps(c: Config, g: Global, l: Label, g': Global)
    requires Next(c, g, l, g') && !l.Start? && !l.Record? && !l.Reserve? && !l.Close?
    ensures Writes(c, g, l, g')
  {
    hide Settled, ReserveRefused;
  }

  lemma StepWrites(c: Config, g: Global, l: Label, g': Global)
    requires c.Valid() && Inv(c, g) && StatusHolds(c, g) && Next(c, g, l, g')
    ensures Writes(c, g, l, g')
  {
    hide Inv, StatusHolds, Next, Writes;
    match l
    case Start(_) => StepStart(c, g, l, g');
    case Record => StepRecord(c, g, l, g');
    case Reserve(_) => StepReserve(c, g, l, g');
    case Close => StepClose(c, g, l, g');
    case _ => StepKeeps(c, g, l, g');
  }

  /** Every step of every run writes to the state file exactly what it should, and nothing else does. */
  lemma RunWrites(c: Config, states: seq<Global>, labels: seq<Label>, i: nat)
    requires c.Valid() && IsRun(c, states, labels) && states[0] == Initial(c) && i < |labels|
    ensures Writes(c, states[i], labels[i], states[i + 1])
  {
    LedgerSafety(c, states, labels, i);
    StatusSafety(c, states, labels, i);
    hide Inv, StatusHolds, Writes, Next;
    StepWrites(c, states[i], labels[i], states[i + 1]);
  }

  // ------------------------------------------------------------- the totals

  ghost function OverAttempts(f: Attempt -> int, attempts: seq<Attempt>): int
  {
    if attempts == [] then 0
    else f(attempts[|attempts| - 1]) + OverAttempts(f, attempts[..|attempts| - 1])
  }

  /** The sum of f over every attempt of every fixture. */
  ghost function Overall(f: Attempt -> int, names: seq<string>, tasks: map<string, Task>): int
  {
    if names == [] then 0
    else var t := names[|names| - 1];
         (if t in tasks then OverAttempts(f, tasks[t].attempts) else 0)
         + Overall(f, names[..|names| - 1], tasks)
  }

  ghost function CostOverAttempts(f: Attempt -> real, attempts: seq<Attempt>): real
  {
    if attempts == [] then 0.0
    else f(attempts[|attempts| - 1]) + CostOverAttempts(f, attempts[..|attempts| - 1])
  }

  ghost function CostOverall(f: Attempt -> real, names: seq<string>, tasks: map<string, Task>): real
  {
    if names == [] then 0.0
    else var t := names[|names| - 1];
         (if t in tasks then CostOverAttempts(f, tasks[t].attempts) else 0.0)
         + CostOverall(f, names[..|names| - 1], tasks)
  }

  lemma {:induction false} SumOfAttempts(f: Attempt -> int, h: Attempt -> int, xs: seq<Attempt>, ys: seq<Attempt>)
    requires forall a :: f(a) == h(a)
    ensures Sum(f, xs + ys) == Sum(f, xs) + OverAttempts(h, ys)
  {
    if ys == [] {
      assert xs + ys == xs;
    } else {
      var n := |ys| - 1;
      SumOfAttempts(f, h, xs, ys[..n]);
      assert (xs + ys)[..|xs + ys| - 1] == xs + ys[..n];
    }
  }

  lemma {:induction false} SumIsOverall(
    f: Attempt -> int, h: Attempt -> int, names: seq<string>, tasks: map<string, Task>)
    requires forall a :: f(a) == h(a)
    ensures Sum(f, Rows(names, tasks)) == Overall(h, names, tasks)
  {
    if names != [] {
      SumIsOverall(f, h, names[..|names| - 1], tasks);
      SumOfAttempts(f, h, Rows(names[..|names| - 1], tasks), AttemptsOf(tasks, names[|names| - 1]));
    }
  }

  lemma {:induction false} CostOfAttempts(f: Attempt -> real, h: Attempt -> real, xs: seq<Attempt>, ys: seq<Attempt>)
    requires forall a :: f(a) == h(a)
    ensures SumReal(f, xs + ys) == SumReal(f, xs) + CostOverAttempts(h, ys)
  {
    if ys == [] {
      assert xs + ys == xs;
    } else {
      var n := |ys| - 1;
      CostOfAttempts(f, h, xs, ys[..n]);
      assert (xs + ys)[..|xs + ys| - 1] == xs + ys[..n];
    }
  }

  lemma {:induction false} CostIsOverall(
    f: Attempt -> real, h: Attempt -> real, names: seq<string>, tasks: map<string, Task>)
    requires forall a :: f(a) == h(a)
    ensures SumReal(f, Rows(names, tasks)) == CostOverall(h, names, tasks)
  {
    if names != [] {
      CostIsOverall(f, h, names[..|names| - 1], tasks);
      CostOfAttempts(f, h, Rows(names[..|names| - 1], tasks), AttemptsOf(tasks, names[|names| - 1]));
    }
  }

  /** The totals of a state file: each token category, the total and the debits are the sums over every
      attempt; what is debited beyond the reported total is unverified; costs only when there are rates. */
  ghost predicate TotalsMean(c: Config, s: Cohort)
  {
    var names, tasks := c.fixtures, s.tasks;
    && s.usage.prompt == Overall((a: Attempt) => a.usage.prompt, names, tasks)
    && s.usage.completion == Overall((a: Attempt) => a.usage.completion, names, tasks)
    && s.usage.unclassified == Overall((a: Attempt) => a.usage.unclassified, names, tasks)
    && s.usage.total == Overall((a: Attempt) => a.usage.total, names, tasks)
    && s.accounting.debitedTokens == Overall((a: Attempt) => a.debitTokens, names, tasks)
    && s.accounting.unverifiedTokens
       == (if s.accounting.debitedTokens > s.usage.total then s.accounting.debitedTokens - s.usage.total else 0)
  }

  ghost predicate CostsMean(c: Config, s: Cohort)
  {
    var cost := CostOverall((a: Attempt) => UsageCost(c, a.usage).GetOr(0.0), c.fixtures, s.tasks);
    var debited := CostOverall((a: Attempt) => a.debitCost.GetOr(0.0), c.fixtures, s.tasks);
    if c.rates.None? then s.usage.cost.None? && s.accounting.debitedCost.None? && s.accounting.unverifiedCost.None?
    else && s.usage.cost == Some(cost) && s.accounting.debitedCost == Some(debited)
         && s.accounting.unverifiedCost == Some(if debited > cost then debited - cost else 0.0)
  }

  lemma LedgerTotals(c: Config, s: Cohort)
    requires LedgerHolds(c, s)
    ensures TotalsMean(c, s) && CostsMean(c, s)
  {
    SumIsOverall(PROMPT, (a: Attempt) => a.usage.prompt, c.fixtures, s.tasks);
    SumIsOverall(COMPLETION, (a: Attempt) => a.usage.completion, c.fixtures, s.tasks);
    SumIsOverall(UNCLASSIFIED, (a: Attempt) => a.usage.unclassified, c.fixtures, s.tasks);
    SumIsOverall(TOTAL, (a: Attempt) => a.usage.total, c.fixtures, s.tasks);
    SumIsOverall(DEBIT, (a: Attempt) => a.debitTokens, c.fixtures, s.tasks);
    CostIsOverall(CostOf(c), (a: Attempt) => UsageCost(c, a.usage).GetOr(0.0), c.fixtures, s.tasks);
    CostIsOverall(DEBIT_COST, (a: Attempt) => a.debitCost.GetOr(0.0), c.fixtures, s.tasks);
    hide Rows, Overall, CostOverall, Sum, SumReal, UsageCost, TaskHolds, WithinBudget;
  }

  /** In every state of every run the saved totals are the sums over everything attempted. */
  lemma TotalsSafety(c: Config, states: seq<Global>, labels: seq<Label>, i: nat)
    requires c.Valid() && IsRun(c, states, labels) && states[0] == Initial(c) && i < |states|
    ensures TotalsMean(c, states[i].durable) && CostsMean(c, states[i].durable)
  {
    LedgerSafety(c, states, labels, i);
    hide LedgerHolds, TotalsMean, CostsMean, Next;
    LedgerTotals(c, states[i].durable);
  }
}
