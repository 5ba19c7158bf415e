/** Every step of the scheduler, including a crash anywhere, keeps the ledger's invariant. */
module CohortSafety {
  import opened Contracts
  import opened CohortLedger
  import opened CohortProtocol

  // --------------------------------------------------- lemmas about sums

  lemma {:induction false} SumAppend(f: Attempt -> int, a: seq<Attempt>, b: seq<Attempt>)
    ensures Sum(f, a + b) == Sum(f, a) + Sum(f, b)
  {
    if b == [] {
      assert a + b == a;
    } else {
      assert (a + b)[..|a + b| - 1] == a + b[..|b| - 1];
      SumAppend(f, a, b[..|b| - 1]);
    }
  }

  lemma {:induction false} SumRealAppend(f: Attempt -> real, a: seq<Attempt>, b: seq<Attempt>)
    ensures SumReal(f, a + b) == SumReal(f, a) + SumReal(f, b)
  {
    if b == [] {
      assert a + b == a;
    } else {
      assert (a + b)[..|a + b| - 1] == a + b[..|b| - 1];
      SumRealAppend(f, a, b[..|b| - 1]);
    }
  }

  lemma {:induction false} RowsSame(names: seq<string>, a: map<string, Task>, b: map<string, Task>)
    requires forall t | t in names :: AttemptsOf(a, t) == AttemptsOf(b, t)
    ensures Rows(names, a) == Rows(names, b)
  {
    if names != [] {
      var rest := names[..|names| - 1];
      assert forall t | t in rest :: t in names;
      RowsSame(rest, a, b);
      assert names[|names| - 1] in names;
    }
  }

  ghost predicate Distinct(names: seq<string>)
  {
    forall i, j | 0 <= i < j < |names| :: names[i] != names[j]
  }

  /** Editing one task edits one block of rows. */
  lemma {:induction false} RowsSplit(names: seq<string>, tasks: map<string, Task>, t: string, task: Task)
    returns (before: seq<Attempt>, after: seq<Attempt>)
    requires t in names && Distinct(names)
    ensures Rows(names, tasks) == before + AttemptsOf(tasks, t) + after
    ensures Rows(names, tasks[t := task]) == before + task.attempts + after
  {
    var n := |names| - 1;
    var rest, last := names[..n], names[n];
    if last == t {
      assert t !in rest;
      RowsSame(rest, tasks, tasks[t := task]);
      before, after := Rows(rest, tasks), [];
    } else {
      assert t in rest;
      before, after := RowsSplit(rest, tasks, t, task);
      after := after + AttemptsOf(tasks, last);
      assert before + AttemptsOf(tasks, t) + after == Rows(rest, tasks) + AttemptsOf(tasks, last);
      assert before + task.attempts + after == Rows(rest, tasks[t := task]) + AttemptsOf(tasks, last);
    }
  }

  /** Editing one task changes every total by that task's own change. */
  lemma SumEdit(f: Attempt -> int, names: seq<string>, tasks: map<string, Task>, t: string, task: Task)
    requires t in names && Distinct(names)
    ensures Sum(f, Rows(names, tasks[t := task]))
         == Sum(f, Rows(names, tasks)) - Sum(f, AttemptsOf(tasks, t)) + Sum(f, task.attempts)
  {
    var before, after := RowsSplit(names, tasks, t, task);
    SumAppend(f, before + AttemptsOf(tasks, t), after);
    SumAppend(f, before, AttemptsOf(tasks, t));
    SumAppend(f, before + task.attempts, after);
    SumAppend(f, before, task.attempts);
  }

  lemma SumRealEdit(f: Attempt -> real, names: seq<string>, tasks: map<string, Task>, t: string, task: Task)
    requires t in names && Distinct(names)
    ensures SumReal(f, Rows(names, tasks[t := task]))
         == SumReal(f, Rows(names, tasks)) - SumReal(f, AttemptsOf(tasks, t)) + SumReal(f, task.attempts)
  {
    var before, after := RowsSplit(names, tasks, t, task);
    SumRealAppend(f, before + AttemptsOf(tasks, t), after);
    SumRealAppend(f, before, AttemptsOf(tasks, t));
    SumRealAppend(f, before + task.attempts, after);
    SumRealAppend(f, before, task.attempts);
  }

  lemma {:induction false} SumPointwise(f: Attempt -> int, g: Attempt -> int, a: seq<Attempt>, b: seq<Attempt>)
    requires |a| == |b| && forall k | 0 <= k < |a| :: f(a[k]) <= g(b[k])
    ensures Sum(f, a) <= Sum(g, b)
  {
    if a != [] {
      SumPointwise(f, g, a[..|a| - 1], b[..|b| - 1]);
    }
  }

  lemma {:induction false} SumRealPointwise(f: Attempt -> real, g: Attempt -> real, a: seq<Attempt>, b: seq<Attempt>)
    requires |a| == |b| && forall k | 0 <= k < |a| :: f(a[k]) <= g(b[k])
    ensures SumReal(f, a) <= SumReal(g, b)
  {
    if a != [] {
      SumRealPointwise(f, g, a[..|a| - 1], b[..|b| - 1]);
    }
  }

  // ------------------------------------------------------------- reserving

  lemma SumOne(f: Attempt -> int, xs: seq<Attempt>, x: Attempt)
    ensures Sum(f, xs + [x]) == Sum(f, xs) + f(x)
  {
    assert (xs + [x])[..|xs|] == xs;
  }

  lemma SumRealOne(f: Attempt -> real, xs: seq<Attempt>, x: Attempt)
    ensures SumReal(f, xs + [x]) == SumReal(f, xs) + f(x)
  {
    assert (xs + [x])[..|xs|] == xs;
  }

  /** Admission is checked against the debits, so even the capped sums stay within budget. */
  lemma ReserveKeepsBudget(c: Config, s: Cohort, t: string, task: Task, id: string)
    requires c.Valid() && t in s.tasks && LedgerHolds(c, s) && ReserveRefused(c, s).None?
    requires task.attempts == s.tasks[t].attempts + [NewAttempt(c, id)]
    ensures WithinBudget(c, Rows(c.fixtures, s.tasks[t := task]))
  {
    LedgerTask(c, s, t);
    hide Rows, TaskHolds, UsageOf, UsageCost;
    var rows := Rows(c.fixtures, s.tasks);
    var a := NewAttempt(c, id);
    SumEdit(Capped(c), c.fixtures, s.tasks, t, task);
    SumOne(Capped(c), s.tasks[t].attempts, a);
    SumPointwise(Capped(c), DEBIT, rows, rows);
    SumRealEdit(CappedCost(c), c.fixtures, s.tasks, t, task);
    SumRealOne(CappedCost(c), s.tasks[t].attempts, a);
    SumRealPointwise(CappedCost(c), DEBIT_COST, rows, rows);
  }

  /** Replacing one task by one that holds, and recalculating, keeps the ledger's row facts. */
  lemma EditKeepsLedger(c: Config, s: Cohort, t: string, task: Task)
    requires LedgerHolds(c, s) && t in s.tasks && TaskHolds(c, task)
    requires WithinBudget(c, Rows(c.fixtures, s.tasks[t := task]))
    ensures LedgerHolds(c, Recalculated(c, s.(tasks := s.tasks[t := task])))
  {
    hide Rows, TaskHolds, WithinBudget, UsageOf, AccountingOf;
  }

  lemma ReservedTaskHolds(c: Config, task: Task, id: string)
    requires TaskHolds(c, task) && !HasRunning(task)
    ensures var task' := task.(status := TaskRunning, attempts := task.attempts + [NewAttempt(c, id)]);
      TaskHolds(c, task') && HasRunning(task')
  {
    var task' := task.(status := TaskRunning, attempts := task.attempts + [NewAttempt(c, id)]);
    assert task'.attempts[|task.attempts|].status == Running;
  }

  lemma ReserveKeepsLedger(c: Config, s: Cohort, t: string, id: string)
    requires c.Valid() && LedgerHolds(c, s) && t in s.tasks
    requires OnlyRunning(s, None) && ReserveRefused(c, s).None?
    ensures LedgerHolds(c, Reserved(c, s, t, id))
    ensures OnlyRunning(Reserved(c, s, t, id), Some(t))
  {
    hide LedgerHolds, TaskHolds, WithinBudget, HasRunning, Recalculated;
    var task := s.tasks[t].(status := TaskRunning, attempts := s.tasks[t].attempts + [NewAttempt(c, id)]);
    LedgerTask(c, s, t);
    ReservedTaskHolds(c, s.tasks[t], id);
    ReserveKeepsBudget(c, s, t, task, id);
    EditKeepsLedger(c, s, t, task);
    RecalculatedTasks(c, s.(tasks := s.tasks[t := task]));
  }

  lemma LedgerTask(c: Config, s: Cohort, t: string)
    requires LedgerHolds(c, s)
    ensures t in s.tasks <==> t in c.fixtures
    ensures t in s.tasks ==> TaskHolds(c, s.tasks[t])
  {
  }

  lemma RecalculatedTasks(c: Config, s: Cohort)
    ensures Recalculated(c, s).tasks == s.tasks && Recalculated(c, s).status == s.status
  {
  }

  // ---------------------------------------------------- settling and closing

  /** The task whose newest attempt is settled with u and closed. */
  function ClosedTask(c: Config, task: Task, u: Usage, candidate: Option<string>): Task
    requires task.attempts != []
  {
    var a := SettledAttempt(c, Last(task), u).(status := if candidate.Some? then Completed else Failed);
    if candidate.Some? then WithLast(task, a).(status := TaskCompleted, candidate := candidate)
    else WithLast(task, a).(status := TaskFailed)
  }

  lemma SumLast(f: Attempt -> int, task: Task, a: Attempt)
    requires task.attempts != []
    ensures Sum(f, WithLast(task, a).attempts) == Sum(f, task.attempts) - f(Last(task)) + f(a)
  {
    SumOne(f, task.attempts[..|task.attempts| - 1], a);
  }

  lemma SumRealLast(f: Attempt -> real, task: Task, a: Attempt)
    requires task.attempts != []
    ensures SumReal(f, WithLast(task, a).attempts) == SumReal(f, task.attempts) - f(Last(task)) + f(a)
  {
    SumRealOne(f, task.attempts[..|task.attempts| - 1], a);
  }

  /** Changing the newest attempt of one task without changing any of its measures. */
  lemma SameMeasures(c: Config, names: seq<string>, tasks: map<string, Task>, t: string, task: Task)
    requires t in names && t in tasks && Distinct(names) && tasks[t].attempts != []
    requires |task.attempts| == |tasks[t].attempts| && task.attempts == WithLast(tasks[t], Last(task)).attempts
    requires Last(task).usage == Last(tasks[t]).usage && Last(task).debitTokens == Last(tasks[t]).debitTokens
    requires Last(task).debitCost == Last(tasks[t]).debitCost
    ensures UsageOf(c, Rows(names, tasks[t := task])) == UsageOf(c, Rows(names, tasks))
    ensures AccountingOf(c, Rows(names, tasks[t := task])) == AccountingOf(c, Rows(names, tasks))
  {
    hide Rows;
    SameMeasure(PROMPT, names, tasks, t, task);
    SameMeasure(COMPLETION, names, tasks, t, task);
    SameMeasure(UNCLASSIFIED, names, tasks, t, task);
    SameMeasure(TOTAL, names, tasks, t, task);
    SameMeasure(DEBIT, names, tasks, t, task);
    SameRealMeasure(DEBIT_COST, names, tasks, t, task);
    SameRealMeasure(CostOf(c), names, tasks, t, task);
  }

  lemma SameMeasure(f: Attempt -> int, names: seq<string>, tasks: map<string, Task>, t: string, task: Task)
    requires t in names && t in tasks && Distinct(names) && tasks[t].attempts != []
    requires |task.attempts| == |tasks[t].attempts| && task.attempts == WithLast(tasks[t], Last(task)).attempts
    requires f(Last(task)) == f(Last(tasks[t]))
    ensures Sum(f, Rows(names, tasks[t := task])) == Sum(f, Rows(names, tasks))
  {
    SumEdit(f, names, tasks, t, task);
    SumLast(f, tasks[t], Last(task));
  }

  lemma SameRealMeasure(f: Attempt -> real, names: seq<string>, tasks: map<string, Task>, t: string, task: Task)
    requires t in names && t in tasks && Distinct(names) && tasks[t].attempts != []
    requires |task.attempts| == |tasks[t].attempts| && task.attempts == WithLast(tasks[t], Last(task)).attempts
    requires f(Last(task)) == f(Last(tasks[t]))
    ensures SumReal(f, Rows(names, tasks[t := task])) == SumReal(f, Rows(names, tasks))
  {
    SumRealEdit(f, names, tasks, t, task);
    SumRealLast(f, tasks[t], Last(task));
  }

  /** Settling in memory and closing later amount to one edit of the ledger. */
  lemma SettleThenClose(c: Config, s: Cohort, t: string, u: Usage, candidate: Option<string>)
    requires c.Valid() && t in c.fixtures && t in s.tasks && s.tasks[t].attempts != []
    ensures Settled(c, s, t, u).tasks[t].attempts != []
    ensures Closed(Settled(c, s, t, u), t, candidate)
         == Recalculated(c, s.(tasks := s.tasks[t := ClosedTask(c, s.tasks[t], u, candidate)]))
  {
    hide Rows, UsageOf, AccountingOf;
    var tasks := s.tasks[t := WithLast(s.tasks[t], SettledAttempt(c, Last(s.tasks[t]), u))];
    var task := ClosedTask(c, s.tasks[t], u, candidate);
    SameMeasures(c, c.fixtures, tasks, t, task);
    assert tasks[t := task] == s.tasks[t := task];
  }

  lemma LedgerBudget(c: Config, s: Cohort)
    requires LedgerHolds(c, s)
    ensures WithinBudget(c, Rows(c.fixtures, s.tasks))
  {
  }

  /** Replacing a fully reserved newest attempt by any other cannot raise the capped sums. */
  lemma ReplacingReservation(c: Config, s: Cohort, t: string, task: Task)
    requires c.Valid() && WithinBudget(c, Rows(c.fixtures, s.tasks))
    requires t in c.fixtures && t in s.tasks && s.tasks[t].attempts != [] && task.attempts != []
    requires task.attempts == WithLast(s.tasks[t], Last(task)).attempts
    requires Last(s.tasks[t]).debitTokens == c.tokensPerTask && Last(s.tasks[t]).debitCost == CostReservation(c)
    ensures WithinBudget(c, Rows(c.fixtures, s.tasks[t := task]))
  {
    hide Rows, Sum, SumReal, CostReservation;
    SumEdit(Capped(c), c.fixtures, s.tasks, t, task);
    SumLast(Capped(c), s.tasks[t], Last(task));
    SumRealEdit(CappedCost(c), c.fixtures, s.tasks, t, task);
    SumRealLast(CappedCost(c), s.tasks[t], Last(task));
  }

  lemma SettleKeepsBudget(c: Config, s: Cohort, t: string, u: Usage, candidate: Option<string>)
    requires c.Valid() && LedgerHolds(c, s) && t in s.tasks && s.tasks[t].attempts != []
    requires Last(s.tasks[t]).debitTokens == c.tokensPerTask && Last(s.tasks[t]).debitCost == CostReservation(c)
    ensures WithinBudget(c, Rows(c.fixtures, s.tasks[t := ClosedTask(c, s.tasks[t], u, candidate)]))
  {
    LedgerTask(c, s, t);
    LedgerBudget(c, s);
    hide LedgerHolds, WithinBudget, Rows;
    ReplacingReservation(c, s, t, ClosedTask(c, s.tasks[t], u, candidate));
  }

  lemma ClosedTaskHolds(c: Config, task: Task, u: Usage, candidate: Option<string>)
    requires TaskHolds(c, task) && task.attempts != [] && Last(task).status == Running
    ensures TaskHolds(c, ClosedTask(c, task, u, candidate)) && !HasRunning(ClosedTask(c, task, u, candidate))
  {
    var n := |task.attempts| - 1;
    assert RowHolds(c, task.attempts[n]);
    assert forall k | 0 <= k < n :: ClosedTask(c, task, u, candidate).attempts[k] == task.attempts[k];
  }

  lemma CloseKeepsLedger(c: Config, s: Cohort, t: string, u: Usage, candidate: Option<string>)
    requires c.Valid() && LedgerHolds(c, s) && t in s.tasks && s.tasks[t].attempts != []
    requires OnlyRunning(s, Some(t)) && Last(s.tasks[t]).status == Running
    requires Last(s.tasks[t]).debitTokens == c.tokensPerTask && Last(s.tasks[t]).debitCost == CostReservation(c)
    ensures Settled(c, s, t, u).tasks[t].attempts != []
    ensures var s' := Closed(Settled(c, s, t, u), t, candidate);
      LedgerHolds(c, s') && OnlyRunning(s', None) && s'.status == s.status
  {
    hide LedgerHolds, TaskHolds, WithinBudget, HasRunning, Recalculated, ClosedTask, Closed, Settled;
    LedgerTask(c, s, t);
    SettleThenClose(c, s, t, u, candidate);
    ClosedTaskHolds(c, s.tasks[t], u, candidate);
    SettleKeepsBudget(c, s, t, u, candidate);
    EditKeepsLedger(c, s, t, ClosedTask(c, s.tasks[t], u, candidate));
    RecalculatedTasks(c, s.(tasks := s.tasks[t := ClosedTask(c, s.tasks[t], u, candidate)]));
  }

  // ----------------------------------------------------------- reconciling

  lemma ReconciledTaskHolds(c: Config, t: string, task: Task, ev: Evidence)
    requires TaskHolds(c, task)
    ensures TaskHolds(c, ReconciledTask(c, t, task, ev)) && !HasRunning(ReconciledTask(c, t, task, ev))
  {
    var task' := ReconciledTask(c, t, task, ev);
    forall k | 0 <= k < |task'.attempts| ensures RowHolds(c, task'.attempts[k]) && task'.attempts[k].status != Running
    {
      assert RowHolds(c, task.attempts[k]);
    }
  }

  lemma ReconciledDebits(c: Config, t: string, task: Task, ev: Evidence, k: nat)
    requires TaskHolds(c, task) && k < |task.attempts|
    ensures SameDebit(ReconciledTask(c, t, task, ev).attempts[k], task.attempts[k])
  {
    assert RowHolds(c, task.attempts[k]);
  }

  lemma ReconcileKeepsBudget(c: Config, s: Cohort, ev: Evidence)
    requires c.Valid() && LedgerHolds(c, s)
    ensures WithinBudget(c, Rows(c.fixtures, ReconciledTasks(c, s.tasks, ev)))
  {
    var tasks := ReconciledTasks(c, s.tasks, ev);
    LedgerBudget(c, s);
    forall t, k | t in c.fixtures && 0 <= k < |AttemptsOf(tasks, t)|
      ensures k < |AttemptsOf(s.tasks, t)| && SameDebit(AttemptsOf(tasks, t)[k], AttemptsOf(s.tasks, t)[k])
    {
      LedgerTask(c, s, t);
      ReconciledDebits(c, t, s.tasks[t], ev, k);
    }
    forall t | t in c.fixtures ensures |AttemptsOf(tasks, t)| == |AttemptsOf(s.tasks, t)|
    {
      LedgerTask(c, s, t);
    }
    RowsAlign(c.fixtures, tasks, s.tasks);
    SameDebitsSameSums(c, Rows(c.fixtures, tasks), Rows(c.fixtures, s.tasks));
  }

  lemma SameDebitsSameSums(c: Config, a: seq<Attempt>, b: seq<Attempt>)
    requires |a| == |b| && forall k | 0 <= k < |a| :: SameDebit(a[k], b[k])
    requires WithinBudget(c, b)
    ensures WithinBudget(c, a)
  {
    SumPointwise(Capped(c), Capped(c), a, b);
    SumRealPointwise(CappedCost(c), CappedCost(c), a, b);
  }

  ghost predicate SameDebit(a: Attempt, b: Attempt)
  {
    a.debitTokens == b.debitTokens && a.debitCost == b.debitCost
  }

  lemma {:induction false} RowsAlign(names: seq<string>, a: map<string, Task>, b: map<string, Task>)
    requires forall t | t in names :: |AttemptsOf(a, t)| == |AttemptsOf(b, t)|
    requires forall t, k | t in names && 0 <= k < |AttemptsOf(a, t)| ::
      SameDebit(AttemptsOf(a, t)[k], AttemptsOf(b, t)[k])
    ensures |Rows(names, a)| == |Rows(names, b)|
    ensures forall k | 0 <= k < |Rows(names, a)| :: SameDebit(Rows(names, a)[k], Rows(names, b)[k])
  {
    if names != [] {
      var rest := names[..|names| - 1];
      assert forall t | t in rest :: t in names;
      RowsAlign(rest, a, b);
      assert names[|names| - 1] in names;
    }
  }

  lemma ReconcileKeepsLedger(c: Config, s: Cohort, ev: Evidence)
    requires c.Valid() && LedgerHolds(c, s)
    ensures LedgerHolds(c, Reconciled(c, s, ev)) && OnlyRunning(Reconciled(c, s, ev), None)
  {
    hide HasRunning, Rows, WithinBudget, TaskHolds, ReconciledTask;
    ReconcileKeepsBudget(c, s, ev);
    forall t | t in s.tasks
      ensures TaskHolds(c, ReconciledTask(c, t, s.tasks[t], ev)) && !HasRunning(ReconciledTask(c, t, s.tasks[t], ev))
    {
      ReconciledTaskHolds(c, t, s.tasks[t], ev);
    }
  }
}
