/** The durable ledger of a cohort: what its records mean, how they are summed, and what each edit
    of the scheduler does to them. Money and tokens are exact. */
module CohortLedger {
  import opened Contracts

  /** The immutable policy; its constructor's checks are Valid(). */
  datatype Config = Config(
    fixtures: seq<string>, totalTokens: int, tokensPerTask: int, rates: Option<Rates>, totalCost: Option<real>)
  {
    ghost predicate Valid()
    {
      && fixtures != [] && (forall i, j | 0 <= i < j < |fixtures| :: fixtures[i] != fixtures[j])
      && 0 < tokensPerTask <= totalTokens
      && (rates.Some? ==> rates.value.input >= 0.0 && rates.value.output >= 0.0)
      && (totalCost.Some? ==> rates.Some? && totalCost.value >= 0.0)
    }
  }

  /** US dollars per million tokens. */
  datatype Rates = Rates(input: real, output: real)
  {
    function Highest(): real
    {
      if input >= output then input else output
    }
  }

  datatype Usage = Usage(
    traceFound: bool, providerUsageFound: bool, prompt: int, completion: int, unclassified: int, total: int)
  {
    predicate Found()
    {
      traceFound || providerUsageFound
    }
  }

  const NO_USAGE := Usage(false, false, 0, 0, 0, 0)

  datatype AttemptStatus = Running | Completed | Failed | Abandoned

  datatype Attempt = Attempt(
    attemptId: string, status: AttemptStatus, debitTokens: int, debitCost: Option<real>, usage: Usage)

  datatype TaskStatus = Pending | TaskRunning | TaskCompleted | TaskFailed

  datatype Task = Task(status: TaskStatus, attempts: seq<Attempt>, candidate: Option<string>)

  datatype BudgetStop = TokenBudget | CostBudget

  datatype CohortStatus = Ready | CohortRunning | Stopped(reason: BudgetStop) | Partial | CohortCompleted

  datatype Totals = Totals(prompt: int, completion: int, unclassified: int, total: int, cost: Option<real>)

  datatype Accounting = Accounting(
    debitedTokens: int, unverifiedTokens: int, debitedCost: Option<real>, unverifiedCost: Option<real>)

  datatype Cohort = Cohort(status: CohortStatus, tasks: map<string, Task>, usage: Totals, accounting: Accounting)

  // ------------------------------------------------------------------- sums

  function Sum(f: Attempt -> int, xs: seq<Attempt>): int
  {
    if xs == [] then 0 else Sum(f, xs[..|xs| - 1]) + f(xs[|xs| - 1])
  }

  function SumReal(f: Attempt -> real, xs: seq<Attempt>): real
  {
    if xs == [] then 0.0 else SumReal(f, xs[..|xs| - 1]) + f(xs[|xs| - 1])
  }

  function AttemptsOf(tasks: map<string, Task>, t: string): seq<Attempt>
  {
    if t in tasks then tasks[t].attempts else []
  }

  /** All attempts of the named tasks, task by task. */
  function Rows(names: seq<string>, tasks: map<string, Task>): seq<Attempt>
  {
    if names == [] then []
    else Rows(names[..|names| - 1], tasks) + AttemptsOf(tasks, names[|names| - 1])
  }

  // ------------------------------------------------------------------ rates

  /** Unknown token categories are charged at the higher rate. */
  function UsageCost(c: Config, u: Usage): Option<real>
  {
    if c.rates.None? then None
    else Some((u.prompt as real * c.rates.value.input + u.completion as real * c.rates.value.output
               + u.unclassified as real * c.rates.value.Highest()) / 1000000.0)
  }

  function CostReservation(c: Config): Option<real>
  {
    if c.rates.None? then None
    else Some(c.tokensPerTask as real * c.rates.value.Highest() / 1000000.0)
  }

  // --------------------------------------------------------- recalculation

  const PROMPT: Attempt -> int := (a: Attempt) => a.usage.prompt
  const COMPLETION: Attempt -> int := (a: Attempt) => a.usage.completion
  const UNCLASSIFIED: Attempt -> int := (a: Attempt) => a.usage.unclassified
  const TOTAL: Attempt -> int := (a: Attempt) => a.usage.total
  const DEBIT: Attempt -> int := (a: Attempt) => a.debitTokens
  const DEBIT_COST: Attempt -> real := (a: Attempt) => a.debitCost.GetOr(0.0)

  function CostOf(c: Config): Attempt -> real
  {
    (a: Attempt) => UsageCost(c, a.usage).GetOr(0.0)
  }

  function Max(a: int, b: int): int
  {
    if a >= b then a else b
  }

  function UsageOf(c: Config, rows: seq<Attempt>): Totals
  {
    Totals(Sum(PROMPT, rows), Sum(COMPLETION, rows), Sum(UNCLASSIFIED, rows), Sum(TOTAL, rows),
           if c.rates.Some? then Some(SumReal(CostOf(c), rows)) else None)
  }

  function AccountingOf(c: Config, rows: seq<Attempt>): Accounting
  {
    var debitedCost, cost := SumReal(DEBIT_COST, rows), SumReal(CostOf(c), rows);
    Accounting(Sum(DEBIT, rows), Max(Sum(DEBIT, rows) - Sum(TOTAL, rows), 0),
               if c.rates.Some? then Some(debitedCost) else None,
               if c.rates.Some? then Some(if debitedCost >= cost then debitedCost - cost else 0.0) else None)
  }

  function Recalculated(c: Config, s: Cohort): Cohort
  {
    var rows := Rows(c.fixtures, s.tasks);
    s.(usage := UsageOf(c, rows), accounting := AccountingOf(c, rows))
  }

  ghost predicate Tallied(c: Config, rows: seq<Attempt>, prompt: int, completion: int, unclassified: int, total: int,
                          debited: int, cost: real, debitedCost: real)
  {
    && prompt == Sum(PROMPT, rows) && completion == Sum(COMPLETION, rows)
    && unclassified == Sum(UNCLASSIFIED, rows) && total == Sum(TOTAL, rows)
    && debited == Sum(DEBIT, rows) && cost == SumReal(CostOf(c), rows) && debitedCost == SumReal(DEBIT_COST, rows)
  }

  lemma NothingTallied(c: Config)
    ensures Tallied(c, [], 0, 0, 0, 0, 0, 0.0, 0.0)
  {
  }

  lemma TallyOne(c: Config, rows: seq<Attempt>, a: Attempt, prompt: int, completion: int, unclassified: int, total: int,
                 debited: int, cost: real, debitedCost: real)
    requires Tallied(c, rows, prompt, completion, unclassified, total, debited, cost, debitedCost)
    ensures Tallied(c, rows + [a], prompt + a.usage.prompt, completion + a.usage.completion,
                    unclassified + a.usage.unclassified, total + a.usage.total, debited + a.debitTokens,
                    cost + UsageCost(c, a.usage).GetOr(0.0), debitedCost + a.debitCost.GetOr(0.0))
  {
    assert (rows + [a])[..|rows|] == rows;
  }

  /** The one pass over every attempt that brings the totals up to date. */
  method Recalculate(c: Config, s: Cohort) returns (r: Cohort)
    ensures r == Recalculated(c, s)
  {
    var prompt, completion, unclassified, total, debited := 0, 0, 0, 0, 0;
    var cost, debitedCost := 0.0, 0.0;
    ghost var done: seq<Attempt> := [];
    NothingTallied(c);
    hide Sum, SumReal, CostOf, UsageCost;
    for i := 0 to |c.fixtures|
      invariant done == Rows(c.fixtures[..i], s.tasks)
      invariant Tallied(c, done, prompt, completion, unclassified, total, debited, cost, debitedCost)
    {
      assert c.fixtures[..i + 1][..i] == c.fixtures[..i];
      prompt, completion, unclassified, total, debited, cost, debitedCost, done := TallyTask(
        c, AttemptsOf(s.tasks, c.fixtures[i]), done, prompt, completion, unclassified, total, debited, cost,
        debitedCost);
    }
    assert c.fixtures[..|c.fixtures|] == c.fixtures;
    var unverified := if debitedCost >= cost then debitedCost - cost else 0.0;
    r := s.(usage := Totals(prompt, completion, unclassified, total, if c.rates.Some? then Some(cost) else None),
            accounting := Accounting(debited, Max(debited - total, 0),
                                     if c.rates.Some? then Some(debitedCost) else None,
                                     if c.rates.Some? then Some(unverified) else None));
  }

  /** The inner loop, over the attempts of one task. */
  method TallyTask(c: Config, attempts: seq<Attempt>, ghost before: seq<Attempt>, prompt0: int, completion0: int,
                   unclassified0: int, total0: int, debited0: int, cost0: real, debitedCost0: real)
    returns (prompt: int, completion: int, unclassified: int, total: int, debited: int, cost: real, debitedCost: real,
             ghost done: seq<Attempt>)
    requires Tallied(c, before, prompt0, completion0, unclassified0, total0, debited0, cost0, debitedCost0)
    ensures done == before + attempts
    ensures Tallied(c, done, prompt, completion, unclassified, total, debited, cost, debitedCost)
  {
    hide Tallied, UsageCost;
    prompt, completion, unclassified, total, debited := prompt0, completion0, unclassified0, total0, debited0;
    cost, debitedCost, done := cost0, debitedCost0, before;
    for k := 0 to |attempts|
      invariant done == before + attempts[..k]
      invariant Tallied(c, done, prompt, completion, unclassified, total, debited, cost, debitedCost)
    {
      var a := attempts[k];
      TallyOne(c, done, a, prompt, completion, unclassified, total, debited, cost, debitedCost);
      prompt, completion := prompt + a.usage.prompt, completion + a.usage.completion;
      unclassified, total := unclassified + a.usage.unclassified, total + a.usage.total;
      cost := cost + UsageCost(c, a.usage).GetOr(0.0);
      debited, debitedCost := debited + a.debitTokens, debitedCost + a.debitCost.GetOr(0.0);
      done := done + [a];
      assert attempts[..k + 1] == attempts[..k] + [a];
    }
    assert attempts[..|attempts|] == attempts;
  }

  // -------------------------------------------------------------- admission

  function ReserveRefused(c: Config, s: Cohort): Option<BudgetStop>
  {
    if s.accounting.debitedTokens + c.tokensPerTask > c.totalTokens then Some(TokenBudget)
    else if c.totalCost.Some?
            && s.accounting.debitedCost.GetOr(0.0) + CostReservation(c).GetOr(0.0) > c.totalCost.value
    then Some(CostBudget) else None
  }

  // ------------------------------------------------------------------ edits

  function InitialState(c: Config): Cohort
  {
    Cohort(Ready, map t | t in c.fixtures :: Task(Pending, [], None),
           Totals(0, 0, 0, 0, if c.rates.Some? then Some(0.0) else None),
           Accounting(0, 0, if c.rates.Some? then Some(0.0) else None, if c.rates.Some? then Some(0.0) else None))
  }

  function NewAttempt(c: Config, id: string): Attempt
  {
    Attempt(id, Running, c.tokensPerTask, CostReservation(c), NO_USAGE)
  }

  /** A new running attempt that holds the full reservation. */
  function Reserved(c: Config, s: Cohort, t: string, id: string): Cohort
    requires t in s.tasks
  {
    Recalculated(c, s.(tasks := s.tasks[t :=
      s.tasks[t].(status := TaskRunning, attempts := s.tasks[t].attempts + [NewAttempt(c, id)])]))
  }

  /** Evidence replaces the reservation; without evidence the full reservation stays. */
  function SettledAttempt(c: Config, a: Attempt, u: Usage): Attempt
  {
    if u.Found() then a.(usage := u, debitTokens := u.total, debitCost := UsageCost(c, u)) else a.(usage := u)
  }

  function WithLast(task: Task, a: Attempt): Task
    requires task.attempts != []
  {
    task.(attempts := task.attempts[..|task.attempts| - 1] + [a])
  }

  function Last(task: Task): Attempt
    requires task.attempts != []
  {
    task.attempts[|task.attempts| - 1]
  }

  /** The provider returned: settle the newest attempt of t. */
  function Settled(c: Config, s: Cohort, t: string, u: Usage): Cohort
    requires t in s.tasks && s.tasks[t].attempts != []
  {
    Recalculated(c, s.(tasks := s.tasks[t := WithLast(s.tasks[t], SettledAttempt(c, Last(s.tasks[t]), u))]))
  }

  /** Close the newest attempt of t: completed with the published candidate's hash, or failed. */
  function Closed(s: Cohort, t: string, candidate: Option<string>): Cohort
    requires t in s.tasks && s.tasks[t].attempts != []
  {
    var task := s.tasks[t];
    var closed := WithLast(task, Last(task).(status := if candidate.Some? then Completed else Failed));
    s.(tasks := s.tasks[t := if candidate.Some? then closed.(status := TaskCompleted, candidate := candidate)
                             else closed.(status := TaskFailed)])
  }

  /** An attempt a crash left running is abandoned: whatever was read, it keeps its full reservation. */
  function AbandonedAttempt(c: Config, a: Attempt, u: Usage): Attempt
  {
    if a.status != Running then a
    else a.(status := Abandoned, usage := u, debitTokens := c.tokensPerTask, debitCost := CostReservation(c))
  }

  type Evidence = map<(string, nat), Usage>

  function EvidenceFor(ev: Evidence, t: string, k: nat): Usage
  {
    if (t, k) in ev then ev[(t, k)] else NO_USAGE
  }

  predicate HasRunning(task: Task)
  {
    exists k | 0 <= k < |task.attempts| :: task.attempts[k].status == Running
  }

  function ReconciledTask(c: Config, t: string, task: Task, ev: Evidence): Task
  {
    task.(status := if HasRunning(task) then TaskFailed else task.status,
          attempts := seq(|task.attempts|, k requires 0 <= k < |task.attempts| =>
                            AbandonedAttempt(c, task.attempts[k], EvidenceFor(ev, t, k))))
  }

  function ReconciledTasks(c: Config, tasks: map<string, Task>, ev: Evidence): map<string, Task>
  {
    map t | t in tasks :: ReconciledTask(c, t, tasks[t], ev)
  }

  function Reconciled(c: Config, s: Cohort, ev: Evidence): Cohort
  {
    Recalculated(c, s.(tasks := ReconciledTasks(c, s.tasks, ev)))
  }

  /** The tasks a reconciliation closes: they are not attempted again in the same invocation. */
  function LeftRunning(s: Cohort): set<string>
  {
    set t | t in s.tasks && HasRunning(s.tasks[t])
  }

  /** The in-place pass over the attempts of one task. */
  method ReconcileTask(c: Config, t: string, task: Task, ev: Evidence) returns (r: Task, abandoned: bool)
    ensures r == ReconciledTask(c, t, task, ev)
    ensures abandoned == HasRunning(task)
  {
    r, abandoned := task, false;
    for k := 0 to |task.attempts|
      invariant |r.attempts| == |task.attempts| && r.candidate == task.candidate
      invariant forall j | 0 <= j < k :: r.attempts[j] == AbandonedAttempt(c, task.attempts[j], EvidenceFor(ev, t, j))
      invariant forall j | k <= j < |task.attempts| :: r.attempts[j] == task.attempts[j]
      invariant abandoned <==> exists j :: 0 <= j < k && task.attempts[j].status == Running
      invariant r.status == if abandoned then TaskFailed else task.status
    {
      if task.attempts[k].status == Running {
        r := r.(status := TaskFailed,
                attempts := r.attempts[k := AbandonedAttempt(c, task.attempts[k], EvidenceFor(ev, t, k))]);
        abandoned := true;
      }
    }
  }

  lemma AllReconciled(c: Config, s: Cohort, ev: Evidence, tasks: map<string, Task>, abandoned: set<string>)
    requires s.tasks.Keys == tasks.Keys == set t | t in c.fixtures
    requires forall t | t in c.fixtures :: tasks[t] == ReconciledTask(c, t, s.tasks[t], ev)
    requires abandoned == set t | t in c.fixtures && HasRunning(s.tasks[t])
    ensures tasks == ReconciledTasks(c, s.tasks, ev) && abandoned == LeftRunning(s)
  {
    hide ReconciledTask, HasRunning;
    assert forall t :: t in s.tasks <==> t in c.fixtures;
  }

  /** Close what a crash left open, task by task, then bring the totals up to date. */
  method Reconcile(c: Config, s: Cohort, ev: Evidence) returns (r: Cohort, abandoned: set<string>)
    requires c.Valid() && s.tasks.Keys == set t | t in c.fixtures
    ensures r == Reconciled(c, s, ev)
    ensures abandoned == LeftRunning(s)
  {
    hide ReconciledTask, ReconciledTasks, Recalculated, HasRunning, EvidenceFor, LeftRunning;
    var tasks := s.tasks;
    abandoned := {};
    for i := 0 to |c.fixtures|
      invariant tasks.Keys == s.tasks.Keys
      invariant forall t | t in c.fixtures[..i] :: tasks[t] == ReconciledTask(c, t, s.tasks[t], ev)
      invariant forall j | i <= j < |c.fixtures| :: tasks[c.fixtures[j]] == s.tasks[c.fixtures[j]]
      invariant abandoned == set t | t in c.fixtures[..i] && HasRunning(s.tasks[t])
    {
      var t := c.fixtures[i];
      assert c.fixtures[..i + 1] == c.fixtures[..i] + [t];
      var task, left := ReconcileTask(c, t, tasks[t], ev);
      tasks := tasks[t := task];
      if left {
        abandoned := abandoned + {t};
      }
    }
    assert c.fixtures[..|c.fixtures|] == c.fixtures;
    AllReconciled(c, s, ev, tasks, abandoned);
    r := Recalculate(c, s.(tasks := tasks));
  }
}
