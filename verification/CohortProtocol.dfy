/** The scheduler as a transition system: one process at a time, a durable state file, a volatile
    copy, a provider that spends real tokens, published candidates, and a crash possible anywhere. */
module CohortProtocol {
  import opened Contracts
  import opened CohortLedger

  datatype PC =
    | Idle                                            // no process
    | At(i: nat)                                      // about to look at fixture i
    | Calling(i: nat)                                 // reservation durable, provider may be used
    | Judging(i: nat, usage: Usage)                   // settled in memory only
    | Finishing(i: nat, usage: Usage, candidate: Option<string>)  // outcome known in memory only
    | Closing                                         // the loop is over

  /** `spent` and `published` are facts about the world; `launched` are this invocation's launches. */
  datatype Global = Global(
    durable: Cohort, memory: Option<Cohort>, pc: PC, attempted: set<string>, launched: seq<string>,
    spent: map<(string, nat), nat>, published: map<string, string>)

  datatype Label =
    | Start(evidence: Evidence)         // load, reconcile, save
    | SkipCompleted | ResumeRaises      // a completed fixture is re-verified: valid, or an exception
    | SkipAttempted
    | StopOnBudget
    | Reserve(attemptId: string)        // reserve in memory, save
    | Spend(t: string, k: nat, tokens: nat)   // the provider bills attempt k of task t
    | Return(usage: Usage)              // the provider is done, evidence settles the attempt
    | Reject                            // failed launch, failed verification or missing source
    | Publish(hash: string, readable: bool)   // the candidate directory appears
    | PublishRaises                     // the destination already exists
    | Record                            // close the attempt in memory, save
    | Close                             // final status, save
    | Crash

  function Spent(g: Global, t: string, k: nat): nat
  {
    if (t, k) in g.spent then g.spent[(t, k)] else 0
  }

  function Lost(g: Global): Global
  {
    g.(memory := None, pc := Idle)
  }

  function FinalStatus(s: Cohort): CohortStatus
  {
    if forall t | t in s.tasks :: s.tasks[t].status == TaskCompleted then CohortCompleted
    else if s.status == CohortRunning then Partial else s.status
  }

  /** Is fixture i a task of the memory copy whose newest attempt exists? */
  predicate HasNewest(c: Config, g: Global, i: nat)
  {
    i < |c.fixtures| && g.memory.Some? && c.fixtures[i] in g.memory.value.tasks
    && g.memory.value.tasks[c.fixtures[i]].attempts != []
  }

  predicate Looking(c: Config, g: Global)
  {
    g.pc.At? && g.pc.i < |c.fixtures| && g.memory.Some? && c.fixtures[g.pc.i] in g.memory.value.tasks
  }

  /** One step of the scheduler or its world. */
  ghost predicate Next(c: Config, g: Global, l: Label, g': Global)
  {
    match l
    case Start(ev) =>
      g.pc.Idle?
      && var s := Reconciled(c, g.durable, ev).(status := CohortRunning);
         g' == g.(durable := s, memory := Some(s), pc := At(0), attempted := LeftRunning(g.durable), launched := [])
    case SkipCompleted =>
      Looking(c, g) && g.memory.value.tasks[c.fixtures[g.pc.i]].status == TaskCompleted
      && g' == g.(pc := At(g.pc.i + 1))
    case ResumeRaises =>
      Looking(c, g) && g.memory.value.tasks[c.fixtures[g.pc.i]].status == TaskCompleted && g' == Lost(g)
    case SkipAttempted =>
      Looking(c, g) && g.memory.value.tasks[c.fixtures[g.pc.i]].status != TaskCompleted
      && c.fixtures[g.pc.i] in g.attempted && g' == g.(pc := At(g.pc.i + 1))
    case StopOnBudget =>
      Looking(c, g) && g.memory.value.tasks[c.fixtures[g.pc.i]].status != TaskCompleted
      && c.fixtures[g.pc.i] !in g.attempted && ReserveRefused(c, g.memory.value).Some?
      && g' == g.(pc := Closing,
                  memory := Some(g.memory.value.(status := Stopped(ReserveRefused(c, g.memory.value).value))))
    case Reserve(id) =>
      Looking(c, g) && g.memory.value.tasks[c.fixtures[g.pc.i]].status != TaskCompleted
      && c.fixtures[g.pc.i] !in g.attempted && ReserveRefused(c, g.memory.value).None?
      && var t := c.fixtures[g.pc.i];
         var s := Reserved(c, g.memory.value, t, id);
         g' == g.(durable := s, memory := Some(s), pc := Calling(g.pc.i),
                  attempted := g.attempted + {t}, launched := g.launched + [t])
    case Spend(t, k, tokens) =>
      // The provider bills the attempt it is called for, or one a crash left open.
      && t in g.durable.tasks && k < |g.durable.tasks[t].attempts|
      && (g.durable.tasks[t].attempts[k].status == Abandoned
          || (g.durable.tasks[t].attempts[k].status == Running && !g.pc.Judging? && !g.pc.Finishing?))
      && g' == g.(spent := g.spent[(t, k) := Spent(g, t, k) + tokens])
    case Return(u) =>
      g.pc.Calling? && HasNewest(c, g, g.pc.i)
      && g' == g.(memory := Some(Settled(c, g.memory.value, c.fixtures[g.pc.i], u)), pc := Judging(g.pc.i, u))
    case Reject =>
      g.pc.Judging? && g' == g.(pc := Finishing(g.pc.i, g.pc.usage, None))
    case Publish(hash, readable) =>
      g.pc.Judging? && g.pc.i < |c.fixtures| && c.fixtures[g.pc.i] !in g.published
      && g' == g.(pc := Finishing(g.pc.i, g.pc.usage, if readable then Some(hash) else None),
                  published := g.published[c.fixtures[g.pc.i] := hash])
    case PublishRaises =>
      g.pc.Judging? && g.pc.i < |c.fixtures| && c.fixtures[g.pc.i] in g.published && g' == Lost(g)
    case Record =>
      g.pc.Finishing? && HasNewest(c, g, g.pc.i)
      && var s := Closed(g.memory.value, c.fixtures[g.pc.i], g.pc.candidate);
         g' == g.(durable := s, memory := Some(s), pc := At(g.pc.i + 1))
    case Close =>
      (g.pc.Closing? || (g.pc.At? && g.pc.i == |c.fixtures|)) && g.memory.Some?
      && var s := Recalculated(c, g.memory.value);
         g' == Lost(g.(durable := s.(status := FinalStatus(s))))
    case Crash =>
      g' == Lost(g)
  }

  function Initial(c: Config): Global
  {
    Global(InitialState(c), None, Idle, {}, [], map[], map[])
  }

  // ---------------------------------------------------------- the invariant

  /** An attempt's debit is its full reservation until evidence settles it. */
  ghost predicate RowHolds(c: Config, a: Attempt)
  {
    if a.status in {Running, Abandoned} || !a.usage.Found()
    then a.debitTokens == c.tokensPerTask && a.debitCost == CostReservation(c)
    else a.debitTokens == a.usage.total && a.debitCost == UsageCost(c, a.usage)
  }

  /** Only the newest attempt of a task that is marked running may be running. */
  ghost predicate TaskHolds(c: Config, task: Task)
  {
    && (forall k | 0 <= k < |task.attempts| :: RowHolds(c, task.attempts[k]))
    && (forall k | 0 <= k < |task.attempts| && task.attempts[k].status == Running ::
          k == |task.attempts| - 1 && task.status == TaskRunning)
  }

  /** An attempt's debit, counting no more than its reservation. */
  function Capped(c: Config): Attempt -> int
  {
    (a: Attempt) => if a.debitTokens <= c.tokensPerTask then a.debitTokens else c.tokensPerTask
  }

  function CappedCost(c: Config): Attempt -> real
  {
    (a: Attempt) => if a.debitCost.GetOr(0.0) <= CostReservation(c).GetOr(0.0) then a.debitCost.GetOr(0.0)
                    else CostReservation(c).GetOr(0.0)
  }

  ghost predicate WithinBudget(c: Config, rows: seq<Attempt>)
  {
    && Sum(Capped(c), rows) <= c.totalTokens
    && (c.totalCost.Some? ==> SumReal(CappedCost(c), rows) <= c.totalCost.value)
  }

  /** What every state file satisfies: totals equal the sums of the rows, and debits counted up to
      their reservations stay within both budgets. */
  ghost predicate LedgerHolds(c: Config, s: Cohort)
  {
    && s.tasks.Keys == (set t | t in c.fixtures)
    && s.usage == UsageOf(c, Rows(c.fixtures, s.tasks))
    && s.accounting == AccountingOf(c, Rows(c.fixtures, s.tasks))
    && (forall t | t in s.tasks :: TaskHolds(c, s.tasks[t]))
    && WithinBudget(c, Rows(c.fixtures, s.tasks))
  }

  /** No attempt is running, except the newest of the given task when there is one. */
  ghost predicate OnlyRunning(s: Cohort, t: Option<string>)
  {
    forall u | u in s.tasks :: HasRunning(s.tasks[u]) <==> t == Some(u)
  }

  /** How memory and state file relate at each point. */
  ghost predicate MemoryHolds(c: Config, g: Global)
  {
    match g.pc
    case Idle => g.memory.None?
    case At(i) => i <= |c.fixtures| && g.memory == Some(g.durable) && OnlyRunning(g.durable, None)
                  && g.durable.status == CohortRunning
    case Closing => OnlyRunning(g.durable, None) && g.memory.Some? && g.memory.value.tasks == g.durable.tasks
                    && g.memory.value.status.Stopped?
    case Calling(i) => InFlight(c, g, i) && g.memory == Some(g.durable)
    case Judging(i, u) => InFlight(c, g, i) && g.memory == Some(Settled(c, g.durable, c.fixtures[i], u))
    case Finishing(i, u, hash) => InFlight(c, g, i) && g.memory == Some(Settled(c, g.durable, c.fixtures[i], u))
  }

  /** Exactly one durable attempt is running: the newest of fixture i, holding its reservation. */
  ghost predicate InFlight(c: Config, g: Global, i: nat)
  {
    && i < |c.fixtures| && c.fixtures[i] in g.durable.tasks && g.durable.status == CohortRunning
    && OnlyRunning(g.durable, Some(c.fixtures[i]))
    && g.durable.tasks[c.fixtures[i]].attempts != []
    && Last(g.durable.tasks[c.fixtures[i]]).status == Running
    && Last(g.durable.tasks[c.fixtures[i]]).debitTokens == c.tokensPerTask
    && Last(g.durable.tasks[c.fixtures[i]]).debitCost == CostReservation(c)
    && c.fixtures[i] in g.attempted
  }

  ghost predicate Inv(c: Config, g: Global)
  {
    && LedgerHolds(c, g.durable)
    && MemoryHolds(c, g)
    && (forall i, j | 0 <= i < j < |g.launched| :: g.launched[i] != g.launched[j])
    && (forall i | 0 <= i < |g.launched| :: g.launched[i] in g.attempted)
  }

  // --------------------------------------------------------- runs

  ghost predicate IsRun(c: Config, states: seq<Global>, labels: seq<Label>)
  {
    && |states| == |labels| + 1
    && forall i | 0 <= i < |labels| :: Next(c, states[i], labels[i], states[i + 1])
  }
}
