/** How debits move from state to state, and exactly when they come to exceed a budget. */
module CohortOverruns {
  import opened Contracts
  import opened CohortLedger
  import opened CohortProtocol
  import opened CohortSafety
  import opened CohortTheorems

  function CostDebit(s: Cohort): real
  {
    s.accounting.debitedCost.GetOr(0.0)
  }

  /** The debits fit the token budget and, when there is one, the cost budget. */
  predicate FitsBudgets(c: Config, s: Cohort)
  {
    && s.accounting.debitedTokens <= c.totalTokens
    && (c.totalCost.Some? ==> CostDebit(s) <= c.totalCost.value)
  }

  /** The outcome being saved reports more tokens than the room left plus the attempt's reservation. */
  predicate OverrunsTokens(c: Config, g: Global)
  {
    g.pc.Finishing? && g.pc.usage.Found()
    && g.pc.usage.total > c.totalTokens - g.durable.accounting.debitedTokens + c.tokensPerTask
  }

  /** The same for its cost. */
  predicate OverrunsCost(c: Config, g: Global)
  {
    g.pc.Finishing? && g.pc.usage.Found() && c.totalCost.Some?
    && UsageCost(c, g.pc.usage).GetOr(0.0) > c.totalCost.value - CostDebit(g.durable) + CostReservation(c).GetOr(0.0)
  }

  // ------------------------------------------------------ saving an outcome

  /** Saving an outcome moves the debited tokens and cost by exactly what the evidence reports beyond the
      reservation, without evidence by nothing. So with evidence a budget is exceeded afterwards if and only
      if the report exceeds the room that was left plus the reservation. */
  lemma SettlementMovesDebits(c: Config, g: Global, l: Label, g': Global)
    requires c.Valid() && Inv(c, g) && Next(c, g, l, g') && l.Record?
    ensures var before, after := g.durable.accounting.debitedTokens, g'.durable.accounting.debitedTokens;
      && after == before + (if g.pc.usage.Found() then g.pc.usage.total - c.tokensPerTask else 0)
      && (g.pc.usage.Found() ==> (after > c.totalTokens <==> OverrunsTokens(c, g)))
    ensures var before, after := CostDebit(g.durable), CostDebit(g'.durable);
      var charged, reserved := UsageCost(c, g.pc.usage).GetOr(0.0), CostReservation(c).GetOr(0.0);
      && after == before + (if g.pc.usage.Found() then charged - reserved else 0.0)
      && (g.pc.usage.Found() && c.totalCost.Some? ==> (after > c.totalCost.value <==> OverrunsCost(c, g)))
  {
    hide Inv, Next, Rows, Sum, SumReal, UsageOf, ClosedTask, WithLast, UsageCost, CostReservation;
    RecordedShape(c, g, l, g');
    PricedIffRates(c, g.pc.usage);
    var t := c.fixtures[g.pc.i];
    var task := g.durable.tasks[t];
    DebitsMove(c, g.durable.tasks, t, ClosedTask(c, task, g.pc.usage, g.pc.candidate));
  }

  lemma PricedIffRates(c: Config, u: Usage)
    ensures c.rates.Some? <==> CostReservation(c).Some?
    ensures c.rates.Some? <==> UsageCost(c, u).Some?
  {
  }

  /** Replacing the newest attempt of one task moves the summed debits by its own change. */
  lemma DebitsMove(c: Config, tasks: map<string, Task>, t: string, closed: Task)
    requires c.Valid() && t in c.fixtures && t in tasks && tasks[t].attempts != [] && closed.attempts != []
    requires closed.attempts == WithLast(tasks[t], Last(closed)).attempts
    ensures Sum(DEBIT, Rows(c.fixtures, tasks[t := closed]))
         == Sum(DEBIT, Rows(c.fixtures, tasks)) - Last(tasks[t]).debitTokens + Last(closed).debitTokens
    ensures SumReal(DEBIT_COST, Rows(c.fixtures, tasks[t := closed]))
         == SumReal(DEBIT_COST, Rows(c.fixtures, tasks)) - Last(tasks[t]).debitCost.GetOr(0.0)
            + Last(closed).debitCost.GetOr(0.0)
  {
    hide Rows, Sum, SumReal;
    SumEdit(DEBIT, c.fixtures, tasks, t, closed);
    SumLast(DEBIT, tasks[t], Last(closed));
    SumRealEdit(DEBIT_COST, c.fixtures, tasks, t, closed);
    SumRealLast(DEBIT_COST, tasks[t], Last(closed));
  }

  lemma RecordedShape(c: Config, g: Global, l: Label, g': Global)
    requires c.Valid() && Inv(c, g) && Next(c, g, l, g') && l.Record?
    ensures g.pc.Finishing? && g.pc.i < |c.fixtures| && c.fixtures[g.pc.i] in g.durable.tasks
    ensures var t := c.fixtures[g.pc.i]; var task := g.durable.tasks[t];
      && task.attempts != [] && Last(task).debitTokens == c.tokensPerTask && Last(task).debitCost == CostReservation(c)
      && var closed := ClosedTask(c, task, g.pc.usage, g.pc.candidate);
         && closed.attempts != [] && closed.attempts == WithLast(task, Last(closed)).attempts
         && Last(closed).debitTokens == (if g.pc.usage.Found() then g.pc.usage.total else c.tokensPerTask)
         && Last(closed).debitCost
              == (if g.pc.usage.Found() then UsageCost(c, g.pc.usage) else CostReservation(c))
         && g'.durable.accounting == AccountingOf(c, Rows(c.fixtures, g.durable.tasks[t := closed]))
         && g.durable.accounting == AccountingOf(c, Rows(c.fixtures, g.durable.tasks))
  {
    hide Rows, Settled, Closed, UsageOf, AccountingOf, TaskHolds, WithinBudget, CostReservation, UsageCost;
    SettleThenClose(c, g.durable, c.fixtures[g.pc.i], g.pc.usage, g.pc.candidate);
  }

  // -------------------------------------------------------- the other steps

  /** A reservation adds exactly itself, and it is admitted only when it fits. */
  lemma ReservationFits(c: Config, g: Global, l: Label, g': Global)
    requires c.Valid() && Inv(c, g) && Next(c, g, l, g') && l.Reserve?
    ensures FitsBudgets(c, g'.durable)
    ensures g'.durable.accounting.debitedTokens == g.durable.accounting.debitedTokens + c.tokensPerTask
    ensures CostDebit(g'.durable) == CostDebit(g.durable) + CostReservation(c).GetOr(0.0)
  {
    hide Rows, Sum, SumReal, UsageOf, TaskHolds, WithinBudget, CostReservation, OnlyRunning;
    var t, s := c.fixtures[g.pc.i], g.durable;
    var task := s.tasks[t].(status := TaskRunning, attempts := s.tasks[t].attempts + [NewAttempt(c, l.attemptId)]);
    AttemptAdded(c, s.tasks, t, task, NewAttempt(c, l.attemptId));
    PricedIffRates(c, NO_USAGE);
  }

  lemma AttemptAdded(c: Config, tasks: map<string, Task>, t: string, task: Task, a: Attempt)
    requires c.Valid() && t in c.fixtures && t in tasks && task.attempts == tasks[t].attempts + [a]
    ensures Sum(DEBIT, Rows(c.fixtures, tasks[t := task])) == Sum(DEBIT, Rows(c.fixtures, tasks)) + a.debitTokens
    ensures SumReal(DEBIT_COST, Rows(c.fixtures, tasks[t := task]))
         == SumReal(DEBIT_COST, Rows(c.fixtures, tasks)) + a.debitCost.GetOr(0.0)
  {
    hide Rows, Sum, SumReal;
    SumEdit(DEBIT, c.fixtures, tasks, t, task);
    SumOne(DEBIT, tasks[t].attempts, a);
    SumRealEdit(DEBIT_COST, c.fixtures, tasks, t, task);
    SumRealOne(DEBIT_COST, tasks[t].attempts, a);
  }

  /** Abandoning what a crash left running moves no debit. */
  lemma StartMovesNothing(c: Config, g: Global, l: Label, g': Global)
    requires c.Valid() && Inv(c, g) && Next(c, g, l, g') && l.Start?
    ensures SameDebits(g.durable, g'.durable)
  {
    var tasks, tasks' := g.durable.tasks, ReconciledTasks(c, g.durable.tasks, l.evidence);
    forall t, k | t in c.fixtures && 0 <= k < |AttemptsOf(tasks', t)|
      ensures k < |AttemptsOf(tasks, t)| && SameDebit(AttemptsOf(tasks', t)[k], AttemptsOf(tasks, t)[k])
    {
      LedgerTask(c, g.durable, t);
      ReconciledDebits(c, t, tasks[t], l.evidence, k);
    }
    hide TaskHolds, Rows, Sum, SumReal, UsageOf, WithinBudget, HasRunning, AbandonedAttempt, SameDebit;
    RowsAlign(c.fixtures, tasks', tasks);
    AlignedSums(Rows(c.fixtures, tasks'), Rows(c.fixtures, tasks));
  }

  predicate SameDebits(s: Cohort, s': Cohort)
  {
    s.accounting.debitedTokens == s'.accounting.debitedTokens && CostDebit(s) == CostDebit(s')
  }

  lemma AlignedSums(a: seq<Attempt>, b: seq<Attempt>)
    requires |a| == |b| && forall k | 0 <= k < |a| :: SameDebit(a[k], b[k])
    ensures Sum(DEBIT, a) == Sum(DEBIT, b) && SumReal(DEBIT_COST, a) == SumReal(DEBIT_COST, b)
  {
    hide Sum, SumReal;
    SumPointwise(DEBIT, DEBIT, a, b);
    SumPointwise(DEBIT, DEBIT, b, a);
    SumRealPointwise(DEBIT_COST, DEBIT_COST, a, b);
    SumRealPointwise(DEBIT_COST, DEBIT_COST, b, a);
  }

  lemma OthersMoveNothing(c: Config, g: Global, l: Label, g': Global)
    requires c.Valid() && Inv(c, g) && Next(c, g, l, g') && !l.Start? && !l.Reserve? && !l.Record?
    ensures SameDebits(g.durable, g'.durable)
  {
    hide Rows, TaskHolds, WithinBudget, UsageOf, Settled, OnlyRunning;
  }

  // ------------------------------------------------------------- whole runs

  predicate Overruns(c: Config, g: Global, l: Label)
  {
    l.Record? && (OverrunsTokens(c, g) || OverrunsCost(c, g))
  }

  lemma StepFits(c: Config, g: Global, l: Label, g': Global)
    requires c.Valid() && Inv(c, g) && Next(c, g, l, g') && FitsBudgets(c, g.durable)
    ensures FitsBudgets(c, g'.durable) <==> !Overruns(c, g, l)
  {
    hide Inv, Next, UsageCost, CostReservation;
    match l
    case Record => SettlementMovesDebits(c, g, l, g');
    case Reserve(_) => ReservationFits(c, g, l, g');
    case Start(_) => StartMovesNothing(c, g, l, g');
    case _ => OthersMoveNothing(c, g, l, g');
  }

  lemma {:induction false} FitsWithoutOverruns(c: Config, states: seq<Global>, labels: seq<Label>, i: nat)
    requires c.Valid() && IsRun(c, states, labels) && states[0] == Initial(c) && i < |states|
    requires forall k | 0 <= k < |labels| :: !Overruns(c, states[k], labels[k])
    ensures FitsBudgets(c, states[i].durable)
  {
    hide Next, Inv, Overruns;
    if i > 0 {
      FitsWithoutOverruns(c, states, labels, i - 1);
      LedgerSafety(c, states, labels, i - 1);
      hide FitsBudgets;
      StepFits(c, states[i - 1], labels[i - 1], states[i - 1 + 1]);
    }
  }

  /** The debits fit both budgets in every state of a run, whatever crashes in it, if and only if no saved
      outcome reports more than the room left plus its reservation. */
  lemma DebitsFitIffNoOverrun(c: Config, states: seq<Global>, labels: seq<Label>)
    requires c.Valid() && IsRun(c, states, labels) && states[0] == Initial(c)
    ensures (forall i | 0 <= i < |states| :: FitsBudgets(c, states[i].durable))
            <==> forall i | 0 <= i < |labels| :: !Overruns(c, states[i], labels[i])
  {
    hide Next, Inv, Overruns, FitsBudgets;
    if forall i | 0 <= i < |labels| :: !Overruns(c, states[i], labels[i]) {
      forall i: nat | i < |states| ensures FitsBudgets(c, states[i].durable)
      {
        FitsWithoutOverruns(c, states, labels, i);
      }
    }
    if forall i | 0 <= i < |states| :: FitsBudgets(c, states[i].durable) {
      forall i: nat | i < |labels| ensures !Overruns(c, states[i], labels[i])
      {
        LedgerSafety(c, states, labels, i);
        StepFits(c, states[i], labels[i], states[i + 1]);
      }
    }
  }
}
