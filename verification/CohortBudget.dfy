/** True spending against the budgets, for providers that respect the per-attempt cap. */
module CohortBudget {
  import opened Contracts
  import opened CohortLedger
  import opened CohortProtocol
  import opened CohortSafety
  import opened CohortTheorems

  // ------------------------------------------------------------- hypotheses

  /** Evidence that reports exactly what was billed, fully classified. */
  ghost predicate Exact(u: Usage, spent: nat)
  {
    u.Found() ==> u.total == spent && u.prompt >= 0 && u.completion >= 0 && u.unclassified >= 0
                  && u.prompt + u.completion + u.unclassified == u.total
  }

  /** One attempt is never billed more than its cap, and evidence that is found is exact. */
  ghost predicate Compliant(c: Config, g: Global, l: Label)
  {
    match l
    case Spend(t, k, tokens) => Spent(g, t, k) + tokens <= c.tokensPerTask
    case Return(u) => g.pc.Calling? && HasNewest(c, g, g.pc.i) ==>
        Exact(u, Spent(g, c.fixtures[g.pc.i], |g.memory.value.tasks[c.fixtures[g.pc.i]].attempts| - 1))
    case _ => true
  }

  ghost predicate CompliantRun(c: Config, states: seq<Global>, labels: seq<Label>)
  {
    && IsRun(c, states, labels) && states[0] == Initial(c)
    && forall i | 0 <= i < |labels| :: Compliant(c, states[i], labels[i])
  }

  // ---------------------------------------------------------- the invariant

  /** A row that exceeds neither its token cap nor its cost reservation. */
  ghost predicate Modest(c: Config, a: Attempt)
  {
    a.debitTokens <= c.tokensPerTask && a.debitCost.GetOr(0.0) <= CostReservation(c).GetOr(0.0)
  }

  ghost predicate SpendHolds(c: Config, g: Global)
  {
    && (forall t, k | (t, k) in g.spent ::
          t in g.durable.tasks && k < |g.durable.tasks[t].attempts|
          && g.spent[(t, k)] <= g.durable.tasks[t].attempts[k].debitTokens)
    && (forall t, k | t in g.durable.tasks && 0 <= k < |g.durable.tasks[t].attempts| ::
          Modest(c, g.durable.tasks[t].attempts[k]) && g.durable.tasks[t].attempts[k].debitTokens >= 0)
    && (g.pc.Judging? || g.pc.Finishing? ==>
          g.pc.i < |c.fixtures| && c.fixtures[g.pc.i] in g.durable.tasks
          && var t := c.fixtures[g.pc.i]; var n := |g.durable.tasks[t].attempts|;
             n > 0 && Spent(g, t, n - 1) <= c.tokensPerTask && Exact(g.pc.usage, Spent(g, t, n - 1)))
  }

  lemma MixedRates(p: int, q: int, w: int, a: real, b: real, m: real)
    requires p >= 0 && q >= 0 && w >= 0 && a <= m && b <= m && m >= 0.0
    ensures p as real * a + q as real * b + w as real * m <= (p + q + w) as real * m
  {
    var x, y, z := p as real, q as real, w as real;
    ScaleLe(x, a, m);
    ScaleLe(y, b, m);
    assert (p + q + w) as real == x + y + z;
    assert (x + y + z) * m == x * m + y * m + z * m;
  }

  lemma ScaleLe(x: real, a: real, m: real)
    requires x >= 0.0 && a <= m
    ensures x * a <= x * m
  {
    assert x * (m - a) >= 0.0;
  }

  /** What so many prompt and completion tokens cost. */
  function SplitCost(r: Rates, prompt: int, completion: int): real
  {
    (prompt as real * r.input + completion as real * r.output) / 1000000.0
  }

  /** The cost of a usage report is the least that covers every way its unclassified tokens could really
      have been split between prompt and completion: no split costs more, and one costs as much. */
  lemma UsageCostCoversEverySplit(r: Rates, c: Config, u: Usage, x: nat, y: nat)
    requires c.rates == Some(r) && u.unclassified == x + y
    ensures SplitCost(r, u.prompt + x, u.completion + y) <= UsageCost(c, u).value
    ensures (if r.input >= r.output then y == 0 else x == 0) ==>
              SplitCost(r, u.prompt + x, u.completion + y) == UsageCost(c, u).value
  {
    var p, q, a, b := u.prompt as real, u.completion as real, x as real, y as real;
    assert (u.prompt + x) as real == p + a && (u.completion + y) as real == q + b && u.unclassified as real == a + b;
    SplitAtRates(p, q, a, b, r.input, r.output, r.Highest());
  }

  /** A reservation is the least that covers every way the attempt's token cap can be used up. */
  lemma ReservationIsWorstCase(c: Config, r: Rates, x: nat, y: nat)
    requires c.Valid() && c.rates == Some(r) && x + y <= c.tokensPerTask
    ensures SplitCost(r, x, y) <= CostReservation(c).value
    ensures (if r.input >= r.output then x else y) == c.tokensPerTask ==> SplitCost(r, x, y) == CostReservation(c).value
  {
    SplitAtRates(0.0, 0.0, x as real, y as real, r.input, r.output, r.Highest());
    Monotone(x + y, c.tokensPerTask, r.Highest());
    assert (x + y) as real == x as real + y as real;
  }

  lemma SplitAtRates(p: real, q: real, a: real, b: real, input: real, output: real, highest: real)
    requires a >= 0.0 && b >= 0.0 && input <= highest && output <= highest
    ensures (p + a) * input + (q + b) * output <= p * input + q * output + (a + b) * highest
    ensures (a == 0.0 || input == highest) && (b == 0.0 || output == highest) ==>
              (p + a) * input + (q + b) * output == p * input + q * output + (a + b) * highest
  {
    ScaleLe(a, input, highest);
    ScaleLe(b, output, highest);
    assert (p + a) * input == p * input + a * input;
    assert (q + b) * output == q * output + b * output;
    assert (a + b) * highest == a * highest + b * highest;
  }

  lemma Monotone(x: int, y: int, m: real)
    requires x <= y && m >= 0.0
    ensures x as real * m / 1000000.0 <= y as real * m / 1000000.0
  {
    assert x as real * m <= y as real * m;
  }

  /** Exact evidence within the cap costs no more than the reservation. */
  lemma ExactIsModest(c: Config, a: Attempt, u: Usage, spent: nat)
    requires c.Valid() && Exact(u, spent) && spent <= c.tokensPerTask && Modest(c, a)
    requires a.debitTokens == c.tokensPerTask
    ensures Modest(c, SettledAttempt(c, a, u)) && spent <= SettledAttempt(c, a, u).debitTokens
  {
    if u.Found() && c.rates.Some? {
      var r := c.rates.value;
      MixedRates(u.prompt, u.completion, u.unclassified, r.input, r.output, r.Highest());
      Monotone(u.total, c.tokensPerTask, r.Highest());
    }
  }

  lemma SpendKeeps(c: Config, g: Global, l: Label, g': Global)
    requires c.Valid() && Inv(c, g) && SpendHolds(c, g) && Next(c, g, l, g') && Compliant(c, g, l) && l.Spend?
    ensures SpendHolds(c, g')
  {
    hide Rows, UsageOf, AccountingOf, WithinBudget, Settled;
    var t, k := l.t, l.k;
    assert TaskHolds(c, g.durable.tasks[t]);
    assert RowHolds(c, g.durable.tasks[t].attempts[k]);
    if g.pc.Judging? || g.pc.Finishing? {
      assert Last(g.durable.tasks[c.fixtures[g.pc.i]]).status == Running;
    }
  }

  lemma StartKeeps(c: Config, g: Global, l: Label, g': Global)
    requires c.Valid() && Inv(c, g) && SpendHolds(c, g) && Next(c, g, l, g') && l.Start?
    ensures SpendHolds(c, g')
  {
    hide Rows, UsageOf, AccountingOf, WithinBudget;
    forall t, k | t in g.durable.tasks && 0 <= k < |g.durable.tasks[t].attempts|
      ensures k < |g'.durable.tasks[t].attempts|
      ensures SameDebit(g'.durable.tasks[t].attempts[k], g.durable.tasks[t].attempts[k])
    {
      assert TaskHolds(c, g.durable.tasks[t]);
      ReconciledDebits(c, t, g.durable.tasks[t], l.evidence, k);
    }
    hide LedgerHolds, Inv, ReconciledTask;
  }

  lemma ReserveKeeps(c: Config, g: Global, l: Label, g': Global)
    requires c.Valid() && Inv(c, g) && SpendHolds(c, g) && Next(c, g, l, g') && l.Reserve?
    ensures SpendHolds(c, g')
  {
    hide LedgerHolds, OnlyRunning, Reserved, ReserveRefused, CostReservation;
    ReservedShape(c, g.durable, c.fixtures[g.pc.i], l.attemptId);
  }

  lemma RecordKeeps(c: Config, g: Global, l: Label, g': Global)
    requires c.Valid() && Inv(c, g) && SpendHolds(c, g) && Next(c, g, l, g') && l.Record?
    ensures SpendHolds(c, g')
  {
    hide LedgerHolds, OnlyRunning, Settled, Closed, Rows, UsageOf, AccountingOf, CostReservation, Exact, SettledAttempt;
    var t := c.fixtures[g.pc.i];
    var task := g.durable.tasks[t];
    var n := |task.attempts| - 1;
    SettleThenClose(c, g.durable, t, g.pc.usage, g.pc.candidate);
    ExactIsModest(c, Last(task), g.pc.usage, Spent(g, t, n));
    SettledAttemptNonNegative(c, Last(task), g.pc.usage, Spent(g, t, n));
  }

  lemma SettledAttemptNonNegative(c: Config, a: Attempt, u: Usage, spent: nat)
    requires Exact(u, spent) && a.debitTokens >= 0
    ensures SettledAttempt(c, a, u).debitTokens >= 0
  {
  }

  lemma ReturnKeeps(c: Config, g: Global, l: Label, g': Global)
    requires c.Valid() && Inv(c, g) && SpendHolds(c, g) && Next(c, g, l, g') && Compliant(c, g, l) && l.Return?
    ensures SpendHolds(c, g')
  {
    hide LedgerHolds, OnlyRunning, Settled, Exact, Modest;
  }

  lemma OthersKeep(c: Config, g: Global, l: Label, g': Global)
    requires c.Valid() && Inv(c, g) && SpendHolds(c, g) && Next(c, g, l, g')
    requires !l.Spend? && !l.Start? && !l.Reserve? && !l.Record? && !l.Return?
    ensures SpendHolds(c, g')
  {
    hide LedgerHolds, OnlyRunning, Settled, Exact, Modest;
  }

  lemma StepKeepsSpend(c: Config, g: Global, l: Label, g': Global)
    requires c.Valid() && Inv(c, g) && SpendHolds(c, g) && Next(c, g, l, g') && Compliant(c, g, l)
    ensures SpendHolds(c, g')
  {
    hide Next, Inv, SpendHolds, Compliant;
    match l
    case Spend(_, _, _) => SpendKeeps(c, g, l, g');
    case Start(_) => StartKeeps(c, g, l, g');
    case Reserve(_) => ReserveKeeps(c, g, l, g');
    case Record => RecordKeeps(c, g, l, g');
    case Return(_) => ReturnKeeps(c, g, l, g');
    case _ => OthersKeep(c, g, l, g');
  }

  lemma {:induction false} SpendSafety(c: Config, states: seq<Global>, labels: seq<Label>, i: nat)
    requires c.Valid() && CompliantRun(c, states, labels) && i < |states|
    ensures SpendHolds(c, states[i])
  {
    hide Next, Inv, Compliant;
    if i > 0 {
      SpendSafety(c, states, labels, i - 1);
      LedgerSafety(c, states, labels, i - 1);
      hide SpendHolds;
      StepKeepsSpend(c, states[i - 1], labels[i - 1], states[i - 1 + 1]);
    }
  }

  // ------------------------------------------------------------- true spend

  /** Tokens billed for the first n attempts of t. */
  function SpentByTask(g: Global, t: string, n: nat): nat
  {
    if n == 0 then 0 else SpentByTask(g, t, n - 1) + Spent(g, t, n - 1)
  }

  /** Tokens billed for all attempts of the named tasks. */
  function TrueSpend(g: Global, names: seq<string>): nat
  {
    if names == [] then 0
    else TrueSpend(g, names[..|names| - 1])
         + SpentByTask(g, names[|names| - 1], |AttemptsOf(g.durable.tasks, names[|names| - 1])|)
  }

  lemma {:induction false} TaskSpendBelow(c: Config, g: Global, t: string, n: nat)
    requires SpendHolds(c, g) && t in g.durable.tasks && n <= |g.durable.tasks[t].attempts|
    ensures SpentByTask(g, t, n) <= Sum(DEBIT, g.durable.tasks[t].attempts[..n])
  {
    if n > 0 {
      TaskSpendBelow(c, g, t, n - 1);
      assert g.durable.tasks[t].attempts[..n][..n - 1] == g.durable.tasks[t].attempts[..n - 1];
    }
  }

  lemma {:induction false} TrueSpendBelow(c: Config, g: Global, names: seq<string>)
    requires SpendHolds(c, g) && forall t | t in names :: t in g.durable.tasks
    ensures TrueSpend(g, names) <= Sum(DEBIT, Rows(names, g.durable.tasks))
  {
    if names != [] {
      var rest, t := names[..|names| - 1], names[|names| - 1];
      assert forall x | x in rest :: x in names;
      TrueSpendBelow(c, g, rest);
      assert t in names;
      var attempts := g.durable.tasks[t].attempts;
      TaskSpendBelow(c, g, t, |attempts|);
      assert attempts[..|attempts|] == attempts;
      SumAppend(DEBIT, Rows(rest, g.durable.tasks), attempts);
    }
  }

  lemma {:induction false} RowsAreModest(c: Config, names: seq<string>, g: Global)
    requires SpendHolds(c, g) && forall t | t in names :: t in g.durable.tasks
    ensures forall a | a in Rows(names, g.durable.tasks) :: Modest(c, a)
  {
    if names != [] {
      var rest := names[..|names| - 1];
      assert forall x | x in rest :: x in names;
      RowsAreModest(c, rest, g);
      assert names[|names| - 1] in names;
    }
  }

  lemma ModestSums(c: Config, rows: seq<Attempt>)
    requires forall a | a in rows :: Modest(c, a)
    ensures Sum(DEBIT, rows) <= Sum(Capped(c), rows) && SumReal(DEBIT_COST, rows) <= SumReal(CappedCost(c), rows)
  {
    forall k | 0 <= k < |rows|
      ensures DEBIT(rows[k]) <= Capped(c)(rows[k]) && DEBIT_COST(rows[k]) <= CappedCost(c)(rows[k])
    {
      assert Modest(c, rows[k]);
    }
    SumPointwise(DEBIT, Capped(c), rows, rows);
    SumRealPointwise(DEBIT_COST, CappedCost(c), rows, rows);
  }

  /** Every state file of every compliant run, whatever crashed in between: what the provider really
      billed is at most the debits, and the debits are at most the token and the cost budget. */
  lemma CrashSafeBudget(c: Config, states: seq<Global>, labels: seq<Label>, i: nat)
    requires c.Valid() && CompliantRun(c, states, labels) && i < |states|
    ensures var g := states[i];
      && TrueSpend(g, c.fixtures) <= g.durable.accounting.debitedTokens <= c.totalTokens
      && (c.totalCost.Some? ==> g.durable.accounting.debitedCost.Some?
                                && g.durable.accounting.debitedCost.value <= c.totalCost.value)
  {
    SpendSafety(c, states, labels, i);
    LedgerSafety(c, states, labels, i);
    hide Next, SpendHolds, Rows, Sum, SumReal, Modest, MemoryHolds, TaskHolds;
    var g := states[i];
    TrueSpendBelow(c, g, c.fixtures);
    RowsAreModest(c, c.fixtures, g);
    ModestSums(c, Rows(c.fixtures, g.durable.tasks));
  }

  // --------------------------------------------------- planned batch budgets

  /** Budgets that admit every fixture once, at its token cap and at the highest rate. */
  ghost predicate Planned(c: Config)
  {
    && c.totalTokens >= |c.fixtures| * c.tokensPerTask
    && (c.totalCost.Some? && c.rates.Some? ==>
          c.totalCost.value >= (|c.fixtures| * c.tokensPerTask) as real * c.rates.value.Highest() / 1000000.0)
  }

  lemma {:induction false} SumBounded(f: Attempt -> int, xs: seq<Attempt>, m: int)
    requires forall a | a in xs :: f(a) <= m
    ensures Sum(f, xs) <= |xs| * m
  {
    if xs != [] {
      SumBounded(f, xs[..|xs| - 1], m);
      assert |xs| * m == (|xs| - 1) * m + m;
    }
  }

  lemma {:induction false} SumRealBounded(f: Attempt -> real, xs: seq<Attempt>, m: real)
    requires forall a | a in xs :: f(a) <= m
    ensures SumReal(f, xs) <= |xs| as real * m
  {
    if xs != [] {
      SumRealBounded(f, xs[..|xs| - 1], m);
      assert |xs| as real * m == (|xs| - 1) as real * m + m;
    }
  }

  lemma RoomForOneMore(n: nat, k: nat, cap: int, m: real)
    requires n < k && cap >= 0 && m >= 0.0
    ensures n * cap + cap <= k * cap
    ensures n as real * (cap as real * m / 1000000.0) + cap as real * m / 1000000.0 <= (k * cap) as real * m / 1000000.0
  {
    assert n * cap + cap == (n + 1) * cap;
    assert (n + 1) * cap <= k * cap;
    var x := cap as real * m / 1000000.0;
    assert x >= 0.0;
    assert n as real * x + x == (n + 1) as real * x;
    assert (n + 1) as real * x <= k as real * x;
    assert (k * cap) as real == k as real * cap as real;
    assert (k * cap) as real * m == k as real * (cap as real * m);
  }

  /** With planned budgets and modest rows, admission is refused only once there are at least as many
      attempts as fixtures. */
  lemma PlannedAdmission(c: Config, s: Cohort)
    requires c.Valid() && Planned(c) && LedgerHolds(c, s)
    requires forall a | a in Rows(c.fixtures, s.tasks) :: Modest(c, a)
    ensures ReserveRefused(c, s).Some? ==> |Rows(c.fixtures, s.tasks)| >= |c.fixtures|
  {
    var rows := Rows(c.fixtures, s.tasks);
    hide Rows, Sum, SumReal;
    SumBounded(DEBIT, rows, c.tokensPerTask);
    SumRealBounded(DEBIT_COST, rows, CostReservation(c).GetOr(0.0));
    if |rows| < |c.fixtures| {
      RoomForOneMore(|rows|, |c.fixtures|, c.tokensPerTask, if c.rates.Some? then c.rates.value.Highest() else 0.0);
    }
  }

  /** A cohort with planned budgets, such as a plan batch or a matrix cell, over any crash and resume
      history with a compliant provider, can stop on a budget only once it has made at least as many
      attempts as it has fixtures. */
  lemma PlannedBudgetsSuffice(c: Config, states: seq<Global>, labels: seq<Label>, i: nat)
    requires c.Valid() && Planned(c) && CompliantRun(c, states, labels)
    requires i < |labels| && labels[i].StopOnBudget?
    ensures |Rows(c.fixtures, states[i].durable.tasks)| >= |c.fixtures|
  {
    hide SpendHolds, Rows, Modest, LedgerHolds, Next, Inv, Planned;
    SpendSafety(c, states, labels, i);
    LedgerSafety(c, states, labels, i);
    StopMeansRefused(c, states[i], labels[i], states[i + 1]);
    RowsAreModest(c, c.fixtures, states[i]);
    PlannedAdmission(c, states[i].durable);
  }

  lemma StopMeansRefused(c: Config, g: Global, l: Label, g': Global)
    requires Inv(c, g) && Next(c, g, l, g') && l.StopOnBudget?
    ensures ReserveRefused(c, g.durable).Some? && LedgerHolds(c, g.durable)
    ensures forall t | t in c.fixtures :: t in g.durable.tasks
  {
    hide Rows, TaskHolds, WithinBudget, UsageOf, AccountingOf;
  }
}
