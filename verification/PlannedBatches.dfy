/** From remaining profiles to batches that the scheduler can run: sizes, fixtures and budgets. */
module PlannedBatches {
  import opened Contracts
  import opened BatchPlan
  import opened BatchAssignment
  import opened Sorting
  import CohortLedger
  import CohortProtocol
  import CohortBudget

  type Config = CohortLedger.Config

  /** The planner's policy; its constructor's checks are Valid(). */
  datatype Policy = Policy(target: nat, tokensPerTask: nat, rates: Option<CohortLedger.Rates>)
  {
    ghost predicate Valid()
    {
      target >= 3 && tokensPerTask > 0
      && (rates.Some? ==> rates.value.input >= 0.0 && rates.value.output >= 0.0)
    }
  }

  datatype PlanError = NoRemainingTasks | CapacityExhausted

  /** Every task at its cap and at the higher rate. */
  function ConservativeCost(tasks: nat, policy: Policy): Option<real>
  {
    if policy.rates.None? then None
    else Some((tasks * policy.tokensPerTask) as real * policy.rates.value.Highest() / 1000000.0)
  }

  predicate IdBefore(a: Profile, b: Profile)
  {
    TextBefore(a.taskId, b.taskId)
  }

  function Ids(batch: seq<Profile>): seq<string>
  {
    seq(|batch|, i requires 0 <= i < |batch| => batch[i].taskId)
  }

  /** The cohort a batch is run as. */
  function BatchConfig(batch: seq<Profile>, policy: Policy): Config
  {
    CohortLedger.Config(Ids(Sorted(batch, IdBefore)), |batch| * policy.tokensPerTask, policy.tokensPerTask,
                        policy.rates, ConservativeCost(|batch|, policy))
  }

  predicate DistinctIds(profiles: seq<Profile>)
  {
    forall i, j | 0 <= i < j < |profiles| :: profiles[i].taskId != profiles[j].taskId
  }

  // ----------------------------------------------------------- distinctness

  lemma OccursTwice(xs: seq<Profile>, i: nat, j: nat)
    requires i < j < |xs| && xs[i] == xs[j]
    ensures multiset(xs)[xs[i]] >= 2
  {
    assert xs == xs[..j] + xs[j..];
    assert xs[i] in xs[..j] && xs[j] in xs[j..];
  }

  lemma {:induction false} OccursOnce(profiles: seq<Profile>, x: Profile)
    requires DistinctIds(profiles)
    ensures multiset(profiles)[x] <= 1
  {
    if profiles != [] {
      var last := |profiles| - 1;
      assert profiles == profiles[..last] + [profiles[last]];
      OccursOnce(profiles[..last], x);
      if x == profiles[last] {
        assert x !in profiles[..last];
      }
    }
  }

  /** Any selection from profiles with distinct ids has distinct ids. */
  lemma SelectionIsDistinct(xs: seq<Profile>, profiles: seq<Profile>)
    requires DistinctIds(profiles) && multiset(xs) <= multiset(profiles)
    ensures DistinctIds(xs)
  {
    forall i, j | 0 <= i < j < |xs| ensures xs[i].taskId != xs[j].taskId
    {
      assert xs[i] in multiset(profiles) && xs[j] in multiset(profiles);
      var a :| 0 <= a < |profiles| && profiles[a] == xs[i];
      var b :| 0 <= b < |profiles| && profiles[b] == xs[j];
      if xs[i].taskId == xs[j].taskId {
        assert a == b;
        OccursTwice(xs, i, j);
        OccursOnce(profiles, xs[i]);
      }
    }
  }

  lemma {:induction false} BatchWithinContents(batches: Batches, i: nat)
    requires i < |batches|
    ensures multiset(batches[i]) <= Contents(batches)
  {
    if i < |batches| - 1 {
      BatchWithinContents(batches[..|batches| - 1], i);
    }
  }

  lemma {:induction false} TwoWithinContents(batches: Batches, i: nat, j: nat)
    requires i < j < |batches|
    ensures multiset(batches[i]) + multiset(batches[j]) <= Contents(batches)
  {
    var last := |batches| - 1;
    if j < last {
      TwoWithinContents(batches[..last], i, j);
    } else {
      BatchWithinContents(batches[..last], i);
    }
  }

  /** No task is in two batches. */
  lemma BatchesShareNoTask(batches: Batches, profiles: seq<Profile>, i: nat, j: nat, x: Profile, y: Profile)
    requires DistinctIds(profiles) && Contents(batches) == multiset(profiles)
    requires i < j < |batches| && x in batches[i] && y in batches[j]
    ensures x.taskId != y.taskId && x in profiles && y in profiles
  {
    TwoWithinContents(batches, i, j);
    assert x in multiset(batches[i]) && y in multiset(batches[j]);
    assert x in multiset(profiles) && y in multiset(profiles);
    if x.taskId == y.taskId {
      OccursOnce(profiles, x);
    }
  }

  lemma {:induction false} ContentsInSome(batches: Batches, x: Profile) returns (i: nat)
    requires x in Contents(batches)
    ensures i < |batches| && x in batches[i]
  {
    var last := |batches| - 1;
    if x in multiset(batches[last]) {
      i := last;
    } else {
      i := ContentsInSome(batches[..last], x);
    }
  }

  // ---------------------------------------------------------------- budgets

  ghost predicate InTextOrder(ids: seq<string>)
  {
    forall i | 0 <= i < |ids| - 1 :: !TextBefore(ids[i + 1], ids[i])
  }

  lemma IdsInTextOrder(batch: seq<Profile>)
    ensures InTextOrder(Ids(Sorted(batch, IdBefore)))
  {
    forall a, b ensures IdBefore(a, b) ==> !IdBefore(b, a)
    {
      TextBeforeIsAsymmetric(a.taskId, b.taskId);
    }
    SortedOrders(batch, IdBefore);
    hide Sorted;
  }

  /** A batch of one to target tasks with distinct ids runs under a valid configuration whose budgets
      are exactly its fixtures' caps. */
  lemma BatchIsLaunchable(batch: seq<Profile>, profiles: seq<Profile>, policy: Policy)
    requires policy.Valid() && DistinctIds(profiles) && multiset(batch) <= multiset(profiles) && batch != []
    ensures BatchConfig(batch, policy).Valid() && CohortBudget.Planned(BatchConfig(batch, policy))
    ensures |BatchConfig(batch, policy).fixtures| == |batch| && InTextOrder(BatchConfig(batch, policy).fixtures)
    ensures BatchConfig(batch, policy).totalTokens == |batch| * policy.tokensPerTask
    ensures var c := BatchConfig(batch, policy);
      && c.rates == policy.rates && c.tokensPerTask == policy.tokensPerTask && Funds(c, c.totalCost, |batch|)
    ensures forall id :: id in BatchConfig(batch, policy).fixtures <==> exists x :: x in batch && x.taskId == id
  {
    var sorted := Sorted(batch, IdBefore);
    SortedKeeps(batch, IdBefore);
    IdsInTextOrder(batch);
    SelectionIsDistinct(sorted, profiles);
    assert |multiset(sorted)| == |sorted| && |multiset(batch)| == |batch|;
    hide Sorted, ConservativeCost, DistinctIds, Ids, TextBefore, Contents, InTextOrder;
    DistinctFixtures(sorted);
    ConservativeCostFunds(|batch|, policy, BatchConfig(batch, policy));
    hide Funds;
    FixturesAreLaunchable(Ids(sorted), policy);
    SortedIds(batch, sorted);
  }

  lemma DistinctFixtures(sorted: seq<Profile>)
    requires DistinctIds(sorted)
    ensures |Ids(sorted)| == |sorted|
    ensures forall i, j | 0 <= i < j < |sorted| :: Ids(sorted)[i] != Ids(sorted)[j]
  {
  }

  lemma FixturesAreLaunchable(ids: seq<string>, policy: Policy)
    requires policy.Valid() && ids != [] && forall i, j | 0 <= i < j < |ids| :: ids[i] != ids[j]
    ensures var c := CohortLedger.Config(ids, |ids| * policy.tokensPerTask, policy.tokensPerTask, policy.rates,
                                         ConservativeCost(|ids|, policy));
            c.Valid() && CohortBudget.Planned(c)
  {
    CostIsNonNegative(|ids|, policy);
    TokensFit(|ids|, policy.tokensPerTask);
  }

  lemma TokensFit(n: nat, cap: nat)
    requires n > 0
    ensures cap <= n * cap
  {
  }

  lemma CostIsNonNegative(n: nat, policy: Policy)
    requires policy.Valid()
    ensures policy.rates.Some? ==> ConservativeCost(n, policy).value >= 0.0
  {
    if policy.rates.Some? {
      assert (n * policy.tokensPerTask) as real * policy.rates.value.Highest() >= 0.0;
    }
  }

  lemma SortedIds(batch: seq<Profile>, sorted: seq<Profile>)
    requires multiset(sorted) == multiset(batch)
    ensures forall id :: id in Ids(sorted) <==> exists x :: x in batch && x.taskId == id
  {
    forall id ensures id in Ids(sorted) <==> exists x :: x in batch && x.taskId == id
    {
      if id in Ids(sorted) {
        var i :| 0 <= i < |sorted| && Ids(sorted)[i] == id;
        assert sorted[i] in multiset(batch);
      }
      if exists x :: x in batch && x.taskId == id {
        var x :| x in batch && x.taskId == id;
        assert x in multiset(sorted);
        var i :| 0 <= i < |sorted| && sorted[i] == x;
        assert Ids(sorted)[i] == id;
      }
    }
  }

  function TotalTokens(plan: seq<Config>): int
  {
    if plan == [] then 0 else TotalTokens(plan[..|plan| - 1]) + plan[|plan| - 1].totalTokens
  }

  function TotalCost(plan: seq<Config>): real
  {
    if plan == [] then 0.0 else TotalCost(plan[..|plan| - 1]) + plan[|plan| - 1].totalCost.GetOr(0.0)
  }

  /** The configuration of each batch, in order. */
  ghost predicate Configures(plan: seq<Config>, batches: Batches, policy: Policy)
  {
    |plan| == |batches| && forall i | 0 <= i < |plan| :: plan[i] == BatchConfig(batches[i], policy)
  }

  lemma CostSplits(a: nat, b: nat, policy: Policy)
    ensures ConservativeCost(a + b, policy).GetOr(0.0) ==
            ConservativeCost(a, policy).GetOr(0.0) + ConservativeCost(b, policy).GetOr(0.0)
  {
    var cap := policy.tokensPerTask;
    assert (a + b) * cap == a * cap + b * cap;
    if policy.rates.Some? {
      var m := policy.rates.value.Highest();
      assert ((a + b) * cap) as real * m == (a * cap) as real * m + (b * cap) as real * m;
    }
  }

  /** Batch budgets add up to the budget of all their tasks together. */
  lemma {:induction false} BudgetsAddUp(plan: seq<Config>, batches: Batches, policy: Policy)
    requires Configures(plan, batches, policy)
    ensures TotalTokens(plan) == TotalSize(batches) * policy.tokensPerTask
    ensures TotalCost(plan) == ConservativeCost(TotalSize(batches), policy).GetOr(0.0)
  {
    if plan != [] {
      var n := |plan| - 1;
      BudgetsAddUp(plan[..n], batches[..n], policy);
      var a, b := TotalSize(batches[..n]), |batches[n]|;
      CostSplits(a, b, policy);
      assert (a + b) * policy.tokensPerTask == a * policy.tokensPerTask + b * policy.tokensPerTask;
    }
  }

  // ------------------------------------------------------------- the planner

  /** No two batches share a fixture, and the fixtures are exactly the remaining tasks. */
  ghost predicate CoversOnce(plan: seq<Config>, remaining: seq<Profile>)
  {
    && (forall i, j, id | 0 <= i < j < |plan| && id in plan[i].fixtures :: id !in plan[j].fixtures)
    && (forall i, id | 0 <= i < |plan| && id in plan[i].fixtures :: exists x :: x in remaining && x.taskId == id)
    && (forall x | x in remaining :: exists i :: 0 <= i < |plan| && x.taskId in plan[i].fixtures)
  }

  /** The cohort's cost budget is exactly what the scheduler reserves for that many attempts; there is one
      exactly when there are rates. */
  ghost predicate Funds(c: Config, cost: Option<real>, attempts: nat)
  {
    && (cost.Some? <==> c.rates.Some?)
    && (cost.Some? ==>
          CohortLedger.CostReservation(c).Some?
          && cost.value == attempts as real * CohortLedger.CostReservation(c).value)
  }

  lemma ConservativeCostFunds(attempts: nat, policy: Policy, c: Config)
    requires c.rates == policy.rates && c.tokensPerTask == policy.tokensPerTask
    ensures Funds(c, ConservativeCost(attempts, policy), attempts)
  {
    if policy.rates.Some? {
      var m, cap := policy.rates.value.Highest(), policy.tokensPerTask;
      assert (attempts * cap) as real == attempts as real * cap as real;
      assert (attempts * cap) as real * m == attempts as real * (cap as real * m);
    }
  }

  /** A plan covers every remaining task once and nothing else, in batches of one to target tasks, and its
      budgets sum to the plan's own maximum; every batch can be launched as it stands. */
  ghost predicate IsPlan(plan: seq<Config>, remaining: seq<Profile>, policy: Policy)
  {
    && (forall i | 0 <= i < |plan| :: plan[i].Valid() && CohortBudget.Planned(plan[i]))
    && (forall i | 0 <= i < |plan| :: plan[i].totalTokens == |plan[i].fixtures| * policy.tokensPerTask)
    && (forall i | 0 <= i < |plan| :: 1 <= |plan[i].fixtures| <= policy.target && InTextOrder(plan[i].fixtures))
    && (forall i, j | 0 <= i < |plan| && 0 <= j < |plan| :: |plan[i].fixtures| <= |plan[j].fixtures| + 1)
    && CoversOnce(plan, remaining)
    && (forall i | 0 <= i < |plan| :: plan[i].rates == policy.rates && plan[i].tokensPerTask == policy.tokensPerTask)
    && (forall i | 0 <= i < |plan| :: Funds(plan[i], plan[i].totalCost, |plan[i].fixtures|))
    && TotalTokens(plan) == |remaining| * policy.tokensPerTask
    && (policy.rates.Some? ==> forall i | 0 <= i < |plan| :: Funds(plan[i], Some(TotalCost(plan)), |remaining|))
  }

  /** Plans the remaining tasks. Capacity never runs out. */
  method CreatePlan(remaining: seq<Profile>, policy: Policy) returns (result: Result<seq<Config>, PlanError>)
    requires policy.Valid() && DistinctIds(remaining)
    ensures result.Failure? <==> remaining == []
    ensures result.Failure? ==> result.error == NoRemainingTasks
    ensures result.Success? ==> IsPlan(result.value, remaining, policy)
  {
    if remaining == [] {
      return Failure(NoRemainingTasks);
    }
    var capacities := BatchCapacities(|remaining|, policy.target);
    CapacitiesAreBalanced(|remaining|, policy.target);
    var assignment, ordered, runs := AssignBatches(remaining, capacities);
    if assignment.None? {
      assert false;
      return Failure(CapacityExhausted);
    }
    ProgressFits(assignment.value, capacities, ordered, |ordered|);
    var plan: seq<Config> := [];
    for i := 0 to |assignment.value|
      invariant Configures(plan, assignment.value[..i], policy)
    {
      plan := plan + [BatchConfig(assignment.value[i], policy)];
    }
    assert assignment.value[..|assignment.value|] == assignment.value;
    hide BatchCapacities, Progress, IsAssignment, BatchConfig, AreStrata;
    ConfiguredIsPlan(plan, assignment.value, capacities, remaining, policy);
    result := Success(plan);
  }

  lemma ConfiguredIsPlan(plan: seq<Config>, batches: Batches, capacities: seq<nat>, remaining: seq<Profile>,
                         policy: Policy)
    requires policy.Valid() && DistinctIds(remaining) && Configures(plan, batches, policy)
    requires Fits(batches, capacities) && Contents(batches) == multiset(remaining)
    requires SumOf(capacities) == |remaining|
    requires forall i, j | 0 <= i < |capacities| && 0 <= j < |capacities| :: capacities[i] <= capacities[j] + 1
    requires forall i | 0 <= i < |capacities| :: 1 <= capacities[i] <= policy.target
    ensures IsPlan(plan, remaining, policy)
  {
    hide BatchConfig, ConservativeCost, Contents, SumOf, TotalSize, InTextOrder, CoversOnce, Funds, TotalCost;
    ExactCapacitiesAreFilled(batches, capacities, remaining);
    ContentsSize(batches);
    BudgetsAddUp(plan, batches, policy);
    forall i: nat | i < |plan|
      ensures plan[i].Valid() && CohortBudget.Planned(plan[i]) && |plan[i].fixtures| == capacities[i]
      ensures plan[i].totalTokens == |plan[i].fixtures| * policy.tokensPerTask && InTextOrder(plan[i].fixtures)
      ensures forall id :: id in plan[i].fixtures <==> exists x :: x in batches[i] && x.taskId == id
      ensures plan[i].rates == policy.rates && plan[i].tokensPerTask == policy.tokensPerTask
      ensures Funds(plan[i], plan[i].totalCost, |plan[i].fixtures|)
      ensures policy.rates.Some? ==> Funds(plan[i], Some(TotalCost(plan)), |remaining|)
    {
      BatchWithinContents(batches, i);
      BatchIsLaunchable(batches[i], remaining, policy);
      ConservativeCostFunds(|remaining|, policy, plan[i]);
      RatesMeanCost(|remaining|, policy);
    }
    BatchesCoverOnce(plan, batches, remaining);
  }

  lemma RatesMeanCost(tasks: nat, policy: Policy)
    ensures ConservativeCost(tasks, policy).Some? <==> policy.rates.Some?
  {
  }

  lemma BatchesCoverOnce(plan: seq<Config>, batches: Batches, remaining: seq<Profile>)
    requires DistinctIds(remaining) && Contents(batches) == multiset(remaining) && |plan| == |batches|
    requires forall i: nat, id | i < |plan| ::
      id in plan[i].fixtures <==> exists x :: x in batches[i] && x.taskId == id
    ensures CoversOnce(plan, remaining)
  {
    hide Contents, DistinctIds;
    forall i: nat, j: nat, id | i < j < |plan| && id in plan[i].fixtures ensures id !in plan[j].fixtures
    {
      var x :| x in batches[i] && x.taskId == id;
      if id in plan[j].fixtures {
        var y :| y in batches[j] && y.taskId == id;
        BatchesShareNoTask(batches, remaining, i, j, x, y);
      }
    }
    forall i: nat, id | i < |plan| && id in plan[i].fixtures ensures exists x :: x in remaining && x.taskId == id
    {
      var x :| x in batches[i] && x.taskId == id;
      BatchWithinContents(batches, i);
      assert x in multiset(batches[i]);
      assert x in multiset(remaining);
    }
    forall x | x in remaining ensures exists i :: 0 <= i < |plan| && x.taskId in plan[i].fixtures
    {
      assert x in multiset(remaining);
      var i := ContentsInSome(batches, x);
      assert x.taskId in plan[i].fixtures;
    }
  }

  /** Any batch of any plan, over any crash and resume history with a compliant provider, can stop on a
      budget only once it has made at least as many attempts as it has tasks. */
  lemma PlannedBatchCanTryEveryTask(plan: seq<Config>, remaining: seq<Profile>, policy: Policy, b: nat,
                                    states: seq<CohortProtocol.Global>, labels: seq<CohortProtocol.Label>, i: nat)
    requires IsPlan(plan, remaining, policy) && b < |plan|
    requires CohortBudget.CompliantRun(plan[b], states, labels)
    requires i < |labels| && labels[i].StopOnBudget?
    ensures |CohortLedger.Rows(plan[b].fixtures, states[i].durable.tasks)| >= |plan[b].fixtures|
  {
    CohortBudget.PlannedBudgetsSuffice(plan[b], states, labels, i);
  }
}
