/** The batch planner's profiles, and the capacities it gives its batches. */
module BatchPlan {
  import opened Contracts

  datatype Family = Editing | Generation

  datatype Band = Simple | Moderate | Complex

  datatype Key = Key(family: Family, band: Band)

  /** Scores are exact numbers; ids are compared as strings. */
  datatype Profile = Profile(taskId: string, key: Key, score: real)

  type Batches = seq<seq<Profile>>

  // ------------------------------------------------------------- capacities

  function CeilDiv(a: nat, b: nat): nat
    requires b > 0
  {
    (a + b - 1) / b
  }

  /** As even a split as possible into the fewest batches of at most the target size. */
  function BatchCapacities(taskCount: nat, target: nat): seq<nat>
    requires taskCount > 0 && target > 0
  {
    var count := CeilDiv(taskCount, target);
    DivisionFacts(taskCount, target);
    var smaller, larger := taskCount / count, taskCount % count;
    seq(count, i => if i < larger then smaller + 1 else smaller)
  }

  lemma CancelLe(a: int, b: int, c: nat)
    requires a * c <= b * c && c > 0
    ensures a <= b
  {
    assert (b + 1) * c == b * c + c;
    CancelLt(a, b + 1, c);
  }

  lemma CancelLt(a: int, b: int, c: nat)
    requires a * c < b * c
    ensures a < b
  {
  }

  lemma DivisionFacts(n: nat, target: nat)
    requires n > 0 && target > 0
    ensures var count := CeilDiv(n, target); 1 <= count <= n && (count - 1) * target < n <= count * target
  {
    var count := CeilDiv(n, target);
    QuotientRemainder(n + target - 1, target);
    Distribute(count, -1, target);
    CancelLt(0, count, target);
    AtLeastItself(count - 1, target);
  }

  lemma QuotientRemainder(x: nat, d: nat)
    requires d > 0
    ensures x == (x / d) * d + x % d && 0 <= x % d < d
  {
  }

  lemma Distribute(a: int, b: int, c: int)
    ensures (a + b) * c == a * c + b * c
  {
  }

  lemma AtLeastItself(a: nat, b: nat)
    requires b > 0
    ensures a <= a * b
  {
  }

  lemma QuotientFacts(n: nat, count: nat, target: nat)
    requires 1 <= count <= n <= count * target
    ensures n == count * (n / count) + n % count && 1 <= n / count <= target
    ensures n / count == target ==> n % count == 0
  {
    var q, r := n / count, n % count;
    QuotientRemainder(n, count);
    assert count * target == target * count;
    CancelLe(q, target, count);
    Distribute(q, 1, count);
    CancelLt(1, q + 1, count);
  }

  function SumOf(xs: seq<nat>): nat
  {
    if xs == [] then 0 else SumOf(xs[..|xs| - 1]) + xs[|xs| - 1]
  }

  lemma {:induction false} SumOfSteps(xs: seq<nat>, larger: nat, smaller: nat)
    requires forall i | 0 <= i < |xs| :: xs[i] == if i < larger then smaller + 1 else smaller
    ensures SumOf(xs) == |xs| * smaller + if larger < |xs| then larger else |xs|
  {
    if xs != [] {
      SumOfSteps(xs[..|xs| - 1], larger, smaller);
      assert |xs| * smaller == (|xs| - 1) * smaller + smaller;
    }
  }

  lemma CapacityAt(n: nat, target: nat)
    requires n > 0 && target > 0
    ensures var caps, count := BatchCapacities(n, target), CeilDiv(n, target);
      && count > 0 && |caps| == count
      && forall i | 0 <= i < count :: caps[i] == if i < n % count then n / count + 1 else n / count
  {
    DivisionFacts(n, target);
  }

  /** The capacities hold every task exactly once, are pairwise within one of each other with the larger
      ones first, lie between one and the target, and no smaller number of batches would do. */
  lemma CapacitiesAreBalanced(n: nat, target: nat)
    requires n > 0 && target > 0
    ensures var caps := BatchCapacities(n, target);
      && SumOf(caps) == n
      && (forall i, j | 0 <= i < |caps| && 0 <= j < |caps| :: caps[i] <= caps[j] + 1)
      && (forall i, j | 0 <= i < j < |caps| :: caps[i] >= caps[j])
      && (forall i | 0 <= i < |caps| :: 1 <= caps[i] <= target)
      && (|caps| - 1) * target < n
  {
    DivisionFacts(n, target);
    var count := CeilDiv(n, target);
    QuotientFacts(n, count, target);
    var caps := BatchCapacities(n, target);
    CapacityAt(n, target);
    hide BatchCapacities, CeilDiv;
    SumOfSteps(caps, n % count, n / count);
  }
}
