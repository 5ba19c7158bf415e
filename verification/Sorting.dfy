/** Sorting by a strict order given as a predicate, as insertion into a sorted sequence, and the order of
    strings by their characters. */
module Sorting {

  /** Stable insertion: x goes before the first element that it must precede. */
  function Insert<T>(x: T, xs: seq<T>, before: (T, T) -> bool): seq<T>
  {
    if xs == [] then [x]
    else if before(x, xs[|xs| - 1]) then Insert(x, xs[..|xs| - 1], before) + [xs[|xs| - 1]]
    else xs + [x]
  }

  function Sorted<T>(xs: seq<T>, before: (T, T) -> bool): seq<T>
  {
    if xs == [] then [] else Insert(xs[|xs| - 1], Sorted(xs[..|xs| - 1], before), before)
  }

  predicate TextBefore(a: string, b: string)
  {
    if b == "" then false
    else if a == "" then true
    else a[0] < b[0] || (a[0] == b[0] && TextBefore(a[1..], b[1..]))
  }

  lemma {:induction false} InsertKeeps<T>(x: T, xs: seq<T>, before: (T, T) -> bool)
    ensures multiset(Insert(x, xs, before)) == multiset(xs) + multiset{x}
  {
    if xs != [] {
      assert xs == xs[..|xs| - 1] + [xs[|xs| - 1]];
      InsertKeeps(x, xs[..|xs| - 1], before);
    }
  }

  lemma {:induction false} SortedKeeps<T>(xs: seq<T>, before: (T, T) -> bool)
    ensures multiset(Sorted(xs, before)) == multiset(xs)
  {
    if xs != [] {
      assert xs == xs[..|xs| - 1] + [xs[|xs| - 1]];
      SortedKeeps(xs[..|xs| - 1], before);
      InsertKeeps(xs[|xs| - 1], Sorted(xs[..|xs| - 1], before), before);
    }
  }

  /** No element must precede the one before it. */
  ghost predicate InOrder<T(!new)>(xs: seq<T>, before: (T, T) -> bool)
  {
    forall i | 0 <= i < |xs| - 1 :: !before(xs[i + 1], xs[i])
  }

  lemma {:induction false} InsertOrders<T(!new)>(x: T, xs: seq<T>, before: (T, T) -> bool)
    requires InOrder(xs, before) && forall a, b :: before(a, b) ==> !before(b, a)
    ensures InOrder(Insert(x, xs, before), before)
    ensures var r := Insert(x, xs, before);
            r[|r| - 1] == x || (xs != [] && r[|r| - 1] == xs[|xs| - 1])
  {
    if xs != [] && before(x, xs[|xs| - 1]) {
      InsertOrders(x, xs[..|xs| - 1], before);
    }
  }

  lemma {:induction false} SortedOrders<T(!new)>(xs: seq<T>, before: (T, T) -> bool)
    requires forall a, b :: before(a, b) ==> !before(b, a)
    ensures InOrder(Sorted(xs, before), before)
  {
    if xs != [] {
      SortedOrders(xs[..|xs| - 1], before);
      InsertOrders(xs[|xs| - 1], Sorted(xs[..|xs| - 1], before), before);
    }
  }

  /** Sorting moves nothing that is in order already, so elements that tie keep their order. */
  lemma {:induction false} SortedLeavesOrdered<T(!new)>(xs: seq<T>, before: (T, T) -> bool)
    requires InOrder(xs, before)
    ensures Sorted(xs, before) == xs
  {
    if xs != [] {
      var n := |xs| - 1;
      SortedLeavesOrdered(xs[..n], before);
      assert n > 0 ==> !before(xs[n - 1 + 1], xs[n - 1]);
      assert xs == xs[..n] + [xs[n]];
    }
  }

  // ----------------------------------------------------- order at a distance

  ghost predicate OrderedThroughout<T(!new)>(xs: seq<T>, before: (T, T) -> bool)
  {
    forall i, j | 0 <= i < j < |xs| :: !before(xs[j], xs[i])
  }

  /** When "must not precede" is transitive, neighbours in order mean everything in order. */
  lemma {:induction false} NeighboursSuffice<T(!new)>(xs: seq<T>, before: (T, T) -> bool)
    requires InOrder(xs, before)
    requires forall a, b, c | a in xs && b in xs && c in xs && !before(b, a) && !before(c, b) :: !before(c, a)
    ensures OrderedThroughout(xs, before)
  {
    if |xs| > 1 {
      var n := |xs| - 1;
      assert forall x | x in xs[..n] :: x in xs;
      NeighboursSuffice(xs[..n], before);
      assert !before(xs[n - 1 + 1], xs[n - 1]);
      forall i | 0 <= i < n ensures !before(xs[n], xs[i])
      {
        assert i < n - 1 ==> !before(xs[..n][n - 1], xs[..n][i]);
      }
    }
  }

  lemma {:induction false} DistinctOccurOnce<T>(xs: seq<T>, x: T)
    requires forall i, j | 0 <= i < j < |xs| :: xs[i] != xs[j]
    ensures multiset(xs)[x] <= 1
  {
    if xs != [] {
      var n := |xs| - 1;
      assert xs == xs[..n] + [xs[n]];
      DistinctOccurOnce(xs[..n], x);
      if x == xs[n] {
        assert x !in xs[..n];
      }
    }
  }

  /** Sorting distinct elements gives distinct elements. */
  lemma SortedIsDistinct<T>(xs: seq<T>, before: (T, T) -> bool)
    requires forall i, j | 0 <= i < j < |xs| :: xs[i] != xs[j]
    ensures var r := Sorted(xs, before); forall i, j | 0 <= i < j < |r| :: r[i] != r[j]
  {
    var r := Sorted(xs, before);
    SortedKeeps(xs, before);
    hide Sorted;
    forall i, j | 0 <= i < j < |r| ensures r[i] != r[j]
    {
      DistinctOccurOnce(xs, r[i]);
      assert r == r[..j] + r[j..];
      assert r[i] in r[..j] && r[j] in r[j..];
    }
  }

  // ---------------------------------------------------------------- strings

  /** The strings agree on their first k characters, where a ends or has the smaller character. */
  ghost predicate PartAt(a: string, b: string, k: nat)
  {
    k <= |a| && k < |b| && (forall i | 0 <= i < k :: a[i] == b[i]) && (k == |a| || a[k] < b[k])
  }

  /** One string is before another exactly when it is a proper prefix or smaller where they first differ. */
  lemma {:induction false} TextBeforeMeaning(a: string, b: string)
    ensures TextBefore(a, b) <==> exists k: nat :: PartAt(a, b, k)
  {
    if b == "" {
    } else if a == "" {
      assert PartAt(a, b, 0);
    } else {
      TextBeforeMeaning(a[1..], b[1..]);
      if a[0] == b[0] {
        assert forall k: nat :: PartAt(a[1..], b[1..], k) ==> PartAt(a, b, k + 1);
        assert forall k: nat | k > 0 :: PartAt(a, b, k) ==> PartAt(a[1..], b[1..], k - 1);
      } else if a[0] < b[0] {
        assert PartAt(a, b, 0);
      }
    }
  }

  lemma {:induction false} TextBeforeIsTotal(a: string, b: string)
    requires a != b
    ensures TextBefore(a, b) || TextBefore(b, a)
  {
    if a != "" && b != "" && a[0] == b[0] {
      assert a == [a[0]] + a[1..] && b == [b[0]] + b[1..];
      TextBeforeIsTotal(a[1..], b[1..]);
    }
  }

  lemma {:induction false} TextBeforeIsAsymmetric(a: string, b: string)
    ensures TextBefore(a, b) ==> !TextBefore(b, a)
  {
    if a != "" && b != "" {
      TextBeforeIsAsymmetric(a[1..], b[1..]);
    }
  }

  lemma {:induction false} TextNotBeforeIsTransitive(a: string, b: string, c: string)
    requires !TextBefore(b, a) && !TextBefore(c, b)
    ensures !TextBefore(c, a)
  {
    if a != "" && b != "" && c != "" && a[0] == b[0] == c[0] {
      TextNotBeforeIsTransitive(a[1..], b[1..], c[1..]);
    }
  }
}
