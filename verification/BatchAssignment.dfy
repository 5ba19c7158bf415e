/** Greedy assignment of profiles to batches: strata from small to large, hardest members first, each
    to the least-loaded batch with room under a lexicographic rank. */
module BatchAssignment {
  import opened Contracts
  import opened BatchPlan
  import opened Sorting

  /** The profiles of one family and band; never empty. */
  type Stratum = seq<Profile>

  // ------------------------------------------------------------------ order

  /** Family and band compare by name: editing before generation, complex before moderate before simple. */
  function KeyRank(k: Key): nat
  {
    (if k.family.Editing? then 0 else 3) + (if k.band.Complex? then 0 else if k.band.Moderate? then 1 else 2)
  }

  function KeyOf(s: Stratum): Key
  {
    if s == [] then Key(Editing, Simple) else s[0].key
  }

  predicate StratumBefore(a: Stratum, b: Stratum)
  {
    |a| < |b| || (|a| == |b| && KeyRank(KeyOf(a)) < KeyRank(KeyOf(b)))
  }

  predicate ProfileBefore(a: Profile, b: Profile)
  {
    a.score > b.score || (a.score == b.score && TextBefore(a.taskId, b.taskId))
  }

  // --------------------------------------------------------------- counting

  function Count(batch: seq<Profile>, p: Profile -> bool): nat
  {
    if batch == [] then 0
    else Count(batch[..|batch| - 1], p) + (if p(batch[|batch| - 1]) then 1 else 0)
  }

  function OfKey(k: Key): Profile -> bool { (x: Profile) => x.key == k }
  function OfFamily(f: Family): Profile -> bool { (x: Profile) => x.key.family == f }
  function OfBand(b: Band): Profile -> bool { (x: Profile) => x.key.band == b }

  function Score(batch: seq<Profile>): real
  {
    if batch == [] then 0.0 else Score(batch[..|batch| - 1]) + batch[|batch| - 1].score
  }

  lemma CountAppend(batch: seq<Profile>, x: Profile, p: Profile -> bool)
    ensures Count(batch + [x], p) == Count(batch, p) + (if p(x) then 1 else 0)
  {
    assert (batch + [x])[..|batch|] == batch;
  }

  lemma {:induction false} CountNone(batch: seq<Profile>, p: Profile -> bool)
    requires forall x | x in batch :: !p(x)
    ensures Count(batch, p) == 0
  {
    if batch != [] {
      CountNone(batch[..|batch| - 1], p);
    }
  }

  // ------------------------------------------------------------------- rank

  datatype Rank = Rank(sameStratum: nat, sameFamily: nat, sameBand: nat, size: nat, score: real, rotated: int)

  predicate Below(a: Rank, b: Rank)
  {
    if a.sameStratum != b.sameStratum then a.sameStratum < b.sameStratum
    else if a.sameFamily != b.sameFamily then a.sameFamily < b.sameFamily
    else if a.sameBand != b.sameBand then a.sameBand < b.sameBand
    else if a.size != b.size then a.size < b.size
    else if a.score != b.score then a.score < b.score
    else a.rotated < b.rotated
  }

  function RankOf(batches: Batches, key: Key, offset: int, index: nat): Rank
    requires index < |batches|
  {
    var batch := batches[index];
    Rank(Count(batch, OfKey(key)), Count(batch, OfFamily(key.family)), Count(batch, OfBand(key.band)), |batch|,
         Score(batch), (index - offset) % |batches|)
  }

  predicate HasRoom(batches: Batches, capacities: seq<nat>, index: nat)
  {
    index < |batches| && index < |capacities| && |batches[index]| < capacities[index]
  }

  /** The batch with room that no other batch with room ranks below. */
  ghost predicate IsSelected(batches: Batches, capacities: seq<nat>, key: Key, offset: int, selected: nat)
  {
    && HasRoom(batches, capacities, selected)
    && forall i: nat | HasRoom(batches, capacities, i) ::
         !Below(RankOf(batches, key, offset, i), RankOf(batches, key, offset, selected))
  }

  ghost predicate Full(batches: Batches, capacities: seq<nat>)
  {
    forall i: nat :: !HasRoom(batches, capacities, i)
  }

  /** `min` over the eligible batches, or None when there is none. */
  method Select(batches: Batches, capacities: seq<nat>, key: Key, offset: int) returns (selected: Option<nat>)
    requires |batches| == |capacities|
    ensures selected.None? <==> Full(batches, capacities)
    ensures selected.Some? ==> IsSelected(batches, capacities, key, offset, selected.value)
  {
    selected := None;
    for i := 0 to |batches|
      invariant selected.None? ==> forall j: nat | j < i :: !HasRoom(batches, capacities, j)
      invariant selected.Some? ==> HasRoom(batches, capacities, selected.value)
      invariant selected.Some? ==> forall j: nat | j < i && HasRoom(batches, capacities, j) ::
                  !Below(RankOf(batches, key, offset, j), RankOf(batches, key, offset, selected.value))
    {
      hide RankOf;
      if |batches[i]| < capacities[i] {
        assert HasRoom(batches, capacities, i);
        if selected.None? || Below(RankOf(batches, key, offset, i), RankOf(batches, key, offset, selected.value)) {
          selected := Some(i);
        }
      }
    }
  }

  /** The choice does not depend on the order in which batches are compared. */
  lemma SelectionIsUnique(batches: Batches, capacities: seq<nat>, key: Key, offset: int, i: nat, j: nat)
    requires |batches| == |capacities|
    requires IsSelected(batches, capacities, key, offset, i) && IsSelected(batches, capacities, key, offset, j)
    ensures i == j
  {
    RotationIsInjective(|batches|, offset, i, j);
    hide Count, Score;
  }

  // ------------------------------------------------- what the choice means

  ghost function InStratum(batch: seq<Profile>, key: Key): set<nat>
  {
    set n: nat | n < |batch| && batch[n].key.family == key.family && batch[n].key.band == key.band
  }

  ghost function InFamily(batch: seq<Profile>, family: Family): set<nat>
  {
    set n: nat | n < |batch| && batch[n].key.family == family
  }

  ghost function InBand(batch: seq<Profile>, band: Band): set<nat>
  {
    set n: nat | n < |batch| && batch[n].key.band == band
  }

  ghost function CountedBy(batch: seq<Profile>, p: Profile -> bool): set<nat>
  {
    set n: nat | n < |batch| && p(batch[n])
  }

  lemma {:induction false} CountIsCardinality(batch: seq<Profile>, p: Profile -> bool)
    ensures Count(batch, p) == |CountedBy(batch, p)|
  {
    if batch != [] {
      var last := |batch| - 1;
      CountIsCardinality(batch[..last], p);
      assert CountedBy(batch, p) == CountedBy(batch[..last], p) + (if p(batch[last]) then {last} else {});
    }
  }

  /** The score of a batch is the sum of its members' scores. */
  lemma ScoreAddsUp(batch: seq<Profile>, x: Profile)
    ensures Score([]) == 0.0 && Score(batch + [x]) == Score(batch) + x.score
  {
    assert (batch + [x])[..|batch|] == batch;
  }

  /** Batch i is the better place: it holds fewer of the stratum; on a tie fewer of the family, then fewer of
      the band, then fewer members, then the lower score, then it comes first counting from the offset. */
  ghost predicate Better(batches: Batches, key: Key, offset: int, i: nat, j: nat)
    requires i < |batches| && j < |batches|
  {
    var a, b, n := batches[i], batches[j], |batches|;
    var strata, families := |InStratum(a, key)| - |InStratum(b, key)|,
                            |InFamily(a, key.family)| - |InFamily(b, key.family)|;
    var bands, sizes := |InBand(a, key.band)| - |InBand(b, key.band)|, |a| - |b|;
    || strata < 0
    || (strata == 0 && families < 0)
    || (strata == 0 && families == 0 && bands < 0)
    || (strata == 0 && families == 0 && bands == 0 && sizes < 0)
    || (strata == 0 && families == 0 && bands == 0 && sizes == 0 && Score(a) < Score(b))
    || (strata == 0 && families == 0 && bands == 0 && sizes == 0 && Score(a) == Score(b)
        && (i - offset) % n < (j - offset) % n)
  }

  lemma CountsAreCardinalities(batch: seq<Profile>, key: Key)
    ensures Count(batch, OfKey(key)) == |InStratum(batch, key)|
    ensures Count(batch, OfFamily(key.family)) == |InFamily(batch, key.family)|
    ensures Count(batch, OfBand(key.band)) == |InBand(batch, key.band)|
  {
    CountIsCardinality(batch, OfKey(key));
    CountIsCardinality(batch, OfFamily(key.family));
    CountIsCardinality(batch, OfBand(key.band));
    hide Count;
    assert CountedBy(batch, OfKey(key)) == InStratum(batch, key);
    assert CountedBy(batch, OfFamily(key.family)) == InFamily(batch, key.family);
    assert CountedBy(batch, OfBand(key.band)) == InBand(batch, key.band);
  }

  lemma BelowIsBetter(batches: Batches, key: Key, offset: int, i: nat, j: nat)
    requires i < |batches| && j < |batches|
    ensures Below(RankOf(batches, key, offset, i), RankOf(batches, key, offset, j))
            <==> Better(batches, key, offset, i, j)
  {
    CountsAreCardinalities(batches[i], key);
    CountsAreCardinalities(batches[j], key);
    hide Count, Score, InStratum, InFamily, InBand, OfKey, OfFamily, OfBand;
  }

  /** A batch is chosen exactly when it is below its capacity and no batch below its own capacity is better. */
  lemma SelectedMeaning(batches: Batches, capacities: seq<nat>, key: Key, offset: int, selected: nat)
    requires |batches| == |capacities|
    ensures var free := set i: nat | i < |batches| && |batches[i]| < capacities[i];
      IsSelected(batches, capacities, key, offset, selected)
      <==> selected in free && forall i | i in free :: !Better(batches, key, offset, i, selected)
  {
    hide Below, RankOf, Better;
    var free := set i: nat | i < |batches| && |batches[i]| < capacities[i];
    assert forall i: nat :: HasRoom(batches, capacities, i) <==> i in free;
    forall i: nat | i in free && selected < |batches|
      ensures Below(RankOf(batches, key, offset, i), RankOf(batches, key, offset, selected))
              <==> Better(batches, key, offset, i, selected)
    {
      BelowIsBetter(batches, key, offset, i, selected);
    }
  }

  lemma RotationIsInjective(n: nat, offset: int, i: nat, j: nat)
    requires i < n && j < n && (i - offset) % n == (j - offset) % n
    ensures i == j
  {
    var a, b := (i - offset) / n, (j - offset) / n;
    assert i - offset == a * n + (i - offset) % n;
    assert j - offset == b * n + (j - offset) % n;
    assert (a - b) * n == a * n - b * n;
    CancelLt(a - b, 1, n);
    CancelLt(-1, a - b, n);
  }

  // ---------------------------------------------------------------- placing

  function TotalSize(batches: Batches): nat
  {
    if batches == [] then 0 else TotalSize(batches[..|batches| - 1]) + |batches[|batches| - 1]|
  }

  /** Every profile in every batch. */
  function Contents(batches: Batches): multiset<Profile>
  {
    if batches == [] then multiset{} else Contents(batches[..|batches| - 1]) + multiset(batches[|batches| - 1])
  }

  ghost predicate Fits(batches: Batches, capacities: seq<nat>)
  {
    |batches| == |capacities| && forall i | 0 <= i < |batches| :: |batches[i]| <= capacities[i]
  }

  /** One placement: the profile is appended to the selected batch and nothing else changes. */
  ghost predicate Placed(before: Batches, capacities: seq<nat>, x: Profile, offset: int, after: Batches)
  {
    exists i: nat :: IsSelected(before, capacities, x.key, offset, i)
                     && after == before[i := before[i] + [x]]
  }

  /** The placements of the members of one stratum, in order. */
  ghost predicate IsPlacement(states: seq<Batches>, capacities: seq<nat>, members: seq<Profile>, offset: int)
  {
    && |states| == |members| + 1
    && forall k | 0 <= k < |members| :: Placed(states[k], capacities, members[k], offset, states[k + 1])
  }

  lemma {:induction false} ContentsUpdate(batches: Batches, i: nat, x: Profile)
    requires i < |batches|
    ensures Contents(batches[i := batches[i] + [x]]) == Contents(batches) + multiset{x}
    ensures TotalSize(batches[i := batches[i] + [x]]) == TotalSize(batches) + 1
  {
    var updated, last := batches[i := batches[i] + [x]], |batches| - 1;
    if i == last {
      assert updated[..last] == batches[..last];
    } else {
      ContentsUpdate(batches[..last], i, x);
      assert updated[..last] == batches[..last][i := batches[i] + [x]];
    }
  }

  lemma {:induction false} RoomUnlessFull(batches: Batches, capacities: seq<nat>)
    requires Fits(batches, capacities)
    ensures TotalSize(batches) <= SumOf(capacities)
    ensures Full(batches, capacities) <==> TotalSize(batches) == SumOf(capacities)
    ensures Full(batches, capacities) <==> forall i | 0 <= i < |batches| :: |batches[i]| == capacities[i]
  {
    if batches != [] {
      var last := |batches| - 1;
      RoomUnlessFull(batches[..last], capacities[..last]);
      assert forall i: nat | i < last ::
          HasRoom(batches, capacities, i) <==> HasRoom(batches[..last], capacities[..last], i);
      assert HasRoom(batches, capacities, last) <==> |batches[last]| < capacities[last];
      assert forall i | 0 <= i < last :: |batches[..last][i]| == |batches[i]|;
    }
  }

  lemma PlacedKeeps(before: Batches, capacities: seq<nat>, x: Profile, offset: int, after: Batches)
    requires Fits(before, capacities) && Placed(before, capacities, x, offset, after)
    ensures Fits(after, capacities)
    ensures Contents(after) == Contents(before) + multiset{x} && TotalSize(after) == TotalSize(before) + 1
    ensures forall i | 0 <= i < |before| :: before[i] <= after[i]
  {
    var i: nat :| IsSelected(before, capacities, x.key, offset, i) && after == before[i := before[i] + [x]];
    ContentsUpdate(before, i, x);
  }

  // ---------------------------------------------------------------- balance

  function CountOf(batches: Batches, i: nat, key: Key): nat
    requires i < |batches|
  {
    Count(batches[i], OfKey(key))
  }

  /** Batch b holds at most one member fewer of the stratum than batch a, unless b is full. */
  ghost predicate Level(batches: Batches, capacities: seq<nat>, key: Key, a: nat, b: nat)
    requires a < |batches| && b < |batches|
  {
    CountOf(batches, a, key) <= CountOf(batches, b, key) + 1 || !HasRoom(batches, capacities, b)
  }

  ghost predicate Balanced(batches: Batches, capacities: seq<nat>, key: Key)
  {
    forall a: nat, b: nat | a < |batches| && b < |batches| :: Level(batches, capacities, key, a, b)
  }

  lemma SelectedHasFewest(batches: Batches, capacities: seq<nat>, key: Key, offset: int, i: nat, b: nat)
    requires IsSelected(batches, capacities, key, offset, i) && HasRoom(batches, capacities, b)
    ensures CountOf(batches, i, key) <= CountOf(batches, b, key)
  {
    hide Count, Score;
  }

  /** Placing a member keeps its stratum balanced. */
  lemma PlacedKeepsBalance(before: Batches, capacities: seq<nat>, x: Profile, offset: int, after: Batches)
    requires Placed(before, capacities, x, offset, after) && Balanced(before, capacities, x.key)
    requires |before| == |capacities|
    ensures Balanced(after, capacities, x.key)
  {
    var i: nat :| IsSelected(before, capacities, x.key, offset, i) && after == before[i := before[i] + [x]];
    CountAppend(before[i], x, OfKey(x.key));
    hide IsSelected, Count;
    forall a: nat, b: nat | a < |after| && b < |after| ensures Level(after, capacities, x.key, a, b)
    {
      assert Level(before, capacities, x.key, a, b);
      if a == i && b != i && HasRoom(before, capacities, b) {
        SelectedHasFewest(before, capacities, x.key, offset, i, b);
      }
    }
  }

  /** Placing a member of another stratum keeps this one balanced. */
  lemma PlacedElsewhereKeepsBalance(before: Batches, capacities: seq<nat>, x: Profile, offset: int, after: Batches,
                                    key: Key)
    requires Placed(before, capacities, x, offset, after) && Balanced(before, capacities, key) && x.key != key
    requires |before| == |capacities|
    ensures Balanced(after, capacities, key)
  {
    var i: nat :| IsSelected(before, capacities, x.key, offset, i) && after == before[i := before[i] + [x]];
    CountAppend(before[i], x, OfKey(key));
    hide IsSelected, Count;
    forall a: nat, b: nat | a < |after| && b < |after| ensures Level(after, capacities, key, a, b)
    {
      assert Level(before, capacities, key, a, b);
    }
  }

  // ----------------------------------------------------------------- strata

  ghost predicate Uniform(s: Stratum)
  {
    s != [] && forall x | x in s :: x.key == s[0].key
  }

  function Keys(strata: Batches): set<Key>
  {
    set s | s in strata :: KeyOf(s)
  }

  predicate DistinctKeys(strata: Batches)
  {
    strata != [] ==>
      var rest := strata[..|strata| - 1];
      KeyOf(strata[|strata| - 1]) !in Keys(rest) && DistinctKeys(rest)
  }

  ghost predicate AreStrata(strata: Batches)
  {
    DistinctKeys(strata) && forall s | s in strata :: Uniform(s)
  }

  lemma KeysAppend(strata: Batches, s: Stratum)
    ensures Keys(strata + [s]) == Keys(strata) + {KeyOf(s)}
    ensures DistinctKeys(strata + [s]) <==> DistinctKeys(strata) && KeyOf(s) !in Keys(strata)
    ensures Contents(strata + [s]) == Contents(strata) + multiset(s)
  {
    assert (strata + [s])[..|strata|] == strata;
    assert forall k :: k in Keys(strata + [s]) <==> k in Keys(strata) || k == KeyOf(s);
  }

  lemma {:induction false} InsertStratum(s: Stratum, strata: Batches)
    requires DistinctKeys(strata) && KeyOf(s) !in Keys(strata)
    ensures var r := Insert(s, strata, StratumBefore);
            DistinctKeys(r) && Keys(r) == Keys(strata) + {KeyOf(s)} && Contents(r) == Contents(strata) + multiset(s)
  {
    hide Keys, DistinctKeys, Contents, StratumBefore, KeyOf;
    KeysAppend(strata, s);
    if strata == [] {
      assert strata + [s] == [s];
    } else {
      var rest, last := strata[..|strata| - 1], strata[|strata| - 1];
      assert strata == rest + [last];
      KeysAppend(rest, last);
      if StratumBefore(s, last) {
        InsertStratum(s, rest);
        KeysAppend(Insert(s, rest, StratumBefore), last);
      }
    }
  }

  /** Sorting the strata keeps what they contain and that they are strata. */
  lemma {:induction false} SortedStrata(strata: Batches)
    requires DistinctKeys(strata)
    ensures var r := Sorted(strata, StratumBefore);
            DistinctKeys(r) && Keys(r) == Keys(strata) && Contents(r) == Contents(strata)
  {
    if strata != [] {
      var rest, last := strata[..|strata| - 1], strata[|strata| - 1];
      assert strata == rest + [last];
      KeysAppend(rest, last);
      SortedStrata(rest);
      InsertStratum(last, Sorted(rest, StratumBefore));
    }
  }

  lemma StratumUpdate(strata: Batches, i: nat, x: Profile)
    requires i < |strata| && AreStrata(strata) && KeyOf(strata[i]) == x.key
    ensures var r := strata[i := strata[i] + [x]];
            AreStrata(r) && Keys(r) == Keys(strata) && Contents(r) == Contents(strata) + multiset{x}
  {
    var grown := strata[i] + [x];
    assert Uniform(strata[i]);
    assert forall y | y in grown :: y in strata[i] || y == x;
    assert grown[0] == strata[i][0];
    ContentsUpdate(strata, i, x);
    UpdateKeepsKeys(strata, i, grown);
    forall s | s in strata[i := grown] ensures Uniform(s)
    {
      assert s == grown || s in strata;
    }
  }

  lemma {:induction false} UpdateKeepsKeys(strata: Batches, i: nat, s: Stratum)
    requires i < |strata| && DistinctKeys(strata) && KeyOf(strata[i]) == KeyOf(s)
    ensures var r := strata[i := s]; Keys(r) == Keys(strata) && DistinctKeys(r)
  {
    var last := |strata| - 1;
    assert strata == strata[..last] + [strata[last]];
    KeysAppend(strata[..last], strata[last]);
    if i < last {
      UpdateKeepsKeys(strata[..last], i, s);
      assert strata[i := s] == strata[..last][i := s] + [strata[last]];
      KeysAppend(strata[..last][i := s], strata[last]);
    } else {
      assert strata[i := s] == strata[..last] + [s];
      KeysAppend(strata[..last], s);
    }
  }

  /** Groups profiles by family and band in order of first appearance. */
  method GroupByKey(profiles: seq<Profile>) returns (strata: Batches)
    ensures AreStrata(strata) && Contents(strata) == multiset(profiles)
  {
    strata := [];
    for n := 0 to |profiles|
      invariant AreStrata(strata) && Contents(strata) == multiset(profiles[..n])
    {
      var x := profiles[n];
      assert profiles[..n + 1] == profiles[..n] + [x];
      var i := 0;
      while i < |strata| && KeyOf(strata[i]) != x.key
        invariant 0 <= i <= |strata|
        invariant forall j | 0 <= j < i :: KeyOf(strata[j]) != x.key
      {
        i := i + 1;
      }
      if i < |strata| {
        StratumUpdate(strata, i, x);
        strata := strata[i := strata[i] + [x]];
      } else {
        KeysAppend(strata, [x]);
        strata := strata + [[x]];
      }
    }
    assert profiles[..|profiles|] == profiles;
  }

  // ------------------------------------------------------------ the planner

  /** Places the members of one stratum; None when the batches run out of room. */
  method PlaceStratum(start: Batches, capacities: seq<nat>, members: seq<Profile>, offset: int)
    returns (result: Option<Batches>, ghost states: seq<Batches>)
    requires Fits(start, capacities)
    ensures result.None? ==> TotalSize(start) + |members| > SumOf(capacities)
    ensures result.Some? ==> IsPlacement(states, capacities, members, offset)
    ensures result.Some? ==> states[0] == start && states[|members|] == result.value
    ensures result.Some? ==> Fits(result.value, capacities)
    ensures result.Some? ==> Contents(result.value) == Contents(start) + multiset(members)
    ensures result.Some? ==> TotalSize(result.value) == TotalSize(start) + |members|
  {
    var batches := start;
    states := [start];
    hide IsSelected, Contents, TotalSize;
    for n := 0 to |members|
      invariant |states| == n + 1 && states[0] == start && states[n] == batches
      invariant IsPlacement(states, capacities, members[..n], offset)
      invariant Fits(batches, capacities)
      invariant Contents(batches) == Contents(start) + multiset(members[..n])
      invariant TotalSize(batches) == TotalSize(start) + n
    {
      assert members[..n + 1] == members[..n] + [members[n]];
      var selected := Select(batches, capacities, members[n].key, offset);
      if selected.None? {
        RoomUnlessFull(batches, capacities);
        return None, states;
      }
      SelectedHasRoom(batches, capacities, members[n].key, offset, selected.value);
      var next := batches[selected.value := batches[selected.value] + [members[n]]];
      assert Placed(batches, capacities, members[n], offset, next);
      PlacedKeeps(batches, capacities, members[n], offset, next);
      states := states + [next];
      batches := next;
    }
    assert members[..|members|] == members;
    result := Some(batches);
  }

  lemma SelectedHasRoom(batches: Batches, capacities: seq<nat>, key: Key, offset: int, selected: nat)
    requires IsSelected(batches, capacities, key, offset, selected)
    ensures HasRoom(batches, capacities, selected)
  {
  }

  /** While a stratum is placed, after every single placement, any two batches' counts of it differ by
      at most one unless the batch with fewer is full. */
  lemma {:induction false} BalancedWhilePlacing(states: seq<Batches>, capacities: seq<nat>, members: seq<Profile>,
                                                offset: int, key: Key, k: nat)
    requires IsPlacement(states, capacities, members, offset) && k <= |members|
    requires Fits(states[0], capacities) && Balanced(states[0], capacities, key)
    ensures Fits(states[k], capacities) && Balanced(states[k], capacities, key)
  {
    if k > 0 {
      BalancedWhilePlacing(states, capacities, members, offset, key, k - 1);
      hide Balanced, Placed;
      assert Placed(states[k - 1], capacities, members[k - 1], offset, states[k - 1 + 1]);
      PlacedKeeps(states[k - 1], capacities, members[k - 1], offset, states[k]);
      if members[k - 1].key == key {
        PlacedKeepsBalance(states[k - 1], capacities, members[k - 1], offset, states[k]);
      } else {
        PlacedElsewhereKeepsBalance(states[k - 1], capacities, members[k - 1], offset, states[k], key);
      }
    }
  }

  lemma {:induction false} ContentsMember(batches: Batches, i: nat, x: Profile)
    requires i < |batches| && x in batches[i]
    ensures x in Contents(batches)
  {
    if i < |batches| - 1 {
      ContentsMember(batches[..|batches| - 1], i, x);
    }
  }

  lemma {:induction false} ContentsKeys(strata: Batches, x: Profile)
    requires (forall s | s in strata :: Uniform(s)) && x in Contents(strata)
    ensures x.key in Keys(strata)
  {
    var rest, last := strata[..|strata| - 1], strata[|strata| - 1];
    assert strata == rest + [last];
    KeysAppend(rest, last);
    if x in multiset(last) {
      assert Uniform(last) && x in last;
    } else {
      ContentsKeys(rest, x);
    }
  }

  /** A stratum none of whose key has been placed yet is balanced. */
  lemma FreshIsBalanced(batches: Batches, capacities: seq<nat>, placed: Batches, key: Key)
    requires Contents(batches) == Contents(placed) && (forall s | s in placed :: Uniform(s)) && key !in Keys(placed)
    ensures Balanced(batches, capacities, key)
  {
    forall a: nat | a < |batches| ensures CountOf(batches, a, key) == 0
    {
      forall x | x in batches[a] ensures x.key != key
      {
        ContentsMember(batches, a, x);
        ContentsKeys(placed, x);
      }
      CountNone(batches[a], OfKey(key));
    }
  }

  /** Batch b has at most one member fewer of the stratum than batch a, or was already full, with strata
      placed no later than this one, when a overtook it. */
  ghost predicate Settled(batches: Batches, capacities: seq<nat>, upTo: set<Key>, key: Key, a: nat, b: nat)
    requires a < |batches| && b < |batches|
  {
    || CountOf(batches, a, key) <= CountOf(batches, b, key) + 1
    || (!HasRoom(batches, capacities, b) && forall x | x in batches[b] :: x.key in upTo)
  }

  ghost predicate AllSettled(batches: Batches, capacities: seq<nat>, upTo: set<Key>, key: Key)
  {
    forall a: nat, b: nat | a < |batches| && b < |batches| :: Settled(batches, capacities, upTo, key, a, b)
  }

  lemma BalancedIsSettled(batches: Batches, capacities: seq<nat>, placed: Batches, key: Key)
    requires Contents(batches) == Contents(placed) && (forall s | s in placed :: Uniform(s))
    requires Balanced(batches, capacities, key)
    ensures AllSettled(batches, capacities, Keys(placed), key)
  {
    forall a: nat, b: nat | a < |batches| && b < |batches|
      ensures Settled(batches, capacities, Keys(placed), key, a, b)
    {
      assert Level(batches, capacities, key, a, b);
      forall x | x in batches[b] ensures x.key in Keys(placed)
      {
        ContentsMember(batches, b, x);
        ContentsKeys(placed, x);
      }
    }
  }

  /** Later placements of other strata leave a settled stratum settled. */
  lemma PlacedKeepsSettled(before: Batches, capacities: seq<nat>, x: Profile, offset: int, after: Batches,
                           upTo: set<Key>, key: Key)
    requires Placed(before, capacities, x, offset, after) && x.key != key && |before| == |capacities|
    requires AllSettled(before, capacities, upTo, key)
    ensures AllSettled(after, capacities, upTo, key)
  {
    var i: nat :| IsSelected(before, capacities, x.key, offset, i) && after == before[i := before[i] + [x]];
    CountAppend(before[i], x, OfKey(key));
    SelectedHasRoom(before, capacities, x.key, offset, i);
    hide IsSelected, Count;
    forall a: nat, b: nat | a < |after| && b < |after| ensures Settled(after, capacities, upTo, key, a, b)
    {
      assert Settled(before, capacities, upTo, key, a, b);
    }
  }

  lemma {:induction false} PlacementKeepsSettled(states: seq<Batches>, capacities: seq<nat>, members: seq<Profile>,
                                                 offset: int, upTo: set<Key>, key: Key, k: nat)
    requires IsPlacement(states, capacities, members, offset) && k <= |members|
    requires Fits(states[0], capacities) && AllSettled(states[0], capacities, upTo, key)
    requires forall x | x in members :: x.key != key
    ensures Fits(states[k], capacities) && AllSettled(states[k], capacities, upTo, key)
  {
    if k > 0 {
      PlacementKeepsSettled(states, capacities, members, offset, upTo, key, k - 1);
      hide AllSettled, Placed;
      assert Placed(states[k - 1], capacities, members[k - 1], offset, states[k - 1 + 1]);
      PlacedKeeps(states[k - 1], capacities, members[k - 1], offset, states[k]);
      PlacedKeepsSettled(states[k - 1], capacities, members[k - 1], offset, states[k], upTo, key);
    }
  }

  lemma {:induction false} ContentsSize(batches: Batches)
    ensures |Contents(batches)| == TotalSize(batches)
  {
    if batches != [] {
      ContentsSize(batches[..|batches| - 1]);
    }
  }

  lemma {:induction false} PrefixSize(batches: Batches, k: nat)
    requires k <= |batches|
    ensures TotalSize(batches[..k]) <= TotalSize(batches)
  {
    if k < |batches| {
      PrefixSize(batches[..|batches| - 1], k);
      assert batches[..|batches| - 1][..k] == batches[..k];
    } else {
      assert batches[..k] == batches;
    }
  }

  lemma {:induction false} EmptyBatches(batches: Batches)
    requires forall i | 0 <= i < |batches| :: batches[i] == []
    ensures Contents(batches) == multiset{} && TotalSize(batches) == 0
  {
    if batches != [] {
      EmptyBatches(batches[..|batches| - 1]);
    }
  }

  lemma {:induction false} DistinctAt(strata: Batches, s: nat)
    requires DistinctKeys(strata) && s < |strata|
    ensures KeyOf(strata[s]) !in Keys(strata[..s])
  {
    var last := |strata| - 1;
    if s < last {
      DistinctAt(strata[..last], s);
      assert strata[..last][..s] == strata[..s];
    }
  }

  /** The strata in placement order: sorted, and still the strata of the same profiles. */
  lemma OrderedStrata(strata: Batches)
    requires AreStrata(strata)
    ensures var r := Sorted(strata, StratumBefore);
            AreStrata(r) && Contents(r) == Contents(strata) && InOrder(r, StratumBefore)
  {
    var r := Sorted(strata, StratumBefore);
    SortedStrata(strata);
    SortedKeeps(strata, StratumBefore);
    SortedOrders(strata, StratumBefore);
    forall s | s in r ensures Uniform(s)
    {
      assert s in multiset(r);
    }
  }

  /** What is true of the batches once the first s strata are placed. */
  ghost predicate Progress(batches: Batches, capacities: seq<nat>, ordered: Batches, s: nat)
    requires s <= |ordered|
  {
    && Fits(batches, capacities) && Contents(batches) == Contents(ordered[..s])
    && forall t: nat | t < s :: AllSettled(batches, capacities, Keys(ordered[..t + 1]), KeyOf(ordered[t]))
  }

  lemma StratumKeepsProgress(states: seq<Batches>, capacities: seq<nat>, ordered: Batches, s: nat,
                             members: seq<Profile>, offset: int)
    requires AreStrata(ordered) && s < |ordered| && multiset(members) == multiset(ordered[s])
    requires IsPlacement(states, capacities, members, offset) && Progress(states[0], capacities, ordered, s)
    requires Fits(states[|members|], capacities)
    requires Contents(states[|members|]) == Contents(states[0]) + multiset(members)
    ensures Progress(states[|members|], capacities, ordered, s + 1)
  {
    var start, end, key := states[0], states[|members|], KeyOf(ordered[s]);
    forall x | x in members ensures x.key == key
    {
      assert x in multiset(ordered[s]) && Uniform(ordered[s]);
    }
    DistinctAt(ordered, s);
    assert ordered[..s + 1] == ordered[..s] + [ordered[s]];
    KeysAppend(ordered[..s], ordered[s]);
    hide Contents, Keys, IsPlacement, AllSettled, Balanced;
    FreshIsBalanced(start, capacities, ordered[..s], key);
    BalancedWhilePlacing(states, capacities, members, offset, key, |members|);
    BalancedIsSettled(end, capacities, ordered[..s + 1], key);
    forall t: nat | t < s + 1
      ensures AllSettled(end, capacities, Keys(ordered[..t + 1]), KeyOf(ordered[t]))
    {
      if t < s {
        EarlierKeyDiffers(ordered, t, s);
        PlacementKeepsSettled(states, capacities, members, offset, Keys(ordered[..t + 1]), KeyOf(ordered[t]),
                              |members|);
      }
    }
  }

  lemma EarlierKeyDiffers(strata: Batches, t: nat, s: nat)
    requires DistinctKeys(strata) && t < s < |strata|
    ensures KeyOf(strata[t]) != KeyOf(strata[s])
  {
    DistinctAt(strata, s);
    assert strata[t] in strata[..s];
  }

  // ------------------------------------------------- the whole assignment

  function NoBatches(n: nat): Batches
  {
    seq(n, _ => [])
  }

  /** The batches before stratum t is placed. */
  function StartOf(runs: seq<seq<Batches>>, capacities: seq<nat>, t: nat): Batches
  {
    if 0 < t <= |runs| && runs[t - 1] != [] then runs[t - 1][|runs[t - 1]| - 1] else NoBatches(|capacities|)
  }

  /** Stratum t is placed hardest member first, with its own rotation, from where the previous one ended. */
  ghost predicate IsRunOf(runs: seq<seq<Batches>>, capacities: seq<nat>, ordered: Batches, t: nat)
  {
    && t < |runs| && t < |ordered| && |capacities| > 0
    && IsPlacement(runs[t], capacities, Sorted(ordered[t], ProfileBefore), t % |capacities|)
    && runs[t][0] == StartOf(runs, capacities, t)
  }

  ghost predicate IsAssignment(runs: seq<seq<Batches>>, capacities: seq<nat>, ordered: Batches)
  {
    forall t: nat | t < |runs| :: IsRunOf(runs, capacities, ordered, t)
  }

  lemma ExtendAssignment(runs: seq<seq<Batches>>, capacities: seq<nat>, ordered: Batches, states: seq<Batches>)
    requires IsAssignment(runs, capacities, ordered) && |runs| < |ordered| && |capacities| > 0
    requires IsPlacement(states, capacities, Sorted(ordered[|runs|], ProfileBefore), |runs| % |capacities|)
    requires states[0] == StartOf(runs, capacities, |runs|)
    ensures IsAssignment(runs + [states], capacities, ordered)
    ensures StartOf(runs + [states], capacities, |runs| + 1) == states[|Sorted(ordered[|runs|], ProfileBefore)|]
  {
    hide IsPlacement, Sorted;
    var more := runs + [states];
    forall t: nat | t < |more| ensures IsRunOf(more, capacities, ordered, t)
    {
      assert t < |runs| ==> IsRunOf(runs, capacities, ordered, t) && more[t] == runs[t];
      assert t <= |runs| ==> StartOf(more, capacities, t) == StartOf(runs, capacities, t);
    }
    assert |states| == |Sorted(ordered[|runs|], ProfileBefore)| + 1 by {
      PlacementLength(states, capacities, Sorted(ordered[|runs|], ProfileBefore), |runs| % |capacities|);
    }
  }

  lemma PlacementLength(states: seq<Batches>, capacities: seq<nat>, members: seq<Profile>, offset: int)
    requires IsPlacement(states, capacities, members, offset)
    ensures |states| == |members| + 1
  {
  }

  lemma NoBatchesBalanced(capacities: seq<nat>, key: Key)
    ensures Fits(NoBatches(|capacities|), capacities) && Balanced(NoBatches(|capacities|), capacities, key)
  {
  }

  /** At every moment of the whole assignment, after every single placement, every stratum is level: any
      two batches' counts of it differ by at most one unless the one with fewer is full. */
  lemma {:induction false} BalancedThroughout(runs: seq<seq<Batches>>, capacities: seq<nat>, ordered: Batches,
                                              t: nat, k: nat, key: Key)
    requires IsAssignment(runs, capacities, ordered) && t < |runs| && k < |runs[t]|
    ensures Fits(runs[t][k], capacities) && Balanced(runs[t][k], capacities, key)
    decreases t
  {
    assert IsRunOf(runs, capacities, ordered, t);
    PlacementLength(runs[t], capacities, Sorted(ordered[t], ProfileBefore), t % |capacities|);
    hide IsPlacement, Balanced, Sorted;
    if t == 0 {
      NoBatchesBalanced(capacities, key);
    } else {
      assert IsRunOf(runs, capacities, ordered, t - 1);
      PlacementLength(runs[t - 1], capacities, Sorted(ordered[t - 1], ProfileBefore), (t - 1) % |capacities|);
      BalancedThroughout(runs, capacities, ordered, t - 1, |runs[t - 1]| - 1, key);
    }
    BalancedWhilePlacing(runs[t], capacities, Sorted(ordered[t], ProfileBefore), t % |capacities|, key, k);
  }

  /** Assigns every profile to a batch. The plan exists exactly when the capacities suffice; it is a
      permutation of the profiles within capacity, and every stratum, in placement order, ends up level:
      a batch falls two behind another only if it was already full of strata placed no later. */
  method AssignBatches(profiles: seq<Profile>, capacities: seq<nat>)
    returns (result: Option<Batches>, ghost ordered: Batches, ghost runs: seq<seq<Batches>>)
    ensures result.None? <==> |profiles| > SumOf(capacities)
    ensures AreStrata(ordered) && InOrder(ordered, StratumBefore) && Contents(ordered) == multiset(profiles)
    ensures result.Some? ==> Contents(result.value) == multiset(profiles)
    ensures result.Some? ==> Progress(result.value, capacities, ordered, |ordered|)
    ensures result.Some? ==> IsAssignment(runs, capacities, ordered) && |runs| == |ordered|
    ensures result.Some? ==> result.value == StartOf(runs, capacities, |ordered|)
  {
    var strata := GroupByKey(profiles);
    OrderedStrata(strata);
    var inOrder := Sorted(strata, StratumBefore);
    ordered := inOrder;
    ContentsSize(ordered);
    var batches := NoBatches(|capacities|);
    EmptyBatches(batches);
    runs := [];
    NothingPlaced(capacities, ordered);
    hide Sorted, IsPlacement, AreStrata, InOrder, Contents, TotalSize, SumOf, Progress, IsAssignment, StartOf;
    for s := 0 to |inOrder|
      invariant Progress(batches, capacities, ordered, s) && TotalSize(batches) == TotalSize(ordered[..s])
      invariant IsAssignment(runs, capacities, ordered) && |runs| == s && StartOf(runs, capacities, s) == batches
    {
      ProgressFits(batches, capacities, ordered, s);
      var members := Sorted(inOrder[s], ProfileBefore);
      SortedKeeps(inOrder[s], ProfileBefore);
      PrefixSize(ordered, s + 1);
      MembersSize(ordered, s, members);
      var offset := if |batches| == 0 then 0 else s % |batches|;
      var placed, states := PlaceStratum(batches, capacities, members, offset);
      if placed.None? {
        return None, ordered, runs;
      }
      StratumKeepsProgress(states, capacities, ordered, s, members, offset);
      MembersNeedABatch(placed.value, capacities, members);
      ExtendAssignment(runs, capacities, ordered, states);
      runs := runs + [states];
      batches := placed.value;
    }
    assert ordered[..|ordered|] == ordered;
    ProgressFits(batches, capacities, ordered, |ordered|);
    RoomUnlessFull(batches, capacities);
    result := Some(batches);
  }

  lemma ProgressFits(batches: Batches, capacities: seq<nat>, ordered: Batches, s: nat)
    requires s <= |ordered| && Progress(batches, capacities, ordered, s)
    ensures Fits(batches, capacities) && Contents(batches) == Contents(ordered[..s])
  {
  }

  lemma NothingPlaced(capacities: seq<nat>, ordered: Batches)
    ensures Progress(NoBatches(|capacities|), capacities, ordered, 0) && TotalSize(ordered[..0]) == 0
    ensures IsAssignment([], capacities, ordered) && StartOf([], capacities, 0) == NoBatches(|capacities|)
  {
    EmptyBatches(NoBatches(|capacities|));
  }

  lemma MembersNeedABatch(batches: Batches, capacities: seq<nat>, members: seq<Profile>)
    requires Fits(batches, capacities) && TotalSize(batches) >= |members| > 0
    ensures |capacities| > 0
  {
  }

  lemma MembersSize(ordered: Batches, s: nat, members: seq<Profile>)
    requires s < |ordered| && multiset(members) == multiset(ordered[s]) && AreStrata(ordered)
    ensures |members| == |ordered[s]| > 0 && TotalSize(ordered[..s + 1]) == TotalSize(ordered[..s]) + |members|
  {
    assert |multiset(members)| == |members|;
    assert Uniform(ordered[s]);
    assert ordered[..s + 1][..s] == ordered[..s];
  }

  /** Capacities that hold every task exactly are filled exactly. */
  lemma ExactCapacitiesAreFilled(batches: Batches, capacities: seq<nat>, profiles: seq<Profile>)
    requires Fits(batches, capacities) && Contents(batches) == multiset(profiles) && SumOf(capacities) == |profiles|
    ensures forall i | 0 <= i < |batches| :: |batches[i]| == capacities[i]
  {
    ContentsSize(batches);
    RoomUnlessFull(batches, capacities);
  }

  // ------------------------------------------------------- placement order

  lemma NotBeforeIsTransitive(a: Profile, b: Profile, c: Profile)
    requires !ProfileBefore(b, a) && !ProfileBefore(c, b)
    ensures !ProfileBefore(c, a)
  {
    if a.score == b.score == c.score {
      TextNotBeforeIsTransitive(a.taskId, b.taskId, c.taskId);
    }
  }

  /** Members are placed from the highest score down, equal scores by id. */
  lemma HardestFirst(members: seq<Profile>, i: nat, j: nat)
    requires i < j < |Sorted(members, ProfileBefore)|
    ensures var r := Sorted(members, ProfileBefore);
      r[i].score > r[j].score || (r[i].score == r[j].score && !TextBefore(r[j].taskId, r[i].taskId))
  {
    var r := Sorted(members, ProfileBefore);
    forall a, b ensures ProfileBefore(a, b) ==> !ProfileBefore(b, a)
    {
      TextBeforeIsAsymmetric(a.taskId, b.taskId);
    }
    SortedOrders(members, ProfileBefore);
    forall a, b, c | a in r && b in r && c in r && !ProfileBefore(b, a) && !ProfileBefore(c, b)
      ensures !ProfileBefore(c, a)
    {
      NotBeforeIsTransitive(a, b, c);
    }
    hide Sorted;
    NeighboursSuffice(r, ProfileBefore);
    assert !ProfileBefore(r[j], r[i]);
  }

  ghost function FamilyName(f: Family): string
  {
    match f
    case Editing => "editing"
    case Generation => "generation"
  }

  ghost function BandName(b: Band): string
  {
    match b
    case Simple => "simple"
    case Moderate => "moderate"
    case Complex => "complex"
  }

  /** Keys compare by the name of the family, then by the name of the band. */
  ghost predicate NamedBefore(a: Key, b: Key)
  {
    || TextBefore(FamilyName(a.family), FamilyName(b.family))
    || (a.family == b.family && TextBefore(BandName(a.band), BandName(b.band)))
  }

  lemma KeyRankIsByName(a: Key, b: Key)
    ensures KeyRank(a) < KeyRank(b) <==> NamedBefore(a, b)
  {
  }

  /** Strata are placed from the smallest up, equal sizes by the names of family and band. */
  lemma SmallestFirst(strata: Batches, i: nat, j: nat)
    requires AreStrata(strata) && InOrder(strata, StratumBefore) && i < j < |strata|
    ensures var a, b := strata[i], strata[j];
      a != [] && b != [] && (|a| < |b| || (|a| == |b| && !NamedBefore(b[0].key, a[0].key)))
  {
    assert Uniform(strata[i]) && Uniform(strata[j]);
    KeyRankIsByName(strata[j][0].key, strata[i][0].key);
    hide KeyRank, NamedBefore, AreStrata;
    NeighboursSuffice(strata, StratumBefore);
    assert !StratumBefore(strata[j], strata[i]);
  }
}
