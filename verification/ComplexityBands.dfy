/** Complexity bands: each family's profiles are ranked by score and id, and the ranks are cut into tertiles. */
module ComplexityBands {
  import opened Contracts
  import opened BatchPlan
  import opened Sorting

  const BANDS := [Simple, Moderate, Complex]

  /** The band of the member at this rank in a family of n, clamped to the last band. */
  function BandIndex(index: nat, n: nat): nat
    requires index < n
  {
    if index * 3 / n < 2 then index * 3 / n else 2
  }

  lemma BandThreshold(index: nat, n: nat, b: nat)
    requires index < n
    ensures index * 3 / n >= b <==> index * 3 >= b * n
  {
    var q := index * 3 / n;
    QuotientRemainder(index * 3, n);
    Distribute(q, 1, n);
    if q >= b {
      ScaleUp(b, q, n);
    } else {
      ScaleUp(q + 1, b, n);
    }
  }

  lemma ScaleUp(a: int, b: int, c: nat)
    requires a <= b
    ensures a * c <= b * c
  {
  }

  /** The clamp to the last band never changes anything. */
  lemma ClampNeverFires(index: nat, n: nat)
    requires index < n
    ensures BandIndex(index, n) == index * 3 / n
  {
    BandThreshold(index, n, 3);
  }

  lemma BandsAreMonotone(i: nat, j: nat, n: nat)
    requires i <= j < n
    ensures BandIndex(i, n) <= BandIndex(j, n)
  {
    BandThreshold(j, n, i * 3 / n);
    BandThreshold(i, n, i * 3 / n);
  }

  /** How many of the first m of n ranks fall into band b. */
  function BandSize(m: nat, n: nat, b: nat): nat
    requires m <= n
  {
    if m == 0 then 0 else BandSize(m - 1, n, b) + (if BandIndex(m - 1, n) == b then 1 else 0)
  }

  /** The first rank of a band. */
  function BandStart(n: nat, b: nat): nat
  {
    (b * n + 2) / 3
  }

  function Clip(lo: int, x: int, hi: int): int
  {
    if x < lo then lo else if x > hi then hi else x
  }

  lemma {:induction false} BandSizeIsInterval(m: nat, n: nat, b: nat)
    requires m <= n && b < 3
    ensures BandSize(m, n, b) == Clip(BandStart(n, b), m, BandStart(n, b + 1)) - BandStart(n, b)
  {
    if m > 0 {
      BandSizeIsInterval(m - 1, n, b);
      ClampNeverFires(m - 1, n);
      BandThreshold(m - 1, n, b);
      BandThreshold(m - 1, n, b + 1);
      assert (b + 1) * n == b * n + n;
    } else {
      assert (b + 1) * n == b * n + n;
    }
  }

  /** The three bands of a family differ in size by at most one. */
  lemma BandSizesDifferByAtMostOne(n: nat, b: nat, c: nat)
    requires b < 3 && c < 3
    ensures BandSize(n, n, b) <= BandSize(n, n, c) + 1
  {
    BandSizeIsInterval(n, n, b);
    BandSizeIsInterval(n, n, c);
  }

  // -------------------------------------------------------------- the ranking

  /** Ascending score, ties by id. */
  predicate ScoreBefore(a: Profile, b: Profile)
  {
    a.score < b.score || (a.score == b.score && TextBefore(a.taskId, b.taskId))
  }

  function RankBefore(profiles: seq<Profile>): (nat, nat) -> bool
  {
    (i: nat, j: nat) => i < |profiles| && j < |profiles| && ScoreBefore(profiles[i], profiles[j])
  }

  /** The positions of a family's profiles among the first n. */
  function Members(profiles: seq<Profile>, family: Family, n: nat): seq<nat>
    requires n <= |profiles|
  {
    if n == 0 then []
    else Members(profiles, family, n - 1) + (if profiles[n - 1].key.family == family then [n - 1] else [])
  }

  /** The family in rank order. */
  function Ranking(profiles: seq<Profile>, family: Family): seq<nat>
  {
    Sorted(Members(profiles, family, |profiles|), RankBefore(profiles))
  }

  lemma {:induction false} MembersExact(profiles: seq<Profile>, family: Family, n: nat)
    requires n <= |profiles|
    ensures var m := Members(profiles, family, n);
      && (forall i: nat :: i in m <==> i < n && profiles[i].key.family == family)
      && forall i, j | 0 <= i < j < |m| :: m[i] != m[j]
  {
    if n > 0 {
      MembersExact(profiles, family, n - 1);
      var earlier := Members(profiles, family, n - 1);
      assert forall k | 0 <= k < |earlier| :: earlier[k] in earlier;
    }
  }

  lemma RankingExact(profiles: seq<Profile>, family: Family)
    ensures var r := Ranking(profiles, family);
      && (forall i: nat :: i in r <==> i < |profiles| && profiles[i].key.family == family)
      && (forall i, j | 0 <= i < j < |r| :: r[i] != r[j])
  {
    var m := Members(profiles, family, |profiles|);
    MembersExact(profiles, family, |profiles|);
    SortedKeeps(m, RankBefore(profiles));
    SortedIsDistinct(m, RankBefore(profiles));
    hide Sorted, RankBefore, Members;
    SameElements(Ranking(profiles, family), m);
  }

  lemma SameElements(a: seq<nat>, b: seq<nat>)
    requires multiset(a) == multiset(b)
    ensures forall i: nat :: i in a <==> i in b
  {
    assert forall i: nat :: i in a <==> i in multiset(a);
    assert forall i: nat :: i in b <==> i in multiset(b);
  }

  /** No profile must precede one ranked before it. */
  lemma RankingOrdered(profiles: seq<Profile>, family: Family)
    ensures OrderedThroughout(Ranking(profiles, family), RankBefore(profiles))
  {
    var before, r := RankBefore(profiles), Ranking(profiles, family);
    forall i: nat, j: nat ensures before(i, j) ==> !before(j, i)
    {
      if i < |profiles| && j < |profiles| {
        TextBeforeIsAsymmetric(profiles[i].taskId, profiles[j].taskId);
      }
    }
    SortedOrders(Members(profiles, family, |profiles|), before);
    RankingExact(profiles, family);
    forall i, j, k | i in r && j in r && k in r && !before(j, i) && !before(k, j) ensures !before(k, i)
    {
      NotBeforeIsTransitive(profiles[i], profiles[j], profiles[k]);
    }
    hide Sorted, RankBefore, Members;
    NeighboursSuffice(r, before);
  }

  lemma NotBeforeIsTransitive(a: Profile, b: Profile, c: Profile)
    requires !ScoreBefore(b, a) && !ScoreBefore(c, b)
    ensures !ScoreBefore(c, a)
  {
    if a.score == b.score == c.score {
      TextNotBeforeIsTransitive(a.taskId, b.taskId, c.taskId);
    }
  }

  // ---------------------------------------------------------------- banding

  function Banded(p: Profile, band: Band): Profile
  {
    p.(key := Key(p.key.family, band))
  }

  /** Every profile of the family has the band of its rank. */
  ghost predicate FamilyBanded(profiles: seq<Profile>, banded: seq<Profile>, family: Family)
  {
    var r := Ranking(profiles, family);
    |banded| == |profiles|
    && forall k | 0 <= k < |r| :: r[k] < |profiles|
         && banded[r[k]] == Banded(profiles[r[k]], BANDS[BandIndex(k, |r|)])
  }

  /** Ranks each family and gives every profile, in place, the band of its rank. */
  method AssignBands(profiles: seq<Profile>) returns (banded: seq<Profile>)
    ensures forall family :: FamilyBanded(profiles, banded, family)
  {
    banded := BandFamily(profiles, profiles, Generation);
    ghost var first := banded;
    banded := BandFamily(profiles, banded, Editing);
    hide Ranking;
    RankingExact(profiles, Generation);
    RankingExact(profiles, Editing);
    forall family ensures FamilyBanded(profiles, banded, family)
    {
      assert family == Generation || family == Editing;
    }
  }

  /** One family of the loop: the others' entries stay as they are. */
  method BandFamily(profiles: seq<Profile>, current: seq<Profile>, family: Family) returns (banded: seq<Profile>)
    requires |current| == |profiles|
    ensures FamilyBanded(profiles, banded, family)
    ensures forall i | 0 <= i < |profiles| && profiles[i].key.family != family :: banded[i] == current[i]
  {
    banded := current;
    var members := Sorted(Members(profiles, family, |profiles|), RankBefore(profiles));
    RankingExact(profiles, family);
    hide Sorted, Members, RankBefore;
    assert forall k | 0 <= k < |members| :: members[k] in members;
    for index := 0 to |members|
      invariant |banded| == |profiles|
      invariant forall k | 0 <= k < index ::
                  banded[members[k]] == Banded(profiles[members[k]], BANDS[BandIndex(k, |members|)])
      invariant forall i | 0 <= i < |profiles| && profiles[i].key.family != family :: banded[i] == current[i]
    {
      var at := members[index];
      banded := banded[at := Banded(profiles[at], BANDS[BandIndex(index, |members|)])];
    }
  }

  /** A lower score, or an equal score and an earlier id. */
  ghost predicate Ahead(p: Profile, q: Profile)
  {
    p.score < q.score || (p.score == q.score && TextBefore(p.taskId, q.taskId))
  }

  /** The position of a profile in its family's ranking. */
  lemma RankOf(profiles: seq<Profile>, x: nat) returns (k: nat)
    requires x < |profiles|
    ensures var r := Ranking(profiles, profiles[x].key.family); k < |r| && r[k] == x
  {
    RankingExact(profiles, profiles[x].key.family);
    hide Ranking;
    var r := Ranking(profiles, profiles[x].key.family);
    assert x in r;
    k :| k < |r| && r[k] == x;
  }

  /** After banding, within a family a lower score, or an equal score and an earlier id, never has a
      higher band; nothing but the band of a profile changes. */
  lemma BandsFollowScores(profiles: seq<Profile>, banded: seq<Profile>, x: nat, y: nat)
    requires (forall family :: FamilyBanded(profiles, banded, family)) && x < |profiles| && y < |profiles|
    requires profiles[x].key.family == profiles[y].key.family
    requires Ahead(profiles[x], profiles[y])
    ensures |banded| == |profiles| && Level(banded[x].key.band) <= Level(banded[y].key.band)
    ensures banded[x] == profiles[x].(key := Key(profiles[x].key.family, banded[x].key.band))
  {
    var family := profiles[x].key.family;
    assert FamilyBanded(profiles, banded, family);
    var r, n := Ranking(profiles, family), |Ranking(profiles, family)|;
    var i := RankOf(profiles, x);
    var j := RankOf(profiles, y);
    RankingOrdered(profiles, family);
    assert RankBefore(profiles)(x, y);
    TextBeforeIsAsymmetric(profiles[x].taskId, profiles[y].taskId);
    hide Ranking, RankBefore, ScoreBefore;
    assert i < j;
    BandsAreMonotone(i, j, n);
    LevelOfIndex(i, n);
    LevelOfIndex(j, n);
  }

  function Level(band: Band): nat
  {
    match band
    case Simple => 0
    case Moderate => 1
    case Complex => 2
  }

  lemma LevelOfIndex(i: nat, n: nat)
    requires i < n
    ensures Level(BANDS[BandIndex(i, n)]) == BandIndex(i, n)
  {
    hide BandIndex;
    BandBelowThree(i, n);
  }

  lemma BandBelowThree(i: nat, n: nat)
    requires i < n
    ensures BandIndex(i, n) < 3
  {
  }

  /** The profiles of a family in a band. */
  ghost function InBand(banded: seq<Profile>, family: Family, band: Band): set<nat>
  {
    set i: nat | i < |banded| && banded[i].key == Key(family, band)
  }

  /** The positions among the first m ranks that fall into band b. */
  ghost function RankedInBand(r: seq<nat>, m: nat, b: nat): set<nat>
    requires m <= |r|
  {
    set k | 0 <= k < m && BandIndex(k, |r|) == b :: r[k]
  }

  lemma {:induction false} RankedInBandSize(r: seq<nat>, m: nat, b: nat)
    requires m <= |r| && forall i, j | 0 <= i < j < |r| :: r[i] != r[j]
    ensures |RankedInBand(r, m, b)| == BandSize(m, |r|, b)
  {
    hide BandIndex;
    if m > 0 {
      RankedInBandSize(r, m - 1, b);
      var earlier := RankedInBand(r, m - 1, b);
      assert r[m - 1] !in earlier;
      assert RankedInBand(r, m, b) == earlier + (if BandIndex(m - 1, |r|) == b then {r[m - 1]} else {});
    }
  }

  lemma InBandIsRanked(profiles: seq<Profile>, banded: seq<Profile>, family: Family, b: nat)
    requires b < 3 && forall f :: FamilyBanded(profiles, banded, f)
    ensures InBand(banded, family, BANDS[b]) == RankedInBand(Ranking(profiles, family), |Ranking(profiles, family)|, b)
  {
    var r := Ranking(profiles, family);
    RankingExact(profiles, family);
    assert FamilyBanded(profiles, banded, family);
    hide Ranking, BandIndex;
    forall i: nat ensures i in InBand(banded, family, BANDS[b]) <==> i in RankedInBand(r, |r|, b)
    {
      if i < |banded| {
        var k := RankOf(profiles, i);
        assert FamilyBanded(profiles, banded, profiles[i].key.family);
        RankBand(profiles, banded, i, k);
      }
      if i in RankedInBand(r, |r|, b) {
        var k :| 0 <= k < |r| && BandIndex(k, |r|) == b && r[k] == i;
        assert r[k] in r;
      }
    }
  }

  lemma RankBand(profiles: seq<Profile>, banded: seq<Profile>, i: nat, k: nat)
    requires i < |profiles| && FamilyBanded(profiles, banded, profiles[i].key.family)
    requires k < |Ranking(profiles, profiles[i].key.family)| && Ranking(profiles, profiles[i].key.family)[k] == i
    ensures i < |banded| && banded[i].key.family == profiles[i].key.family
    ensures banded[i].key.band == BANDS[BandIndex(k, |Ranking(profiles, profiles[i].key.family)|)]
    ensures Level(banded[i].key.band) == BandIndex(k, |Ranking(profiles, profiles[i].key.family)|)
  {
    hide Ranking;
    LevelOfIndex(k, |Ranking(profiles, profiles[i].key.family)|);
  }

  /** After banding, any two bands of a family differ in size by at most one profile. */
  lemma BandedSizesDifferByAtMostOne(profiles: seq<Profile>, banded: seq<Profile>, family: Family, b: nat, c: nat)
    requires b < 3 && c < 3 && forall f :: FamilyBanded(profiles, banded, f)
    ensures |InBand(banded, family, BANDS[b])| <= |InBand(banded, family, BANDS[c])| + 1
  {
    var r := Ranking(profiles, family);
    RankingExact(profiles, family);
    InBandIsRanked(profiles, banded, family, b);
    InBandIsRanked(profiles, banded, family, c);
    hide Ranking, FamilyBanded;
    RankedInBandSize(r, |r|, b);
    RankedInBandSize(r, |r|, c);
    BandSizesDifferByAtMostOne(|r|, b, c);
  }

  /** The family's profiles ahead of profile x. */
  ghost function AheadOf(profiles: seq<Profile>, x: nat): set<nat>
    requires x < |profiles|
  {
    set i: nat | i < |profiles| && profiles[i].key.family == profiles[x].key.family && Ahead(profiles[i], profiles[x])
  }

  ghost function OfFamily(profiles: seq<Profile>, family: Family): set<nat>
  {
    set i: nat | i < |profiles| && profiles[i].key.family == family
  }

  lemma {:induction false} ElementsSize(r: seq<nat>, k: nat)
    requires k <= |r| && forall i, j | 0 <= i < j < |r| :: r[i] != r[j]
    ensures |set i | 0 <= i < k :: r[i]| == k
  {
    if k > 0 {
      ElementsSize(r, k - 1);
      assert (set i | 0 <= i < k :: r[i]) == (set i | 0 <= i < k - 1 :: r[i]) + {r[k - 1]};
    }
  }

  /** A profile's rank is the number of its family's profiles that are ahead of it. */
  lemma RankCounts(profiles: seq<Profile>, x: nat, k: nat)
    requires x < |profiles| && k < |Ranking(profiles, profiles[x].key.family)|
    requires Ranking(profiles, profiles[x].key.family)[k] == x
    requires forall i, j | 0 <= i < j < |profiles| :: profiles[i].taskId != profiles[j].taskId
    ensures k == |AheadOf(profiles, x)|
  {
    var r := Ranking(profiles, profiles[x].key.family);
    RankingExact(profiles, profiles[x].key.family);
    RankingOrdered(profiles, profiles[x].key.family);
    hide Ranking, TextBefore;
    var earlier := set i | 0 <= i < k :: r[i];
    forall i: nat ensures i in earlier <==> i in AheadOf(profiles, x)
    {
      if i in r {
        var n: nat :| n < |r| && r[n] == i;
        if n < k {
          assert !RankBefore(profiles)(r[k], r[n]);
          TextBeforeIsTotal(profiles[i].taskId, profiles[x].taskId);
        } else if n > k {
          assert !RankBefore(profiles)(r[n], r[k]);
        } else {
          TextBeforeIsAsymmetric(profiles[i].taskId, profiles[x].taskId);
        }
      }
    }
    assert earlier == AheadOf(profiles, x);
    ElementsSize(r, k);
  }

  /** With distinct ids, a profile lands in band 0, 1 or 2 by the third of its family it ranks in: three times
      the number of family members ahead of it, divided by the size of the family. */
  lemma BandMeaning(profiles: seq<Profile>, banded: seq<Profile>, x: nat)
    requires (forall family :: FamilyBanded(profiles, banded, family)) && x < |profiles|
    requires forall i, j | 0 <= i < j < |profiles| :: profiles[i].taskId != profiles[j].taskId
    ensures |banded| == |profiles| && banded[x].taskId == profiles[x].taskId && banded[x].score == profiles[x].score
    ensures banded[x].key.family == profiles[x].key.family
    ensures var n, rank := |OfFamily(profiles, profiles[x].key.family)|, |AheadOf(profiles, x)|;
      && rank < n
      && banded[x].key.band == if rank * 3 < n then Simple else if rank * 3 < 2 * n then Moderate else Complex
  {
    var family := profiles[x].key.family;
    assert FamilyBanded(profiles, banded, family);
    var r := Ranking(profiles, family);
    var k := RankOf(profiles, x);
    RankingExact(profiles, family);
    RankCounts(profiles, x, k);
    RankBand(profiles, banded, x, k);
    BandThreshold(k, |r|, 1);
    BandThreshold(k, |r|, 2);
    ElementsSize(r, |r|);
    hide Ranking, AheadOf;
    assert (set i | 0 <= i < |r| :: r[i]) == OfFamily(profiles, family);
  }
}
