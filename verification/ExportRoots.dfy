/** Which objects of a dependency graph are exported: the solid-producing ones that no other
    solid-producing object consumes. */
module ExportRoots {
  import opened Contracts

  /** An object: how many solids its shape has (None without a usable shape), and the objects it depends
      on, by position; positions outside the document belong to no object of it. */
  datatype Node = Node(solids: Option<nat>, outList: seq<nat>)

  type Graph = seq<Node>

  predicate IsCandidate(g: Graph, i: nat)
  {
    i < |g| && g[i].solids.Some? && g[i].solids.value > 0
  }

  /** An object of the document with at least one solid. */
  ghost predicate Solid(g: Graph, i: nat)
  {
    i < |g| && exists n: nat :: n >= 1 && g[i].solids == Some(n)
  }

  lemma CandidatesAreSolid(g: Graph)
    ensures forall i: nat :: IsCandidate(g, i) <==> Solid(g, i)
  {
  }

  /** The solid child is a direct dependency of the solid parent. */
  ghost predicate Consumes(g: Graph, parent: nat, child: nat)
  {
    Solid(g, parent) && Solid(g, child) && child in g[parent].outList
  }

  function Candidates(g: Graph, n: nat): seq<nat>
    requires n <= |g|
  {
    if n == 0 then []
    else Candidates(g, n - 1) + (if IsCandidate(g, n - 1) then [n - 1] else [])
  }

  function Consumed(g: Graph): set<nat>
  {
    set parent, child | parent in Candidates(g, |g|) && parent < |g| && child in g[parent].outList
                        && child in Candidates(g, |g|) :: child
  }

  function Unconsumed(candidates: seq<nat>, consumed: set<nat>): seq<nat>
  {
    if candidates == [] then []
    else Unconsumed(candidates[..|candidates| - 1], consumed)
         + (if candidates[|candidates| - 1] in consumed then [] else [candidates[|candidates| - 1]])
  }

  /** The exported objects, in document order. */
  function FinalShapeObjects(g: Graph): seq<nat>
  {
    Unconsumed(Candidates(g, |g|), Consumed(g))
  }

  predicate Increasing(xs: seq<nat>)
  {
    forall i, j | 0 <= i < j < |xs| :: xs[i] < xs[j]
  }

  lemma {:induction false} CandidatesAreInOrder(g: Graph, n: nat)
    requires n <= |g|
    ensures forall i: nat :: i in Candidates(g, n) <==> i < n && IsCandidate(g, i)
    ensures Increasing(Candidates(g, n))
  {
    if n > 0 {
      CandidatesAreInOrder(g, n - 1);
      var earlier := Candidates(g, n - 1);
      assert forall k | 0 <= k < |earlier| :: earlier[k] in earlier;
    }
  }

  lemma {:induction false} UnconsumedKeepsOrder(xs: seq<nat>, consumed: set<nat>)
    requires Increasing(xs)
    ensures forall i: nat :: i in Unconsumed(xs, consumed) <==> i in xs && i !in consumed
    ensures Increasing(Unconsumed(xs, consumed))
  {
    if xs != [] {
      var rest, last := xs[..|xs| - 1], xs[|xs| - 1];
      UnconsumedKeepsOrder(rest, consumed);
      assert forall i: nat :: i in xs <==> i in rest || i == last;
      var kept := Unconsumed(rest, consumed);
      assert forall k | 0 <= k < |kept| :: kept[k] in kept;
      assert forall i | i in rest :: i < last;
    }
  }

  /** A root is a solid object that no solid object consumes. */
  ghost predicate IsRoot(g: Graph, i: nat)
  {
    Solid(g, i) && forall parent: nat :: !Consumes(g, parent, i)
  }

  /** The export is exactly the roots, each once, in document order. */
  lemma ExportsExactlyTheRoots(g: Graph)
    ensures forall i: nat :: i in FinalShapeObjects(g) <==> IsRoot(g, i)
    ensures Increasing(FinalShapeObjects(g))
  {
    CandidatesAreInOrder(g, |g|);
    UnconsumedKeepsOrder(Candidates(g, |g|), Consumed(g));
    CandidatesAreSolid(g);
    hide Candidates, Unconsumed, Solid, IsCandidate;
    forall i: nat ensures i in Consumed(g) <==> exists parent: nat :: Consumes(g, parent, i)
    {
      if i in Consumed(g) {
        var parent :| parent in Candidates(g, |g|) && parent < |g| && i in g[parent].outList && i in Candidates(g, |g|);
        assert Consumes(g, parent, i);
      }
    }
  }

  /** No exported object is a direct dependency of any other solid-producing object. */
  lemma ExportedAreNotConsumed(g: Graph, i: nat, parent: nat)
    requires i in FinalShapeObjects(g)
    ensures Solid(g, i) && !Consumes(g, parent, i)
  {
    ExportsExactlyTheRoots(g);
  }

  // ---------------------------------------------------------------- coverage

  /** Each element consumes the next. */
  ghost predicate IsPath(g: Graph, path: seq<nat>)
  {
    && path != [] && (forall k | 0 <= k < |path| :: Solid(g, path[k]))
    && forall k | 0 <= k < |path| - 1 :: Consumes(g, path[k], path[k + 1])
  }

  /** No path of solid-producing objects returns to where it started. */
  ghost predicate Acyclic(g: Graph)
  {
    forall path | IsPath(g, path) && |path| > 1 :: path[0] != path[|path| - 1]
  }

  ghost predicate Covers(g: Graph, root: nat, i: nat)
  {
    exists path :: IsPath(g, path) && path[0] == root && path[|path| - 1] == i
  }

  lemma PathPart(g: Graph, path: seq<nat>, a: nat, b: nat)
    requires IsPath(g, path) && a < b <= |path|
    ensures IsPath(g, path[a..b])
  {
    forall k | 0 <= k < b - a - 1 ensures Consumes(g, path[a..b][k], path[a..b][k + 1])
    {
      assert Consumes(g, path[a + k], path[a + k + 1]);
    }
  }

  lemma PathExtends(g: Graph, parent: nat, path: seq<nat>)
    requires IsPath(g, path) && Consumes(g, parent, path[0])
    ensures IsPath(g, [parent] + path)
  {
    var longer := [parent] + path;
    forall k | 0 <= k < |longer| - 1 ensures Consumes(g, longer[k], longer[k + 1])
    {
      assert k > 0 ==> Consumes(g, path[k - 1], path[k - 1 + 1]);
    }
  }

  lemma {:induction false} DistinctFitsBelow(xs: seq<nat>, n: nat)
    requires (forall i, j | 0 <= i < j < |xs| :: xs[i] != xs[j]) && forall i | 0 <= i < |xs| :: xs[i] < n
    ensures |xs| <= n
    decreases n
  {
    assert xs != [] ==> xs[0] < n;
    if n > 0 && xs != [] {
      if k :| 0 <= k < |xs| && xs[k] == n - 1 {
        DistinctFitsBelow(xs[..k] + xs[k + 1..], n - 1);
      } else {
        DistinctFitsBelow(xs, n - 1);
      }
    }
  }

  /** In an acyclic graph a path never repeats an object, so it is no longer than the document. */
  lemma PathsAreShort(g: Graph, path: seq<nat>)
    requires Acyclic(g) && IsPath(g, path)
    ensures |path| <= |g|
  {
    forall i, j | 0 <= i < j < |path| ensures path[i] != path[j]
    {
      PathPart(g, path, i, j + 1);
    }
    DistinctFitsBelow(path, |g|);
  }

  lemma {:induction false} PathFromRoot(g: Graph, path: seq<nat>) returns (full: seq<nat>)
    requires Acyclic(g) && IsPath(g, path)
    ensures IsPath(g, full) && full[|full| - 1] == path[|path| - 1] && IsRoot(g, full[0])
    decreases |g| - |path|
  {
    PathsAreShort(g, path);
    if parent: nat :| Consumes(g, parent, path[0]) {
      PathExtends(g, parent, path);
      PathsAreShort(g, [parent] + path);
      full := PathFromRoot(g, [parent] + path);
    } else {
      full := path;
    }
  }

  /** In every acyclic document each solid-producing object is reached from some exported object through
      solid-producing objects alone, so a document with a solid never exports nothing. */
  lemma ExportCoversEverything(g: Graph, i: nat)
    requires Acyclic(g) && Solid(g, i)
    ensures exists root: nat :: root in FinalShapeObjects(g) && Covers(g, root, i)
    ensures FinalShapeObjects(g) != []
  {
    assert IsPath(g, [i]);
    var full := PathFromRoot(g, [i]);
    ExportsExactlyTheRoots(g);
    hide FinalShapeObjects;
    assert Covers(g, full[0], i);
    assert full[0] in FinalShapeObjects(g);
  }

  /** The export is the smallest such set: whatever covers an exported object is that object. */
  lemma ExportedOnlyCoverThemselves(g: Graph, i: nat, other: nat)
    requires i in FinalShapeObjects(g) && Covers(g, other, i)
    ensures other == i
  {
    var path :| IsPath(g, path) && path[0] == other && path[|path| - 1] == i;
    var k := |path| - 2;
    assert k >= 0 ==> Consumes(g, path[k], path[k + 1]);
    ExportsExactlyTheRoots(g);
  }

  /** Acyclicity is needed: two objects that depend on each other are both solid and export nothing. */
  lemma CycleExportsNothing() returns (g: Graph)
    ensures Solid(g, 0) && Solid(g, 1) && FinalShapeObjects(g) == []
  {
    g := [Node(Some(1), [1]), Node(Some(1), [0])];
    hide FinalShapeObjects;
    var exported := FinalShapeObjects(g);
    assert exported != [] ==> exported[0] in exported;
    assert Consumes(g, 1, 0) && Consumes(g, 0, 1);
    ExportsExactlyTheRoots(g);
  }
}
