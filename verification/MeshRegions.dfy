/** Connected regions of a triangle mesh: edge ownership, adjacency, breadth-first extraction with
    an arbitrary choice of seeds, and the vertex translations built on it. */
module MeshRegions {
  import opened Contracts

  datatype Triangle = Triangle(a: nat, b: nat, c: nat)

  /** An undirected edge, smaller vertex first. */
  datatype Edge = Edge(lo: nat, hi: nat)

  function EdgeOf(u: nat, v: nat): Edge
  {
    if u <= v then Edge(u, v) else Edge(v, u)
  }

  /** Side k of a triangle: its vertices 0-1, 1-2, 2-0. */
  function SideEdge(t: Triangle, k: int): Edge
    requires 0 <= k < 3
  {
    if k == 0 then EdgeOf(t.a, t.b) else if k == 1 then EdgeOf(t.b, t.c) else EdgeOf(t.c, t.a)
  }

  /** Candidate triangles are distinct indices in ascending order. */
  ghost predicate Candidates(triangles: seq<Triangle>, candidates: seq<nat>)
  {
    && (forall i | 0 <= i < |candidates| :: candidates[i] < |triangles|)
    && (forall i, j | 0 <= i < j < |candidates| :: candidates[i] < candidates[j])
  }

  // ----------------------------------------------------- what adjacency means

  /** The two vertices that a side of a triangle joins, in no order. */
  ghost function Ends(t: Triangle, k: nat): set<nat>
    requires k < 3
  {
    if k == 0 then {t.a, t.b} else if k == 1 then {t.b, t.c} else {t.c, t.a}
  }

  /** The candidate sides that join two vertices. */
  ghost function Sides(triangles: seq<Triangle>, candidates: seq<nat>, u: nat, v: nat): set<(nat, nat)>
    requires Candidates(triangles, candidates)
  {
    set t, k: nat | t in candidates && k < 3 && Ends(triangles[t], k) == {u, v} :: (t, k)
  }

  /** Some two vertices are joined by exactly two candidate sides, one of each of these triangles. */
  ghost predicate Adjacent(triangles: seq<Triangle>, candidates: seq<nat>, x: nat, y: nat)
    requires Candidates(triangles, candidates)
  {
    exists u, v, k, l :: SoleOwners(triangles, candidates, u, v, (x, k), (y, l))
  }

  ghost predicate SoleOwners(
    triangles: seq<Triangle>, candidates: seq<nat>, u: nat, v: nat, p: (nat, nat), q: (nat, nat))
    requires Candidates(triangles, candidates)
  {
    p != q && Sides(triangles, candidates, u, v) == {p, q}
  }

  /** Two pairs of vertices give the same edge exactly when they are the same two vertices. */
  lemma EdgesAreUndirected(u: nat, v: nat, x: nat, y: nat)
    ensures EdgeOf(u, v) == EdgeOf(x, y) <==> {u, v} == {x, y}
  {
    if {u, v} == {x, y} {
      assert u in {x, y} && v in {x, y} && x in {u, v} && y in {u, v};
    }
  }

  lemma SidesJoinTheirEnds(t: Triangle, k: nat, u: nat, v: nat)
    requires k < 3
    ensures SideEdge(t, k) == EdgeOf(u, v) <==> Ends(t, k) == {u, v}
  {
    if k == 0 {
      EdgesAreUndirected(t.a, t.b, u, v);
    } else if k == 1 {
      EdgesAreUndirected(t.b, t.c, u, v);
    } else {
      EdgesAreUndirected(t.c, t.a, u, v);
    }
  }

  // -------------------------------------------------------- the two tables

  /** The sides of one triangle on an edge, in order. */
  function SidesOf(triangles: seq<Triangle>, t: nat, e: Edge, k: nat): (r: seq<(nat, nat)>)
    requires t < |triangles| && k <= 3
    decreases k
  {
    if k == 0 then []
    else SidesOf(triangles, t, e, k - 1) + (if SideEdge(triangles[t], k - 1) == e then [(t, k - 1)] else [])
  }

  /** The owning sides of an edge in the order the table collects them. */
  function OwningSides(triangles: seq<Triangle>, candidates: seq<nat>, e: Edge): seq<(nat, nat)>
    requires forall i | 0 <= i < |candidates| :: candidates[i] < |triangles|
  {
    if candidates == [] then []
    else OwningSides(triangles, candidates[..|candidates| - 1], e)
         + SidesOf(triangles, candidates[|candidates| - 1], e, 3)
  }

  function Owners(sides: seq<(nat, nat)>): seq<nat>
  {
    seq(|sides|, i requires 0 <= i < |sides| => sides[i].0)
  }

  /** The table lists, for every edge some candidate side lies on, the owners of those sides. */
  ghost predicate OwnersTable(triangles: seq<Triangle>, candidates: seq<nat>, owners: map<Edge, seq<nat>>)
    requires forall i | 0 <= i < |candidates| :: candidates[i] < |triangles|
  {
    forall e :: At(owners, e) == Owners(OwningSides(triangles, candidates, e))
  }

  /** Reading a defaultdict of lists. */
  function At(owners: map<Edge, seq<nat>>, e: Edge): seq<nat>
  {
    if e in owners then owners[e] else []
  }

  /** Append one triangle to the lists of its three sides' edges. */
  method AddTriangle(triangles: seq<Triangle>, t: nat, before: map<Edge, seq<nat>>)
    returns (owners: map<Edge, seq<nat>>)
    requires t < |triangles|
    ensures forall e :: At(owners, e) == At(before, e) + Owners(SidesOf(triangles, t, e, 3))
  {
    hide Owners, SidesOf;
    owners := before;
    assert forall e :: Owners(SidesOf(triangles, t, e, 0)) == [] by { NoSides(triangles, t); }
    for k := 0 to 3
      invariant forall e :: At(owners, e) == At(before, e) + Owners(SidesOf(triangles, t, e, k))
    {
      var e := SideEdge(triangles[t], k);
      ghost var previous := owners;
      owners := owners[e := At(owners, e) + [t]];
      forall d ensures At(owners, d) == At(before, d) + Owners(SidesOf(triangles, t, d, k + 1))
      {
        assert At(previous, d) == At(before, d) + Owners(SidesOf(triangles, t, d, k));
        OneMoreSide(triangles, t, d, k);
      }
    }
  }

  lemma NoSides(triangles: seq<Triangle>, t: nat)
    requires t < |triangles|
    ensures forall e :: Owners(SidesOf(triangles, t, e, 0)) == []
  {
  }

  lemma OneMoreSide(triangles: seq<Triangle>, t: nat, e: Edge, k: nat)
    requires t < |triangles| && k < 3
    ensures Owners(SidesOf(triangles, t, e, k + 1))
         == Owners(SidesOf(triangles, t, e, k)) + (if SideEdge(triangles[t], k) == e then [t] else [])
  {
  }

  lemma OwnersOfSum(a: seq<(nat, nat)>, b: seq<(nat, nat)>)
    ensures Owners(a + b) == Owners(a) + Owners(b)
  {
  }

  method BuildOwners(triangles: seq<Triangle>, candidates: seq<nat>) returns (owners: map<Edge, seq<nat>>)
    requires Candidates(triangles, candidates)
    ensures OwnersTable(triangles, candidates, owners)
  {
    hide SidesOf, Owners;
    owners := map[];
    assert OwnersTable(triangles, [], owners) by { EmptyTable(triangles); }
    for i := 0 to |candidates|
      invariant OwnersTable(triangles, candidates[..i], owners)
    {
      ghost var before := owners;
      owners := AddTriangle(triangles, candidates[i], owners);
      assert candidates[..i + 1][..i] == candidates[..i];
      forall e ensures At(owners, e) == Owners(OwningSides(triangles, candidates[..i + 1], e))
      {
        assert At(before, e) == Owners(OwningSides(triangles, candidates[..i], e));
        OwnersOfSum(OwningSides(triangles, candidates[..i], e), SidesOf(triangles, candidates[i], e, 3));
      }
    }
    assert candidates[..|candidates|] == candidates;
  }

  lemma EmptyTable(triangles: seq<Triangle>)
    ensures OwnersTable(triangles, [], map[])
  {
  }

  /** Reading a defaultdict of sets. */
  function Next(neighbors: map<nat, set<nat>>, x: nat): set<nat>
  {
    if x in neighbors then neighbors[x] else {}
  }

  /** The pair of owners of an edge that has exactly two. */
  ghost predicate PairOf(owners: seq<nat>, x: nat, y: nat)
  {
    |owners| == 2 && ((owners[0] == x && owners[1] == y) || (owners[0] == y && owners[1] == x))
  }

  method BuildNeighbors(owners: map<Edge, seq<nat>>) returns (neighbors: map<nat, set<nat>>)
    ensures forall x, y :: y in Next(neighbors, x) <==> exists e :: e in owners && PairOf(owners[e], x, y)
  {
    neighbors := map[];
    var todo := owners.Keys;
    while todo != {}
      invariant todo <= owners.Keys
      invariant forall x, y ::
        y in Next(neighbors, x) <==> exists e :: e in owners.Keys - todo && PairOf(owners[e], x, y)
    {
      var e :| e in todo;
      todo := todo - {e};
      ghost var before := neighbors;
      if |owners[e]| == 2 {
        var first, second := owners[e][0], owners[e][1];
        neighbors := neighbors[first := Next(neighbors, first) + {second}];
        neighbors := neighbors[second := Next(neighbors, second) + {first}];
      }
      forall x, y
        ensures y in Next(neighbors, x) <==> exists d :: d in owners.Keys - todo && PairOf(owners[d], x, y)
      {
        assert y in Next(neighbors, x) <==> y in Next(before, x) || PairOf(owners[e], x, y);
        assert owners.Keys - todo == (owners.Keys - todo - {e}) + {e};
      }
    }
    assert owners.Keys - todo == owners.Keys;
  }

  // ---------------------------------------------------------- reachability

  ghost predicate IsPath(neighbors: map<nat, set<nat>>, path: seq<nat>)
  {
    path != [] && forall i | 0 <= i < |path| - 1 :: path[i + 1] in Next(neighbors, path[i])
  }

  ghost predicate Reaches(neighbors: map<nat, set<nat>>, x: nat, y: nat)
  {
    exists path :: IsPath(neighbors, path) && path[0] == x && path[|path| - 1] == y
  }

  ghost predicate Symmetric(neighbors: map<nat, set<nat>>)
  {
    forall x, y :: y in Next(neighbors, x) ==> x in Next(neighbors, y)
  }

  ghost predicate Closed(neighbors: map<nat, set<nat>>, s: set<nat>)
  {
    forall x | x in s :: Next(neighbors, x) <= s
  }

  /** A reachability class: non-empty, and with a member exactly what that member reaches. */
  ghost predicate IsClass(neighbors: map<nat, set<nat>>, s: set<nat>)
  {
    s != {} && forall x | x in s :: forall y :: y in s <==> Reaches(neighbors, x, y)
  }

  lemma ReachesSelf(neighbors: map<nat, set<nat>>, x: nat)
    ensures Reaches(neighbors, x, x)
  {
    assert IsPath(neighbors, [x]);
  }

  lemma ReachesStep(neighbors: map<nat, set<nat>>, x: nat, y: nat, z: nat)
    requires Reaches(neighbors, x, y) && z in Next(neighbors, y)
    ensures Reaches(neighbors, x, z)
  {
    var p :| IsPath(neighbors, p) && p[0] == x && p[|p| - 1] == y;
    assert IsPath(neighbors, p + [z]);
  }

  lemma ReachesTransitive(neighbors: map<nat, set<nat>>, x: nat, y: nat, z: nat)
    requires Reaches(neighbors, x, y) && Reaches(neighbors, y, z)
    ensures Reaches(neighbors, x, z)
  {
    var p :| IsPath(neighbors, p) && p[0] == x && p[|p| - 1] == y;
    var q :| IsPath(neighbors, q) && q[0] == y && q[|q| - 1] == z;
    var r := p + q[1..];
    forall i | 0 <= i < |r| - 1 ensures r[i + 1] in Next(neighbors, r[i])
    {
      if i < |p| - 1 {
        assert p[i + 1] in Next(neighbors, p[i]);
      } else {
        assert q[i - |p| + 2] in Next(neighbors, q[i - |p| + 1]);
      }
    }
    assert IsPath(neighbors, r);
  }

  lemma {:induction false} ReversedPath(neighbors: map<nat, set<nat>>, p: seq<nat>)
    requires Symmetric(neighbors) && IsPath(neighbors, p)
    ensures Reaches(neighbors, p[|p| - 1], p[0])
  {
    if |p| == 1 {
      ReachesSelf(neighbors, p[0]);
    } else {
      var n := |p| - 1;
      assert p[n - 1 + 1] in Next(neighbors, p[n - 1]);
      ReversedPath(neighbors, p[..n]);
      ReachesSelf(neighbors, p[n]);
      ReachesStep(neighbors, p[n], p[n], p[n - 1]);
      ReachesTransitive(neighbors, p[n], p[n - 1], p[0]);
    }
  }

  lemma ReachesSymmetric(neighbors: map<nat, set<nat>>, x: nat, y: nat)
    requires Symmetric(neighbors) && Reaches(neighbors, x, y)
    ensures Reaches(neighbors, y, x)
  {
    var p :| IsPath(neighbors, p) && p[0] == x && p[|p| - 1] == y;
    ReversedPath(neighbors, p);
  }

  lemma {:induction false} ClosedPath(neighbors: map<nat, set<nat>>, s: set<nat>, p: seq<nat>)
    requires Closed(neighbors, s) && IsPath(neighbors, p) && p[0] in s
    ensures p[|p| - 1] in s
  {
    if |p| > 1 {
      var n := |p| - 1;
      ClosedPath(neighbors, s, p[..n]);
      assert p[n - 1 + 1] in Next(neighbors, p[n - 1]);
    }
  }

  /** A closed set all of whose members one member reaches is a class. */
  lemma ReachedAndClosedIsClass(neighbors: map<nat, set<nat>>, s: set<nat>, seed: nat)
    requires Symmetric(neighbors) && Closed(neighbors, s) && seed in s
    requires forall y | y in s :: Reaches(neighbors, seed, y)
    ensures IsClass(neighbors, s)
  {
    forall x, y | x in s ensures y in s <==> Reaches(neighbors, x, y)
    {
      if y in s {
        ReachesSymmetric(neighbors, seed, x);
        ReachesTransitive(neighbors, x, seed, y);
      }
      if Reaches(neighbors, x, y) {
        var p :| IsPath(neighbors, p) && p[0] == x && p[|p| - 1] == y;
        ClosedPath(neighbors, s, p);
      }
    }
  }

  // ------------------------------------------------------------ extraction

  /** Midway: the component is reached from the seed, and what its members lead to is in it unless
      the member is still queued. */
  ghost predicate Flooding(neighbors: map<nat, set<nat>>, all: set<nat>, seed: nat,
                           component: set<nat>, remaining: set<nat>, waiting: set<nat>)
  {
    && seed in component && component <= all && remaining == all - component && waiting <= component
    && (forall x | x in component - waiting :: Next(neighbors, x) <= component)
    && (forall y | y in component :: Reaches(neighbors, seed, y))
  }

  function Elements(queue: seq<nat>): set<nat>
  {
    set x | x in queue
  }

  /** Take one seed's component out of the remaining triangles, breadth first. */
  method Flood(neighbors: map<nat, set<nat>>, all: set<nat>, seed: nat)
    returns (component: set<nat>, remaining: set<nat>)
    requires Symmetric(neighbors) && Closed(neighbors, all) && seed in all
    ensures IsClass(neighbors, component) && seed in component && Closed(neighbors, component)
    ensures remaining == all - component && component <= all
  {
    remaining, component := all - {seed}, {seed};
    var queue := [seed];
    ReachesSelf(neighbors, seed);
    while queue != []
      invariant Flooding(neighbors, all, seed, component, remaining, Elements(queue))
      decreases |remaining|, |queue|
    {
      var current := queue[0];
      assert Elements(queue) == Elements(queue[1..]) + {current};
      component, remaining, queue := Visit(neighbors, all, seed, current, component, remaining, queue[1..]);
    }
    ReachedAndClosedIsClass(neighbors, component, seed);
  }

  /** Look at every neighbor of the dequeued triangle; claim and enqueue those that remain. */
  method Visit(neighbors: map<nat, set<nat>>, all: set<nat>, seed: nat, current: nat,
               component0: set<nat>, remaining0: set<nat>, queue0: seq<nat>)
    returns (component: set<nat>, remaining: set<nat>, queue: seq<nat>)
    requires Closed(neighbors, all) && current in component0
    requires Flooding(neighbors, all, seed, component0, remaining0, Elements(queue0) + {current})
    ensures Flooding(neighbors, all, seed, component, remaining, Elements(queue))
    ensures |remaining| < |remaining0| || (remaining == remaining0 && queue == queue0)
  {
    hide Flooding, Reaches;
    component, remaining, queue := component0, remaining0, queue0;
    var todo := Next(neighbors, current);
    FloodingFacts(neighbors, all, seed, component, remaining, Elements(queue) + {current});
    while todo != {}
      invariant todo <= Next(neighbors, current)
      invariant current in component && Next(neighbors, current) - todo <= component
      invariant Flooding(neighbors, all, seed, component, remaining, Elements(queue) + {current})
      invariant |remaining| < |remaining0| || (remaining == remaining0 && queue == queue0)
    {
      var neighbor :| neighbor in todo;
      todo := todo - {neighbor};
      if neighbor in remaining {
        Claim(neighbors, all, seed, component, remaining, Elements(queue) + {current}, current, neighbor);
        assert Elements(queue + [neighbor]) == Elements(queue) + {neighbor};
        remaining := remaining - {neighbor};
        component := component + {neighbor};
        queue := queue + [neighbor];
        assert Elements(queue) + {current} == Elements(queue[..|queue| - 1]) + {current} + {neighbor};
      }
      FloodingFacts(neighbors, all, seed, component, remaining, Elements(queue) + {current});
    }
    Processed(neighbors, all, seed, component, remaining, Elements(queue), current);
  }

  lemma FloodingFacts(neighbors: map<nat, set<nat>>, all: set<nat>, seed: nat,
                      component: set<nat>, remaining: set<nat>, waiting: set<nat>)
    requires Flooding(neighbors, all, seed, component, remaining, waiting)
    ensures component <= all && remaining == all - component && waiting <= component
  {
  }

  /** Claiming a neighbor of a member keeps the midway facts. */
  lemma Claim(neighbors: map<nat, set<nat>>, all: set<nat>, seed: nat, component: set<nat>, remaining: set<nat>,
              waiting: set<nat>, current: nat, neighbor: nat)
    requires Flooding(neighbors, all, seed, component, remaining, waiting)
    requires current in component && neighbor in Next(neighbors, current) && neighbor in remaining
    ensures Flooding(neighbors, all, seed, component + {neighbor}, remaining - {neighbor}, waiting + {neighbor})
  {
    assert Reaches(neighbors, seed, current);
    ReachesStep(neighbors, seed, current, neighbor);
    hide Reaches;
  }

  /** Once all its neighbors are in, a member need not wait any longer. */
  lemma Processed(neighbors: map<nat, set<nat>>, all: set<nat>, seed: nat, component: set<nat>, remaining: set<nat>,
                  waiting: set<nat>, current: nat)
    requires Flooding(neighbors, all, seed, component, remaining, waiting + {current})
    requires Next(neighbors, current) <= component
    ensures Flooding(neighbors, all, seed, component, remaining, waiting)
  {
    hide Reaches;
  }

  ghost predicate IsPartition(components: seq<set<nat>>, all: set<nat>)
  {
    && (forall i, j | 0 <= i < j < |components| :: components[i] !! components[j])
    && (forall x :: x in all <==> exists i :: 0 <= i < |components| && x in components[i])
  }

  /** Extract components until nothing remains; which seed comes next is arbitrary. */
  method Components(neighbors: map<nat, set<nat>>, all: set<nat>) returns (components: seq<set<nat>>)
    requires Symmetric(neighbors) && Closed(neighbors, all)
    ensures IsPartition(components, all)
    ensures forall i | 0 <= i < |components| :: IsClass(neighbors, components[i])
  {
    components := [];
    var remaining := all;
    while remaining != {}
      invariant remaining <= all && Closed(neighbors, remaining)
      invariant IsPartition(components, all - remaining)
      invariant forall i | 0 <= i < |components| :: IsClass(neighbors, components[i])
    {
      var seed :| seed in remaining;
      ghost var before := remaining;
      var component;
      component, remaining := Flood(neighbors, remaining, seed);
      ghost var previous := components;
      components := components + [component];
      PartitionExtends(previous, all - before, component);
      assert (all - before) + component == all - remaining;
      RestIsClosed(neighbors, before, component);
    }
    assert all - remaining == all;
  }

  lemma PartitionExtends(components: seq<set<nat>>, covered: set<nat>, component: set<nat>)
    requires IsPartition(components, covered) && covered !! component
    ensures IsPartition(components + [component], covered + component)
  {
    var longer := components + [component];
    forall i, j | 0 <= i < j < |longer| ensures longer[i] !! longer[j]
    {
      if j == |components| {
        forall x | x in longer[i] ensures x !in component
        {
          assert x in covered;
        }
      }
    }
    forall x ensures x in covered + component <==> exists i :: 0 <= i < |longer| && x in longer[i]
    {
      if x in covered {
        var i :| 0 <= i < |components| && x in components[i];
        assert x in longer[i];
      }
      if x in component {
        assert x in longer[|components|];
      }
    }
  }

  lemma RestIsClosed(neighbors: map<nat, set<nat>>, all: set<nat>, component: set<nat>)
    requires Symmetric(neighbors) && Closed(neighbors, all) && Closed(neighbors, component)
    ensures Closed(neighbors, all - component)
  {
  }

  // ---------------------------------------------------------- main results

  lemma {:induction false} SidesOfExact(triangles: seq<Triangle>, t: nat, e: Edge, k: nat)
    requires t < |triangles| && k <= 3
    ensures var s := SidesOf(triangles, t, e, k);
      && (forall p :: p in s <==> p.0 == t && p.1 < k && SideEdge(triangles[t], p.1) == e)
      && (forall i, j | 0 <= i < j < |s| :: s[i] != s[j])
  {
    if k > 0 {
      SidesOfExact(triangles, t, e, k - 1);
    }
  }

  /** Every owning side is listed once, and nothing else is. */
  lemma {:induction false} OwningSidesExact(triangles: seq<Triangle>, candidates: seq<nat>, e: Edge)
    requires Candidates(triangles, candidates)
    ensures var s := OwningSides(triangles, candidates, e);
      && (forall p :: p in s <==> p.0 in candidates && p.1 < 3 && SideEdge(triangles[p.0], p.1) == e)
      && (forall i, j | 0 <= i < j < |s| :: s[i] != s[j])
  {
    if candidates != [] {
      hide SideEdge, SidesOf;
      var n := |candidates| - 1;
      var rest, t := candidates[..n], candidates[n];
      assert candidates == rest + [t];
      OwningSidesExact(triangles, rest, e);
      SidesOfExact(triangles, t, e, 3);
      assert t !in rest;
      var a, b := OwningSides(triangles, rest, e), SidesOf(triangles, t, e, 3);
      assert OwningSides(triangles, candidates, e) == a + b;
      hide OwningSides, Candidates;
      DisjointAppend(a, b);
      assert forall x :: x in candidates <==> x in rest || x == t;
    }
  }

  lemma DisjointAppend(a: seq<(nat, nat)>, b: seq<(nat, nat)>)
    requires forall i, j | 0 <= i < j < |a| :: a[i] != a[j]
    requires forall i, j | 0 <= i < j < |b| :: b[i] != b[j]
    requires forall p | p in a :: p !in b
    ensures forall i, j | 0 <= i < j < |a + b| :: (a + b)[i] != (a + b)[j]
    ensures forall p :: p in a + b <==> p in a || p in b
  {
    forall i, j | 0 <= i < j < |a + b| ensures (a + b)[i] != (a + b)[j]
    {
      assert i < |a| ==> (a + b)[i] in a;
      assert j >= |a| ==> (a + b)[j] in b;
    }
  }

  lemma {:induction false} DistinctLength(s: seq<(nat, nat)>)
    requires forall i, j | 0 <= i < j < |s| :: s[i] != s[j]
    ensures |set x | x in s| == |s|
  {
    if s != [] {
      var n := |s| - 1;
      DistinctLength(s[..n]);
      assert s == s[..n] + [s[n]] && s[n] !in s[..n];
      assert (set x | x in s) == (set x | x in s[..n]) + {s[n]};
    }
  }

  /** A list without repetitions has two entries exactly when its elements are two different values. */
  lemma TwoEntries(s: seq<(nat, nat)>, sides: set<(nat, nat)>)
    requires forall p :: p in s <==> p in sides
    requires forall i, j | 0 <= i < j < |s| :: s[i] != s[j]
    ensures |s| == 2 ==> s[0] != s[1] && sides == {s[0], s[1]}
    ensures forall p, q | p != q && sides == {p, q} ::
      |s| == 2 && ((s[0] == p && s[1] == q) || (s[0] == q && s[1] == p))
  {
    DistinctLength(s);
    assert sides == set x | x in s;
  }

  /** The sides listed for an edge are those that join its two vertices. */
  lemma ListedSides(triangles: seq<Triangle>, candidates: seq<nat>, u: nat, v: nat, p: (nat, nat))
    requires Candidates(triangles, candidates)
    ensures p in OwningSides(triangles, candidates, EdgeOf(u, v)) <==> p in Sides(triangles, candidates, u, v)
  {
    OwningSidesExact(triangles, candidates, EdgeOf(u, v));
    if p.0 in candidates && p.1 < 3 {
      SidesJoinTheirEnds(triangles[p.0], p.1, u, v);
      assert p == (p.0, p.1);
    }
    hide SideEdge, EdgeOf, Ends, OwningSides;
  }

  lemma OwnersOfPair(triangles: seq<Triangle>, candidates: seq<nat>, u: nat, v: nat, x: nat, y: nat)
    requires Candidates(triangles, candidates)
    ensures PairOf(Owners(OwningSides(triangles, candidates, EdgeOf(u, v))), x, y)
       <==> exists k, l :: SoleOwners(triangles, candidates, u, v, (x, k), (y, l))
  {
    var s := OwningSides(triangles, candidates, EdgeOf(u, v));
    OwningSidesExact(triangles, candidates, EdgeOf(u, v));
    forall p ensures p in s <==> p in Sides(triangles, candidates, u, v)
    {
      ListedSides(triangles, candidates, u, v, p);
    }
    hide SideEdge, EdgeOf, OwningSides, Sides;
    TwoEntries(s, Sides(triangles, candidates, u, v));
    if PairOf(Owners(s), x, y) {
      if s[0].0 == x && s[1].0 == y {
        assert SoleOwners(triangles, candidates, u, v, (x, s[0].1), (y, s[1].1));
      } else {
        assert {s[0], s[1]} == {s[1], s[0]};
        assert SoleOwners(triangles, candidates, u, v, (x, s[1].1), (y, s[0].1));
      }
    }
  }

  /** Every edge of the table joins two vertices: it is that of some candidate side. */
  lemma TableEdgesJoin(triangles: seq<Triangle>, candidates: seq<nat>, e: Edge) returns (u: nat, v: nat)
    requires Candidates(triangles, candidates) && OwningSides(triangles, candidates, e) != []
    ensures e == EdgeOf(u, v)
  {
    OwningSidesExact(triangles, candidates, e);
    var p := OwningSides(triangles, candidates, e)[0];
    assert p in OwningSides(triangles, candidates, e);
    var t := triangles[p.0];
    hide OwningSides, EdgeOf;
    u := if p.1 == 0 then t.a else if p.1 == 1 then t.b else t.c;
    v := if p.1 == 0 then t.b else if p.1 == 1 then t.c else t.a;
  }

  /** The two tables together compute adjacency: two candidates are neighbors exactly when some two vertices
      are joined by precisely two candidate sides, one of each. */
  lemma NeighborsAreAdjacent(triangles: seq<Triangle>, candidates: seq<nat>, owners: map<Edge, seq<nat>>,
                             neighbors: map<nat, set<nat>>)
    requires Candidates(triangles, candidates) && OwnersTable(triangles, candidates, owners)
    requires forall x, y :: y in Next(neighbors, x) <==> exists e :: e in owners && PairOf(owners[e], x, y)
    ensures forall x, y :: y in Next(neighbors, x) <==> Adjacent(triangles, candidates, x, y)
  {
    hide SideEdge, EdgeOf, OwningSides, SoleOwners;
    forall x: nat, y: nat ensures y in Next(neighbors, x) <==> Adjacent(triangles, candidates, x, y)
    {
      if y in Next(neighbors, x) {
        var e :| e in owners && PairOf(owners[e], x, y);
        assert At(owners, e) == Owners(OwningSides(triangles, candidates, e));
        var u, v := TableEdgesJoin(triangles, candidates, e);
        OwnersOfPair(triangles, candidates, u, v, x, y);
      }
      if Adjacent(triangles, candidates, x, y) {
        var u, v, k, l :| SoleOwners(triangles, candidates, u, v, (x, k), (y, l));
        OwnersOfPair(triangles, candidates, u, v, x, y);
        var e := EdgeOf(u, v);
        assert At(owners, e) == Owners(OwningSides(triangles, candidates, e));
        assert e in owners && PairOf(owners[e], x, y);
      }
    }
  }

  lemma AdjacencyIsSymmetric(triangles: seq<Triangle>, candidates: seq<nat>, neighbors: map<nat, set<nat>>)
    requires Candidates(triangles, candidates)
    requires forall x, y :: y in Next(neighbors, x) <==> Adjacent(triangles, candidates, x, y)
    ensures Symmetric(neighbors) && Closed(neighbors, Elements(candidates))
  {
    hide Ends;
    forall x: nat, y: nat | y in Next(neighbors, x) ensures x in Next(neighbors, y) && y in candidates
    {
      var u, v, k: nat, l: nat :| SoleOwners(triangles, candidates, u, v, (x, k), (y, l));
      assert {(x, k), (y, l)} == {(y, l), (x, k)};
      assert SoleOwners(triangles, candidates, u, v, (y, l), (x, k));
      assert (y, l) in Sides(triangles, candidates, u, v);
    }
  }

  /** Extract the components of the candidates of a mesh. */
  method MeshComponents(triangles: seq<Triangle>, candidates: seq<nat>)
    returns (components: seq<set<nat>>, neighbors: map<nat, set<nat>>)
    requires Candidates(triangles, candidates)
    ensures forall x, y :: y in Next(neighbors, x) <==> Adjacent(triangles, candidates, x, y)
    ensures IsPartition(components, Elements(candidates))
    ensures forall i | 0 <= i < |components| :: IsClass(neighbors, components[i])
  {
    hide OwnersTable, Adjacent, IsClass, IsPartition;
    var owners := BuildOwners(triangles, candidates);
    neighbors := BuildNeighbors(owners);
    NeighborsAreAdjacent(triangles, candidates, owners, neighbors);
    AdjacencyIsSymmetric(triangles, candidates, neighbors);
    components := Components(neighbors, Elements(candidates));
  }

  /** The members of a partition into classes are the classes of the elements, so the result does
      not depend on which seed was taken when. */
  lemma PartitionIsUnique(neighbors: map<nat, set<nat>>, all: set<nat>, a: seq<set<nat>>, b: seq<set<nat>>)
    requires IsPartition(a, all) && (forall i | 0 <= i < |a| :: IsClass(neighbors, a[i]))
    requires IsPartition(b, all) && (forall i | 0 <= i < |b| :: IsClass(neighbors, b[i]))
    ensures multiset(a) == multiset(b)
  {
    forall s ensures s in a <==> s in b
    {
      if s in a { ClassOccurs(neighbors, all, a, b, s); }
      if s in b { ClassOccurs(neighbors, all, b, a, s); }
    }
    PartitionHasNoRepeats(neighbors, all, a);
    PartitionHasNoRepeats(neighbors, all, b);
    SameMembersSameMultiset(a, b);
  }

  lemma ClassOf(neighbors: map<nat, set<nat>>, s: set<nat>, x: nat, y: nat)
    requires IsClass(neighbors, s) && x in s
    ensures y in s <==> Reaches(neighbors, x, y)
  {
    hide Reaches;
  }

  lemma ClassOccurs(neighbors: map<nat, set<nat>>, all: set<nat>, a: seq<set<nat>>, b: seq<set<nat>>, s: set<nat>)
    requires IsPartition(a, all) && (forall i | 0 <= i < |a| :: IsClass(neighbors, a[i]))
    requires IsPartition(b, all) && (forall i | 0 <= i < |b| :: IsClass(neighbors, b[i]))
    requires s in a
    ensures s in b
  {
    var i :| 0 <= i < |a| && a[i] == s;
    assert IsClass(neighbors, a[i]);
    var x :| x in s;
    assert x in all;
    var j :| 0 <= j < |b| && x in b[j];
    assert IsClass(neighbors, b[j]);
    hide IsClass, Reaches, IsPartition;
    forall y ensures y in b[j] <==> y in s
    {
      ClassOf(neighbors, s, x, y);
      ClassOf(neighbors, b[j], x, y);
    }
    assert b[j] == s;
  }

  lemma PartitionHasNoRepeats(neighbors: map<nat, set<nat>>, all: set<nat>, a: seq<set<nat>>)
    requires IsPartition(a, all) && (forall i | 0 <= i < |a| :: IsClass(neighbors, a[i]))
    ensures forall i, j | 0 <= i < j < |a| :: a[i] != a[j]
  {
    forall i, j | 0 <= i < j < |a| ensures a[i] != a[j]
    {
      assert IsClass(neighbors, a[i]);
      var x :| x in a[i];
      assert a[i] !! a[j];
    }
  }

  lemma {:induction false} CountsAtMostOnce(a: seq<set<nat>>, s: set<nat>)
    requires forall i, j | 0 <= i < j < |a| :: a[i] != a[j]
    ensures multiset(a)[s] == if s in a then 1 else 0
  {
    if a != [] {
      var n := |a| - 1;
      CountsAtMostOnce(a[..n], s);
      assert a == a[..n] + [a[n]];
    }
  }

  lemma SameMembersSameMultiset(a: seq<set<nat>>, b: seq<set<nat>>)
    requires forall i, j | 0 <= i < j < |a| :: a[i] != a[j]
    requires forall i, j | 0 <= i < j < |b| :: b[i] != b[j]
    requires forall s :: s in a <==> s in b
    ensures multiset(a) == multiset(b)
  {
    forall s ensures multiset(a)[s] == multiset(b)[s]
    {
      CountsAtMostOnce(a, s);
      CountsAtMostOnce(b, s);
    }
  }
}
