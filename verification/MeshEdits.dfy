/** Translating selected mesh regions in place: one planar patch grown from a seed triangle, or
    several caller-selected regions that must not share a vertex. */
module MeshEdits {
  import opened Contracts
  import opened MeshRegions

  // ------------------------------------------------------ the planar patch

  /** Breadth-first growth that tests membership in the component itself. */
  method GrowPatch(neighbors: map<nat, set<nat>>, ghost all: set<nat>, seed: nat) returns (component: set<nat>)
    requires Symmetric(neighbors) && Closed(neighbors, all) && seed in all
    ensures IsClass(neighbors, component) && seed in component && component <= all
  {
    hide Flooding, Reaches, Closed;
    component := {seed};
    var queue := [seed];
    PatchStart(neighbors, all, seed);
    while queue != []
      invariant Flooding(neighbors, all, seed, component, all - component, Elements(queue))
      decreases |all - component|, |queue|
    {
      var current := queue[0];
      FloodingFacts(neighbors, all, seed, component, all - component, Elements(queue));
      assert current in Elements(queue);
      assert Elements(queue) == Elements(queue[1..]) + {current};
      component, queue := VisitPatch(neighbors, all, seed, current, component, queue[1..]);
    }
    PatchEnd(neighbors, all, seed, component);
  }

  lemma PatchStart(neighbors: map<nat, set<nat>>, all: set<nat>, seed: nat)
    requires seed in all
    ensures Flooding(neighbors, all, seed, {seed}, all - {seed}, Elements([seed]))
  {
    ReachesSelf(neighbors, seed);
  }

  lemma PatchEnd(neighbors: map<nat, set<nat>>, all: set<nat>, seed: nat, component: set<nat>)
    requires Symmetric(neighbors) && Flooding(neighbors, all, seed, component, all - component, Elements([]))
    ensures IsClass(neighbors, component) && seed in component && component <= all
  {
    ReachedAndClosedIsClass(neighbors, component, seed);
  }

  lemma ClaimInPatch(neighbors: map<nat, set<nat>>, all: set<nat>, seed: nat, component: set<nat>, queue: seq<nat>,
                     current: nat, neighbor: nat)
    requires Flooding(neighbors, all, seed, component, all - component, Elements(queue) + {current})
    requires current in component && neighbor in Next(neighbors, current) && neighbor in all - component
    ensures Flooding(neighbors, all, seed, component + {neighbor}, all - (component + {neighbor}),
                     Elements(queue + [neighbor]) + {current})
    ensures |all - (component + {neighbor})| < |all - component|
  {
    hide Flooding;
    Claim(neighbors, all, seed, component, all - component, Elements(queue) + {current}, current, neighbor);
    assert Elements(queue + [neighbor]) + {current} == Elements(queue) + {current} + {neighbor};
    assert all - (component + {neighbor}) == all - component - {neighbor};
  }

  method VisitPatch(neighbors: map<nat, set<nat>>, ghost all: set<nat>, seed: nat, current: nat,
                    component0: set<nat>, queue0: seq<nat>)
    returns (component: set<nat>, queue: seq<nat>)
    requires Closed(neighbors, all) && current in component0
    requires Flooding(neighbors, all, seed, component0, all - component0, Elements(queue0) + {current})
    ensures Flooding(neighbors, all, seed, component, all - component, Elements(queue))
    ensures |all - component| < |all - component0| || (component == component0 && queue == queue0)
  {
    hide Flooding, Reaches, Elements;
    component, queue := component0, queue0;
    FloodingFacts(neighbors, all, seed, component, all - component, Elements(queue) + {current});
    var todo := Next(neighbors, current);
    while todo != {}
      invariant todo <= Next(neighbors, current)
      invariant current in component && component <= all && Next(neighbors, current) - todo <= component
      invariant Flooding(neighbors, all, seed, component, all - component, Elements(queue) + {current})
      invariant |all - component| < |all - component0| || (component == component0 && queue == queue0)
    {
      var neighbor :| neighbor in todo;
      todo := todo - {neighbor};
      if neighbor !in component {
        ClaimInPatch(neighbors, all, seed, component, queue, current, neighbor);
        component := component + {neighbor};
        queue := queue + [neighbor];
      }
    }
    Processed(neighbors, all, seed, component, all - component, Elements(queue), current);
  }

  /** The vertex is a corner of some triangle of the component. */
  ghost predicate IsCorner(triangles: seq<Triangle>, component: set<nat>, v: nat)
    requires forall t | t in component :: t < |triangles|
  {
    exists t :: t in component && (v == triangles[t].a || v == triangles[t].b || v == triangles[t].c)
  }

  /** `np.unique` of the corners of the triangles. */
  function Corners(triangles: seq<Triangle>, component: set<nat>): (corners: set<nat>)
    requires forall t | t in component :: t < |triangles|
    ensures forall v :: v in corners <==> IsCorner(triangles, component, v)
  {
    (set t | t in component :: triangles[t].a) + (set t | t in component :: triangles[t].b)
    + (set t | t in component :: triangles[t].c)
  }

  /** Add a distance to one coordinate of each listed vertex, once. */
  method MoveVertices(coordinates: array<real>, moved: set<nat>, distance: real)
    requires forall v | v in moved :: v < coordinates.Length
    modifies coordinates
    ensures forall v: nat | v < coordinates.Length ::
      coordinates[v] == if v in moved then old(coordinates[v]) + distance else old(coordinates[v])
  {
    var todo := moved;
    while todo != {}
      invariant todo <= moved
      invariant forall v: nat | v < coordinates.Length ::
        coordinates[v] == if v in moved - todo then old(coordinates[v]) + distance else old(coordinates[v])
    {
      var v :| v in todo;
      coordinates[v] := coordinates[v] + distance;
      todo := todo - {v};
    }
  }

  datatype PatchError = NoTriangles | TooFewVertices

  /** The reachability class of the chosen triangle under adjacency. */
  ghost predicate IsPatch(triangles: seq<Triangle>, candidates: seq<nat>, seed: nat, component: set<nat>,
                          neighbors: map<nat, set<nat>>)
    requires Candidates(triangles, candidates)
  {
    && seed in component && component <= Elements(candidates) && IsClass(neighbors, component)
    && forall x, y :: y in Next(neighbors, x) <==> Adjacent(triangles, candidates, x, y)
  }

  method FindPatch(triangles: seq<Triangle>, candidates: seq<nat>, seed: nat)
    returns (component: set<nat>, neighbors: map<nat, set<nat>>)
    requires Candidates(triangles, candidates) && seed in candidates
    ensures IsPatch(triangles, candidates, seed, component, neighbors)
  {
    hide Adjacent, IsClass, OwnersTable;
    var owners := BuildOwners(triangles, candidates);
    neighbors := BuildNeighbors(owners);
    NeighborsAreAdjacent(triangles, candidates, owners, neighbors);
    AdjacencyIsSymmetric(triangles, candidates, neighbors);
    component := GrowPatch(neighbors, Elements(candidates), seed);
  }

  lemma PatchInRange(triangles: seq<Triangle>, candidates: seq<nat>, seed: nat, component: set<nat>,
                     neighbors: map<nat, set<nat>>)
    requires Candidates(triangles, candidates) && IsPatch(triangles, candidates, seed, component, neighbors)
    ensures forall t | t in component :: t < |triangles|
  {
    hide Adjacent, IsClass;
    assert forall t | t in component :: t in Elements(candidates);
  }

  lemma CornersInRange(triangles: seq<Triangle>, component: set<nat>, n: nat)
    requires forall t | t in component :: t < |triangles|
    requires forall i | 0 <= i < |triangles| :: triangles[i].a < n && triangles[i].b < n && triangles[i].c < n
    ensures forall v | v in Corners(triangles, component) :: v < n
  {
  }

  /** Move the connected coplanar patch around the chosen triangle: exactly the corners of the
      triangles reachable from it, each once; too small a patch moves nothing. */
  method TranslatePatch(coordinates: array<real>, triangles: seq<Triangle>, candidates: seq<nat>, nearest: nat,
                        distance: real)
    returns (result: Result<(nat, nat), PatchError>, component: set<nat>, neighbors: map<nat, set<nat>>)
    requires Candidates(triangles, candidates) && (candidates != [] ==> nearest < |candidates|)
    requires forall i | 0 <= i < |triangles| ::
      triangles[i].a < coordinates.Length && triangles[i].b < coordinates.Length && triangles[i].c < coordinates.Length
    modifies coordinates
    ensures result == Failure(NoTriangles) <==> candidates == []
    ensures candidates == [] ==> component == {}
    ensures candidates != [] ==> IsPatch(triangles, candidates, candidates[nearest], component, neighbors)
    ensures forall t | t in component :: t < |triangles|
    ensures result.Success? <==> |Corners(triangles, component)| >= 3
    ensures result.Success? ==> result.value == (|component|, |Corners(triangles, component)|)
    ensures forall v: nat | v < coordinates.Length ::
      var moved := result.Success? && IsCorner(triangles, component, v);
      coordinates[v] == if moved then old(coordinates[v]) + distance else old(coordinates[v])
  {
    hide Adjacent, IsClass;
    if candidates == [] {
      return Failure(NoTriangles), {}, map[];
    }
    component, neighbors := FindPatch(triangles, candidates, candidates[nearest]);
    PatchInRange(triangles, candidates, candidates[nearest], component, neighbors);
    CornersInRange(triangles, component, coordinates.Length);
    hide IsPatch, Corners;
    var moved := Corners(triangles, component);
    if |moved| < 3 {
      return Failure(TooFewVertices), component, neighbors;
    }
    MoveVertices(coordinates, moved, distance);
    result := Success((|component|, |moved|));
  }

  // ---------------------------------------------------- several regions

  /** The first of the smallest distances. */
  ghost predicate IsArgMin(distances: seq<real>, k: nat)
  {
    && k < |distances|
    && (forall j | 0 <= j < |distances| :: distances[k] <= distances[j])
    && (forall j | 0 <= j < k :: distances[k] < distances[j])
  }

  method ArgMin(distances: seq<real>) returns (k: nat)
    requires distances != []
    ensures IsArgMin(distances, k)
  {
    k := 0;
    for i := 1 to |distances|
      invariant k < i
      invariant forall j | 0 <= j < i :: distances[k] <= distances[j]
      invariant forall j | 0 <= j < k :: distances[k] < distances[j]
    {
      if distances[i] < distances[k] {
        k := i;
      }
    }
  }

  datatype SelectError = TooFar(seed: nat) | SameRegion(seed: nat)

  /** The first n seeds each have a nearest region within the tolerance, no two the same. */
  ghost predicate Selectable(distances: seq<seq<real>>, tolerance: real, n: nat)
    requires n <= |distances|
  {
    && (forall i, k: nat | 0 <= i < n && IsArgMin(distances[i], k) :: distances[i][k] <= tolerance)
    && forall i, j | 0 <= i < j < n :: !Share(distances[i], distances[j])
  }

  /** Both seeds have the same nearest region. */
  ghost predicate Share(a: seq<real>, b: seq<real>)
  {
    exists k: nat :: IsArgMin(a, k) && IsArgMin(b, k)
  }

  lemma ArgMinIsUnique(distances: seq<real>, j: nat, k: nat)
    requires IsArgMin(distances, j) && IsArgMin(distances, k)
    ensures j == k
  {
    assert distances[j] == distances[k];
  }

  lemma SelectedAreSelectable(distances: seq<seq<real>>, tolerance: real, selected: seq<nat>)
    requires |selected| <= |distances|
    requires forall j | 0 <= j < |selected| ::
      IsArgMin(distances[j], selected[j]) && distances[j][selected[j]] <= tolerance
    requires forall a, b | 0 <= a < b < |selected| :: selected[a] != selected[b]
    ensures Selectable(distances, tolerance, |selected|)
  {
    forall i, k: nat | 0 <= i < |selected| && IsArgMin(distances[i], k) ensures k == selected[i]
    {
      ArgMinIsUnique(distances[i], k, selected[i]);
    }
  }

  /** The nearest region of every seed. It is refused exactly at the first seed that is too far from every
      region, or whose region an earlier seed has. */
  method SelectRegions(distances: seq<seq<real>>, tolerance: real) returns (r: Result<seq<nat>, SelectError>)
    requires forall i | 0 <= i < |distances| :: distances[i] != []
    ensures r.Success? ==> |r.value| == |distances|
    ensures r.Success? ==> forall i | 0 <= i < |distances| ::
      IsArgMin(distances[i], r.value[i]) && distances[i][r.value[i]] <= tolerance
    ensures r.Success? ==> forall i, j | 0 <= i < j < |distances| :: r.value[i] != r.value[j]
    ensures r.Success? ==> Selectable(distances, tolerance, |distances|)
    ensures r.Failure? ==> r.error.seed < |distances| && Selectable(distances, tolerance, r.error.seed)
    ensures r.Failure? && r.error.SameRegion? ==>
      exists k: nat :: IsArgMin(distances[r.error.seed], k) && distances[r.error.seed][k] <= tolerance
    ensures r.Failure? && r.error.TooFar? ==>
      forall k | 0 <= k < |distances[r.error.seed]| :: distances[r.error.seed][k] > tolerance
    ensures r.Failure? && r.error.SameRegion? ==>
      exists i, k :: 0 <= i < r.error.seed && IsArgMin(distances[i], k) && IsArgMin(distances[r.error.seed], k)
  {
    var selected: seq<nat> := [];
    for i := 0 to |distances|
      invariant |selected| == i
      invariant forall j | 0 <= j < i :: IsArgMin(distances[j], selected[j]) && distances[j][selected[j]] <= tolerance
      invariant forall a, b | 0 <= a < b < i :: selected[a] != selected[b]
    {
      SelectedAreSelectable(distances, tolerance, selected);
      var k := ArgMin(distances[i]);
      if distances[i][k] > tolerance {
        return Failure(TooFar(i));
      }
      if k in selected {
        var j :| 0 <= j < i && selected[j] == k;
        assert IsArgMin(distances[j], k);
        return Failure(SameRegion(i));
      }
      selected := selected + [k];
    }
    SelectedAreSelectable(distances, tolerance, selected);
    r := Success(selected);
  }

  predicate Meets(a: set<nat>, b: set<nat>)
  {
    a * b != {}
  }

  lemma NotMeeting(a: set<nat>, b: set<nat>)
    ensures !Meets(a, b) <==> a !! b
  {
    assert forall x :: x in a * b <==> x in a && x in b;
  }

  ghost predicate Disjoint(regions: seq<set<nat>>, n: nat)
    requires n <= |regions|
  {
    forall i, j | 0 <= i < j < n :: regions[i] !! regions[j]
  }

  /** What the coordinates are once the first n regions have been moved. */
  twostate predicate Moved(coordinates: array<real>, regions: seq<set<nat>>, distances: seq<real>, n: nat)
    requires n <= |regions| == |distances|
    reads coordinates
  {
    && (forall i, v: nat | 0 <= i < n && v in regions[i] && v < coordinates.Length ::
          coordinates[v] == old(coordinates[v]) + distances[i])
    && (forall v: nat | v < coordinates.Length && (forall i | 0 <= i < n :: v !in regions[i]) ::
          coordinates[v] == old(coordinates[v]))
  }

  /** Move every region by its own distance. It succeeds exactly when no two regions share a vertex;
      otherwise it stops at the first region that meets an earlier one, before any output. */
  method MoveRegions(coordinates: array<real>, regions: seq<set<nat>>, distances: seq<real>)
    returns (r: Result<set<nat>, nat>)
    requires |regions| == |distances|
    requires forall i, v | 0 <= i < |regions| && v in regions[i] :: v < coordinates.Length
    modifies coordinates
    ensures r.Success? <==> Disjoint(regions, |regions|)
    ensures r.Success? ==> Moved(coordinates, regions, distances, |regions|)
    ensures r.Success? ==> r.value == set i, v | 0 <= i < |regions| && v in regions[i] :: v
    ensures r.Failure? ==> r.error < |regions| && Disjoint(regions, r.error) && !Disjoint(regions, r.error + 1)
    ensures r.Failure? ==> Moved(coordinates, regions, distances, r.error)
  {
    var union: set<nat> := {};
    for k := 0 to |regions|
      invariant Disjoint(regions, k) && Moved(coordinates, regions, distances, k)
      invariant union == set i, v | 0 <= i < k && v in regions[i] :: v
    {
      var shared := false;
      for j := 0 to k
        invariant shared <==> exists i | 0 <= i < j :: Meets(regions[i], regions[k])
      {
        if Meets(regions[j], regions[k]) {
          shared := true;
        }
      }
      if shared {
        ghost var i :| 0 <= i < k && Meets(regions[i], regions[k]);
        assert !(regions[i] !! regions[k]);
        return Failure(k);
      }
      forall i | 0 <= i < k ensures regions[i] !! regions[k]
      {
        NotMeeting(regions[i], regions[k]);
      }
      MoveVertices(coordinates, regions[k], distances[k]);
      union := union + regions[k];
    }
    r := Success(union);
  }
}
