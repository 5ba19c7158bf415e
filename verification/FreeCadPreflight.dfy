/** The native adapter's static check of a plan against what its executor then does to the document,
    object by object. The host is reduced to adding one object, removing one object and setting values. */
module FreeCadPreflight {
  import opened Contracts

  datatype TypeId = BoxType | CylinderType | SketchType | ExtrusionType | CutType | ForeignType

  /** A document object: the name the host gave it, the adapter's id tag ("" when untagged), its editable
      numbers, and for a sketch the adapter's map from geometry ids to the indices of the host's shapes, the
      number of those shapes, and the number of constraints. */
  datatype Obj = Obj(
    name: string, tag: string, typeId: TypeId, numbers: map<string, real>, geometry: map<string, nat>, shapes: nat,
    constraints: nat)

  type Doc = seq<Obj>

  function IdOf(o: Obj): string
  {
    if o.tag != "" then o.tag else o.name
  }

  function Ids(d: Doc): set<string>
  {
    set o | o in d :: IdOf(o)
  }

  predicate UniqueIds(d: Doc)
  {
    forall i, j | 0 <= i < j < |d| :: IdOf(d[i]) != IdOf(d[j])
  }

  predicate Supported(kind: ActionKind)
  {
    match kind
    case Revolve | Fillet | Chamfer | Pattern | SaveDocument | ExportDocument => false
    case _ => true
  }

  predicate CreatesFeature(kind: ActionKind)
  {
    match kind
    case CreateSketch | AddBox | AddCylinder | Extrude | BooleanCut => true
    case _ => false
  }

  predicate NeedsTarget(kind: ActionKind)
  {
    match kind
    case AddSketchGeometry | AddConstraint | SetParameter | DeleteFeature | Extrude | BooleanCut => true
    case _ => false
  }

  // --------------------------------------------------------- the static check

  /** Crash stands for a Python TypeError: a list or object tested for membership in a set. */
  datatype Check = Pass | Fail(code: DiagnosticCode) | Crash

  predicate Unhashable(j: Json)
  {
    j.Array? || j.Object?
  }

  predicate HasText(a: Action, name: string)
  {
    IsNonBlankText(Get(a.parameters, name))
  }

  predicate HasPositive(a: Action, name: string)
  {
    IsPositiveNumber(Get(a.parameters, name))
  }

  function FeatureId(a: Action): string
  {
    if HasText(a, "feature_id") then Get(a.parameters, "feature_id").s else ""
  }

  function Plane(a: Action): Json
  {
    if "plane" in a.parameters then a.parameters["plane"] else Text("XY")
  }

  predicate TargetKnown(a: Action, known: set<string>)
  {
    a.targetId.Some? && a.targetId.value != "" && a.targetId.value in known
  }

  function CheckGeometry(items: seq<Json>, seen: set<string>): Check
  {
    if items == [] then Pass
    else if !items[0].Object? then Fail(InvalidParameter)
    else
      var id, shape := Get(items[0].fields, "geometry_id"), Get(items[0].fields, "type");
      if !IsNonBlankText(id) || id.s in seen then Fail(InvalidParameter)
      else if Unhashable(shape) then Crash
      else if shape != Text("line") && shape != Text("circle") then Fail(InvalidParameter)
      else CheckGeometry(items[1..], seen + {id.s})
  }

  function CheckParameters(a: Action, known: set<string>): Check
  {
    match a.kind
    case AddBox =>
      if HasPositive(a, "width") && HasPositive(a, "depth") && HasPositive(a, "height") then Pass
      else Fail(InvalidParameter)
    case AddCylinder => if HasPositive(a, "radius") && HasPositive(a, "height") then Pass else Fail(InvalidParameter)
    case CreateSketch =>
      if Unhashable(Plane(a)) then Crash
      else if Plane(a) in {Text("XY"), Text("XZ"), Text("YZ")} then Pass
      else Fail(InvalidParameter)
    case AddSketchGeometry =>
      var geometry := Get(a.parameters, "geometry");
      if !geometry.Array? || geometry.items == [] then Fail(InvalidParameter) else CheckGeometry(geometry.items, {})
    case AddConstraint =>
      var constraints := Get(a.parameters, "constraints");
      if !constraints.Array? || constraints.items == [] then Fail(InvalidParameter) else Pass
    case Extrude => if HasPositive(a, "length") then Pass else Fail(InvalidParameter)
    case BooleanCut =>
      if !HasText(a, "tool_id") then Fail(InvalidParameter)
      else if Get(a.parameters, "tool_id").s !in known then Fail(FeatureNotFound)
      else if a.targetId == Some(Get(a.parameters, "tool_id").s) then Fail(InvalidParameter)
      else Pass
    case SetParameter =>
      if HasText(a, "name") && Get(a.parameters, "value").Number? then Pass else Fail(InvalidParameter)
    case _ => Pass
  }

  function Preflight(a: Action, known: set<string>): Check
  {
    if a.kind == CreateDocument then Pass
    else if CreatesFeature(a.kind) && !HasText(a, "feature_id") then Fail(InvalidParameter)
    else if CreatesFeature(a.kind) && FeatureId(a) in known then Fail(DuplicateFeature)
    else if NeedsTarget(a.kind) && !TargetKnown(a, known) then Fail(FeatureNotFound)
    else CheckParameters(a, known)
  }

  /** The ids the check believes present after an action that passes. */
  function Learn(known: set<string>, a: Action): set<string>
  {
    if CreatesFeature(a.kind) then known + {FeatureId(a)}
    else if a.kind == DeleteFeature && a.targetId.Some? then known - {a.targetId.value}
    else known
  }

  predicate PassesAt(a: Action, known: set<string>)
  {
    Supported(a.kind) && Preflight(a, known) == Pass
  }

  function CodeAt(a: Action, known: set<string>): seq<Diagnostic>
  {
    if !Supported(a.kind) then [Diagnostic(UnsupportedAction, Some(a.actionId))]
    else if Preflight(a, known).Fail? then [Diagnostic(Preflight(a, known).code, Some(a.actionId))]
    else []
  }

  predicate CrashesAt(a: Action, known: set<string>)
  {
    Supported(a.kind) && Preflight(a, known) == Crash
  }

  // ------------------------------------------------- when a check raises

  function GeometryId(j: Json): Json
  {
    if j.Object? then Get(j.fields, "geometry_id") else Null
  }

  function GeometryType(j: Json): Json
  {
    if j.Object? then Get(j.fields, "type") else Null
  }

  /** Item i is an object with a non-blank id that no earlier item and nothing seen before has. */
  ghost predicate NamedAnew(items: seq<Json>, seen: set<string>, i: nat)
    requires i < |items|
  {
    && IsNonBlankText(GeometryId(items[i])) && GeometryId(items[i]).s !in seen
    && forall k | 0 <= k < i :: GeometryId(items[k]) != GeometryId(items[i])
  }

  /** Item j, after well-formed ones, has a list or an object for its type. */
  ghost predicate TripsAt(items: seq<Json>, seen: set<string>, j: nat)
  {
    && j < |items| && NamedAnew(items, seen, j) && (GeometryType(items[j]).Array? || GeometryType(items[j]).Object?)
    && forall i: nat | i < j :: NamedAnew(items, seen, i) && GeometryType(items[i]) in {Text("line"), Text("circle")}
  }

  /** The inputs on which the check of an action raises: a new sketch whose plane, or new geometry whose
      first ill-formed item's type, is a list or an object. */
  ghost predicate Trips(a: Action, known: set<string>)
  {
    || (a.kind == CreateSketch && HasText(a, "feature_id") && FeatureId(a) !in known
        && "plane" in a.parameters && (a.parameters["plane"].Array? || a.parameters["plane"].Object?))
    || (a.kind == AddSketchGeometry && TargetKnown(a, known) && Get(a.parameters, "geometry").Array?
        && exists j: nat :: TripsAt(Get(a.parameters, "geometry").items, {}, j))
  }

  lemma TailNamedAnew(items: seq<Json>, seen: set<string>, i: nat)
    requires i + 1 < |items| && IsNonBlankText(GeometryId(items[0]))
    ensures NamedAnew(items, seen, i + 1) <==> NamedAnew(items[1..], seen + {GeometryId(items[0]).s}, i)
  {
    assert forall k | 0 <= k < i :: items[1..][k] == items[k + 1];
    if NamedAnew(items[1..], seen + {GeometryId(items[0]).s}, i) {
      forall k | 0 <= k < i + 1 ensures GeometryId(items[k]) != GeometryId(items[i + 1])
      {
        assert k > 0 ==> GeometryId(items[1..][k - 1]) != GeometryId(items[1..][i]);
      }
    }
    if NamedAnew(items, seen, i + 1) {
      forall k | 0 <= k < i ensures GeometryId(items[1..][k]) != GeometryId(items[1..][i])
      {
        assert GeometryId(items[k + 1]) != GeometryId(items[i + 1]);
      }
      assert GeometryId(items[0]) != GeometryId(items[i + 1]);
    }
  }

  lemma TailTrips(items: seq<Json>, seen: set<string>, j: nat)
    requires items != [] && NamedAnew(items, seen, 0) && GeometryType(items[0]) in {Text("line"), Text("circle")}
    ensures TripsAt(items, seen, j + 1) <==> TripsAt(items[1..], seen + {GeometryId(items[0]).s}, j)
  {
    var rest, more := items[1..], seen + {GeometryId(items[0]).s};
    forall i: nat | i < |rest| ensures NamedAnew(items, seen, i + 1) <==> NamedAnew(rest, more, i)
    {
      TailNamedAnew(items, seen, i);
    }
    hide NamedAnew, GeometryId, GeometryType;
    if TripsAt(rest, more, j) {
      forall i: nat | i < j + 1
        ensures NamedAnew(items, seen, i) && GeometryType(items[i]) in {Text("line"), Text("circle")}
      {
        assert i > 0 ==> NamedAnew(rest, more, i - 1) && rest[i - 1] == items[i];
      }
    }
    if TripsAt(items, seen, j + 1) {
      forall i: nat | i < j
        ensures NamedAnew(rest, more, i) && GeometryType(rest[i]) in {Text("line"), Text("circle")}
      {
        assert NamedAnew(items, seen, i + 1) && rest[i] == items[i + 1];
      }
    }
  }

  lemma {:induction false} GeometryCheckCrashes(items: seq<Json>, seen: set<string>)
    ensures CheckGeometry(items, seen) == Crash <==> exists j: nat :: TripsAt(items, seen, j)
    decreases |items|
  {
    if items != [] && NamedAnew(items, seen, 0) && GeometryType(items[0]) in {Text("line"), Text("circle")} {
      var rest, more := items[1..], seen + {GeometryId(items[0]).s};
      GeometryCheckCrashes(rest, more);
      assert CheckGeometry(items, seen) == CheckGeometry(rest, more);
      hide CheckGeometry, NamedAnew, GeometryId, GeometryType;
      forall j: nat ensures TripsAt(items, seen, j + 1) <==> TripsAt(rest, more, j)
      {
        TailTrips(items, seen, j);
      }
      assert !TripsAt(items, seen, 0) by {
        TypedIsHashable(items, seen);
      }
      if j: nat :| TripsAt(items, seen, j) {
        assert j > 0 && TripsAt(rest, more, j - 1);
      }
    } else {
      assert forall j: nat | TripsAt(items, seen, j) :: j == 0;
      assert TripsAt(items, seen, 0) <==> CheckGeometry(items, seen) == Crash;
    }
  }

  lemma TypedIsHashable(items: seq<Json>, seen: set<string>)
    requires items != [] && GeometryType(items[0]) in {Text("line"), Text("circle")}
    ensures !TripsAt(items, seen, 0)
  {
  }

  /** A check raises exactly on those inputs. */
  lemma CrashMeaning(a: Action, known: set<string>)
    ensures CrashesAt(a, known) <==> Trips(a, known)
  {
    if a.kind == AddSketchGeometry && Get(a.parameters, "geometry").Array? {
      GeometryCheckCrashes(Get(a.parameters, "geometry").items, {});
    }
    hide CheckGeometry, TripsAt;
  }

  // ------------------------------------------------------------- whole plans

  /** The ids believed present before action i; an action that does not pass teaches nothing. */
  function KnownBefore(actions: seq<Action>, known: set<string>, i: nat): set<string>
    requires i <= |actions|
  {
    if i == 0 then known
    else
      var earlier := KnownBefore(actions, known, i - 1);
      if PassesAt(actions[i - 1], earlier) then Learn(earlier, actions[i - 1]) else earlier
  }

  /** What the host knows of the plan's document. */
  datatype Current = Current(revision: nat, ids: set<string>)

  function PlanCodes(plan: ActionPlan, current: Option<Current>, validId: bool): seq<Diagnostic>
  {
    var creates := OfKind(plan.actions, CreateDocument);
    (if validId then [] else [Diagnostic(InvalidDocumentId, None)])
    + (if (if current.Some? then current.value.revision else 0) == plan.baseRevision then []
       else [Diagnostic(StaleDocumentRevision, None)])
    + (if current.None? then
         if |creates| != 1 || plan.actions[0].kind != CreateDocument then [Diagnostic(DocumentNotFound, None)] else []
       else if creates != [] then [Diagnostic(DocumentAlreadyExists, Some(creates[0].actionId))]
       else [])
  }

  function InitialIds(current: Option<Current>): set<string>
  {
    if current.Some? then current.value.ids else {}
  }

  /** `[A-Za-z_][A-Za-z0-9_]*`. */
  predicate IsDocumentId(s: string)
  {
    && s != "" && !('0' <= s[0] <= '9')
    && forall i | 0 <= i < |s| :: 'A' <= s[i] <= 'Z' || 'a' <= s[i] <= 'z' || '0' <= s[i] <= '9' || s[i] == '_'
  }

  /** The diagnostics of the first i actions, in order. */
  function ActionCodes(actions: seq<Action>, known: set<string>, i: nat): seq<Diagnostic>
    requires i <= |actions|
  {
    if i == 0 then []
    else ActionCodes(actions, known, i - 1) + CodeAt(actions[i - 1], KnownBefore(actions, known, i - 1))
  }

  /** Some action is an input on which its check raises instead of reporting. */
  ghost predicate Crashes(actions: seq<Action>, known: set<string>)
  {
    exists i: nat :: i < |actions| && Trips(actions[i], KnownBefore(actions, known, i))
  }

  function AllCodes(plan: ActionPlan, current: Option<Current>): seq<Diagnostic>
  {
    PlanCodes(plan, current, IsDocumentId(plan.documentId))
    + ActionCodes(plan.actions, InitialIds(current), |plan.actions|)
  }

  lemma NothingChecked(actions: seq<Action>, known: set<string>)
    ensures KnownBefore(actions, known, 0) == known && ActionCodes(actions, known, 0) == []
  {
  }

  lemma CheckedOneMore(actions: seq<Action>, known: set<string>, i: nat)
    requires i < |actions|
    ensures var earlier := KnownBefore(actions, known, i);
            && KnownBefore(actions, known, i + 1)
               == (if PassesAt(actions[i], earlier) then Learn(earlier, actions[i]) else earlier)
            && ActionCodes(actions, known, i + 1) == ActionCodes(actions, known, i) + CodeAt(actions[i], earlier)
  {
  }

  lemma NoCodeIffPasses(a: Action, known: set<string>)
    requires !CrashesAt(a, known)
    ensures CodeAt(a, known) == [] <==> PassesAt(a, known)
  {
    hide Supported;
  }

  /** Validation returns, and returns no diagnostic. */
  ghost predicate Accepts(plan: ActionPlan, current: Option<Current>)
  {
    !Crashes(plan.actions, InitialIds(current)) && AllCodes(plan, current) == []
  }

  /** The adapter's validate; None when it raises. */
  method Validate(plan: ActionPlan, current: Option<Current>) returns (diagnostics: Option<seq<Diagnostic>>)
    ensures diagnostics.None? <==> Crashes(plan.actions, InitialIds(current))
    ensures diagnostics.Some? ==> diagnostics.value == AllCodes(plan, current)
  {
    var found := PlanCodes(plan, current, IsDocumentId(plan.documentId));
    var known := InitialIds(current);
    hide PlanCodes, Preflight, Learn, KnownBefore, ActionCodes, Supported, Trips;
    NothingChecked(plan.actions, known);
    for i := 0 to |plan.actions|
      invariant known == KnownBefore(plan.actions, InitialIds(current), i)
      invariant found == PlanCodes(plan, current, IsDocumentId(plan.documentId))
                         + ActionCodes(plan.actions, InitialIds(current), i)
      invariant forall k: nat | k < i :: !Trips(plan.actions[k], KnownBefore(plan.actions, InitialIds(current), k))
    {
      var action := plan.actions[i];
      CheckedOneMore(plan.actions, InitialIds(current), i);
      CrashMeaning(action, known);
      if !Supported(action.kind) {
        found := found + [Diagnostic(UnsupportedAction, Some(action.actionId))];
      } else {
        match Preflight(action, known)
        case Crash =>
          assert CrashesAt(action, known);
          return None;
        case Fail(code) => found := found + [Diagnostic(code, Some(action.actionId))];
        case Pass => known := Learn(known, action);
      }
    }
    diagnostics := Some(found);
  }

  /** Every check of the plan passes, each against the ids believed present before its action. */
  ghost predicate AllPass(actions: seq<Action>, known: set<string>)
  {
    forall i: nat | i < |actions| :: PassesAt(actions[i], KnownBefore(actions, known, i))
  }

  lemma {:induction false} NoCodesIffPass(actions: seq<Action>, known: set<string>, i: nat)
    requires i <= |actions| && !Crashes(actions, known)
    ensures ActionCodes(actions, known, i) == []
            <==> forall k: nat | k < i :: PassesAt(actions[k], KnownBefore(actions, known, k))
  {
    hide CodeAt, PassesAt, CrashesAt, KnownBefore, Trips;
    if i > 0 {
      NoCodesIffPass(actions, known, i - 1);
      CrashMeaning(actions[i - 1], KnownBefore(actions, known, i - 1));
      NoCodeIffPasses(actions[i - 1], KnownBefore(actions, known, i - 1));
    }
  }

  lemma SketchPlan(sketch: Action) returns (plan: ActionPlan)
    requires sketch.actionId == "b" && sketch.targetId.None? && sketch.kind != CreateDocument
    ensures plan.documentId == "d" && plan.baseRevision == 0
    ensures |plan.actions| == 2 && plan.actions[0].kind == CreateDocument && plan.actions[1] == sketch
  {
    var create := Action("a", CreateDocument, None, map[]);
    assert !IsSpace("p"[0]) && !IsSpace("d"[0]) && !IsSpace("a"[0]) && !IsSpace("b"[0]);
    var data := ActionPlan("p", "d", 0, [create, sketch]);
    assert data.WellFormed();
    plan := data;
  }

  /** A plan that makes validation raise and is otherwise in order: its first sketch is on a plane given
      as an empty list. */
  lemma UnhashablePlaneCrashes() returns (plan: ActionPlan)
    ensures PlanCodes(plan, None, IsDocumentId(plan.documentId)) == []
    ensures Crashes(plan.actions, InitialIds(None))
  {
    var sketch := Action("b", CreateSketch, None, map["feature_id" := Text("s"), "plane" := Array([])]);
    plan := SketchPlan(sketch);
    OfKindOnlyFirst(plan.actions, CreateDocument);
    NothingChecked(plan.actions, {});
    CheckedOneMore(plan.actions, {}, 0);
    hide OfKind, KnownBefore;
    assert !IsSpace("s"[0]) && NonBlank("s");
    assert Trips(sketch, {});
  }

  lemma PassingNeverCrashes(actions: seq<Action>, known: set<string>)
    requires AllPass(actions, known)
    ensures !Crashes(actions, known)
  {
    hide Trips, KnownBefore, Preflight;
    forall i: nat | i < |actions| ensures !Trips(actions[i], KnownBefore(actions, known, i))
    {
      CrashMeaning(actions[i], KnownBefore(actions, known, i));
      assert PassesAt(actions[i], KnownBefore(actions, known, i));
    }
  }

  /** A plan is accepted exactly when its document id is well formed, its revision is current, it
      creates its document exactly when that is missing, first and only then, and every action passes. */
  lemma AcceptedMeaning(plan: ActionPlan, current: Option<Current>)
    ensures Accepts(plan, current)
       <==> && IsDocumentId(plan.documentId)
            && plan.baseRevision == (if current.Some? then current.value.revision else 0)
            && (plan.actions[0].kind == CreateDocument <==> current.None?)
            && (forall a | a in plan.actions[1..] :: a.kind != CreateDocument)
            && AllPass(plan.actions, InitialIds(current))
  {
    hide ActionCodes, OfKind, Crashes, IsDocumentId, PassesAt, KnownBefore;
    if AllPass(plan.actions, InitialIds(current)) {
      PassingNeverCrashes(plan.actions, InitialIds(current));
    }
    if !Crashes(plan.actions, InitialIds(current)) {
      NoCodesIffPass(plan.actions, InitialIds(current), |plan.actions|);
    }
    OfKindOnlyFirst(plan.actions, CreateDocument);
    OfKindEmpty(plan.actions, CreateDocument);
    assert plan.actions == [plan.actions[0]] + plan.actions[1..];
  }

  // ------------------------------------------------------------- the executor

  /** Why one step stops: an adapter refusal, or an exception of the host language. */
  datatype Stop = Refusal(code: DiagnosticCode) | Exception

  datatype Effect = Done(doc: Doc) | Stopped(stop: Stop)

  predicate IsObject(d: Doc, i: nat, id: string)
  {
    i < |d| && IdOf(d[i]) == id && forall k | 0 <= k < i :: IdOf(d[k]) != id
  }

  function Find(d: Doc, id: string): (r: Option<nat>)
    ensures r.None? <==> id !in Ids(d)
    ensures r.Some? ==> IsObject(d, r.value, id)
  {
    if d == [] then None
    else if IdOf(d[0]) == id then (assert id in Ids(d); Some(0))
    else
      var r := Find(d[1..], id);
      assert Ids(d) == Ids(d[1..]) + {IdOf(d[0])};
      if r.Some? then Some(r.value + 1) else None
  }

  function FindTarget(d: Doc, target: Option<string>): Option<nat>
  {
    if target.None? then None else Find(d, target.value)
  }

  function NumberOf(a: Action, name: string): real
  {
    if Get(a.parameters, name).Number? then Get(a.parameters, name).n else 0.0
  }

  function IsPoint(j: Json): bool
  {
    j.Array? && |j.items| == 2 && j.items[0].Number? && j.items[1].Number?
  }

  /** The id under which one item is added, or why it is not. */
  function AddOneGeometry(mapping: map<string, nat>, j: Json): Result<string, Stop>
  {
    if !j.Object? || !Get(j.fields, "geometry_id").Text? then Failure(Exception)
    else
      var item, id := j.fields, Get(j.fields, "geometry_id").s;
      if id in mapping then Failure(Refusal(DuplicateGeometry))
      else if Get(item, "type") == Text("line") then
        if IsPoint(Get(item, "start")) && IsPoint(Get(item, "end")) then Success(id)
        else Failure(Refusal(InvalidParameter))
      else if IsPoint(Get(item, "center")) && IsPositiveNumber(Get(item, "radius")) then Success(id)
      else Failure(Refusal(InvalidParameter))
  }

  /** The map of the sketch after the items are added one by one, each as the host's next shape. */
  function AddGeometry(mapping: map<string, nat>, shapes: nat, items: seq<Json>): Result<map<string, nat>, Stop>
    decreases |items|
  {
    if items == [] then Success(mapping)
    else match AddOneGeometry(mapping, items[0])
         case Success(id) => AddGeometry(mapping[id := shapes], shapes + 1, items[1..])
         case Failure(stop) => Failure(stop)
  }

  /** How many items are added before the first that is not. */
  function AddedItems(mapping: map<string, nat>, shapes: nat, items: seq<Json>): (n: nat)
    ensures n <= |items|
    decreases |items|
  {
    if items == [] then 0
    else match AddOneGeometry(mapping, items[0])
         case Success(id) => 1 + AddedItems(mapping[id := shapes], shapes + 1, items[1..])
         case Failure(_) => 0
  }

  predicate InGeometry(mapping: map<string, nat>, j: Json)
  {
    j.Text? && j.s in mapping
  }

  predicate IsPointName(item: map<string, Json>, name: string)
  {
    name !in item || item[name] in {Text("start"), Text("end"), Text("center")}
  }

  function AddOneConstraint(mapping: map<string, nat>, j: Json): Option<Stop>
  {
    if !j.Object? then Some(Refusal(InvalidParameter))
    else
      var kind := Get(j.fields, "type");
      if !InGeometry(mapping, Get(j.fields, "geometry_id")) then Some(Refusal(GeometryNotFound))
      else if Unhashable(kind) then Some(Exception)
      else if kind in {Text("horizontal"), Text("vertical"), Text("block")} then None
      else if kind in {Text("radius"), Text("diameter"), Text("distance")} then
        if IsPositiveNumber(Get(j.fields, "value")) then None else Some(Refusal(InvalidParameter))
      else if kind in {Text("parallel"), Text("perpendicular"), Text("equal")} then
        if InGeometry(mapping, Get(j.fields, "other_geometry_id")) then None else Some(Refusal(GeometryNotFound))
      else if kind == Text("coincident") then
        if !InGeometry(mapping, Get(j.fields, "other_geometry_id")) then Some(Refusal(GeometryNotFound))
        else if IsPointName(j.fields, "point") && IsPointName(j.fields, "other_point") then None
        else Some(Refusal(InvalidParameter))
      else Some(Refusal(InvalidParameter))
  }

  function AddConstraints(mapping: map<string, nat>, items: seq<Json>): Option<Stop>
  {
    if items == [] then None
    else if AddOneConstraint(mapping, items[0]).Some? then AddOneConstraint(mapping, items[0])
    else AddConstraints(mapping, items[1..])
  }

  function AddedConstraints(mapping: map<string, nat>, items: seq<Json>): (n: nat)
    ensures n <= |items|
  {
    if items == [] || AddOneConstraint(mapping, items[0]).Some? then 0
    else 1 + AddedConstraints(mapping, items[1..])
  }

  function Editable(t: TypeId): set<string>
  {
    match t
    case BoxType => {"width", "depth", "height"}
    case CylinderType => {"radius", "height"}
    case ExtrusionType => {"length"}
    case _ => {}
  }

  function Added(d: Doc, a: Action, name: string, typeId: TypeId, numbers: map<string, real>): Effect
  {
    if !HasText(a, "feature_id") then Stopped(Refusal(InvalidParameter))
    else Done(d + [Obj(name, FeatureId(a), typeId, numbers, map[], 0, 0)])
  }

  /** One step of the executor; the host chooses the internal name of a new object. */
  function Apply(d: Doc, a: Action, name: string): Effect
  {
    var target := FindTarget(d, a.targetId);
    match a.kind
    case AddBox =>
      if !(HasPositive(a, "width") && HasPositive(a, "depth") && HasPositive(a, "height")) then
        Stopped(Refusal(InvalidParameter))
      else
        Added(d, a, name, BoxType, map["width" := NumberOf(a, "width"), "depth" := NumberOf(a, "depth"),
                                       "height" := NumberOf(a, "height")])
    case AddCylinder =>
      if !(HasPositive(a, "radius") && HasPositive(a, "height")) then Stopped(Refusal(InvalidParameter))
      else Added(d, a, name, CylinderType, map["radius" := NumberOf(a, "radius"), "height" := NumberOf(a, "height")])
    case CreateSketch =>
      if "offset" in a.parameters && !a.parameters["offset"].Number? then Stopped(Refusal(InvalidParameter))
      else Added(d, a, name, SketchType, map[])
    case Extrude =>
      if target.None? then Stopped(Refusal(FeatureNotFound))
      else if !HasPositive(a, "length") then Stopped(Refusal(InvalidParameter))
      else Added(d, a, name, ExtrusionType, map["length" := NumberOf(a, "length")])
    case BooleanCut =>
      var tool := Get(a.parameters, "tool_id");
      if target.None? || !tool.Text? || Find(d, tool.s).None? then Stopped(Refusal(FeatureNotFound))
      else Added(d, a, name, CutType, map[])
    case AddSketchGeometry => ApplyGeometry(d, a, target)
    case AddConstraint => ApplyConstraints(d, a, target)
    case SetParameter => ApplyParameter(d, a, target)
    case DeleteFeature =>
      if target.None? then Stopped(Refusal(FeatureNotFound)) else Done(d[..target.value] + d[target.value + 1..])
    case _ => Stopped(Refusal(UnsupportedAction))
  }

  function ApplyGeometry(d: Doc, a: Action, target: Option<nat>): Effect
  {
    if target.None? || target.value >= |d| then Stopped(Refusal(FeatureNotFound))
    else
      var sketch, geometry := d[target.value], Get(a.parameters, "geometry");
      if !sketch.typeId.SketchType? then Stopped(Refusal(InvalidTarget))
      else if !geometry.Array? then Stopped(Exception)
      else match AddGeometry(sketch.geometry, sketch.shapes, geometry.items)
           case Success(mapping) =>
             Done(d[target.value := sketch.(geometry := mapping, shapes := sketch.shapes + |geometry.items|)])
           case Failure(stop) => Stopped(stop)
  }

  function ApplyConstraints(d: Doc, a: Action, target: Option<nat>): Effect
  {
    if target.None? || target.value >= |d| then Stopped(Refusal(FeatureNotFound))
    else
      var sketch, constraints := d[target.value], Get(a.parameters, "constraints");
      if !constraints.Array? then Stopped(Exception)
      else match AddConstraints(sketch.geometry, constraints.items)
           case None => Done(d[target.value := sketch.(constraints := sketch.constraints + |constraints.items|)])
           case Some(stop) => Stopped(stop)
  }

  function ApplyParameter(d: Doc, a: Action, target: Option<nat>): Effect
  {
    if target.None? || target.value >= |d| then Stopped(Refusal(FeatureNotFound))
    else if !HasText(a, "name") then Stopped(Refusal(InvalidParameter))
    else
      var o, name, value := d[target.value], Get(a.parameters, "name").s, NumberOf(a, "value");
      if name !in Editable(o.typeId) then Stopped(Refusal(ParameterNotFound))
      else if value <= 0.0 then Stopped(Refusal(InvalidParameter))
      else Done(d[target.value := o.(numbers := o.numbers[name := value])])
  }

  /** What a step that stops leaves in the document until the transaction is aborted: the shapes or
      constraints it added before the item that stopped it, none of them in the adapter's map. */
  function LeftBehind(d: Doc, a: Action): Doc
  {
    var target := FindTarget(d, a.targetId);
    var geometry, constraints := Get(a.parameters, "geometry"), Get(a.parameters, "constraints");
    if target.None? then d
    else
      var o := d[target.value];
      if a.kind == AddSketchGeometry && o.typeId.SketchType? && geometry.Array? then
        d[target.value := o.(shapes := o.shapes + AddedItems(o.geometry, o.shapes, geometry.items))]
      else if a.kind == AddConstraint && constraints.Array? then
        d[target.value := o.(constraints := o.constraints + AddedConstraints(o.geometry, constraints.items))]
      else d
  }

  /** A step of this outcome turns one document into the other, completed or stopped half-way. */
  ghost predicate Stepped(before: Doc, a: Action, name: string, stop: Option<Stop>, after: Doc)
  {
    match Apply(before, a, name)
    case Done(d) => stop == None && after == d
    case Stopped(s) => stop == Some(s) && after == LeftBehind(before, a)
  }

  lemma ItemActions(d: Doc, a: Action, name: string)
    ensures a.kind == AddSketchGeometry ==> Apply(d, a, name) == ApplyGeometry(d, a, FindTarget(d, a.targetId))
    ensures a.kind == AddConstraint ==> Apply(d, a, name) == ApplyConstraints(d, a, FindTarget(d, a.targetId))
  {
    hide ApplyGeometry, ApplyConstraints;
  }

  /** The document a plan runs on, changed in place; a failed run is aborted as a whole. */
  class NativeDocument {
    var objects: Doc

    constructor (objects: Doc)
      ensures this.objects == objects
    {
      this.objects := objects;
    }

    /** The host adds an object, which the adapter then tags. */
    method AddObject(action: Action, name: string, typeId: TypeId, numbers: map<string, real>)
      returns (stop: Option<Stop>)
      modifies this
      ensures match Added(old(objects), action, name, typeId, numbers)
              case Done(d) => stop == None && objects == d
              case Stopped(s) => stop == Some(s) && objects == old(objects)
    {
      if !HasText(action, "feature_id") {
        return Some(Refusal(InvalidParameter));
      }
      objects := objects + [Obj(name, FeatureId(action), typeId, numbers, map[], 0, 0)];
      stop := None;
    }

    method AddItems(action: Action, name: string) returns (stop: Option<Stop>)
      requires action.kind == AddSketchGeometry
      modifies this
      ensures Stepped(old(objects), action, name, stop, objects)
    {
      hide Apply, AddGeometry, AddedItems, AddConstraints, AddedConstraints, Find;
      ItemActions(objects, action, name);
      var target := FindTarget(objects, action.targetId);
      if target.None? {
        return Some(Refusal(FeatureNotFound));
      }
      var i, geometry := target.value, Get(action.parameters, "geometry");
      if !objects[i].typeId.SketchType? {
        return Some(Refusal(InvalidTarget));
      }
      if !geometry.Array? {
        return Some(Exception);
      }
      var mapping;
      stop, mapping := AddShapes(i, geometry.items);
      if stop.None? {
        objects := objects[i := objects[i].(geometry := mapping)];
      }
    }

    /** The loop over the items: each becomes the host's next shape; the adapter's map is only collected. */
    method AddShapes(i: nat, items: seq<Json>) returns (stop: Option<Stop>, mapping: map<string, nat>)
      requires i < |objects|
      modifies this
      ensures var o := old(objects[i]);
        && objects == old(objects)[i := o.(shapes := o.shapes + AddedItems(o.geometry, o.shapes, items))]
        && AddGeometry(o.geometry, o.shapes, items) == (if stop.None? then Success(mapping) else Failure(stop.value))
        && (stop.None? ==> AddedItems(o.geometry, o.shapes, items) == |items|)
    {
      hide AddOneGeometry;
      var sketch := objects[i];
      stop, mapping := None, sketch.geometry;
      for k := 0 to |items|
        invariant objects == old(objects)[i := sketch.(shapes := sketch.shapes + k)]
        invariant AddGeometry(sketch.geometry, sketch.shapes, items)
               == AddGeometry(mapping, sketch.shapes + k, items[k..])
        invariant AddedItems(sketch.geometry, sketch.shapes, items)
               == k + AddedItems(mapping, sketch.shapes + k, items[k..])
        invariant stop.None?
      {
        assert items[k..][0] == items[k] && items[k..][1..] == items[k + 1..];
        var added := AddOneGeometry(mapping, items[k]);
        if added.Failure? {
          return Some(added.error), mapping;
        }
        mapping := mapping[added.value := objects[i].shapes];
        objects := objects[i := objects[i].(shapes := objects[i].shapes + 1)];
      }
      assert items[|items|..] == [];
    }

    method AddConstraintItems(action: Action, name: string) returns (stop: Option<Stop>)
      requires action.kind == AddConstraint
      modifies this
      ensures Stepped(old(objects), action, name, stop, objects)
    {
      hide Apply, AddGeometry, AddedItems, AddConstraints, AddedConstraints, Find;
      ItemActions(objects, action, name);
      var target := FindTarget(objects, action.targetId);
      if target.None? {
        return Some(Refusal(FeatureNotFound));
      }
      var i, constraints := target.value, Get(action.parameters, "constraints");
      if !constraints.Array? {
        return Some(Exception);
      }
      stop := AddConstraintsTo(i, constraints.items);
    }

    method AddConstraintsTo(i: nat, items: seq<Json>) returns (stop: Option<Stop>)
      requires i < |objects|
      modifies this
      ensures var o := old(objects[i]);
        && objects == old(objects)[i := o.(constraints := o.constraints + AddedConstraints(o.geometry, items))]
        && stop == AddConstraints(o.geometry, items)
        && (stop.None? ==> AddedConstraints(o.geometry, items) == |items|)
    {
      hide AddOneConstraint;
      var sketch := objects[i];
      stop := None;
      for k := 0 to |items|
        invariant objects == old(objects)[i := sketch.(constraints := sketch.constraints + k)]
        invariant AddConstraints(sketch.geometry, items) == AddConstraints(sketch.geometry, items[k..])
        invariant AddedConstraints(sketch.geometry, items) == k + AddedConstraints(sketch.geometry, items[k..])
        invariant stop.None?
      {
        assert items[k..][0] == items[k] && items[k..][1..] == items[k + 1..];
        stop := AddOneConstraint(sketch.geometry, items[k]);
        if stop.Some? {
          return;
        }
        objects := objects[i := objects[i].(constraints := objects[i].constraints + 1)];
      }
      assert items[|items|..] == [];
    }

    method SetNumber(action: Action, name: string) returns (stop: Option<Stop>)
      requires action.kind == SetParameter
      modifies this
      ensures Stepped(old(objects), action, name, stop, objects)
    {
      var target := FindTarget(objects, action.targetId);
      if target.None? {
        return Some(Refusal(FeatureNotFound));
      }
      if !HasText(action, "name") {
        return Some(Refusal(InvalidParameter));
      }
      var o, parameter := objects[target.value], Get(action.parameters, "name").s;
      if parameter !in Editable(o.typeId) {
        return Some(Refusal(ParameterNotFound));
      }
      if NumberOf(action, "value") <= 0.0 {
        return Some(Refusal(InvalidParameter));
      }
      objects := objects[target.value := o.(numbers := o.numbers[parameter := NumberOf(action, "value")])];
      stop := None;
    }

    /** Whether the base, and for a cut the tool, of a creating action are there. */
    method CheckSources(action: Action) returns (stop: Option<Stop>)
      ensures stop == if action.kind == Extrude && FindTarget(objects, action.targetId).None? then
                        Some(Refusal(FeatureNotFound))
                      else if action.kind == BooleanCut
                              && (FindTarget(objects, action.targetId).None?
                                  || !Get(action.parameters, "tool_id").Text?
                                  || Find(objects, Get(action.parameters, "tool_id").s).None?) then
                        Some(Refusal(FeatureNotFound))
                      else None
    {
      stop := None;
      if action.kind in {Extrude, BooleanCut} {
        var base := FindTarget(objects, action.targetId);
        if base.None? {
          return Some(Refusal(FeatureNotFound));
        }
      }
      if action.kind == BooleanCut {
        var tool := Get(action.parameters, "tool_id");
        if !tool.Text? || Find(objects, tool.s).None? {
          return Some(Refusal(FeatureNotFound));
        }
      }
    }

    /** One action applied in place. */
    method Step(action: Action, name: string) returns (stop: Option<Stop>)
      modifies this
      ensures Stepped(old(objects), action, name, stop, objects)
    {
      match action.kind {
        case AddSketchGeometry => stop := AddItems(action, name);
        case AddConstraint => stop := AddConstraintItems(action, name);
        case SetParameter => stop := SetNumber(action, name);
        case DeleteFeature =>
          var target := FindTarget(objects, action.targetId);
          if target.None? {
            return Some(Refusal(FeatureNotFound));
          }
          objects := objects[..target.value] + objects[target.value + 1..];
          stop := None;
        case _ => stop := Create(action, name);
      }
    }

    method Create(action: Action, name: string) returns (stop: Option<Stop>)
      requires action.kind !in {AddSketchGeometry, AddConstraint, SetParameter, DeleteFeature}
      modifies this
      ensures Stepped(old(objects), action, name, stop, objects)
    {
      hide HasPositive, NumberOf, HasText, FeatureId, ApplyGeometry, ApplyConstraints, ApplyParameter, Find;
      stop := CheckSources(action);
      if stop.Some? {
        return;
      }
      match action.kind {
        case AddBox =>
          if !(HasPositive(action, "width") && HasPositive(action, "depth") && HasPositive(action, "height")) {
            return Some(Refusal(InvalidParameter));
          }
          stop := AddObject(action, name, BoxType, map["width" := NumberOf(action, "width"),
                                                       "depth" := NumberOf(action, "depth"),
                                                       "height" := NumberOf(action, "height")]);
        case AddCylinder =>
          if !(HasPositive(action, "radius") && HasPositive(action, "height")) {
            return Some(Refusal(InvalidParameter));
          }
          stop := AddObject(action, name, CylinderType, map["radius" := NumberOf(action, "radius"),
                                                            "height" := NumberOf(action, "height")]);
        case CreateSketch =>
          if "offset" in action.parameters && !action.parameters["offset"].Number? {
            return Some(Refusal(InvalidParameter));
          }
          stop := AddObject(action, name, SketchType, map[]);
        case Extrude =>
          if !HasPositive(action, "length") {
            return Some(Refusal(InvalidParameter));
          }
          stop := AddObject(action, name, ExtrusionType, map["length" := NumberOf(action, "length")]);
        case BooleanCut => stop := AddObject(action, name, CutType, map[]);
        case _ => stop := Some(Refusal(UnsupportedAction));
      }
    }

    /** Runs the actions inside one transaction; the host supplies the internal names. */
    method Run(actions: seq<Action>, names: seq<string>) returns (stop: Option<Stop>, ghost docs: seq<Doc>)
      requires |names| == |actions|
      modifies this
      ensures IsExecution(docs, actions, names) && docs[0] == old(objects)
      ensures stop.None? ==> |docs| == |actions| + 1 && objects == docs[|actions|]
      ensures stop.Some? ==> objects == old(objects) && |docs| <= |actions|
      ensures stop.Some? ==> Apply(docs[|docs| - 1], actions[|docs| - 1], names[|docs| - 1]) == Stopped(stop.value)
    {
      var before := objects;
      docs := [before];
      hide Apply, LeftBehind;
      for i := 0 to |actions|
        invariant |docs| == i + 1 && docs[i] == objects && docs[0] == before
        invariant IsExecution(docs, actions, names)
      {
        stop := Step(actions[i], names[i]);
        if stop.Some? {
          objects := before;
          return;
        }
        docs := docs + [objects];
      }
      stop := None;
    }
  }

  /** The documents before each completed step and after the last one. */
  ghost predicate IsExecution(docs: seq<Doc>, actions: seq<Action>, names: seq<string>)
  {
    && 0 < |docs| <= |actions| + 1 && |names| == |actions|
    && forall i | 0 <= i < |docs| - 1 :: Apply(docs[i], actions[i], names[i]) == Done(docs[i + 1])
  }

  // ---------------------------------------------------------------- soundness

  lemma AppendedIds(d: Doc, o: Obj)
    requires UniqueIds(d) && IdOf(o) !in Ids(d)
    ensures UniqueIds(d + [o]) && Ids(d + [o]) == Ids(d) + {IdOf(o)}
  {
    assert forall i | 0 <= i < |d| :: IdOf(d[i]) in Ids(d);
    assert forall x | x in d + [o] :: x in d || x == o;
    assert o in d + [o];
    assert forall x | x in d :: x in d + [o];
  }

  lemma RemovedUnique(d: Doc, i: nat)
    requires UniqueIds(d) && i < |d|
    ensures UniqueIds(d[..i] + d[i + 1..])
  {
    var r := d[..i] + d[i + 1..];
    assert forall k | 0 <= k < |r| :: r[k] == d[if k < i then k else k + 1];
  }

  ghost predicate HasIdElsewhere(d: Doc, i: nat, id: string)
  {
    exists k :: 0 <= k < |d| && k != i && IdOf(d[k]) == id
  }

  lemma RemainingId(d: Doc, i: nat, id: string)
    requires i < |d|
    ensures id in Ids(d[..i] + d[i + 1..]) <==> HasIdElsewhere(d, i, id)
  {
    var r := d[..i] + d[i + 1..];
    hide IdOf;
    if HasIdElsewhere(d, i, id) {
      var k :| 0 <= k < |d| && k != i && IdOf(d[k]) == id;
      assert r[if k < i then k else k - 1] == d[k];
    }
    if id in Ids(r) {
      var k :| 0 <= k < |r| && IdOf(r[k]) == id;
      assert r[k] == d[if k < i then k else k + 1];
    }
  }

  lemma RemovedIds(d: Doc, i: nat)
    requires UniqueIds(d) && i < |d|
    ensures Ids(d[..i] + d[i + 1..]) == Ids(d) - {IdOf(d[i])}
  {
    hide IdOf;
    forall id ensures id in Ids(d[..i] + d[i + 1..]) <==> id in Ids(d) && id != IdOf(d[i])
    {
      RemainingId(d, i, id);
      assert id in Ids(d) <==> id == IdOf(d[i]) || HasIdElsewhere(d, i, id);
    }
  }

  lemma UpdatedIds(d: Doc, i: nat, o: Obj)
    requires UniqueIds(d) && i < |d| && IdOf(o) == IdOf(d[i])
    ensures UniqueIds(d[i := o]) && Ids(d[i := o]) == Ids(d)
  {
    var r := d[i := o];
    assert forall k | 0 <= k < |d| :: IdOf(r[k]) == IdOf(d[k]);
    forall id ensures id in Ids(r) <==> id in Ids(d)
    {
      if id in Ids(d) {
        var k :| 0 <= k < |d| && IdOf(d[k]) == id;
        assert r[k] in r;
      }
      if id in Ids(r) {
        var k :| 0 <= k < |r| && IdOf(r[k]) == id;
        assert d[k] in d;
      }
    }
  }

  /** The refusals a step can still meet after its check passed, by kind. */
  function Residual(kind: ActionKind): set<DiagnosticCode>
  {
    match kind
    case CreateSketch => {InvalidParameter}
    case AddSketchGeometry => {InvalidTarget, DuplicateGeometry, InvalidParameter}
    case AddConstraint => {GeometryNotFound, InvalidParameter}
    case SetParameter => {ParameterNotFound, InvalidParameter}
    case _ => {}
  }

  predicate StopAllowed(a: Action, stop: Stop)
  {
    if stop.Refusal? then stop.code in Residual(a.kind) else a.kind == AddConstraint
  }

  lemma {:induction false} CheckedGeometry(
    items: seq<Json>, seen: set<string>, mapping: map<string, nat>, shapes: nat)
    requires CheckGeometry(items, seen) == Pass
    ensures AddGeometry(mapping, shapes, items).Failure? ==>
              AddGeometry(mapping, shapes, items).error in {Refusal(DuplicateGeometry), Refusal(InvalidParameter)}
    decreases |items|
  {
    if items != [] {
      var id := Get(items[0].fields, "geometry_id").s;
      CheckedGeometry(items[1..], seen + {id}, mapping[id := shapes], shapes + 1);
    }
  }

  lemma {:induction false} CheckedConstraints(items: seq<Json>, mapping: map<string, nat>)
    ensures AddConstraints(mapping, items).Some? ==>
              AddConstraints(mapping, items).value in {Refusal(GeometryNotFound), Refusal(InvalidParameter), Exception}
  {
    if items != [] {
      CheckedConstraints(items[1..], mapping);
    }
  }

  /** The conclusion about one step: it ends in the ids the check predicts, or stops in an allowed way. */
  predicate StepSound(d: Doc, a: Action, name: string, known: set<string>)
  {
    match Apply(d, a, name)
    case Done(d') => UniqueIds(d') && Ids(d') == Learn(known, a)
    case Stopped(stop) => StopAllowed(a, stop)
  }

  lemma AddingStepSound(d: Doc, a: Action, name: string)
    requires UniqueIds(d) && PassesAt(a, Ids(d)) && CreatesFeature(a.kind)
    ensures StepSound(d, a, name, Ids(d))
  {
    hide CheckGeometry, UniqueIds;
    forall typeId, numbers ensures IdOf(Obj(name, FeatureId(a), typeId, numbers, map[], 0, 0)) == FeatureId(a)
    {
      assert FeatureId(a) != "";
    }
    forall typeId, numbers | HasText(a, "feature_id")
      ensures Added(d, a, name, typeId, numbers).Done?
           && UniqueIds(Added(d, a, name, typeId, numbers).doc)
           && Ids(Added(d, a, name, typeId, numbers).doc) == Ids(d) + {FeatureId(a)}
    {
      AppendedIds(d, Obj(name, FeatureId(a), typeId, numbers, map[], 0, 0));
    }
    hide Added, Ids, IdOf;
  }

  lemma EditingStepSound(d: Doc, a: Action, name: string)
    requires UniqueIds(d) && PassesAt(a, Ids(d)) && a.kind in {AddSketchGeometry, AddConstraint, SetParameter}
    ensures StepSound(d, a, name, Ids(d))
  {
    var i := FindTarget(d, a.targetId);
    assert i.Some? && i.value < |d|;
    if a.kind == AddSketchGeometry {
      GeometryStepSound(d, a, name, i.value);
    } else if a.kind == AddConstraint {
      ConstraintStepSound(d, a, name, i.value);
    } else {
      UpdatedIds(d, i.value, d[i.value].(numbers :=
        d[i.value].numbers[Get(a.parameters, "name").s := NumberOf(a, "value")]));
    }
    hide UniqueIds, Ids, CheckGeometry, AddGeometry, AddConstraints;
  }

  lemma SameIdentity(o: Obj)
    ensures forall geometry, shapes :: IdOf(o.(geometry := geometry, shapes := shapes)) == IdOf(o)
    ensures forall constraints :: IdOf(o.(constraints := constraints)) == IdOf(o)
  {
  }

  lemma GeometryStepSound(d: Doc, a: Action, name: string, i: nat)
    requires UniqueIds(d) && PassesAt(a, Ids(d)) && a.kind == AddSketchGeometry && FindTarget(d, a.targetId) == Some(i)
    ensures StepSound(d, a, name, Ids(d))
  {
    hide UniqueIds, Ids, AddGeometry, CheckGeometry, IdOf;
    var o, items := d[i], Get(a.parameters, "geometry").items;
    SameIdentity(o);
    CheckedGeometry(items, {}, o.geometry, o.shapes);
    var added := AddGeometry(o.geometry, o.shapes, items);
    if added.Success? {
      UpdatedIds(d, i, o.(geometry := added.value, shapes := o.shapes + |items|));
    }
  }

  lemma ConstraintStepSound(d: Doc, a: Action, name: string, i: nat)
    requires UniqueIds(d) && PassesAt(a, Ids(d)) && a.kind == AddConstraint && FindTarget(d, a.targetId) == Some(i)
    ensures StepSound(d, a, name, Ids(d))
  {
    hide UniqueIds, Ids, AddConstraints, IdOf;
    var o, items := d[i], Get(a.parameters, "constraints").items;
    SameIdentity(o);
    CheckedConstraints(items, o.geometry);
    UpdatedIds(d, i, o.(constraints := o.constraints + |items|));
  }

  /** A step whose check passed against exactly the ids that are there meets no missing target, no
      duplicate id and no unsupported kind, and leaves exactly the ids the check predicts. */
  lemma CheckedStepIsSound(d: Doc, a: Action, name: string)
    requires UniqueIds(d) && PassesAt(a, Ids(d)) && a.kind != CreateDocument
    ensures StepSound(d, a, name, Ids(d))
  {
    if CreatesFeature(a.kind) {
      AddingStepSound(d, a, name);
    } else if a.kind == DeleteFeature {
      var i := FindTarget(d, a.targetId);
      RemovedIds(d, i.value);
      RemovedUnique(d, i.value);
    } else {
      EditingStepSound(d, a, name);
    }
  }

  /** Soundness over a whole run, for a document with unique ids: before every step the ids believed by
      the check are exactly the ids present, ids stay unique, and whatever stops a step is a residual
      refusal of its kind: never a missing target, a duplicate feature or an unsupported action. */
  lemma {:induction false} PreflightIsSound(docs: seq<Doc>, actions: seq<Action>, names: seq<string>, i: nat)
    requires IsExecution(docs, actions, names) && UniqueIds(docs[0]) && AllPass(actions, Ids(docs[0]))
    requires forall a | a in actions :: a.kind != CreateDocument
    requires i < |docs|
    ensures UniqueIds(docs[i]) && Ids(docs[i]) == KnownBefore(actions, Ids(docs[0]), i)
    ensures i < |actions| ==> StepSound(docs[i], actions[i], names[i], Ids(docs[i]))
  {
    hide StepSound, Learn, UniqueIds, Ids, PassesAt, Apply, KnownBefore, ActionCodes;
    if i > 0 {
      PreflightIsSound(docs, actions, names, i - 1);
      SoundDone(docs[i - 1], actions[i - 1], names[i - 1], docs[i - 1 + 1]);
      CheckedOneMore(actions, Ids(docs[0]), i - 1);
    } else {
      NothingChecked(actions, Ids(docs[0]));
    }
    if i < |actions| {
      assert actions[i] in actions;
      CheckedStepIsSound(docs[i], actions[i], names[i]);
    }
  }

  lemma SoundDone(d: Doc, a: Action, name: string, d': Doc)
    requires StepSound(d, a, name, Ids(d)) && Apply(d, a, name) == Done(d')
    ensures UniqueIds(d') && Ids(d') == Learn(Ids(d), a)
  {
  }

  /** What the executor runs: a leading creation is done by the host and never applied. */
  function Executed(plan: ActionPlan, current: Option<Current>): seq<Action>
  {
    if current.None? then plan.actions[1..] else plan.actions
  }

  lemma {:induction false} CreationTeachesNothing(actions: seq<Action>, known: set<string>, i: nat)
    requires i < |actions| && actions[0].kind == CreateDocument
    ensures KnownBefore(actions, known, i + 1) == KnownBefore(actions[1..], known, i)
  {
    hide PassesAt;
    if i > 0 {
      CreationTeachesNothing(actions, known, i - 1);
    }
  }

  /** For every plan that validation accepts and every document with unique ids, the executor never
      applies a document creation, and each step finds exactly the ids its check assumed. */
  lemma AcceptedPlanIsSound(plan: ActionPlan, current: Option<Current>, docs: seq<Doc>, names: seq<string>, i: nat)
    requires Accepts(plan, current)
    requires IsExecution(docs, Executed(plan, current), names) && i < |docs|
    requires UniqueIds(docs[0]) && Ids(docs[0]) == InitialIds(current)
    ensures forall a | a in Executed(plan, current) :: a.kind != CreateDocument
    ensures UniqueIds(docs[i]) && Ids(docs[i]) == KnownBefore(Executed(plan, current), Ids(docs[0]), i)
    ensures i < |Executed(plan, current)| ==> StepSound(docs[i], Executed(plan, current)[i], names[i], Ids(docs[i]))
  {
    var actions, known := plan.actions, InitialIds(current);
    hide AllCodes, Crashes, Accepts, PassesAt, UniqueIds, Ids, StepSound, Apply, IsDocumentId;
    AcceptedMeaning(plan, current);
    assert plan.actions == [plan.actions[0]] + plan.actions[1..];
    if current.None? {
      forall k: nat | k < |actions[1..]| ensures PassesAt(actions[1..][k], KnownBefore(actions[1..], known, k))
      {
        CreationTeachesNothing(actions, known, k);
        assert PassesAt(actions[k + 1], KnownBefore(actions, known, k + 1));
      }
    }
    PreflightIsSound(docs, Executed(plan, current), names, i);
  }

  /** Why ids must be unique: deleting an object leaves exactly the predicted ids if and only if no later
      object shares its id. */
  lemma DeletionPredictedIffUnshared(d: Doc, i: nat)
    requires i < |d| && IsObject(d, i, IdOf(d[i]))
    ensures Ids(d[..i] + d[i + 1..]) == Ids(d) - {IdOf(d[i])}
            <==> forall k | i < k < |d| :: IdOf(d[k]) != IdOf(d[i])
  {
    hide IdOf;
    forall id ensures id in Ids(d[..i] + d[i + 1..]) <==> HasIdElsewhere(d, i, id)
    {
      RemainingId(d, i, id);
    }
    assert forall id :: id in Ids(d) <==> id == IdOf(d[i]) || HasIdElsewhere(d, i, id);
    assert HasIdElsewhere(d, i, IdOf(d[i])) <==> exists k :: i < k < |d| && IdOf(d[k]) == IdOf(d[i]);
    hide Ids, HasIdElsewhere;
  }

  /** A document in which two boxes share an id: the deletion of that id passes its check and completes, and
      the id that the check believes gone is still present. */
  lemma SharedIdSurvivesDeletion() returns (d: Doc, a: Action, name: string)
    ensures PassesAt(a, Ids(d)) && a.kind == DeleteFeature && a.targetId == Some("s")
    ensures Apply(d, a, name).Done? && "s" in Ids(Apply(d, a, name).doc) && "s" !in Learn(Ids(d), a)
  {
    var box, copy := Obj("Box", "s", BoxType, map[], map[], 0, 0), Obj("Box001", "s", BoxType, map[], map[], 0, 0);
    d, a, name := [box, copy], Action("a", DeleteFeature, Some("s"), map[]), "";
    assert IdOf(d[0]) == IdOf(d[1]) == "s" && box in d && "s" in Ids(d);
    assert Find(d, "s") == Some(0);
    assert d[..0] + d[1..] == [copy] && copy in [copy];
  }

  // --------------------------------------------------- effects of the executor

  /** What a completed step does to the document: it appends one object of its own id that carries the
      action's own dimensions, removes the target, or changes the target only, never another object. */
  lemma StepTouchesOnlyItsSubject(d: Doc, a: Action, name: string)
    requires Apply(d, a, name).Done?
    ensures var r := Apply(d, a, name).doc;
      if CreatesFeature(a.kind) then
        && |r| == |d| + 1 && r[..|d|] == d && r[|d|].tag == FeatureId(a) && r[|d|].name == name
        && forall k | k in r[|d|].numbers :: r[|d|].numbers[k] == NumberOf(a, k)
      else if a.kind == DeleteFeature then
        exists i: nat :: IsObject(d, i, a.targetId.GetOr("")) && r == d[..i] + d[i + 1..]
      else
        |r| == |d| && exists i: nat :: IsObject(d, i, a.targetId.GetOr("")) && ChangesOnly(d, r, i, a)
  {
    hide HasPositive, NumberOf, FeatureId, Find;
    if !CreatesFeature(a.kind) {
      var i := FindTarget(d, a.targetId).value;
      assert IsObject(d, i, a.targetId.GetOr(""));
      if a.kind == AddSketchGeometry {
        AddedGeometryStays(d[i].geometry, d[i].shapes, Get(a.parameters, "geometry").items);
      }
      hide AddGeometry, AddConstraints;
      assert a.kind != DeleteFeature ==> ChangesOnly(d, Apply(d, a, name).doc, i, a);
    }
  }

  /** Object i keeps its identity and type; geometry and constraints are only added, and one editable number
      is set to the action's positive value. */
  ghost predicate ChangesOnly(d: Doc, r: Doc, i: nat, a: Action)
    requires i < |d| == |r|
  {
    && r == d[i := r[i]] && r[i].name == d[i].name && r[i].tag == d[i].tag && r[i].typeId == d[i].typeId
    && Extends(d[i].geometry, r[i].geometry)
    && (a.kind != AddSketchGeometry ==> r[i].geometry == d[i].geometry && r[i].shapes == d[i].shapes)
    && (a.kind == AddSketchGeometry ==> r[i].shapes - d[i].shapes == |r[i].geometry| - |d[i].geometry|)
    && d[i].constraints <= r[i].constraints
    && (a.kind != AddConstraint ==> r[i].constraints == d[i].constraints)
    && (a.kind != SetParameter ==> r[i].numbers == d[i].numbers)
    && (a.kind == SetParameter ==>
          HasText(a, "name") && NumberOf(a, "value") > 0.0 && Get(a.parameters, "name").s in Editable(d[i].typeId)
          && r[i].numbers == d[i].numbers[Get(a.parameters, "name").s := NumberOf(a, "value")])
  }

  /** Every id keeps its shape. */
  ghost predicate Extends(before: map<string, nat>, after: map<string, nat>)
  {
    forall id | id in before :: id in after && after[id] == before[id]
  }

  /** Completed additions keep every earlier id and add one new id per item. */
  lemma {:induction false} AddedGeometryStays(mapping: map<string, nat>, shapes: nat, items: seq<Json>)
    ensures var r := AddGeometry(mapping, shapes, items);
      r.Success? ==> Extends(mapping, r.value) && |r.value| == |mapping| + |items|
    decreases |items|
  {
    if items != [] && AddOneGeometry(mapping, items[0]).Success? {
      var id := AddOneGeometry(mapping, items[0]).value;
      AddedGeometryStays(mapping[id := shapes], shapes + 1, items[1..]);
      assert id !in mapping && |mapping[id := shapes]| == |mapping| + 1;
      hide AddOneGeometry;
    }
  }

  /** The adapter's map gives different ids different existing shapes. */
  ghost predicate Mapped(o: Obj)
  {
    && (forall id | id in o.geometry :: o.geometry[id] < o.shapes)
    && forall a, b | a in o.geometry && b in o.geometry && o.geometry[a] == o.geometry[b] :: a == b
  }

  lemma {:induction false} AddedGeometryIsMapped(o: Obj, items: seq<Json>)
    requires Mapped(o)
    ensures var r := AddGeometry(o.geometry, o.shapes, items);
      r.Success? ==> Mapped(o.(geometry := r.value, shapes := o.shapes + |items|))
    decreases |items|
  {
    if items != [] && AddOneGeometry(o.geometry, items[0]).Success? {
      var id := AddOneGeometry(o.geometry, items[0]).value;
      AddedGeometryIsMapped(o.(geometry := o.geometry[id := o.shapes], shapes := o.shapes + 1), items[1..]);
    }
  }

  ghost predicate AllMapped(d: Doc)
  {
    forall k | 0 <= k < |d| :: Mapped(d[k])
  }

  /** Every step, completed or stopped half-way, leaves every object's map valid. */
  lemma StepKeepsMaps(d: Doc, a: Action, name: string, stop: Option<Stop>, after: Doc)
    requires AllMapped(d) && Stepped(d, a, name, stop, after)
    ensures AllMapped(after)
  {
    hide AllMapped, Stepped;
    if a.kind == AddSketchGeometry {
      GeometryKeepsMaps(d, a, name, stop, after);
    } else if a.kind == AddConstraint {
      ConstraintsKeepMaps(d, a, name, stop, after);
    } else {
      OthersKeepMaps(d, a, name, stop, after);
    }
  }

  lemma GeometryKeepsMaps(d: Doc, a: Action, name: string, stop: Option<Stop>, after: Doc)
    requires AllMapped(d) && Stepped(d, a, name, stop, after) && a.kind == AddSketchGeometry
    ensures AllMapped(after)
  {
    ItemActions(d, a, name);
    hide Apply, AddGeometry, AddedItems;
    var target := FindTarget(d, a.targetId);
    if target.Some? && Get(a.parameters, "geometry").Array? {
      AddedGeometryIsMapped(d[target.value], Get(a.parameters, "geometry").items);
    }
  }

  lemma ConstraintsKeepMaps(d: Doc, a: Action, name: string, stop: Option<Stop>, after: Doc)
    requires AllMapped(d) && Stepped(d, a, name, stop, after) && a.kind == AddConstraint
    ensures AllMapped(after)
  {
    ItemActions(d, a, name);
    hide Apply, AddConstraints, AddedConstraints;
  }

  lemma OthersKeepMaps(d: Doc, a: Action, name: string, stop: Option<Stop>, after: Doc)
    requires AllMapped(d) && Stepped(d, a, name, stop, after) && a.kind !in {AddSketchGeometry, AddConstraint}
    ensures AllMapped(after)
  {
    hide HasPositive, NumberOf, Editable, HasText, FeatureId, ApplyGeometry, ApplyConstraints, Find;
    if stop.None? {
      ShapesStay(d, a, name, after);
    }
    hide Apply, Mapped;
  }

  /** Every object left is one that was there, up to its numbers, or is new and empty. */
  lemma ShapesStay(d: Doc, a: Action, name: string, after: Doc)
    requires Apply(d, a, name) == Done(after) && a.kind !in {AddSketchGeometry, AddConstraint} && AllMapped(d)
    ensures AllMapped(after)
  {
    hide HasPositive, NumberOf, Editable, HasText, FeatureId, ApplyGeometry, ApplyConstraints, Find;
    if a.kind == DeleteFeature {
      var i := FindTarget(d, a.targetId).value;
      assert forall k | 0 <= k < |after| :: after[k] == d[if k < i then k else k + 1];
    } else if CreatesFeature(a.kind) {
      assert |after| == |d| + 1 && after[..|d|] == d && after[|d|].geometry == map[];
    }
  }

  lemma {:induction false} FirstBadItem(mapping: map<string, nat>, shapes: nat, items: seq<Json>)
    requires AddGeometry(mapping, shapes, items).Failure?
    ensures var n := AddedItems(mapping, shapes, items);
      && n < |items| && AddGeometry(mapping, shapes, items[..n]).Success?
      && AddGeometry(mapping, shapes, items[..n + 1]) == AddGeometry(mapping, shapes, items)
    decreases |items|
  {
    hide AddOneGeometry;
    var added := AddOneGeometry(mapping, items[0]);
    if added.Success? {
      FirstBadItem(mapping[added.value := shapes], shapes + 1, items[1..]);
      var n := AddedItems(mapping, shapes, items);
      assert items[..n][0] == items[0] && items[..n][1..] == items[1..][..n - 1];
      assert items[..n + 1][0] == items[0] && items[..n + 1][1..] == items[1..][..n];
    }
  }

  lemma {:induction false} FirstBadConstraint(mapping: map<string, nat>, items: seq<Json>)
    requires AddConstraints(mapping, items).Some?
    ensures var n := AddedConstraints(mapping, items);
      && n < |items| && AddConstraints(mapping, items[..n]).None?
      && AddConstraints(mapping, items[..n + 1]) == AddConstraints(mapping, items)
  {
    hide AddOneConstraint;
    if AddOneConstraint(mapping, items[0]).None? {
      FirstBadConstraint(mapping, items[1..]);
      var n := AddedConstraints(mapping, items);
      assert items[..n][0] == items[0] && items[..n][1..] == items[1..][..n - 1];
      assert items[..n + 1][0] == items[0] && items[..n + 1][1..] == items[1..][..n];
    }
  }

  /** The document is as it was, but for n more shapes and m more constraints in object i. */
  ghost predicate GrownSketch(d: Doc, r: Doc, i: nat, n: nat, m: nat)
  {
    i < |d| && r == d[i := d[i].(shapes := d[i].shapes + n, constraints := d[i].constraints + m)]
  }

  /** What a step that stops leaves behind: the document as it was but for exactly the shapes or constraints
      of the items before the first bad one, in a sketch whose map does not list them. */
  lemma StopLeavesEarlierItems(d: Doc, a: Action, name: string) returns (i: nat, n: nat, m: nat)
    requires Apply(d, a, name).Stopped?
    ensures LeftBehind(d, a) == d || GrownSketch(d, LeftBehind(d, a), i, n, m)
    ensures n > 0 ==> a.kind == AddSketchGeometry && GoodItems(d, a, i, n, Apply(d, a, name).stop)
    ensures m > 0 ==> a.kind == AddConstraint && GoodConstraints(d, a, i, m, Apply(d, a, name).stop)
  {
    hide LeftBehind, GrownSketch, GoodItems, GoodConstraints;
    i, n, m := 0, 0, 0;
    if a.kind == AddSketchGeometry {
      i, n := StopLeavesShapes(d, a, name);
    } else if a.kind == AddConstraint {
      i, m := StopLeavesConstraints(d, a, name);
    } else {
      OthersLeaveNothing(d, a);
    }
    hide Apply;
  }

  lemma OthersLeaveNothing(d: Doc, a: Action)
    requires a.kind !in {AddSketchGeometry, AddConstraint}
    ensures LeftBehind(d, a) == d
  {
  }

  lemma StopLeavesShapes(d: Doc, a: Action, name: string) returns (i: nat, n: nat)
    requires Apply(d, a, name).Stopped? && a.kind == AddSketchGeometry
    ensures LeftBehind(d, a) == d || GrownSketch(d, LeftBehind(d, a), i, n, 0)
    ensures n > 0 ==> GoodItems(d, a, i, n, Apply(d, a, name).stop)
  {
    ItemActions(d, a, name);
    hide Apply, AddGeometry, AddedItems;
    i, n := 0, 0;
    var target, geometry := FindTarget(d, a.targetId), Get(a.parameters, "geometry");
    if target.Some? && d[target.value].typeId.SketchType? && geometry.Array? {
      i := target.value;
      n := AddedItems(d[i].geometry, d[i].shapes, geometry.items);
      FirstBadItem(d[i].geometry, d[i].shapes, geometry.items);
    }
  }

  lemma StopLeavesConstraints(d: Doc, a: Action, name: string) returns (i: nat, m: nat)
    requires Apply(d, a, name).Stopped? && a.kind == AddConstraint
    ensures LeftBehind(d, a) == d || GrownSketch(d, LeftBehind(d, a), i, 0, m)
    ensures m > 0 ==> GoodConstraints(d, a, i, m, Apply(d, a, name).stop)
  {
    ItemActions(d, a, name);
    hide Apply, AddConstraints, AddedConstraints;
    i, m := 0, 0;
    var target, constraints := FindTarget(d, a.targetId), Get(a.parameters, "constraints");
    if target.Some? && constraints.Array? {
      i := target.value;
      m := AddedConstraints(d[i].geometry, constraints.items);
      FirstBadConstraint(d[i].geometry, constraints.items);
    }
  }

  /** The first n items can be added to object i and the next one is what stops the step. */
  ghost predicate GoodItems(d: Doc, a: Action, i: nat, n: nat, stop: Stop)
  {
    var geometry := Get(a.parameters, "geometry");
    && IsObject(d, i, a.targetId.GetOr("")) && geometry.Array? && n < |geometry.items|
    && AddGeometry(d[i].geometry, d[i].shapes, geometry.items[..n]).Success?
    && AddGeometry(d[i].geometry, d[i].shapes, geometry.items[..n + 1]) == Failure(stop)
  }

  ghost predicate GoodConstraints(d: Doc, a: Action, i: nat, m: nat, stop: Stop)
  {
    var constraints := Get(a.parameters, "constraints");
    && IsObject(d, i, a.targetId.GetOr("")) && constraints.Array? && m < |constraints.items|
    && AddConstraints(d[i].geometry, constraints.items[..m]).None?
    && AddConstraints(d[i].geometry, constraints.items[..m + 1]) == Some(stop)
  }

  /** An action whose check passes and whose step still stops with the sketch grown: its second line has an id
      that the sketch already uses. */
  lemma StopCanLeaveAShape() returns (d: Doc, a: Action, name: string)
    ensures UniqueIds(d) && PassesAt(a, Ids(d)) && AllMapped(d)
    ensures Apply(d, a, name) == Stopped(Refusal(DuplicateGeometry))
    ensures |d| == 1 && LeftBehind(d, a) == [d[0].(shapes := d[0].shapes + 1)]
  {
    var first, second := Line("new"), Line("old");
    LinesPass(first, second);
    LinesStop(first, second);
    d, name := [Obj("Sketch", "s", SketchType, map[], map["old" := 0], 1, 0)], "";
    a := Action("a", AddSketchGeometry, Some("s"), map["geometry" := Array([first, second])]);
    OneObject(d);
    hide CheckGeometry, AddGeometry, AddedItems, Ids, UniqueIds, Line, PassesAt, Apply, LeftBehind;
    SecondItemStops(d, a, name, [first, second]);
  }

  lemma SecondItemStops(d: Doc, a: Action, name: string, items: seq<Json>)
    requires a.kind == AddSketchGeometry && a.targetId == Some("s") && Get(a.parameters, "geometry") == Array(items)
    requires |d| == 1 && Find(d, "s") == Some(0) && d[0].typeId == SketchType && Ids(d) == {"s"}
    requires items != [] && CheckGeometry(items, {}) == Pass
    requires AddGeometry(d[0].geometry, d[0].shapes, items) == Failure(Refusal(DuplicateGeometry))
    requires AddedItems(d[0].geometry, d[0].shapes, items) == 1
    ensures PassesAt(a, Ids(d)) && Apply(d, a, name) == Stopped(Refusal(DuplicateGeometry))
    ensures LeftBehind(d, a) == [d[0].(shapes := d[0].shapes + 1)]
  {
    hide CheckGeometry, AddGeometry, AddedItems, Ids;
    assert d[0 := d[0].(shapes := d[0].shapes + 1)] == [d[0].(shapes := d[0].shapes + 1)];
  }

  lemma OneObject(d: Doc)
    requires |d| == 1 && d[0].tag == "s"
    ensures UniqueIds(d) && Ids(d) == {"s"} && Find(d, "s") == Some(0)
  {
    assert d[0] in d && IdOf(d[0]) == "s";
  }

  /** A line from the origin to the origin. */
  function Line(id: string): Json
  {
    var origin := Array([Json.Number(0.0), Json.Number(0.0)]);
    Object(map["geometry_id" := Text(id), "type" := Text("line"), "start" := origin, "end" := origin])
  }

  lemma LinesPass(first: Json, second: Json)
    requires first == Line("new") && second == Line("old")
    ensures CheckGeometry([first, second], {}) == Pass
  {
    assert !IsSpace("new"[0]) && !IsSpace("old"[0]);
    assert NonBlank("new") && NonBlank("old");
    assert "new"[0] != "old"[0];
    assert [first, second][1..] == [second] && [second][1..] == [];
    var none: set<string> := {};
    assert none + {"new"} == {"new"};
    assert CheckGeometry([second], {"new"}) == Pass;
  }

  lemma LinesStop(first: Json, second: Json)
    requires first == Line("new") && second == Line("old")
    ensures AddGeometry(map["old" := 0], 1, [first, second]) == Failure(Refusal(DuplicateGeometry))
    ensures AddedItems(map["old" := 0], 1, [first, second]) == 1
  {
    assert "new"[0] != "old"[0];
    var mapping: map<string, nat> := map["old" := 0];
    assert AddOneGeometry(mapping, first) == Success("new");
    assert AddOneGeometry(mapping["new" := 1], second) == Failure(Refusal(DuplicateGeometry));
    assert [first, second][1..] == [second];
    hide AddOneGeometry;
  }

  /** The executor itself does not look for duplicates: a creating step that completes keeps ids unique if
      and only if its id was new, which is what the static check makes sure of. */
  lemma UniquenessNeedsTheCheck(d: Doc, a: Action, name: string)
    requires UniqueIds(d) && CreatesFeature(a.kind) && Apply(d, a, name).Done?
    ensures UniqueIds(Apply(d, a, name).doc) <==> FeatureId(a) !in Ids(d)
  {
    StepTouchesOnlyItsSubject(d, a, name);
    CreationNeedsAnId(d, a, name);
    hide Apply, FeatureId;
    var r := Apply(d, a, name).doc;
    assert IdOf(r[|d|]) == FeatureId(a) && r == d + [r[|d|]];
    if FeatureId(a) in Ids(d) {
      var k :| 0 <= k < |d| && IdOf(d[k]) == FeatureId(a);
      assert IdOf(r[k]) == IdOf(r[|d|]);
    } else {
      AppendedIds(d, r[|d|]);
    }
  }

  lemma CreationNeedsAnId(d: Doc, a: Action, name: string)
    requires CreatesFeature(a.kind) && Apply(d, a, name).Done?
    ensures FeatureId(a) != ""
  {
  }
}
