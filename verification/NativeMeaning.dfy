/** What the native adapter's static check and its executor do, by kind of action: what an action must carry
    to pass, which code it gets otherwise, what a completed step leaves, and where a step stops. */
module NativeMeaning {
  import opened Contracts
  import opened FreeCadPreflight

  // ------------------------------------------------------------ what passes

  /** The parameter is a text that is not all whitespace. */
  ghost predicate HasWord(a: Action, name: string)
  {
    && name in a.parameters && a.parameters[name].Text?
    && exists i :: 0 <= i < |a.parameters[name].s| && !IsSpace(a.parameters[name].s[i])
  }

  ghost predicate HasSize(a: Action, name: string)
  {
    name in a.parameters && a.parameters[name].Number? && a.parameters[name].n > 0.0
  }

  ghost predicate NamesNew(a: Action, known: set<string>)
  {
    HasWord(a, "feature_id") && a.parameters["feature_id"].s !in known
  }

  ghost predicate OnKnown(a: Action, known: set<string>)
  {
    a.targetId.Some? && a.targetId.value != "" && a.targetId.value in known
  }

  /** The item is an object with a non-blank id; so is an item's identity once this holds. */
  ghost predicate HasItemId(item: Json)
  {
    && item.Object? && "geometry_id" in item.fields && item.fields["geometry_id"].Text?
    && exists i :: 0 <= i < |item.fields["geometry_id"].s| && !IsSpace(item.fields["geometry_id"].s[i])
  }

  /** Item i is a line or a circle with an id that no earlier item has. */
  ghost predicate IsNewShape(items: seq<Json>, i: nat)
    requires i < |items|
  {
    && HasItemId(items[i]) && "type" in items[i].fields && items[i].fields["type"] in {Text("line"), Text("circle")}
    && forall k | 0 <= k < i && HasItemId(items[k]) :: items[k].fields["geometry_id"] != items[i].fields["geometry_id"]
  }

  ghost predicate AreNewShapes(items: seq<Json>)
  {
    forall i: nat | i < |items| :: IsNewShape(items, i)
  }

  /** What an action must carry to pass against the ids believed present. */
  ghost predicate Meets(a: Action, known: set<string>)
  {
    match a.kind
    case CreateDocument => true
    case AddBox => NamesNew(a, known) && HasSize(a, "width") && HasSize(a, "depth") && HasSize(a, "height")
    case AddCylinder => NamesNew(a, known) && HasSize(a, "radius") && HasSize(a, "height")
    case CreateSketch =>
      && NamesNew(a, known)
      && ("plane" in a.parameters ==> a.parameters["plane"] in {Text("XY"), Text("XZ"), Text("YZ")})
    case Extrude => NamesNew(a, known) && OnKnown(a, known) && HasSize(a, "length")
    case BooleanCut =>
      && NamesNew(a, known) && OnKnown(a, known) && HasWord(a, "tool_id")
      && a.parameters["tool_id"].s in known && a.parameters["tool_id"].s != a.targetId.value
    case AddSketchGeometry =>
      && OnKnown(a, known) && "geometry" in a.parameters && a.parameters["geometry"].Array?
      && a.parameters["geometry"].items != [] && AreNewShapes(a.parameters["geometry"].items)
    case AddConstraint =>
      && OnKnown(a, known) && "constraints" in a.parameters && a.parameters["constraints"].Array?
      && a.parameters["constraints"].items != []
    case SetParameter =>
      OnKnown(a, known) && HasWord(a, "name") && "value" in a.parameters && a.parameters["value"].Number?
    case DeleteFeature => OnKnown(a, known)
    case _ => false
  }

  /** No earlier item, and nothing seen before, has the id of item i. */
  ghost predicate PassesFrom(items: seq<Json>, seen: set<string>)
  {
    forall i: nat | i < |items| ::
      NamedAnew(items, seen, i) && GeometryType(items[i]) in {Text("line"), Text("circle")}
  }

  lemma {:induction false} GeometryPasses(items: seq<Json>, seen: set<string>)
    ensures CheckGeometry(items, seen) == Pass <==> PassesFrom(items, seen)
    decreases |items|
  {
    if items != [] && NamedAnew(items, seen, 0) && GeometryType(items[0]) in {Text("line"), Text("circle")} {
      var rest, more := items[1..], seen + {GeometryId(items[0]).s};
      GeometryPasses(rest, more);
      assert CheckGeometry(items, seen) == CheckGeometry(rest, more);
      hide CheckGeometry, GeometryId, GeometryType;
      forall i: nat | i < |rest| ensures NamedAnew(items, seen, i + 1) <==> NamedAnew(rest, more, i)
      {
        TailNamedAnew(items, seen, i);
      }
      hide NamedAnew;
      ShiftedFrom(items, seen, more);
    } else if items != [] {
      assert !(NamedAnew(items, seen, 0) && GeometryType(items[0]) in {Text("line"), Text("circle")});
    }
  }

  lemma ShiftedFrom(items: seq<Json>, seen: set<string>, more: set<string>)
    requires items != [] && NamedAnew(items, seen, 0) && GeometryType(items[0]) in {Text("line"), Text("circle")}
    requires forall i: nat | i < |items[1..]| :: NamedAnew(items, seen, i + 1) <==> NamedAnew(items[1..], more, i)
    ensures PassesFrom(items, seen) <==> PassesFrom(items[1..], more)
  {
    hide NamedAnew, GeometryType;
    var rest := items[1..];
    if PassesFrom(items, seen) {
      forall i: nat | i < |rest|
        ensures NamedAnew(rest, more, i) && GeometryType(rest[i]) in {Text("line"), Text("circle")}
      {
        assert NamedAnew(items, seen, i + 1) && rest[i] == items[i + 1];
      }
    }
    if PassesFrom(rest, more) {
      forall i: nat | i < |items|
        ensures NamedAnew(items, seen, i) && GeometryType(items[i]) in {Text("line"), Text("circle")}
      {
        assert i > 0 ==> NamedAnew(rest, more, i - 1) && rest[i - 1] == items[i];
      }
    }
  }

  lemma NewShapesPass(items: seq<Json>)
    ensures PassesFrom(items, {}) <==> AreNewShapes(items)
  {
    if AreNewShapes(items) {
      forall i: nat | i < |items|
        ensures NamedAnew(items, {}, i) && GeometryType(items[i]) in {Text("line"), Text("circle")}
      {
        assert IsNewShape(items, i);
        forall k | 0 <= k < i ensures GeometryId(items[k]) != GeometryId(items[i])
        {
          assert IsNewShape(items, k);
        }
      }
    }
    if PassesFrom(items, {}) {
      forall i: nat | i < |items| ensures IsNewShape(items, i)
      {
        assert NamedAnew(items, {}, i) && GeometryType(items[i]) in {Text("line"), Text("circle")};
      }
    }
  }

  lemma WordMeaning(a: Action, name: string)
    ensures HasText(a, name) <==> HasWord(a, name)
    ensures HasText(a, name) ==> Get(a.parameters, name) == a.parameters[name]
  {
  }

  lemma SizeMeaning(a: Action, name: string)
    ensures HasPositive(a, name) <==> HasSize(a, name)
  {
  }

  /** The check of an action passes exactly when the action carries what its kind demands. */
  lemma PassesMeaning(a: Action, known: set<string>)
    ensures PassesAt(a, known) <==> Meets(a, known)
  {
    WordMeaning(a, "feature_id");
    WordMeaning(a, "tool_id");
    WordMeaning(a, "name");
    forall name ensures HasPositive(a, name) <==> HasSize(a, name)
    {
      SizeMeaning(a, name);
    }
    if a.kind == AddSketchGeometry && Get(a.parameters, "geometry").Array? {
      GeometryPasses(Get(a.parameters, "geometry").items, {});
      NewShapesPass(Get(a.parameters, "geometry").items);
    }
    hide HasText, HasWord, HasPositive, HasSize, CheckGeometry, PassesFrom, AreNewShapes;
  }

  // ------------------------------------------------------- the code otherwise

  ghost predicate Creates(a: Action)
  {
    a.kind in {CreateSketch, AddBox, AddCylinder, Extrude, BooleanCut}
  }

  ghost predicate Repeats(a: Action, known: set<string>)
  {
    Creates(a) && HasWord(a, "feature_id") && a.parameters["feature_id"].s in known
  }

  /** The target, or a cut's tool, is not believed present; a creating action's own id is looked at first. */
  ghost predicate Misses(a: Action, known: set<string>)
  {
    || (a.kind in {AddSketchGeometry, AddConstraint, SetParameter, DeleteFeature} && !OnKnown(a, known))
    || (a.kind in {Extrude, BooleanCut} && NamesNew(a, known) && !OnKnown(a, known))
    || (a.kind == BooleanCut && NamesNew(a, known) && OnKnown(a, known) && HasWord(a, "tool_id")
        && a.parameters["tool_id"].s !in known)
  }

  /** An action that neither passes nor raises gets one diagnostic, with the code of the first thing wrong. */
  lemma CodeMeaning(a: Action, known: set<string>)
    requires !Meets(a, known) && !Trips(a, known)
    ensures |CodeAt(a, known)| == 1 && CodeAt(a, known)[0].actionId == Some(a.actionId)
    ensures CodeAt(a, known)[0].code
         == if a.kind in {Revolve, Fillet, Chamfer, Pattern, SaveDocument, ExportDocument} then
                            UnsupportedAction
                          else if Repeats(a, known) then DuplicateFeature
                          else if Misses(a, known) then FeatureNotFound
                          else InvalidParameter
  {
    PassesMeaning(a, known);
    CrashMeaning(a, known);
    WordMeaning(a, "feature_id");
    WordMeaning(a, "tool_id");
    if a.kind == AddSketchGeometry && Get(a.parameters, "geometry").Array? {
      GeometryCode(Get(a.parameters, "geometry").items, {});
    }
    hide HasText, HasWord, HasPositive, Meets, Trips, CheckGeometry;
  }

  lemma {:induction false} GeometryCode(items: seq<Json>, seen: set<string>)
    ensures CheckGeometry(items, seen) in {Pass, Crash, Fail(InvalidParameter)}
    decreases |items|
  {
    if items != [] && items[0].Object? && Get(items[0].fields, "geometry_id").Text? {
      GeometryCode(items[1..], seen + {Get(items[0].fields, "geometry_id").s});
    }
  }

  // ------------------------------------------------------------- whole plans

  ghost predicate CreatesFirstOnly(actions: seq<Action>)
  {
    && actions != [] && actions[0].kind == CreateDocument
    && forall i | 0 < i < |actions| :: actions[i].kind != CreateDocument
  }

  /** Action i is the plan's first document creation. */
  ghost predicate FirstCreation(actions: seq<Action>, i: nat)
  {
    && i < |actions| && actions[i].kind == CreateDocument
    && forall k | 0 <= k < i :: actions[k].kind != CreateDocument
  }

  ghost function Place(code: DiagnosticCode): nat
  {
    match code
    case InvalidDocumentId => 0
    case StaleDocumentRevision => 1
    case _ => 2
  }

  lemma {:induction false} FirstOfCreations(actions: seq<Action>)
    ensures var creates := OfKind(actions, CreateDocument);
      creates != [] ==> exists i: nat :: FirstCreation(actions, i) && actions[i] == creates[0]
  {
    if actions == [] {
    } else if actions[0].kind == CreateDocument {
      assert FirstCreation(actions, 0);
    } else {
      FirstOfCreations(actions[1..]);
      var creates := OfKind(actions[1..], CreateDocument);
      if creates != [] {
        var i: nat :| FirstCreation(actions[1..], i) && actions[1..][i] == creates[0];
        assert forall k | 0 < k < |actions| :: actions[k] == actions[1..][k - 1];
        assert FirstCreation(actions, i + 1);
      }
    }
  }

  lemma OnlyFirstCreates(actions: seq<Action>)
    requires actions != []
    ensures CreatesFirstOnly(actions)
            <==> |OfKind(actions, CreateDocument)| == 1 && actions[0].kind == CreateDocument
  {
    OfKindOnlyFirst(actions, CreateDocument);
    hide OfKind;
    assert forall i | 0 < i < |actions| :: actions[i] == actions[1..][i - 1];
  }

  lemma InParts(d: Diagnostic, a: seq<Diagnostic>, b: seq<Diagnostic>, c: seq<Diagnostic>)
    ensures d in a + b + c <==> d in a || d in b || d in c
  {
  }

  lemma PartsInOrder(a: seq<Diagnostic>, b: seq<Diagnostic>, c: seq<Diagnostic>)
    requires |a| <= 1 && |b| <= 1 && |c| <= 1
    requires forall x | x in a :: Place(x.code) == 0
    requires forall x | x in b :: Place(x.code) == 1
    requires forall x | x in c :: Place(x.code) == 2
    ensures forall i, j | 0 <= i < j < |a + b + c| :: Place((a + b + c)[i].code) < Place((a + b + c)[j].code)
  {
    hide Place;
  }

  /** The third part of the plan's diagnostics: what is wrong with its document. */
  ghost function DocumentCodes(plan: ActionPlan, current: Option<Current>): seq<Diagnostic>
  {
    var creates := OfKind(plan.actions, CreateDocument);
    if current.None? then
      if |creates| != 1 || plan.actions[0].kind != CreateDocument then [Diagnostic(DocumentNotFound, None)] else []
    else if creates != [] then [Diagnostic(DocumentAlreadyExists, Some(creates[0].actionId))]
    else []
  }

  /** The plan creates a missing document not exactly once and first, or creates one that exists, which is
      reported at its first creating action. */
  ghost predicate Miscreates(plan: ActionPlan, current: Option<Current>, d: Diagnostic)
  {
    if current.None? then d == Diagnostic(DocumentNotFound, None) && !CreatesFirstOnly(plan.actions)
    else && d.code == DocumentAlreadyExists
         && exists i: nat :: FirstCreation(plan.actions, i) && d.actionId == Some(plan.actions[i].actionId)
  }

  lemma DocumentCodesMeaning(plan: ActionPlan, current: Option<Current>, d: Diagnostic)
    ensures |DocumentCodes(plan, current)| <= 1
    ensures d in DocumentCodes(plan, current) <==> Miscreates(plan, current, d)
  {
    FirstOfCreations(plan.actions);
    OfKindEmpty(plan.actions, CreateDocument);
    OnlyFirstCreates(plan.actions);
    UniqueFirst(plan.actions);
    forall i: nat | FirstCreation(plan.actions, i) ensures plan.actions[i] in plan.actions
    {
    }
    hide OfKind, CreatesFirstOnly, FirstCreation;
  }

  lemma UniqueFirst(actions: seq<Action>)
    ensures forall i: nat, j: nat :: FirstCreation(actions, i) && FirstCreation(actions, j) ==> i == j
  {
  }

  lemma PlanCodesAre(plan: ActionPlan, current: Option<Current>)
    returns (invalid: seq<Diagnostic>, stale: seq<Diagnostic>)
    ensures invalid == if IsDocumentId(plan.documentId) then [] else [Diagnostic(InvalidDocumentId, None)]
    ensures stale == if plan.baseRevision == (if current.Some? then current.value.revision else 0) then []
                     else [Diagnostic(StaleDocumentRevision, None)]
    ensures PlanCodes(plan, current, IsDocumentId(plan.documentId)) == invalid + stale + DocumentCodes(plan, current)
  {
    hide OfKind, IsDocumentId;
    invalid := if IsDocumentId(plan.documentId) then [] else [Diagnostic(InvalidDocumentId, None)];
    stale := if plan.baseRevision == (if current.Some? then current.value.revision else 0) then []
             else [Diagnostic(StaleDocumentRevision, None)];
  }

  /** The diagnostics of the plan as a whole: each code exactly when what it names is wrong. */
  lemma PlanCodesMeaning(plan: ActionPlan, current: Option<Current>, d: Diagnostic)
    ensures d in PlanCodes(plan, current, IsDocumentId(plan.documentId))
       <==> || (d == Diagnostic(InvalidDocumentId, None) && !IsDocumentId(plan.documentId))
            || (d == Diagnostic(StaleDocumentRevision, None)
                && plan.baseRevision != if current.Some? then current.value.revision else 0)
            || Miscreates(plan, current, d)
  {
    hide PlanCodes, DocumentCodes, IsDocumentId, Miscreates;
    var invalid, stale := PlanCodesAre(plan, current);
    InParts(d, invalid, stale, DocumentCodes(plan, current));
    DocumentCodesMeaning(plan, current, d);
  }

  /** They are listed in that order, each at most once. */
  lemma PlanCodesInOrder(plan: ActionPlan, current: Option<Current>)
    ensures var codes := PlanCodes(plan, current, IsDocumentId(plan.documentId));
      forall i, j | 0 <= i < j < |codes| :: Place(codes[i].code) < Place(codes[j].code)
  {
    hide PlanCodes, IsDocumentId, OfKind;
    var invalid, stale := PlanCodesAre(plan, current);
    PartsInOrder(invalid, stale, DocumentCodes(plan, current));
  }

  /** A letter or an underscore, then letters, digits and underscores, by code points. */
  lemma DocumentIdMeaning(s: string)
    ensures IsDocumentId(s)
            <==> s != "" && StartsId(s[0] as int)
                 && forall i | 0 <= i < |s| :: StartsId(s[i] as int) || 48 <= s[i] as int <= 57
  {
  }

  ghost predicate StartsId(n: int)
  {
    65 <= n <= 90 || 97 <= n <= 122 || n == 95
  }

  // ------------------------------------------------------------ the executor

  /** An object goes by its tag, and by its name when it has none. */
  ghost predicate GoesBy(o: Obj, id: string)
  {
    (o.tag != "" && o.tag == id) || (o.tag == "" && o.name == id)
  }

  /** Object i is the first that goes by this id. */
  ghost predicate FirstBy(d: Doc, i: nat, id: string)
  {
    i < |d| && GoesBy(d[i], id) && forall k | 0 <= k < i :: !GoesBy(d[k], id)
  }

  ghost predicate Targets(d: Doc, a: Action, i: nat)
  {
    a.targetId.Some? && FirstBy(d, i, a.targetId.value)
  }

  lemma FindMeaning(d: Doc, id: string, i: nat)
    ensures Find(d, id) == Some(i) <==> FirstBy(d, i, id)
  {
    var r := Find(d, id);
    if FirstBy(d, i, id) {
      assert IdOf(d[i]) == id && d[i] in d;
    }
  }

  ghost predicate IsPair(fields: map<string, Json>, name: string)
  {
    && name in fields && fields[name].Array? && |fields[name].items| == 2
    && fields[name].items[0].Number? && fields[name].items[1].Number?
  }

  ghost predicate HasName(item: Json)
  {
    item.Object? && "geometry_id" in item.fields && item.fields["geometry_id"].Text?
  }

  ghost function NameOf(item: Json): string
    requires HasName(item)
  {
    item.fields["geometry_id"].s
  }

  /** A line with two end points, or anything else with a centre and a positive radius. */
  ghost predicate IsDrawable(fields: map<string, Json>)
  {
    if "type" in fields && fields["type"] == Text("line") then IsPair(fields, "start") && IsPair(fields, "end")
    else IsPair(fields, "center") && "radius" in fields && fields["radius"].Number? && fields["radius"].n > 0.0
  }

  /** Item n has a name that the sketch and the earlier items do not use. */
  ghost predicate IsUnused(mapping: map<string, nat>, items: seq<Json>, n: nat)
    requires n < |items| && HasName(items[n])
  {
    && NameOf(items[n]) !in mapping
    && forall k | 0 <= k < n && HasName(items[k]) :: NameOf(items[k]) != NameOf(items[n])
  }

  ghost predicate CanAdd(mapping: map<string, nat>, items: seq<Json>, n: nat)
    requires n < |items|
  {
    HasName(items[n]) && IsUnused(mapping, items, n) && IsDrawable(items[n].fields)
  }

  /** Why item n is not added. */
  ghost predicate FaultOf(mapping: map<string, nat>, items: seq<Json>, n: nat, stop: Stop)
    requires n < |items|
  {
    if !HasName(items[n]) then stop == Exception
    else if !IsUnused(mapping, items, n) then stop == Refusal(DuplicateGeometry)
    else !IsDrawable(items[n].fields) && stop == Refusal(InvalidParameter)
  }

  /** The first n items can be added. */
  ghost predicate CanAddFirst(mapping: map<string, nat>, items: seq<Json>, n: nat)
    requires n <= |items|
  {
    forall k: nat | k < n :: CanAdd(mapping, items, k)
  }

  /** The names of the items stand for the host's next shapes, in order; nothing else changes. */
  ghost predicate Assigned(before: map<string, nat>, shapes: nat, items: seq<Json>, after: map<string, nat>)
  {
    && (forall k: nat | k < |items| :: HasName(items[k]) && NameOf(items[k]) in after
          && after[NameOf(items[k])] == shapes + k)
    && (forall id | id in before :: id in after && after[id] == before[id])
    && forall id | id in after :: id in before || exists k: nat :: k < |items| && HasName(items[k])
                                                               && NameOf(items[k]) == id
  }

  /** n items are added: all of them, and their names stand for the new shapes, or those before the first that
      cannot be added, which names the fault. */
  ghost predicate IsAddition(mapping: map<string, nat>, shapes: nat, items: seq<Json>,
                             r: Result<map<string, nat>, Stop>, n: nat)
  {
    && n <= |items| && CanAddFirst(mapping, items, n)
    && (r.Success? ==> n == |items| && Assigned(mapping, shapes, items, r.value))
    && (r.Failure? ==> n < |items| && !CanAdd(mapping, items, n) && FaultOf(mapping, items, n, r.error))
  }

  lemma OneItem(mapping: map<string, nat>, items: seq<Json>)
    requires items != []
    ensures var r := AddOneGeometry(mapping, items[0]);
      && (r.Success? ==> CanAdd(mapping, items, 0) && r.value == NameOf(items[0]))
      && (r.Failure? ==> !CanAdd(mapping, items, 0) && FaultOf(mapping, items, 0, r.error))
  {
  }

  lemma NextUnused(mapping: map<string, nat>, shapes: nat, items: seq<Json>, n: nat)
    requires n + 1 < |items| && HasName(items[0])
    ensures var more := mapping[NameOf(items[0]) := shapes];
      && (CanAdd(mapping, items, n + 1) <==> CanAdd(more, items[1..], n))
      && forall stop :: FaultOf(mapping, items, n + 1, stop) <==> FaultOf(more, items[1..], n, stop)
  {
    hide IsDrawable;
    var rest, more := items[1..], mapping[NameOf(items[0]) := shapes];
    assert items[n + 1] == rest[n];
    if HasName(rest[n]) {
      if IsUnused(mapping, items, n + 1) {
        forall k | 0 <= k < n && HasName(rest[k]) ensures NameOf(rest[k]) != NameOf(rest[n])
        {
          assert rest[k] == items[k + 1];
        }
      }
      if IsUnused(more, rest, n) {
        forall k | 0 <= k < n + 1 && HasName(items[k]) ensures NameOf(items[k]) != NameOf(items[n + 1])
        {
          assert k > 0 ==> items[k] == rest[k - 1];
        }
      }
      assert IsUnused(mapping, items, n + 1) <==> IsUnused(more, rest, n);
    }
  }

  /** Items are added up to the first that cannot be; when all can, their names stand for the new shapes. */
  lemma {:induction false} AddingMeaning(mapping: map<string, nat>, shapes: nat, items: seq<Json>)
    ensures IsAddition(mapping, shapes, items, AddGeometry(mapping, shapes, items), AddedItems(mapping, shapes, items))
    decreases |items|
  {
    hide IsDrawable, IsUnused, AddOneGeometry, CanAdd, FaultOf;
    if items != [] {
      OneItem(mapping, items);
      if AddOneGeometry(mapping, items[0]).Success? {
        AddingRest(mapping, shapes, items);
      }
    }
  }

  lemma AddingRest(mapping: map<string, nat>, shapes: nat, items: seq<Json>)
    requires items != [] && AddOneGeometry(mapping, items[0]).Success?
    ensures IsAddition(mapping, shapes, items, AddGeometry(mapping, shapes, items), AddedItems(mapping, shapes, items))
    decreases |items|, 0
  {
    OneItem(mapping, items);
    var id := AddOneGeometry(mapping, items[0]).value;
    assert id == NameOf(items[0]) && CanAdd(mapping, items, 0) && id !in mapping;
    hide IsDrawable, IsUnused, AddOneGeometry, CanAdd, FaultOf;
    var rest, more := items[1..], mapping[id := shapes];
    AddingMeaning(more, shapes + 1, rest);
    forall k: nat | k + 1 < |items|
      ensures CanAdd(mapping, items, k + 1) <==> CanAdd(more, rest, k)
      ensures forall stop :: FaultOf(mapping, items, k + 1, stop) <==> FaultOf(more, rest, k, stop)
    {
      NextUnused(mapping, shapes, items, k);
    }
    var n := AddedItems(more, shapes + 1, rest);
    forall k: nat | k < n + 1 ensures CanAdd(mapping, items, k)
    {
      assert k > 0 ==> CanAdd(more, rest, k - 1);
    }
    var r := AddGeometry(more, shapes + 1, rest);
    if r.Success? {
      AssignedMore(mapping, shapes, items, r.value);
    }
  }

  lemma AssignedMore(mapping: map<string, nat>, shapes: nat, items: seq<Json>, after: map<string, nat>)
    requires items != [] && HasName(items[0]) && NameOf(items[0]) !in mapping
    requires Assigned(mapping[NameOf(items[0]) := shapes], shapes + 1, items[1..], after)
    ensures Assigned(mapping, shapes, items, after)
  {
    var rest := items[1..];
    forall k: nat | k < |items|
      ensures HasName(items[k]) && NameOf(items[k]) in after && after[NameOf(items[k])] == shapes + k
    {
      assert k > 0 ==> rest[k - 1] == items[k];
    }
    forall id | id in after && id !in mapping
      ensures exists k: nat :: k < |items| && HasName(items[k]) && NameOf(items[k]) == id
    {
      if id == NameOf(items[0]) {
        assert HasName(items[0]);
      } else {
        var k: nat :| k < |rest| && HasName(rest[k]) && NameOf(rest[k]) == id;
        assert rest[k] == items[k + 1];
      }
    }
  }

  ghost predicate Knows(mapping: map<string, nat>, fields: map<string, Json>, name: string)
  {
    name in fields && fields[name].Text? && fields[name].s in mapping
  }

  ghost predicate MayName(fields: map<string, Json>, name: string)
  {
    name in fields ==> fields[name] in {Text("start"), Text("end"), Text("center")}
  }

  /** A constraint of a known type on known geometry: alone, with a positive value, with other known geometry,
      or between named points of two geometries. */
  ghost predicate CanConstrain(mapping: map<string, nat>, item: Json)
  {
    && item.Object? && Knows(mapping, item.fields, "geometry_id") && "type" in item.fields
    && var f, kind := item.fields, item.fields["type"];
       || kind in {Text("horizontal"), Text("vertical"), Text("block")}
       || (kind in {Text("radius"), Text("diameter"), Text("distance")}
           && "value" in f && f["value"].Number? && f["value"].n > 0.0)
       || (kind in {Text("parallel"), Text("perpendicular"), Text("equal")} && Knows(mapping, f, "other_geometry_id"))
       || (kind == Text("coincident") && Knows(mapping, f, "other_geometry_id")
           && MayName(f, "point") && MayName(f, "other_point"))
  }

  /** The constraint names geometry that the sketch does not have. */
  ghost predicate Dangles(mapping: map<string, nat>, item: Json)
  {
    && item.Object?
    && (!Knows(mapping, item.fields, "geometry_id")
        || ("type" in item.fields
            && item.fields["type"] in {Text("parallel"), Text("perpendicular"), Text("equal"), Text("coincident")}
            && !Knows(mapping, item.fields, "other_geometry_id")))
  }

  lemma OneConstraint(mapping: map<string, nat>, item: Json)
    ensures AddOneConstraint(mapping, item)
         == if CanConstrain(mapping, item) then None
            else if Dangles(mapping, item) then Some(Refusal(GeometryNotFound))
            else if item.Object? && "type" in item.fields && (item.fields["type"].Array? || item.fields["type"].Object?)
            then Some(Exception)
            else Some(Refusal(InvalidParameter))
  {
  }

  ghost predicate CanConstrainFirst(mapping: map<string, nat>, items: seq<Json>, n: nat)
    requires n <= |items|
  {
    forall k: nat | k < n :: CanConstrain(mapping, items[k])
  }

  /** Constraints are added up to the first that cannot be. */
  lemma {:induction false} ConstrainingMeaning(mapping: map<string, nat>, items: seq<Json>)
    ensures var r, n := AddConstraints(mapping, items), AddedConstraints(mapping, items);
      && CanConstrainFirst(mapping, items, n)
      && (r.None? <==> n == |items|)
      && (r.Some? ==> !CanConstrain(mapping, items[n]) && r == AddOneConstraint(mapping, items[n]))
  {
    hide CanConstrain, AddOneConstraint, Dangles;
    if items != [] {
      OneConstraint(mapping, items[0]);
      if AddOneConstraint(mapping, items[0]).None? {
        ConstrainingMeaning(mapping, items[1..]);
        var n := AddedConstraints(mapping, items);
        forall k: nat | k < n ensures CanConstrain(mapping, items[k])
        {
          assert k > 0 ==> CanConstrain(mapping, items[1..][k - 1]);
        }
      }
    }
  }

  // ------------------------------------------------------- a completed step

  /** The document with one more object, of the action's own id. */
  ghost predicate Appends(d: Doc, a: Action, name: string, typeId: TypeId, numbers: map<string, real>, after: Doc)
  {
    HasWord(a, "feature_id") && after == d + [Obj(name, a.parameters["feature_id"].s, typeId, numbers, map[], 0, 0)]
  }

  ghost predicate CutsWith(d: Doc, a: Action, j: nat)
  {
    "tool_id" in a.parameters && a.parameters["tool_id"].Text? && FirstBy(d, j, a.parameters["tool_id"].s)
  }

  ghost predicate DrawsOn(d: Doc, a: Action, i: nat, after: Doc)
    requires i < |d|
  {
    && d[i].typeId == SketchType && "geometry" in a.parameters && a.parameters["geometry"].Array?
    && var items := a.parameters["geometry"].items;
       && CanAddFirst(d[i].geometry, items, |items|)
       && |after| == |d| && Assigned(d[i].geometry, d[i].shapes, items, after[i].geometry)
       && after == d[i := d[i].(geometry := after[i].geometry, shapes := d[i].shapes + |items|)]
  }

  ghost predicate Constrains(d: Doc, a: Action, i: nat, after: Doc)
    requires i < |d|
  {
    && "constraints" in a.parameters && a.parameters["constraints"].Array?
    && var items := a.parameters["constraints"].items;
       && CanConstrainFirst(d[i].geometry, items, |items|)
       && after == d[i := d[i].(constraints := d[i].constraints + |items|)]
  }

  ghost predicate Tunable(typeId: TypeId, name: string)
  {
    || (typeId == BoxType && name in {"width", "depth", "height"})
    || (typeId == CylinderType && name in {"radius", "height"})
    || (typeId == ExtrusionType && name == "length")
  }

  ghost predicate Tunes(d: Doc, a: Action, i: nat, after: Doc)
    requires i < |d|
  {
    && HasWord(a, "name") && Tunable(d[i].typeId, a.parameters["name"].s) && HasSize(a, "value")
    && after == d[i := d[i].(numbers := d[i].numbers[a.parameters["name"].s := a.parameters["value"].n])]
  }

  /** What a completed step of each kind needs, and what it leaves. */
  ghost predicate Completes(d: Doc, a: Action, name: string, after: Doc)
  {
    match a.kind
    case AddBox =>
      && HasSize(a, "width") && HasSize(a, "depth") && HasSize(a, "height")
      && Appends(d, a, name, BoxType, map["width" := a.parameters["width"].n, "depth" := a.parameters["depth"].n,
                                          "height" := a.parameters["height"].n], after)
    case AddCylinder =>
      && HasSize(a, "radius") && HasSize(a, "height")
      && Appends(d, a, name, CylinderType,
                 map["radius" := a.parameters["radius"].n, "height" := a.parameters["height"].n], after)
    case CreateSketch =>
      && ("offset" in a.parameters ==> a.parameters["offset"].Number?)
      && Appends(d, a, name, SketchType, map[], after)
    case Extrude =>
      && (exists i: nat :: Targets(d, a, i)) && HasSize(a, "length")
      && Appends(d, a, name, ExtrusionType, map["length" := a.parameters["length"].n], after)
    case BooleanCut =>
      && (exists i: nat :: Targets(d, a, i)) && (exists j: nat :: CutsWith(d, a, j))
      && Appends(d, a, name, CutType, map[], after)
    case AddSketchGeometry => exists i: nat :: Targets(d, a, i) && DrawsOn(d, a, i, after)
    case AddConstraint => exists i: nat :: Targets(d, a, i) && Constrains(d, a, i, after)
    case SetParameter => exists i: nat :: Targets(d, a, i) && Tunes(d, a, i, after)
    case DeleteFeature => exists i: nat :: Targets(d, a, i) && after == d[..i] + d[i + 1..]
    case _ => false
  }

  lemma TargetMeaning(d: Doc, a: Action)
    ensures var t := FindTarget(d, a.targetId);
      && (t.Some? ==> t.value < |d| && Targets(d, a, t.value))
      && forall i: nat :: Targets(d, a, i) ==> t == Some(i)
  {
    if a.targetId.Some? {
      forall i: nat ensures Find(d, a.targetId.value) == Some(i) <==> FirstBy(d, i, a.targetId.value)
      {
        FindMeaning(d, a.targetId.value, i);
      }
    }
  }

  lemma ToolMeaning(d: Doc, a: Action)
    ensures (exists j: nat :: CutsWith(d, a, j))
            <==> Get(a.parameters, "tool_id").Text? && Find(d, Get(a.parameters, "tool_id").s).Some?
  {
    if "tool_id" in a.parameters && a.parameters["tool_id"].Text? {
      forall j: nat ensures Find(d, a.parameters["tool_id"].s) == Some(j) <==> FirstBy(d, j, a.parameters["tool_id"].s)
      {
        FindMeaning(d, a.parameters["tool_id"].s, j);
      }
      if Find(d, a.parameters["tool_id"].s).Some? {
        assert CutsWith(d, a, Find(d, a.parameters["tool_id"].s).value);
      }
    }
  }

  lemma AssignedIsUnique(before: map<string, nat>, shapes: nat, items: seq<Json>, x: map<string, nat>,
                         y: map<string, nat>)
    requires Assigned(before, shapes, items, x) && Assigned(before, shapes, items, y)
    ensures x == y
  {
    forall id ensures id in x <==> id in y
    {
    }
    forall id | id in x ensures x[id] == y[id]
    {
    }
  }

  lemma DrawMeaning(d: Doc, a: Action, i: nat, after: Doc)
    requires a.kind == AddSketchGeometry && i < |d|
    ensures ApplyGeometry(d, a, Some(i)) == Done(after) <==> DrawsOn(d, a, i, after)
  {
    var o, geometry := d[i], Get(a.parameters, "geometry");
    hide AddGeometry, AddedItems, Assigned, CanAdd, FaultOf;
    if geometry.Array? {
      AddingMeaning(o.geometry, o.shapes, geometry.items);
      var r := AddGeometry(o.geometry, o.shapes, geometry.items);
      if DrawsOn(d, a, i, after) && r.Success? {
        AssignedIsUnique(o.geometry, o.shapes, geometry.items, r.value, after[i].geometry);
      }
    }
  }

  lemma ConstrainMeaning(d: Doc, a: Action, i: nat, after: Doc)
    requires a.kind == AddConstraint && i < |d|
    ensures ApplyConstraints(d, a, Some(i)) == Done(after) <==> Constrains(d, a, i, after)
  {
    hide AddConstraints, AddedConstraints, CanConstrain, AddOneConstraint;
    if Get(a.parameters, "constraints").Array? {
      ConstrainingMeaning(d[i].geometry, Get(a.parameters, "constraints").items);
    }
  }

  lemma TuneMeaning(d: Doc, a: Action, i: nat, after: Doc)
    requires a.kind == SetParameter && i < |d|
    ensures ApplyParameter(d, a, Some(i)) == Done(after) <==> Tunes(d, a, i, after)
  {
    WordMeaning(a, "name");
    SizeMeaning(a, "value");
    hide HasText, HasWord;
  }

  /** A step completes with a document exactly when its action and the document meet what its kind needs, and
      the document is the old one with exactly that kind's change. */
  lemma StepMeaning(d: Doc, a: Action, name: string, after: Doc)
    ensures Apply(d, a, name) == Done(after) <==> Completes(d, a, name, after)
  {
    TargetMeaning(d, a);
    if a.kind in {AddSketchGeometry, AddConstraint, SetParameter} {
      EditMeaning(d, a, name, after);
    } else {
      CreateMeaning(d, a, name, after);
    }
  }

  lemma EditMeaning(d: Doc, a: Action, name: string, after: Doc)
    requires a.kind in {AddSketchGeometry, AddConstraint, SetParameter}
    ensures Apply(d, a, name) == Done(after) <==> Completes(d, a, name, after)
  {
    TargetMeaning(d, a);
    var t := FindTarget(d, a.targetId);
    hide FindTarget, Targets, DrawsOn, Constrains, Tunes, HasText;
    if t.Some? {
      if a.kind == AddSketchGeometry {
        DrawMeaning(d, a, t.value, after);
      } else if a.kind == AddConstraint {
        ConstrainMeaning(d, a, t.value, after);
      } else {
        TuneMeaning(d, a, t.value, after);
      }
    }
    hide ApplyGeometry, ApplyConstraints, ApplyParameter;
  }

  lemma CreateMeaning(d: Doc, a: Action, name: string, after: Doc)
    requires a.kind !in {AddSketchGeometry, AddConstraint, SetParameter}
    ensures Apply(d, a, name) == Done(after) <==> Completes(d, a, name, after)
  {
    if a.kind in {AddBox, AddCylinder} {
      SolidMeaning(d, a, name, after);
    } else {
      OtherMeaning(d, a, name, after);
    }
  }

  lemma SolidMeaning(d: Doc, a: Action, name: string, after: Doc)
    requires a.kind in {AddBox, AddCylinder}
    ensures Apply(d, a, name) == Done(after) <==> Completes(d, a, name, after)
  {
    hide FindTarget, Find, Targets, CutsWith, HasText, HasWord, HasPositive;
    WordMeaning(a, "feature_id");
    SizeMeaning(a, "width");
    SizeMeaning(a, "depth");
    SizeMeaning(a, "height");
    SizeMeaning(a, "radius");
  }

  lemma OtherMeaning(d: Doc, a: Action, name: string, after: Doc)
    requires a.kind !in {AddBox, AddCylinder, AddSketchGeometry, AddConstraint, SetParameter}
    ensures Apply(d, a, name) == Done(after) <==> Completes(d, a, name, after)
  {
    hide FindTarget, Find, Targets, CutsWith, HasText, HasWord, HasPositive;
    TargetMeaning(d, a);
    ToolMeaning(d, a);
    WordMeaning(a, "feature_id");
    SizeMeaning(a, "length");
  }

  // ------------------------------------------------------- a step that stops

  ghost predicate Untargeted(d: Doc, a: Action)
  {
    forall i: nat :: !Targets(d, a, i)
  }

  /** The items of object i's action are added up to the n-th, which is faulty; the n shapes stay behind. */
  ghost predicate StopsDrawing(d: Doc, a: Action, i: nat, n: nat, stop: Stop)
  {
    && i < |d| && "geometry" in a.parameters && a.parameters["geometry"].Array?
    && var items := a.parameters["geometry"].items;
       && n < |items| && CanAddFirst(d[i].geometry, items, n) && !CanAdd(d[i].geometry, items, n)
       && FaultOf(d[i].geometry, items, n, stop)
       && LeftBehind(d, a) == d[i := d[i].(shapes := d[i].shapes + n)]
  }

  ghost predicate StopsConstraining(d: Doc, a: Action, i: nat, n: nat, stop: Stop)
  {
    && i < |d| && "constraints" in a.parameters && a.parameters["constraints"].Array?
    && var items := a.parameters["constraints"].items;
       && n < |items| && CanConstrainFirst(d[i].geometry, items, n) && !CanConstrain(d[i].geometry, items[n])
       && (stop == Refusal(GeometryNotFound) <==> Dangles(d[i].geometry, items[n]))
       && (stop == Exception <==> !Dangles(d[i].geometry, items[n]) && items[n].Object? && "type" in items[n].fields
                                  && (items[n].fields["type"].Array? || items[n].fields["type"].Object?))
       && (stop.Refusal? ==> stop.code in {GeometryNotFound, InvalidParameter})
       && LeftBehind(d, a) == d[i := d[i].(constraints := d[i].constraints + n)]
  }

  /** What stops a step, by kind, and what the step leaves behind. */
  ghost predicate Halts(d: Doc, a: Action, stop: Stop)
  {
    match a.kind
    case AddSketchGeometry =>
      || (Untargeted(d, a) && stop == Refusal(FeatureNotFound) && LeftBehind(d, a) == d)
      || exists i: nat :: Targets(d, a, i) && HaltsDrawing(d, a, i, stop)
    case AddConstraint =>
      || (Untargeted(d, a) && stop == Refusal(FeatureNotFound) && LeftBehind(d, a) == d)
      || exists i: nat :: Targets(d, a, i) && HaltsConstraining(d, a, i, stop)
    case SetParameter =>
      && LeftBehind(d, a) == d
      && (|| (Untargeted(d, a) && stop == Refusal(FeatureNotFound))
          || exists i: nat :: Targets(d, a, i) && HaltsTuning(d, a, i, stop))
    case AddBox | AddCylinder | CreateSketch => stop == Refusal(InvalidParameter) && LeftBehind(d, a) == d
    case Extrude =>
      LeftBehind(d, a) == d && stop == Refusal(if Untargeted(d, a) then FeatureNotFound else InvalidParameter)
    case BooleanCut =>
      && LeftBehind(d, a) == d
      && stop == Refusal(if Untargeted(d, a) || forall j: nat :: !CutsWith(d, a, j) then FeatureNotFound
                         else InvalidParameter)
    case DeleteFeature => Untargeted(d, a) && stop == Refusal(FeatureNotFound) && LeftBehind(d, a) == d
    case _ => stop == Refusal(UnsupportedAction) && LeftBehind(d, a) == d
  }

  ghost predicate HaltsDrawing(d: Doc, a: Action, i: nat, stop: Stop)
    requires i < |d|
  {
    if d[i].typeId != SketchType then stop == Refusal(InvalidTarget) && LeftBehind(d, a) == d
    else if "geometry" !in a.parameters || !a.parameters["geometry"].Array? then
      stop == Exception && LeftBehind(d, a) == d
    else exists n: nat :: StopsDrawing(d, a, i, n, stop)
  }

  ghost predicate HaltsConstraining(d: Doc, a: Action, i: nat, stop: Stop)
    requires i < |d|
  {
    if "constraints" !in a.parameters || !a.parameters["constraints"].Array? then
      stop == Exception && LeftBehind(d, a) == d
    else exists n: nat :: StopsConstraining(d, a, i, n, stop)
  }

  ghost predicate HaltsTuning(d: Doc, a: Action, i: nat, stop: Stop)
    requires i < |d|
  {
    if HasWord(a, "name") && !Tunable(d[i].typeId, a.parameters["name"].s) then stop == Refusal(ParameterNotFound)
    else stop == Refusal(InvalidParameter)
  }

  lemma DrawingHalts(d: Doc, a: Action, name: string, i: nat, stop: Stop)
    requires a.kind == AddSketchGeometry && FindTarget(d, a.targetId) == Some(i) && i < |d|
    requires Apply(d, a, name) == Stopped(stop)
    ensures HaltsDrawing(d, a, i, stop)
  {
    ItemActions(d, a, name);
    hide Apply, AddGeometry, AddedItems, CanAdd, FaultOf, FindTarget;
    var o, geometry := d[i], Get(a.parameters, "geometry");
    if o.typeId == SketchType && geometry.Array? {
      AddingMeaning(o.geometry, o.shapes, geometry.items);
      assert StopsDrawing(d, a, i, AddedItems(o.geometry, o.shapes, geometry.items), stop);
    }
  }

  lemma ConstrainingHalts(d: Doc, a: Action, name: string, i: nat, stop: Stop)
    requires a.kind == AddConstraint && FindTarget(d, a.targetId) == Some(i) && i < |d|
    requires Apply(d, a, name) == Stopped(stop)
    ensures HaltsConstraining(d, a, i, stop)
  {
    ItemActions(d, a, name);
    hide Apply, AddConstraints, AddedConstraints, CanConstrain, Dangles, AddOneConstraint, FindTarget;
    var o, constraints := d[i], Get(a.parameters, "constraints");
    if constraints.Array? {
      ConstrainingMeaning(o.geometry, constraints.items);
      var n := AddedConstraints(o.geometry, constraints.items);
      OneConstraint(o.geometry, constraints.items[n]);
      assert StopsConstraining(d, a, i, n, stop);
    }
  }

  lemma TuningHalts(d: Doc, a: Action, name: string, i: nat, stop: Stop)
    requires a.kind == SetParameter && FindTarget(d, a.targetId) == Some(i) && i < |d|
    requires Apply(d, a, name) == Stopped(stop)
    ensures HaltsTuning(d, a, i, stop)
  {
    WordMeaning(a, "name");
    hide HasText, HasWord, FindTarget;
  }

  /** Every step that does not complete stops for the reason of its kind, and leaves behind the shapes or
      constraints of the items before the faulty one, and nothing else. */
  lemma StopMeaning(d: Doc, a: Action, name: string, stop: Stop)
    requires Apply(d, a, name) == Stopped(stop)
    ensures Halts(d, a, stop)
  {
    if a.kind == AddSketchGeometry {
      DrawingStops(d, a, name, stop);
    } else if a.kind == AddConstraint {
      ConstrainingStops(d, a, name, stop);
    } else {
      OtherStops(d, a, name, stop);
    }
  }

  lemma DrawingStops(d: Doc, a: Action, name: string, stop: Stop)
    requires a.kind == AddSketchGeometry && Apply(d, a, name) == Stopped(stop)
    ensures Halts(d, a, stop)
  {
    hide Targets, HaltsDrawing, AddGeometry, AddedItems;
    TargetMeaning(d, a);
    var t := FindTarget(d, a.targetId);
    if t.Some? {
      DrawingHalts(d, a, name, t.value, stop);
    }
  }

  lemma ConstrainingStops(d: Doc, a: Action, name: string, stop: Stop)
    requires a.kind == AddConstraint && Apply(d, a, name) == Stopped(stop)
    ensures Halts(d, a, stop)
  {
    hide Targets, HaltsConstraining, AddConstraints, AddedConstraints;
    TargetMeaning(d, a);
    var t := FindTarget(d, a.targetId);
    if t.Some? {
      ConstrainingHalts(d, a, name, t.value, stop);
    }
  }

  lemma OtherStops(d: Doc, a: Action, name: string, stop: Stop)
    requires a.kind !in {AddSketchGeometry, AddConstraint} && Apply(d, a, name) == Stopped(stop)
    ensures Halts(d, a, stop)
  {
    hide Targets, HaltsTuning, HasText, HasPositive, Find, FindTarget, CutsWith;
    TargetMeaning(d, a);
    ToolMeaning(d, a);
    var t := FindTarget(d, a.targetId);
    if a.kind == SetParameter && t.Some? {
      TuningHalts(d, a, name, t.value, stop);
    }
  }
}
