/** The in-memory reference kernel: an optimistic-concurrency document store with
    dry runs, atomic application and conflict-checked rollback. */
module MemoryAdapter {
  import opened Contracts

  const ADAPTER_ID := "memory"

  // ----------------------------------------- documents as ordered dictionaries

  // A document's feature dictionary is its sequence of entries in insertion order, so a document
  // as a value is exactly what its snapshot shows.

  predicate Has(d: DocumentSnapshot, id: string)
  {
    exists i | 0 <= i < |d.features| :: d.features[i].featureId == id
  }

  /** The position of an id, or the length when it is absent. */
  function Position(features: seq<Feature>, id: string): (i: nat)
    ensures i <= |features|
    ensures i < |features| ==> features[i].featureId == id
    ensures forall j | 0 <= j < i :: features[j].featureId != id
  {
    if features == [] || features[0].featureId == id then 0 else 1 + Position(features[1..], id)
  }

  /** A feature the kernel can hold: a box or a cylinder, all of its dimensions positive. */
  ghost predicate Solid(f: Feature)
  {
    && (|| (f.featureType == "box" && f.parameters.Keys == {"width", "depth", "height"})
        || (f.featureType == "cylinder" && f.parameters.Keys == {"radius", "height"}))
    && forall name | name in f.parameters :: IsPositiveNumber(f.parameters[name])
  }

  /** No id occurs twice, and every feature is solid. */
  ghost predicate Tidy(d: DocumentSnapshot)
  {
    && (forall i, j | 0 <= i < j < |d.features| :: d.features[i].featureId != d.features[j].featureId)
    && (forall i | 0 <= i < |d.features| :: Solid(d.features[i]))
  }

  // ---------------------------------------------- what one action means

  predicate Supported(kind: ActionKind)
  {
    kind in {CreateDocument, AddBox, AddCylinder, SetParameter, DeleteFeature}
  }

  function Fail<T>(code: DiagnosticCode, action: Action): Result<T, Diagnostic>
  {
    Failure(Diagnostic(code, Some(action.actionId)))
  }

  function NewFeatureId(action: Action): Result<string, Diagnostic>
  {
    var value := Get(action.parameters, "feature_id");
    if IsNonBlankText(value) then Success(value.s) else Fail(InvalidParameter, action)
  }

  function PositiveParameters(action: Action, names: seq<string>): Result<map<string, Json>, Diagnostic>
  {
    if forall i | 0 <= i < |names| :: IsPositiveNumber(Get(action.parameters, names[i]))
    then Success(map name | name in names :: action.parameters[name])
    else Fail(InvalidParameter, action)
  }

  function AddFeature(d: DocumentSnapshot, featureType: string, names: seq<string>, action: Action)
    : Result<DocumentSnapshot, Diagnostic>
  {
    var id := NewFeatureId(action);
    if id.Failure? then Failure(id.error) else
    var values := PositiveParameters(action, names);
    if values.Failure? then Failure(values.error) else
    if Has(d, id.value) then Fail(DuplicateFeature, action)
    else Success(d.(features := d.features + [Feature(id.value, featureType, values.value)]))
  }

  /** The position of the action's target, when it has one that exists. */
  function Target(d: DocumentSnapshot, action: Action): (r: Option<nat>)
    ensures r.Some? ==> r.value < |d.features|
  {
    if action.targetId.None? || !Has(d, action.targetId.value) then None
    else Some(Position(d.features, action.targetId.value))
  }

  function SetParameterOf(d: DocumentSnapshot, action: Action): Result<DocumentSnapshot, Diagnostic>
  {
    var target := Target(d, action);
    if target.None? then Fail(FeatureNotFound, action) else
    var name, value := Get(action.parameters, "name"), Get(action.parameters, "value");
    var feature := d.features[target.value];
    if !name.Text? || name.s !in feature.parameters then Fail(ParameterNotFound, action)
    else if !IsPositiveNumber(value) then Fail(InvalidParameter, action)
    else Success(d.(features :=
      d.features[target.value := feature.(parameters := feature.parameters[name.s := value])]))
  }

  function DeleteFeatureOf(d: DocumentSnapshot, action: Action): Result<DocumentSnapshot, Diagnostic>
  {
    var target := Target(d, action);
    if target.None? then Fail(FeatureNotFound, action)
    else Success(d.(features := d.features[..target.value] + d.features[target.value + 1..]))
  }

  const BOX_PARAMETERS := ["width", "depth", "height"]
  const CYLINDER_PARAMETERS := ["radius", "height"]

  function ApplyAction(documentId: string, d: Option<DocumentSnapshot>, action: Action)
    : Result<DocumentSnapshot, Diagnostic>
  {
    if action.kind == CreateDocument then Success(DocumentSnapshot(documentId, 0, []))
    else if d.None? then Fail(DocumentNotFound, action)
    else match action.kind
      case AddBox => AddFeature(d.value, "box", BOX_PARAMETERS, action)
      case AddCylinder => AddFeature(d.value, "cylinder", CYLINDER_PARAMETERS, action)
      case SetParameter => SetParameterOf(d.value, action)
      case DeleteFeature => DeleteFeatureOf(d.value, action)
      case _ => Fail(UnsupportedAction, action)
  }

  /** The actions in order, stopping at the first that fails. */
  function ApplyActions(documentId: string, d: Option<DocumentSnapshot>, actions: seq<Action>)
    : (r: Result<Option<DocumentSnapshot>, Diagnostic>)
    ensures r.Success? && (d.Some? || actions != []) ==> r.value.Some?
    decreases |actions|
  {
    if actions == [] then Success(d) else
    var first := ApplyAction(documentId, d, actions[0]);
    if first.Failure? then Failure(first.error)
    else ApplyActions(documentId, Some(first.value), actions[1..])
  }

  // ------------------------------------------------ what validation means

  function Unsupported(actions: seq<Action>): seq<Diagnostic>
  {
    if actions == [] then []
    else (if Supported(actions[0].kind) then []
          else [Diagnostic(UnsupportedAction, Some(actions[0].actionId))]) + Unsupported(actions[1..])
  }

  function RevisionOf(d: Option<DocumentSnapshot>): nat
  {
    if d.Some? then d.value.revision else 0
  }

  function Diagnose(current: Option<DocumentSnapshot>, plan: ActionPlan): seq<Diagnostic>
  {
    var creates := OfKind(plan.actions, CreateDocument);
    Unsupported(plan.actions)
    + (if RevisionOf(current) != plan.baseRevision then [Diagnostic(StaleDocumentRevision, None)] else [])
    + (if current.None? then
         if |creates| != 1 || plan.actions[0].kind != CreateDocument
         then [Diagnostic(DocumentNotFound, None)] else []
       else if creates != [] then [Diagnostic(DocumentAlreadyExists, Some(creates[0].actionId))] else [])
  }

  lemma {:induction false} UnsupportedEmpty(actions: seq<Action>)
    ensures Unsupported(actions) == [] <==> forall a | a in actions :: Supported(a.kind)
  {
    if actions != [] {
      UnsupportedEmpty(actions[1..]);
      assert forall a :: a in actions <==> a == actions[0] || a in actions[1..];
    }
  }

  /** A plan is admitted exactly when every kind is supported, it was made against the current
      revision, and it creates the document if and only if the document is missing. */
  lemma DiagnoseMeaning(current: Option<DocumentSnapshot>, plan: ActionPlan)
    ensures Diagnose(current, plan) == []
       <==> && (forall a | a in plan.actions :: Supported(a.kind))
            && plan.baseRevision == RevisionOf(current)
            && (plan.actions[0].kind == CreateDocument <==> current.None?)
            && (forall a | a in plan.actions[1..] :: a.kind != CreateDocument)
  {
    UnsupportedEmpty(plan.actions);
    OfKindOnlyFirst(plan.actions, CreateDocument);
    OfKindEmpty(plan.actions, CreateDocument);
    assert forall a :: a in plan.actions <==> a == plan.actions[0] || a in plan.actions[1..];
  }

  lemma {:induction false} UnsupportedListed(actions: seq<Action>, x: Diagnostic)
    ensures x in Unsupported(actions) <==>
              x.code == UnsupportedAction
              && exists a :: a in actions && !Supported(a.kind) && x.actionId == Some(a.actionId)
  {
    if actions != [] {
      UnsupportedListed(actions[1..], x);
      assert forall a :: a in actions <==> a == actions[0] || a in actions[1..];
      if x in Unsupported(actions) && x !in Unsupported(actions[1..]) {
        assert actions[0] in actions;
      }
    }
  }

  lemma {:induction false} FirstOfKind(actions: seq<Action>, kind: ActionKind)
    ensures OfKind(actions, kind) != [] ==>
              exists i :: 0 <= i < |actions| && actions[i] == OfKind(actions, kind)[0] && IsFirstOf(actions, kind, i)
  {
    if actions != [] {
      if actions[0].kind == kind {
        assert IsFirstOf(actions, kind, 0);
      } else if OfKind(actions[1..], kind) != [] {
        FirstOfKind(actions[1..], kind);
        var i :| 0 <= i < |actions[1..]| && actions[1..][i] == OfKind(actions[1..], kind)[0]
                 && IsFirstOf(actions[1..], kind, i);
        forall j | 0 <= j < i + 1 ensures actions[j].kind != kind
        {
          assert j > 0 ==> actions[j] == actions[1..][j - 1];
        }
        assert IsFirstOf(actions, kind, i + 1);
      }
    }
  }

  ghost predicate IsFirstOf(actions: seq<Action>, kind: ActionKind, i: int)
  {
    0 <= i < |actions| && actions[i].kind == kind && forall j | 0 <= j < i :: actions[j].kind != kind
  }

  /** What each defect of a plan is reported as: every unsupported action with its own id, a base revision
      that is not the current one, a document that is missing and not created first and only once, and a
      creation of a document that exists, with the id of the first such action. Nothing else is. */
  lemma DiagnoseCodes(current: Option<DocumentSnapshot>, plan: ActionPlan, x: Diagnostic)
    ensures x in Diagnose(current, plan) <==>
      || (x.code == UnsupportedAction
          && exists a :: a in plan.actions && x.actionId == Some(a.actionId)
                         && a.kind !in {CreateDocument, AddBox, AddCylinder, SetParameter, DeleteFeature})
      || (x == Diagnostic(StaleDocumentRevision, None)
          && plan.baseRevision != (if current.Some? then current.value.revision else 0))
      || (x == Diagnostic(DocumentNotFound, None) && current.None?
          && !(plan.actions[0].kind == CreateDocument && forall a | a in plan.actions[1..] :: a.kind != CreateDocument))
      || (x.code == DocumentAlreadyExists && current.Some?
          && exists i :: IsFirstOf(plan.actions, CreateDocument, i) && x.actionId == Some(plan.actions[i].actionId))
  {
    UnsupportedListed(plan.actions, x);
    FirstOfKind(plan.actions, CreateDocument);
    OfKindOnlyFirst(plan.actions, CreateDocument);
    OfKindEmpty(plan.actions, CreateDocument);
    hide OfKind, Unsupported;
    if i :| IsFirstOf(plan.actions, CreateDocument, i) {
      assert plan.actions[i] in plan.actions;
    }
  }

  // ------------------------------------------------- lemmas about documents

  /** The feature an action is about. */
  function Subject(action: Action): string
  {
    if action.kind in {AddBox, AddCylinder} then
      var id := Get(action.parameters, "feature_id"); if id.Text? then id.s else ""
    else action.targetId.GetOr("")
  }

  /** The features listed under ids other than the given one, in order. */
  function Others(features: seq<Feature>, id: string): seq<Feature>
  {
    if features == [] then []
    else (if features[0].featureId == id then [] else [features[0]]) + Others(features[1..], id)
  }

  lemma {:induction false} OthersSplit(a: seq<Feature>, b: seq<Feature>, id: string)
    ensures Others(a + b, id) == Others(a, id) + Others(b, id)
  {
    if a == [] {
      assert a + b == b;
    } else {
      assert (a + b)[1..] == a[1..] + b;
      OthersSplit(a[1..], b, id);
    }
  }

  /** r differs from d at most in the feature with this id. */
  ghost predicate OnlyAbout(d: DocumentSnapshot, r: DocumentSnapshot, id: string)
  {
    r.documentId == d.documentId && r.revision == d.revision && Others(r.features, id) == Others(d.features, id)
  }

  lemma OthersAround(features: seq<Feature>, i: nat, id: string, middle: seq<Feature>)
    requires i < |features| && features[i].featureId == id
    requires middle == [] || (|middle| == 1 && middle[0].featureId == id)
    ensures Others(features[..i] + middle + features[i + 1..], id) == Others(features, id)
  {
    assert features == features[..i] + [features[i]] + features[i + 1..];
    OthersSplit(features[..i] + [features[i]], features[i + 1..], id);
    OthersSplit(features[..i], [features[i]], id);
    OthersSplit(features[..i] + middle, features[i + 1..], id);
    OthersSplit(features[..i], middle, id);
  }

  lemma AddFeatureTouches(d: DocumentSnapshot, featureType: string, names: seq<string>, action: Action)
    requires AddFeature(d, featureType, names, action).Success?
    ensures var r, id := AddFeature(d, featureType, names, action).value, NewFeatureId(action).value;
      OnlyAbout(d, r, id) && !Has(d, id) && Has(r, id) && |r.features| == |d.features| + 1
  {
    var r, id := AddFeature(d, featureType, names, action).value, NewFeatureId(action).value;
    assert r.features[|d.features|].featureId == id;
    OthersSplit(d.features, [r.features[|d.features|]], id);
  }

  lemma SetParameterTouches(d: DocumentSnapshot, action: Action)
    requires SetParameterOf(d, action).Success?
    ensures var r, id := SetParameterOf(d, action).value, action.targetId.value;
      OnlyAbout(d, r, id) && Has(d, id) && Has(r, id) && |r.features| == |d.features|
  {
    var r, id, i := SetParameterOf(d, action).value, action.targetId.value, Target(d, action).value;
    assert r.features == d.features[..i] + [r.features[i]] + d.features[i + 1..];
    OthersAround(d.features, i, id, [r.features[i]]);
    assert r.features[i].featureId == id;
  }

  lemma DeleteFeatureTouches(d: DocumentSnapshot, action: Action)
    requires Tidy(d) && DeleteFeatureOf(d, action).Success?
    ensures var r, id := DeleteFeatureOf(d, action).value, action.targetId.value;
      OnlyAbout(d, r, id) && Has(d, id) && !Has(r, id) && |r.features| == |d.features| - 1
  {
    var r, id, i := DeleteFeatureOf(d, action).value, action.targetId.value, Target(d, action).value;
    assert r.features == d.features[..i] + [] + d.features[i + 1..];
    OthersAround(d.features, i, id, []);
  }

  /** An action that succeeds on a document leaves identity, revision and all features but the one
      it is about exactly as they were, in the same order; an addition makes its feature, a deletion
      removes it, an edit keeps it. */
  lemma ActionTouchesOnlyItsSubject(d: DocumentSnapshot, action: Action)
    requires Tidy(d) && action.kind != CreateDocument
    requires ApplyAction(d.documentId, Some(d), action).Success?
    ensures var r, id := ApplyAction(d.documentId, Some(d), action).value, Subject(action);
      && OnlyAbout(d, r, id)
      && (Has(d, id) <==> action.kind !in {AddBox, AddCylinder})
      && (Has(r, id) <==> action.kind != DeleteFeature)
      && |r.features| == |d.features| + (if action.kind == DeleteFeature then -1
                                         else if action.kind == SetParameter then 0 else 1)
  {
    match action.kind
    case AddBox => AddFeatureTouches(d, "box", BOX_PARAMETERS, action);
    case AddCylinder => AddFeatureTouches(d, "cylinder", CYLINDER_PARAMETERS, action);
    case SetParameter => SetParameterTouches(d, action);
    case DeleteFeature => DeleteFeatureTouches(d, action);
    case _ =>
  }

  /** An addition appends one feature of its kind that carries exactly the action's dimensions; an edit
      gives one parameter of its target the action's value. */
  lemma ActionSetsItsSubject(d: DocumentSnapshot, action: Action)
    requires action.kind in {AddBox, AddCylinder, SetParameter}
    requires ApplyAction(d.documentId, Some(d), action).Success?
    ensures var r, id := ApplyAction(d.documentId, Some(d), action).value, Subject(action);
      if action.kind == SetParameter then
        exists i | 0 <= i < |d.features| ::
          && d.features[i].featureId == id && |r.features| == |d.features|
          && r.features[i] == d.features[i].(parameters :=
               d.features[i].parameters[Get(action.parameters, "name").s := Get(action.parameters, "value")])
      else
        && |r.features| == |d.features| + 1 && r.features[|d.features|].featureId == id
        && r.features[|d.features|].featureType == (if action.kind == AddBox then "box" else "cylinder")
        && r.features[|d.features|].parameters.Keys == Dimensions(action.kind)
        && forall name | name in Dimensions(action.kind) ::
             r.features[|d.features|].parameters[name] == action.parameters[name]
  {
    if action.kind == SetParameter {
      var i := Target(d, action).value;
      assert d.features[i].featureId == Subject(action);
    }
  }

  function Dimensions(kind: ActionKind): set<string>
  {
    if kind == AddBox then {"width", "depth", "height"} else {"radius", "height"}
  }

  /** The feature an edit finds under its target id, the first when there are several, has the named
      parameter. */
  predicate HasNamedParameter(d: DocumentSnapshot, action: Action)
  {
    var name := Get(action.parameters, "name");
    action.targetId.Some? && name.Text?
    && exists i :: 0 <= i < |d.features| && d.features[i].featureId == action.targetId.value
                   && name.s in d.features[i].parameters
                   && forall j | 0 <= j < i :: d.features[j].featureId != action.targetId.value
  }

  /** Why an action is refused: the first check that fails, in the order the kernel makes them; and it is
      applied exactly when none fails. */
  lemma RefusalMeaning(d: DocumentSnapshot, action: Action)
    ensures var result := ApplyAction(d.documentId, Some(d), action);
      var adds := action.kind in {AddBox, AddCylinder};
      var edits := action.kind in {SetParameter, DeleteFeature};
      var wellFormed := IsNonBlankText(Get(action.parameters, "feature_id"))
        && forall name | name in Dimensions(action.kind) :: IsPositiveNumber(Get(action.parameters, name));
      var known := action.targetId.Some? && Has(d, action.targetId.value);
      var named := HasNamedParameter(d, action);
      var positive := IsPositiveNumber(Get(action.parameters, "value"));
      var codes := {UnsupportedAction, FeatureNotFound, DuplicateFeature, ParameterNotFound, InvalidParameter};
      && (result.Failure? ==> result.error.actionId == Some(action.actionId))
      && (result.Failure? && result.error.code == UnsupportedAction <==> !Supported(action.kind))
      && (result.Failure? && result.error.code == FeatureNotFound <==> edits && !known)
      && (result.Failure? && result.error.code == DuplicateFeature <==> adds && wellFormed && Has(d, Subject(action)))
      && (result.Failure? && result.error.code == ParameterNotFound <==>
            action.kind == SetParameter && known && !named)
      && (result.Failure? && result.error.code == InvalidParameter <==>
            (adds && !wellFormed) || (action.kind == SetParameter && known && named && !positive))
      && (result.Failure? ==> result.error.code in codes)
  {
    if action.kind == AddBox {
      DimensionsPositive(action, BOX_PARAMETERS);
    } else if action.kind == AddCylinder {
      DimensionsPositive(action, CYLINDER_PARAMETERS);
    } else if action.kind == SetParameter {
      NamedOnTarget(d, action);
    }
  }

  /** A creation makes an empty document at revision 0; without a document every other action is refused. */
  lemma CreationMeaning(documentId: string, d: Option<DocumentSnapshot>, action: Action)
    ensures action.kind == CreateDocument ==>
              ApplyAction(documentId, d, action) == Success(DocumentSnapshot(documentId, 0, []))
    ensures action.kind != CreateDocument && d.None? ==>
              ApplyAction(documentId, d, action) == Failure(Diagnostic(DocumentNotFound, Some(action.actionId)))
  {
  }

  lemma NamedOnTarget(d: DocumentSnapshot, action: Action)
    ensures var name := Get(action.parameters, "name"); var target := Target(d, action);
      HasNamedParameter(d, action) <==> target.Some? && name.Text? && name.s in d.features[target.value].parameters
  {
    if action.targetId.Some? {
      var at := Position(d.features, action.targetId.value);
      assert Has(d, action.targetId.value) <==> at < |d.features|;
    }
  }

  lemma DimensionsPositive(action: Action, names: seq<string>)
    requires names == if action.kind == AddBox then BOX_PARAMETERS else CYLINDER_PARAMETERS
    ensures PositiveParameters(action, names).Success?
       <==> forall name | name in Dimensions(action.kind) :: IsPositiveNumber(Get(action.parameters, name))
  {
    assert forall name :: name in Dimensions(action.kind) <==> name in names;
  }

  lemma AddFeatureTidy(d: DocumentSnapshot, featureType: string, names: seq<string>, action: Action)
    requires Tidy(d)
    requires (featureType, names) in {("box", BOX_PARAMETERS), ("cylinder", CYLINDER_PARAMETERS)}
    ensures var r := AddFeature(d, featureType, names, action); r.Success? ==> Tidy(r.value)
  {
    var r := AddFeature(d, featureType, names, action);
    if r.Success? {
      var f := r.value.features[|d.features|];
      forall name | name in f.parameters ensures IsPositiveNumber(f.parameters[name])
      {
        var i :| 0 <= i < |names| && names[i] == name;
        assert IsPositiveNumber(Get(action.parameters, names[i]));
      }
      assert Solid(f);
    }
  }

  lemma SetParameterTidy(d: DocumentSnapshot, action: Action)
    requires Tidy(d)
    ensures var r := SetParameterOf(d, action); r.Success? ==> Tidy(r.value)
  {
    var r := SetParameterOf(d, action);
    if r.Success? {
      var i := Target(d, action).value;
      assert r.value.features[i].parameters.Keys == d.features[i].parameters.Keys;
      assert Solid(d.features[i]) && Solid(r.value.features[i]);
    }
  }

  lemma ApplyActionTidy(documentId: string, d: Option<DocumentSnapshot>, action: Action)
    requires d.Some? ==> Tidy(d.value) && d.value.documentId == documentId
    ensures var r := ApplyAction(documentId, d, action);
      r.Success? ==> Tidy(r.value) && r.value.documentId == documentId
  {
    hide AddFeature, SetParameterOf, DeleteFeatureOf, Solid;
    if d.Some? {
      AddFeatureTidy(d.value, "box", BOX_PARAMETERS, action);
      AddFeatureTidy(d.value, "cylinder", CYLINDER_PARAMETERS, action);
      SetParameterTidy(d.value, action);
      DeleteFeatureTidy(d.value, action);
      EditsKeepIdentity(d.value, action);
      hide Tidy;
    } else {
      assert forall id :: Tidy(DocumentSnapshot(id, 0, []));
    }
  }

  lemma DeleteFeatureTidy(d: DocumentSnapshot, action: Action)
    requires Tidy(d)
    ensures var r := DeleteFeatureOf(d, action); r.Success? ==> Tidy(r.value)
  {
  }

  lemma EditsKeepIdentity(d: DocumentSnapshot, action: Action)
    ensures var r := SetParameterOf(d, action); r.Success? ==> r.value.documentId == d.documentId
    ensures var r := DeleteFeatureOf(d, action); r.Success? ==> r.value.documentId == d.documentId
    ensures forall featureType, names :: var r := AddFeature(d, featureType, names, action);
              r.Success? ==> r.value.documentId == d.documentId
  {
  }

  lemma {:induction false} ApplyActionsTidy(documentId: string, d: Option<DocumentSnapshot>, actions: seq<Action>)
    requires d.Some? ==> Tidy(d.value) && d.value.documentId == documentId
    ensures var r := ApplyActions(documentId, d, actions);
      r.Success? && r.value.Some? ==> Tidy(r.value.value) && r.value.value.documentId == documentId
    decreases |actions|
  {
    if actions != [] {
      ApplyActionTidy(documentId, d, actions[0]);
      var first := ApplyAction(documentId, d, actions[0]);
      if first.Success? {
        ApplyActionsTidy(documentId, Some(first.value), actions[1..]);
      }
    }
  }

  // ------------------------------------------------------- the whole store

  datatype UndoRecord = UndoRecord(
    documentId: string, expectedRevision: nat, before: Option<DocumentSnapshot>, originalReceipt: ExecutionReceipt)

  datatype Store = Store(documents: map<string, DocumentSnapshot>, undo: map<string, UndoRecord>)

  const EMPTY := Store(map[], map[])

  function Lookup(s: Store, documentId: string): Option<DocumentSnapshot>
  {
    if documentId in s.documents then Some(s.documents[documentId]) else None
  }

  function Receipt(receiptId: string, planId: string, status: ExecutionStatus, diagnostics: seq<Diagnostic>,
                   before: Option<DocumentSnapshot>, after: Option<DocumentSnapshot>): ExecutionReceipt
  {
    ExecutionReceipt(receiptId, planId, ADAPTER_ID, status, diagnostics, before, after)
  }

  /** What a plan would produce: the document at its next revision, or the reasons it is refused. */
  function Outcome(current: Option<DocumentSnapshot>, plan: ActionPlan): Result<DocumentSnapshot, seq<Diagnostic>>
  {
    if Diagnose(current, plan) != [] then Failure(Diagnose(current, plan)) else
    var applied := ApplyActions(plan.documentId, current, plan.actions);
    if applied.Failure? then Failure([applied.error])
    else Success(applied.value.value.(revision := plan.baseRevision + 1))
  }

  /** Every feature can be listed in a snapshot: its id is an identifier of at most 128 characters. */
  predicate Listable(d: DocumentSnapshot)
  {
    forall f | f in d.features :: IsIdentifier(f.featureId)
  }

  /** The plan is admitted and builds a document of which no snapshot can be taken. */
  predicate SnapshotRaises(s: Store, plan: ActionPlan)
  {
    var outcome := Outcome(Lookup(s, plan.documentId), plan);
    outcome.Success? && !Listable(outcome.value)
  }

  /** The store and the receipt of a call; None when the call raises, which is before it writes. */
  function ExecuteOn(s: Store, plan: ActionPlan, dryRun: bool, receiptId: string): (Store, Option<ExecutionReceipt>)
  {
    var before := Lookup(s, plan.documentId);
    var outcome := Outcome(before, plan);
    if outcome.Failure? then (s, Some(Receipt(receiptId, plan.planId, Refused, outcome.error, before, before)))
    else if SnapshotRaises(s, plan) then (s, None)
    else
      var status := if dryRun then DryRun else Applied;
      var receipt := Receipt(receiptId, plan.planId, status, [], before, Some(outcome.value));
      if dryRun then (s, Some(receipt))
      else (Store(s.documents[plan.documentId := outcome.value],
                  s.undo[receiptId := UndoRecord(plan.documentId, outcome.value.revision, before, receipt)]),
            Some(receipt))
  }

  /** The store once the saved document of an undo record is back and the record is dropped. */
  function Restored(s: Store, receiptId: string): Store
    requires receiptId in s.undo
  {
    var record := s.undo[receiptId];
    Store(if record.before.None? then s.documents - {record.documentId}
          else s.documents[record.documentId := record.before.value],
          s.undo - {receiptId})
  }

  function RollbackOn(s: Store, receiptId: string, newReceiptId: string): (Store, ExecutionReceipt)
  {
    if receiptId !in s.undo
    then (s, Receipt(newReceiptId, receiptId, Refused, [Diagnostic(RollbackNotFound, None)], None, None))
    else
      var record := s.undo[receiptId];
      var current := Lookup(s, record.documentId);
      if current.None? || current.value.revision != record.expectedRevision
      then (s, Receipt(newReceiptId, receiptId, Refused, [Diagnostic(RollbackConflict, None)], None, None))
      else
        (Restored(s, receiptId),
         Receipt(newReceiptId, record.originalReceipt.planId, RolledBack, [], current, record.before))
  }

  // -------------------------------------------------------- calls that raise

  /** An addition under an id that no snapshot can list. */
  predicate AddsUnlistable(a: Action)
  {
    a.kind in {AddBox, AddCylinder}
    && var id := Get(a.parameters, "feature_id"); id.Text? && !IsIdentifier(id.s)
  }

  predicate TargetsIdentifier(a: Action)
  {
    a.targetId.Some? ==> IsIdentifier(a.targetId.value)
  }

  lemma AddFeatureListable(d: DocumentSnapshot, featureType: string, names: seq<string>, a: Action)
    requires a.kind in {AddBox, AddCylinder} && AddFeature(d, featureType, names, a).Success?
    ensures Listable(AddFeature(d, featureType, names, a).value) <==> Listable(d) && !AddsUnlistable(a)
  {
    var r := AddFeature(d, featureType, names, a).value;
    assert r.features[|d.features|] in r.features;
    assert forall f | f in d.features :: f in r.features;
  }

  lemma SetParameterListable(d: DocumentSnapshot, a: Action)
    requires SetParameterOf(d, a).Success?
    ensures Listable(SetParameterOf(d, a).value) <==> Listable(d)
  {
    var r := SetParameterOf(d, a).value;
    assert forall i | 0 <= i < |d.features| :: r.features[i].featureId == d.features[i].featureId;
    assert forall i | 0 <= i < |d.features| :: r.features[i] in r.features && d.features[i] in d.features;
  }

  lemma DeleteFeatureListable(d: DocumentSnapshot, a: Action)
    requires DeleteFeatureOf(d, a).Success? && TargetsIdentifier(a)
    ensures Listable(DeleteFeatureOf(d, a).value) <==> Listable(d)
  {
    var r, i := DeleteFeatureOf(d, a).value, Target(d, a).value;
    assert d.features == d.features[..i] + [d.features[i]] + d.features[i + 1..];
    assert forall f :: f in d.features <==> f in r.features || f == d.features[i];
  }

  lemma ActionListable(d: DocumentSnapshot, a: Action)
    requires a.kind != CreateDocument && TargetsIdentifier(a)
    requires ApplyAction(d.documentId, Some(d), a).Success?
    ensures Listable(ApplyAction(d.documentId, Some(d), a).value) <==> Listable(d) && !AddsUnlistable(a)
  {
    hide Listable, AddFeature, SetParameterOf, DeleteFeatureOf;
    match a.kind
    case AddBox => AddFeatureListable(d, "box", BOX_PARAMETERS, a);
    case AddCylinder => AddFeatureListable(d, "cylinder", CYLINDER_PARAMETERS, a);
    case SetParameter => SetParameterListable(d, a);
    case DeleteFeature => DeleteFeatureListable(d, a);
    case _ =>
  }

  lemma ActionKeepsDocumentId(documentId: string, d: Option<DocumentSnapshot>, a: Action)
    requires d.Some? ==> d.value.documentId == documentId
    ensures var r := ApplyAction(documentId, d, a); r.Success? ==> r.value.documentId == documentId
  {
  }

  lemma {:induction false} ActionsListable(d: DocumentSnapshot, actions: seq<Action>)
    requires forall a | a in actions :: a.kind != CreateDocument && TargetsIdentifier(a)
    requires ApplyActions(d.documentId, Some(d), actions).Success?
    ensures Listable(ApplyActions(d.documentId, Some(d), actions).value.value)
            <==> Listable(d) && forall a | a in actions :: !AddsUnlistable(a)
    decreases |actions|
  {
    hide Listable, ApplyAction, AddsUnlistable, TargetsIdentifier;
    if actions != [] {
      var first := ApplyAction(d.documentId, Some(d), actions[0]).value;
      ActionListable(d, actions[0]);
      ActionKeepsDocumentId(d.documentId, Some(d), actions[0]);
      assert forall a :: a in actions <==> a == actions[0] || a in actions[1..];
      ActionsListable(first, actions[1..]);
    }
  }

  /** A call raises exactly when its plan would otherwise be accepted and one of its additions names an
      id that is blank or longer than 128 characters: no later action of a plan can take it away again. */
  lemma RaisesIffUnlistableAddition(s: Store, plan: ActionPlan)
    requires Lookup(s, plan.documentId).Some? ==>
               Listable(Lookup(s, plan.documentId).value)
               && Lookup(s, plan.documentId).value.documentId == plan.documentId
    ensures SnapshotRaises(s, plan) <==>
              Outcome(Lookup(s, plan.documentId), plan).Success? && exists a :: a in plan.actions && AddsUnlistable(a)
  {
    var current := Lookup(s, plan.documentId);
    DiagnoseMeaning(current, plan);
    assert forall a :: a in plan.actions <==> a == plan.actions[0] || a in plan.actions[1..];
    assert forall a | a in plan.actions :: TargetsIdentifier(a);
    if Outcome(current, plan).Success? {
      var built := ApplyActions(plan.documentId, current, plan.actions).value.value;
      RevisionDoesNotMatter(built, plan.baseRevision + 1);
      hide Diagnose, Listable, AddsUnlistable, TargetsIdentifier;
      if current.Some? {
        ActionsListable(current.value, plan.actions);
      } else {
        NothingIsListable(plan.documentId);
        FirstCreates(plan.documentId, plan.actions);
        ActionsListable(DocumentSnapshot(plan.documentId, 0, []), plan.actions[1..]);
        CreationAddsNothing(plan.actions[0]);
      }
    }
  }

  lemma CreationAddsNothing(a: Action)
    requires a.kind == CreateDocument
    ensures !AddsUnlistable(a)
  {
  }

  lemma FirstCreates(documentId: string, actions: seq<Action>)
    requires actions != [] && actions[0].kind == CreateDocument
    ensures ApplyActions(documentId, None, actions)
         == ApplyActions(documentId, Some(DocumentSnapshot(documentId, 0, [])), actions[1..])
  {
  }

  lemma NothingIsListable(documentId: string)
    ensures Listable(DocumentSnapshot(documentId, 0, []))
  {
  }

  lemma RevisionDoesNotMatter(d: DocumentSnapshot, revision: nat)
    ensures Listable(d.(revision := revision)) <==> Listable(d)
  {
  }

  lemma {:induction false} ActionsKeepDocumentId(documentId: string, d: Option<DocumentSnapshot>, actions: seq<Action>)
    requires d.Some? ==> d.value.documentId == documentId
    ensures var r := ApplyActions(documentId, d, actions);
      r.Success? && r.value.Some? ==> r.value.value.documentId == documentId
    decreases |actions|
  {
    hide ApplyAction;
    if actions != [] {
      ActionKeepsDocumentId(documentId, d, actions[0]);
      var first := ApplyAction(documentId, d, actions[0]);
      if first.Success? {
        ActionsKeepDocumentId(documentId, Some(first.value), actions[1..]);
      }
    }
  }

  // ----------------------------------------------------- what a call does

  /** Action k makes document k + 1 of document k. */
  ghost predicate IsMade(documentId: string, docs: seq<Option<DocumentSnapshot>>, actions: seq<Action>, k: nat)
  {
    && k < |actions| && k + 1 < |docs| && docs[k + 1].Some?
    && ApplyAction(documentId, docs[k], actions[k]) == Success(docs[k + 1].value)
  }

  /** Each document is what the action before it makes of the previous one. */
  ghost predicate IsBuild(documentId: string, docs: seq<Option<DocumentSnapshot>>, actions: seq<Action>)
  {
    && 0 < |docs| <= |actions| + 1
    && forall k: nat | k < |docs| - 1 :: IsMade(documentId, docs, actions, k)
  }

  /** The actions are applied in order, up to the first that fails. */
  lemma {:induction false} ActionsBuild(documentId: string, d: Option<DocumentSnapshot>, actions: seq<Action>)
    returns (docs: seq<Option<DocumentSnapshot>>)
    ensures IsBuild(documentId, docs, actions) && docs[0] == d
    ensures var r := ApplyActions(documentId, d, actions);
      if r.Success? then |docs| == |actions| + 1 && r.value == docs[|actions|]
      else |docs| <= |actions|
           && ApplyAction(documentId, docs[|docs| - 1], actions[|docs| - 1]) == Failure(r.error)
    decreases |actions|
  {
    hide ApplyAction;
    docs := [d];
    if actions != [] && ApplyAction(documentId, d, actions[0]).Success? {
      var rest := ActionsBuild(documentId, Some(ApplyAction(documentId, d, actions[0]).value), actions[1..]);
      docs := [d] + rest;
      forall k: nat | k < |docs| - 1 ensures IsMade(documentId, docs, actions, k)
      {
        assert k > 0 ==> IsMade(documentId, rest, actions[1..], k - 1);
      }
    }
  }

  /** The document shows a feature under an id that is blank or longer than 128 characters. */
  ghost predicate ShowsUnlistable(d: DocumentSnapshot)
  {
    exists i :: 0 <= i < |d.features|
                && (|d.features[i].featureId| > 128 || forall c | c in d.features[i].featureId :: IsSpace(c))
  }

  lemma ListableMeaning(d: DocumentSnapshot)
    ensures Listable(d) <==> !ShowsUnlistable(d)
  {
    if !Listable(d) {
      var f :| f in d.features && !IsIdentifier(f.featureId);
      var i :| 0 <= i < |d.features| && d.features[i] == f;
      assert |d.features[i].featureId| > 128 || forall c | c in d.features[i].featureId :: IsSpace(c);
    }
    if ShowsUnlistable(d) {
      var i :| 0 <= i < |d.features|
               && (|d.features[i].featureId| > 128 || forall c | c in d.features[i].featureId :: IsSpace(c));
      assert d.features[i] in d.features && !IsIdentifier(d.features[i].featureId);
    }
  }

  /** The reasons a plan is refused: what validation reports, or else the first action that fails. */
  ghost predicate RefusedFor(current: Option<DocumentSnapshot>, plan: ActionPlan, docs: seq<Option<DocumentSnapshot>>,
                             reasons: seq<Diagnostic>)
    requires 0 < |docs| <= |plan.actions| + 1
  {
    if Diagnose(current, plan) != [] then reasons == Diagnose(current, plan)
    else && |docs| <= |plan.actions| && |reasons| == 1
         && ApplyAction(plan.documentId, docs[|docs| - 1], plan.actions[|docs| - 1]) == Failure(reasons[0])
  }

  /** What a call to execute does, on any store. The receipt carries the call's own ids and the document as it
      was. A refused plan writes nothing, shows the same document twice and says why. An accepted one shows the
      document that its actions build one by one, at the revision after the plan's; it is stored, with an undo
      record, unless the call is a dry run; and the call raises exactly when that document cannot be listed. */
  lemma ExecutionMeaning(s: Store, plan: ActionPlan, dryRun: bool, receiptId: string)
    returns (docs: seq<Option<DocumentSnapshot>>)
    ensures var current := if plan.documentId in s.documents then Some(s.documents[plan.documentId]) else None;
      IsBuild(plan.documentId, docs, plan.actions) && docs[0] == current
      && IsExecution(s, plan, dryRun, receiptId, current, docs, ExecuteOn(s, plan, dryRun, receiptId).0,
                     ExecuteOn(s, plan, dryRun, receiptId).1)
  {
    var current := Lookup(s, plan.documentId);
    docs := ActionsBuild(plan.documentId, current, plan.actions);
    var outcome := Outcome(current, plan);
    if outcome.Success? {
      ListableMeaning(outcome.value);
    }
    hide Diagnose, ApplyActions, ApplyAction, Listable, ShowsUnlistable, IsBuild;
  }

  ghost predicate IsExecution(
    s: Store, plan: ActionPlan, dryRun: bool, receiptId: string, current: Option<DocumentSnapshot>,
    docs: seq<Option<DocumentSnapshot>>, s': Store, receipt: Option<ExecutionReceipt>)
    requires 0 < |docs| <= |plan.actions| + 1
  {
    var refused := Diagnose(current, plan) != [] || |docs| <= |plan.actions|;
    if refused then
      && s' == s && receipt.Some? && RefusedFor(current, plan, docs, receipt.value.diagnostics)
      && receipt.value == ExecutionReceipt(receiptId, plan.planId, "memory", Refused, receipt.value.diagnostics,
                                           current, current)
    else
      && docs[|plan.actions|].Some?
      && var built := docs[|plan.actions|].value.(revision := plan.baseRevision + 1);
         if ShowsUnlistable(built) then s' == s && receipt.None?
         else
           && receipt == Some(ExecutionReceipt(receiptId, plan.planId, "memory", if dryRun then DryRun else Applied, [],
                                               current, Some(built)))
           && (dryRun ==> s' == s)
           && (!dryRun ==>
                 && s'.documents == s.documents[plan.documentId := built]
                 && s'.undo == s.undo[receiptId := UndoRecord(plan.documentId, plan.baseRevision + 1, current,
                                                              receipt.value)])
  }
}
