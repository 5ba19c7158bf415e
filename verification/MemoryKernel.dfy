/** The kernel as it runs: documents are objects edited in place, the adapter's two tables are
    reassigned, and every method is tied to the value-level meaning in MemoryAdapter. */
module MemoryKernel {
  import opened Contracts
  import opened MemoryAdapter
  import opened MemoryHistory

  class Document {
    const documentId: string
    var revision: nat
    var features: seq<Feature>

    ghost function State(): DocumentSnapshot
      reads this
    {
      DocumentSnapshot(documentId, revision, features)
    }

    constructor (documentId: string)
      ensures State() == DocumentSnapshot(documentId, 0, [])
    {
      this.documentId := documentId;
      revision, features := 0, [];
    }

    /** `copy.deepcopy`: an equal document that shares nothing with its source. */
    constructor CopyOf(source: Document)
      ensures State() == source.State()
    {
      documentId := source.documentId;
      revision, features := source.revision, source.features;
    }

    /** None when a feature's id is not one that a snapshot accepts. */
    method TakeSnapshot() returns (snapshot: Option<DocumentSnapshot>)
      ensures snapshot == if Listable(State()) then Some(State()) else None
    {
      var listed: seq<Feature> := [];
      for i := 0 to |features|
        invariant listed == features[..i]
        invariant forall k | 0 <= k < i :: IsIdentifier(features[k].featureId)
      {
        if !IsIdentifier(features[i].featureId) {
          assert features[i] in State().features;
          return None;
        }
        listed := listed + [Feature(features[i].featureId, features[i].featureType, features[i].parameters)];
      }
      assert listed == features;
      snapshot := Some(DocumentSnapshot(documentId, revision, listed));
    }
  }

  ghost function StateOf(d: Document?): Option<DocumentSnapshot>
    reads d
  {
    if d == null then None else Some(d.State())
  }

  /** Check the named dimensions one by one, stopping at the first that is not a positive number. */
  method CheckPositive(action: Action, names: seq<string>) returns (r: Result<map<string, Json>, Diagnostic>)
    ensures r == PositiveParameters(action, names)
  {
    var values: map<string, Json> := map[];
    for i := 0 to |names|
      invariant forall k | 0 <= k < i :: IsPositiveNumber(Get(action.parameters, names[k]))
      invariant values == map name | name in names[..i] :: action.parameters[name]
    {
      var value := Get(action.parameters, names[i]);
      if !IsPositiveNumber(value) {
        return Fail(InvalidParameter, action);
      }
      values := values[names[i] := value];
      assert names[..i + 1] == names[..i] + [names[i]];
    }
    assert names[..|names|] == names;
    r := Success(values);
  }

  method AddFeatureTo(document: Document, featureType: string, names: seq<string>, action: Action)
    returns (failure: Option<Diagnostic>)
    modifies document
    ensures AddFeature(old(document.State()), featureType, names, action)
         == if failure.Some? then Failure(failure.value) else Success(document.State())
  {
    var id := NewFeatureId(action);
    if id.Failure? {
      return Some(id.error);
    }
    var values := CheckPositive(action, names);
    if values.Failure? {
      return Some(values.error);
    }
    if Has(DocumentSnapshot(document.documentId, document.revision, document.features), id.value) {
      return Some(Diagnostic(DuplicateFeature, Some(action.actionId)));
    }
    document.features := document.features + [Feature(id.value, featureType, values.value)];
    failure := None;
  }

  /** Look the target up in the feature dictionary. */
  method Find(document: Document, action: Action) returns (target: Option<nat>)
    ensures target == Target(document.State(), action)
  {
    if action.targetId.None? {
      return None;
    }
    var i := Position(document.features, action.targetId.value);
    target := if i < |document.features| then Some(i) else None;
  }

  method DeleteFrom(document: Document, action: Action) returns (failure: Option<Diagnostic>)
    modifies document
    ensures DeleteFeatureOf(old(document.State()), action)
         == if failure.Some? then Failure(failure.value) else Success(document.State())
  {
    var target := Find(document, action);
    if target.None? {
      return Some(Diagnostic(FeatureNotFound, Some(action.actionId)));
    }
    document.features := document.features[..target.value] + document.features[target.value + 1..];
    failure := None;
  }

  method SetParameterIn(document: Document, action: Action) returns (failure: Option<Diagnostic>)
    modifies document
    ensures SetParameterOf(old(document.State()), action)
         == if failure.Some? then Failure(failure.value) else Success(document.State())
  {
    var target := Find(document, action);
    if target.None? {
      return Some(Diagnostic(FeatureNotFound, Some(action.actionId)));
    }
    var name, value := Get(action.parameters, "name"), Get(action.parameters, "value");
    var feature := document.features[target.value];
    if !name.Text? || name.s !in feature.parameters {
      return Some(Diagnostic(ParameterNotFound, Some(action.actionId)));
    }
    if !IsPositiveNumber(value) {
      return Some(Diagnostic(InvalidParameter, Some(action.actionId)));
    }
    document.features :=
      document.features[target.value := feature.(parameters := feature.parameters[name.s := value])];
    failure := None;
  }

  /** Edit the candidate in place; only creation makes a new object. */
  method ApplyTo(documentId: string, document: Document?, action: Action)
    returns (result: Document?, failure: Option<Diagnostic>)
    modifies document
    ensures failure.None? ==> result != null && (result == document || fresh(result))
    ensures failure.None? ==> ApplyAction(documentId, old(StateOf(document)), action) == Success(result.State())
    ensures failure.Some? ==> ApplyAction(documentId, old(StateOf(document)), action) == Failure(failure.value)
  {
    result, failure := document, None;
    if action.kind == CreateDocument {
      result := new Document(documentId);
      return;
    }
    if document == null {
      failure := Some(Diagnostic(DocumentNotFound, Some(action.actionId)));
    } else if action.kind == AddBox {
      failure := AddFeatureTo(document, "box", BOX_PARAMETERS, action);
    } else if action.kind == AddCylinder {
      failure := AddFeatureTo(document, "cylinder", CYLINDER_PARAMETERS, action);
    } else if action.kind == SetParameter {
      failure := SetParameterIn(document, action);
    } else if action.kind == DeleteFeature {
      failure := DeleteFrom(document, action);
    } else {
      failure := Some(Diagnostic(UnsupportedAction, Some(action.actionId)));
    }
  }

  datatype UndoEntry = UndoEntry(
    documentId: string, expectedRevision: nat, before: Document?, originalReceipt: ExecutionReceipt)

  ghost predicate EntryIs(entry: UndoEntry, record: UndoRecord)
    reads entry.before
  {
    record == UndoRecord(entry.documentId, entry.expectedRevision, StateOf(entry.before), entry.originalReceipt)
  }

  method CheckSupported(actions: seq<Action>) returns (diagnostics: seq<Diagnostic>)
    ensures diagnostics == Unsupported(actions)
  {
    diagnostics := [];
    for i := 0 to |actions|
      invariant diagnostics + Unsupported(actions[i..]) == Unsupported(actions)
    {
      assert actions[i..][0] == actions[i] && actions[i..][1..] == actions[i + 1..];
      if !Supported(actions[i].kind) {
        diagnostics := diagnostics + [Diagnostic(UnsupportedAction, Some(actions[i].actionId))];
      }
    }
  }

  class MemoryKernelAdapter {
    var documents: map<string, Document>
    var undo: map<string, UndoEntry>

    /** The objects the two tables refer to; none of them is modified after it is stored. */
    ghost function Objects(): set<object>
      reads this
    {
      (set k | k in documents :: documents[k]) + (set r | r in undo && undo[r].before != null :: undo[r].before)
    }

    /** The two tables as values. */
    ghost var store: Store

    ghost predicate Valid()
      reads this, Objects()
    {
      && documents.Keys == store.documents.Keys
      && (forall k | k in documents :: documents[k].State() == store.documents[k])
      && undo.Keys == store.undo.Keys
      && (forall r | r in undo :: EntryIs(undo[r], store.undo[r]))
      && Observable(store)
    }

    constructor ()
      ensures Valid() && store == EMPTY
    {
      documents, undo, store := map[], map[], EMPTY;
    }

    function Stored(documentId: string): Document?
      reads this
    {
      if documentId in documents then documents[documentId] else null
    }

    method Observe(documentId: string) returns (snapshot: Option<DocumentSnapshot>)
      requires Valid()
      ensures snapshot == Lookup(store, documentId)
    {
      snapshot := SnapshotMaybe(Stored(documentId));
    }

    /** The snapshot of a document that is stored or saved: it can be taken, as Observable says. */
    method SnapshotMaybe(document: Document?) returns (snapshot: Option<DocumentSnapshot>)
      requires document != null ==> Listable(document.State())
      ensures snapshot == StateOf(document)
    {
      if document == null {
        return None;
      }
      snapshot := document.TakeSnapshot();
    }

    /** Every diagnostic of a plan, in the order the adapter reports them. */
    method Validate(plan: ActionPlan) returns (diagnostics: seq<Diagnostic>)
      requires Valid()
      ensures diagnostics == Diagnose(Lookup(store, plan.documentId), plan)
    {
      diagnostics := CheckSupported(plan.actions);
      var current := Stored(plan.documentId);
      var currentRevision := if current == null then 0 else current.revision;
      if currentRevision != plan.baseRevision {
        diagnostics := diagnostics + [Diagnostic(StaleDocumentRevision, None)];
      }
      var creates := OfKind(plan.actions, CreateDocument);
      if current == null {
        if |creates| != 1 || plan.actions[0].kind != CreateDocument {
          diagnostics := diagnostics + [Diagnostic(DocumentNotFound, None)];
        }
      } else if creates != [] {
        diagnostics := diagnostics + [Diagnostic(DocumentAlreadyExists, Some(creates[0].actionId))];
      }
    }

    /** Run the plan on a copy; `built` shares nothing with what is stored. */
    method BuildCandidate(plan: ActionPlan, before: Document?)
      returns (built: Document?, failure: Option<Diagnostic>)
      ensures ApplyActions(plan.documentId, StateOf(before), plan.actions)
           == if failure.Some? then Failure(failure.value) else Success(StateOf(built))
      ensures failure.None? ==> built != null && fresh(built)
    {
      built, failure := null, None;
      if before != null {
        built := new Document.CopyOf(before);
      }
      for i := 0 to |plan.actions|
        invariant failure.None? && (built != null ==> fresh(built))
        invariant ApplyActions(plan.documentId, StateOf(before), plan.actions)
               == ApplyActions(plan.documentId, StateOf(built), plan.actions[i..])
        invariant before != null || i > 0 ==> built != null
      {
        assert plan.actions[i..][0] == plan.actions[i] && plan.actions[i..][1..] == plan.actions[i + 1..];
        built, failure := ApplyTo(plan.documentId, built, plan.actions[i]);
        if failure.Some? {
          return;
        }
      }
      assert plan.actions[|plan.actions|..] == [];
    }

    /** Validate and build on a copy: the next document, or why there is none. Nothing is stored. */
    method Propose(plan: ActionPlan, beforeDocument: Document?)
      returns (candidate: Document?, diagnostics: seq<Diagnostic>)
      requires Valid()
      requires StateOf(beforeDocument) == Lookup(store, plan.documentId)
      ensures candidate == null ==> Outcome(Lookup(store, plan.documentId), plan) == Failure(diagnostics)
      ensures candidate != null ==> fresh(candidate)
      ensures candidate != null ==> Outcome(Lookup(store, plan.documentId), plan) == Success(candidate.State())
    {
      candidate := null;
      diagnostics := Validate(plan);
      if diagnostics != [] {
        return;
      }
      var built, failure := BuildCandidate(plan, beforeDocument);
      if failure.Some? {
        diagnostics := [failure.value];
        return;
      }
      built.revision := plan.baseRevision + 1;
      candidate := built;
    }

    /** Store candidate and undo record only for a real, accepted run; None when the call raises. */
    method Execute(plan: ActionPlan, dryRun: bool, receiptId: string) returns (receipt: Option<ExecutionReceipt>)
      requires Valid()
      modifies this
      ensures store == ExecuteOn(old(store), plan, dryRun, receiptId).0
      ensures receipt == ExecuteOn(old(store), plan, dryRun, receiptId).1
      ensures Valid()
    {
      hide Outcome, Listable;
      var beforeDocument := CopyOfStored(plan.documentId);
      var before := SnapshotMaybe(beforeDocument);
      var candidate, diagnostics := Propose(plan, beforeDocument);
      if candidate == null {
        return Some(Receipt(receiptId, plan.planId, Refused, diagnostics, before, before));
      }
      var after := candidate.TakeSnapshot();
      if after.None? {
        return None;
      }
      var made := Receipt(receiptId, plan.planId, if dryRun then DryRun else Applied, [], before, after);
      if !dryRun {
        ExecutionKeepsObservable(store, plan, dryRun, receiptId);
        Keep(receiptId, UndoEntry(plan.documentId, candidate.revision, beforeDocument, made), candidate);
      }
      receipt := Some(made);
    }

    method CopyOfStored(documentId: string) returns (copy: Document?)
      requires Valid()
      ensures StateOf(copy) == Lookup(store, documentId)
      ensures copy != null ==> fresh(copy)
    {
      copy := null;
      if documentId in documents {
        copy := new Document.CopyOf(documents[documentId]);
      }
    }

    /** Reassign both tables; the objects they already refer to are left alone. */
    method Keep(receiptId: string, entry: UndoEntry, candidate: Document)
      requires Valid()
      requires Observable(Store(
        store.documents[entry.documentId := candidate.State()],
        store.undo[receiptId := UndoRecord(entry.documentId, entry.expectedRevision,
                                           StateOf(entry.before), entry.originalReceipt)]))
      modifies this
      ensures Valid()
      ensures store == Store(
        old(store).documents[entry.documentId := candidate.State()],
        old(store).undo[receiptId := UndoRecord(entry.documentId, entry.expectedRevision,
                                                StateOf(entry.before), entry.originalReceipt)])
    {
      hide Observable;
      documents := documents[entry.documentId := candidate];
      undo := undo[receiptId := entry];
      store := Store(
        store.documents[entry.documentId := candidate.State()],
        store.undo[receiptId := UndoRecord(entry.documentId, entry.expectedRevision,
                                           StateOf(entry.before), entry.originalReceipt)]);
    }

    method Rollback(receiptId: string, newReceiptId: string) returns (receipt: ExecutionReceipt)
      requires Valid()
      modifies this
      ensures store == RollbackOn(old(store), receiptId, newReceiptId).0
      ensures receipt == RollbackOn(old(store), receiptId, newReceiptId).1
      ensures Valid()
    {
      if receiptId !in undo {
        return Receipt(newReceiptId, receiptId, Refused, [Diagnostic(RollbackNotFound, None)], None, None);
      }
      var record := undo[receiptId];
      var current := Stored(record.documentId);
      if current == null || current.revision != record.expectedRevision {
        return Receipt(newReceiptId, receiptId, Refused, [Diagnostic(RollbackConflict, None)], None, None);
      }
      var before := SnapshotMaybe(current);
      assert EntryIs(record, store.undo[receiptId]);
      var after := SnapshotMaybe(record.before);
      Restore(receiptId);
      receipt := Receipt(newReceiptId, record.originalReceipt.planId, RolledBack, [], before, after);
    }

    /** Put a copy of the saved document back, or delete the document, and drop the record. */
    method Restore(receiptId: string)
      requires Valid() && receiptId in undo
      modifies this
      ensures Valid()
      ensures store == Restored(old(store), receiptId)
    {
      var record := undo[receiptId];
      assert EntryIs(record, store.undo[receiptId]);
      RestoredIsObservable(store, receiptId);
      hide Observable;
      if record.before == null {
        documents := documents - {record.documentId};
      } else {
        var restored := new Document.CopyOf(record.before);
        documents := documents[record.documentId := restored];
      }
      undo := undo - {receiptId};
      store := Restored(store, receiptId);
    }
  }
}
