/** From actions to requirements: what an accepted call's last action sets is what the verifier finds in its
    receipt, in every history of the kernel. */
module PlannedEffects {
  import opened Contracts
  import opened MemoryAdapter
  import opened MemoryHistory
  import opened Verification

  // ------------------------------------------------ documents stay tidy

  ghost predicate AllTidy(s: Store)
  {
    && (forall d | d in s.documents :: Tidy(s.documents[d]) && s.documents[d].documentId == d)
    && (forall r | r in s.undo && s.undo[r].before.Some? ::
          Tidy(s.undo[r].before.value) && s.undo[r].before.value.documentId == s.undo[r].documentId)
  }

  lemma ExecutionKeepsTidy(s: Store, plan: ActionPlan, dryRun: bool, receiptId: string)
    requires AllTidy(s)
    ensures AllTidy(ExecuteOn(s, plan, dryRun, receiptId).0)
  {
    ApplyActionsTidy(plan.documentId, Lookup(s, plan.documentId), plan.actions);
    assert forall d: DocumentSnapshot, n: nat :: Tidy(d) ==> Tidy(d.(revision := n));
    hide Diagnose, ApplyActions, Tidy, SnapshotRaises;
  }

  lemma RollbackKeepsTidy(s: Store, receiptId: string, newReceiptId: string)
    requires AllTidy(s)
    ensures AllTidy(RollbackOn(s, receiptId, newReceiptId).0)
  {
    hide Tidy;
  }

  lemma EmptyIsTidy()
    ensures AllTidy(EMPTY)
  {
  }

  /** In every history stored and saved documents have unique feature ids and positive dimensions. */
  lemma {:induction false} HistoryIsTidy(stores: seq<Store>, log: seq<Entry>, i: nat)
    requires IsHistory(stores, log) && i <= |log|
    ensures AllTidy(stores[i])
  {
    hide AllTidy, ExecuteOn, RollbackOn;
    if i > 0 {
      HistoryIsTidy(stores, log, i - 1);
      assert IsStep(stores[i - 1], log[i - 1], stores[i - 1 + 1]);
      match log[i - 1].op
      case Apply(plan, receiptId) => ExecutionKeepsTidy(stores[i - 1], plan, false, receiptId);
      case Preview(plan, receiptId) => ExecutionKeepsTidy(stores[i - 1], plan, true, receiptId);
      case Undo(receiptId, newReceiptId) => RollbackKeepsTidy(stores[i - 1], receiptId, newReceiptId);
    } else {
      EmptyIsTidy();
    }
  }

  // ------------------------------------------------- what one action shows

  /** The requirement an action's effect amounts to: an added feature exists and each dimension has the
      action's value, an edited parameter has its new value, a deleted feature is absent. */
  ghost predicate Achieves(a: Action, before: Option<DocumentSnapshot>, after: Option<DocumentSnapshot>)
  {
    match a.kind
    case AddBox => AdditionAchieved(a, before, after)
    case AddCylinder => AdditionAchieved(a, before, after)
    case SetParameter =>
      var name, value := Get(a.parameters, "name"), Get(a.parameters, "value");
      a.targetId.Some? && name.Text? && Holds(ParameterEquals(a.targetId.value, name.s, value, 0.0), before, after)
    case DeleteFeature => a.targetId.Some? && Holds(FeatureAbsent(a.targetId.value), before, after)
    case _ => true
  }

  ghost predicate AdditionAchieved(a: Action, before: Option<DocumentSnapshot>, after: Option<DocumentSnapshot>)
  {
    && Holds(FeatureExists(Subject(a)), before, after)
    && forall name | name in Dimensions(a.kind) ::
         Holds(ParameterEquals(Subject(a), name, Get(a.parameters, name), 0.0), before, after)
  }

  lemma AdditionIsShown(d: DocumentSnapshot, a: Action, before: Option<DocumentSnapshot>, revision: nat)
    requires a.kind in {AddBox, AddCylinder} && Tidy(d) && ApplyAction(d.documentId, Some(d), a).Success?
    ensures AdditionAchieved(a, before, Some(ApplyAction(d.documentId, Some(d), a).value.(revision := revision)))
  {
    var r := ApplyAction(d.documentId, Some(d), a).value.(revision := revision);
    ActionSetsItsSubject(d, a);
    RefusalMeaning(d, a);
    hide ApplyAction;
    var f := r.features[|d.features|];
    assert Shows(r, Subject(a), f);
  }

  /** A number shown under an id and a name is equal to itself. */
  lemma ValueIsShown(r: DocumentSnapshot, id: string, f: Feature, name: string, before: Option<DocumentSnapshot>)
    requires Shows(r, id, f) && name in f.parameters && f.parameters[name].Number?
    ensures Holds(ParameterEquals(id, name, f.parameters[name], 0.0), before, Some(r))
  {
    hide Shows;
  }

  lemma EditIsShown(d: DocumentSnapshot, a: Action, before: Option<DocumentSnapshot>, revision: nat)
    requires a.kind == SetParameter && Tidy(d) && ApplyAction(d.documentId, Some(d), a).Success?
    ensures Achieves(a, before, Some(ApplyAction(d.documentId, Some(d), a).value.(revision := revision)))
  {
    hide ApplyAction, IsNonBlankText, Supported, Dimensions, Holds;
    var r := ApplyAction(d.documentId, Some(d), a).value.(revision := revision);
    RefusalMeaning(d, a);
    ActionSetsItsSubject(d, a);
    ApplyActionTidy(d.documentId, Some(d), a);
    var id, name, value := a.targetId.value, Get(a.parameters, "name").s, Get(a.parameters, "value");
    var i :| 0 <= i < |d.features| && d.features[i].featureId == id && |r.features| == |d.features|
             && r.features[i] == d.features[i].(parameters := d.features[i].parameters[name := value]);
    assert Shows(r, id, r.features[i]);
    ValueIsShown(r, id, r.features[i], name, before);
  }

  lemma DeletionIsShown(d: DocumentSnapshot, a: Action, before: Option<DocumentSnapshot>, revision: nat)
    requires a.kind == DeleteFeature && Tidy(d) && ApplyAction(d.documentId, Some(d), a).Success?
    ensures Achieves(a, before, Some(ApplyAction(d.documentId, Some(d), a).value.(revision := revision)))
  {
    ActionTouchesOnlyItsSubject(d, a);
    RefusalMeaning(d, a);
    hide ApplyAction;
  }

  lemma ActionIsShown(d: DocumentSnapshot, a: Action, before: Option<DocumentSnapshot>, revision: nat)
    requires a.kind != CreateDocument && Tidy(d) && ApplyAction(d.documentId, Some(d), a).Success?
    ensures Achieves(a, before, Some(ApplyAction(d.documentId, Some(d), a).value.(revision := revision)))
  {
    hide ApplyAction, AdditionAchieved, Holds, Tidy;
    match a.kind
    case AddBox => AdditionIsShown(d, a, before, revision);
    case AddCylinder => AdditionIsShown(d, a, before, revision);
    case SetParameter => EditIsShown(d, a, before, revision);
    case DeleteFeature => DeletionIsShown(d, a, before, revision);
    case _ =>
  }

  // --------------------------------------------------------- whole calls

  /** A plan that succeeds runs its last action on the tidy document the earlier ones leave. */
  lemma {:induction false} LastApplied(documentId: string, d: Option<DocumentSnapshot>, actions: seq<Action>)
    returns (last: Option<DocumentSnapshot>)
    requires actions != [] && ApplyActions(documentId, d, actions).Success?
    requires d.Some? ==> Tidy(d.value) && d.value.documentId == documentId
    ensures last.Some? ==> Tidy(last.value) && last.value.documentId == documentId
    ensures ApplyAction(documentId, last, actions[|actions| - 1]).Success?
    ensures ApplyActions(documentId, d, actions).value
         == Some(ApplyAction(documentId, last, actions[|actions| - 1]).value)
    decreases |actions|
  {
    hide ApplyAction, Tidy;
    if |actions| == 1 {
      assert actions[1..] == [];
      last := d;
    } else {
      ApplyActionTidy(documentId, d, actions[0]);
      last := LastApplied(documentId, Some(ApplyAction(documentId, d, actions[0]).value), actions[1..]);
    }
  }

  lemma OutcomeShowsLast(current: Option<DocumentSnapshot>, plan: ActionPlan)
    requires current.Some? ==> Tidy(current.value) && current.value.documentId == plan.documentId
    requires Outcome(current, plan).Success?
    ensures Achieves(plan.actions[|plan.actions| - 1], current, Some(Outcome(current, plan).value))
  {
    hide Tidy, ApplyAction, Diagnose, Achieves;
    var a := plan.actions[|plan.actions| - 1];
    var last := LastApplied(plan.documentId, current, plan.actions);
    if a.kind == CreateDocument {
      CreationAchieves(a, current, Some(Outcome(current, plan).value));
    } else {
      NeedsADocument(plan.documentId, last, a);
      ActionIsShown(last.value, a, current, plan.baseRevision + 1);
    }
  }

  lemma CreationAchieves(a: Action, before: Option<DocumentSnapshot>, after: Option<DocumentSnapshot>)
    requires a.kind == CreateDocument
    ensures Achieves(a, before, after)
  {
  }

  lemma NeedsADocument(documentId: string, d: Option<DocumentSnapshot>, a: Action)
    requires a.kind != CreateDocument && ApplyAction(documentId, d, a).Success?
    ensures d.Some?
  {
  }

  /** In every history, whatever an accepted call, real or preview, did with its last action is what the
      verifier finds between the two snapshots of its receipt. */
  lemma LastActionIsVerified(stores: seq<Store>, log: seq<Entry>, i: nat)
    requires IsHistory(stores, log) && i < |log| && !log[i].op.Undo?
    requires log[i].receipt.Some? && log[i].receipt.value.Accepted()
    ensures var plan, receipt := log[i].op.plan, log[i].receipt.value;
      Achieves(plan.actions[|plan.actions| - 1], receipt.before, receipt.after)
  {
    HistoryIsTidy(stores, log, i);
    assert IsStep(stores[i], log[i], stores[i + 1]);
    var plan := log[i].op.plan;
    hide Diagnose, ApplyActions, Tidy, Achieves, UniqueReceipts;
    OutcomeShowsLast(Lookup(stores[i], plan.documentId), plan);
  }
}
