/** Whole histories of the memory kernel: any interleaving of applications, previews and
    rollbacks over any number of documents. Revision numbers are reused after a rollback,
    so that the one-integer conflict check never discards newer work needs the history. */
module MemoryHistory {
  import opened Contracts
  import opened MemoryAdapter

  datatype Operation =
    | Apply(plan: ActionPlan, receiptId: string)
    | Preview(plan: ActionPlan, receiptId: string)
    | Undo(receiptId: string, newReceiptId: string)

  /** One call and the receipt it returned, if it did not raise. */
  datatype Entry = Entry(op: Operation, receipt: Option<ExecutionReceipt>)
  {
    predicate Gave(status: ExecutionStatus)
    {
      receipt.Some? && receipt.value.status == status
    }
  }

  function Step(s: Store, op: Operation): (Store, Option<ExecutionReceipt>)
  {
    match op
    case Apply(plan, receiptId) => ExecuteOn(s, plan, false, receiptId)
    case Preview(plan, receiptId) => ExecuteOn(s, plan, true, receiptId)
    case Undo(receiptId, newReceiptId) =>
      var (s', receipt) := RollbackOn(s, receiptId, newReceiptId);
      (s', Some(receipt))
  }

  predicate IsStep(s: Store, e: Entry, s': Store)
  {
    Step(s, e.op) == (s', e.receipt)
  }

  /** The log of a run from the empty kernel through the given stores; receipt ids of
      applications never repeat. */
  ghost predicate IsHistory(stores: seq<Store>, log: seq<Entry>)
  {
    && |stores| == |log| + 1 && stores[0] == EMPTY
    && (forall i | 0 <= i < |log| :: IsStep(stores[i], log[i], stores[i + 1]))
    && UniqueReceipts(log)
  }

  ghost predicate UniqueReceipts(log: seq<Entry>)
  {
    forall i, j | 0 <= i < j < |log| && log[i].op.Apply? && log[j].op.Apply? ::
      log[i].op.receiptId != log[j].op.receiptId
  }

  function Removing(h: seq<Operation>, receiptId: string): seq<Operation>
  {
    if h == [] then []
    else Removing(h[..|h| - 1], receiptId)
         + (if h[|h| - 1].receiptId == receiptId then [] else [h[|h| - 1]])
  }

  /** The applications to one document that took effect and were not rolled back since, oldest
      first: read off the calls and their receipts alone. */
  function Surviving(log: seq<Entry>, documentId: string): seq<Operation>
  {
    if log == [] then [] else
    var last, earlier := log[|log| - 1], Surviving(log[..|log| - 1], documentId);
    if last.op.Apply? && last.Gave(Applied) && last.op.plan.documentId == documentId
    then earlier + [last.op]
    else if last.op.Undo? && last.Gave(RolledBack) then Removing(earlier, last.op.receiptId)
    else earlier
  }

  /** The surviving plans executed one after the other on nothing, numbering the results 1, 2, ... */
  function Replay(documentId: string, h: seq<Operation>): Option<DocumentSnapshot>
  {
    if h == [] then None else
    var earlier, last := Replay(documentId, h[..|h| - 1]), h[|h| - 1];
    if last.Undo? then earlier else
    var r := ApplyActions(documentId, earlier, last.plan.actions);
    if r.Failure? || r.value.None? then earlier else Some(r.value.value.(revision := |h|))
  }

  /** The undo record of the k-th surviving application expects revision k + 1 and restores the
      state the k earlier applications built. */
  ghost predicate Recorded(s: Store, documentId: string, h: seq<Operation>, k: nat)
    requires k < |h|
  {
    && h[k].Apply? && h[k].plan.documentId == documentId
    && h[k].receiptId in s.undo
    && s.undo[h[k].receiptId].documentId == documentId
    && s.undo[h[k].receiptId].expectedRevision == k + 1
    && s.undo[h[k].receiptId].before == Replay(documentId, h[..k])
    && RevisionOf(s.undo[h[k].receiptId].before) == k
    && (s.undo[h[k].receiptId].before.None? <==> k == 0)
    && s.undo[h[k].receiptId].originalReceipt.planId == h[k].plan.planId
  }

  /** Document, revision and undo records agree with the history h of one document. */
  ghost predicate Matches(s: Store, documentId: string, h: seq<Operation>)
  {
    && Lookup(s, documentId) == Replay(documentId, h)
    && RevisionOf(Lookup(s, documentId)) == |h|
    && (Lookup(s, documentId).None? <==> h == [])
    && forall k | 0 <= k < |h| :: Recorded(s, documentId, h, k)
  }

  ghost predicate Names(h: seq<Operation>, receiptId: string)
  {
    exists k :: 0 <= k < |h| && h[k].receiptId == receiptId
  }

  predicate IsNewest(h: seq<Operation>, receiptId: string)
  {
    h != [] && h[|h| - 1].receiptId == receiptId
  }

  /** The store is what the log says: every document matches its survivors, and every undo
      record belongs to a survivor. */
  ghost predicate Refines(s: Store, log: seq<Entry>)
  {
    && (forall d :: Matches(s, d, Surviving(log, d)))
    && (forall r | r in s.undo :: Names(Surviving(log, s.undo[r].documentId), r))
  }

  // ----------------------------------------------- effects of accepted calls

  /** What an accepted application writes. */
  ghost predicate Pushed(s: Store, op: Operation, s': Store)
    requires op.Apply?
  {
    var d := op.plan.documentId;
    var current := Lookup(s, d);
    var built := ApplyActions(d, current, op.plan.actions);
    && built.Success? && built.value.Some?
    && s'.documents == s.documents[d := built.value.value.(revision := RevisionOf(current) + 1)]
    && op.receiptId in s'.undo
    && s'.undo == s.undo[op.receiptId := s'.undo[op.receiptId]]
    && var record := s'.undo[op.receiptId];
       && record.documentId == d && record.expectedRevision == RevisionOf(current) + 1
       && record.before == current && record.originalReceipt.planId == op.plan.planId
  }

  /** What an accepted rollback writes, and the check it passed. */
  ghost predicate Popped(s: Store, r: string, s': Store)
  {
    && r in s.undo && Lookup(s, s.undo[r].documentId).Some?
    && RevisionOf(Lookup(s, s.undo[r].documentId)) == s.undo[r].expectedRevision
    && Lookup(s', s.undo[r].documentId) == s.undo[r].before
    && (forall e | e != s.undo[r].documentId :: Lookup(s', e) == Lookup(s, e))
    && s'.undo == s.undo - {r}
  }

  lemma StepEffect(s: Store, e: Entry, s': Store)
    requires IsStep(s, e, s')
    ensures e.op.Apply? && e.Gave(Applied) ==> Pushed(s, e.op, s')
    ensures e.op.Undo? && e.Gave(RolledBack) ==> Popped(s, e.op.receiptId, s')
    ensures !(e.op.Apply? && e.Gave(Applied)) && !(e.op.Undo? && e.Gave(RolledBack)) ==> s' == s
    ensures e.op.Undo? && Popped(s, e.op.receiptId, RollbackOn(s, e.op.receiptId, e.op.newReceiptId).0)
            ==> e.Gave(RolledBack)
  {
    if e.op.Apply? {
      DiagnoseMeaning(Lookup(s, e.op.plan.documentId), e.op.plan);
    }
  }

  // ------------------------------------------------------------------ proofs

  lemma {:induction false} RemovingAbsent(h: seq<Operation>, r: string)
    requires forall k | 0 <= k < |h| :: h[k].receiptId != r
    ensures Removing(h, r) == h
  {
    if h != [] {
      var earlier, last := h[..|h| - 1], h[|h| - 1];
      RemovingAbsent(earlier, r);
      NotRemoved(h, r);
      hide Removing;
      assert earlier + [last] == h;
    }
  }

  lemma NotRemoved(h: seq<Operation>, r: string)
    requires h != [] && h[|h| - 1].receiptId != r
    ensures Removing(h, r) == Removing(h[..|h| - 1], r) + [h[|h| - 1]]
  {
  }

  lemma RemovingLast(h: seq<Operation>, r: string)
    requires IsNewest(h, r)
    requires forall k | 0 <= k < |h| - 1 :: h[k].receiptId != r
    ensures Removing(h, r) == h[..|h| - 1]
  {
    RemovingAbsent(h[..|h| - 1], r);
  }

  lemma {:induction false} RemovingSubset(h: seq<Operation>, r: string)
    ensures forall op | op in Removing(h, r) :: op in h
  {
    if h != [] {
      RemovingSubset(h[..|h| - 1], r);
    }
  }

  lemma {:induction false} SurvivorsWereApplied(log: seq<Entry>, d: string, op: Operation)
    requires op in Surviving(log, d)
    ensures op.Apply? && exists i :: 0 <= i < |log| && log[i].op == op
  {
    var last, earlier := log[|log| - 1], Surviving(log[..|log| - 1], d);
    if last.op.Undo? {
      RemovingSubset(earlier, last.op.receiptId);
    }
    if op in earlier {
      SurvivorsWereApplied(log[..|log| - 1], d, op);
      var i :| 0 <= i < |log| - 1 && log[..|log| - 1][i].op == op;
      assert log[i].op == op;
    }
  }

  lemma UniqueTail(log: seq<Entry>, e: Entry)
    requires e.op.Apply? && UniqueReceipts(log + [e])
    ensures forall i | 0 <= i < |log| && log[i].op.Apply? :: log[i].op.receiptId != e.op.receiptId
    ensures UniqueReceipts(log)
  {
    var all := log + [e];
    assert all[|log|] == e;
    assert forall i | 0 <= i < |log| :: all[i] == log[i];
  }

  lemma FreshReceipt(s: Store, log: seq<Entry>, e: Entry)
    requires Refines(s, log) && e.op.Apply? && UniqueReceipts(log + [e])
    ensures e.op.receiptId !in s.undo
  {
    UniqueTail(log, e);
    var r := e.op.receiptId;
    if r in s.undo {
      var h := Surviving(log, s.undo[r].documentId);
      var k :| 0 <= k < |h| && h[k].receiptId == r;
      SurvivorsWereApplied(log, s.undo[r].documentId, h[k]);
    }
  }

  lemma ReplayAppend(s: Store, op: Operation, s': Store, h: seq<Operation>)
    requires op.Apply? && Pushed(s, op, s')
    requires Matches(s, op.plan.documentId, h)
    ensures var d := op.plan.documentId;
      Lookup(s', d) == Replay(d, h + [op]) && Lookup(s', d).Some? && RevisionOf(Lookup(s', d)) == |h| + 1
  {
    MatchesLookup(s, op.plan.documentId, h);
    hide Matches, ApplyActions;
    var h' := h + [op];
    assert h'[..|h|] == h && h'[|h'| - 1] == op;
  }

  lemma RecordSurvives(s: Store, s': Store, d: string, h: seq<Operation>, h': seq<Operation>, k: nat)
    requires k < |h| && k < |h'| && h'[..k + 1] == h[..k + 1] && Recorded(s, d, h, k)
    requires h[k].receiptId in s'.undo && s'.undo[h[k].receiptId] == s.undo[h[k].receiptId]
    ensures Recorded(s', d, h', k)
  {
    assert h'[k] == h'[..k + 1][k] == h[k];
    assert h'[..k] == h'[..k + 1][..k] == h[..k];
  }

  lemma ApplyKeepsMatch(s: Store, op: Operation, s': Store, d: string, h: seq<Operation>)
    requires op.Apply? && op.receiptId !in s.undo && Pushed(s, op, s')
    requires Matches(s, d, h)
    ensures Matches(s', d, if op.plan.documentId == d then h + [op] else h)
  {
    var h' := if op.plan.documentId == d then h + [op] else h;
    forall k | 0 <= k < |h| ensures Recorded(s', d, h', k)
    {
      assert Recorded(s, d, h, k);
      assert h'[..k + 1] == h[..k + 1];
      RecordSurvives(s, s', d, h, h', k);
    }
    if op.plan.documentId == d {
      ReplayAppend(s, op, s', h);
      assert h'[..|h|] == h;
      assert Recorded(s', d, h', |h|);
    }
  }

  lemma ApplyExtends(s: Store, log: seq<Entry>, e: Entry, s': Store)
    requires Refines(s, log) && UniqueReceipts(log + [e])
    requires e.op.Apply? && e.Gave(Applied) && Pushed(s, e.op, s')
    ensures Refines(s', log + [e])
  {
    var log' := log + [e];
    assert log'[..|log|] == log;
    FreshReceipt(s, log, e);
    forall d ensures Matches(s', d, Surviving(log', d))
    {
      ApplyKeepsMatch(s, e.op, s', d, Surviving(log, d));
    }
    forall r | r in s'.undo ensures Names(Surviving(log', s'.undo[r].documentId), r)
    {
      var h, h' := Surviving(log, s'.undo[r].documentId), Surviving(log', s'.undo[r].documentId);
      if r == e.op.receiptId {
        assert h'[|h'| - 1].receiptId == r;
      } else {
        var k :| 0 <= k < |h| && h[k].receiptId == r;
        assert h'[k].receiptId == r;
      }
    }
  }

  /** Because revisions count survivors, the record that passes the revision check is the newest. */
  lemma MatchingRevisionIsNewest(s: Store, d: string, h: seq<Operation>, r: string)
    requires Matches(s, d, h) && Names(h, r)
    requires r in s.undo && RevisionOf(Lookup(s, d)) == s.undo[r].expectedRevision
    ensures IsNewest(h, r) && Removing(h, r) == h[..|h| - 1]
    ensures s.undo[r].before == Replay(d, h[..|h| - 1])
  {
    var k: nat :| 0 <= k < |h| && h[k].receiptId == r;
    hide Recorded, Replay, Removing, Lookup;
    RecordFacts(s, d, h, k);
    forall j: nat | j < |h| - 1 ensures h[j].receiptId != r
    {
      RecordFacts(s, d, h, j);
    }
    RemovingLast(h, r);
  }

  lemma RecordFacts(s: Store, d: string, h: seq<Operation>, k: nat)
    requires Matches(s, d, h) && k < |h|
    ensures h[k].receiptId in s.undo && s.undo[h[k].receiptId].documentId == d
    ensures s.undo[h[k].receiptId].expectedRevision == k + 1
    ensures s.undo[h[k].receiptId].before == Replay(d, h[..k])
  {
    assert Recorded(s, d, h, k);
  }

  lemma UndoKeepsMatch(s: Store, r: string, s': Store, d: string, h: seq<Operation>)
    requires Popped(s, r, s') && Matches(s, d, h)
    requires s.undo[r].documentId == d ==> Names(h, r)
    ensures Matches(s', d, Removing(h, r))
    ensures Removing(h, r) == if s.undo[r].documentId == d then h[..|h| - 1] else h
    ensures s.undo[r].documentId == d <==> IsNewest(h, r)
  {
    var h' := Removing(h, r);
    if s.undo[r].documentId == d {
      MatchingRevisionIsNewest(s, d, h, r);
    } else {
      forall k | 0 <= k < |h| ensures h[k].receiptId != r
      {
        assert Recorded(s, d, h, k);
      }
      RemovingAbsent(h, r);
    }
    forall k | 0 <= k < |h'| ensures Recorded(s', d, h', k)
    {
      assert Recorded(s, d, h, k);
      assert s.undo[r].documentId == d ==> Recorded(s, d, h, |h| - 1);
      assert h'[..k + 1] == h[..k + 1];
      RecordSurvives(s, s', d, h, h', k);
    }
    assert s.undo[r].documentId == d ==> Recorded(s, d, h, |h| - 1);
  }

  lemma SurvivingUndo(log: seq<Entry>, e: Entry, d: string)
    requires e.op.Undo? && e.Gave(RolledBack)
    ensures Surviving(log + [e], d) == Removing(Surviving(log, d), e.op.receiptId)
  {
    assert (log + [e])[..|log|] == log;
  }

  lemma UndoKeepsNames(s: Store, h: seq<Operation>, d: string, r: string, q: string)
    requires Names(h, q) && q != r
    ensures Names(AfterUndo(h, r), q)
  {
    var k :| 0 <= k < |h| && h[k].receiptId == q;
    assert AfterUndo(h, r)[k].receiptId == q;
  }

  lemma UndoShrinksOne(s: Store, log: seq<Entry>, e: Entry, s': Store, d: string)
    requires Refines(s, log)
    requires e.op.Undo? && e.Gave(RolledBack) && Popped(s, e.op.receiptId, s')
    ensures Matches(s', d, Surviving(log + [e], d))
    ensures Surviving(log + [e], d) == AfterUndo(Surviving(log, d), e.op.receiptId)
    ensures s.undo[e.op.receiptId].documentId == d <==> IsNewest(Surviving(log, d), e.op.receiptId)
  {
    SurvivingUndo(log, e, d);
    UndoKeepsMatch(s, e.op.receiptId, s', d, Surviving(log, d));
  }

  lemma UndoShrinks(s: Store, log: seq<Entry>, e: Entry, s': Store)
    requires Refines(s, log)
    requires e.op.Undo? && e.Gave(RolledBack) && Popped(s, e.op.receiptId, s')
    ensures Refines(s', log + [e])
  {
    forall d ensures Matches(s', d, Surviving(log + [e], d))
    {
      UndoShrinksOne(s, log, e, s', d);
    }
    forall q | q in s'.undo ensures Names(Surviving(log + [e], s'.undo[q].documentId), q)
    {
      var d := s.undo[q].documentId;
      UndoShrinksOne(s, log, e, s', d);
      UndoKeepsNames(s, Surviving(log, d), d, e.op.receiptId, q);
    }
  }

  /** What a successful rollback of r leaves of a document's history. */
  function AfterUndo(h: seq<Operation>, r: string): seq<Operation>
  {
    if IsNewest(h, r) then h[..|h| - 1] else h
  }

  lemma StepKeepsRefines(s: Store, log: seq<Entry>, e: Entry, s': Store)
    requires Refines(s, log) && IsStep(s, e, s') && UniqueReceipts(log + [e])
    ensures Refines(s', log + [e])
  {
    StepEffect(s, e, s');
    if e.op.Apply? && e.Gave(Applied) {
      ApplyExtends(s, log, e, s');
    } else if e.op.Undo? && e.Gave(RolledBack) {
      UndoShrinks(s, log, e, s');
    } else {
      assert (log + [e])[..|log|] == log;
      assert forall d :: Surviving(log + [e], d) == Surviving(log, d);
    }
  }

  // ------------------------------------------------------------ main results

  /** At every point of every history each stored document is its surviving plans applied in
      order, its undo records expect exactly the revisions 1 to current, and record k restores
      what the first k - 1 surviving plans built. */
  lemma {:induction false} HistoryRefinement(stores: seq<Store>, log: seq<Entry>, i: nat)
    requires IsHistory(stores, log) && i <= |log|
    ensures Refines(stores[i], log[..i])
  {
    if i > 0 {
      HistoryRefinement(stores, log, i - 1);
      assert log[..i] == log[..i - 1] + [log[i - 1]];
      assert UniqueReceipts(log[..i]);
      assert IsStep(stores[i - 1], log[i - 1], stores[i - 1 + 1]);
      StepKeepsRefines(stores[i - 1], log[..i - 1], log[i - 1], stores[i]);
    }
  }

  lemma RolledBackWasNewest(s: Store, log: seq<Entry>, e: Entry, s': Store)
    requires Refines(s, log) && IsStep(s, e, s') && e.op.Undo? && e.Gave(RolledBack)
    ensures Popped(s, e.op.receiptId, s')
    ensures var d := s.undo[e.op.receiptId].documentId; IsNewest(Surviving(log, d), e.op.receiptId)
  {
    StepEffect(s, e, s');
    var d := s.undo[e.op.receiptId].documentId;
    MatchingRevisionIsNewest(s, d, Surviving(log, d), e.op.receiptId);
  }

  lemma NewestRollsBack(s: Store, e: Entry, s': Store, d: string, h: seq<Operation>)
    requires IsStep(s, e, s') && e.op.Undo?
    requires Matches(s, d, h) && IsNewest(h, e.op.receiptId)
    ensures e.Gave(RolledBack)
  {
    assert Recorded(s, d, h, |h| - 1);
    assert s.undo[e.op.receiptId].expectedRevision == |h|;
  }

  /** In every history, however often revision numbers were reused: a rollback call succeeds
      exactly when its receipt is the newest surviving one of some document. */
  lemma RollbackIffNewest(stores: seq<Store>, log: seq<Entry>, i: nat)
    requires IsHistory(stores, log) && i < |log| && log[i].op.Undo?
    ensures log[i].Gave(RolledBack)
       <==> IsNewestSomewhere(log[..i], log[i].op.receiptId)
  {
    HistoryRefinement(stores, log, i);
    var past, e := log[..i], log[i];
    if e.Gave(RolledBack) {
      RolledBackWasNewest(stores[i], past, e, stores[i + 1]);
      assert IsNewest(Surviving(past, stores[i].undo[e.op.receiptId].documentId), e.op.receiptId);
    }
    if IsNewestSomewhere(past, e.op.receiptId) {
      var d :| IsNewest(Surviving(past, d), e.op.receiptId);
      NewestRollsBack(stores[i], e, stores[i + 1], d, Surviving(past, d));
    }
  }

  /** What a rollback's receipt says. One that succeeds names the plan it undoes and shows the document as it
      was and as it is now. One that fails writes nothing and shows nothing; it is a conflict exactly when the
      receipt belongs to a surviving application that is not the newest, and otherwise unknown. */
  lemma RollbackReceipts(stores: seq<Store>, log: seq<Entry>, i: nat)
    requires IsHistory(stores, log) && i < |log| && log[i].op.Undo?
    ensures log[i].receipt.Some? && log[i].receipt.value.receiptId == log[i].op.newReceiptId
    ensures var receipt, past, r := log[i].receipt.value, log[..i], log[i].op.receiptId;
      if IsNewestSomewhere(past, r) then
        receipt.status == RolledBack && receipt.diagnostics == [] && UndoShown(stores, past, i, r, receipt)
      else
        && receipt.status == Refused && receipt.before == receipt.after == None && stores[i + 1] == stores[i]
        && receipt.diagnostics
           == [Diagnostic(if SurvivesSomewhere(past, r) then RollbackConflict else RollbackNotFound, None)]
  {
    hide Surviving, Replay, Restored, UniqueReceipts, ExecuteOn, Popped;
    HistoryRefinement(stores, log, i);
    RollbackIffNewest(stores, log, i);
    var s, past, r := stores[i], log[..i], log[i].op.receiptId;
    assert IsStep(s, log[i], stores[i + 1]);
    RecordedIffSurvives(s, past, r);
    if r in s.undo {
      var d := s.undo[r].documentId;
      if IsNewestSomewhere(past, r) {
        RolledBackWasNewest(s, past, log[i], stores[i + 1]);
        var h := Surviving(past, d);
        assert Recorded(s, d, h, |h| - 1);
        assert UndoShownFor(stores, past, i, r, log[i].receipt.value, d);
      }
    }
    hide Refines;
  }

  lemma RecordedIffSurvives(s: Store, past: seq<Entry>, r: string)
    requires Refines(s, past)
    ensures r in s.undo <==> SurvivesSomewhere(past, r)
  {
    if d :| Names(Surviving(past, d), r) {
      assert Matches(s, d, Surviving(past, d));
      var k :| 0 <= k < |Surviving(past, d)| && Surviving(past, d)[k].receiptId == r;
      assert Recorded(s, d, Surviving(past, d), k);
    }
  }

  ghost predicate SurvivesSomewhere(past: seq<Entry>, r: string)
  {
    exists d :: Names(Surviving(past, d), r)
  }

  /** The receipt shows the document of the undone application before and after, and names its plan. */
  ghost predicate UndoShown(stores: seq<Store>, past: seq<Entry>, i: nat, r: string, receipt: ExecutionReceipt)
    requires i + 1 < |stores|
  {
    exists d :: UndoShownFor(stores, past, i, r, receipt, d)
  }

  ghost predicate UndoShownFor(
    stores: seq<Store>, past: seq<Entry>, i: nat, r: string, receipt: ExecutionReceipt, d: string)
    requires i + 1 < |stores|
  {
    var h := Surviving(past, d);
    && IsNewest(h, r) && h[|h| - 1].Apply? && receipt.planId == h[|h| - 1].plan.planId
    && receipt.before == Lookup(stores[i], d) && receipt.after == Lookup(stores[i + 1], d)
  }

  /** The receipt is the newest surviving application of some document. */
  ghost predicate IsNewestSomewhere(past: seq<Entry>, r: string)
  {
    exists d :: IsNewest(Surviving(past, d), r)
  }

  /** Call i, a rollback, discarded exactly the newest application of document d. */
  ghost predicate OnlyNewestDiscarded(stores: seq<Store>, log: seq<Entry>, i: nat, d: string)
    requires i < |log| && |stores| == |log| + 1
  {
    var s, past, s', now, r := stores[i], log[..i], stores[i + 1], log[..i + 1], log[i].op.receiptId;
    var h := Surviving(past, d);
    && IsNewest(h, r)
    && Surviving(now, d) == h[..|h| - 1] && Lookup(s', d) == Replay(d, h[..|h| - 1])
    && forall e | e != d :: Lookup(s', e) == Lookup(s, e) && Surviving(now, e) == Surviving(past, e)
  }

  lemma PoppedShape(s: Store, r: string, s': Store)
    requires Popped(s, r, s')
    ensures r in s.undo && forall e | e != s.undo[r].documentId :: Lookup(s', e) == Lookup(s, e)
  {
  }

  lemma MatchesLookup(s: Store, d: string, h: seq<Operation>)
    requires Matches(s, d, h)
    ensures Lookup(s, d) == Replay(d, h) && RevisionOf(Lookup(s, d)) == |h|
  {
  }

  /** A successful rollback discards exactly the newest application of one document: that document
      becomes its earlier survivors replayed, and every other document keeps state and history. */
  lemma RollbackDiscardsOnlyNewest(stores: seq<Store>, log: seq<Entry>, i: nat)
    requires IsHistory(stores, log) && i < |log| && log[i].op.Undo? && log[i].Gave(RolledBack)
    ensures exists d :: OnlyNewestDiscarded(stores, log, i, d)
  {
    hide Refines, Matches, Popped, Surviving, Replay, Lookup, Step;
    HistoryRefinement(stores, log, i);
    var s, s', e, past := stores[i], stores[i + 1], log[i], log[..i];
    assert IsStep(s, e, s');
    RolledBackWasNewest(s, past, e, s');
    PoppedShape(s, e.op.receiptId, s');
    var d := s.undo[e.op.receiptId].documentId;
    assert log[..i + 1] == past + [e];
    forall x ensures Surviving(log[..i + 1], x) == AfterUndo(Surviving(past, x), e.op.receiptId)
      ensures x == d <==> IsNewest(Surviving(past, x), e.op.receiptId)
      ensures Lookup(s', x) == Replay(x, Surviving(log[..i + 1], x))
    {
      UndoShrinksOne(s, past, e, s', x);
      MatchesLookup(s', x, Surviving(log[..i + 1], x));
    }
    assert OnlyNewestDiscarded(stores, log, i, d);
  }

  // -------------------------------------------------------- calls that raise

  /** Every document that is stored, or that a rollback would restore, can be listed in a snapshot. */
  ghost predicate Observable(s: Store)
  {
    && (forall d | d in s.documents :: Listable(s.documents[d]) && s.documents[d].documentId == d)
    && (forall r | r in s.undo && s.undo[r].before.Some? ::
          Listable(s.undo[r].before.value) && s.undo[r].before.value.documentId == s.undo[r].documentId)
  }

  lemma ExecutionKeepsObservable(s: Store, plan: ActionPlan, dryRun: bool, receiptId: string)
    requires Observable(s)
    ensures Observable(ExecuteOn(s, plan, dryRun, receiptId).0)
  {
    hide Diagnose, Listable, ApplyActions;
    ActionsKeepDocumentId(plan.documentId, Lookup(s, plan.documentId), plan.actions);
  }

  lemma RestoredIsObservable(s: Store, receiptId: string)
    requires Observable(s) && receiptId in s.undo
    ensures Observable(Restored(s, receiptId))
  {
    hide Listable;
  }

  lemma RollbackKeepsObservable(s: Store, receiptId: string, newReceiptId: string)
    requires Observable(s)
    ensures Observable(RollbackOn(s, receiptId, newReceiptId).0)
  {
    hide Observable, Restored;
    if receiptId in s.undo {
      RestoredIsObservable(s, receiptId);
    }
  }

  /** In every history every stored and every restorable document can be observed, so observation and
      rollback never raise. */
  lemma {:induction false} HistoryIsObservable(stores: seq<Store>, log: seq<Entry>, i: nat)
    requires IsHistory(stores, log) && i <= |log|
    ensures Observable(stores[i])
  {
    hide Observable, ExecuteOn, RollbackOn;
    if i > 0 {
      HistoryIsObservable(stores, log, i - 1);
      assert IsStep(stores[i - 1], log[i - 1], stores[i - 1 + 1]);
      match log[i - 1].op
      case Apply(plan, receiptId) => ExecutionKeepsObservable(stores[i - 1], plan, false, receiptId);
      case Preview(plan, receiptId) => ExecutionKeepsObservable(stores[i - 1], plan, true, receiptId);
      case Undo(receiptId, newReceiptId) => RollbackKeepsObservable(stores[i - 1], receiptId, newReceiptId);
    } else {
      EmptyIsObservable();
    }
  }

  lemma EmptyIsObservable()
    ensures Observable(EMPTY)
  {
  }

  /** In every history an execution raises exactly when its plan would otherwise be accepted and adds an id
      no snapshot can list, previews and real runs alike; no rollback raises; a call that raises writes
      nothing. */
  lemma RaisingCalls(stores: seq<Store>, log: seq<Entry>, i: nat)
    requires IsHistory(stores, log) && i < |log|
    ensures log[i].receipt.None? ==> stores[i + 1] == stores[i]
    ensures log[i].receipt.None? <==> !log[i].op.Undo? && WouldRaise(stores[i], log[i].op.plan)
  {
    HistoryIsObservable(stores, log, i);
    assert IsStep(stores[i], log[i], stores[i + 1]);
    if !log[i].op.Undo? {
      RaisesIffUnlistableAddition(stores[i], log[i].op.plan);
    }
    hide Diagnose, ApplyActions, Listable, AddsUnlistable, UniqueReceipts;
  }

  /** The condition on a plan, in terms of its actions. */
  ghost predicate WouldRaise(s: Store, plan: ActionPlan)
  {
    Outcome(Lookup(s, plan.documentId), plan).Success? && exists a :: a in plan.actions && AddsUnlistable(a)
  }
}
