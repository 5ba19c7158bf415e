/** The acceptance gate over candidate files: after every turn the newly produced candidates are either
    accepted and backed up, or replaced by the last accepted ones, and a done signal is believed only
    after acceptance. Geometry, change and evidence verdicts come from outside. */
module CandidateGate {
  import opened Contracts

  type Hash = nat
  type Content = nat

  datatype Name = OutputStep | OutputStp

  type Files = map<Name, Content>

  /** The last execution of a turn: whether it succeeded, which candidates it reports, and the hash of
      its program text if it has one. */
  datatype Execution = Execution(success: bool, produced: set<Name>, code: Option<Hash>)

  datatype Change = Changed | NoOp | Violation

  /** The uninterpreted verdicts: mesh and render feedback, the edit comparison, the instance evidence. */
  datatype Review = Review(feedback: bool, change: Change, evidence: bool)

  datatype Text = Text(strictDone: bool, hasCode: bool, commentOnlyDone: bool)

  datatype Event =
    | Turn(found: Files, execution: Execution, review: Review)  // the files as the turn left them
    | BudgetReached                                             // the client synthesizes a stop
    | Message(text: Text)                                       // a reply that may claim to be done

  datatype Gate = Gate(editing: bool, work: Files, backups: Files, passed: bool, everPassed: bool, budgetStop: bool,
                       accepted: set<Hash>, inspections: nat, noOps: nat, violations: nat, recoveries: nat)

  function Fresh(editing: bool, work: Files, backups: Files): Gate
  {
    Gate(editing, work, backups, false, false, false, {}, 0, 0, 0, 0)
  }

  // ------------------------------------------------------- the specification

  predicate GeometryPassed(e: Event)
    requires e.Turn?
  {
    e.execution.success && e.review.feedback
  }

  predicate ChangePassed(g: Gate, e: Event)
    requires e.Turn?
  {
    !(GeometryPassed(e) && g.editing) || e.review.change.Changed?
  }

  /** A turn that reports a candidate, ran, satisfies mesh and render feedback, changed the part if it had
      to, and has its evidence. */
  ghost predicate Clears(editing: bool, e: Event)
  {
    && e.Turn? && e.execution.produced != {}
    && e.execution.success && e.review.feedback
    && (editing ==> e.review.change.Changed?)
    && e.review.evidence
  }

  /** What the gate computes is exactly that. */
  lemma AcceptsIffClears(g: Gate, e: Event)
    ensures Accepts(g, e) <==> Clears(g.editing, e)
  {
  }

  predicate Accepts(g: Gate, e: Event)
  {
    e.Turn? && e.execution.produced != {} && GeometryPassed(e) && ChangePassed(g, e) && e.review.evidence
  }

  predicate Rejects(g: Gate, e: Event)
  {
    e.Turn? && e.execution.produced != {} && !Accepts(g, e)
  }

  /** Every reported candidate that is there is backed up; other backups stay. */
  function BackedUp(backups: Files, work: Files, produced: set<Name>): Files
  {
    map n | n in backups.Keys + (produced * work.Keys) :: if n in produced && n in work then work[n] else backups[n]
  }

  /** Every reported candidate is replaced by its backup, or removed without one; other files stay. */
  function Restored(work: Files, backups: Files, produced: set<Name>): Files
  {
    map n | n in (work.Keys - produced) + (produced * backups.Keys) :: if n in produced then backups[n] else work[n]
  }

  predicate ClaimsDone(t: Text)
  {
    (t.strictDone || t.commentOnlyDone) && (t.hasCode ==> t.commentOnlyDone)
  }

  predicate BelievesDone(g: Gate, t: Text)
  {
    ClaimsDone(t) && (g.passed || g.budgetStop)
  }

  function AfterAcceptance(g: Gate, found: Files, execution: Execution): Gate
  {
    g.(work := found, backups := BackedUp(g.backups, found, execution.produced), passed := true, everPassed := true,
       accepted := g.accepted + (if execution.code.Some? then {execution.code.value} else {}))
  }

  function AfterRejection(g: Gate, found: Files, execution: Execution, review: Review): Gate
  {
    var semantic := execution.success && review.feedback && g.editing;
    g.(work := Restored(found, g.backups, execution.produced), passed := false,
       noOps := g.noOps + (if semantic && review.change.NoOp? then 1 else 0),
       violations := g.violations + (if semantic && review.change.Violation? then 1 else 0))
  }

  function After(g: Gate, e: Event): Gate
  {
    match e
    case Turn(found, execution, review) =>
      if execution.produced == {} then
        g.(work := found, passed := g.everPassed,
           inspections := g.inspections + (if g.editing && execution.success then 1 else 0))
      else if Accepts(g, e) then AfterAcceptance(g, found, execution)
      else AfterRejection(g, found, execution, review)
    case BudgetReached => if g.everPassed then g.(budgetStop := true) else g
    case Message(text) =>
      g.(recoveries := g.recoveries + (if BelievesDone(g, text) && text.commentOnlyDone then 1 else 0))
  }

  ghost predicate IsHistory(states: seq<Gate>, events: seq<Event>)
  {
    && |states| == |events| + 1
    && forall i | 0 <= i < |events| :: states[i + 1] == After(states[i], events[i])
  }

  // -------------------------------------------------------- the operations

  class ValidationState {
    const editing: bool
    var work: Files
    var backups: Files
    var passed: bool
    var everPassed: bool
    var budgetStop: bool
    var accepted: set<Hash>
    var inspections: nat
    var noOps: nat
    var violations: nat
    var recoveries: nat

    function State(): Gate
      reads this
    {
      Gate(editing, work, backups, passed, everPassed, budgetStop, accepted, inspections, noOps, violations, recoveries)
    }

    constructor (editing: bool, work: Files, backups: Files)
      ensures State() == Fresh(editing, work, backups)
    {
      this.editing, this.work, this.backups := editing, work, backups;
      passed, everPassed, budgetStop, accepted := false, false, false, {};
      inspections, noOps, violations, recoveries := 0, 0, 0, 0;
    }

    /** Reviews what the last execution of a turn left in the work directory. */
    method ReviewTurn(found: Files, execution: Execution, review: Review)
      modifies this
      ensures State() == After(old(State()), Turn(found, execution, review))
      ensures execution.produced == {} ==> passed == old(everPassed) && work == found
      ensures execution.produced == {} ==> backups == old(backups) && accepted == old(accepted)
      ensures execution.produced != {} ==>
        (passed <==> && execution.success && review.feedback && (editing ==> review.change.Changed?)
                     && review.evidence)
      ensures execution.produced != {} && passed ==> everPassed && work == found
      ensures execution.produced != {} && passed ==>
        forall h :: h in accepted <==> h in old(accepted) || execution.code == Some(h)
      ensures execution.produced != {} && passed ==> forall n ::
        Lookup(backups, n) == if n in execution.produced && n in found then Some(found[n]) else Lookup(old(backups), n)
      ensures execution.produced != {} && !passed ==>
        everPassed == old(everPassed) && backups == old(backups) && accepted == old(accepted)
      ensures execution.produced != {} && !passed ==> forall n ::
        Lookup(work, n) == if n in execution.produced then Lookup(old(backups), n) else Lookup(found, n)
    {
      hide BackedUp, Restored;
      work := found;
      if execution.produced == {} {
        if editing && execution.success {
          inspections := inspections + 1;
        }
        passed := everPassed;
        return;
      }
      var geometryPassed := execution.success && review.feedback;
      var changePassed := true;
      if geometryPassed && editing {
        changePassed := review.change.Changed?;
      }
      passed := geometryPassed && changePassed && review.evidence;
      if passed {
        everPassed := true;
        if execution.code.Some? {
          accepted := accepted + {execution.code.value};
        }
        BackUp(execution.produced);
      } else {
        Restore(execution.produced);
        if geometryPassed && !changePassed {
          if review.change.NoOp? {
            noOps := noOps + 1;
          } else {
            violations := violations + 1;
          }
        }
      }
    }

    method BackUp(produced: set<Name>)
      modifies this`backups
      ensures backups == BackedUp(old(backups), work, produced)
      ensures forall n ::
        Lookup(backups, n) == if n in produced && n in work then Some(work[n]) else Lookup(old(backups), n)
    {
      hide BackedUp;
      var rest := produced;
      while rest != {}
        invariant rest <= produced
        invariant forall n ::
          Lookup(backups, n) == if n in produced - rest && n in work then Some(work[n]) else Lookup(old(backups), n)
        decreases |rest|
      {
        var name :| name in rest;
        if name in work {
          backups := backups[name := work[name]];
        }
        rest := rest - {name};
      }
      BackedUpIs(old(backups), work, produced, backups);
    }

    method Restore(produced: set<Name>)
      modifies this`work
      ensures work == Restored(old(work), backups, produced)
      ensures forall n :: Lookup(work, n) == if n in produced then Lookup(backups, n) else Lookup(old(work), n)
    {
      hide Restored;
      var rest := produced;
      while rest != {}
        invariant rest <= produced
        invariant forall n ::
          Lookup(work, n) == if n in produced - rest then Lookup(backups, n) else Lookup(old(work), n)
        decreases |rest|
      {
        var name :| name in rest;
        if name in backups {
          work := work[name := backups[name]];
        } else if name in work {
          work := work - {name};
        }
        rest := rest - {name};
      }
      RestoredIs(old(work), backups, produced, work);
    }

    method StopOnBudget()
      modifies this
      ensures State() == After(old(State()), BudgetReached)
      ensures budgetStop == (old(budgetStop) || old(everPassed))
    {
      if everPassed {
        budgetStop := true;
      }
    }

    method HasDoneSignal(text: Text) returns (believed: bool)
      modifies this
      ensures believed == BelievesDone(old(State()), text)
      ensures State() == After(old(State()), Message(text))
      ensures believed <==>
        && (if text.hasCode then text.commentOnlyDone else text.strictDone || text.commentOnlyDone)
        && (old(passed) || old(budgetStop))
    {
      if !text.strictDone && !text.commentOnlyDone {
        return false;
      }
      if text.hasCode && !text.commentOnlyDone {
        return false;
      }
      believed := passed || budgetStop;
      if believed && text.commentOnlyDone {
        recoveries := recoveries + 1;
      }
    }
  }

  // ------------------------------------------------------------ agreement

  function Lookup(files: Files, n: Name): Option<Content>
  {
    if n in files then Some(files[n]) else None
  }

  /** Every working candidate equals its last accepted backup, or both are absent. */
  predicate Agrees(g: Gate)
  {
    g.work == g.backups
  }

  /** A turn leaves a candidate its last execution does not report as the previous gate left it, and an
      accepted turn does not report a missing candidate that has an older backup. */
  ghost predicate NameBehaves(g: Gate, e: Event, n: Name)
    requires e.Turn?
  {
    if n !in e.execution.produced then Lookup(e.found, n) == Lookup(g.work, n)
    else Clears(g.editing, e) && n in g.backups ==> n in e.found
  }

  ghost predicate Behaves(g: Gate, e: Event)
  {
    e.Turn? ==> forall n :: NameBehaves(g, e, n)
  }

  lemma BackedUpLookup(backups: Files, work: Files, produced: set<Name>, n: Name)
    ensures Lookup(BackedUp(backups, work, produced), n) ==
            if n in produced && n in work then Some(work[n]) else Lookup(backups, n)
  {
  }

  lemma RestoredLookup(work: Files, backups: Files, produced: set<Name>, n: Name)
    ensures Lookup(Restored(work, backups, produced), n) ==
            if n in produced then Lookup(backups, n) else Lookup(work, n)
  {
  }

  lemma SameLookups(a: Files, b: Files)
    requires forall n :: Lookup(a, n) == Lookup(b, n)
    ensures a == b
  {
    forall n ensures n in a <==> n in b { assert Lookup(a, n) == Lookup(b, n); }
    forall n | n in a ensures a[n] == b[n] { assert Lookup(a, n) == Lookup(b, n); }
  }

  lemma BackedUpIs(backups: Files, work: Files, produced: set<Name>, files: Files)
    requires forall n :: Lookup(files, n) == if n in produced && n in work then Some(work[n]) else Lookup(backups, n)
    ensures files == BackedUp(backups, work, produced)
  {
    forall n ensures Lookup(files, n) == Lookup(BackedUp(backups, work, produced), n)
    {
      BackedUpLookup(backups, work, produced, n);
    }
    hide BackedUp;
    SameLookups(files, BackedUp(backups, work, produced));
  }

  lemma RestoredIs(work: Files, backups: Files, produced: set<Name>, files: Files)
    requires forall n :: Lookup(files, n) == if n in produced then Lookup(backups, n) else Lookup(work, n)
    ensures files == Restored(work, backups, produced)
  {
    forall n ensures Lookup(files, n) == Lookup(Restored(work, backups, produced), n)
    {
      RestoredLookup(work, backups, produced, n);
    }
    hide Restored;
    SameLookups(files, Restored(work, backups, produced));
  }

  lemma LookupAfterTurn(g: Gate, e: Event, n: Name)
    requires e.Turn?
    ensures Accepts(g, e) || Rejects(g, e) || e.execution.produced == {}
    ensures Lookup(After(g, e).work, n) ==
            if Rejects(g, e) && n in e.execution.produced then Lookup(g.backups, n) else Lookup(e.found, n)
    ensures Lookup(After(g, e).backups, n) ==
            if Accepts(g, e) && n in e.execution.produced && n in e.found then Some(e.found[n])
            else Lookup(g.backups, n)
  {
    if Accepts(g, e) {
      BackedUpLookup(g.backups, e.found, e.execution.produced, n);
    } else if Rejects(g, e) {
      RestoredLookup(e.found, g.backups, e.execution.produced, n);
    }
  }

  /** From agreement, a turn ends in agreement exactly when it behaves. */
  lemma AgreesIffBehaves(g: Gate, e: Event)
    requires Agrees(g)
    ensures Agrees(After(g, e)) <==> Behaves(g, e)
  {
    if e.Turn? {
      forall n ensures NameBehaves(g, e, n) <==> Lookup(After(g, e).work, n) == Lookup(After(g, e).backups, n)
      {
        LookupAfterTurn(g, e, n);
      }
      hide After, NameBehaves;
      if Behaves(g, e) {
        SameLookups(After(g, e).work, After(g, e).backups);
      }
    }
  }

  /** Working candidates equal their last accepted backups at every point of a run exactly when they do
      at its start and every turn behaves. */
  lemma {:induction false} AlwaysAgreesIffAllBehave(states: seq<Gate>, events: seq<Event>)
    requires IsHistory(states, events)
    ensures (forall i | 0 <= i < |states| :: Agrees(states[i]))
            <==> Agrees(states[0]) && forall i | 0 <= i < |events| :: Behaves(states[i], events[i])
  {
    if forall i | 0 <= i < |states| :: Agrees(states[i]) {
      forall i | 0 <= i < |events| ensures Behaves(states[i], events[i])
      {
        AgreesIffBehaves(states[i], events[i]);
        assert states[i + 1] == After(states[i], events[i]);
      }
    } else if Agrees(states[0]) && forall i | 0 <= i < |events| :: Behaves(states[i], events[i]) {
      forall i | 0 <= i < |states| ensures Agrees(states[i])
      {
        AgreesWhileBehaving(states, events, i);
      }
    }
  }

  lemma {:induction false} AgreesWhileBehaving(states: seq<Gate>, events: seq<Event>, i: nat)
    requires IsHistory(states, events) && i < |states| && Agrees(states[0])
    requires forall k | 0 <= k < |events| :: Behaves(states[k], events[k])
    ensures Agrees(states[i])
  {
    if i > 0 {
      AgreesWhileBehaving(states, events, i - 1);
      AgreesIffBehaves(states[i - 1], events[i - 1]);
      assert states[i - 1 + 1] == After(states[i - 1], events[i - 1]);
    }
  }

  // ------------------------------------------------------------ provenance

  /** The turn clears with a candidate of this name and this content. */
  ghost predicate AcceptedAs(g: Gate, e: Event, n: Name, content: Content)
  {
    Clears(g.editing, e) && n in e.execution.produced && Lookup(e.found, n) == Some(content)
  }

  /** A turn is accepted with content 1, and the next one writes content 2 without reporting it: the gate
      looks at nothing, and a claim to be done is believed while the work directory holds what no turn was
      accepted with. */
  lemma UnreportedChangeIsBelieved() returns (states: seq<Gate>, events: seq<Event>)
    ensures IsHistory(states, events) && |events| == 2 && states[0] == Fresh(false, map[], map[])
    ensures Agrees(states[1]) && !Agrees(states[2]) && states[2].work == map[OutputStep := 2]
    ensures BelievesDone(states[2], Text.Text(true, false, false))
    ensures forall j | 0 <= j < 2 :: !AcceptedAs(states[j], events[j], OutputStep, 2)
  {
    var review := Review(true, Changed, true);
    var first := Turn(map[OutputStep := 1], Execution(true, {OutputStep}, Some(7)), review);
    var second := Turn(map[OutputStep := 2], Execution(true, {}, Some(8)), review);
    var g := Fresh(false, map[], map[]);
    assert OutputStep in first.execution.produced;
    states, events := [g, After(g, first), After(After(g, first), second)], [first, second];
    assert states[1].backups == map[OutputStep := 1];
    assert states[2].work[OutputStep] != states[2].backups[OutputStep];
  }

  /** The flags say exactly whether some earlier turn was accepted, and a believed done signal or a
      synthesized stop is possible only then. */
  lemma {:induction false} FlagsMeanAccepted(states: seq<Gate>, events: seq<Event>, i: nat)
    requires IsHistory(states, events) && i < |states|
    requires states[0] == Fresh(states[0].editing, states[0].work, states[0].backups)
    ensures states[i].everPassed <==> exists j :: 0 <= j < i && Clears(states[j].editing, events[j])
    ensures states[i].passed ==> states[i].everPassed
    ensures states[i].budgetStop ==> states[i].everPassed
  {
    hide After, Clears;
    if i > 0 {
      FlagsMeanAccepted(states, events, i - 1);
      assert states[i - 1 + 1] == After(states[i - 1], events[i - 1]);
      FlagStep(states[i - 1], events[i - 1]);
    }
  }

  lemma FlagStep(g: Gate, e: Event)
    ensures After(g, e).everPassed <==> g.everPassed || Clears(g.editing, e)
    ensures After(g, e).passed ==> After(g, e).everPassed || g.passed
    ensures After(g, e).budgetStop ==> g.budgetStop || g.everPassed
  {
  }

  /** The hashes believed later are exactly those of the programs of accepted turns. */
  lemma {:induction false} AcceptedHashes(states: seq<Gate>, events: seq<Event>, i: nat, h: Hash)
    requires IsHistory(states, events) && i < |states|
    requires states[0] == Fresh(states[0].editing, states[0].work, states[0].backups)
    ensures h in states[i].accepted
            <==> exists j :: 0 <= j < i && Clears(states[j].editing, events[j])
                             && events[j].execution.code == Some(h)
  {
    hide After, Clears;
    if i > 0 {
      AcceptedHashes(states, events, i - 1, h);
      assert states[i - 1 + 1] == After(states[i - 1], events[i - 1]);
      HashStep(states[i - 1], events[i - 1]);
    }
  }

  lemma HashStep(g: Gate, e: Event)
    ensures forall h :: h in After(g, e).accepted <==>
                        h in g.accepted || (Clears(g.editing, e) && e.execution.code == Some(h))
  {
  }

  /** A backup is the content of the newest accepted turn that produced the name, or the initial one. */
  lemma {:induction false} BackupIsNewestAccepted(states: seq<Gate>, events: seq<Event>, i: nat, n: Name)
    returns (j: int)
    requires IsHistory(states, events) && i < |states|
    ensures -1 <= j < i
    ensures forall k, c | j < k < i :: !AcceptedAs(states[k], events[k], n, c)
    ensures j == -1 ==> Lookup(states[i].backups, n) == Lookup(states[0].backups, n)
    ensures j >= 0 ==> n in states[i].backups && AcceptedAs(states[j], events[j], n, states[i].backups[n])
  {
    if i == 0 {
      j := -1;
    } else {
      var g, e := states[i - 1], events[i - 1];
      assert states[i - 1 + 1] == After(g, e);
      j := BackupIsNewestAccepted(states, events, i - 1, n);
      if e.Turn? {
        LookupAfterTurn(g, e, n);
        AcceptsIffClears(g, e);
        if Accepts(g, e) && n in e.execution.produced && n in e.found {
          assert AcceptedAs(g, e, n, e.found[n]);
          j := i - 1;
        }
      }
      hide After, Accepts, Clears;
    }
  }

  /** An accepted turn leaves at least one candidate it reports. */
  ghost predicate Delivers(g: Gate, e: Event)
  {
    Clears(g.editing, e) ==> exists n :: n in e.execution.produced && n in e.found
  }

  lemma {:induction false} BackupsStay(states: seq<Gate>, events: seq<Event>, j: nat, i: nat, n: Name)
    requires IsHistory(states, events) && j <= i < |states| && n in states[j].backups
    ensures n in states[i].backups
  {
    if j < i {
      BackupsStay(states, events, j, i - 1, n);
      assert states[i - 1 + 1] == After(states[i - 1], events[i - 1]);
      if events[i - 1].Turn? {
        LookupAfterTurn(states[i - 1], events[i - 1], n);
      }
    }
  }

  /** The newest turn before i that was accepted with a candidate of this name left this content. */
  ghost predicate IsNewestAccepted(states: seq<Gate>, events: seq<Event>, i: nat, n: Name, content: Content)
    requires i <= |events| <= |states|
  {
    exists j :: 0 <= j < i && AcceptedAs(states[j], events[j], n, content)
                && forall k, c | j < k < i :: !AcceptedAs(states[k], events[k], n, c)
  }

  /** Whenever a done signal is believed, the work directory holds a candidate, and every candidate in it
      is the newest accepted one of its name: no earlier failure or later rejected program shows. */
  lemma DoneMeansAcceptedCandidate(states: seq<Gate>, events: seq<Event>, i: nat)
    requires IsHistory(states, events) && i < |events|
    requires states[0] == Fresh(states[0].editing, map[], map[])
    requires forall k | 0 <= k < |events| :: Behaves(states[k], events[k]) && Delivers(states[k], events[k])
    requires events[i].Message? && BelievesDone(states[i], events[i].text)
    ensures states[i].work != map[]
    ensures forall n | n in states[i].work :: IsNewestAccepted(states, events, i, n, states[i].work[n])
  {
    AgreesWhileBehaving(states, events, i);
    FlagsMeanAccepted(states, events, i);
    var j :| 0 <= j < i && Clears(states[j].editing, events[j]);
    AcceptsIffClears(states[j], events[j]);
    var n :| n in events[j].execution.produced && n in events[j].found;
    LookupAfterTurn(states[j], events[j], n);
    assert states[j + 1] == After(states[j], events[j]);
    BackupsStay(states, events, j + 1, i, n);
    hide After, Accepts, Clears;
    forall n | n in states[i].work
      ensures IsNewestAccepted(states, events, i, n, states[i].work[n])
    {
      var j := BackupIsNewestAccepted(states, events, i, n);
    }
  }

  // ----------------------------------------------------- inspection budget

  /** An editing turn that ran but produced no candidate. */
  predicate OnlyInspects(g: Gate, e: Event)
  {
    e.Turn? && g.editing && e.execution.success && e.execution.produced == {}
  }

  /** The client asks for no turn once four turns were spent on inspection and nothing was accepted. When no
      turn follows, a run without an accepted candidate spends at most four turns on inspection alone. */
  lemma {:induction false} InspectionIsBounded(states: seq<Gate>, events: seq<Event>, i: nat)
    requires IsHistory(states, events) && i < |states|
    requires states[0] == Fresh(states[0].editing, states[0].work, states[0].backups)
    requires forall k | 0 <= k < |events| && events[k].Turn? :: states[k].inspections < 4 || states[k].everPassed
    ensures states[i].everPassed || states[i].inspections <= 4
  {
    if i > 0 {
      InspectionIsBounded(states, events, i - 1);
      assert states[i - 1 + 1] == After(states[i - 1], events[i - 1]);
    }
  }

  // --------------------------------------------------------------- counters

  /** How many of the first n events satisfy p in the state they meet. */
  function CountWhere(p: (Gate, Event) -> bool, states: seq<Gate>, events: seq<Event>, n: nat): nat
    requires n <= |events| <= |states|
  {
    if n == 0 then 0
    else CountWhere(p, states, events, n - 1) + (if p(states[n - 1], events[n - 1]) then 1 else 0)
  }

  /** A rejected edit whose geometry passed, because of how it changed the part. */
  predicate RejectedFor(g: Gate, e: Event, change: Change)
  {
    && e.Turn? && e.execution.produced != {} && g.editing
    && e.execution.success && e.review.feedback && e.review.change == change
  }

  /** A done signal hidden in the comments of otherwise empty code is believed. */
  predicate RecoversDone(g: Gate, e: Event)
  {
    e.Message? && e.text.commentOnlyDone && (g.passed || g.budgetStop)
  }

  /** The reported counters count what their names say. */
  lemma {:induction false} CountersCount(states: seq<Gate>, events: seq<Event>, n: nat)
    requires IsHistory(states, events) && n <= |events|
    requires states[0] == Fresh(states[0].editing, states[0].work, states[0].backups)
    ensures states[n].inspections == CountWhere(OnlyInspects, states, events, n)
    ensures states[n].noOps == CountWhere((g, e) => RejectedFor(g, e, NoOp), states, events, n)
    ensures states[n].violations == CountWhere((g, e) => RejectedFor(g, e, Violation), states, events, n)
    ensures states[n].recoveries == CountWhere(RecoversDone, states, events, n)
  {
    if n > 0 {
      CountersCount(states, events, n - 1);
      assert states[n - 1 + 1] == After(states[n - 1], events[n - 1]);
      CounterStep(states[n - 1], events[n - 1]);
      hide After, OnlyInspects, RejectedFor, RecoversDone;
    }
  }

  lemma CounterStep(g: Gate, e: Event)
    ensures After(g, e).inspections == g.inspections + (if OnlyInspects(g, e) then 1 else 0)
    ensures After(g, e).noOps == g.noOps + (if RejectedFor(g, e, NoOp) then 1 else 0)
    ensures After(g, e).violations == g.violations + (if RejectedFor(g, e, Violation) then 1 else 0)
    ensures After(g, e).recoveries == g.recoveries + (if RecoversDone(g, e) then 1 else 0)
  {
  }
}
