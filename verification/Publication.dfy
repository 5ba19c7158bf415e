/** What a saved run publishes: every saved turn is sanitized by the fate of its last producing
    execution, and the root candidate is taken from the newest turn that still has one. */
module Publication {
  import opened Contracts
  import opened CandidateGate

  /** A saved turn: its number and its executions in order. */
  datatype Record = Record(number: int, executions: seq<Execution>)

  /** One saved turn directory: candidates under their own names and under the two quarantine names. */
  datatype TurnDir = TurnDir(candidates: Files, rejectedFailed: Files, rejectedUnvalidated: Files)

  type Dirs = map<int, TurnDir>

  const NO_FILES := TurnDir(map[], map[], map[])

  function DirOf(dirs: Dirs, number: int): TurnDir
  {
    if number in dirs then dirs[number] else NO_FILES
  }

  /** Which programs count: all of them, or only those with an accepted hash. */
  datatype Policy = Policy(enforce: bool, accepted: set<Hash>)
  {
    predicate Trusts(e: Execution)
    {
      e.success && (!enforce || (e.code.Some? && e.code.value in accepted))
    }
  }

  /** The program ran, and when acceptance is enforced its text is one that was accepted. */
  ghost predicate Believed(policy: Policy, e: Execution)
  {
    e.success && (policy.enforce ==> exists h :: h in policy.accepted && e.code == Some(h))
  }

  lemma TrustsIffBelieved(policy: Policy, e: Execution)
    ensures policy.Trusts(e) <==> Believed(policy, e)
  {
  }

  datatype Fate = Keep | Failed | Unvalidated | Stale

  /** Execution k is the last one of the turn to report this name. */
  ghost predicate IsLastProducer(executions: seq<Execution>, n: Name, k: int)
  {
    0 <= k < |executions| && n in executions[k].produced
    && forall j | k < j < |executions| :: n !in executions[j].produced
  }

  ghost predicate Unproduced(executions: seq<Execution>, n: Name)
  {
    forall j | 0 <= j < |executions| :: n !in executions[j].produced
  }

  function FateOf(executions: seq<Execution>, n: Name, policy: Policy): (fate: Fate)
    ensures fate.Stale? <==> Unproduced(executions, n)
    ensures forall k | IsLastProducer(executions, n, k) ::
              && (fate.Failed? <==> !executions[k].success)
              && (fate.Keep? <==> policy.Trusts(executions[k]))
  {
    if executions == [] then Stale
    else
      var last := executions[|executions| - 1];
      if n in last.produced then
        (if !last.success then Failed else if policy.Trusts(last) then Keep else Unvalidated)
      else
        var fate := FateOf(executions[..|executions| - 1], n, policy);
        assert forall k | IsLastProducer(executions, n, k) :: IsLastProducer(executions[..|executions| - 1], n, k);
        fate
  }

  function Sanitized(dir: TurnDir, executions: seq<Execution>, policy: Policy): TurnDir
  {
    TurnDir(
      map n | n in dir.candidates && FateOf(executions, n, policy).Keep? :: dir.candidates[n],
      dir.rejectedFailed + (map n | n in dir.candidates && FateOf(executions, n, policy).Failed? :: dir.candidates[n]),
      dir.rejectedUnvalidated
      + (map n | n in dir.candidates && FateOf(executions, n, policy).Unvalidated? :: dir.candidates[n]))
  }

  function AllSanitized(dirs: Dirs, turns: seq<Record>, policy: Policy): Dirs
  {
    if turns == [] then dirs
    else
      var record := turns[|turns| - 1];
      var before := AllSanitized(dirs, turns[..|turns| - 1], policy);
      before[record.number := Sanitized(DirOf(before, record.number), record.executions, policy)]
  }

  /** A turn that still has a candidate under this name, with its content; STEP before STP. */
  ghost predicate Offers(dirs: Dirs, record: Record, n: Name, content: Content)
  {
    var candidates := DirOf(dirs, record.number).candidates;
    Lookup(candidates, n) == Some(content) && (n == OutputStp ==> OutputStep !in candidates)
  }

  ghost predicate OffersNothing(dirs: Dirs, record: Record)
  {
    DirOf(dirs, record.number).candidates == map[]
  }

  /** The root holds the offer of turn i, and no newer turn offers anything. */
  ghost predicate PublishedFrom(dirs: Dirs, turns: seq<Record>, root: Files, i: int)
  {
    && 0 <= i < |turns|
    && (exists n, content: Content :: Offers(dirs, turns[i], n, content) && root == map[n := content])
    && forall k | i < k < |turns| :: OffersNothing(dirs, turns[k])
  }

  /** The root holds the newest offer, and nothing exactly when no turn offers anything. */
  ghost predicate IsRoot(dirs: Dirs, turns: seq<Record>, root: Files)
  {
    && (root == map[] <==> forall k | 0 <= k < |turns| :: OffersNothing(dirs, turns[k]))
    && (root != map[] ==> exists i :: PublishedFrom(dirs, turns, root, i))
  }

  // ---------------------------------------------------------- the operation

  class SavedRun {
    var dirs: Dirs
    var root: Files

    constructor (dirs: Dirs, root: Files)
      ensures this.dirs == dirs && this.root == root
    {
      this.dirs, this.root := dirs, root;
    }

    method Sanitize(turns: seq<Record>, policy: Policy)
      modifies this
      ensures dirs == AllSanitized(old(dirs), turns, policy)
      ensures IsRoot(dirs, turns, root)
    {
      var i := 0;
      while i < |turns|
        invariant 0 <= i <= |turns|
        invariant dirs == AllSanitized(old(dirs), turns[..i], policy)
      {
        assert turns[..i + 1][..i] == turns[..i];
        SanitizeTurn(turns[i], policy);
        i := i + 1;
      }
      assert turns[..i] == turns;
      root := map[];
      Publish(turns);
    }

    /** Quarantines, removes or keeps each candidate of one turn. */
    method SanitizeTurn(record: Record, policy: Policy)
      modifies this`dirs
      ensures dirs == old(dirs)[record.number :=
                Sanitized(DirOf(old(dirs), record.number), record.executions, policy)]
    {
      var succeeded, accepted := LastProducers(record.executions, policy);
      var dir := DirOf(dirs, record.number);
      ghost var before := dir;
      dir := SettleCandidate(dir, OutputStep, At(succeeded, OutputStep), At(accepted, OutputStep));
      dir := SettleCandidate(dir, OutputStp, At(succeeded, OutputStp), At(accepted, OutputStp));
      SettledIsSanitized(before, record.executions, policy, succeeded, accepted);
      dirs := dirs[record.number := dir];
    }

    /** Copies the offer of the newest turn that has one. */
    method Publish(turns: seq<Record>)
      requires root == map[]
      modifies this`root
      ensures IsRoot(dirs, turns, root)
    {
      var i := |turns|;
      while i > 0
        invariant 0 <= i <= |turns| && root == map[]
        invariant forall k | i <= k < |turns| :: OffersNothing(dirs, turns[k])
      {
        i := i - 1;
        var candidates := DirOf(dirs, turns[i].number).candidates;
        if OutputStep in candidates {
          root := map[OutputStep := candidates[OutputStep]];
          assert OutputStep in root;
          assert Offers(dirs, turns[i], OutputStep, candidates[OutputStep]) && !OffersNothing(dirs, turns[i]);
          assert PublishedFrom(dirs, turns, root, i);
          return;
        }
        if OutputStp in candidates {
          root := map[OutputStp := candidates[OutputStp]];
          assert OutputStp in root;
          assert Offers(dirs, turns[i], OutputStp, candidates[OutputStp]) && !OffersNothing(dirs, turns[i]);
          assert PublishedFrom(dirs, turns, root, i);
          return;
        }
        forall n ensures n !in candidates
        {
          assert n == OutputStep || n == OutputStp;
        }
        assert OffersNothing(dirs, turns[i]);
      }
    }
  }

  function At<V>(m: map<Name, V>, n: Name): Option<V>
  {
    if n in m then Some(m[n]) else None
  }

  /** What the two tables say about a name with this fate. */
  ghost predicate Describes(fate: Fate, good: Option<bool>, trusted: Option<bool>)
  {
    match fate
    case Stale => good == None && trusted == None
    case Failed => good == Some(false) && trusted == Some(false)
    case Unvalidated => good == Some(true) && trusted == Some(false)
    case Keep => good == Some(true) && trusted == Some(true)
  }

  ghost predicate Tabulated(executions: seq<Execution>, policy: Policy, succeeded: map<Name, bool>,
                            accepted: map<Name, bool>, n: Name)
  {
    Describes(FateOf(executions, n, policy), At(succeeded, n), At(accepted, n))
  }

  /** For each name, whether its last producer succeeded and whether it is trusted. */
  method LastProducers(executions: seq<Execution>, policy: Policy)
    returns (succeeded: map<Name, bool>, accepted: map<Name, bool>)
    ensures forall n :: Tabulated(executions, policy, succeeded, accepted, n)
  {
    succeeded, accepted := map[], map[];
    for i := 0 to |executions|
      invariant forall n :: Tabulated(executions[..i], policy, succeeded, accepted, n)
    {
      ghost var s0, a0 := succeeded, accepted;
      succeeded := NoteProduced(executions[i].produced, executions[i].success, succeeded);
      accepted := NoteProduced(executions[i].produced, policy.Trusts(executions[i]), accepted);
      ghost var upTo := executions[..i + 1];
      assert upTo[..i] == executions[..i];
      forall n ensures Tabulated(upTo, policy, succeeded, accepted, n)
      {
        assert Tabulated(executions[..i], policy, s0, a0, n);
      }
    }
    assert executions[..|executions|] == executions;
  }

  method NoteProduced(produced: set<Name>, verdict: bool, table: map<Name, bool>) returns (noted: map<Name, bool>)
    ensures forall n :: At(noted, n) == if n in produced then Some(verdict) else At(table, n)
  {
    noted := table;
    var rest := produced;
    while rest != {}
      invariant rest <= produced
      invariant forall n :: At(noted, n) == if n in produced && n !in rest then Some(verdict) else At(table, n)
      decreases |rest|
    {
      var name :| name in rest;
      noted := noted[name := verdict];
      rest := rest - {name};
    }
  }

  /** Moves one candidate aside, removes it, or leaves it. */
  function SettleCandidate(dir: TurnDir, n: Name, good: Option<bool>, trusted: Option<bool>): TurnDir
  {
    if n !in dir.candidates then dir
    else
      var content, others := dir.candidates[n], dir.candidates - {n};
      if good == Some(false) then dir.(candidates := others, rejectedFailed := dir.rejectedFailed[n := content])
      else if trusted == Some(false) then
        dir.(candidates := others, rejectedUnvalidated := dir.rejectedUnvalidated[n := content])
      else if trusted == Some(true) then dir
      else dir.(candidates := others)
  }

  /** What each of the three name spaces of a turn directory holds under one name. */
  predicate HoldsAt(dir: TurnDir, n: Name, candidate: Option<Content>, failed: Option<Content>,
                    unvalidated: Option<Content>)
  {
    && At(dir.candidates, n) == candidate
    && At(dir.rejectedFailed, n) == failed
    && At(dir.rejectedUnvalidated, n) == unvalidated
  }

  predicate SameAt(a: TurnDir, b: TurnDir, n: Name)
  {
    HoldsAt(a, n, At(b.candidates, n), At(b.rejectedFailed, n), At(b.rejectedUnvalidated, n))
  }

  lemma SettleElsewhere(dir: TurnDir, n: Name, m: Name, good: Option<bool>, trusted: Option<bool>)
    ensures m != n ==> SameAt(SettleCandidate(dir, n, good, trusted), dir, m)
  {
  }

  lemma SettleAt(dir: TurnDir, executions: seq<Execution>, policy: Policy, n: Name, m: Name,
                 good: Option<bool>, trusted: Option<bool>)
    requires Describes(FateOf(executions, n, policy), good, trusted)
    ensures m != n ==> SameAt(SettleCandidate(dir, n, good, trusted), dir, m)
    ensures SameAt(SettleCandidate(dir, n, good, trusted), Sanitized(dir, executions, policy), n)
  {
    hide FateOf;
    SettleElsewhere(dir, n, m, good, trusted);
  }

  lemma SanitizedHolds(dir: TurnDir, executions: seq<Execution>, policy: Policy, n: Name)
    ensures var fate, candidate := FateOf(executions, n, policy), At(dir.candidates, n);
            HoldsAt(Sanitized(dir, executions, policy), n,
                    if fate.Keep? then candidate else None,
                    if fate.Failed? && candidate.Some? then candidate else At(dir.rejectedFailed, n),
                    if fate.Unvalidated? && candidate.Some? then candidate else At(dir.rejectedUnvalidated, n))
  {
    hide FateOf;
  }

  lemma SanitizedAt(a: TurnDir, b: TurnDir, executions: seq<Execution>, policy: Policy, n: Name)
    requires SameAt(a, b, n)
    ensures SameAt(Sanitized(a, executions, policy), Sanitized(b, executions, policy), n)
  {
    hide Sanitized, FateOf, At;
    SanitizedHolds(a, executions, policy, n);
    SanitizedHolds(b, executions, policy, n);
  }

  lemma SameEverywhere(a: TurnDir, b: TurnDir)
    requires forall n :: SameAt(a, b, n)
    ensures a == b
  {
    assert forall n | n in a.candidates || n in b.candidates :: SameAt(a, b, n);
    assert a.candidates == b.candidates;
    assert forall n | n in a.rejectedFailed || n in b.rejectedFailed :: SameAt(a, b, n);
    assert a.rejectedFailed == b.rejectedFailed;
    assert forall n | n in a.rejectedUnvalidated || n in b.rejectedUnvalidated :: SameAt(a, b, n);
    assert a.rejectedUnvalidated == b.rejectedUnvalidated;
  }

  lemma SettledIsSanitized(dir: TurnDir, executions: seq<Execution>, policy: Policy,
                           succeeded: map<Name, bool>, accepted: map<Name, bool>)
    requires forall n :: Tabulated(executions, policy, succeeded, accepted, n)
    ensures var first := SettleCandidate(dir, OutputStep, At(succeeded, OutputStep), At(accepted, OutputStep));
            SettleCandidate(first, OutputStp, At(succeeded, OutputStp), At(accepted, OutputStp))
            == Sanitized(dir, executions, policy)
  {
    assert Tabulated(executions, policy, succeeded, accepted, OutputStep);
    assert Tabulated(executions, policy, succeeded, accepted, OutputStp);
    hide SettleCandidate, Sanitized, SameAt, FateOf, At;
    var first := SettleCandidate(dir, OutputStep, At(succeeded, OutputStep), At(accepted, OutputStep));
    var second := SettleCandidate(first, OutputStp, At(succeeded, OutputStp), At(accepted, OutputStp));
    SettleAt(dir, executions, policy, OutputStep, OutputStep, At(succeeded, OutputStep), At(accepted, OutputStep));
    SettleAt(first, executions, policy, OutputStp, OutputStep, At(succeeded, OutputStp), At(accepted, OutputStp));
    SettleAt(dir, executions, policy, OutputStep, OutputStp, At(succeeded, OutputStep), At(accepted, OutputStep));
    SettleAt(first, executions, policy, OutputStp, OutputStp, At(succeeded, OutputStp), At(accepted, OutputStp));
    SanitizedAt(first, dir, executions, policy, OutputStp);
    SameAtComposes(second, first, Sanitized(dir, executions, policy), OutputStep);
    SameAtComposes(second, Sanitized(first, executions, policy), Sanitized(dir, executions, policy), OutputStp);
    forall n ensures SameAt(second, Sanitized(dir, executions, policy), n)
    {
      assert n == OutputStep || n == OutputStp;
    }
    SameEverywhere(second, Sanitized(dir, executions, policy));
  }

  lemma SameAtComposes(a: TurnDir, b: TurnDir, c: TurnDir, n: Name)
    requires SameAt(a, b, n) && SameAt(b, c, n)
    ensures SameAt(a, c, n)
  {
  }

  // ------------------------------------------------------------ properties

  ghost predicate DistinctNumbers(turns: seq<Record>)
  {
    forall i, j | 0 <= i < j < |turns| :: turns[i].number != turns[j].number
  }

  lemma {:induction false} EachTurnSanitizedOnce(dirs: Dirs, turns: seq<Record>, policy: Policy, number: int)
    requires DistinctNumbers(turns)
    ensures forall i | 0 <= i < |turns| && turns[i].number == number ::
              DirOf(AllSanitized(dirs, turns, policy), number)
              == Sanitized(DirOf(dirs, number), turns[i].executions, policy)
    ensures (forall i | 0 <= i < |turns| :: turns[i].number != number) ==>
              DirOf(AllSanitized(dirs, turns, policy), number) == DirOf(dirs, number)
  {
    hide Sanitized, FateOf;
    if turns != [] {
      var rest := turns[..|turns| - 1];
      EachTurnSanitizedOnce(dirs, rest, policy, number);
      assert forall i | 0 <= i < |rest| :: turns[i] == rest[i];
    }
  }

  /** The saved turn has a candidate whose last producer succeeded and is trusted. */
  ghost predicate Qualifies(dirs: Dirs, record: Record, n: Name, policy: Policy)
  {
    n in DirOf(dirs, record.number).candidates
    && exists k :: IsLastProducer(record.executions, n, k) && Believed(policy, record.executions[k])
  }

  lemma {:induction false} SomeLastProducer(executions: seq<Execution>, n: Name) returns (k: int)
    requires !Unproduced(executions, n)
    ensures IsLastProducer(executions, n, k)
  {
    k := |executions| - 1;
    while n !in executions[k].produced
      invariant 0 <= k < |executions|
      invariant forall j | k < j < |executions| :: n !in executions[j].produced
      invariant !Unproduced(executions, n)
      decreases k
    {
      k := k - 1;
    }
  }

  lemma KeptIffTrusted(executions: seq<Execution>, n: Name, policy: Policy)
    ensures FateOf(executions, n, policy).Keep?
            <==> exists k :: IsLastProducer(executions, n, k) && Believed(policy, executions[k])
  {
    if !Unproduced(executions, n) {
      var k := SomeLastProducer(executions, n);
      TrustsIffBelieved(policy, executions[k]);
    }
  }

  /** Sanitizing leaves under a candidate's own name exactly the qualifying candidates, untouched; one
      whose last producer failed or is not trusted survives only under its quarantine name. */
  lemma OnlyQualifyingRemain(dirs: Dirs, turns: seq<Record>, policy: Policy, i: nat, n: Name)
    requires DistinctNumbers(turns) && i < |turns|
    ensures var before := DirOf(dirs, turns[i].number);
            var after := DirOf(AllSanitized(dirs, turns, policy), turns[i].number);
            && At(after.candidates, n) ==
               (if Qualifies(dirs, turns[i], n, policy) then At(before.candidates, n) else None)
            && forall k | IsLastProducer(turns[i].executions, n, k) && n in before.candidates ::
                 && (!turns[i].executions[k].success ==> At(after.rejectedFailed, n) == At(before.candidates, n))
                 && (turns[i].executions[k].success && !Believed(policy, turns[i].executions[k]) ==>
                     At(after.rejectedUnvalidated, n) == At(before.candidates, n))
  {
    EachTurnSanitizedOnce(dirs, turns, policy, turns[i].number);
    KeptIffTrusted(turns[i].executions, n, policy);
    forall k | 0 <= k < |turns[i].executions|
      ensures policy.Trusts(turns[i].executions[k]) <==> Believed(policy, turns[i].executions[k])
    {
      TrustsIffBelieved(policy, turns[i].executions[k]);
    }
    hide AllSanitized, Believed;
  }

  /** Turn i has this candidate to offer before anything is sanitized. */
  ghost predicate Best(dirs: Dirs, turns: seq<Record>, policy: Policy, i: int, n: Name)
  {
    && 0 <= i < |turns| && Qualifies(dirs, turns[i], n, policy)
    && (n == OutputStp ==> !Qualifies(dirs, turns[i], OutputStep, policy))
    && forall j, m | i < j < |turns| :: !Qualifies(dirs, turns[j], m, policy)
  }

  lemma OffersNothingMeansNoneQualifies(dirs: Dirs, turns: seq<Record>, policy: Policy, i: nat)
    requires DistinctNumbers(turns) && i < |turns|
    ensures OffersNothing(AllSanitized(dirs, turns, policy), turns[i])
            <==> forall n :: !Qualifies(dirs, turns[i], n, policy)
  {
    var after := DirOf(AllSanitized(dirs, turns, policy), turns[i].number).candidates;
    forall n ensures n in after <==> Qualifies(dirs, turns[i], n, policy)
    {
      OnlyQualifyingRemain(dirs, turns, policy, i, n);
    }
    hide AllSanitized;
    if forall n :: !Qualifies(dirs, turns[i], n, policy) {
      assert forall n :: n !in after;
    }
  }

  /** The canonical artifact is the untouched candidate of the newest qualifying turn, STEP before STP,
      and nothing is published exactly when no turn qualifies. */
  lemma CanonicalIsNewestQualifying(dirs: Dirs, turns: seq<Record>, policy: Policy, root: Files)
    requires DistinctNumbers(turns) && IsRoot(AllSanitized(dirs, turns, policy), turns, root)
    ensures root == map[] <==> forall i, n | 0 <= i < |turns| :: !Qualifies(dirs, turns[i], n, policy)
    ensures root != map[] ==>
              exists i, n :: Best(dirs, turns, policy, i, n)
                             && root == map[n := DirOf(dirs, turns[i].number).candidates[n]]
  {
    var after := AllSanitized(dirs, turns, policy);
    forall i: nat | i < |turns|
      ensures OffersNothing(after, turns[i]) <==> forall n :: !Qualifies(dirs, turns[i], n, policy)
    {
      OffersNothingMeansNoneQualifies(dirs, turns, policy, i);
    }
    if root != map[] {
      var i: nat :| PublishedFrom(after, turns, root, i);
      var n, content: Content :| Offers(after, turns[i], n, content) && root == map[n := content];
      OnlyQualifyingRemain(dirs, turns, policy, i, n);
      OnlyQualifyingRemain(dirs, turns, policy, i, OutputStep);
      assert Best(dirs, turns, policy, i, n);
    }
  }

  // ------------------------------------------- together with the gate

  /** When acceptance is enforced with the gate's hashes, the program behind the canonical artifact is
      textually one that the gate accepted in some turn. */
  lemma PublishedProgramWasAccepted(states: seq<Gate>, events: seq<Event>, dirs: Dirs, turns: seq<Record>,
                                    policy: Policy, i: int, n: Name)
    requires IsHistory(states, events) && states[0] == Fresh(states[0].editing, states[0].work, states[0].backups)
    requires policy.enforce && policy.accepted == states[|events|].accepted
    requires Best(dirs, turns, policy, i, n)
    ensures exists k, j :: IsLastProducer(turns[i].executions, n, k) && 0 <= j < |events|
                           && Clears(states[j].editing, events[j]) && turns[i].executions[k].code.Some?
                           && events[j].execution.code == turns[i].executions[k].code
  {
    hide Clears;
    var k :| IsLastProducer(turns[i].executions, n, k) && Believed(policy, turns[i].executions[k]);
    AcceptedHashes(states, events, |events|, turns[i].executions[k].code.value);
  }

  /** When the saved turn holds the gate's work directory after some turn of a run that behaves, the
      canonical artifact is the very file the gate accepted last. */
  lemma PublishedContentWasAccepted(states: seq<Gate>, events: seq<Event>, g: nat, dirs: Dirs, turns: seq<Record>,
                                    policy: Policy, i: int, n: Name)
    requires IsHistory(states, events) && g < |states| && states[0] == Fresh(states[0].editing, map[], map[])
    requires forall k | 0 <= k < |events| :: Behaves(states[k], events[k])
    requires Best(dirs, turns, policy, i, n) && DirOf(dirs, turns[i].number).candidates == states[g].work
    ensures IsNewestAccepted(states, events, g, n, DirOf(dirs, turns[i].number).candidates[n])
  {
    hide AcceptedAs;
    AgreesWhileBehaving(states, events, g);
    var j := BackupIsNewestAccepted(states, events, g, n);
  }

  /** Whatever was saved and however turns behave: the content of the canonical artifact is the newest
      accepted one of its name, counting the turns so far, if and only if it equals the gate's backup of that
      name at that point. */
  lemma PublishedContentIsBackup(states: seq<Gate>, events: seq<Event>, g: nat, n: Name, content: Content)
    requires IsHistory(states, events) && g < |states| && states[0] == Fresh(states[0].editing, map[], map[])
    ensures IsNewestAccepted(states, events, g, n, content) <==> Lookup(states[g].backups, n) == Some(content)
  {
    hide AcceptedAs;
    var j := BackupIsNewestAccepted(states, events, g, n);
    if j >= 0 && IsNewestAccepted(states, events, g, n, content) {
      var k :| 0 <= k < g && AcceptedAs(states[k], events[k], n, content)
               && forall m, c | k < m < g :: !AcceptedAs(states[m], events[m], n, c);
      assert AcceptedAs(states[j], events[j], n, states[g].backups[n]);
      assert j == k;
      AcceptedOnce(states[j], events[j], n, content, states[g].backups[n]);
    }
  }

  lemma AcceptedOnce(g: Gate, e: Event, n: Name, a: Content, b: Content)
    requires AcceptedAs(g, e, n, a) && AcceptedAs(g, e, n, b)
    ensures a == b
  {
  }

  /** Trust by text is weaker: a turn that first runs an accepted program again, which now writes content 2,
      and then a program that reports nothing, is not looked at by the gate; saved as it stands, its file
      qualifies and is published although no turn was accepted with it. */
  lemma RerunTextIsPublished()
    returns (states: seq<Gate>, events: seq<Event>, dirs: Dirs, turns: seq<Record>, policy: Policy)
    ensures IsHistory(states, events) && |events| == 2 && states[0] == Fresh(false, map[], map[])
    ensures policy == Policy(true, states[2].accepted) && |turns| == 2 && DistinctNumbers(turns)
    ensures forall i | 0 <= i < 2 :: DirOf(dirs, turns[i].number).candidates == states[i + 1].work
    ensures Best(dirs, turns, policy, 1, OutputStep) && DirOf(dirs, turns[1].number).candidates == map[OutputStep := 2]
    ensures forall j | 0 <= j < 2 :: !AcceptedAs(states[j], events[j], OutputStep, 2)
  {
    var program, other := Execution(true, {OutputStep}, Some(7)), Execution(true, {}, Some(8));
    states, events := RerunHistory(program, other);
    dirs := map[1 := NO_FILES.(candidates := states[1].work), 2 := NO_FILES.(candidates := states[2].work)];
    turns := [Record(1, [program]), Record(2, [program, other])];
    policy := Policy(true, states[2].accepted);
    hide AcceptedAs, IsHistory;
    assert OutputStep in program.produced && IsLastProducer(turns[1].executions, OutputStep, 0);
    assert Believed(policy, turns[1].executions[0]);
    assert Qualifies(dirs, turns[1], OutputStep, policy);
  }

  lemma RerunHistory(program: Execution, other: Execution) returns (states: seq<Gate>, events: seq<Event>)
    requires program == Execution(true, {OutputStep}, Some(7)) && other == Execution(true, {}, Some(8))
    ensures IsHistory(states, events) && |events| == 2 && states[0] == Fresh(false, map[], map[])
    ensures states[1].work == map[OutputStep := 1] && states[2].work == map[OutputStep := 2]
    ensures states[2].accepted == {7}
    ensures forall j | 0 <= j < 2 :: !AcceptedAs(states[j], events[j], OutputStep, 2)
  {
    var review := Review(true, Changed, true);
    var first, second := Turn(map[OutputStep := 1], program, review), Turn(map[OutputStep := 2], other, review);
    var g := Fresh(false, map[], map[]);
    assert OutputStep in program.produced;
    states, events := [g, After(g, first), After(After(g, first), second)], [first, second];
  }
}
