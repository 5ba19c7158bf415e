/** The cross-process lock file: any number of processes taking its system calls one at a time, with
    a crash possible between any two, pids reused after a process ends, and files told apart from
    the path they are reached by. */
module ProcessLock {
  import opened Contracts

  type Pid = nat
  type FileId = nat

  /** A file is unreadable as JSON until its creator's pid is in it. */
  datatype Content = Unreadable | Owner(pid: Pid)

  /** Where a process is in the lock's code. */
  datatype PC =
    | Outside                         // alive, not using the lock; may create the file exclusively
    | Contending                      // the file existed; about to read it
    | Judging(file: FileId, owner: Pid, deadWhenRead: bool)  // read an owner; about to check that it is alive
    | Reclaiming(file: FileId)        // found the owner dead; about to unlink the path
    | Recreating                      // unlinked; about to create exclusively again
    | Created(file: FileId)           // owns a descriptor; pid not written yet
    | Body(file: FileId)              // pid written; inside the guarded body
    | Releasing(file: FileId)         // leaving; about to unlink the path
  {
    /** The file a process holds from its creation to its release. */
    function Held(): Option<FileId>
    {
      if Created? || Body? || Releasing? then Some(file) else None
    }
  }

  /** Running processes, the file at the path, and what is in every file ever created. */
  datatype State = State(running: map<Pid, PC>, path: Option<FileId>, contents: map<FileId, Content>)
  {
    function PcOf(p: Pid): PC
    {
      if p in running then running[p] else Outside
    }

    function MoveTo(p: Pid, pc: PC): State
    {
      this.(running := running[p := pc])
    }

    function ContentAtPath(): Content
    {
      if path.Some? && path.value in contents then contents[path.value] else Unreadable
    }
  }

  /** One system call of one process, or a process starting or ending (by crash or otherwise). */
  datatype Label =
    | Spawn(p: Pid) | End(p: Pid)
    | Create(p: Pid, file: FileId) | CreateRefused(p: Pid)
    | Read(p: Pid) | ReadRaises(p: Pid)
    | FoundAlive(p: Pid) | FoundDead(p: Pid)
    | Unlink(p: Pid) | UnlinkRaises(p: Pid)
    | WritePid(p: Pid) | WriteFails(p: Pid) | Leave(p: Pid) | Release(p: Pid)

  predicate Enabled(s: State, l: Label)
  {
    var pc := s.PcOf(l.p);
    if l.Spawn? then l.p !in s.running
    else
      && l.p in s.running
      && match l
         case Create(_, f) => (pc.Outside? || pc.Recreating?) && s.path.None? && f !in s.contents
         case CreateRefused(_) => (pc.Outside? || pc.Recreating?) && s.path.Some?
         case Read(_) => pc.Contending? && s.ContentAtPath().Owner?
         case ReadRaises(_) => pc.Contending? && s.ContentAtPath().Unreadable?
         case FoundAlive(_) => pc.Judging? && pc.owner in s.running
         case FoundDead(_) => pc.Judging? && pc.owner !in s.running
         case Unlink(_) => pc.Reclaiming? && s.path.Some?
         case UnlinkRaises(_) => pc.Reclaiming? && s.path.None?
         case WritePid(_) => pc.Created?
         case WriteFails(_) => pc.Created?
         case Leave(_) => pc.Body?
         case Release(_) => pc.Releasing?
         case _ => true
  }

  function Effect(s: State, l: Label): State
  {
    var pc := s.PcOf(l.p);
    match l
    case End(p) => s.(running := s.running - {p})
    case Create(p, f) => State(s.running[p := Created(f)], Some(f), s.contents[f := Unreadable])
    case CreateRefused(p) => s.MoveTo(p, if pc.Outside? then Contending else Outside)
    case Read(p) =>
      if s.path.Some? && s.ContentAtPath().Owner? then
        var q := s.ContentAtPath().pid;
        s.MoveTo(p, Judging(s.path.value, q, q !in s.running))
      else s
    case FoundDead(p) => if pc.Judging? then s.MoveTo(p, Reclaiming(pc.file)) else s
    case Unlink(p) => s.MoveTo(p, Recreating).(path := None)
    case WritePid(p) =>
      if pc.Created? then s.MoveTo(p, Body(pc.file)).(contents := s.contents[pc.file := Owner(p)]) else s
    case WriteFails(p) => if pc.Created? then s.MoveTo(p, Releasing(pc.file)) else s
    case Leave(p) => if pc.Body? then s.MoveTo(p, Releasing(pc.file)) else s
    // The closing unlink tolerates a missing file and takes whatever file is at the path.
    case Release(p) => s.MoveTo(p, Outside).(path := None)
    case _ => s.MoveTo(l.p, Outside)
  }

  predicate Step(s: State, l: Label, s': State)
  {
    Enabled(s, l) && s' == Effect(s, l)
  }

  predicate Holds(s: State, p: Pid)
  {
    p in s.running && s.running[p].Held().Some?
  }

  predicate IsAt(s: State, p: Pid, pc: PC)
  {
    p in s.running && s.running[p] == pc
  }

  const INITIAL := State(map[], None, map[])

  ghost predicate IsRun(states: seq<State>, labels: seq<Label>)
  {
    && |states| == |labels| + 1 && states[0] == INITIAL
    && forall i | 0 <= i < |labels| :: Step(states[i], labels[i], states[i + 1])
  }

  // ------------------------------------------------------------ properties

  /** Every running holder's own file is the one at the path. */
  ghost predicate HoldersPresent(s: State)
  {
    forall p: Pid | Holds(s, p) :: s.path == s.running[p].Held()
  }

  /** No two running processes hold the lock, let alone are in the body. */
  ghost predicate Exclusive(s: State)
  {
    forall p: Pid, q: Pid | Holds(s, p) && Holds(s, q) :: p == q
  }

  /** A reclaiming unlink that would take away a running holder's file. */
  ghost predicate StealsLiveFile(s: State, l: Label)
  {
    l.Unlink? && exists p: Pid :: Holds(s, p) && s.path == s.running[p].Held()
  }

  /** What a holder's file contains. */
  predicate OwnFile(s: State, p: Pid)
  {
    Holds(s, p) ==>
      var f := s.running[p].Held().value;
      && f in s.contents
      && match s.running[p]
         case Created(_) => s.contents[f].Unreadable?
         case Body(_) => s.contents[f] == Owner(p)
         case _ => s.contents[f] in {Unreadable, Owner(p)}
  }

  /** Held files exist, are held once, and contain nothing or their holder. */
  ghost predicate Consistent(s: State)
  {
    && (forall p: Pid | p in s.running :: OwnFile(s, p))
    && (forall p: Pid, q: Pid | Holds(s, p) && Holds(s, q) && s.running[p].Held() == s.running[q].Held() :: p == q)
    && (s.path.Some? ==> s.path.value in s.contents)
  }

  lemma OwnFileStep(s: State, l: Label, s': State, p: Pid)
    requires Consistent(s) && Step(s, l, s') && p in s'.running
    ensures OwnFile(s', p)
  {
    assert p in s.running ==> OwnFile(s, p);
  }

  lemma ConsistentStep(s: State, l: Label, s': State)
    requires Consistent(s) && Step(s, l, s')
    ensures Consistent(s')
  {
    forall p: Pid | p in s'.running ensures OwnFile(s', p)
    {
      OwnFileStep(s, l, s', p);
    }
  }

  lemma PresentStep(s: State, l: Label, s': State)
    requires Consistent(s) && HoldersPresent(s) && Step(s, l, s') && !StealsLiveFile(s, l)
    ensures HoldersPresent(s')
  {
  }

  lemma {:induction false} RunIsConsistent(states: seq<State>, labels: seq<Label>, i: nat)
    requires IsRun(states, labels) && i < |states|
    ensures Consistent(states[i])
  {
    if i > 0 {
      RunIsConsistent(states, labels, i - 1);
      ConsistentStep(states[i - 1], labels[i - 1], states[i - 1 + 1]);
    }
  }

  lemma StolenIsAbsent(s: State, l: Label, s': State)
    requires Step(s, l, s') && StealsLiveFile(s, l)
    ensures !HoldersPresent(s')
  {
    var p: Pid :| Holds(s, p) && s.path == s.running[p].Held();
    assert Holds(s', p);
  }

  lemma PresentMeansExclusive(s: State)
    requires Consistent(s) && HoldersPresent(s)
    ensures Exclusive(s)
  {
  }

  // --------------------------------------- what a contender knows it judged

  /** The file a contender read an owner from still names that owner, and once the owner was found dead
      nobody running holds that file, whoever reuses the pid. */
  predicate Judged(s: State, p: Pid)
    requires p in s.running
  {
    match s.running[p]
    case Judging(f, owner, _) => f in s.contents && s.contents[f] == Owner(owner)
    case Reclaiming(f) => f in s.contents && s.contents[f].Owner?
    case _ => true
  }

  ghost predicate JudgedUnheld(s: State)
  {
    && (forall p: Pid | p in s.running :: Judged(s, p))
    && (forall p: Pid, q: Pid | p in s.running && s.running[p].Reclaiming? && Holds(s, q) ::
          s.running[q].Held() != Some(s.running[p].file))
  }

  lemma JudgedKept(s: State, l: Label, s': State, p: Pid)
    requires Consistent(s) && JudgedUnheld(s) && Step(s, l, s') && p in s'.running
    ensures Judged(s', p)
  {
    assert p in s.running ==> Judged(s, p);
    assert l.p in s.running ==> OwnFile(s, l.p);
  }

  lemma OwnerOfHeldFile(s: State, q: Pid, f: FileId)
    requires Consistent(s) && Holds(s, q) && s.running[q].Held() == Some(f)
    ensures f in s.contents && (s.contents[f].Owner? ==> s.contents[f] == Owner(q))
  {
    assert OwnFile(s, q);
  }

  lemma UnheldKept(s: State, l: Label, s': State, p: Pid, q: Pid)
    requires Consistent(s) && JudgedUnheld(s) && Step(s, l, s')
    requires p in s'.running && s'.running[p].Reclaiming? && Holds(s', q)
    ensures s'.running[q].Held() != Some(s'.running[p].file)
  {
    assert p in s.running && Judged(s, p);
    if Holds(s, q) {
      OwnerOfHeldFile(s, q, s.running[q].Held().value);
    }
    hide Consistent, OwnFile;
  }

  lemma JudgedUnheldStep(s: State, l: Label, s': State)
    requires Consistent(s) && JudgedUnheld(s) && Step(s, l, s')
    ensures JudgedUnheld(s')
  {
    forall p: Pid | p in s'.running ensures Judged(s', p)
    {
      JudgedKept(s, l, s', p);
    }
    forall p: Pid, q: Pid | p in s'.running && s'.running[p].Reclaiming? && Holds(s', q)
      ensures s'.running[q].Held() != Some(s'.running[p].file)
    {
      UnheldKept(s, l, s', p, q);
    }
  }

  lemma {:induction false} RunJudges(states: seq<State>, labels: seq<Label>, i: nat)
    requires IsRun(states, labels) && i < |states|
    ensures Consistent(states[i]) && JudgedUnheld(states[i])
  {
    hide Step, Consistent, JudgedUnheld;
    RunIsConsistent(states, labels, i);
    if i > 0 {
      RunJudges(states, labels, i - 1);
      JudgedUnheldStep(states[i - 1], labels[i - 1], states[i - 1 + 1]);
    } else {
      NobodyJudges();
    }
  }

  lemma NobodyJudges()
    ensures JudgedUnheld(INITIAL)
  {
  }

  // --------------------------------------------------- when exclusion holds

  /** A reclaiming unlink takes away the very file its process judged. */
  predicate HitsJudged(s: State, l: Label)
  {
    l.Unlink? && l.p in s.running && s.running[l.p].Reclaiming? ==> s.path == Some(s.running[l.p].file)
  }

  /** ... or happens while nobody holds the lock. */
  ghost predicate SafeUnlink(s: State, l: Label)
  {
    HitsJudged(s, l) || forall q: Pid :: !Holds(s, q)
  }

  ghost predicate AllHitJudged(states: seq<State>, labels: seq<Label>)
    requires |labels| <= |states|
  {
    forall i | 0 <= i < |labels| :: HitsJudged(states[i], labels[i])
  }

  lemma StealsIffUnsafe(s: State, l: Label, s': State)
    requires Consistent(s) && JudgedUnheld(s) && HoldersPresent(s) && Step(s, l, s')
    ensures StealsLiveFile(s, l) <==> !SafeUnlink(s, l)
  {
  }

  /** In every run, whatever crashes and however many contend, the lock is exclusive and each holder's own
      file at the path at every point, if and only if every reclaiming unlink either finds at the path the
      file its process judged or happens while the lock is free. */
  lemma ExclusionIffUnlinksSafe(states: seq<State>, labels: seq<Label>)
    requires IsRun(states, labels)
    ensures (forall i | 0 <= i < |states| :: Exclusive(states[i]) && HoldersPresent(states[i]))
            <==> forall i | 0 <= i < |labels| :: SafeUnlink(states[i], labels[i])
  {
    hide Step, Consistent, JudgedUnheld, HoldersPresent, SafeUnlink, StealsLiveFile, Exclusive;
    if forall i | 0 <= i < |states| :: Exclusive(states[i]) && HoldersPresent(states[i]) {
      forall i: nat | i < |labels| ensures SafeUnlink(states[i], labels[i])
      {
        RunJudges(states, labels, i);
        StealsIffUnsafe(states[i], labels[i], states[i + 1]);
        if StealsLiveFile(states[i], labels[i]) {
          StolenIsAbsent(states[i], labels[i], states[i + 1]);
        }
      }
    }
    if forall i | 0 <= i < |labels| :: SafeUnlink(states[i], labels[i]) {
      forall i: nat | i < |states| ensures Exclusive(states[i]) && HoldersPresent(states[i])
      {
        SafeMeansPresent(states, labels, i);
        RunIsConsistent(states, labels, i);
        PresentMeansExclusive(states[i]);
      }
    }
  }

  lemma {:induction false} SafeMeansPresent(states: seq<State>, labels: seq<Label>, i: nat)
    requires IsRun(states, labels) && i < |states|
    requires forall k | 0 <= k < |labels| :: SafeUnlink(states[k], labels[k])
    ensures HoldersPresent(states[i])
  {
    hide Step, Consistent, JudgedUnheld, HoldersPresent, SafeUnlink, StealsLiveFile;
    if i > 0 {
      SafeMeansPresent(states, labels, i - 1);
      RunJudges(states, labels, i - 1);
      StealsIffUnsafe(states[i - 1], labels[i - 1], states[i - 1 + 1]);
      PresentStep(states[i - 1], labels[i - 1], states[i - 1 + 1]);
    } else {
      NobodyHolds();
    }
  }

  lemma NobodyHolds()
    ensures HoldersPresent(INITIAL)
  {
  }

  /** In particular the lock is exclusive in every run in which each reclaiming unlink finds the file its
      process judged, with no bound on contenders. */
  lemma JudgedUnlinksExclude(states: seq<State>, labels: seq<Label>, i: nat)
    requires IsRun(states, labels) && AllHitJudged(states, labels) && i < |states|
    ensures Exclusive(states[i]) && HoldersPresent(states[i])
  {
    forall k | 0 <= k < |labels| ensures SafeUnlink(states[k], labels[k])
    {
      assert HitsJudged(states[k], labels[k]);
    }
    hide SafeUnlink, AllHitJudged, IsRun, Exclusive, HoldersPresent;
    ExclusionIffUnlinksSafe(states, labels);
  }

  /** An unsafe unlink does break exclusion, as soon as its process creates its own file. */
  lemma UnsafeUnlinkBreaksExclusion(states: seq<State>, labels: seq<Label>, p: Pid, f: FileId)
    returns (states': seq<State>, labels': seq<Label>)
    requires IsRun(states, labels) && Enabled(states[|labels|], Unlink(p)) && f !in states[|labels|].contents
    requires HoldersPresent(states[|labels|]) && !SafeUnlink(states[|labels|], Unlink(p))
    ensures IsRun(states', labels') && |labels'| == |labels| + 2
    ensures labels' == labels + [Unlink(p), Create(p, f)] && !Exclusive(states'[|labels'|])
  {
    var s := states[|labels|];
    var q: Pid :| Holds(s, q);
    var s1 := Effect(s, Unlink(p));
    var s2 := Effect(s1, Create(p, f));
    assert Step(s, Unlink(p), s1) && Step(s1, Create(p, f), s2);
    states', labels' := states + [s1, s2], labels + [Unlink(p), Create(p, f)];
    TwoMoreSteps(states, labels, Unlink(p), Create(p, f), s1, s2);
    assert Holds(s2, p) && Holds(s2, q) && p != q;
  }

  lemma TwoMoreSteps(states: seq<State>, labels: seq<Label>, l1: Label, l2: Label, s1: State, s2: State)
    requires IsRun(states, labels) && Step(states[|labels|], l1, s1) && Step(s1, l2, s2)
    ensures IsRun(states + [s1, s2], labels + [l1, l2])
  {
    hide Step;
  }

  // -------------------------------------------- a guard on contenders alone

  /** The window of a contender that read an owner that is dead and has not yet re-created the file. */
  predicate InWindow(s: State, p: Pid)
  {
    p in s.running
    && ((s.running[p].Judging? && s.running[p].deadWhenRead) || s.running[p].Reclaiming? || s.running[p].Recreating?)
  }

  /** At most one contender is in the window. */
  ghost predicate OneReclaimer(s: State)
  {
    forall p: Pid, q: Pid | InWindow(s, p) && InWindow(s, q) :: p == q
  }

  /** An owner read alive may end before it is checked, but then the file that was read is still there. */
  predicate StillThere(s: State, l: Label)
  {
    l.FoundDead? && l.p in s.running && s.running[l.p].Judging? && !s.running[l.p].deadWhenRead ==>
      s.path == Some(s.running[l.p].file)
  }

  ghost predicate Guarded(states: seq<State>, labels: seq<Label>)
    requires |labels| <= |states|
  {
    && (forall i | 0 <= i < |states| :: OneReclaimer(states[i]))
    && (forall i | 0 <= i < |labels| :: StillThere(states[i], labels[i]))
  }

  /** What a contender in the window judged is still at the path, and nobody running holds it. */
  ghost predicate JudgedStays(s: State)
  {
    forall p: Pid | InWindow(s, p) && !s.running[p].Recreating? ::
      s.path == Some(s.running[p].file) && forall q: Pid :: !Holds(s, q)
  }

  lemma OnlyCreatorsStartHolding(s: State, l: Label, s': State)
    requires Step(s, l, s') && !l.Create?
    ensures forall q: Pid | Holds(s', q) :: Holds(s, q)
  {
  }

  /** Entering the window means reading a dead owner, or finding one dead that was read alive; either way
      the file is at the path and nobody holds the lock. */
  lemma EntersWindow(s: State, l: Label, s': State)
    requires Consistent(s) && JudgedUnheld(s) && HoldersPresent(s) && Step(s, l, s')
    requires !InWindow(s, l.p) && InWindow(s', l.p) && StillThere(s, l)
    ensures s'.path == Some(s'.running[l.p].file) && forall q: Pid :: !Holds(s', q)
  {
    assert Judged(s, l.p);
    forall q: Pid ensures !Holds(s', q)
    {
      if Holds(s, q) {
        OwnerOfHeldFile(s, q, s.running[q].Held().value);
      }
      OnlyCreatorsStartHolding(s, l, s');
    }
  }

  lemma JudgedStep(s: State, l: Label, s': State)
    requires Consistent(s) && JudgedUnheld(s) && HoldersPresent(s) && JudgedStays(s) && Step(s, l, s')
    requires OneReclaimer(s) && StillThere(s, l)
    ensures JudgedStays(s')
  {
    forall p: Pid | InWindow(s', p) && !s'.running[p].Recreating?
      ensures s'.path == Some(s'.running[p].file) && forall q: Pid :: !Holds(s', q)
    {
      if InWindow(s, p) && !s.running[p].Recreating? {
        assert !Holds(s, l.p);
        assert InWindow(s, l.p) ==> l.p == p;
        OnlyCreatorsStartHolding(s, l, s');
      } else {
        assert p == l.p;
        EntersWindow(s, l, s');
      }
    }
  }

  lemma StayingHits(s: State, l: Label)
    requires JudgedStays(s)
    ensures HitsJudged(s, l)
  {
    assert l.Unlink? && l.p in s.running && s.running[l.p].Reclaiming? ==> InWindow(s, l.p);
  }

  lemma {:induction false} GuardedInvariant(states: seq<State>, labels: seq<Label>, i: nat)
    requires IsRun(states, labels) && Guarded(states, labels) && i < |states|
    ensures HoldersPresent(states[i]) && JudgedStays(states[i])
  {
    hide Step, Consistent, HoldersPresent, JudgedStays, JudgedUnheld, OneReclaimer, StillThere, StealsLiveFile,
         HitsJudged, SafeUnlink;
    if i > 0 {
      GuardedInvariant(states, labels, i - 1);
      var s, l, s' := states[i - 1], labels[i - 1], states[i];
      assert Step(states[i - 1], labels[i - 1], states[i - 1 + 1]);
      RunJudges(states, labels, i - 1);
      StayingHits(s, l);
      HittingIsSafe(s, l);
      StealsIffUnsafe(s, l, s');
      PresentStep(s, l, s');
      JudgedStep(s, l, s');
    } else {
      NobodyHolds();
      NobodyInWindow();
    }
  }

  lemma HittingIsSafe(s: State, l: Label)
    requires HitsJudged(s, l)
    ensures SafeUnlink(s, l)
  {
  }

  lemma NobodyInWindow()
    ensures JudgedStays(INITIAL)
  {
  }

  /** With at most one contender at a time between reading a dead owner and re-creating the file, and
      whatever process ends or crashes when, provided only that a file whose owner dies between read and
      check is still at the path, every reclaiming unlink finds the file it judged. So the lock is exclusive
      and each holder's file present at every point. */
  lemma GuardedExclusion(states: seq<State>, labels: seq<Label>, i: nat)
    requires IsRun(states, labels) && Guarded(states, labels) && i < |states|
    ensures AllHitJudged(states, labels) && Exclusive(states[i]) && HoldersPresent(states[i])
  {
    forall k: nat | k < |labels| ensures HitsJudged(states[k], labels[k])
    {
      GuardedInvariant(states, labels, k);
      StayingHits(states[k], labels[k]);
    }
    hide HitsJudged, IsRun, Guarded, Exclusive, HoldersPresent;
    JudgedUnlinksExclude(states, labels, i);
  }

  // ---------------------------------------------------- an abandoned lock

  /** An unreadable file at the path and no holder. */
  ghost predicate Abandoned(s: State, f: FileId)
  {
    s.path == Some(f) && f in s.contents && s.contents[f].Unreadable? && forall p: Pid :: !Holds(s, p)
  }

  /** Nothing but a reclaiming unlink ever opens an abandoned lock again. */
  lemma AbandonedStep(s: State, l: Label, s': State, f: FileId)
    requires Abandoned(s, f) && Step(s, l, s')
    ensures Abandoned(s', f) <==> !l.Unlink?
  {
    assert !Holds(s, l.p);
    if !l.Create? {
      OnlyCreatorsStartHolding(s, l, s');
    }
  }

  lemma CrashAbandons(s: State, l: Label, s': State, f: FileId)
    requires Consistent(s) && HoldersPresent(s) && IsAt(s, l.p, Created(f)) && l.End? && Step(s, l, s')
    ensures Abandoned(s', f)
  {
    assert Holds(s, l.p) && OwnFile(s, l.p);
    PresentMeansExclusive(s);
    OnlyCreatorsStartHolding(s, l, s');
  }

  /** A contender that judged some file did not judge an abandoned one: that has no readable owner. */
  lemma AbandonedIsNotHit(s: State, l: Label, f: FileId)
    requires Abandoned(s, f) && JudgedUnheld(s) && Enabled(s, l) && HitsJudged(s, l)
    ensures !l.Unlink?
  {
    assert l.p in s.running ==> Judged(s, l.p);
  }

  /** A creator that ends before its pid is written leaves the lock closed: as long as reclaiming unlinks
      find the file they judged, nobody ever holds the lock again and its file is never removed. */
  lemma {:induction false} ClosedForever(states: seq<State>, labels: seq<Label>, i: nat, j: nat, f: FileId)
    requires IsRun(states, labels) && AllHitJudged(states, labels)
    requires i < |labels| && labels[i].End? && IsAt(states[i], labels[i].p, Created(f)) && i < j < |states|
    ensures Abandoned(states[j], f)
  {
    hide Abandoned, JudgedUnheld, HitsJudged, Consistent, HoldersPresent, Enabled, Effect;
    if j == i + 1 {
      JudgedUnlinksExclude(states, labels, i);
      RunIsConsistent(states, labels, i);
      CrashAbandons(states[i], labels[i], states[i + 1], f);
    } else {
      ClosedForever(states, labels, i, j - 1, f);
      RunJudges(states, labels, j - 1);
      assert Step(states[j - 1], labels[j - 1], states[j - 1 + 1]);
      assert HitsJudged(states[j - 1], labels[j - 1]);
      AbandonedIsNotHit(states[j - 1], labels[j - 1], f);
      AbandonedStep(states[j - 1], labels[j - 1], states[j], f);
    }
  }

  /** The same with the guard on contenders. */
  lemma GuardedClosedForever(states: seq<State>, labels: seq<Label>, i: nat, j: nat, f: FileId)
    requires IsRun(states, labels) && Guarded(states, labels)
    requires i < |labels| && labels[i].End? && IsAt(states[i], labels[i].p, Created(f)) && i < j < |states|
    ensures Abandoned(states[j], f)
  {
    GuardedExclusion(states, labels, i);
    ClosedForever(states, labels, i, j, f);
  }

  // -------------------------------------------------- without the guard

  /** Nobody but w is in the window. */
  ghost predicate Alone(s: State, w: Pid)
  {
    forall q: Pid | InWindow(s, q) :: q == w
  }

  ghost predicate AllAlone(states: seq<State>, w: Pid)
  {
    forall i | 0 <= i < |states| :: Alone(states[i], w)
  }

  lemma Then(states: seq<State>, labels: seq<Label>, l: Label, s': State)
    returns (states': seq<State>, labels': seq<Label>)
    requires IsRun(states, labels) && Step(states[|labels|], l, s')
    ensures IsRun(states', labels') && |states'| > |labels'| > 0 && states'[|labels'|] == s'
    ensures forall w: Pid | AllAlone(states, w) && Alone(s', w) :: AllAlone(states', w)
  {
    hide Alone, Step;
    states', labels' := states + [s'], labels + [l];
  }

  lemma AloneAtEnd(states: seq<State>, labels: seq<Label>, w: Pid)
    requires IsRun(states, labels) && AllAlone(states, w)
    ensures Alone(states[|labels|], w)
  {
    hide Alone, Step;
  }

  /** A step of p that does not put it into the window leaves w alone there. */
  lemma StaysAlone(s: State, l: Label, w: Pid)
    requires Alone(s, w) && (InWindow(Effect(s, l), l.p) ==> l.p == w)
    ensures Alone(Effect(s, l), w)
  {
    forall q: Pid | InWindow(Effect(s, l), q) ensures q == w
    {
      if q != l.p {
        assert InWindow(s, q);
      }
    }
  }

  /** A process starts and takes a free lock. */
  lemma Acquires(states: seq<State>, labels: seq<Label>, p: Pid, f: FileId)
    returns (states': seq<State>, labels': seq<Label>)
    requires IsRun(states, labels)
    requires var s := states[|labels|]; p !in s.running && s.path.None? && f !in s.contents
    ensures IsRun(states', labels') && |states'| > |labels'| > 0
    ensures var s := states[|labels|];
            states'[|labels'|] == State(s.running[p := Body(f)], Some(f), s.contents[f := Owner(p)])
    ensures forall w: Pid | AllAlone(states, w) :: AllAlone(states', w)
  {
    hide IsRun, Alone, AllAlone;
    states', labels' := Does(states, labels, Spawn(p));
    states', labels' := Does(states', labels', Create(p, f));
    states', labels' := Does(states', labels', WritePid(p));
  }

  /** A process starts, is refused the file and reads its owner. */
  lemma Looks(states: seq<State>, labels: seq<Label>, p: Pid)
    returns (states': seq<State>, labels': seq<Label>)
    requires IsRun(states, labels)
    requires var s := states[|labels|];
             p !in s.running && s.path.Some? && s.ContentAtPath().Owner? && s.ContentAtPath().pid != p
    ensures IsRun(states', labels') && |states'| > |labels'| > 0
    ensures var s := states[|labels|]; var q := s.ContentAtPath().pid;
            states'[|labels'|] == s.MoveTo(p, Judging(s.path.value, q, q !in s.running))
    ensures forall w: Pid | AllAlone(states, w) && states[|labels|].ContentAtPath().pid in states[|labels|].running ::
              AllAlone(states', w)
  {
    hide IsRun, Alone, AllAlone;
    states', labels' := Does(states, labels, Spawn(p));
    states', labels' := Does(states', labels', CreateRefused(p));
    states', labels' := Does(states', labels', Read(p));
  }

  /** A contender that found the owner it read dead takes the lock over. */
  lemma Reclaims(states: seq<State>, labels: seq<Label>, p: Pid, f: FileId)
    returns (states': seq<State>, labels': seq<Label>)
    requires IsRun(states, labels)
    requires var s := states[|labels|]; s.PcOf(p).Reclaiming? && s.path.Some? && f !in s.contents
    ensures IsRun(states', labels') && |states'| > |labels'| > 0
    ensures var s := states[|labels|];
            states'[|labels'|] == State(s.running[p := Body(f)], Some(f), s.contents[f := Owner(p)])
    ensures AllAlone(states, p) ==> AllAlone(states', p)
  {
    hide IsRun, Alone, AllAlone;
    states', labels' := Does(states, labels, Unlink(p));
    states', labels' := Does(states', labels', Create(p, f));
    states', labels' := Does(states', labels', WritePid(p));
  }

  lemma Does(states: seq<State>, labels: seq<Label>, l: Label)
    returns (states': seq<State>, labels': seq<Label>)
    requires IsRun(states, labels) && Enabled(states[|labels|], l)
    ensures IsRun(states', labels') && |states'| > |labels'| > 0 && states'[|labels'|] == Effect(states[|labels|], l)
    ensures forall w: Pid | AllAlone(states, w) && (InWindow(Effect(states[|labels|], l), l.p) ==> l.p == w) ::
              AllAlone(states', w)
  {
    var s := states[|labels|];
    forall w: Pid | AllAlone(states, w) && (InWindow(Effect(s, l), l.p) ==> l.p == w) ensures Alone(Effect(s, l), w)
    {
      AloneAtEnd(states, labels, w);
      StaysAlone(s, l, w);
    }
    hide IsRun, Alone, AllAlone;
    states', labels' := Then(states, labels, l, Effect(s, l));
  }

  /** Two contenders that both find the same dead owner can both end up in the body. */
  lemma TwoReclaimersCanBothEnter() returns (states: seq<State>, labels: seq<Label>)
    ensures IsRun(states, labels)
    ensures var s := states[|labels|]; IsAt(s, 1, Body(1)) && IsAt(s, 2, Body(2)) && !Exclusive(s)
  {
    states, labels := [INITIAL], [];
    assert IsRun(states, labels);
    hide IsRun;
    states, labels := Acquires(states, labels, 0, 0);
    states, labels := Does(states, labels, End(0));
    states, labels := Looks(states, labels, 1);
    states, labels := Looks(states, labels, 2);
    states, labels := Does(states, labels, FoundDead(1));
    states, labels := Does(states, labels, FoundDead(2));
    states, labels := Reclaims(states, labels, 1, 1);
    states, labels := Reclaims(states, labels, 2, 2);
    assert Holds(states[|labels|], 1) && Holds(states[|labels|], 2);
  }

  lemma OwnerIsReadThenEnds() returns (states: seq<State>, labels: seq<Label>)
    ensures IsRun(states, labels) && AllAlone(states, 1)
    ensures states[|labels|] == State(map[1 := Judging(0, 0, false)], None, map[0 := Owner(0)])
  {
    states, labels := [INITIAL], [];
    assert IsRun(states, labels) && AllAlone(states, 1);
    hide IsRun, AllAlone;
    states, labels := Acquires(states, labels, 0, 0);
    states, labels := Looks(states, labels, 1);
    states, labels := Does(states, labels, Leave(0));
    states, labels := Does(states, labels, Release(0));
    states, labels := Does(states, labels, End(0));
  }

  /** One contender is enough when the owner it read alive has released and ended, and the lock has passed
      on, by the time it is checked: no two processes are ever in the window. */
  lemma OwnerEndingMeanwhileCanBreakExclusion() returns (states: seq<State>, labels: seq<Label>)
    ensures IsRun(states, labels) && forall i | 0 <= i < |states| :: OneReclaimer(states[i])
    ensures var s := states[|labels|]; IsAt(s, 1, Body(2)) && IsAt(s, 2, Body(1)) && !Exclusive(s)
  {
    hide IsRun, AllAlone;
    states, labels := OwnerIsReadThenEnds();
    states, labels := Acquires(states, labels, 2, 1);
    states, labels := Does(states, labels, FoundDead(1));
    states, labels := Reclaims(states, labels, 1, 2);
    assert Holds(states[|labels|], 1) && Holds(states[|labels|], 2);
    AloneIsOne(states, 1);
  }

  lemma AloneIsOne(states: seq<State>, w: Pid)
    requires AllAlone(states, w)
    ensures forall i | 0 <= i < |states| :: OneReclaimer(states[i])
  {
  }

  // ----------------------------------------------------- one process's moves

  /** Everything but this process's place, the path and the file it names is as it was. */
  ghost predicate OthersStay(s: State, s': State, p: Pid)
  {
    forall q: Pid | q != p ::
      (q in s'.running <==> q in s.running) && (q in s.running ==> s'.running[q] == s.running[q])
  }

  ghost predicate Same(s: State, s': State)
  {
    s'.path == s.path && s'.contents == s.contents
  }

  /** An exclusive creation: there was no file at the path, and now there is a new, empty one. */
  ghost predicate Makes(s: State, s': State, f: FileId)
  {
    s.path.None? && f !in s.contents && s'.path == Some(f) && s'.contents == s.contents[f := Unreadable]
  }

  /** What an alive process may do next from its place in the code, and what that does to path and files. */
  ghost predicate Moves(s: State, s': State, was: PC, now: PC, p: Pid)
  {
    match was
    case Outside =>
      || (now == Contending && s.path.Some? && Same(s, s'))
      || (now.Created? && Makes(s, s', now.file))
    case Contending =>
      && Same(s, s')
      && if s.path.Some? && s.path.value in s.contents && s.contents[s.path.value].Owner? then
           var q := s.contents[s.path.value].pid;
           now == Judging(s.path.value, q, q !in s.running)
         else now == Outside
    case Judging(f, q, _) => Same(s, s') && now == if q in s.running then Outside else Reclaiming(f)
    case Reclaiming(_) =>
      if s.path.Some? then now == Recreating && s'.path.None? && s'.contents == s.contents
      else now == Outside && Same(s, s')
    case Recreating =>
      || (now == Outside && s.path.Some? && Same(s, s'))
      || (now.Created? && Makes(s, s', now.file))
    case Created(f) =>
      || (now == Body(f) && s'.path == s.path && s'.contents == s.contents[f := Owner(p)])
      || (now == Releasing(f) && Same(s, s'))
    case Body(f) => now == Releasing(f) && Same(s, s')
    case Releasing(_) => now == Outside && s'.path.None? && s'.contents == s.contents
  }

  /** The call that takes a process from one place to another. */
  ghost function CallOf(p: Pid, was: PC, now: PC): Label
  {
    match was
    case Outside | Recreating => if now.Created? then Create(p, now.file) else CreateRefused(p)
    case Contending => if now.Judging? then Read(p) else ReadRaises(p)
    case Judging(_, _, _) => if now.Reclaiming? then FoundDead(p) else FoundAlive(p)
    case Reclaiming(_) => if now.Recreating? then Unlink(p) else UnlinkRaises(p)
    case Created(_) => if now.Body? then WritePid(p) else WriteFails(p)
    case Body(_) => Leave(p)
    case Releasing(_) => Release(p)
  }

  ghost predicate SomeStep(s: State, s': State, p: Pid)
  {
    exists l: Label :: l.p == p && Step(s, l, s')
  }

  ghost predicate Acts(s: State, s': State, p: Pid)
  {
    && OthersStay(s, s', p)
    && if p !in s.running then p in s'.running && s'.running[p] == Outside && Same(s, s')
       else if p !in s'.running then Same(s, s')
       else Moves(s, s', s.running[p], s'.running[p], p)
  }

  /** A process starts outside, ends anywhere, and otherwise goes through the lock's code in program order,
      each call taking effect exactly so; nothing else ever happens. */
  lemma StepMeaning(s: State, s': State, p: Pid)
    ensures SomeStep(s, s', p) <==> Acts(s, s', p)
  {
    if l: Label :| l.p == p && Step(s, l, s') {
      StepActs(s, l, s');
    }
    if Acts(s, s', p) {
      ActionSteps(s, s', p);
    }
    hide Step, Acts;
  }

  lemma StepActs(s: State, l: Label, s': State)
    requires Step(s, l, s')
    ensures Acts(s, s', l.p)
  {
  }

  lemma SameRunning(s: State, s': State, p: Pid)
    requires OthersStay(s, s', p)
    ensures p in s'.running ==> s'.running == s.running[p := s'.running[p]]
    ensures p !in s'.running ==> s'.running == s.running - {p}
  {
    assert forall q: Pid :: q in s'.running <==> (if q == p then p in s'.running else q in s.running);
  }

  lemma ActionSteps(s: State, s': State, p: Pid)
    requires Acts(s, s', p)
    ensures SomeStep(s, s', p)
  {
    SameRunning(s, s', p);
    hide OthersStay;
    if p !in s.running {
      assert Step(s, Spawn(p), s');
    } else if p !in s'.running {
      assert Step(s, End(p), s');
    } else {
      assert Step(s, CallOf(p, s.running[p], s'.running[p]), s');
    }
  }
}
