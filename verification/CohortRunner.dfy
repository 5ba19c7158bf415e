/** One invocation of the cohort scheduler as it runs, step by step, against a state file and a
    publication directory. Every step it takes is a step of CohortProtocol, so what is proved about
    every run holds of it, and of every prefix of it followed by a crash; and with sessions that keep
    to the per-attempt cap every step is compliant, so the spending theorems hold of it as well. */
module CohortRunner {
  import opened Contracts
  import opened CohortLedger
  import opened CohortProtocol
  import opened CohortSafety
  import opened CohortTheorems
  import opened CohortBudget

  datatype Verdict = LaunchFailed | Unverified | SourceMissing | Verified(hash: string, readable: bool)

  /** What one provider session bills, what evidence it leaves, and how its candidate fares. */
  datatype Session = Session(bills: seq<nat>, usage: Usage, verdict: Verdict)

  /** Everything an invocation reads from outside. */
  datatype World = World(
    evidence: Evidence, stillValid: string -> bool, attemptId: string -> string, session: string -> Session)

  function Billed(bills: seq<nat>): nat
  {
    if bills == [] then 0 else Billed(bills[..|bills| - 1]) + bills[|bills| - 1]
  }

  /** A session that is billed at most the cap in all, and whose evidence, when found, states the bill. */
  ghost predicate GoodSession(c: Config, session: Session)
  {
    Billed(session.bills) <= c.tokensPerTask && Exact(session.usage, Billed(session.bills))
  }

  ghost predicate Honest(c: Config, w: World)
  {
    forall t | t in c.fixtures :: GoodSession(c, w.session(t))
  }

  datatype Outcome = Raised | Done(status: CohortStatus, completed: nat, failed: nat, pending: int, totalTokens: int)

  function CountStatus(names: seq<string>, tasks: map<string, Task>, status: TaskStatus): (n: nat)
    ensures n <= |names|
  {
    if names == [] then 0
    else CountStatus(names[..|names| - 1], tasks, status)
         + (if names[|names| - 1] in tasks && tasks[names[|names| - 1]].status == status then 1 else 0)
  }

  ghost function WithStatus(s: Cohort, status: TaskStatus): set<string>
  {
    set t | t in s.tasks && s.tasks[t].status == status
  }

  ghost function NamedWithStatus(names: seq<string>, s: Cohort, status: TaskStatus): set<string>
  {
    set t | t in names && t in s.tasks && s.tasks[t].status == status
  }

  lemma OneMoreName(names: seq<string>, t: string, s: Cohort, status: TaskStatus)
    requires t !in names
    ensures |NamedWithStatus(names + [t], s, status)|
         == |NamedWithStatus(names, s, status)| + if t in s.tasks && s.tasks[t].status == status then 1 else 0
  {
    if t in s.tasks && s.tasks[t].status == status {
      assert NamedWithStatus(names + [t], s, status) == NamedWithStatus(names, s, status) + {t};
    } else {
      assert NamedWithStatus(names + [t], s, status) == NamedWithStatus(names, s, status);
    }
  }

  lemma {:induction false} CountNamed(names: seq<string>, s: Cohort, status: TaskStatus)
    requires forall i, j | 0 <= i < j < |names| :: names[i] != names[j]
    ensures CountStatus(names, s.tasks, status) == |NamedWithStatus(names, s, status)|
  {
    if names == [] {
      assert NamedWithStatus(names, s, status) == {};
    } else {
      hide NamedWithStatus;
      var rest, last := names[..|names| - 1], names[|names| - 1];
      CountNamed(rest, s, status);
      OneMoreName(rest, last, s, status);
      assert names == rest + [last];
    }
  }

  /** Counting fixture by fixture counts tasks. */
  lemma CountIsCardinality(names: seq<string>, s: Cohort, status: TaskStatus)
    requires s.tasks.Keys == (set t | t in names) && forall i, j | 0 <= i < j < |names| :: names[i] != names[j]
    ensures CountStatus(names, s.tasks, status) == |WithStatus(s, status)|
  {
    CountNamed(names, s, status);
    assert NamedWithStatus(names, s, status) == WithStatus(s, status);
  }

  class Scheduler {
    const c: Config
    var durable: Cohort              // cohort.json
    var memory: Cohort               // the process's copy
    var attempted: set<string>
    var published: map<string, string>
    ghost var g: Global
    ghost var states: seq<Global>
    ghost var labels: seq<Label>

    /** The history is a run of the protocol from the initial state, and ends in the current state. */
    ghost predicate Valid()
      reads this
    {
      && c.Valid() && IsRun(c, states, labels) && states[0] == Initial(c) && states[|labels|] == g
      && Inv(c, g)
      && g.durable == durable && g.published == published
      && (g.memory.Some? ==> g.memory.value == memory && g.attempted == attempted)
    }

    /** The history since the old state was only extended. */
    twostate predicate Continues()
      reads this
    {
      old(labels) <= labels && old(states) <= states
    }

    /** The history is still that of a provider that keeps to the cap, if it was one. */
    twostate predicate StaysCompliant()
      reads this
    {
      old(CompliantRun(c, states, labels)) ==> CompliantRun(c, states, labels)
    }

    constructor (c: Config)
      requires c.Valid()
      ensures Valid() && this.c == c && g == Initial(c) && CompliantRun(c, states, labels)
    {
      hide InitialState, Inv;
      this.c := c;
      durable, memory, attempted, published := InitialState(c), InitialState(c), {}, map[];
      g, states, labels := Initial(c), [Initial(c)], [];
      new;
      InitialHolds(c);
    }

    /** Extend the history by one step of the protocol. */
    ghost method Take(l: Label, g': Global)
      requires c.Valid() && IsRun(c, states, labels) && states[0] == Initial(c) && states[|labels|] == g && Inv(c, g)
      requires Next(c, g, l, g')
      modifies this`g, this`states, this`labels
      ensures c.Valid() && IsRun(c, states, labels) && states[0] == Initial(c) && states[|labels|] == g && Inv(c, g)
      ensures g == g' && labels == old(labels) + [l] && states == old(states) + [g']
      ensures Compliant(c, old(g), l) ==> StaysCompliant()
    {
      hide Next, Inv, Compliant;
      StepKeepsInv(c, g, l, g');
      if CompliantRun(c, states, labels) && Compliant(c, g, l) {
        ExtendsCompliantRun(c, states, labels, l, g');
      }
      g, states, labels := g', states + [g'], labels + [l];
    }

    method StartUp(w: World)
      requires Valid() && g.pc.Idle?
      modifies this
      ensures Valid() && g.pc == At(0) && Continues() && StaysCompliant()
      ensures durable == Reconciled(c, old(durable), w.evidence).(status := CohortRunning)
    {
      hide Inv, Reconciled, IsRun, CompliantRun;
      assert durable.tasks.Keys == set t | t in c.fixtures by { LedgerKeys(c, g); }
      memory, attempted := Reconcile(c, durable, w.evidence);
      memory := memory.(status := CohortRunning);
      durable := memory;
      Take(Start(w.evidence), g.(durable := durable, memory := Some(memory), pc := At(0),
                                 attempted := attempted, launched := []));
    }

    /** Reserve in memory, then save: the reservation is durable before the provider is used. */
    method ReserveFor(t: string, id: string)
      requires Valid() && g.pc.At? && g.pc.i < |c.fixtures| && t == c.fixtures[g.pc.i] && t in memory.tasks
      requires memory.tasks[t].status != TaskCompleted && t !in attempted && ReserveRefused(c, memory).None?
      modifies this
      ensures Valid() && g.pc == Calling(old(g.pc.i)) && Continues()
      ensures durable == Reserved(c, old(memory), t, id) && attempted == old(attempted) + {t}
      ensures published == old(published)
      ensures StaysCompliant() && (old(CompliantRun(c, states, labels)) ==> UnbilledNewest(c, g))
    {
      hide Inv, Next, IsRun, Recalculated, ReserveRefused, Reserved, CompliantRun, UnbilledNewest;
      AtHasMemory(c, g);
      if CompliantRun(c, states, labels) {
        HistoryEnds(c, states, labels, g);
        SpendSafety(c, states, labels, |labels|);
        NewestIsUnbilled(c, g, t, id);
      }
      CanReserve(c, g, id);
      attempted := attempted + {t};
      var attempts := memory.tasks[t].attempts + [NewAttempt(c, id)];
      var edited := memory.(tasks := memory.tasks[t := memory.tasks[t].(status := TaskRunning, attempts := attempts)]);
      memory := Recalculate(c, edited);
      ReservedIs(c, old(memory), t, id);
      durable := memory;
      Take(Reserve(id), g.(durable := durable, memory := Some(memory), pc := Calling(g.pc.i),
                           attempted := attempted, launched := g.launched + [t]));
    }

    /** The provider session: bills against the running attempt, then evidence settles it in memory. */
    method CallProvider(t: string, session: Session)
      requires Valid() && g.pc.Calling? && g.pc.i < |c.fixtures| && t == c.fixtures[g.pc.i]
      modifies this
      ensures Valid() && g.pc == Judging(old(g.pc.i), session.usage) && Continues()
      ensures durable == old(durable) && attempted == old(attempted) && published == old(published)
      ensures GoodSession(c, session) && old(UnbilledNewest(c, g)) ==> StaysCompliant()
    {
      hide Inv, Next, IsRun, Recalculated, Settled, CompliantRun, Exact;
      CallingHasNewest(c, g);
      ghost var k := |memory.tasks[t].attempts| - 1;
      ghost var b := 0;
      while b < |session.bills|
        invariant 0 <= b <= |session.bills|
        invariant Valid() && g.pc == old(g.pc) && Continues()
        invariant durable == old(durable) && memory == old(memory) && attempted == old(attempted)
        invariant published == old(published)
        invariant g.memory == Some(memory)
        invariant Spent(g, t, k) == old(Spent(g, t, k)) + Billed(session.bills[..b])
        invariant GoodSession(c, session) && old(UnbilledNewest(c, g)) ==> StaysCompliant()
      {
        CanSpend(c, g, session.bills[b]);
        BilledNext(session.bills, b);
        Take(Spend(t, k, session.bills[b]), g.(spent := g.spent[(t, k) := Spent(g, t, k) + session.bills[b]]));
        b := b + 1;
      }
      assert session.bills[..|session.bills|] == session.bills;
      var settled := WithLast(memory.tasks[t], SettledAttempt(c, Last(memory.tasks[t]), session.usage));
      memory := Recalculate(c, memory.(tasks := memory.tasks[t := settled]));
      SettledIs(c, old(memory), t, session.usage);
      CanReturn(c, g, session.usage);
      Take(Return(session.usage), g.(memory := Some(memory), pc := Judging(g.pc.i, session.usage)));
    }

    /** Judge the session; an occupied destination raises and loses what is in memory. */
    method Judge(t: string, verdict: Verdict) returns (raised: bool, candidate: Option<string>)
      requires Valid() && g.pc.Judging? && g.pc.i < |c.fixtures| && t == c.fixtures[g.pc.i]
      modifies this
      ensures Valid() && Continues() && durable == old(durable) && attempted == old(attempted)
      ensures StaysCompliant()
      ensures raised <==> verdict.Verified? && t in old(published)
      ensures raised ==> g.pc.Idle?
      ensures candidate == if !raised && verdict.Verified? && verdict.readable then Some(verdict.hash) else None
      ensures !raised ==> g.pc == Finishing(old(g.pc.i), old(g.pc.usage), candidate)
      ensures published == if verdict.Verified? && !raised then old(published)[t := verdict.hash] else old(published)
    {
      hide Inv, IsRun, CompliantRun;
      raised, candidate := false, None;
      if !verdict.Verified? {
        Take(Reject, g.(pc := Finishing(g.pc.i, g.pc.usage, None)));
      } else if t in published {
        raised := true;
        Take(PublishRaises, Lost(g));
      } else {
        published := published[t := verdict.hash];
        candidate := if verdict.readable then Some(verdict.hash) else None;
        Take(Publish(verdict.hash, verdict.readable),
             g.(pc := Finishing(g.pc.i, g.pc.usage, candidate),
                published := published));
      }
    }

    /** Close the attempt and save. */
    method RecordOutcome(t: string, candidate: Option<string>)
      requires Valid() && g.pc.Finishing? && candidate == g.pc.candidate
      requires g.pc.i < |c.fixtures| && t == c.fixtures[g.pc.i]
      modifies this
      ensures Valid() && g.pc == At(old(g.pc.i) + 1) && Continues() && attempted == old(attempted)
      ensures Ends(durable, t, if candidate.Some? then TaskCompleted else TaskFailed) && published == old(published)
      ensures StaysCompliant()
    {
      hide Inv, Next, IsRun, Closed, CompliantRun;
      CanRecord(c, g);
      ClosedEnds(memory, t, candidate);
      memory := Closed(memory, t, candidate);
      durable := memory;
      Take(Record, g.(durable := durable, memory := Some(memory), pc := At(g.pc.i + 1)));
    }

    /** One fixture: re-verify what is completed, skip what was attempted, stop on a budget, or attempt it. */
    method VisitFixture(w: World, i: nat) returns (raised: bool, stopped: bool)
      requires Valid() && g.pc == At(i) && i < |c.fixtures|
      modifies this
      ensures Valid() && Continues() && Grows(old(durable), durable) && old(attempted) <= attempted
      ensures raised ==> g.pc.Idle?
      ensures stopped ==> !raised && g.pc.Closing?
      ensures !raised && !stopped ==> g.pc == At(i + 1) && Accounted(c, durable, attempted, c.fixtures[i])
      ensures stopped <==> !old(Ends(durable, c.fixtures[i], TaskCompleted)) && c.fixtures[i] !in old(attempted)
                           && old(ReserveRefused(c, durable)).Some?
      ensures raised <==>
        if old(Ends(durable, c.fixtures[i], TaskCompleted)) then !w.stillValid(c.fixtures[i])
        else && c.fixtures[i] !in old(attempted) && old(ReserveRefused(c, durable)).None?
             && w.session(c.fixtures[i]).verdict.Verified? && c.fixtures[i] in old(published)
      ensures raised ==> RaisedFor(w, durable, published, c.fixtures[i])
      ensures !raised && !stopped && !old(Ends(durable, c.fixtures[i], TaskCompleted))
              && c.fixtures[i] !in old(attempted) ==>
        Ends(durable, c.fixtures[i], Judged(w.session(c.fixtures[i]).verdict))
      ensures Honest(c, w) ==> StaysCompliant()
    {
      hide Inv, Grows, ReserveRefused, IsRun, CompliantRun, GoodSession;
      AtHasMemory(c, g);
      GrowsReflexive(durable);
      raised, stopped := false, false;
      var t := c.fixtures[i];
      if memory.tasks[t].status == TaskCompleted {
        if w.stillValid(t) {
          Take(SkipCompleted, g.(pc := At(i + 1)));
        } else {
          raised := true;
          Take(ResumeRaises, Lost(g));
        }
      } else if t in attempted {
        Take(SkipAttempted, g.(pc := At(i + 1)));
      } else {
        var stop := ReserveRefused(c, memory);
        if stop.Some? {
          stopped := true;
          memory := memory.(status := Stopped(stop.value));
          Take(StopOnBudget, g.(pc := Closing, memory := Some(memory)));
        } else {
          raised := AttemptFixture(w, t);
        }
      }
    }

    /** Reserve, call the provider, judge, record. */
    method AttemptFixture(w: World, t: string) returns (raised: bool)
      requires Valid() && g.pc.At? && g.pc.i < |c.fixtures| && t == c.fixtures[g.pc.i] && t in memory.tasks
      requires memory.tasks[t].status != TaskCompleted && t !in attempted && ReserveRefused(c, memory).None?
      modifies this
      ensures Valid() && Continues() && Grows(old(durable), durable) && old(attempted) <= attempted
      ensures raised ==> g.pc.Idle?
      ensures !raised ==> g.pc == At(old(g.pc.i) + 1) && t in attempted
      ensures raised <==> w.session(t).verdict.Verified? && t in old(published)
      ensures Ends(durable, t, if raised then TaskRunning else Judged(w.session(t).verdict))
      ensures raised ==> published == old(published)
      ensures Honest(c, w) ==> StaysCompliant()
    {
      hide Inv, Next, Grows, ReserveRefused, Reserved, CompliantRun, GoodSession, UnbilledNewest;
      ghost var start := |labels|;
      HistoryEnds(c, states, labels, g);
      var session := w.session(t);
      ReservedEnds(c, memory, t, w.attemptId(t));
      ReserveFor(t, w.attemptId(t));
      CallProvider(t, session);
      var candidate;
      raised, candidate := Judge(t, session.verdict);
      if !raised {
        RecordOutcome(t, candidate);
      }
      LedgerOnlyGrows(c, states, labels, start, |labels|);
    }

    /** Final totals and status, then save. */
    method CloseUp() returns (result: Outcome)
      requires Valid() && (g.pc.Closing? || g.pc == At(|c.fixtures|))
      requires g.pc.At? ==> forall t | t in c.fixtures :: Accounted(c, durable, attempted, t)
      modifies this
      ensures Valid() && Continues() && g.pc.Idle? && StaysCompliant()
      ensures durable.tasks == old(durable).tasks
      ensures durable.status.CohortCompleted? <==> AllCompleted(durable)
      ensures !durable.status.Stopped? ==> forall t | t in c.fixtures :: Accounted(c, durable, attempted, t)
      ensures result.Done? && result.status == durable.status && result.totalTokens == durable.usage.total
      ensures result.completed == |WithStatus(durable, TaskCompleted)|
      ensures result.failed == |WithStatus(durable, TaskFailed)|
      ensures result.pending == |c.fixtures| - result.completed - result.failed
    {
      hide Inv, Next, IsRun, Recalculated, Accounted, CompliantRun;
      CanClose(c, g);
      var s := Recalculate(c, memory);
      RecalculatedTasks(c, memory);
      durable := s.(status := FinalStatus(s));
      Take(Close, Lost(g.(durable := durable)));
      LedgerKeys(c, g);
      AllAccounted(c, durable, attempted);
      SameTasksAccounted(c, old(durable), durable, attempted);
      CountIsCardinality(c.fixtures, durable, TaskCompleted);
      CountIsCardinality(c.fixtures, durable, TaskFailed);
      var completed := CountStatus(c.fixtures, durable.tasks, TaskCompleted);
      var failed := CountStatus(c.fixtures, durable.tasks, TaskFailed);
      result := Done(durable.status, completed, failed, |c.fixtures| - completed - failed, durable.usage.total);
    }

    /** One invocation. Nothing it does leaves the protocol; unless it raises, it reports completion
        exactly when every fixture is completed, and when it does not stop on a budget every fixture is
        completed or was attempted. If every session keeps to the cap, the history stays compliant, and what
        was billed for everything so far is within the debits, and these within the budgets. */
    method RunCohort(w: World) returns (result: Outcome)
      requires Valid() && g.pc.Idle?
      modifies this
      ensures Valid() && Continues() && g.pc.Idle?
      ensures Grows(old(durable), durable)
      ensures result.Done? ==> result.status == durable.status
      ensures result.Done? ==> (result.status.CohortCompleted? <==> AllCompleted(durable))
      ensures result.Done? && !result.status.Stopped? ==>
        forall t | t in c.fixtures :: Accounted(c, durable, attempted, t)
      ensures result.Raised? ==> exists t :: t in c.fixtures && RaisedFor(w, durable, published, t)
      ensures Honest(c, w) ==> StaysCompliant()
      ensures Honest(c, w) && old(CompliantRun(c, states, labels)) ==> SpentWithinBudget(c, g)
    {
      hide Inv, Next, IsRun, Grows, Reconciled, Accounted, CompliantRun, Honest, SpentWithinBudget, RaisedFor;
      HistoryEnds(c, states, labels, g);
      ghost var start := |labels|;
      StartUp(w);
      var raised := VisitAll(w);
      if raised {
        result := Raised;
      } else {
        result := CloseUp();
      }
      HistoryEnds(c, states, labels, g);
      LedgerOnlyGrows(c, states, labels, start, |labels|);
      if CompliantRun(c, states, labels) {
        CrashSafe(c, states, labels, g);
      }
    }

    /** The loop over the fixtures. */
    method VisitAll(w: World) returns (raised: bool)
      requires Valid() && g.pc == At(0)
      modifies this
      ensures Valid() && Continues()
      ensures raised ==> g.pc.Idle?
      ensures raised ==> exists t :: t in c.fixtures && RaisedFor(w, durable, published, t)
      ensures !raised ==> g.pc.Closing? || g.pc == At(|c.fixtures|)
      ensures !raised && !g.pc.Closing? ==> forall t | t in c.fixtures :: Accounted(c, durable, attempted, t)
      ensures Honest(c, w) ==> StaysCompliant()
    {
      hide Inv, Next, IsRun, Grows, Accounted, CompliantRun, Honest, Ends, RaisedFor, ReserveRefused;
      var i, stopped := 0, false;
      raised := false;
      while i < |c.fixtures| && !raised && !stopped
        invariant 0 <= i <= |c.fixtures|
        invariant Valid() && Continues()
        invariant Honest(c, w) ==> StaysCompliant()
        invariant raised ==> g.pc.Idle? && exists t :: t in c.fixtures && RaisedFor(w, durable, published, t)
        invariant stopped ==> !raised && g.pc.Closing?
        invariant !raised && !stopped ==> g.pc == At(i)
        invariant !raised && !stopped ==> forall t | t in c.fixtures[..i] :: Accounted(c, durable, attempted, t)
      {
        label Visit:
        raised, stopped := VisitFixture(w, i);
        AccountedKept(c, old@Visit(durable), durable, old@Visit(attempted), attempted, c.fixtures[..i]);
        assert c.fixtures[..i + 1] == c.fixtures[..i] + [c.fixtures[i]];
        i := i + 1;
      }
      assert c.fixtures[..|c.fixtures|] == c.fixtures;
    }
  }

  ghost predicate AllCompleted(s: Cohort)
  {
    forall t | t in s.tasks :: s.tasks[t].status == TaskCompleted
  }

  /** A fixture is completed, or was attempted in this invocation. */
  ghost predicate Accounted(c: Config, s: Cohort, attempted: set<string>, t: string)
  {
    t in attempted || (t in s.tasks && s.tasks[t].status == TaskCompleted)
  }

  /** What was really billed is within the debits, and these within the token and the cost budget. */
  ghost predicate SpentWithinBudget(c: Config, g: Global)
  {
    && TrueSpend(g, c.fixtures) <= g.durable.accounting.debitedTokens <= c.totalTokens
    && (c.totalCost.Some? ==> g.durable.accounting.debitedCost.Some?
                              && g.durable.accounting.debitedCost.value <= c.totalCost.value)
  }

  /** The task is there with this status. */
  ghost predicate Ends(s: Cohort, t: string, status: TaskStatus)
  {
    t in s.tasks && s.tasks[t].status == status
  }

  /** What becomes of a task whose outcome is recorded. */
  ghost function Judged(verdict: Verdict): TaskStatus
  {
    if verdict.Verified? && verdict.readable then TaskCompleted else TaskFailed
  }

  /** A completed fixture failed its re-verification, or a verified session found its destination taken. */
  ghost predicate RaisedFor(w: World, s: Cohort, published: map<string, string>, t: string)
  {
    || (Ends(s, t, TaskCompleted) && !w.stillValid(t))
    || (Ends(s, t, TaskRunning) && w.session(t).verdict.Verified? && t in published)
  }

  lemma ClosedEnds(s: Cohort, t: string, candidate: Option<string>)
    requires t in s.tasks && s.tasks[t].attempts != []
    ensures Ends(Closed(s, t, candidate), t, if candidate.Some? then TaskCompleted else TaskFailed)
  {
  }

  lemma ReservedEnds(c: Config, s: Cohort, t: string, id: string)
    requires t in s.tasks
    ensures Ends(Reserved(c, s, t, id), t, TaskRunning)
  {
  }

  lemma CrashSafe(c: Config, states: seq<Global>, labels: seq<Label>, g: Global)
    requires c.Valid() && CompliantRun(c, states, labels) && states[|labels|] == g
    ensures SpentWithinBudget(c, g)
  {
    hide Next, Compliant, TrueSpend;
    CrashSafeBudget(c, states, labels, |labels|);
  }

  lemma ExtendsCompliantRun(c: Config, states: seq<Global>, labels: seq<Label>, l: Label, g': Global)
    requires CompliantRun(c, states, labels)
    requires Next(c, states[|labels|], l, g') && Compliant(c, states[|labels|], l)
    ensures CompliantRun(c, states + [g'], labels + [l])
  {
    hide Next, Compliant;
  }

  /** Nothing has been billed yet for the newest attempt of the fixture being called for. */
  ghost predicate UnbilledNewest(c: Config, g: Global)
  {
    g.pc.Calling? && HasNewest(c, g, g.pc.i)
    && var t := c.fixtures[g.pc.i]; Spent(g, t, |g.memory.value.tasks[t].attempts| - 1) == 0
  }

  lemma NewestIsUnbilled(c: Config, g: Global, t: string, id: string)
    requires SpendHolds(c, g) && g.pc.At? && g.pc.i < |c.fixtures| && t == c.fixtures[g.pc.i] && t in g.durable.tasks
    ensures forall g': Global | g'.pc == Calling(g.pc.i) && g'.spent == g.spent
                                && g'.memory == Some(Reserved(c, g.durable, t, id)) :: UnbilledNewest(c, g')
  {
    hide Reserved, Modest;
    ReservedShape(c, g.durable, t, id);
  }

  lemma {:induction false} BilledNext(bills: seq<nat>, b: nat)
    requires b < |bills|
    ensures Billed(bills[..b + 1]) == Billed(bills[..b]) + bills[b] <= Billed(bills)
  {
    assert bills[..b + 1][..b] == bills[..b];
    BilledGrows(bills, b + 1);
  }

  lemma {:induction false} BilledGrows(bills: seq<nat>, b: nat)
    requires b <= |bills|
    ensures Billed(bills[..b]) <= Billed(bills)
  {
    if b == |bills| {
      assert bills[..b] == bills;
    } else {
      assert bills[..|bills| - 1][..b] == bills[..b];
      BilledGrows(bills[..|bills| - 1], b);
    }
  }

  lemma HistoryEnds(c: Config, states: seq<Global>, labels: seq<Label>, g: Global)
    requires IsRun(c, states, labels) && states[|labels|] == g
    ensures |states| == |labels| + 1
  {
  }

  lemma LedgerKeys(c: Config, g: Global)
    requires Inv(c, g)
    ensures g.durable.tasks.Keys == set t | t in c.fixtures
  {
  }

  lemma AtHasMemory(c: Config, g: Global)
    requires Inv(c, g) && g.pc.At?
    ensures g.pc.i <= |c.fixtures| && g.memory == Some(g.durable)
    ensures forall i | 0 <= i < |c.fixtures| :: c.fixtures[i] in g.durable.tasks
  {
  }

  lemma CallingHasNewest(c: Config, g: Global)
    requires Inv(c, g) && g.pc.Calling?
    ensures HasNewest(c, g, g.pc.i) && g.memory == Some(g.durable)
    ensures Last(g.durable.tasks[c.fixtures[g.pc.i]]).status == Running
  {
  }

  lemma FinishingHasNewest(c: Config, g: Global)
    requires Inv(c, g) && g.pc.Finishing?
    ensures HasNewest(c, g, g.pc.i)
  {
  }

  lemma ReservedIs(c: Config, s: Cohort, t: string, id: string)
    requires t in s.tasks
    ensures Reserved(c, s, t, id) == Recalculated(c, s.(tasks := s.tasks[t :=
      s.tasks[t].(status := TaskRunning, attempts := s.tasks[t].attempts + [NewAttempt(c, id)])]))
  {
  }

  lemma SettledIs(c: Config, s: Cohort, t: string, u: Usage)
    requires t in s.tasks && s.tasks[t].attempts != []
    ensures Settled(c, s, t, u)
         == Recalculated(c, s.(tasks := s.tasks[t := WithLast(s.tasks[t], SettledAttempt(c, Last(s.tasks[t]), u))]))
  {
  }

  lemma CanReserve(c: Config, g: Global, id: string)
    requires Inv(c, g) && g.pc.At? && g.pc.i < |c.fixtures| && g.memory.Some?
    requires c.fixtures[g.pc.i] in g.memory.value.tasks
    requires g.memory.value.tasks[c.fixtures[g.pc.i]].status != TaskCompleted
    requires c.fixtures[g.pc.i] !in g.attempted && ReserveRefused(c, g.memory.value).None?
    ensures var t := c.fixtures[g.pc.i];
      var s := Reserved(c, g.memory.value, t, id);
      Next(c, g, Reserve(id), g.(durable := s, memory := Some(s), pc := Calling(g.pc.i),
                                 attempted := g.attempted + {t}, launched := g.launched + [t]))
  {
    hide Inv, Reserved, ReserveRefused;
  }

  lemma CanSpend(c: Config, g: Global, tokens: nat)
    requires Inv(c, g) && g.pc.Calling?
    ensures g.pc.i < |c.fixtures| && c.fixtures[g.pc.i] in g.durable.tasks
    ensures var t := c.fixtures[g.pc.i];
      var k := |g.durable.tasks[t].attempts| - 1;
      k >= 0 && Next(c, g, Spend(t, k, tokens), g.(spent := g.spent[(t, k) := Spent(g, t, k) + tokens]))
  {
    hide Inv;
    CallingHasNewest(c, g);
  }

  lemma CanReturn(c: Config, g: Global, u: Usage)
    requires Inv(c, g) && g.pc.Calling?
    ensures HasNewest(c, g, g.pc.i)
    ensures Next(c, g, Return(u),
      g.(memory := Some(Settled(c, g.memory.value, c.fixtures[g.pc.i], u)), pc := Judging(g.pc.i, u)))
  {
    hide Inv, Settled;
    CallingHasNewest(c, g);
  }

  lemma CanRecord(c: Config, g: Global)
    requires Inv(c, g) && g.pc.Finishing?
    ensures HasNewest(c, g, g.pc.i)
    ensures var s := Closed(g.memory.value, c.fixtures[g.pc.i], g.pc.candidate);
      Next(c, g, Record, g.(durable := s, memory := Some(s), pc := At(g.pc.i + 1)))
  {
    hide Inv, Closed;
    FinishingHasNewest(c, g);
  }

  lemma CanClose(c: Config, g: Global)
    requires Inv(c, g) && (g.pc.Closing? || g.pc == At(|c.fixtures|))
    ensures g.memory.Some? && g.memory.value.tasks == g.durable.tasks
    ensures if g.pc.Closing? then g.memory.value.status.Stopped? else g.memory.value.status.CohortRunning?
    ensures var s := Recalculated(c, g.memory.value);
      Next(c, g, Close, Lost(g.(durable := s.(status := FinalStatus(s)))))
  {
    hide LedgerHolds, Recalculated, OnlyRunning;
  }

  lemma AllAccounted(c: Config, s: Cohort, attempted: set<string>)
    requires s.tasks.Keys == set t | t in c.fixtures
    ensures AllCompleted(s) ==> forall t | t in c.fixtures :: Accounted(c, s, attempted, t)
  {
  }

  lemma SameTasksAccounted(c: Config, s: Cohort, s': Cohort, attempted: set<string>)
    requires s'.tasks == s.tasks
    ensures forall t :: Accounted(c, s, attempted, t) == Accounted(c, s', attempted, t)
  {
  }

  lemma AccountedKept(
    c: Config, s: Cohort, s': Cohort, attempted: set<string>, attempted': set<string>, names: seq<string>)
    requires Grows(s, s') && attempted <= attempted'
    ensures forall t | t in names && Accounted(c, s, attempted, t) :: Accounted(c, s', attempted', t)
  {
    forall t | t in names && Accounted(c, s, attempted, t) ensures Accounted(c, s', attempted', t)
    {
      assert t in s.tasks ==> TaskGrows(s.tasks[t], s'.tasks[t]);
    }
  }
}
