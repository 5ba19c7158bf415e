/** Deterministic acceptance: design contracts and the verifier that judges a receipt. */
module Verification {
  import opened Contracts

  /** A predicate with the parameters its kind requires. */
  datatype PredicateKind =
    | DocumentExists
    | FeatureExists(featureId: string)
    | FeatureAbsent(featureId: string)
    | FeatureCount(count: nat, featureType: Option<string>)
    | ParameterEquals(featureId: string, name: string, value: Json, tolerance: real)
    | RevisionAdvanced
    | PreserveFeature(featureId: string)
    | PreserveParameter(featureId: string, name: string)
    | MaxFeatureDelta(maximum: nat)

  datatype DesignPredicate = DesignPredicate(predicateId: string, kind: PredicateKind)

  datatype DesignContract = DesignContract(
    contractId: string, documentId: string, requirements: seq<DesignPredicate>, invariants: seq<DesignPredicate>)

  datatype IssueCode =
    | Execution(code: DiagnosticCode) | ExecutionRefused
    | DocumentMissing | RevisionNotAdvanced | FeatureMissing | FeaturePresent | FeatureCountMismatch
    | ParameterMissing | ParameterMismatch | UnsupportedRequirement
    | InvariantStateUnavailable | FeatureChanged | ParameterChanged | FeatureDeltaExceeded | UnsupportedInvariant

  datatype Issue = Issue(predicateId: string, code: IssueCode)

  /** Hashes are represented by the snapshots they identify. */
  datatype Report = Report(
    accepted: bool, issues: seq<Issue>, before: Option<DocumentSnapshot>, after: Option<DocumentSnapshot>)

  // ------------------------------------------------------------ evaluation

  /** `{feature.feature_id: feature for feature in features}`: the last entry of an id wins. */
  function ById(features: seq<Feature>): map<string, Feature>
  {
    if features == [] then map[]
    else var last := features[|features| - 1]; ById(features[..|features| - 1])[last.featureId := last]
  }

  function CountOf(features: seq<Feature>, featureType: Option<string>): nat
  {
    if features == [] then 0
    else CountOf(features[..|features| - 1], featureType)
         + (if featureType.None? || features[|features| - 1].featureType == featureType.value then 1 else 0)
  }

  function Equivalent(actual: Json, expected: Json, tolerance: real): bool
  {
    if actual.Bool? || expected.Bool? then PyEqual(actual, expected)
    else if actual.Number? && expected.Number? then -tolerance <= actual.n - expected.n <= tolerance
    else PyEqual(actual, expected)
  }

  function Fail(p: DesignPredicate, code: IssueCode): Option<Issue>
  {
    Some(Issue(p.predicateId, code))
  }

  function EvaluateRequirement(p: DesignPredicate, before: Option<DocumentSnapshot>, after: Option<DocumentSnapshot>)
    : Option<Issue>
  {
    if p.kind.DocumentExists? then
      if after.Some? then None else Fail(p, DocumentMissing)
    else if p.kind.RevisionAdvanced? then
      var base := if before.Some? then before.value.revision else 0;
      if after.Some? && after.value.revision > base then None else Fail(p, RevisionNotAdvanced)
    else if after.None? then Fail(p, DocumentMissing)
    else
      var features := ById(after.value.features);
      match p.kind
      case FeatureExists(id) => if id in features then None else Fail(p, FeatureMissing)
      case FeatureAbsent(id) => if id !in features then None else Fail(p, FeaturePresent)
      case FeatureCount(count, featureType) =>
        if CountOf(after.value.features, featureType) == count then None else Fail(p, FeatureCountMismatch)
      case ParameterEquals(id, name, value, tolerance) =>
        if id !in features then Fail(p, FeatureMissing)
        else if name !in features[id].parameters then Fail(p, ParameterMissing)
        else if Equivalent(features[id].parameters[name], value, tolerance) then None
        else Fail(p, ParameterMismatch)
      case _ => Fail(p, UnsupportedRequirement)
  }

  /** Dataclass equality of two feature snapshots. */
  predicate SameFeature(a: Feature, b: Feature)
  {
    && a.featureId == b.featureId && a.featureType == b.featureType
    && CanonicalParameters(a.parameters) == CanonicalParameters(b.parameters)
  }

  function EvaluateInvariant(p: DesignPredicate, before: Option<DocumentSnapshot>, after: Option<DocumentSnapshot>)
    : Option<Issue>
  {
    if before.None? || after.None? then Fail(p, InvariantStateUnavailable) else
    var was, now := ById(before.value.features), ById(after.value.features);
    match p.kind
    case PreserveFeature(id) =>
      if id in was && id in now && SameFeature(was[id], now[id]) then None else Fail(p, FeatureChanged)
    case PreserveParameter(id, name) =>
      if id in was && id in now && name in was[id].parameters
         && PyEqual(Get(was[id].parameters, name), Get(now[id].parameters, name))
      then None else Fail(p, ParameterChanged)
    case MaxFeatureDelta(maximum) =>
      var delta: int := |after.value.features| - |before.value.features|;
      if delta <= maximum && -delta <= maximum then None else Fail(p, FeatureDeltaExceeded)
    case _ => Fail(p, UnsupportedInvariant)
  }

  /** The verifier: collect every issue of execution, requirements and invariants in that order. */
  method Verify(contract: DesignContract, receipt: ExecutionReceipt) returns (report: Report)
    ensures report == Judge(contract, receipt)
  {
    hide EvaluateRequirement, EvaluateInvariant, RequirementIssues, InvariantIssues;
    NoIssuesYet(receipt);
    var issues: seq<Issue> := [];
    if !receipt.Accepted() {
      if receipt.diagnostics != [] {
        for i := 0 to |receipt.diagnostics|
          invariant issues == ExecutionIssues(receipt.diagnostics[..i])
        {
          assert receipt.diagnostics[..i + 1] == receipt.diagnostics[..i] + [receipt.diagnostics[i]];
          issues := issues + [Issue("execution", Execution(receipt.diagnostics[i].code))];
        }
        assert receipt.diagnostics[..|receipt.diagnostics|] == receipt.diagnostics;
      } else {
        issues := issues + [Issue("execution", ExecutionRefused)];
      }
    }
    ghost var executed := issues;
    for i := 0 to |contract.requirements|
      invariant issues == executed + RequirementIssues(contract.requirements[..i], receipt)
    {
      RequirementStep(contract.requirements, i, receipt);
      var issue := EvaluateRequirement(contract.requirements[i], receipt.before, receipt.after);
      if issue.Some? {
        issues := issues + [issue.value];
      }
    }
    assert contract.requirements[..|contract.requirements|] == contract.requirements;
    ghost var required := issues;
    for i := 0 to |contract.invariants|
      invariant issues == required + InvariantIssues(contract.invariants[..i], receipt)
    {
      InvariantStep(contract.invariants, i, receipt);
      var issue := EvaluateInvariant(contract.invariants[i], receipt.before, receipt.after);
      if issue.Some? {
        issues := issues + [issue.value];
      }
    }
    assert contract.invariants[..|contract.invariants|] == contract.invariants;
    report := Report(issues == [], issues, receipt.before, receipt.after);
  }

  lemma NoIssuesYet(receipt: ExecutionReceipt)
    ensures RequirementIssues([], receipt) == [] && InvariantIssues([], receipt) == []
  {
  }

  lemma RequirementStep(ps: seq<DesignPredicate>, i: nat, receipt: ExecutionReceipt)
    requires i < |ps|
    ensures var issue := EvaluateRequirement(ps[i], receipt.before, receipt.after);
      RequirementIssues(ps[..i + 1], receipt) ==
      RequirementIssues(ps[..i], receipt) + (if issue.Some? then [issue.value] else [])
  {
    hide EvaluateRequirement;
    assert ps[..i + 1][..i] == ps[..i];
  }

  lemma InvariantStep(ps: seq<DesignPredicate>, i: nat, receipt: ExecutionReceipt)
    requires i < |ps|
    ensures var issue := EvaluateInvariant(ps[i], receipt.before, receipt.after);
      InvariantIssues(ps[..i + 1], receipt) ==
      InvariantIssues(ps[..i], receipt) + (if issue.Some? then [issue.value] else [])
  {
    hide EvaluateInvariant;
    assert ps[..i + 1][..i] == ps[..i];
  }

  function ExecutionIssues(diagnostics: seq<Diagnostic>): seq<Issue>
  {
    seq(|diagnostics|, i requires 0 <= i < |diagnostics| => Issue("execution", Execution(diagnostics[i].code)))
  }

  function RequirementIssues(ps: seq<DesignPredicate>, receipt: ExecutionReceipt): seq<Issue>
  {
    if ps == [] then [] else
    var issue := EvaluateRequirement(ps[|ps| - 1], receipt.before, receipt.after);
    RequirementIssues(ps[..|ps| - 1], receipt) + (if issue.Some? then [issue.value] else [])
  }

  function InvariantIssues(ps: seq<DesignPredicate>, receipt: ExecutionReceipt): seq<Issue>
  {
    if ps == [] then [] else
    var issue := EvaluateInvariant(ps[|ps| - 1], receipt.before, receipt.after);
    InvariantIssues(ps[..|ps| - 1], receipt) + (if issue.Some? then [issue.value] else [])
  }

  /** The report the verifier builds. */
  function Judge(contract: DesignContract, receipt: ExecutionReceipt): Report
  {
    var execution :=
      if receipt.Accepted() then []
      else if receipt.diagnostics != [] then ExecutionIssues(receipt.diagnostics)
      else [Issue("execution", ExecutionRefused)];
    var issues := execution + RequirementIssues(contract.requirements, receipt)
                            + InvariantIssues(contract.invariants, receipt);
    Report(issues == [], issues, receipt.before, receipt.after)
  }

  // --------------------------------------------------- declarative meaning

  /** The entry a reader of the snapshot finds under an id: the last one listed. */
  ghost predicate Shows(d: DocumentSnapshot, id: string, f: Feature)
  {
    exists i :: 0 <= i < |d.features| && d.features[i] == f && f.featureId == id
      && forall j | i < j < |d.features| :: d.features[j].featureId != id
  }

  ghost predicate Lists(d: DocumentSnapshot, id: string)
  {
    exists i :: 0 <= i < |d.features| && d.features[i].featureId == id
  }

  /** A number, or a bool standing for 1 or 0. */
  ghost predicate Counts(j: Json, n: real)
  {
    j == Number(n) || (n == 1.0 && j == Bool(true)) || (n == 0.0 && j == Bool(false))
  }

  /** Equal values: as numbers, as texts, as arrays item by item, as objects key by key, or both null. */
  ghost predicate Alike(a: Json, b: Json)
  {
    match a
    case Null => b.Null?
    case Bool(_) => exists n :: Counts(a, n) && Counts(b, n)
    case Number(_) => exists n :: Counts(a, n) && Counts(b, n)
    case Text(s) => b == Text(s)
    case Array(items) =>
      b.Array? && |b.items| == |items| && forall i | 0 <= i < |items| :: Alike(items[i], b.items[i])
    case Object(fields) =>
      b.Object? && b.fields.Keys == fields.Keys && forall k | k in fields :: Alike(fields[k], b.fields[k])
  }

  /** Two numbers that are no bools differ by at most the tolerance; any other values are alike. */
  ghost predicate Within(actual: Json, expected: Json, tolerance: real)
  {
    if actual.Number? && expected.Number? then
      actual.n <= expected.n + tolerance && expected.n <= actual.n + tolerance
    else Alike(actual, expected)
  }

  /** The same type, the same parameter names, and alike values under each. */
  ghost predicate Unchanged(f: Feature, g: Feature)
  {
    && f.featureType == g.featureType && f.parameters.Keys == g.parameters.Keys
    && forall name | name in f.parameters :: Alike(f.parameters[name], g.parameters[name])
  }

  /** What a predicate says about the states before and after, with no reference to evaluation. */
  ghost predicate Holds(k: PredicateKind, before: Option<DocumentSnapshot>, after: Option<DocumentSnapshot>)
  {
    match k
    case DocumentExists => after.Some?
    case RevisionAdvanced => after.Some? && after.value.revision > (if before.Some? then before.value.revision else 0)
    case FeatureExists(id) => after.Some? && Lists(after.value, id)
    case FeatureAbsent(id) => after.Some? && !Lists(after.value, id)
    case FeatureCount(count, t) =>
      after.Some? && count == |set i | 0 <= i < |after.value.features|
                                       && (t.None? || after.value.features[i].featureType == t.value)|
    case ParameterEquals(id, name, value, tolerance) =>
      after.Some? && exists f :: Shows(after.value, id, f) && name in f.parameters
                                 && Within(f.parameters[name], value, tolerance)
    case PreserveFeature(id) =>
      before.Some? && after.Some?
      && exists f, g :: Shows(before.value, id, f) && Shows(after.value, id, g) && Unchanged(f, g)
    case PreserveParameter(id, name) =>
      before.Some? && after.Some?
      && exists f, g :: Shows(before.value, id, f) && Shows(after.value, id, g)
                        && name in f.parameters && ShownAlike(f.parameters[name], g, name)
    case MaxFeatureDelta(m) =>
      before.Some? && after.Some?
      && |after.value.features| <= |before.value.features| + m && |before.value.features| <= |after.value.features| + m
  }

  /** The feature has an alike value under the name; a missing name counts as null. */
  ghost predicate ShownAlike(value: Json, f: Feature, name: string)
  {
    if name in f.parameters then Alike(value, f.parameters[name]) else value.Null?
  }

  predicate IsRequirementKind(k: PredicateKind)
  {
    k.DocumentExists? || k.FeatureExists? || k.FeatureAbsent? || k.FeatureCount? || k.ParameterEquals?
    || k.RevisionAdvanced?
  }

  // ---------------------------------------------------------------- proofs

  lemma {:induction false} EqualIsAlike(a: Json, b: Json)
    ensures PyEqual(a, b) <==> Alike(a, b)
  {
    match a
    case Array(items) =>
      if b.Array? {
        forall i | 0 <= i < |items| && i < |b.items|
          ensures PyEqual(items[i], b.items[i]) <==> Alike(items[i], b.items[i])
        {
          EqualIsAlike(items[i], b.items[i]);
        }
        ArraysEqual(items, b.items);
      }
    case Object(fields) =>
      if b.Object? {
        forall k | k in fields && k in b.fields
          ensures PyEqual(fields[k], b.fields[k]) <==> Alike(fields[k], b.fields[k])
        {
          EqualIsAlike(fields[k], b.fields[k]);
        }
        ObjectsEqual(fields, b.fields);
      }
    case Bool(x) =>
      assert Counts(a, if x then 1.0 else 0.0);
    case Number(n) =>
      assert Counts(a, n);
    case _ =>
  }

  lemma ArraysEqual(a: seq<Json>, b: seq<Json>)
    ensures PyEqual(Array(a), Array(b)) <==> |a| == |b| && forall i | 0 <= i < |a| :: PyEqual(a[i], b[i])
  {
    var x, y := Canonical(Array(a)).items, Canonical(Array(b)).items;
    assert |x| == |a| && |y| == |b|;
    assert forall i | 0 <= i < |a| :: x[i] == Canonical(a[i]);
    assert forall i | 0 <= i < |b| :: y[i] == Canonical(b[i]);
    if |a| == |b| && forall i | 0 <= i < |a| :: PyEqual(a[i], b[i]) {
      assert x == y;
    }
  }

  lemma ObjectsEqual(a: map<string, Json>, b: map<string, Json>)
    ensures PyEqual(Object(a), Object(b)) <==> CanonicalParameters(a) == CanonicalParameters(b)
    ensures CanonicalParameters(a) == CanonicalParameters(b)
            <==> a.Keys == b.Keys && forall k | k in a :: PyEqual(a[k], b[k])
  {
    var x, y := CanonicalParameters(a), CanonicalParameters(b);
    assert Canonical(Object(a)).fields == x && Canonical(Object(b)).fields == y;
    assert x.Keys == a.Keys && y.Keys == b.Keys;
    if x == y {
      forall k | k in a ensures PyEqual(a[k], b[k])
      {
        assert x[k] == Canonical(a[k]) && y[k] == Canonical(b[k]);
      }
    }
  }

  lemma EquivalentIsWithin(actual: Json, expected: Json, tolerance: real)
    ensures Equivalent(actual, expected, tolerance) <==> Within(actual, expected, tolerance)
  {
    EqualIsAlike(actual, expected);
  }

  lemma SameIsUnchanged(f: Feature, g: Feature)
    requires f.featureId == g.featureId
    ensures SameFeature(f, g) <==> Unchanged(f, g)
  {
    ObjectsEqual(f.parameters, g.parameters);
    forall name | name in f.parameters && name in g.parameters
      ensures PyEqual(f.parameters[name], g.parameters[name]) <==> Alike(f.parameters[name], g.parameters[name])
    {
      EqualIsAlike(f.parameters[name], g.parameters[name]);
    }
  }

  lemma AlikeComposes(a: Json, b: Json, c: Json)
    requires Alike(a, b) && Alike(b, c)
    ensures Alike(a, c)
  {
    EqualIsAlike(a, b);
    EqualIsAlike(b, c);
    EqualIsAlike(a, c);
  }

  lemma {:induction false} ByIdShows(d: DocumentSnapshot, n: nat, id: string)
    requires n <= |d.features|
    ensures var m := ById(d.features[..n]);
      && (id in m <==> exists i :: 0 <= i < n && d.features[i].featureId == id)
      && (id in m ==> exists i :: 0 <= i < n && d.features[i] == m[id] && m[id].featureId == id
                                  && forall j | i < j < n :: d.features[j].featureId != id)
  {
    if n > 0 {
      ByIdShows(d, n - 1, id);
      assert d.features[..n][..n - 1] == d.features[..n - 1];
      var last := d.features[n - 1];
      if last.featureId != id && id in ById(d.features[..n - 1]) {
        var m := ById(d.features[..n - 1]);
        var i :| 0 <= i < n - 1 && d.features[i] == m[id] && m[id].featureId == id
                 && forall j | i < j < n - 1 :: d.features[j].featureId != id;
        assert d.features[i] == ById(d.features[..n])[id];
      }
    }
  }

  lemma ByIdIsShown(d: DocumentSnapshot, id: string)
    ensures id in ById(d.features) <==> Lists(d, id)
    ensures forall f :: Shows(d, id, f) <==> id in ById(d.features) && ById(d.features)[id] == f
  {
    ByIdShows(d, |d.features|, id);
    assert d.features[..|d.features|] == d.features;
  }

  lemma {:induction false} CountIsCardinality(features: seq<Feature>, t: Option<string>)
    ensures CountOf(features, t)
         == |set i | 0 <= i < |features| && (t.None? || features[i].featureType == t.value)|
  {
    var all := set i | 0 <= i < |features| && (t.None? || features[i].featureType == t.value);
    if features != [] {
      var n := |features| - 1;
      var rest := features[..n];
      CountIsCardinality(rest, t);
      var earlier := set i | 0 <= i < |rest| && (t.None? || rest[i].featureType == t.value);
      assert all == earlier + (if t.None? || features[n].featureType == t.value then {n} else {});
    }
  }

  lemma RequirementMeaning(p: DesignPredicate, before: Option<DocumentSnapshot>, after: Option<DocumentSnapshot>)
    ensures EvaluateRequirement(p, before, after).None? <==> IsRequirementKind(p.kind) && Holds(p.kind, before, after)
  {
    hide Equivalent, Within, Alike, ById;
    if after.Some? {
      match p.kind
      case FeatureExists(id) => ByIdIsShown(after.value, id);
      case FeatureAbsent(id) => ByIdIsShown(after.value, id);
      case FeatureCount(count, t) => CountIsCardinality(after.value.features, t);
      case ParameterEquals(id, name, value, tolerance) => ParameterMeaning(p, before, after.value);
      case _ =>
    }
  }

  lemma ParameterMeaning(p: DesignPredicate, before: Option<DocumentSnapshot>, after: DocumentSnapshot)
    requires p.kind.ParameterEquals?
    ensures EvaluateRequirement(p, before, Some(after)).None? <==> Holds(p.kind, before, Some(after))
  {
    hide Equivalent, Within, Alike, ById, Shows;
    var id, name := p.kind.featureId, p.kind.name;
    var features := ById(after.features);
    ByIdIsShown(after, id);
    if id in features && name in features[id].parameters {
      EquivalentIsWithin(features[id].parameters[name], p.kind.value, p.kind.tolerance);
      assert Shows(after, id, features[id]);
    }
  }

  lemma InvariantMeaning(p: DesignPredicate, before: Option<DocumentSnapshot>, after: Option<DocumentSnapshot>)
    ensures EvaluateInvariant(p, before, after).None? <==> !IsRequirementKind(p.kind) && Holds(p.kind, before, after)
  {
    hide SameFeature, Unchanged, PyEqual, ShownAlike, ById;
    if before.Some? && after.Some? {
      match p.kind
      case PreserveFeature(id) => PreservedMeaning(p, before.value, after.value);
      case PreserveParameter(id, name) => PreservedParameterMeaning(p, before.value, after.value);
      case _ =>
    }
  }

  lemma PreservedMeaning(p: DesignPredicate, before: DocumentSnapshot, after: DocumentSnapshot)
    requires p.kind.PreserveFeature?
    ensures EvaluateInvariant(p, Some(before), Some(after)).None? <==> Holds(p.kind, Some(before), Some(after))
  {
    var id, was, now := p.kind.featureId, ById(before.features), ById(after.features);
    ByIdIsShown(before, id);
    ByIdIsShown(after, id);
    if id in was && id in now {
      assert Shows(before, id, was[id]) && Shows(after, id, now[id]);
      SameIsUnchanged(was[id], now[id]);
    }
    hide SameFeature, Unchanged, ById, Shows;
  }

  lemma PreservedParameterMeaning(p: DesignPredicate, before: DocumentSnapshot, after: DocumentSnapshot)
    requires p.kind.PreserveParameter?
    ensures EvaluateInvariant(p, Some(before), Some(after)).None? <==> Holds(p.kind, Some(before), Some(after))
  {
    hide PyEqual, Alike, ById, Shows;
    var id, name, was, now := p.kind.featureId, p.kind.name, ById(before.features), ById(after.features);
    ByIdIsShown(before, id);
    ByIdIsShown(after, id);
    if id in was && id in now && name in was[id].parameters {
      assert Shows(before, id, was[id]) && Shows(after, id, now[id]);
      var value := was[id].parameters[name];
      EqualIsAlike(value, Get(now[id].parameters, name));
      AlikeNull(value);
    }
  }

  lemma AlikeNull(value: Json)
    ensures Alike(value, Null) <==> value.Null?
  {
  }

  lemma {:induction false} NoRequirementIssues(ps: seq<DesignPredicate>, receipt: ExecutionReceipt)
    ensures RequirementIssues(ps, receipt) == []
       <==> forall p | p in ps :: IsRequirementKind(p.kind) && Holds(p.kind, receipt.before, receipt.after)
  {
    if ps != [] {
      var last, rest := ps[|ps| - 1], ps[..|ps| - 1];
      NoRequirementIssues(rest, receipt);
      RequirementMeaning(last, receipt.before, receipt.after);
      assert ps == rest + [last];
    }
  }

  lemma {:induction false} NoInvariantIssues(ps: seq<DesignPredicate>, receipt: ExecutionReceipt)
    ensures InvariantIssues(ps, receipt) == []
       <==> forall p | p in ps :: !IsRequirementKind(p.kind) && Holds(p.kind, receipt.before, receipt.after)
  {
    if ps != [] {
      var last, rest := ps[|ps| - 1], ps[..|ps| - 1];
      NoInvariantIssues(rest, receipt);
      InvariantMeaning(last, receipt.before, receipt.after);
      assert ps == rest + [last];
    }
  }

  // ---------------------------------------------------------- main results

  /** A report is accepted exactly when the receipt is, every requirement is a requirement kind that
      holds, and every invariant is an invariant kind that holds. */
  lemma AcceptedMeaning(contract: DesignContract, receipt: ExecutionReceipt)
    ensures Judge(contract, receipt).accepted
       <==> && receipt.status in {Applied, DryRun, RolledBack}
            && (forall p | p in contract.requirements ::
                  IsRequirementKind(p.kind) && Holds(p.kind, receipt.before, receipt.after))
            && (forall p | p in contract.invariants ::
                  !IsRequirementKind(p.kind) && Holds(p.kind, receipt.before, receipt.after))
  {
    NoRequirementIssues(contract.requirements, receipt);
    NoInvariantIssues(contract.invariants, receipt);
  }

  /** The verdict depends on a receipt only through acceptance, diagnostics and the two snapshots. */
  lemma VerdictIgnoresIdentity(contract: DesignContract, a: ExecutionReceipt, b: ExecutionReceipt)
    requires a.Accepted() && b.Accepted() && a.before == b.before && a.after == b.after
    ensures Judge(contract, a).accepted == Judge(contract, b).accepted
  {
    AcceptedMeaning(contract, a);
    AcceptedMeaning(contract, b);
  }

  /** Receipts of consecutive commits on one document: each starts where the previous ended. */
  ghost predicate Chained(receipts: seq<ExecutionReceipt>)
  {
    forall i | 0 <= i < |receipts| - 1 :: receipts[i].after == receipts[i + 1].before
  }

  /** Every report of the chain accepts a contract that carries this invariant. */
  ghost predicate CarriedThroughout(k: PredicateKind, contracts: seq<DesignContract>, receipts: seq<ExecutionReceipt>)
    requires |contracts| == |receipts|
  {
    forall i | 0 <= i < |receipts| ::
      Judge(contracts[i], receipts[i]).accepted && exists p :: p in contracts[i].invariants && p.kind == k
  }

  lemma CarriedHolds(k: PredicateKind, contracts: seq<DesignContract>, receipts: seq<ExecutionReceipt>, i: nat)
    requires |contracts| == |receipts| && i < |receipts| && CarriedThroughout(k, contracts, receipts)
    ensures !IsRequirementKind(k) && Holds(k, receipts[i].before, receipts[i].after)
  {
    AcceptedMeaning(contracts[i], receipts[i]);
  }

  /** preserve_feature and preserve_parameter carried by every run of a chain hold from its first
      state to its last. */
  lemma {:induction false} PreservationChains(
    k: PredicateKind, contracts: seq<DesignContract>, receipts: seq<ExecutionReceipt>)
    requires k.PreserveFeature? || k.PreserveParameter?
    requires |contracts| == |receipts| > 0
    requires Chained(receipts) && CarriedThroughout(k, contracts, receipts)
    ensures Holds(k, receipts[0].before, receipts[|receipts| - 1].after)
  {
    var n := |receipts|;
    CarriedHolds(k, contracts, receipts, n - 1);
    if n > 1 {
      CarriedByPrefix(k, contracts, receipts, n - 1);
      PreservationChains(k, contracts[..n - 1], receipts[..n - 1]);
      PreservationComposes(k, receipts[0].before, receipts[n - 2].after, receipts[n - 1].after);
    }
  }

  lemma ShownOnce(d: DocumentSnapshot, id: string, f: Feature, g: Feature)
    requires Shows(d, id, f) && Shows(d, id, g)
    ensures f == g
  {
    ByIdIsShown(d, id);
  }

  lemma UnchangedComposes(f: Feature, g: Feature, h: Feature)
    requires Unchanged(f, g) && Unchanged(g, h)
    ensures Unchanged(f, h)
  {
    hide Alike;
    forall name | name in f.parameters ensures Alike(f.parameters[name], h.parameters[name])
    {
      AlikeComposes(f.parameters[name], g.parameters[name], h.parameters[name]);
    }
  }

  lemma ShownAlikeComposes(value: Json, g: Feature, h: Feature, name: string)
    requires name in g.parameters && ShownAlike(value, g, name) && ShownAlike(g.parameters[name], h, name)
    ensures ShownAlike(value, h, name)
  {
    if name in h.parameters {
      AlikeComposes(value, g.parameters[name], h.parameters[name]);
    } else {
      AlikeNull(value);
    }
  }

  lemma PreservationComposes(
    k: PredicateKind, a: Option<DocumentSnapshot>, b: Option<DocumentSnapshot>, c: Option<DocumentSnapshot>)
    requires k.PreserveFeature? || k.PreserveParameter?
    requires Holds(k, a, b) && Holds(k, b, c)
    ensures Holds(k, a, c)
  {
    hide Shows, Unchanged, ShownAlike;
    if k.PreserveFeature? {
      var f, g :| Shows(a.value, k.featureId, f) && Shows(b.value, k.featureId, g) && Unchanged(f, g);
      var g', h :| Shows(b.value, k.featureId, g') && Shows(c.value, k.featureId, h) && Unchanged(g', h);
      ShownOnce(b.value, k.featureId, g, g');
      UnchangedComposes(f, g, h);
    } else {
      var f, g :| Shows(a.value, k.featureId, f) && Shows(b.value, k.featureId, g)
                  && k.name in f.parameters && ShownAlike(f.parameters[k.name], g, k.name);
      var g', h :| Shows(b.value, k.featureId, g') && Shows(c.value, k.featureId, h)
                   && k.name in g'.parameters && ShownAlike(g'.parameters[k.name], h, k.name);
      ShownOnce(b.value, k.featureId, g, g');
      ShownAlikeComposes(f.parameters[k.name], g, h, k.name);
    }
  }

  lemma DeltaComposes(
    m: nat, n: nat, a: Option<DocumentSnapshot>, b: Option<DocumentSnapshot>, c: Option<DocumentSnapshot>)
    requires Holds(MaxFeatureDelta(m), a, b) && Holds(MaxFeatureDelta(n), b, c)
    ensures Holds(MaxFeatureDelta(m + n), a, c)
  {
  }

  lemma CarriedByPrefix(k: PredicateKind, contracts: seq<DesignContract>, receipts: seq<ExecutionReceipt>, n: nat)
    requires n <= |contracts| == |receipts|
    requires Chained(receipts) && CarriedThroughout(k, contracts, receipts)
    ensures Chained(receipts[..n]) && CarriedThroughout(k, contracts[..n], receipts[..n])
  {
  }

  /** max_feature_delta m carried by every run bounds the change over n runs by n * m. */
  lemma {:induction false} DeltaChains(m: nat, contracts: seq<DesignContract>, receipts: seq<ExecutionReceipt>)
    requires |contracts| == |receipts| > 0
    requires Chained(receipts) && CarriedThroughout(MaxFeatureDelta(m), contracts, receipts)
    ensures Holds(MaxFeatureDelta(|receipts| * m), receipts[0].before, receipts[|receipts| - 1].after)
  {
    hide Holds, CarriedThroughout;
    var n := |receipts|;
    CarriedHolds(MaxFeatureDelta(m), contracts, receipts, n - 1);
    if n > 1 {
      CarriedByPrefix(MaxFeatureDelta(m), contracts, receipts, n - 1);
      DeltaChains(m, contracts[..n - 1], receipts[..n - 1]);
      DeltaComposes((n - 1) * m, m, receipts[0].before, receipts[n - 2].after, receipts[n - 1].after);
      assert n * m == (n - 1) * m + m;
    } else {
      assert n * m == m;
    }
  }

  // ------------------------------------------------- what the issues say

  /** The feature is shown, with or without the parameter. */
  ghost predicate ShownWith(d: DocumentSnapshot, k: PredicateKind, present: bool)
    requires k.ParameterEquals?
  {
    exists f :: Shows(d, k.featureId, f) && (k.name in f.parameters <==> present)
  }

  /** Which issue a failed requirement raises, in declarative terms. */
  lemma RequirementIssueMeaning(p: DesignPredicate, before: Option<DocumentSnapshot>, after: Option<DocumentSnapshot>)
    requires EvaluateRequirement(p, before, after).Some?
    ensures var issue, k := EvaluateRequirement(p, before, after).value, p.kind;
      && issue.predicateId == p.predicateId
      && (issue.code == RevisionNotAdvanced <==> k.RevisionAdvanced?)
      && (issue.code == DocumentMissing <==> after.None? && !k.RevisionAdvanced?)
      && (issue.code == FeatureMissing <==>
            after.Some? && (k.FeatureExists? || k.ParameterEquals?) && !Lists(after.value, k.featureId))
      && (issue.code == FeaturePresent <==> after.Some? && k.FeatureAbsent?)
      && (issue.code == FeatureCountMismatch <==> after.Some? && k.FeatureCount?)
      && (issue.code == ParameterMissing <==> after.Some? && k.ParameterEquals? && ShownWith(after.value, k, false))
      && (issue.code == ParameterMismatch <==> after.Some? && k.ParameterEquals? && ShownWith(after.value, k, true))
      && (issue.code == UnsupportedRequirement <==> after.Some? && !IsRequirementKind(k))
  {
    if after.Some? && (p.kind.FeatureExists? || p.kind.FeatureAbsent? || p.kind.ParameterEquals?) {
      ByIdIsShown(after.value, p.kind.featureId);
    }
  }

  /** Which issue a failed invariant raises. */
  lemma InvariantIssueMeaning(p: DesignPredicate, before: Option<DocumentSnapshot>, after: Option<DocumentSnapshot>)
    requires EvaluateInvariant(p, before, after).Some?
    ensures var issue, k := EvaluateInvariant(p, before, after).value, p.kind;
      && issue.predicateId == p.predicateId
      && (issue.code == InvariantStateUnavailable <==> before.None? || after.None?)
      && (issue.code == FeatureChanged <==> before.Some? && after.Some? && k.PreserveFeature?)
      && (issue.code == ParameterChanged <==> before.Some? && after.Some? && k.PreserveParameter?)
      && (issue.code == FeatureDeltaExceeded <==> before.Some? && after.Some? && k.MaxFeatureDelta?)
      && (issue.code == UnsupportedInvariant <==> before.Some? && after.Some? && IsRequirementKind(k))
  {
    hide SameFeature, PyEqual, ById;
  }

  lemma {:induction false} RequirementListed(ps: seq<DesignPredicate>, receipt: ExecutionReceipt, x: Issue)
    ensures x in RequirementIssues(ps, receipt)
       <==> exists p :: p in ps && EvaluateRequirement(p, receipt.before, receipt.after) == Some(x)
  {
    hide EvaluateRequirement;
    if ps != [] {
      RequirementListed(ps[..|ps| - 1], receipt, x);
      assert ps == ps[..|ps| - 1] + [ps[|ps| - 1]];
    }
  }

  lemma {:induction false} InvariantListed(ps: seq<DesignPredicate>, receipt: ExecutionReceipt, x: Issue)
    ensures x in InvariantIssues(ps, receipt)
       <==> exists p :: p in ps && EvaluateInvariant(p, receipt.before, receipt.after) == Some(x)
  {
    hide EvaluateInvariant;
    if ps != [] {
      InvariantListed(ps[..|ps| - 1], receipt, x);
      assert ps == ps[..|ps| - 1] + [ps[|ps| - 1]];
    }
  }

  /** The issues about the execution itself: the codes of a refused receipt's diagnostics, or that it was
      refused without one. */
  ghost predicate IsExecutionIssue(receipt: ExecutionReceipt, x: Issue)
  {
    && receipt.status == Refused && x.predicateId == "execution"
    && (if receipt.diagnostics == [] then x.code == ExecutionRefused
        else exists i :: 0 <= i < |receipt.diagnostics| && x.code == Execution(receipt.diagnostics[i].code))
  }

  /** A report carries the receipt's two snapshots, and lists exactly what the execution, a failed requirement
      or a failed invariant raises; it accepts exactly when it lists nothing. */
  lemma ReportMeaning(contract: DesignContract, receipt: ExecutionReceipt, x: Issue)
    ensures var report := Judge(contract, receipt);
      && report.before == receipt.before && report.after == receipt.after
      && (report.accepted <==> report.issues == [])
      && (x in report.issues
          <==> || IsExecutionIssue(receipt, x)
               || (exists p :: p in contract.requirements
                               && EvaluateRequirement(p, receipt.before, receipt.after) == Some(x))
               || exists p :: p in contract.invariants
                              && EvaluateInvariant(p, receipt.before, receipt.after) == Some(x))
  {
    RequirementListed(contract.requirements, receipt, x);
    InvariantListed(contract.invariants, receipt, x);
    hide RequirementIssues, InvariantIssues, EvaluateRequirement, EvaluateInvariant;
    var issues := ExecutionIssues(receipt.diagnostics);
    assert x in issues ==> exists i :: 0 <= i < |issues| && issues[i] == x;
    assert forall i | 0 <= i < |issues| :: issues[i] == Issue("execution", Execution(receipt.diagnostics[i].code));
    forall i | 0 <= i < |receipt.diagnostics| && x == Issue("execution", Execution(receipt.diagnostics[i].code))
      ensures x in issues
    {
      assert issues[i] == x;
    }
  }
}
