/** Host-independent data that planner, adapters, verifier and agent exchange. */
module Contracts {

  datatype Option<+T> = None | Some(value: T)
  {
    function GetOr(default: T): T
    {
      if None? then default else value
    }
  }

  datatype Result<+T, +E> = Success(value: T) | Failure(error: E)

  // ------------------------------------------------------------------ JSON

  /** A JSON value. Integers and floats are one exact number type. */
  datatype Json =
    | Null
    | Bool(b: bool)
    | Number(n: real)
    | Text(s: string)
    | Array(items: seq<Json>)
    | Object(fields: map<string, Json>)

  /** The representative of a value under Python's `==`, for which True is 1 and False is 0. */
  function Canonical(j: Json): Json
  {
    match j
    case Bool(b) => Number(if b then 1.0 else 0.0)
    case Array(items) => Array(seq(|items|, i requires 0 <= i < |items| => Canonical(items[i])))
    case Object(fields) => Object(map k | k in fields :: Canonical(fields[k]))
    case _ => j
  }

  predicate PyEqual(a: Json, b: Json)
  {
    Canonical(a) == Canonical(b)
  }

  function CanonicalParameters(parameters: map<string, Json>): map<string, Json>
  {
    map k | k in parameters :: Canonical(parameters[k])
  }

  /** `mapping.get(name)`: a missing key reads as None. */
  function Get(parameters: map<string, Json>, name: string): Json
  {
    if name in parameters then parameters[name] else Null
  }

  predicate IsSpace(c: char)
  {
    c in {'\t', '\n', '\U{B}', '\U{C}', '\r', '\U{1C}', '\U{1D}', '\U{1E}', '\U{1F}', ' ', '\U{85}', '\U{A0}',
          '\U{1680}', '\U{2000}', '\U{2001}', '\U{2002}', '\U{2003}', '\U{2004}', '\U{2005}', '\U{2006}', '\U{2007}',
          '\U{2008}', '\U{2009}', '\U{200A}', '\U{2028}', '\U{2029}', '\U{202F}', '\U{205F}', '\U{3000}'}
  }

  /** The same characters by their code points. */
  lemma WhitespaceCodes(c: char)
    ensures var n := c as int;
      IsSpace(c) <==> 9 <= n <= 13 || 28 <= n <= 32 || n in {0x85, 0xA0, 0x1680} || 0x2000 <= n <= 0x200A
                      || n in {0x2028, 0x2029, 0x202F, 0x205F, 0x3000}
  {
  }

  /** `value.strip()` is truthy. */
  predicate NonBlank(s: string)
  {
    exists i | 0 <= i < |s| :: !IsSpace(s[i])
  }

  predicate IsIdentifier(s: string)
  {
    NonBlank(s) && |s| <= 128
  }

  predicate IsNonBlankText(j: Json)
  {
    j.Text? && NonBlank(j.s)
  }

  /** A number that is not a bool and is greater than zero. */
  predicate IsPositiveNumber(j: Json)
  {
    j.Number? && j.n > 0.0
  }

  // ----------------------------------------------------------------- plans

  datatype ActionKind =
    | CreateDocument | CreateSketch | AddSketchGeometry | AddConstraint | AddBox | AddCylinder
    | Extrude | Revolve | BooleanCut | Fillet | Chamfer | Pattern
    | SetParameter | DeleteFeature | SaveDocument | ExportDocument

  datatype Action = Action(
    actionId: string, kind: ActionKind, targetId: Option<string>, parameters: map<string, Json>)

  datatype PlanData = ActionPlan(
    planId: string, documentId: string, baseRevision: nat, actions: seq<Action>)
  {
    /** What the plan's constructor checks before a plan can exist. */
    predicate WellFormed()
    {
      && IsIdentifier(planId) && IsIdentifier(documentId)
      && actions != []
      && (forall a | a in actions :: IsIdentifier(a.actionId))
      && (forall a | a in actions && a.targetId.Some? :: IsIdentifier(a.targetId.value))
      && (forall i, j | 0 <= i < j < |actions| :: actions[i].actionId != actions[j].actionId)
    }
  }

  const EXAMPLE_PLAN := ActionPlan("p", "d", 0, [Action("a", CreateDocument, None, map[])])

  type ActionPlan = p: PlanData | p.WellFormed()
    witness (assert !IsSpace("p"[0]) && !IsSpace("d"[0]) && !IsSpace("a"[0]); EXAMPLE_PLAN)

  /** The actions of one kind, in plan order. */
  function OfKind(actions: seq<Action>, kind: ActionKind): seq<Action>
  {
    if actions == [] then []
    else (if actions[0].kind == kind then [actions[0]] else []) + OfKind(actions[1..], kind)
  }

  lemma {:induction false} OfKindEmpty(actions: seq<Action>, kind: ActionKind)
    ensures OfKind(actions, kind) == [] <==> forall a | a in actions :: a.kind != kind
  {
    if actions != [] {
      OfKindEmpty(actions[1..], kind);
      assert forall a :: a in actions <==> a == actions[0] || a in actions[1..];
    }
  }

  /** "Exactly one, and it comes first" is "the first is one and no later action is". */
  lemma OfKindOnlyFirst(actions: seq<Action>, kind: ActionKind)
    requires actions != []
    ensures |OfKind(actions, kind)| == 1 && actions[0].kind == kind
       <==> actions[0].kind == kind && forall a | a in actions[1..] :: a.kind != kind
  {
    OfKindEmpty(actions[1..], kind);
  }

  // ------------------------------------------------------- codes, receipts

  datatype DiagnosticCode =
    | UnsupportedAction | StaleDocumentRevision | DocumentNotFound | DocumentAlreadyExists
    | InvalidParameter | DuplicateFeature | FeatureNotFound | ParameterNotFound
    | RollbackNotFound | RollbackConflict
    | InvalidDocumentId | InvalidTarget | DuplicateGeometry | GeometryNotFound

  datatype Diagnostic = Diagnostic(code: DiagnosticCode, actionId: Option<string>)

  datatype Feature = Feature(featureId: string, featureType: string, parameters: map<string, Json>)

  datatype DocumentSnapshot = DocumentSnapshot(documentId: string, revision: nat, features: seq<Feature>)

  datatype ExecutionStatus = Applied | DryRun | Refused | RolledBack

  datatype ExecutionReceipt = ExecutionReceipt(
    receiptId: string, planId: string, adapterId: string, status: ExecutionStatus,
    diagnostics: seq<Diagnostic>, before: Option<DocumentSnapshot>, after: Option<DocumentSnapshot>)
  {
    predicate Accepted()
    {
      status in {Applied, DryRun, RolledBack}
    }
  }
}
