/** The model-by-kernel matrix: one isolated cohort per cell, and the tokens of all of them together. */
module Matrix {
  import opened Contracts
  import L = CohortLedger
  import P = CohortProtocol
  import B = CohortBudget

  // -------------------------------------------------------------- cell names

  function Digit(n: nat): char
    requires n < 10
  {
    ['0', '1', '2', '3', '4', '5', '6', '7', '8', '9'][n]
  }

  ghost function DigitValue(c: char): nat
  {
    if '0' <= c <= '9' then c as nat - '0' as nat else 0
  }

  ghost predicate AllDigits(s: string)
  {
    forall i | 0 <= i < |s| :: '0' <= s[i] <= '9'
  }

  function Decimal(n: nat): string
  {
    if n < 10 then [Digit(n)] else Decimal(n / 10) + [Digit(n % 10)]
  }

  /** `{n:02d}`. */
  function Padded(n: nat): string
  {
    if n < 10 then "0" + Decimal(n) else Decimal(n)
  }

  ghost function Value(s: string): nat
  {
    if s == "" then 0 else Value(s[..|s| - 1]) * 10 + DigitValue(s[|s| - 1])
  }

  lemma {:induction false} DecimalReadsBack(n: nat)
    ensures Value(Decimal(n)) == n && AllDigits(Decimal(n))
  {
    if n >= 10 {
      DecimalReadsBack(n / 10);
      var s := Decimal(n);
      assert s[..|s| - 1] == Decimal(n / 10);
    } else {
      assert Decimal(n)[..0] == "";
    }
  }

  lemma {:induction false} DecimalIsShort(n: nat)
    ensures Decimal(n) != "" && (n < 10 <==> |Decimal(n)| == 1) && (n > 0 ==> Decimal(n)[0] != '0')
  {
    if n >= 10 {
      DecimalIsShort(n / 10);
    }
  }

  /** An index is written in decimal digits, at least two, with a leading zero only to make two. */
  lemma PaddedReadsBack(n: nat)
    ensures Value(Padded(n)) == n && AllDigits(Padded(n))
    ensures |Padded(n)| >= 2 && (|Padded(n)| > 2 ==> Padded(n)[0] != '0')
  {
    DecimalReadsBack(n);
    DecimalIsShort(n);
    if n < 10 {
      var s := Padded(n);
      assert s[..1] == "0" && s[..1][..0] == "";
    }
  }

  lemma {:induction false} DigitsEndAtTheDash(a: string, x: string, b: string, y: string)
    requires AllDigits(a) && AllDigits(b) && a + "-" + x == b + "-" + y
    ensures a == b && x == y
  {
    var s := a + "-" + x;
    assert s[|a|] == '-' && s[|b|] == '-';
    assert forall i | 0 <= i < |a| :: s[i] == a[i];
    assert forall i | 0 <= i < |b| :: s[i] == b[i];
    assert |a| == |b|;
    assert a == s[..|a|] && b == s[..|b|];
    assert x == s[|a| + 1..] && y == s[|b| + 1..];
  }

  /** How a model's name and a model-backend pair appear in a cell id; collisions are possible. */
  datatype Naming = Naming(slug: string -> string, hash: (string, string) -> string)

  function KernelPart(names: Naming, model: string, index: nat, backend: string): string
  {
    Padded(index + 1) + "-" + (backend + "-" + names.hash(model, backend))
  }

  function NamePart(names: Naming, model: string, index: nat, backend: string): string
  {
    (names.slug(model) + "-k") + KernelPart(names, model, index, backend)
  }

  function CellId(names: Naming, modelIndex: nat, model: string, backendIndex: nat, backend: string): string
  {
    "m" + (Padded(modelIndex + 1) + "-" + NamePart(names, model, backendIndex, backend))
  }

  lemma SamePrefix(p: string, x: string, y: string)
    requires p + x == p + y
    ensures x == y
  {
    assert x == (p + x)[|p|..];
    assert y == (p + y)[|p|..];
  }

  lemma PaddedIsInjective(m: nat, x: string, n: nat, y: string)
    requires Padded(m) + "-" + x == Padded(n) + "-" + y
    ensures m == n && x == y
  {
    PaddedReadsBack(m);
    PaddedReadsBack(n);
    DigitsEndAtTheDash(Padded(m), x, Padded(n), y);
  }

  /** Whatever names collide, two positions of the matrix never share a cell id. */
  lemma CellIdIsInjective(names: Naming, models: seq<string>, backends: seq<string>, m: nat, b: nat, m': nat, b': nat)
    requires m < |models| && m' < |models| && b < |backends| && b' < |backends|
    requires CellId(names, m, models[m], b, backends[b]) == CellId(names, m', models[m'], b', backends[b'])
    ensures m == m' && b == b'
  {
    hide Padded;
    var x, y := NamePart(names, models[m], b, backends[b]), NamePart(names, models[m'], b', backends[b']);
    SamePrefix("m", Padded(m + 1) + "-" + x, Padded(m' + 1) + "-" + y);
    PaddedIsInjective(m + 1, x, m' + 1, y);
    SamePrefix(names.slug(models[m]) + "-k", KernelPart(names, models[m], b, backends[b]),
               KernelPart(names, models[m], b', backends[b']));
    PaddedIsInjective(b + 1, backends[b] + "-" + names.hash(models[m], backends[b]),
                      b' + 1, backends[b'] + "-" + names.hash(models[m], backends[b']));
  }

  // -------------------------------------------------------------------- cells

  datatype Cell = Cell(id: string, model: string, backend: string, cohortDir: string)

  function CellAt(names: Naming, models: seq<string>, backends: seq<string>, m: nat, b: nat): Cell
    requires m < |models| && b < |backends|
  {
    var id := CellId(names, m, models[m], b, backends[b]);
    Cell(id, models[m], backends[b], "cells/" + id)
  }

  /** A cell is of its own model and backend, keeps its cohort under its own id, and its id names both positions,
      the model's slug, the backend and the pair's hash. */
  lemma CellMeaning(names: Naming, models: seq<string>, backends: seq<string>, m: nat, b: nat)
    requires m < |models| && b < |backends|
    ensures var cell, model, backend := CellAt(names, models, backends, m, b), models[m], backends[b];
      && cell.model == model && cell.backend == backend && cell.cohortDir == "cells/" + cell.id
      && cell.id == "m" + Padded(m + 1) + "-" + names.slug(model) + "-k" + Padded(b + 1) + "-" + backend + "-"
                    + names.hash(model, backend)
  {
    var model, backend := models[m], backends[b];
    var first, second, hash := Padded(m + 1), Padded(b + 1), names.hash(model, backend);
    hide Padded;
    Regrouped(first, names.slug(model), second, backend, hash);
  }

  lemma Regrouped(a: string, b: string, c: string, d: string, e: string)
    ensures "m" + (a + "-" + ((b + "-k") + (c + "-" + (d + "-" + e))))
         == "m" + a + "-" + b + "-k" + c + "-" + d + "-" + e
  {
    assert (b + "-k") + (c + "-" + (d + "-" + e)) == b + "-k" + c + "-" + d + "-" + e;
    assert a + "-" + (b + "-k" + c + "-" + d + "-" + e) == a + "-" + b + "-k" + c + "-" + d + "-" + e;
  }

  function IndexOf(cells: seq<Cell>, id: string): (r: Option<nat>)
    ensures r.Some? ==> r.value < |cells| && cells[r.value].id == id
    ensures r.None? <==> forall c | c in cells :: c.id != id
  {
    if cells == [] then None
    else
      var last := |cells| - 1;
      assert forall c :: c in cells <==> c in cells[..last] || c == cells[last];
      if cells[last].id == id then Some(last) else IndexOf(cells[..last], id)
  }

  /** A dictionary entry: a repeated key replaces its value in place, a new one is appended. */
  function Put(cells: seq<Cell>, cell: Cell): seq<Cell>
  {
    var at := IndexOf(cells, cell.id);
    if at.Some? then cells[at.value := cell] else cells + [cell]
  }

  /** The first b cells of row m. */
  function Row(names: Naming, models: seq<string>, backends: seq<string>, m: nat, b: nat): seq<Cell>
    requires m < |models| && b <= |backends|
  {
    if b == 0 then [] else Row(names, models, backends, m, b - 1) + [CellAt(names, models, backends, m, b - 1)]
  }

  /** The first m rows, in order. */
  function Grid(names: Naming, models: seq<string>, backends: seq<string>, m: nat): seq<Cell>
    requires m <= |models|
  {
    if m == 0 then []
    else Grid(names, models, backends, m - 1) + Row(names, models, backends, m - 1, |backends|)
  }

  ghost predicate IsCellOf(names: Naming, models: seq<string>, backends: seq<string>, m: nat, b: nat, c: Cell)
    requires m < |models| && b <= |backends|
  {
    exists k: nat :: k < b && c == CellAt(names, models, backends, m, k)
  }

  lemma {:induction false} RowMembers(
    names: Naming, models: seq<string>, backends: seq<string>, m: nat, b: nat, c: Cell)
    requires m < |models| && b <= |backends|
    ensures c in Row(names, models, backends, m, b) <==> IsCellOf(names, models, backends, m, b, c)
    ensures |Row(names, models, backends, m, b)| == b
  {
    hide CellAt;
    if b > 0 {
      RowMembers(names, models, backends, m, b - 1, c);
    }
  }

  ghost predicate IsCellBefore(names: Naming, models: seq<string>, backends: seq<string>, m: nat, c: Cell)
    requires m <= |models|
  {
    exists j: nat :: j < m && IsCellOf(names, models, backends, j, |backends|, c)
  }

  lemma {:induction false} GridSize(names: Naming, models: seq<string>, backends: seq<string>, m: nat)
    requires m <= |models|
    ensures |Grid(names, models, backends, m)| == m * |backends|
  {
    hide CellAt;
    if m > 0 {
      GridSize(names, models, backends, m - 1);
      RowMembers(names, models, backends, m - 1, |backends|, Cell("", "", "", ""));
      hide Row;
      assert m * |backends| == (m - 1) * |backends| + |backends|;
    }
  }

  lemma {:induction false} GridMembers(names: Naming, models: seq<string>, backends: seq<string>, m: nat, c: Cell)
    requires m <= |models|
    ensures c in Grid(names, models, backends, m) <==> IsCellBefore(names, models, backends, m, c)
  {
    hide CellAt, IsCellOf, Row;
    if m > 0 {
      GridMembers(names, models, backends, m - 1, c);
      RowMembers(names, models, backends, m - 1, |backends|, c);
    }
  }

  lemma EarlierCell(names: Naming, models: seq<string>, backends: seq<string>, m: nat, b: nat, c: Cell)
    returns (j: nat, k: nat)
    requires m < |models| && b <= |backends|
    requires c in Grid(names, models, backends, m) + Row(names, models, backends, m, b)
    ensures j <= m && k < |backends| && (j < m || k < b) && c == CellAt(names, models, backends, j, k)
  {
    hide CellAt, Grid, Row;
    GridMembers(names, models, backends, m, c);
    RowMembers(names, models, backends, m, b, c);
    if IsCellOf(names, models, backends, m, b, c) {
      j := m;
      k :| k < b && c == CellAt(names, models, backends, m, k);
    } else {
      j :| j < m && IsCellOf(names, models, backends, j, |backends|, c);
      k :| k < |backends| && c == CellAt(names, models, backends, j, k);
    }
  }

  /** The next cell's id is not taken yet. */
  lemma NextCellIsNew(names: Naming, models: seq<string>, backends: seq<string>, m: nat, b: nat, c: Cell)
    requires m < |models| && b < |backends|
    requires c in Grid(names, models, backends, m) + Row(names, models, backends, m, b)
    ensures c.id != CellAt(names, models, backends, m, b).id
    ensures c.cohortDir != CellAt(names, models, backends, m, b).cohortDir
  {
    var j, k := EarlierCell(names, models, backends, m, b, c);
    hide CellId, Grid, Row;
    if c.id == CellAt(names, models, backends, m, b).id {
      CellIdIsInjective(names, models, backends, j, k, m, b);
    }
    if c.cohortDir == CellAt(names, models, backends, m, b).cohortDir {
      SamePrefix("cells/", c.id, CellAt(names, models, backends, m, b).id);
    }
  }

  ghost predicate Isolated(cells: seq<Cell>)
  {
    forall i, j | 0 <= i < j < |cells| :: cells[i].id != cells[j].id && cells[i].cohortDir != cells[j].cohortDir
  }

  lemma {:induction false} RowIsIsolated(names: Naming, models: seq<string>, backends: seq<string>, m: nat, b: nat)
    requires m < |models| && b <= |backends| && Isolated(Grid(names, models, backends, m))
    ensures Isolated(Grid(names, models, backends, m) + Row(names, models, backends, m, b))
  {
    hide Grid, CellAt;
    var grid := Grid(names, models, backends, m);
    if b > 0 {
      RowIsIsolated(names, models, backends, m, b - 1);
      var before, cell := grid + Row(names, models, backends, m, b - 1), CellAt(names, models, backends, m, b - 1);
      assert grid + Row(names, models, backends, m, b) == before + [cell];
      hide Row;
      forall i | 0 <= i < |before| ensures before[i].id != cell.id && before[i].cohortDir != cell.cohortDir
      {
        NextCellIsNew(names, models, backends, m, b - 1, before[i]);
      }
    } else {
      assert grid + Row(names, models, backends, m, 0) == grid;
    }
  }

  /** There is exactly one cell per model and backend, no two share an id or a cohort directory, and every
      pair has its cell. */
  lemma {:induction false} CellsAreIsolated(names: Naming, models: seq<string>, backends: seq<string>, m: nat)
    requires m <= |models|
    ensures var cells := Grid(names, models, backends, m);
      && Isolated(cells) && |cells| == m * |backends|
      && forall j: nat, k: nat | j < m && k < |backends| :: CellAt(names, models, backends, j, k) in cells
  {
    if m > 0 {
      CellsAreIsolated(names, models, backends, m - 1);
      RowIsIsolated(names, models, backends, m - 1, |backends|);
    }
    hide CellAt, Isolated, Grid;
    forall j: nat, k: nat | j < m && k < |backends|
      ensures CellAt(names, models, backends, j, k) in Grid(names, models, backends, m)
    {
      GridMembers(names, models, backends, m, CellAt(names, models, backends, j, k));
      assert IsCellOf(names, models, backends, j, |backends|, CellAt(names, models, backends, j, k));
    }
    GridSize(names, models, backends, m);
  }

  lemma {:induction false} RowPosition(
    names: Naming, models: seq<string>, backends: seq<string>, m: nat, b: nat, k: nat)
    requires m < |models| && k < b <= |backends|
    ensures |Row(names, models, backends, m, b)| == b
    ensures Row(names, models, backends, m, b)[k] == CellAt(names, models, backends, m, k)
  {
    hide CellAt;
    RowMembers(names, models, backends, m, b, Cell("", "", "", ""));
    RowMembers(names, models, backends, m, b - 1, Cell("", "", "", ""));
    if k < b - 1 {
      RowPosition(names, models, backends, m, b - 1, k);
    }
  }

  /** Cells are listed model by model, and for each model backend by backend. */
  lemma {:induction false} CellPosition(
    names: Naming, models: seq<string>, backends: seq<string>, m: nat, j: nat, k: nat)
    requires j < m <= |models| && k < |backends|
    ensures 0 <= j * |backends| + k < |Grid(names, models, backends, m)|
    ensures Grid(names, models, backends, m)[j * |backends| + k] == CellAt(names, models, backends, j, k)
  {
    hide CellAt, Row;
    GridSize(names, models, backends, m);
    GridSize(names, models, backends, m - 1);
    assert m * |backends| == (m - 1) * |backends| + |backends|;
    if j < m - 1 {
      CellPosition(names, models, backends, m - 1, j, k);
    } else {
      RowPosition(names, models, backends, m - 1, |backends|, k);
    }
  }

  /** The dictionary of cells; no entry ever replaces another. */
  method Cells(names: Naming, models: seq<string>, backends: seq<string>) returns (cells: seq<Cell>)
    ensures cells == Grid(names, models, backends, |models|)
  {
    cells := [];
    hide CellAt;
    for m := 0 to |models|
      invariant cells == Grid(names, models, backends, m)
    {
      for b := 0 to |backends|
        invariant cells == Grid(names, models, backends, m) + Row(names, models, backends, m, b)
      {
        var cell := CellAt(names, models, backends, m, b);
        forall c | c in cells ensures c.id != cell.id
        {
          NextCellIsNew(names, models, backends, m, b, c);
        }
        cells := Put(cells, cell);
      }
    }
  }

  // ------------------------------------------------------------------- totals

  datatype Pricing = Pricing(rates: L.Rates, costBudget: real)

  datatype Config = Config(fixtures: seq<string>, models: seq<string>, backends: seq<string>,
                           tokensPerCell: int, tokensPerTask: int, pricing: map<string, Pricing>)
  {
    /** What the constructor checks. */
    ghost predicate Valid()
    {
      && fixtures != [] && (forall i, j | 0 <= i < j < |fixtures| :: fixtures[i] != fixtures[j])
      && models != [] && (forall i, j | 0 <= i < j < |models| :: models[i] != models[j])
      && backends != [] && (forall i, j | 0 <= i < j < |backends| :: backends[i] != backends[j])
      && (forall b | b in backends :: b == "build123d" || b == "cadquery")
      && tokensPerTask > 0 && tokensPerCell >= |fixtures| * tokensPerTask
      && (pricing != map[] ==> forall m :: m in pricing <==> m in models)
      && forall m | m in pricing :: PricingValid(pricing[m])
    }

    ghost predicate PricingValid(p: Pricing)
    {
      && p.rates.input >= 0.0 && p.rates.output >= 0.0
      && p.costBudget >= (|fixtures| * tokensPerTask) as real * p.rates.Highest() / 1000000.0
    }

    function MaximumAdmittedTokens(): int
    {
      |models| * |backends| * tokensPerCell
    }
  }

  /** The cohort that a cell runs. */
  function CohortConfig(c: Config, cell: Cell): L.Config
  {
    var priced := cell.model in c.pricing;
    L.Config(c.fixtures, c.tokensPerCell, c.tokensPerTask,
             if priced then Some(c.pricing[cell.model].rates) else None,
             if priced then Some(c.pricing[cell.model].costBudget) else None)
  }

  /** Every cell of a valid matrix runs a valid cohort, over all fixtures with the cell's token budget and its
      model's own prices and cost budget, whose budgets admit each fixture once. */
  lemma CellsAreLaunchable(c: Config, cell: Cell)
    requires c.Valid()
    ensures CohortConfig(c, cell).Valid() && B.Planned(CohortConfig(c, cell))
    ensures var cohort := CohortConfig(c, cell);
      && cohort.fixtures == c.fixtures && cohort.totalTokens == c.tokensPerCell
      && cohort.tokensPerTask == c.tokensPerTask
      && (cell.model in c.pricing ==> cohort.rates == Some(c.pricing[cell.model].rates)
                                      && cohort.totalCost == Some(c.pricing[cell.model].costBudget))
      && (cell.model !in c.pricing ==> cohort.rates.None? && cohort.totalCost.None?)
  {
    assert 1 * c.tokensPerTask <= |c.fixtures| * c.tokensPerTask;
    if cell.model in c.pricing {
      var p := c.pricing[cell.model];
      assert c.PricingValid(p);
      assert (|c.fixtures| * c.tokensPerTask) as real * p.rates.Highest() >= 0.0;
    }
  }

  datatype Usage = Usage(totalTokens: int, debitedTokens: int)

  /** The totals over the cells that have a saved cohort. */
  function Totals(cells: seq<Cell>, saved: map<string, L.Cohort>): Usage
  {
    if cells == [] then Usage(0, 0)
    else
      var rest, dir := Totals(cells[..|cells| - 1], saved), cells[|cells| - 1].cohortDir;
      if dir !in saved then rest
      else Usage(rest.totalTokens + saved[dir].usage.total, rest.debitedTokens + saved[dir].accounting.debitedTokens)
  }

  method Recalculate(cells: seq<Cell>, saved: map<string, L.Cohort>) returns (usage: Usage)
    ensures usage == Totals(cells, saved)
  {
    var totalTokens, debitedTokens := 0, 0;
    for i := 0 to |cells|
      invariant Usage(totalTokens, debitedTokens) == Totals(cells[..i], saved)
    {
      assert cells[..i + 1][..i] == cells[..i];
      if cells[i].cohortDir in saved {
        var cohort := saved[cells[i].cohortDir];
        totalTokens := totalTokens + cohort.usage.total;
        debitedTokens := debitedTokens + cohort.accounting.debitedTokens;
      }
    }
    assert cells[..|cells|] == cells;
    usage := Usage(totalTokens, debitedTokens);
  }

  /** The totals start at zero, and each cell adds the total and the debits of its saved cohort, if it has one. */
  lemma TotalsAddUp(cells: seq<Cell>, cell: Cell, saved: map<string, L.Cohort>)
    ensures Totals([], saved) == Usage(0, 0)
    ensures var before, after := Totals(cells, saved), Totals(cells + [cell], saved);
      if cell.cohortDir in saved then
        && after.totalTokens == before.totalTokens + saved[cell.cohortDir].usage.total
        && after.debitedTokens == before.debitedTokens + saved[cell.cohortDir].accounting.debitedTokens
      else after == before
  {
    assert (cells + [cell])[..|cells|] == cells;
  }

  lemma {:induction false} TotalsBounded(cells: seq<Cell>, saved: map<string, L.Cohort>, bound: int)
    requires bound >= 0
    requires forall cell | cell in cells && cell.cohortDir in saved ::
      saved[cell.cohortDir].accounting.debitedTokens <= bound
    ensures Totals(cells, saved).debitedTokens <= |cells| * bound
  {
    if cells != [] {
      var rest := cells[..|cells| - 1];
      assert forall c | c in rest :: c in cells;
      TotalsBounded(rest, saved, bound);
      assert |cells| * bound == |rest| * bound + bound;
    }
  }

  /** The saved cohort is a state of some compliant run of the cell's own configuration. */
  ghost predicate FromCompliantRun(c: Config, cell: Cell, cohort: L.Cohort)
  {
    exists states: seq<P.Global>, labels: seq<P.Label>, i: nat ::
      B.CompliantRun(CohortConfig(c, cell), states, labels) && i < |states| && states[i].durable == cohort
  }

  /** With a compliant provider the debited tokens of the whole matrix never exceed what it admits,
      however the cohorts were interrupted. */
  lemma MatrixStaysWithinAdmission(c: Config, names: Naming, cells: seq<Cell>, saved: map<string, L.Cohort>)
    requires c.Valid() && cells == Grid(names, c.models, c.backends, |c.models|)
    requires forall cell | cell in cells && cell.cohortDir in saved :: FromCompliantRun(c, cell, saved[cell.cohortDir])
    ensures Totals(cells, saved).debitedTokens <= |c.models| * |c.backends| * c.tokensPerCell
    ensures c.MaximumAdmittedTokens() == |c.models| * |c.backends| * c.tokensPerCell
  {
    hide Grid;
    CellsAreIsolated(names, c.models, c.backends, |c.models|);
    assert 0 <= |c.fixtures| * c.tokensPerTask;
    forall cell | cell in cells && cell.cohortDir in saved
      ensures saved[cell.cohortDir].accounting.debitedTokens <= c.tokensPerCell
    {
      CellWithinBudget(c, cell, saved[cell.cohortDir]);
    }
    TotalsBounded(cells, saved, c.tokensPerCell);
  }

  lemma CellWithinBudget(c: Config, cell: Cell, cohort: L.Cohort)
    requires c.Valid() && FromCompliantRun(c, cell, cohort)
    ensures cohort.accounting.debitedTokens <= c.tokensPerCell
  {
    hide B.CompliantRun;
    CellsAreLaunchable(c, cell);
    var states: seq<P.Global>, labels: seq<P.Label>, i: nat :|
      B.CompliantRun(CohortConfig(c, cell), states, labels) && i < |states| && states[i].durable == cohort;
    B.CrashSafeBudget(CohortConfig(c, cell), states, labels, i);
  }
}
