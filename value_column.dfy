/** find_best_value_column: which column of a sheet holds the amounts of the
    reporting period. A "current period" header with a number three rows
    below it wins; failing that, the column among 1..6 with the most numeric
    cells in the first hundred rows. */
module ValueColumn {
  import opened Strings
  import opened Workbooks
  import opened Numeric

  /** Rows searched for a period header. */
  const ProbeRows: nat := 15
  /** Distance from a period header down to the amount that confirms it. */
  const ProbeOffset: nat := 3
  /** Rows counted when measuring how numeric a column is. */
  const DensityRows: nat := 100
  /** Columns 1 up to (not including) this one are measured. */
  const DensityEnd: nat := 7

  datatype Position = Position(row: nat, col: nat)

  /** A header text naming the current or a recent period. */
  predicate IsPeriodHeader(text: string) {
    Contains(text, "current") || Contains(text, "2024") || Contains(text, "2025") || Contains(text, "berjalan")
  }

  /** The probe's test of one cell: a period header whose cell three rows
      below reads as a number. */
  predicate ProbeHit(sh: Sheet, env: Env, r: nat, c: nat)
    requires sh.Rectangular() && r < |sh.rows| && c < sh.cols
  {
    IsPeriodHeader(Lower(FilledStr(sh.rows[r][c], env)))
    && r + ProbeOffset < |sh.rows|
    && CleanNumeric(sh.rows[r + ProbeOffset][c]).Some?
  }

  function ProbeLimit(sh: Sheet): nat {
    Min(ProbeRows, |sh.rows|)
  }

  /** (r, c) comes before p in row-major order. */
  predicate Before(r: nat, c: nat, p: Position) {
    r < p.row || (r == p.row && c < p.col)
  }

  /** The first hit of the probe at or after (r, c), rows before ProbeLimit
      scanned left to right, top to bottom. */
  function ProbeFrom(sh: Sheet, env: Env, r: nat, c: nat): (p: Option<Position>)
    requires sh.Rectangular() && r <= ProbeLimit(sh) && c <= sh.cols
    ensures p.Some? ==> (p.value.row < ProbeLimit(sh) && p.value.col < sh.cols
                         && ProbeHit(sh, env, p.value.row, p.value.col)
                         && !Before(p.value.row, p.value.col, Position(r, c)))
    ensures forall rr: nat, cc: nat :: r <= rr < ProbeLimit(sh) && cc < sh.cols && (rr > r || cc >= c)
                          && (p.None? || Before(rr, cc, p.value))
                          ==> !ProbeHit(sh, env, rr, cc)
    decreases ProbeLimit(sh) - r, sh.cols - c
  {
    hide ProbeHit;
    if r == ProbeLimit(sh) then None
    else if c == sh.cols then ProbeFrom(sh, env, r + 1, 0)
    else if ProbeHit(sh, env, r, c) then Some(Position(r, c))
    else ProbeFrom(sh, env, r, c + 1)
  }

  /** pandas' to_numeric(errors='coerce').notna() on one cell. */
  predicate IsNumeric(cell: Cell, env: Env) {
    match cell
    case Num(_) => true
    case Text(s) => env.numericText(s)
    case NaNNum => false
    case Missing => false
  }

  /** The rows among the first n whose cell in column c is numeric. */
  ghost function NumericRows(sh: Sheet, env: Env, c: nat, n: nat): set<nat>
    requires sh.Rectangular() && c < sh.cols && n <= |sh.rows|
  {
    set i: nat | i < n && IsNumeric(sh.rows[i][c], env)
  }

  /** How many of the first n cells of column c are numeric: the size of
      the set of those rows. */
  function CountNumeric(sh: Sheet, env: Env, c: nat, n: nat): (k: nat)
    requires sh.Rectangular() && c < sh.cols && n <= |sh.rows|
    ensures k == |NumericRows(sh, env, c, n)|
    ensures k <= n
  {
    if n == 0 then
      assert NumericRows(sh, env, c, 0) == {};
      0
    else
      var prev := NumericRows(sh, env, c, n - 1);
      assert n - 1 !in prev;
      assert NumericRows(sh, env, c, n) == prev + (if IsNumeric(sh.rows[n - 1][c], env) then {n - 1} else {});
      CountNumeric(sh, env, c, n - 1) + (if IsNumeric(sh.rows[n - 1][c], env) then 1 else 0)
  }

  function NumericCount(sh: Sheet, env: Env, c: nat): nat
    requires sh.Rectangular() && c < sh.cols
  {
    CountNumeric(sh, env, c, Min(DensityRows, |sh.rows|))
  }

  /** The density fallback after columns 1..n-1: the column kept and its
      count. A column replaces the kept one only with a strictly larger
      count, so the first densest column is kept, and column 1 with count 0
      when no column has a numeric cell. */
  function DensityScan(sh: Sheet, env: Env, n: nat): (bm: (nat, nat))
    requires sh.Rectangular() && 1 <= n <= sh.cols
    ensures bm.1 == 0 ==> bm.0 == 1 && forall c :: 1 <= c < n ==> NumericCount(sh, env, c) == 0
    ensures bm.1 > 0 ==> 1 <= bm.0 < n && NumericCount(sh, env, bm.0) == bm.1
    ensures forall c :: 1 <= c < n ==> NumericCount(sh, env, c) <= bm.1
    ensures forall c :: 1 <= c < bm.0 && c < n ==> NumericCount(sh, env, c) < bm.1
  {
    if n == 1 then (1, 0)
    else
      var (best, most) := DensityScan(sh, env, n - 1);
      var k := NumericCount(sh, env, n - 1);
      if k > most then (n - 1, k) else (best, most)
  }

  /** find_best_value_column as a value. */
  function BestValueColumn(sh: Sheet, env: Env): (col: nat)
    requires sh.Rectangular()
    ensures sh.cols < 2 ==> col == 0
    ensures sh.cols > 0 ==> col < sh.cols
  {
    if sh.cols < 2 then 0
    else match ProbeFrom(sh, env, 0, 0)
      case Some(p) => p.col
      case None =>
        var best := DensityScan(sh, env, Min(DensityEnd, sh.cols)).0;
        if best >= sh.cols then 0 else best
  }

  /** The scanner's procedure: nested probe loops that return on the first
      hit, then one pass over columns 1..6 keeping the densest. */
  method FindBestValueColumn(sh: Sheet, env: Env) returns (col: int)
    requires sh.Rectangular()
    ensures col == BestValueColumn(sh, env)
  {
    if sh.cols < 2 {
      return 0;
    }
    var hit := ProbeColumns(sh, env);
    if hit.Some? {
      return hit.value;
    }
    var bestCol := DensityColumns(sh, env);
    col := if bestCol >= sh.cols then 0 else bestCol;
  }

  /** The probe loops: rows before ProbeLimit, columns left to right,
      stopping at the first hit. */
  method ProbeColumns(sh: Sheet, env: Env) returns (hit: Option<nat>)
    requires sh.Rectangular()
    ensures hit.None? <==> ProbeFrom(sh, env, 0, 0).None?
    ensures hit.Some? ==> hit.value == ProbeFrom(sh, env, 0, 0).value.col
  {
    hide CleanNumeric, Lower, FilledStr, IsPeriodHeader;
    var numRows, numCols := |sh.rows|, sh.cols;
    var checkLimit := Min(ProbeRows, numRows);
    var r := 0;
    while r < checkLimit
      invariant r <= checkLimit
      invariant ProbeFrom(sh, env, 0, 0) == ProbeFrom(sh, env, r, 0)
    {
      var c := 0;
      while c < numCols
        invariant c <= numCols
        invariant ProbeFrom(sh, env, 0, 0) == ProbeFrom(sh, env, r, c)
      {
        var v := Lower(FilledStr(sh.rows[r][c], env));
        if IsPeriodHeader(v) {
          if r + 3 < numRows {
            var checkVal := CleanNumeric(sh.rows[r + 3][c]);
            if checkVal.Some? {
              assert ProbeHit(sh, env, r, c);
              return Some(c);
            }
          }
        }
        assert !ProbeHit(sh, env, r, c);
        c := c + 1;
      }
      r := r + 1;
    }
    return None;
  }

  /** The density pass over columns 1..min(7, cols)-1, keeping the first
      column with the largest count. */
  method DensityColumns(sh: Sheet, env: Env) returns (bestCol: nat)
    requires sh.Rectangular() && sh.cols >= 1
    ensures bestCol == DensityScan(sh, env, Min(DensityEnd, sh.cols)).0
  {
    hide NumericCount;
    var maxNumericCount := 0;
    bestCol := 1;
    var scanEnd := Min(DensityEnd, sh.cols);
    var c := 1;
    while c < scanEnd
      invariant c <= scanEnd
      invariant (bestCol, maxNumericCount) == DensityScan(sh, env, c)
    {
      var numericCount := NumericCount(sh, env, c);
      if numericCount > maxNumericCount {
        maxNumericCount := numericCount;
        bestCol := c;
      }
      c := c + 1;
    }
  }

  /** The probe wins: with two or more columns, the first period header in
      row-major order (within the first fifteen rows) that has a number
      three rows below decides the column. */
  lemma BestValueColumnOfProbe(sh: Sheet, env: Env, r: nat, c: nat)
    requires sh.Rectangular() && sh.cols >= 2
    requires r < ProbeLimit(sh) && c < sh.cols && ProbeHit(sh, env, r, c)
    requires forall rr: nat, cc: nat :: rr < ProbeLimit(sh) && cc < sh.cols && Before(rr, cc, Position(r, c))
                           ==> !ProbeHit(sh, env, rr, cc)
    ensures BestValueColumn(sh, env) == c
  {
    hide ProbeHit, DensityScan;
    var p := ProbeFrom(sh, env, 0, 0);
    assert p == Some(Position(r, c));
  }

  /** The density fallback: with two or more columns and no probe hit, the
      column is the first of columns 1..min(7, cols)-1 with the greatest
      count of numeric cells, and column 1 when none of them has one. */
  lemma BestValueColumnOfDensity(sh: Sheet, env: Env)
    requires sh.Rectangular() && sh.cols >= 2
    requires forall rr: nat, cc: nat :: rr < ProbeLimit(sh) && cc < sh.cols ==> !ProbeHit(sh, env, rr, cc)
    ensures var col := BestValueColumn(sh, env);
            1 <= col < Min(DensityEnd, sh.cols)
            && (forall c :: 1 <= c < Min(DensityEnd, sh.cols) ==> NumericCount(sh, env, c) <= NumericCount(sh, env, col))
            && (forall c :: 1 <= c < col ==>
                  (NumericCount(sh, env, c) < NumericCount(sh, env, col) || NumericCount(sh, env, col) == 0))
  {
    assert ProbeFrom(sh, env, 0, 0).None?;
  }
}
