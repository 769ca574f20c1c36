/** The in-memory workbook the scanner receives from the tabular loader: an
    ordered list of sheets, each a rectangular grid of untyped cells, and the
    collaborators outside this model that the scanner consults. */
module Workbooks {
  import opened Strings

  datatype Option<+T> = None | Some(value: T)

  /** One cell as the loader delivers it: a number, a numeric not-a-number,
      text, or an empty cell. */
  datatype Cell = Num(x: real) | NaNNum | Text(s: string) | Missing

  /** A grid with `cols` columns; a sheet may have columns but no rows. */
  datatype Sheet = Sheet(rows: seq<seq<Cell>>, cols: nat) {
    predicate Rectangular() {
      forall r :: 0 <= r < |rows| ==> |rows[r]| == cols
    }

    /** pandas' DataFrame.empty: no rows or no columns. */
    predicate IsEmpty() {
      |rows| == 0 || cols == 0
    }
  }

  function Min(a: int, b: int): int {
    if a < b then a else b
  }

  /** The sheets of one workbook in their declared order (names are never
      consulted by the scanner, so they are not kept). */
  type Workbook = seq<Sheet>

  predicate ValidWorkbook(wb: Workbook) {
    forall k :: 0 <= k < |wb| ==> wb[k].Rectangular()
  }

  /** Collaborators the scanner calls but this model does not reimplement:
      - search(k, text): a case-insensitive Python `re` search of rule
        pattern number k (its text is Rules.PatternText(k)) in a label;
      - numericText(text): whether pandas' to_numeric(errors='coerce') turns
        a text cell into a number rather than NaN;
      - showNumber(x): the text str() gives for a numeric cell, one
        rendering per value (integer and float cells are not told apart). */
  datatype Env = Env(
    search: (nat, string) -> bool,
    numericText: string -> bool,
    showNumber: real -> string)

  /** str(cell) on the raw value: an empty cell reads as NaN, hence "nan". */
  function Str(c: Cell, env: Env): string {
    match c
    case Num(x) => env.showNumber(x)
    case Text(s) => s
    case NaNNum => "nan"
    case Missing => "nan"
  }

  /** fillna("").astype(str): empty cells become the empty string. */
  function FilledStr(c: Cell, env: Env): string {
    match c
    case NaNNum => ""
    case Missing => ""
    case _ => Str(c, env)
  }
}
