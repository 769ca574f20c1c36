/** scan_all: folds every row of every non-empty sheet into one result
    record, first as a specification over values (RowUpdate, SheetStep,
    ScanWorkbook), then as the scanner's own loops over a mutable result object
    (ScanResult, ScanAll) proved to compute the same record. */
module Scan {
  import opened Strings
  import opened Workbooks
  import opened Numeric
  import opened ScaleCurrency
  import opened ValueColumn
  import opened Rules

  /** One entry of the "other items" list: a cleaned label and its scaled amount. */
  datatype OtherItem = OtherItem(description: string, amount: real)

  /** The four primary totals. */
  datatype Totals = Totals(assets: real, liabilities: real, equity: real, netProfit: real) {
    function Get(f: Field): real {
      match f
      case TotalAssets => assets
      case TotalLiabilities => liabilities
      case TotalEquity => equity
      case NetProfit => netProfit
    }

    function Set(f: Field, v: real): (t: Totals)
      ensures t.Get(f) == v
      ensures forall g :: g != f ==> t.Get(g) == Get(g)
    {
      match f
      case TotalAssets => this.(assets := v)
      case TotalLiabilities => this.(liabilities := v)
      case TotalEquity => this.(equity := v)
      case NetProfit => this.(netProfit := v)
    }
  }

  /** The result record: entity name, reporting period, currency, scale
      label, the four totals and the other items in insertion order. */
  datatype Summary = Summary(
    entityName: string,
    reportingPeriod: string,
    currency: Currency,
    scaleLabel: string,
    totals: Totals,
    otherItems: seq<OtherItem>)

  const UnknownEntity: string := "Unknown"
  const DefaultPeriod: string := "2024-12-31"

  const Initial: Summary :=
    Summary(UnknownEntity, DefaultPeriod, IDR, DefaultLabel, Totals(0.0, 0.0, 0.0, 0.0), [])

  /** Labels containing one of these words are collected as other items. */
  const OtherKeywords: seq<string> := [
    "kas dan setara kas", "persediaan", "pendapatan", "beban pokok",
    "laba bruto", "penjualan", "laba usaha", "laba sebelum pajak"
  ]

  const EntityMarker: string := "nama entitas"
  const PeriodMarker: string := "tanggal akhir"

  predicate MentionsOtherKeyword(l: string) {
    exists i :: 0 <= i < |OtherKeywords| && Contains(l, OtherKeywords[i])
  }

  /** Some item already carries this description. */
  predicate Listed(items: seq<OtherItem>, l: string) {
    exists i :: 0 <= i < |items| && items[i].description == l
  }

  /** A label column entry: the cell as text (empty cells as ""),
      lower-cased, then stripped. */
  function CellLabel(sh: Sheet, env: Env, r: nat, c: nat): string
    requires sh.Rectangular() && r < |sh.rows| && c < sh.cols
  {
    Strip(Lower(FilledStr(sh.rows[r][c], env)))
  }

  /** A whole label column, prepared once per sheet. */
  function LabelColumn(sh: Sheet, env: Env, c: nat): (col: seq<string>)
    requires sh.Rectangular() && c < sh.cols
    ensures |col| == |sh.rows|
    ensures forall r :: 0 <= r < |col| ==> col[r] == CellLabel(sh, env, r, c)
  {
    seq(|sh.rows|, r requires 0 <= r < |sh.rows| => CellLabel(sh, env, r, c))
  }

  /** The raw cells of column c. */
  function ColumnCells(sh: Sheet, c: nat): (col: seq<Cell>)
    requires sh.Rectangular() && c < sh.cols
    ensures |col| == |sh.rows|
    ensures forall r :: 0 <= r < |col| ==> col[r] == sh.rows[r][c]
  {
    seq(|sh.rows|, r requires 0 <= r < |sh.rows| => sh.rows[r][c])
  }

  /** What the row loop of one sheet reads: the labels of column 0, those
      of column 1 when the sheet has one, and the cells of the value column. */
  datatype Columns = Columns(labels0: seq<string>, labels1: Option<seq<string>>, values: seq<Cell>)

  predicate Fits(cs: Columns, n: nat) {
    |cs.labels0| == n && |cs.values| == n && (cs.labels1.Some? ==> |cs.labels1.value| == n)
  }

  function SheetColumns(sh: Sheet, env: Env, target: nat): (cs: Columns)
    requires sh.Rectangular() && 0 < sh.cols && target < sh.cols
    ensures Fits(cs, |sh.rows|)
  {
    Columns(LabelColumn(sh, env, 0),
            if sh.cols > 1 then Some(LabelColumn(sh, env, 1)) else None,
            ColumnCells(sh, target))
  }

  /** A label holding a double blank has its whitespace runs collapsed;
      any other label is kept as it is. Either way the text other than
      whitespace is unchanged. */
  function Cleaned(l: string): (c: string)
    ensures |c| > 0 <==> |l| > 0
    ensures !Contains(c, "  ")
    ensures !Contains(l, "  ") ==> c == l
    ensures NonSpace(c) == NonSpace(l)
    ensures Lowered(l) ==> Lowered(c)
  {
    if Contains(l, "  ") then
      var c := CollapseSpaces(l);
      assert !Contains(c, "  ") by {
        forall i | 0 <= i <= |c| - 2
          ensures !OccursAt(c, "  ", i)
        {
          if OccursAt(c, "  ", i) {
            assert c[i] == ' ' && c[i + 1] == ' ' by {
              assert c[i..i + 2] == "  ";
            }
          }
        }
      }
      c
    else l
  }

  /** Entity name (only while it is still unknown) or else reporting period
      (every time) from the row's column-1 text, when the sheet has one.
      At most one of the two changes, a known entity name never does, and
      nothing else in the record is touched. */
  function CaptureMetadata(s: Summary, l: string, side: Option<string>): (t: Summary)
    ensures t == s.(entityName := t.entityName, reportingPeriod := t.reportingPeriod)
    ensures t.entityName == s.entityName || t.reportingPeriod == s.reportingPeriod
    ensures s.entityName != UnknownEntity ==> t.entityName == s.entityName
    ensures side.None? ==> t == s
  {
    if Contains(l, EntityMarker) && s.entityName == UnknownEntity then
      if side.Some? then s.(entityName := side.value) else s
    else if Contains(l, PeriodMarker) then
      if side.Some? then s.(reportingPeriod := side.value) else s
    else s
  }

  /** The row feeds the field the rule table chooses, and only when the
      scaled amount is larger in magnitude than what the field holds. Only
      the totals can change, and only when some rule takes the row. */
  function ApplyTotals(s: Summary, l: string, amount: Option<real>, env: Env): (t: Summary)
    ensures t == s.(totals := t.totals)
    ensures Classify(l, amount, s.totals.assets, env).None? ==> t == s
  {
    match Classify(l, amount, s.totals.assets, env)
    case None => s
    case Some(k) => Feed(s, Targets[k].field, amount.value)
  }

  /** The larger magnitude wins: field f ends with the larger in magnitude
      of its old value and amount, taking amount (sign included) only when
      |amount| strictly exceeds what it holds, so a tie keeps the old value.
      No other field and no other part of the record changes. */
  function Feed(s: Summary, f: Field, amount: real): (t: Summary)
    ensures t == s.(totals := t.totals)
    ensures forall g :: g != f ==> t.totals.Get(g) == s.totals.Get(g)
    ensures Abs(t.totals.Get(f)) >= Abs(s.totals.Get(f)) && Abs(t.totals.Get(f)) >= Abs(amount)
    ensures t.totals.Get(f) == amount || t.totals.Get(f) == s.totals.Get(f)
    ensures Abs(amount) > Abs(s.totals.Get(f)) ==> t.totals.Get(f) == amount
    ensures Abs(amount) <= Abs(s.totals.Get(f)) ==> t == s
  {
    if Abs(amount) > Abs(s.totals.Get(f)) then s.(totals := s.totals.Set(f, amount)) else s
  }

  /** A label with an other-item keyword, a nonzero value and no item of
      its own yet is appended with its scaled amount. The list only grows,
      by at most one item at its end, and afterwards the label is listed
      exactly when it was already or the row qualified. */
  function ApplyOthers(s: Summary, l: string, val: Option<real>, multiplier: real): (t: Summary)
    ensures t == s.(otherItems := t.otherItems)
    ensures s.otherItems <= t.otherItems && |t.otherItems| <= |s.otherItems| + 1
    ensures Listed(t.otherItems, l)
        <==> Listed(s.otherItems, l) || (MentionsOtherKeyword(l) && val.Some? && val.value != 0.0)
    ensures MentionsOtherKeyword(l) && val.Some? && val.value != 0.0 && !Listed(s.otherItems, l) ==>
              t.otherItems == s.otherItems + [OtherItem(l, Scaled(val, multiplier).value)]
    ensures !(MentionsOtherKeyword(l) && val.Some? && val.value != 0.0 && !Listed(s.otherItems, l)) ==> t == s
  {
    if MentionsOtherKeyword(l) && val.Some? && val.value != 0.0 && !Listed(s.otherItems, l) then
      var items := s.otherItems + [OtherItem(l, Scaled(val, multiplier).value)];
      assert items[|s.otherItems|].description == l;
      s.(otherItems := items)
    else s
  }

  /** Every label of both label columns is lower-case. */
  predicate LoweredColumns(cs: Columns) {
    (forall r :: 0 <= r < |cs.labels0| ==> Lowered(cs.labels0[r]))
    && (cs.labels1.Some? ==> forall r :: 0 <= r < |cs.labels1.value| ==> Lowered(cs.labels1.value[r]))
  }

  /** Column 0 is used unless it reads "nan" or nothing and the sheet has a
      column 1. */
  function RawLabel(cs: Columns, r: nat): string
    requires Fits(cs, |cs.labels0|) && r < |cs.labels0|
  {
    var first := cs.labels0[r];
    if (first == "nan" || first == "") && cs.labels1.Some? then cs.labels1.value[r] else first
  }

  /** The label a row is filed under: column 0, or column 1 when column 0
      reads "nan" or nothing; whitespace collapsed; empty when the row has
      none. A label without a double blank is filed as it is, any other
      with its whitespace runs collapsed. It holds no double blank, the same
      text as the chosen column apart from whitespace, and is lower-case
      when the columns are. */
  function RowText(cs: Columns, r: nat): (t: string)
    requires Fits(cs, |cs.labels0|) && r < |cs.labels0|
    ensures !Contains(RawLabel(cs, r), "  ") ==> t == RawLabel(cs, r)
    ensures Contains(RawLabel(cs, r), "  ") ==> t == CollapseSpaces(RawLabel(cs, r))
    ensures t == "" <==> RawLabel(cs, r) == ""
    ensures !Contains(t, "  ")
    ensures NonSpace(t) == NonSpace(RawLabel(cs, r))
    ensures LoweredColumns(cs) ==> Lowered(t)
  {
    var raw := RawLabel(cs, r);
    if raw == "" then
      assert !Contains("", "  ");
      ""
    else Cleaned(raw)
  }

  /** One row as the row loop consumes it: the label it is filed under
      ("" when it has none), its value cell as clean_numeric reads it, and
      the stripped text of its column-1 cell when the sheet has a column 1. */
  datatype RowInput = RowInput(text: string, value: Option<real>, side: Option<string>)

  /** str(cell).strip() of column 1, which only a sheet with two or more
      columns has. */
  function SideText(sh: Sheet, env: Env, r: nat): Option<string>
    requires sh.Rectangular() && r < |sh.rows|
  {
    if sh.cols > 1 then Some(Strip(Str(sh.rows[r][1], env))) else None
  }

  function RowInputAt(sh: Sheet, env: Env, cs: Columns, r: nat): RowInput
    requires sh.Rectangular() && Fits(cs, |sh.rows|) && r < |sh.rows|
  {
    RowInput(RowText(cs, r), CleanNumeric(cs.values[r]), SideText(sh, env, r))
  }

  /** The first n rows of a sheet, read through the chosen columns. */
  function RowInputs(sh: Sheet, env: Env, cs: Columns, n: nat): (rows: seq<RowInput>)
    requires sh.Rectangular() && Fits(cs, |sh.rows|) && n <= |sh.rows|
    ensures |rows| == n
  {
    if n == 0 then [] else RowInputs(sh, env, cs, n - 1) + [RowInputAt(sh, env, cs, n - 1)]
  }

  lemma {:induction false} RowInputsAt(sh: Sheet, env: Env, cs: Columns, n: nat, r: nat)
    requires sh.Rectangular() && Fits(cs, |sh.rows|) && r < n <= |sh.rows|
    ensures RowInputs(sh, env, cs, n)[r] == RowInputAt(sh, env, cs, r)
  {
    hide RowInputAt;
    if r < n - 1 {
      RowInputsAt(sh, env, cs, n - 1, r);
    }
  }

  /** What one row does to the record: a row without a label does nothing,
      and no row touches the currency or the scale label. */
  function RowUpdate(s: Summary, row: RowInput, multiplier: real, env: Env): (t: Summary)
    ensures row.text == "" ==> t == s
    ensures t.currency == s.currency && t.scaleLabel == s.scaleLabel
  {
    if row.text == "" then s
    else
      ApplyOthers(ApplyTotals(CaptureMetadata(s, row.text, row.side), row.text, Scaled(row.value, multiplier), env),
                  row.text, row.value, multiplier)
  }

  /** The first n rows, in order. */
  function RowsUpTo(s: Summary, rows: seq<RowInput>, multiplier: real, env: Env, n: nat): Summary
    requires n <= |rows|
  {
    if n == 0 then s
    else RowUpdate(RowsUpTo(s, rows, multiplier, env, n - 1), rows[n - 1], multiplier, env)
  }

  /** Rows never touch the currency or the scale label; those are set per
      sheet before its rows are read. */
  lemma {:induction false} RowsUpToKeepsSheetFields(s: Summary, rows: seq<RowInput>, multiplier: real, env: Env, n: nat)
    requires n <= |rows|
    ensures var t := RowsUpTo(s, rows, multiplier, env, n);
            t.currency == s.currency && t.scaleLabel == s.scaleLabel
  {
    if n > 0 {
      RowsUpToKeepsSheetFields(s, rows, multiplier, env, n - 1);
    }
  }

  /** What the scanner derives from one non-empty sheet before reading its
      rows: the detected scale and currency, and every row as read through
      the label columns and the chosen value column. */
  datatype SheetInput = SheetInput(detection: Detection, rows: seq<RowInput>)

  function Prepare(sh: Sheet, env: Env): (p: SheetInput)
    requires sh.Rectangular() && !sh.IsEmpty()
    ensures |p.rows| == |sh.rows|
  {
    SheetInput(Detect(sh, env), RowInputs(sh, env, SheetColumns(sh, env, BestValueColumn(sh, env)), |sh.rows|))
  }

  /** A sheet is skipped when empty, and prepared otherwise. */
  function Input(sh: Sheet, env: Env): Option<SheetInput>
    requires sh.Rectangular()
  {
    if sh.IsEmpty() then None else Some(Prepare(sh, env))
  }

  /** The input of every sheet of the workbook, in order. */
  function Inputs(wb: Workbook, env: Env): (ins: seq<Option<SheetInput>>)
    requires ValidWorkbook(wb)
    ensures |ins| == |wb|
    ensures forall i :: 0 <= i < |wb| ==> ins[i] == Input(wb[i], env)
  {
    seq(|wb|, i requires 0 <= i < |wb| => Input(wb[i], env))
  }

  /** A sheet in USD makes the record USD; a sheet with a scale other than
      1 replaces the scale label. Totals, items and metadata are untouched. */
  function RecordDetection(s: Summary, d: Detection): (t: Summary)
    ensures t == s.(currency := t.currency, scaleLabel := t.scaleLabel)
    ensures t.currency == USD <==> s.currency == USD || d.currency == USD
    ensures t.scaleLabel == if d.multiplier != 1.0 then d.scaleLabel else s.scaleLabel
  {
    var s1 := if d.currency == USD then s.(currency := USD) else s;
    if d.multiplier != 1.0 then s1.(scaleLabel := d.scaleLabel) else s1
  }

  /** One sheet: skipped when empty; otherwise its currency and scale are
      recorded and all its rows are read at its scale. */
  function SheetStep(s: Summary, input: Option<SheetInput>, env: Env): Summary {
    match input
    case None => s
    case Some(p) => RowsUpTo(RecordDetection(s, p.detection), p.rows, p.detection.multiplier, env, |p.rows|)
  }

  /** The first k sheets, in workbook order. */
  function ScanPrefix(ins: seq<Option<SheetInput>>, env: Env, k: nat): Summary
    requires k <= |ins|
  {
    if k == 0 then Initial else SheetStep(ScanPrefix(ins, env, k - 1), ins[k - 1], env)
  }

  /** scan_all as a value. */
  function ScanWorkbook(wb: Workbook, env: Env): Summary
    requires ValidWorkbook(wb)
  {
    ScanPrefix(Inputs(wb, env), env, |wb|)
  }

  /** The value column the scanner settles on, and the two label columns
    read as stripped lower-case text. */
  method ReadColumns(sh: Sheet, env: Env) returns (cs: Columns)
    requires sh.Rectangular() && !sh.IsEmpty()
    ensures cs == SheetColumns(sh, env, BestValueColumn(sh, env))
  {
    var targetCol := FindBestValueColumn(sh, env);
    var labelsCol0 := LabelColumn(sh, env, 0);
    var labelsCol1: Option<seq<string>> := None;
    if sh.cols > 1 {
      labelsCol1 := Some(LabelColumn(sh, env, 1));
    }
    var valuesCol := ColumnCells(sh, targetCol);
    cs := Columns(labelsCol0, labelsCol1, valuesCol);
  }

  /** The result dictionary scan_all builds and updates in place. */
  class ScanResult {
    var entityName: string
    var reportingPeriod: string
    var currency: Currency
    var scaleLabel: string
    var totalAssets: real
    var totalLiabilities: real
    var totalEquity: real
    var netProfit: real
    var otherItems: seq<OtherItem>

    function Snapshot(): Summary
      reads this
    {
      Summary(entityName, reportingPeriod, currency, scaleLabel,
              Totals(totalAssets, totalLiabilities, totalEquity, netProfit), otherItems)
    }

    constructor ()
      ensures Snapshot() == Initial
    {
      entityName := UnknownEntity;
      reportingPeriod := DefaultPeriod;
      currency := IDR;
      scaleLabel := DefaultLabel;
      totalAssets, totalLiabilities, totalEquity, netProfit := 0.0, 0.0, 0.0, 0.0;
      otherItems := [];
    }

    function Total(f: Field): real
      reads this
    {
      Snapshot().totals.Get(f)
    }

    /** res[key] = v for one of the four totals. */
    method SetTotal(f: Field, v: real)
      modifies this
      ensures Snapshot() == old(Snapshot()).(totals := old(Snapshot()).totals.Set(f, v))
    {
      match f
      case TotalAssets => totalAssets := v;
      case TotalLiabilities => totalLiabilities := v;
      case TotalEquity => totalEquity := v;
      case NetProfit => netProfit := v;
    }

    /** Entity name or reporting period from column 1. */
    method RecordMetadata(sh: Sheet, env: Env, r: nat, labelClean: string)
      requires sh.Rectangular() && r < |sh.rows|
      modifies this
      ensures Snapshot() == CaptureMetadata(old(Snapshot()), labelClean, SideText(sh, env, r))
    {
      hide Strip, Contains, Str;
      if Contains(labelClean, EntityMarker) && entityName == UnknownEntity {
        if sh.cols > 1 {
          entityName := Strip(Str(sh.rows[r][1], env));
        }
      } else if Contains(labelClean, PeriodMarker) {
        if sh.cols > 1 {
          reportingPeriod := Strip(Str(sh.rows[r][1], env));
        }
      }
    }

    /** A value read for key: scaled, skipped when it is a net profit above
      positive total assets, otherwise offered to the field (which keeps the
      larger magnitude). */
    method Offer(key: Field, finalVal: real) returns (taken: bool)
      modifies this
      ensures taken <==> Plausible(key, finalVal, old(totalAssets))
      ensures taken ==> Snapshot() == Feed(old(Snapshot()), key, finalVal)
      ensures !taken ==> Snapshot() == old(Snapshot())
    {
      if key == NetProfit && totalAssets > 0.0 {
        if Abs(finalVal) > totalAssets {
          return false;
        }
      }
      if Abs(finalVal) > Abs(Total(key)) {
        SetTotal(key, finalVal);
      }
      taken := true;
    }

    /** One pattern of a key: when it is found in the label, the value cell
      is read (unless already read) and, if it reads as a number, offered. */
    method TryPattern(t: Target, j: nat, labelClean: string, cell: Cell, multiplier: real, env: Env, cached: Option<real>)
      returns (matched: bool, currentVal: Option<real>)
      requires j < |t.patterns|
      requires cached.None? || cached == CleanNumeric(cell)
      modifies this
      ensures currentVal.None? || currentVal == CleanNumeric(cell)
      ensures var amount := Scaled(CleanNumeric(cell), multiplier);
              matched <==> env.search(t.patterns[j], labelClean) && amount.Some?
                           && Plausible(t.field, amount.value, old(totalAssets))
      ensures matched ==> Snapshot() == Feed(old(Snapshot()), t.field, Scaled(CleanNumeric(cell), multiplier).value)
      ensures !matched ==> Snapshot() == old(Snapshot())
    {
      hide CleanNumeric, Scaled;
      matched, currentVal := false, cached;
      if env.search(t.patterns[j], labelClean) {
        if currentVal.None? {
          currentVal := CleanNumeric(cell);
        }
        if currentVal.Some? {
          var finalVal := Scaled(currentVal, multiplier).value;
          matched := Offer(t.field, finalVal);
        }
      }
    }

    /** The patterns of one key, in order. The value cell is read the first
      time a pattern matches (unless an earlier key read it) and kept in
      currentVal. A value the sanity bound rejects moves on to the next
      pattern; any other value ends the walk. */
    method TryKey(t: Target, labelClean: string, cell: Cell, multiplier: real, env: Env, cached: Option<real>)
      returns (matched: bool, currentVal: Option<real>)
      requires cached.None? || cached == CleanNumeric(cell)
      modifies this
      ensures currentVal.None? || currentVal == CleanNumeric(cell)
      ensures matched <==> Accepts(t, labelClean, Scaled(CleanNumeric(cell), multiplier), old(totalAssets), env)
      ensures matched ==> Snapshot() == Feed(old(Snapshot()), t.field, Scaled(CleanNumeric(cell), multiplier).value)
      ensures !matched ==> Snapshot() == old(Snapshot())
    {
      hide CleanNumeric, Scaled, Feed;
      ghost var val := CleanNumeric(cell);
      ghost var amount := Scaled(val, multiplier);
      ghost var usable := amount.Some? && Plausible(t.field, amount.value, totalAssets);
      matched, currentVal := false, cached;
      for j := 0 to |t.patterns|
        invariant !matched
        invariant currentVal.None? || currentVal == val
        invariant Snapshot() == old(Snapshot())
        invariant usable ==> forall jj :: 0 <= jj < j ==> !env.search(t.patterns[jj], labelClean)
      {
        matched, currentVal := TryPattern(t, j, labelClean, cell, multiplier, env, currentVal);
        if matched {
          break;
        }
      }
    }

    /** The rule table walked key by key; the first key that takes the row
      ends the walk. */
    method ApplyRules(labelClean: string, cell: Cell, multiplier: real, env: Env) returns (currentVal: Option<real>)
      modifies this
      ensures Snapshot() == ApplyTotals(old(Snapshot()), labelClean, Scaled(CleanNumeric(cell), multiplier), env)
      ensures currentVal.None? || currentVal == CleanNumeric(cell)
    {
      ghost var val := CleanNumeric(cell);
      ghost var amount := Scaled(val, multiplier);
      ghost var assets := totalAssets;
      currentVal := None;
      for i := 0 to |Targets|
        invariant currentVal.None? || currentVal == val
        invariant Snapshot() == old(Snapshot())
        invariant Classify(labelClean, amount, assets, env)
               == ClassifyFrom(i, labelClean, amount, assets, env)
      {
        var matched;
        matched, currentVal := TryKey(Targets[i], labelClean, cell, multiplier, env, currentVal);
        if matched {
          assert ClassifyFrom(i, labelClean, amount, assets, env) == Some(i);
          break;
        }
      }
    }

    /** The other-items check, reusing the value read by the rules if any. */
    method CollectOther(labelClean: string, cell: Cell, multiplier: real, currentVal: Option<real>)
      requires currentVal.None? || currentVal == CleanNumeric(cell)
      modifies this
      ensures Snapshot() == ApplyOthers(old(Snapshot()), labelClean, CleanNumeric(cell), multiplier)
    {
      hide ApplyOthers, CleanNumeric, Scaled;
      if MentionsOtherKeyword(labelClean) {
        var v := currentVal;
        if v.None? {
          v := CleanNumeric(cell);
        }
        assert v == CleanNumeric(cell);
        if v.Some? && v.value != 0.0 {
          if !Listed(otherItems, labelClean) {
            otherItems := otherItems + [OtherItem(labelClean, Scaled(v, multiplier).value)];
          }
        }
      }
    }

    /** The body of the row loop. */
    method ScanRow(sh: Sheet, env: Env, cs: Columns, multiplier: real, r: nat)
      requires sh.Rectangular() && Fits(cs, |sh.rows|) && r < |sh.rows|
      modifies this
      ensures Snapshot() == RowUpdate(old(Snapshot()), RowInputAt(sh, env, cs, r), multiplier, env)
    {
      var labelClean := cs.labels0[r];
      if (labelClean == "nan" || labelClean == "") && cs.labels1.Some? {
        labelClean := cs.labels1.value[r];
      }
      if labelClean == "" {
        return;
      }
      if Contains(labelClean, "  ") {
        labelClean := CollapseSpaces(labelClean);
      }
      RecordMetadata(sh, env, r, labelClean);
      var currentVal := ApplyRules(labelClean, cs.values[r], multiplier, env);
      CollectOther(labelClean, cs.values[r], multiplier, currentVal);
    }

    /** Every row of the sheet in order. */
    method ScanRows(sh: Sheet, env: Env, cs: Columns, multiplier: real)
      requires sh.Rectangular() && Fits(cs, |sh.rows|)
      modifies this
      ensures Snapshot() == RowsUpTo(old(Snapshot()), RowInputs(sh, env, cs, |sh.rows|), multiplier, env, |sh.rows|)
    {
      hide CleanNumeric, RowUpdate, RowInputAt, RowInputs;
      ghost var start := Snapshot();
      ghost var rows := RowInputs(sh, env, cs, |sh.rows|);
      for r := 0 to |sh.rows|
        invariant Snapshot() == RowsUpTo(start, rows, multiplier, env, r)
      {
        ScanRow(sh, env, cs, multiplier, r);
        RowInputsAt(sh, env, cs, |sh.rows|, r);
      }
    }

    /** One non-empty sheet: its scale and currency, its value column, then
      every row in order. */
    method ScanSheet(sh: Sheet, env: Env) returns (sheetCurrency: Currency)
      requires sh.Rectangular() && !sh.IsEmpty()
      modifies this
      ensures Snapshot() == SheetStep(old(Snapshot()), Some(Prepare(sh, env)), env)
      ensures sheetCurrency == Detect(sh, env).currency
      ensures currency == (if sheetCurrency == USD then USD else old(currency))
    {
      ghost var before := Snapshot();
      var sheetMultiplier, sheetScaleLabel;
      sheetMultiplier, sheetCurrency, sheetScaleLabel := DetectScaleAndCurrency(sh, env);
      ghost var d := Detection(sheetMultiplier, sheetCurrency, sheetScaleLabel);
      if sheetCurrency == USD {
        currency := USD;
      }
      if sheetMultiplier != 1.0 {
        scaleLabel := sheetScaleLabel;
      }
      var cs := ReadColumns(sh, env);
      ghost var start := Snapshot();
      ScanRows(sh, env, cs, sheetMultiplier);
      assert start == RecordDetection(before, d);
      RowsUpToKeepsSheetFields(start, RowInputs(sh, env, cs, |sh.rows|), sheetMultiplier, env, |sh.rows|);
      assert Prepare(sh, env) == SheetInput(d, RowInputs(sh, env, cs, |sh.rows|));
    }
  }

  /** scan_all: every sheet in order, then the currency seen overall. */
  method ScanAll(wb: Workbook, env: Env) returns (res: ScanResult)
    requires ValidWorkbook(wb)
    ensures res.Snapshot() == ScanWorkbook(wb, env)
  {
    res := new ScanResult();
    var globalCurrency := IDR;
    ghost var ins := Inputs(wb, env);
    for k := 0 to |wb|
      invariant res.Snapshot() == ScanPrefix(ins, env, k)
      invariant globalCurrency == res.currency
    {
      var sh := wb[k];
      assert ins[k] == Input(sh, env);
      if sh.IsEmpty() {
        continue;
      }
      var sheetCurrency := res.ScanSheet(sh, env);
      if sheetCurrency == USD {
        globalCurrency := USD;
      }
    }
    res.currency := globalCurrency;
  }
}
