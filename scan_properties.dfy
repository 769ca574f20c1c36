/** What scan_all promises about the record it returns, proved over the
    specification fold of module Scan (and so, through ScanAll's
    postcondition, about the scanner's own loops). Most lemmas hold for any
    row and sheet inputs; the last ones specialise them to the inputs a
    workbook yields. */
module ScanProperties {
  import opened Strings
  import opened Workbooks
  import opened ScaleCurrency
  import opened Rules
  import opened ValueColumn
  import opened Scan

  // ---------------------------------------------------------------------
  // Totals: the larger magnitude wins, one field per row, net-profit bound
  // ---------------------------------------------------------------------

  /** The row is labelled, offers an amount, and the first rule that takes
      it is the one for field f. */
  predicate Offers(s: Summary, row: RowInput, multiplier: real, env: Env, f: Field) {
    var c := Classify(row.text, Scaled(row.value, multiplier), s.totals.assets, env);
    row.text != "" && Scaled(row.value, multiplier).Some? && c.Some? && Targets[c.value].field == f
  }

  /** One row. No total loses magnitude; the field the row is offered to
      ends at least as large in magnitude as the row's scaled amount, and
      takes that amount when it is strictly larger; a total that changes
      takes exactly the row's scaled amount (so keeps that amount's sign);
      it is the field of the first rule that accepts the row; hence at most
      one total changes; and a net profit above positive total assets is
      never recorded. */
  lemma RowTotals(s: Summary, row: RowInput, multiplier: real, env: Env)
    ensures var t := RowUpdate(s, row, multiplier, env);
            (forall f :: Abs(t.totals.Get(f)) >= Abs(s.totals.Get(f)))
            && (forall f :: Offers(s, row, multiplier, env, f) ==>
                  Abs(t.totals.Get(f)) >= Abs(Scaled(row.value, multiplier).value)
                  && (Abs(Scaled(row.value, multiplier).value) > Abs(s.totals.Get(f))
                      ==> t.totals.Get(f) == Scaled(row.value, multiplier).value))
            && (forall f :: t.totals.Get(f) != s.totals.Get(f) ==>
                  row.text != "" && row.value.Some? && t.totals.Get(f) == row.value.value * multiplier
                  && Classify(row.text, Scaled(row.value, multiplier), s.totals.assets, env).Some?
                  && Targets[Classify(row.text, Scaled(row.value, multiplier), s.totals.assets, env).value].field == f)
            && (forall f, g :: t.totals.Get(f) != s.totals.Get(f) && t.totals.Get(g) != s.totals.Get(g) ==> f == g)
            && (t.totals.netProfit != s.totals.netProfit && s.totals.assets > 0.0 ==>
                  Abs(t.totals.netProfit) <= s.totals.assets)
  {
    if row.text != "" {
      var s1 := CaptureMetadata(s, row.text, row.side);
      assert s1.totals == s.totals;
      var s2 := ApplyTotals(s1, row.text, Scaled(row.value, multiplier), env);
      assert RowUpdate(s, row, multiplier, env).totals == s2.totals;
      TotalsStep(s1, row.text, Scaled(row.value, multiplier), env);
    }
  }

  /** The totals step of one labelled row, on its own. */
  lemma TotalsStep(s: Summary, l: string, amount: Option<real>, env: Env)
    ensures var t := ApplyTotals(s, l, amount, env);
            var c := Classify(l, amount, s.totals.assets, env);
            (forall f :: Abs(t.totals.Get(f)) >= Abs(s.totals.Get(f)))
            && (c.Some? ==>
                  amount.Some?
                  && Abs(t.totals.Get(Targets[c.value].field)) >= Abs(amount.value)
                  && (Abs(amount.value) > Abs(s.totals.Get(Targets[c.value].field))
                      ==> t.totals.Get(Targets[c.value].field) == amount.value))
            && (forall f :: t.totals.Get(f) != s.totals.Get(f) ==>
                  amount.Some? && t.totals.Get(f) == amount.value && c.Some? && Targets[c.value].field == f)
            && (forall f, g :: t.totals.Get(f) != s.totals.Get(f) && t.totals.Get(g) != s.totals.Get(g) ==> f == g)
            && (t.totals.netProfit != s.totals.netProfit && s.totals.assets > 0.0 ==>
                  Abs(t.totals.netProfit) <= s.totals.assets)
  {
    var c := Classify(l, amount, s.totals.assets, env);
    if c.Some? {
      var k := c.value;
      var f := Targets[k].field;
      assert amount.Some? && Plausible(f, amount.value, s.totals.assets);
    }
  }

  /** Over any run of rows, no total loses magnitude. */
  lemma {:induction false} RowsTotalsGrow(s: Summary, rows: seq<RowInput>, multiplier: real, env: Env, n: nat)
    requires n <= |rows|
    ensures forall f :: Abs(RowsUpTo(s, rows, multiplier, env, n).totals.Get(f)) >= Abs(s.totals.Get(f))
  {
    if n > 0 {
      RowsTotalsGrow(s, rows, multiplier, env, n - 1);
      RowTotals(RowsUpTo(s, rows, multiplier, env, n - 1), rows[n - 1], multiplier, env);
    }
  }

  /** Over a run of rows, every total ends at least as large in magnitude
      as every amount a rule offered to its field along the way: the
      largest magnitude wins. */
  lemma RowsTotalsDominate(s: Summary, rows: seq<RowInput>, multiplier: real, env: Env, n: nat)
    requires n <= |rows|
    ensures forall r, f :: 0 <= r < n && Offers(RowsUpTo(s, rows, multiplier, env, r), rows[r], multiplier, env, f)
              ==> Abs(RowsUpTo(s, rows, multiplier, env, n).totals.Get(f)) >= Abs(Scaled(rows[r].value, multiplier).value)
  {
    forall r, f | 0 <= r < n && Offers(RowsUpTo(s, rows, multiplier, env, r), rows[r], multiplier, env, f)
      ensures Abs(RowsUpTo(s, rows, multiplier, env, n).totals.Get(f)) >= Abs(Scaled(rows[r].value, multiplier).value)
    {
      OfferDominates(s, rows, multiplier, env, r, f, n);
    }
  }

  /** The amount row r offered to field f is dominated by that field's
      total after any later row. */
  lemma {:induction false} OfferDominates(s: Summary, rows: seq<RowInput>, multiplier: real, env: Env, r: nat, f: Field, n: nat)
    requires r < n <= |rows|
    requires Offers(RowsUpTo(s, rows, multiplier, env, r), rows[r], multiplier, env, f)
    ensures Abs(RowsUpTo(s, rows, multiplier, env, n).totals.Get(f)) >= Abs(Scaled(rows[r].value, multiplier).value)
  {
    hide RowUpdate, Offers, Collects, Classify, Scaled, WellFormedItems;
    var prev := RowsUpTo(s, rows, multiplier, env, n - 1);
    assert RowsUpTo(s, rows, multiplier, env, n) == RowUpdate(prev, rows[n - 1], multiplier, env);
    RowTotals(prev, rows[n - 1], multiplier, env);
    hide *;
    if r < n - 1 {
      OfferDominates(s, rows, multiplier, env, r, f, n - 1);
    }
  }

  lemma SheetTotalsGrow(s: Summary, input: Option<SheetInput>, env: Env)
    ensures forall f :: Abs(SheetStep(s, input, env).totals.Get(f)) >= Abs(s.totals.Get(f))
  {
    if input.Some? {
      var p := input.value;
      RowsTotalsGrow(RecordDetection(s, p.detection), p.rows, p.detection.multiplier, env, |p.rows|);
    }
  }

  /** Across the sheets the magnitude of every total only grows: a later
      sheet never replaces a figure by a smaller one. */
  lemma {:induction false} ScanTotalsGrow(ins: seq<Option<SheetInput>>, env: Env, j: nat, k: nat)
    requires j <= k <= |ins|
    ensures forall f :: Abs(ScanPrefix(ins, env, k).totals.Get(f)) >= Abs(ScanPrefix(ins, env, j).totals.Get(f))
    decreases k - j
  {
    if j < k {
      ScanTotalsGrow(ins, env, j, k - 1);
      SheetTotalsGrow(ScanPrefix(ins, env, k - 1), ins[k - 1], env);
    }
  }

  // ---------------------------------------------------------------------
  // Other items
  // ---------------------------------------------------------------------

  /** The shape of the other-items list: one entry per description, each
      description non-empty, lower-case, free of double blanks and holding
      an other-item keyword, each amount nonzero. */
  predicate WellFormedItems(items: seq<OtherItem>) {
    (forall i, j :: 0 <= i < j < |items| ==> items[i].description != items[j].description)
    && (forall i :: 0 <= i < |items| ==>
          items[i].amount != 0.0 && items[i].description != "" && Lowered(items[i].description)
          && !Contains(items[i].description, "  ") && MentionsOtherKeyword(items[i].description))
  }

  /** The row is filed as an other item: a label with a keyword, a nonzero
      value, and no item with that label yet. */
  predicate Collects(items: seq<OtherItem>, row: RowInput) {
    row.text != "" && MentionsOtherKeyword(row.text) && row.value.Some? && row.value.value != 0.0
    && !Listed(items, row.text)
  }

  /** A row that qualifies appends exactly its label and scaled amount, and
      any other row leaves the list as it is; so an existing item is never
      altered and the first value recorded for a description stays. The
      list stays well formed when the multiplier is nonzero and the label
      is lower-case without a double blank. */
  lemma RowOthers(s: Summary, row: RowInput, multiplier: real, env: Env)
    ensures var t := RowUpdate(s, row, multiplier, env);
            (Collects(s.otherItems, row) ==>
               t.otherItems == s.otherItems + [OtherItem(row.text, Scaled(row.value, multiplier).value)])
            && (!Collects(s.otherItems, row) ==> t.otherItems == s.otherItems)
            && s.otherItems <= t.otherItems && |t.otherItems| <= |s.otherItems| + 1
            && (WellFormedItems(s.otherItems) && multiplier != 0.0
                && Lowered(row.text) && !Contains(row.text, "  ")
                ==> WellFormedItems(t.otherItems))
  {
    if row.text != "" {
      var t := RowUpdate(s, row, multiplier, env);
      RowUpdateOthers(s, row, multiplier, env);
      hide RowUpdate, WellFormedItems;
      if Collects(s.otherItems, row) && multiplier != 0.0 && Lowered(row.text) && !Contains(row.text, "  ") {
        ScaledNonzero(row.value, multiplier);
        WellFormedAppend(s.otherItems, OtherItem(row.text, Scaled(row.value, multiplier).value));
      }
    }
  }

  /** A labelled row does to the list exactly what its other-items step does. */
  lemma RowUpdateOthers(s: Summary, row: RowInput, multiplier: real, env: Env)
    requires row.text != ""
    ensures Collects(s.otherItems, row) ==>
              RowUpdate(s, row, multiplier, env).otherItems == s.otherItems + [OtherItem(row.text, Scaled(row.value, multiplier).value)]
    ensures !Collects(s.otherItems, row) ==> RowUpdate(s, row, multiplier, env).otherItems == s.otherItems
  {
    var s1 := CaptureMetadata(s, row.text, row.side);
    var s2 := ApplyTotals(s1, row.text, Scaled(row.value, multiplier), env);
    assert s2.otherItems == s.otherItems;
    assert RowUpdate(s, row, multiplier, env) == ApplyOthers(s2, row.text, row.value, multiplier);
    if Collects(s.otherItems, row) {
      assert MentionsOtherKeyword(row.text) && row.value.Some? && row.value.value != 0.0 && !Listed(s2.otherItems, row.text);
    }
  }

  /** A new item with a fresh, clean description and a nonzero amount keeps
      the list well formed. */
  lemma WellFormedAppend(items: seq<OtherItem>, x: OtherItem)
    requires x.amount != 0.0 && x.description != "" && Lowered(x.description)
    requires !Contains(x.description, "  ") && MentionsOtherKeyword(x.description)
    requires !Listed(items, x.description)
    ensures WellFormedItems(items) ==> WellFormedItems(items + [x])
  {
  }

  /** Every row label is lower-case and holds no double blank. */
  predicate CleanRows(rows: seq<RowInput>) {
    forall r :: 0 <= r < |rows| ==> Lowered(rows[r].text) && !Contains(rows[r].text, "  ")
  }

  lemma {:induction false} RowsOthers(s: Summary, rows: seq<RowInput>, multiplier: real, env: Env, n: nat)
    requires n <= |rows|
    ensures var t := RowsUpTo(s, rows, multiplier, env, n);
            s.otherItems <= t.otherItems
            && (WellFormedItems(s.otherItems) && multiplier != 0.0 && CleanRows(rows)
                ==> WellFormedItems(t.otherItems))
  {
    if n > 0 {
      RowsOthers(s, rows, multiplier, env, n - 1);
      RowOthers(RowsUpTo(s, rows, multiplier, env, n - 1), rows[n - 1], multiplier, env);
    }
  }

  /** Over a run of rows, every row that qualifies as an other item leaves
      its label and scaled amount in the list for good: the first value
      seen for a description is the one kept. */
  lemma RowsOthersCaptured(s: Summary, rows: seq<RowInput>, multiplier: real, env: Env, n: nat)
    requires n <= |rows|
    ensures forall r :: 0 <= r < n && Collects(RowsUpTo(s, rows, multiplier, env, r).otherItems, rows[r])
              ==> OtherItem(rows[r].text, Scaled(rows[r].value, multiplier).value) in RowsUpTo(s, rows, multiplier, env, n).otherItems
  {
    forall r | 0 <= r < n && Collects(RowsUpTo(s, rows, multiplier, env, r).otherItems, rows[r])
      ensures OtherItem(rows[r].text, Scaled(rows[r].value, multiplier).value) in RowsUpTo(s, rows, multiplier, env, n).otherItems
    {
      CapturedStays(s, rows, multiplier, env, r, n);
    }
  }

  /** The item row r appended is still listed after any later row. */
  lemma {:induction false} CapturedStays(s: Summary, rows: seq<RowInput>, multiplier: real, env: Env, r: nat, n: nat)
    requires r < n <= |rows|
    requires Collects(RowsUpTo(s, rows, multiplier, env, r).otherItems, rows[r])
    ensures OtherItem(rows[r].text, Scaled(rows[r].value, multiplier).value) in RowsUpTo(s, rows, multiplier, env, n).otherItems
  {
    hide RowUpdate, Offers, Classify, Scaled, WellFormedItems;
    var prev := RowsUpTo(s, rows, multiplier, env, n - 1);
    var t := RowsUpTo(s, rows, multiplier, env, n);
    var x := OtherItem(rows[r].text, Scaled(rows[r].value, multiplier).value);
    assert t == RowUpdate(prev, rows[n - 1], multiplier, env);
    RowOthers(prev, rows[n - 1], multiplier, env);
    hide *;
    if r < n - 1 {
      CapturedStays(s, rows, multiplier, env, r, n - 1);
      PrefixKeepsMembers(prev.otherItems, t.otherItems);
    } else {
      assert t.otherItems[|prev.otherItems|] == x;
    }
  }

  lemma PrefixKeepsMembers(a: seq<OtherItem>, b: seq<OtherItem>)
    requires a <= b
    ensures forall x :: x in a ==> x in b
  {
    forall x | x in a
      ensures x in b
    {
      var i :| 0 <= i < |a| && a[i] == x;
      assert b[i] == x;
    }
  }

  /** What a prepared sheet guarantees: a nonzero multiplier and labels
      that are lower-case and without double blanks. */
  predicate CleanInput(input: Option<SheetInput>) {
    input.Some? ==> input.value.detection.multiplier != 0.0 && CleanRows(input.value.rows)
  }

  lemma SheetOthers(s: Summary, input: Option<SheetInput>, env: Env)
    ensures var t := SheetStep(s, input, env);
            s.otherItems <= t.otherItems
            && (WellFormedItems(s.otherItems) && CleanInput(input) ==> WellFormedItems(t.otherItems))
  {
    if input.Some? {
      var p := input.value;
      RowsOthers(RecordDetection(s, p.detection), p.rows, p.detection.multiplier, env, |p.rows|);
    }
  }

  /** The other-items list after any number of clean sheets is well formed. */
  lemma {:induction false} ScanOthersWellFormed(ins: seq<Option<SheetInput>>, env: Env, k: nat)
    requires k <= |ins|
    requires forall i :: 0 <= i < |ins| ==> CleanInput(ins[i])
    ensures WellFormedItems(ScanPrefix(ins, env, k).otherItems)
  {
    if k > 0 {
      ScanOthersWellFormed(ins, env, k - 1);
      SheetOthers(ScanPrefix(ins, env, k - 1), ins[k - 1], env);
    }
  }

  /** What an earlier sheet recorded is kept unchanged as a prefix: the
      first value seen for a description wins. */
  lemma {:induction false} ScanOthersPrefix(ins: seq<Option<SheetInput>>, env: Env, j: nat, k: nat)
    requires j <= k <= |ins|
    ensures ScanPrefix(ins, env, j).otherItems <= ScanPrefix(ins, env, k).otherItems
    decreases k - j
  {
    if j < k {
      ScanOthersPrefix(ins, env, j, k - 1);
      SheetOthers(ScanPrefix(ins, env, k - 1), ins[k - 1], env);
    }
  }

  /** Every sheet the scanner prepares is clean. */
  lemma PrepareClean(sh: Sheet, env: Env)
    requires sh.Rectangular()
    ensures CleanInput(Input(sh, env))
  {
    if !sh.IsEmpty() {
      var target := BestValueColumn(sh, env);
      var cs := SheetColumns(sh, env, target);
      assert Input(sh, env) == Some(SheetInput(Detect(sh, env), RowInputs(sh, env, cs, |sh.rows|)));
      assert Detect(sh, env).multiplier != 0.0;
      ColumnsLowered(sh, env, target);
      RowsClean(sh, env, cs);
    }
  }

  /** Rows read from lower-cased label columns are clean. */
  lemma RowsClean(sh: Sheet, env: Env, cs: Columns)
    requires sh.Rectangular() && Fits(cs, |sh.rows|) && LoweredColumns(cs)
    ensures CleanRows(RowInputs(sh, env, cs, |sh.rows|))
  {
    var rows := RowInputs(sh, env, cs, |sh.rows|);
    forall r | 0 <= r < |rows|
      ensures Lowered(rows[r].text) && !Contains(rows[r].text, "  ")
    {
      RowInputsAt(sh, env, cs, |sh.rows|, r);
    }
  }

  /** Label cells are lower-cased before they are stripped. */
  lemma ColumnsLowered(sh: Sheet, env: Env, target: nat)
    requires sh.Rectangular() && 0 < sh.cols && target < sh.cols
    ensures LoweredColumns(SheetColumns(sh, env, target))
  {
    forall c, r | 0 <= c < Min(2, sh.cols) && 0 <= r < |sh.rows|
      ensures Lowered(CellLabel(sh, env, r, c))
    {
      StripLowered(Lower(FilledStr(sh.rows[r][c], env)));
    }
  }

  // ---------------------------------------------------------------------
  // Entity name and reporting period
  // ---------------------------------------------------------------------

  /** One row: the entity name is taken from the row's column-1 text only
      while it is still "Unknown"; the reporting period is taken from it by
      every row naming it (the last such row wins) unless that row instead
      fills the entity name; without a column 1 neither is taken. */
  lemma RowMetadata(s: Summary, row: RowInput, multiplier: real, env: Env)
    ensures var t := RowUpdate(s, row, multiplier, env);
            var entityRow := row.text != "" && Contains(row.text, EntityMarker) && s.entityName == UnknownEntity;
            var periodRow := row.text != "" && !entityRow && Contains(row.text, PeriodMarker);
            (t.entityName == if entityRow && row.side.Some? then row.side.value else s.entityName)
            && (t.reportingPeriod == if periodRow && row.side.Some? then row.side.value else s.reportingPeriod)
  {
    if row.text != "" {
      var s1 := CaptureMetadata(s, row.text, row.side);
      var amount := Scaled(row.value, multiplier);
      assert ApplyTotals(s1, row.text, amount, env) == s1.(totals := ApplyTotals(s1, row.text, amount, env).totals);
    }
  }

  /** No row carries column-1 text. */
  predicate NoSideTexts(rows: seq<RowInput>) {
    forall r :: 0 <= r < |rows| ==> rows[r].side.None?
  }

  lemma {:induction false} RowsMetadata(s: Summary, rows: seq<RowInput>, multiplier: real, env: Env, n: nat)
    requires n <= |rows|
    ensures var t := RowsUpTo(s, rows, multiplier, env, n);
            (s.entityName != UnknownEntity ==> t.entityName == s.entityName)
            && (NoSideTexts(rows) ==> t.entityName == s.entityName && t.reportingPeriod == s.reportingPeriod)
  {
    if n > 0 {
      RowsMetadata(s, rows, multiplier, env, n - 1);
      RowMetadata(RowsUpTo(s, rows, multiplier, env, n - 1), rows[n - 1], multiplier, env);
    }
  }

  /** A known entity name is never replaced, and a sheet whose rows carry no
      column-1 text changes neither the entity name nor the reporting period. */
  lemma SheetMetadata(s: Summary, input: Option<SheetInput>, env: Env)
    ensures var t := SheetStep(s, input, env);
            (s.entityName != UnknownEntity ==> t.entityName == s.entityName)
            && (input.Some? && NoSideTexts(input.value.rows)
                ==> t.entityName == s.entityName && t.reportingPeriod == s.reportingPeriod)
  {
    if input.Some? {
      var p := input.value;
      RowsMetadata(RecordDetection(s, p.detection), p.rows, p.detection.multiplier, env, |p.rows|);
    }
  }

  /** A single-column sheet has no column-1 text to offer. */
  lemma SingleColumnNoSideTexts(sh: Sheet, env: Env)
    requires sh.Rectangular() && sh.cols == 1 && |sh.rows| > 0
    ensures NoSideTexts(Prepare(sh, env).rows)
  {
    var cs := SheetColumns(sh, env, BestValueColumn(sh, env));
    forall r | 0 <= r < |sh.rows|
      ensures RowInputs(sh, env, cs, |sh.rows|)[r].side.None?
    {
      RowInputsAt(sh, env, cs, |sh.rows|, r);
    }
  }

  /** The first entity name found is the one reported. */
  lemma {:induction false} ScanEntityFirstWins(ins: seq<Option<SheetInput>>, env: Env, j: nat, k: nat)
    requires j <= k <= |ins|
    requires ScanPrefix(ins, env, j).entityName != UnknownEntity
    ensures ScanPrefix(ins, env, k).entityName == ScanPrefix(ins, env, j).entityName
    decreases k - j
  {
    if j < k {
      ScanEntityFirstWins(ins, env, j, k - 1);
      SheetMetadata(ScanPrefix(ins, env, k - 1), ins[k - 1], env);
    }
  }

  // ---------------------------------------------------------------------
  // Currency and scale label
  // ---------------------------------------------------------------------

  /** A sheet sets the currency to US dollars when it detects them and the
      scale label when its multiplier is not 1; otherwise both carry over. */
  lemma SheetKeepsDetection(s: Summary, input: Option<SheetInput>, env: Env)
    ensures var t := SheetStep(s, input, env);
            (t.currency == if input.Some? && input.value.detection.currency == USD then USD else s.currency)
            && (t.scaleLabel == if input.Some? && input.value.detection.multiplier != 1.0
                                then input.value.detection.scaleLabel else s.scaleLabel)
  {
    if input.Some? {
      var p := input.value;
      RowsUpToKeepsSheetFields(RecordDetection(s, p.detection), p.rows, p.detection.multiplier, env, |p.rows|);
    }
  }

  /** Sheet i is read and detects US dollars. */
  predicate UsdInput(ins: seq<Option<SheetInput>>, i: nat)
    requires i < |ins|
  {
    ins[i].Some? && ins[i].value.detection.currency == USD
  }

  /** The record is in US dollars exactly when one of the first k sheets
      that were read detected them. */
  lemma {:induction false} ScanCurrency(ins: seq<Option<SheetInput>>, env: Env, k: nat)
    requires k <= |ins|
    ensures ScanPrefix(ins, env, k).currency == USD <==> exists i :: 0 <= i < k && UsdInput(ins, i)
  {
    if k > 0 {
      ScanCurrency(ins, env, k - 1);
      SheetKeepsDetection(ScanPrefix(ins, env, k - 1), ins[k - 1], env);
      if !UsdInput(ins, k - 1) && exists i :: 0 <= i < k && UsdInput(ins, i) {
        var i :| 0 <= i < k && UsdInput(ins, i);
        assert i < k - 1;
      }
    }
  }

  /** Sheet i is read and its scale is not 1. */
  predicate ScaledInput(ins: seq<Option<SheetInput>>, i: nat)
    requires i < |ins|
  {
    ins[i].Some? && ins[i].value.detection.multiplier != 1.0
  }

  /** The scale label is that of the last sheet among the first k whose
      multiplier is not 1, and "Full Amount" when there is none. */
  lemma {:induction false} ScanScaleLabel(ins: seq<Option<SheetInput>>, env: Env, k: nat)
    requires k <= |ins|
    ensures (forall i :: 0 <= i < k ==> !ScaledInput(ins, i)) ==> ScanPrefix(ins, env, k).scaleLabel == DefaultLabel
    ensures forall i :: 0 <= i < k && ScaledInput(ins, i) && (forall j :: i < j < k ==> !ScaledInput(ins, j))
                ==> ScanPrefix(ins, env, k).scaleLabel == ins[i].value.detection.scaleLabel
  {
    if k > 0 {
      ScanScaleLabel(ins, env, k - 1);
      var t := ScanPrefix(ins, env, k);
      SheetKeepsDetection(ScanPrefix(ins, env, k - 1), ins[k - 1], env);
      if forall i :: 0 <= i < k ==> !ScaledInput(ins, i) {
        assert !ScaledInput(ins, k - 1);
      }
      forall i | 0 <= i < k && ScaledInput(ins, i) && (forall j :: i < j < k ==> !ScaledInput(ins, j))
        ensures t.scaleLabel == ins[i].value.detection.scaleLabel
      {
        if i < k - 1 {
          assert !ScaledInput(ins, k - 1);
        }
      }
    }
  }

  // ---------------------------------------------------------------------
  // The whole workbook
  // ---------------------------------------------------------------------

  /** Sheet i is read and its header detects US dollars. */
  predicate UsdSheet(wb: Workbook, env: Env, i: nat)
    requires ValidWorkbook(wb) && i < |wb|
  {
    !wb[i].IsEmpty() && Detect(wb[i], env).currency == USD
  }

  /** Sheet i is read and its header names a scale other than 1. */
  predicate ScaledSheet(wb: Workbook, env: Env, i: nat)
    requires ValidWorkbook(wb) && i < |wb|
  {
    !wb[i].IsEmpty() && Detect(wb[i], env).multiplier != 1.0
  }

  /** A sheet's input carries its own detection. */
  lemma InputDetection(wb: Workbook, env: Env, i: nat)
    requires ValidWorkbook(wb) && i < |wb|
    ensures var input := Inputs(wb, env)[i];
            (input.Some? <==> !wb[i].IsEmpty())
            && (input.Some? ==> input.value.detection == Detect(wb[i], env))
  {
  }

  /** The record scan_all returns reports US dollars exactly when a sheet
      it read detected them. */
  lemma ScanAllCurrency(wb: Workbook, env: Env)
    requires ValidWorkbook(wb)
    ensures ScanWorkbook(wb, env).currency == USD <==> exists i :: 0 <= i < |wb| && UsdSheet(wb, env, i)
  {
    var ins := Inputs(wb, env);
    ScanCurrency(ins, env, |wb|);
    forall i | 0 <= i < |wb|
      ensures UsdInput(ins, i) <==> UsdSheet(wb, env, i)
    {
      InputDetection(wb, env, i);
    }
  }

  /** Its scale label is that of the last read sheet with a multiplier
      other than 1, or "Full Amount" when no such sheet exists. */
  lemma ScanAllScaleLabel(wb: Workbook, env: Env)
    requires ValidWorkbook(wb)
    ensures (forall i :: 0 <= i < |wb| ==> !ScaledSheet(wb, env, i)) ==> ScanWorkbook(wb, env).scaleLabel == DefaultLabel
    ensures forall i :: 0 <= i < |wb| && ScaledSheet(wb, env, i) && (forall j :: i < j < |wb| ==> !ScaledSheet(wb, env, j))
                ==> ScanWorkbook(wb, env).scaleLabel == Detect(wb[i], env).scaleLabel
  {
    var ins := Inputs(wb, env);
    ScanScaleLabel(ins, env, |wb|);
    forall i | 0 <= i < |wb|
      ensures ScaledInput(ins, i) <==> ScaledSheet(wb, env, i)
      ensures ScaledInput(ins, i) ==> ins[i].value.detection.scaleLabel == Detect(wb[i], env).scaleLabel
    {
      InputDetection(wb, env, i);
    }
  }

  /** Its other-items list is well formed. */
  lemma ScanAllOthers(wb: Workbook, env: Env)
    requires ValidWorkbook(wb)
    ensures WellFormedItems(ScanWorkbook(wb, env).otherItems)
  {
    var ins := Inputs(wb, env);
    forall i | 0 <= i < |wb|
      ensures CleanInput(ins[i])
    {
      PrepareClean(wb[i], env);
    }
    ScanOthersWellFormed(ins, env, |wb|);
  }
}
