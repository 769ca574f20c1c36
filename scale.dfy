/** detect_scale_and_currency: reads the top of a sheet as one lower-cased
    text blob and derives the currency and the unit the amounts are in. */
module ScaleCurrency {
  import opened Strings
  import opened Workbooks

  datatype Currency = IDR | USD

  datatype ScaleEntry = ScaleEntry(key: string, factor: nat)

  /** scale_map, in its declared order; the first key found wins. */
  const ScaleMap: seq<ScaleEntry> := [
    ScaleEntry("jutaan", 1000000),
    ScaleEntry("millions", 1000000),
    ScaleEntry("ribuan", 1000),
    ScaleEntry("thousands", 1000),
    ScaleEntry("miliar", 1000000000),
    ScaleEntry("billions", 1000000000)
  ]

  /** Only the first rows of a sheet are read for the header blob. */
  const HeaderRows: nat := 20

  const DefaultLabel: string := "Full Amount"

  /** (multiplier, currency, scale label) as returned for one sheet. */
  datatype Detection = Detection(multiplier: real, currency: Currency, scaleLabel: string)

  const Default: Detection := Detection(1.0, IDR, DefaultLabel)

  /** Column c of the first HeaderRows rows, empty cells as "", lower-cased. */
  function HeaderColumn(sh: Sheet, c: nat, env: Env): (col: seq<string>)
    requires sh.Rectangular() && c < sh.cols
    ensures |col| == Min(HeaderRows, |sh.rows|)
    ensures forall r :: 0 <= r < |col| ==> col[r] == Lower(FilledStr(sh.rows[r][c], env))
  {
    seq(Min(HeaderRows, |sh.rows|), r requires 0 <= r < Min(HeaderRows, |sh.rows|) =>
      Lower(FilledStr(sh.rows[r][c], env)))
  }

  /** The first column's header cells, then the second column's when there
      is one, joined by single blanks. */
  function HeaderBlob(sh: Sheet, env: Env): string
    requires sh.Rectangular() && sh.cols > 0
  {
    Join(HeaderColumn(sh, 0, env) + (if sh.cols > 1 then HeaderColumn(sh, 1, env) else []), " ")
  }

  /** Every header cell read, of column 0 and of column 1 when there is
      one, occurs in the blob. */
  lemma HeaderBlobHoldsCells(sh: Sheet, env: Env)
    requires sh.Rectangular() && sh.cols > 0
    ensures forall c, r :: 0 <= c < Min(2, sh.cols) && 0 <= r < Min(HeaderRows, |sh.rows|) ==>
              Contains(HeaderBlob(sh, env), Lower(FilledStr(sh.rows[r][c], env)))
  {
    forall c, r | 0 <= c < Min(2, sh.cols) && 0 <= r < Min(HeaderRows, |sh.rows|)
      ensures Contains(HeaderBlob(sh, env), Lower(FilledStr(sh.rows[r][c], env)))
    {
      HeaderCellInBlob(sh, env, c, r);
    }
  }

  lemma HeaderCellInBlob(sh: Sheet, env: Env, c: nat, r: nat)
    requires sh.Rectangular() && c < Min(2, sh.cols) && r < Min(HeaderRows, |sh.rows|)
    ensures Contains(HeaderBlob(sh, env), Lower(FilledStr(sh.rows[r][c], env)))
  {
    var first := HeaderColumn(sh, 0, env);
    if sh.cols == 1 {
      JoinContainsLeft(first, [], " ", r);
    } else {
      var second := HeaderColumn(sh, 1, env);
      if c == 0 {
        JoinContainsLeft(first, second, " ", r);
      } else {
        JoinContainsRight(first, second, " ", r);
      }
    }
  }

  predicate MentionsUsd(blob: string) {
    Contains(blob, "usd") || Contains(blob, "dollar") || Contains(blob, "dolar") || Contains(blob, "as$")
  }

  predicate HasKey(blob: string, j: nat)
    requires j < |ScaleMap|
  {
    Contains(blob, ScaleMap[j].key)
  }

  /** Position of the first scale key at or after i that occurs in the blob. */
  function FirstScaleKey(blob: string, i: nat): (r: Option<nat>)
    requires i <= |ScaleMap|
    ensures r.Some? ==> i <= r.value < |ScaleMap| && HasKey(blob, r.value)
    ensures forall j :: i <= j < |ScaleMap| && (r.None? || j < r.value) ==> !HasKey(blob, j)
    decreases |ScaleMap| - i
  {
    if i == |ScaleMap| then None
    else if HasKey(blob, i) then Some(i)
    else FirstScaleKey(blob, i + 1)
  }

  /** str.title() of a lower-case single word: its first letter upper-cased.
      Only the case of the first character may change. */
  function Title(w: string): (t: string)
    ensures |t| == |w|
    ensures Lower(t) == Lower(w)
    ensures w != [] ==> t[1..] == w[1..]
    ensures w != [] && 'a' <= w[0] <= 'z' ==> 'A' <= t[0] <= 'Z'
  {
    if w == [] then []
    else if 'a' <= w[0] <= 'z' then [(w[0] as int - 32) as char] + w[1..]
    else w
  }

  /** The label each scale key yields, in the order of ScaleMap. */
  const ScaleLabelNames: seq<string> := ["Jutaan", "Millions", "Ribuan", "Thousands", "Miliar", "Billions"]

  /** Each scale key yields the label named for it. */
  lemma ScaleLabels(j: nat)
    requires j < |ScaleMap|
    ensures Title(ScaleMap[j].key) == ScaleLabelNames[j]
  {
    hide Lower;
    var k := ScaleMap[j].key;
    assert k[0] in "jmrtb" && Title(k) == [(k[0] as int - 32) as char] + k[1..];
  }

  /** The outcome for a sheet with at least one column, given its blob. */
  function DetectFromBlob(blob: string): (d: Detection)
    ensures d.currency == USD <==> MentionsUsd(blob)
    ensures d.multiplier in {1.0, 1000.0, 1000000.0, 1000000000.0}
    ensures d.multiplier == 1.0 <==> d.scaleLabel == DefaultLabel
    ensures d.multiplier == 1.0 <==> forall j :: 0 <= j < |ScaleMap| ==> !HasKey(blob, j)
    ensures forall j :: 0 <= j < |ScaleMap| && HasKey(blob, j)
                     && (forall i :: 0 <= i < j ==> !HasKey(blob, i))
                     ==> d.multiplier == ScaleMap[j].factor as real && d.scaleLabel == ScaleLabelNames[j]
  {
    hide Title;
    var currency := if MentionsUsd(blob) then USD else IDR;
    match FirstScaleKey(blob, 0)
    case None => Detection(1.0, currency, DefaultLabel)
    case Some(j) =>
      ScaleLabels(j);
      assert |Title(ScaleMap[j].key)| < |DefaultLabel|;
      Detection(ScaleMap[j].factor as real, currency, Title(ScaleMap[j].key))
  }

  /** detect_scale_and_currency as a value: the default triple without
      columns, otherwise what the header blob says. */
  function Detect(sh: Sheet, env: Env): (d: Detection)
    requires sh.Rectangular()
    ensures sh.cols == 0 ==> d == Default
    ensures sh.cols > 0 ==> d == DetectFromBlob(HeaderBlob(sh, env))
  {
    if sh.cols == 0 then Default else DetectFromBlob(HeaderBlob(sh, env))
  }

  /** The scanner's own procedure: build the blob, test the currency words,
      then walk scale_map and stop at the first key found. */
  method DetectScaleAndCurrency(sh: Sheet, env: Env) returns (multiplier: real, currency: Currency, scaleLabel: string)
    requires sh.Rectangular()
    ensures Detection(multiplier, currency, scaleLabel) == Detect(sh, env)
  {
    if sh.cols == 0 {
      return 1.0, IDR, DefaultLabel;
    }
    var headerRows := HeaderColumn(sh, 0, env);
    if sh.cols > 1 {
      headerRows := headerRows + HeaderColumn(sh, 1, env);
    }
    var fullText := Join(headerRows, " ");
    assert fullText == HeaderBlob(sh, env) by {
      if sh.cols == 1 {
        assert HeaderColumn(sh, 0, env) + [] == headerRows;
      }
    }
    multiplier, scaleLabel, currency := 1.0, DefaultLabel, IDR;
    if Contains(fullText, "usd") || Contains(fullText, "dollar") || Contains(fullText, "dolar") || Contains(fullText, "as$") {
      currency := USD;
    }
    var i := 0;
    while i < |ScaleMap|
      invariant i <= |ScaleMap|
      invariant FirstScaleKey(fullText, 0) == FirstScaleKey(fullText, i)
      invariant multiplier == 1.0 && scaleLabel == DefaultLabel
    {
      if Contains(fullText, ScaleMap[i].key) {
        multiplier := ScaleMap[i].factor as real;
        scaleLabel := Title(ScaleMap[i].key);
        break;
      }
      i := i + 1;
    }
  }

  /** The caption names the first key of scale_map and no currency word. */
  lemma JutaanRupiahWords()
    ensures HasKey("dalam jutaan rupiah", 0) && !MentionsUsd("dalam jutaan rupiah")
  {
    var blob := "dalam jutaan rupiah";
    assert OccursAt(blob, "jutaan", 6);
    NotContainsMissingChar(blob, "usd", 1);
    NotContainsMissingChar(blob, "dollar", 1);
    NotContainsMissingChar(blob, "dolar", 1);
    NotContainsMissingChar(blob, "as$", 2);
  }

  /** A sheet captioned in Indonesian millions of rupiah. */
  lemma DetectJutaanRupiah()
    ensures DetectFromBlob("dalam jutaan rupiah") == Detection(1000000.0, IDR, "Jutaan")
  {
    hide Contains;
    JutaanRupiahWords();
  }
}
