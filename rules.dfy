/** The scanner's ordered rule table `targets`: for each primary field, the
    label patterns that identify its line, and the first-match policy that
    decides which field (if any) a labelled amount feeds. */
module Rules {
  import opened Workbooks

  datatype Field = TotalAssets | TotalLiabilities | TotalEquity | NetProfit

  /** A rule is a field and the numbers of its label patterns; pattern
      number k is the regular expression PatternText(k), and Env.search
      decides whether it is found in a label. */
  datatype Target = Target(field: Field, patterns: seq<nat>)

  /** The table in its declared order. */
  const Targets: seq<Target> := [
    Target(TotalAssets, [0, 1, 2]),
    Target(TotalLiabilities, [3, 4, 5]),
    Target(TotalEquity, [6, 7, 8]),
    Target(NetProfit, [9, 10, 11, 12, 13])
  ]

  /** The patterns, verbatim, each compiled case-insensitively. */
  function PatternText(k: nat): string {
    match k
    case 0 => @"^jumlah\s*aset(?!.*lancar|.*tidak lancar|.*pajak|.*tetap)"
    case 1 => @"^total\s*assets(?!.*current|.*non-current|.*tax|.*fixed)"
    case 2 => @"^jumlah\s*aktiva(?!.*lancar)"
    case 3 => @"^jumlah\s*liabilitas(?!.*lancar|.*jangka|.*ekuitas|.*equity|.*neto)"
    case 4 => @"^total\s*liabilities(?!.*current|.*term|.*equity|.*net)"
    case 5 => @"^jumlah\s*kewajiban(?!.*lancar|.*jangka|.*ekuitas)"
    case 6 => @"^jumlah\s*ekuitas(?!.*liabilitas|.*kewajiban)"
    case 7 => @"^total\s*equity(?!.*liabilities)"
    case 8 => @"^jumlah\s*ekuitas\s*yang\s*diatribusikan.*pemilik.*entitas.*induk"
    case 9 => @"laba.*(rugi)?.*yang.*dapat.*diatribusikan.*ke.*entitas.*induk"
    case 10 => @"profit.*(loss)?.*attributable.*to.*parent.*entity"
    case 11 => @"^laba.*(rugi)?.*tahun.*berjalan.*atribusikan.*kepada.*entitas.*induk"
    case 12 => @"^laba.*(rugi)?.*tahun.*berjalan$"
    case 13 => @"^profit.*(loss)?.*for.*the.*year$"
    case _ => ""
  }

  function Abs(x: real): (a: real)
    ensures a >= 0.0 && (a == x || a == -x)
  {
    if x < 0.0 then -x else x
  }

  /** Some pattern of the target is found in the label. */
  predicate Matches(t: Target, rowLabel: string, env: Env) {
    exists j :: 0 <= j < |t.patterns| && env.search(t.patterns[j], rowLabel)
  }

  /** The sanity bound on net profit: once total assets are positive, a
      net-profit candidate larger in magnitude than them is skipped. The
      comparison is against the signed assets total. */
  predicate Plausible(f: Field, amount: real, assets: real) {
    !(f == NetProfit && assets > 0.0 && Abs(amount) > assets)
  }

  /** The amount a row offers: its value cell read as a number, times the
      sheet's multiplier; nothing when the cell does not read as a number. */
  function Scaled(val: Option<real>, multiplier: real): (r: Option<real>)
    ensures r.Some? <==> val.Some?
  {
    if val.Some? then Some(val.value * multiplier) else None
  }

  /** Scaling by a nonzero multiplier keeps a nonzero value nonzero. */
  lemma ScaledNonzero(val: Option<real>, multiplier: real)
    requires val.Some? && val.value != 0.0 && multiplier != 0.0
    ensures Scaled(val, multiplier).value != 0.0
  {
    var x := val.value;
    if x > 0.0 {
      if multiplier > 0.0 { assert x * multiplier > 0.0; } else { assert x * multiplier < 0.0; }
    } else {
      if multiplier > 0.0 { assert x * multiplier < 0.0; } else { assert x * multiplier > 0.0; }
    }
  }

  /** Target t takes the row: a pattern matches, the row offers an amount and
      the amount passes the sanity bound. */
  predicate Accepts(t: Target, rowLabel: string, amount: Option<real>, assets: real, env: Env) {
    Matches(t, rowLabel, env) && amount.Some? && Plausible(t.field, amount.value, assets)
  }

  /** Index of the first target at or after i that takes the row. */
  function ClassifyFrom(i: nat, rowLabel: string, amount: Option<real>, assets: real, env: Env): (k: Option<nat>)
    requires i <= |Targets|
    ensures k.Some? ==> i <= k.value < |Targets| && Accepts(Targets[k.value], rowLabel, amount, assets, env)
    ensures forall j :: i <= j < |Targets| && (k.None? || j < k.value)
                     ==> !Accepts(Targets[j], rowLabel, amount, assets, env)
    decreases |Targets| - i
  {
    if i == |Targets| then None
    else if Accepts(Targets[i], rowLabel, amount, assets, env) then Some(i)
    else ClassifyFrom(i + 1, rowLabel, amount, assets, env)
  }

  /** The field a row with this label and amount feeds, if any. */
  function Classify(rowLabel: string, amount: Option<real>, assets: real, env: Env): Option<nat> {
    ClassifyFrom(0, rowLabel, amount, assets, env)
  }

  /** First match wins: a field is chosen exactly when its target takes the
      row and no earlier target in the table does. */
  lemma ClassifyFirstMatch(rowLabel: string, amount: Option<real>, assets: real, env: Env, k: nat)
    requires k < |Targets|
    ensures Classify(rowLabel, amount, assets, env) == Some(k)
        <==> Accepts(Targets[k], rowLabel, amount, assets, env)
             && forall j :: 0 <= j < k ==> !Accepts(Targets[j], rowLabel, amount, assets, env)
  {
  }
}
