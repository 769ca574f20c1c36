/** The numeric normaliser (clean_numeric): turns one cell into an optional
    number and never fails; every malformed value degrades to None. */
module Numeric {
  import opened Strings
  import opened Workbooks

  predicate IsDigit(c: char) {
    '0' <= c <= '9'
  }

  /** The characters the normaliser keeps: digits, '.' and '-'. */
  predicate IsNumeralChar(c: char) {
    IsDigit(c) || c == '.' || c == '-'
  }

  predicate AllDigits(s: string) {
    forall i :: 0 <= i < |s| ==> IsDigit(s[i])
  }

  predicate HasDigit(s: string) {
    exists i :: 0 <= i < |s| && IsDigit(s[i])
  }

  /** re.sub(r'[^\d\.\-]', '', s): the digits, dots and minus signs of s, in
      their order; no digit is gained or lost. */
  function KeepNumeral(s: string): (r: string)
    ensures |r| <= |s|
    ensures forall i :: 0 <= i < |r| ==> IsNumeralChar(r[i])
  {
    if s == [] then []
    else (if IsNumeralChar(s[0]) then [s[0]] else []) + KeepNumeral(s[1..])
  }

  /** Filtering keeps every digit: the kept characters hold a digit exactly
      when the text does. */
  lemma {:induction false} KeepNumeralKeepsDigits(s: string)
    ensures HasDigit(KeepNumeral(s)) <==> HasDigit(s)
    decreases |s|
  {
    if s != [] {
      var rest := KeepNumeral(s[1..]);
      KeepNumeralKeepsDigits(s[1..]);
      assert s == [s[0]] + s[1..];
      HasDigitCons(s[0], s[1..]);
      if IsNumeralChar(s[0]) {
        assert KeepNumeral(s) == [s[0]] + rest;
        HasDigitCons(s[0], rest);
      } else {
        assert KeepNumeral(s) == rest;
      }
    }
  }

  lemma HasDigitCons(c: char, t: string)
    ensures HasDigit([c] + t) <==> IsDigit(c) || HasDigit(t)
  {
    var u := [c] + t;
    assert u[0] == c;
    if HasDigit(t) {
      var i :| 0 <= i < |t| && IsDigit(t[i]);
      assert u[i + 1] == t[i];
    }
    if HasDigit(u) {
      var i :| 0 <= i < |u| && IsDigit(u[i]);
      if i > 0 {
        assert t[i - 1] == u[i];
      }
    }
  }

  /** The accounting notation "(123)": a string wrapped in parentheses is
      rewritten to a minus sign followed by what was inside. */
  function Unparenthesise(s: string): string {
    if |s| > 0 && s[0] == '(' && s[|s| - 1] == ')' then "-" + s[1..|s| - 1] else s
  }

  function DigitValue(c: char): nat
    requires IsDigit(c)
  {
    c as int - '0' as int
  }

  /** The value of a run of decimal digits, most significant first. */
  function DigitsValue(s: string): nat
    requires AllDigits(s)
    decreases |s|
  {
    if s == [] then 0 else DigitsValue(s[..|s| - 1]) * 10 + DigitValue(s[|s| - 1])
  }

  /** The position of the first '.', or |s| when there is none. */
  function IndexOfDot(s: string): (k: nat)
    ensures k <= |s|
    ensures k < |s| ==> s[k] == '.'
    ensures forall j :: 0 <= j < k ==> s[j] != '.'
  {
    IndexOfDotFrom(s, 0)
  }

  /** The position of the first '.' at or after i, or |s|. */
  function IndexOfDotFrom(s: string, i: nat): (k: nat)
    requires i <= |s|
    ensures i <= k <= |s|
    ensures k < |s| ==> s[k] == '.'
    ensures forall j :: i <= j < k ==> s[j] != '.'
    decreases |s| - i
  {
    if i == |s| || s[i] == '.' then i else IndexOfDotFrom(s, i + 1)
  }

  /** float() on an unsigned numeral: digits with at most one '.', and at
      least one digit in all. */
  function ParseUnsigned(s: string): Option<real> {
    var k := IndexOfDot(s);
    var whole := s[..k];
    if k == |s| then
      if |whole| > 0 && AllDigits(whole) then Some(DigitsValue(whole) as real) else None
    else
      var fraction := s[k + 1..];
      if AllDigits(whole) && AllDigits(fraction) && |whole| + |fraction| > 0 then
        Some(FixedPointValue(whole, fraction))
      else None
  }

  /** An unsigned numeral that parses holds a digit. */
  lemma ParseUnsignedNeedsDigit(s: string)
    ensures ParseUnsigned(s).Some? ==> HasDigit(s)
  {
    if ParseUnsigned(s).Some? {
      var k := IndexOfDot(s);
      if k == |s| {
        assert IsDigit(s[..k][0]);
      } else if k > 0 {
        assert IsDigit(s[..k][0]);
      } else {
        assert IsDigit(s[k + 1..][0]);
      }
    }
  }

  /** The value of the numeral whole + "." + fraction. */
  function FixedPointValue(whole: string, fraction: string): real
    requires AllDigits(whole) && AllDigits(fraction)
  {
    DigitsValue(whole) as real + FractionValue(fraction)
  }

  /** The value of the digits after the dot: "25" is 0.25. */
  function FractionValue(fraction: string): real
    requires AllDigits(fraction)
  {
    FractionFrom(fraction, 0)
  }

  /** The digits from position i on, read after a dot and from the right:
      (d_i + (d_i+1 + ...) / 10) / 10. */
  function FractionFrom(fraction: string, i: nat): real
    requires AllDigits(fraction) && i <= |fraction|
    decreases |fraction| - i
  {
    if i == |fraction| then 0.0
    else (DigitValue(fraction[i]) as real + FractionFrom(fraction, i + 1)) / 10.0
  }

  /** The digits after the dot never add up to a whole unit. */
  lemma {:induction false} FractionValueBounds(fraction: string, i: nat)
    requires AllDigits(fraction) && i <= |fraction|
    ensures 0.0 <= FractionFrom(fraction, i) < 1.0
    decreases |fraction| - i
  {
    if i < |fraction| {
      FractionValueBounds(fraction, i + 1);
    }
  }

  /** Python's float() on a string made of digits, '.' and '-' only: an
      optional leading minus sign, then an unsigned numeral. Any other shape
      ("", "-", "1.2.3", "1-2", "--1") is a parse failure, None. */
  function ParseDecimal(s: string): Option<real> {
    if |s| > 0 && s[0] == '-' then
      match ParseUnsigned(s[1..])
      case Some(v) => Some(-v)
      case None => None
    else ParseUnsigned(s)
  }

  /** A numeral that parses holds a digit: "", "-", "." and "-." all fail. */
  lemma ParseDecimalNeedsDigit(s: string)
    ensures ParseDecimal(s).Some? ==> HasDigit(s)
  {
    if |s| > 0 && s[0] == '-' {
      ParseUnsignedNeedsDigit(s[1..]);
      if ParseDecimal(s).Some? {
        var i :| 0 <= i < |s[1..]| && IsDigit(s[1..][i]);
        assert IsDigit(s[i + 1]);
      }
    } else {
      ParseUnsignedNeedsDigit(s);
    }
  }

  /** The texts the normaliser maps to None before any parsing. */
  const BlankTokens: seq<string> := ["-", "n/a", "", "nan"]

  /** clean_numeric: a number is returned as it is, a numeric NaN or an empty
      cell gives None, a text whose stripped form is a blank token gives None,
      and any other text gives a number only if it holds a digit. */
  function CleanNumeric(c: Cell): (r: Option<real>)
    ensures c.Num? ==> r == Some(c.x)
    ensures c.NaNNum? || c.Missing? ==> r == None
    ensures c.Text? && Strip(c.s) in BlankTokens ==> r == None
  {
    match c
    case Num(x) => Some(x)
    case NaNNum => None
    case Missing => None
    case Text(t) =>
      if t == "" || Strip(t) in BlankTokens then None
      else
        var s := Strip(t);
        if s == "" then None
        else
          var cleaned := KeepNumeral(Unparenthesise(s));
          if cleaned == "" then None
          else
            ParseDecimal(cleaned)
  }

  /** A text cell is only ever read as a number when it holds a digit. */
  lemma CleanNumericNeedsDigit(c: Cell)
    ensures c.Text? && CleanNumeric(c).Some? ==> HasDigit(c.s)
  {
    if c.Text? && CleanNumeric(c).Some? {
      var s := Strip(c.s);
      var cleaned := KeepNumeral(Unparenthesise(s));
      ParseDecimalNeedsDigit(cleaned);
      KeepNumeralKeepsDigits(Unparenthesise(s));
      UnparenthesiseKeepsDigits(s);
      StripKeepsDigits(c.s);
    }
  }

  lemma UnparenthesiseKeepsDigits(s: string)
    requires HasDigit(Unparenthesise(s))
    ensures HasDigit(s)
  {
    var u := Unparenthesise(s);
    var i :| 0 <= i < |u| && IsDigit(u[i]);
    if u != s {
      assert IsDigit(s[i]);
    }
  }

  lemma StripKeepsDigits(t: string)
    requires HasDigit(Strip(t))
    ensures HasDigit(t)
  {
    hide Strip, TrimLeft, TrimRight;
    var r := Strip(t);
    StripIsStrip(t);
    var k :| 0 <= k < |r| && IsDigit(r[k]);
    var i := StripOffset(t);
    assert r[k] == t[i + k];
  }

  // ----- Rendering numbers as text, and reading them back -----

  function DigitChar(d: nat): (c: char)
    requires d < 10
    ensures IsDigit(c) && DigitValue(c) == d
  {
    ('0' as int + d) as char
  }

  /** The decimal numeral of n, without sign or separators. */
  function Digits(n: nat): (s: string)
    ensures |s| > 0 && AllDigits(s)
    decreases n
  {
    if n < 10 then [DigitChar(n)] else Digits(n / 10) + [DigitChar(n % 10)]
  }

  /** Three digits of a group after a thousands separator, zero-padded. */
  function Pad3(n: nat): (s: string)
    requires n < 1000
    ensures |s| == 3 && AllDigits(s)
  {
    [DigitChar(n / 10 / 10), DigitChar(n / 10 % 10), DigitChar(n % 10)]
  }

  /** The numeral of n with a comma between groups of three digits, as in
      "1,234,567". */
  function Grouped(n: nat): (s: string)
    ensures |s| > 0 && IsDigit(s[0]) && IsDigit(s[|s| - 1])
    decreases n
  {
    if n < 1000 then Digits(n) else Grouped(n / 1000) + "," + Pad3(n % 1000)
  }

  lemma {:induction false} DigitsValueOfDigits(n: nat)
    ensures DigitsValue(Digits(n)) == n
    decreases n
  {
    if n >= 10 {
      var s := Digits(n);
      assert s[..|s| - 1] == Digits(n / 10);
      DigitsValueOfDigits(n / 10);
    }
  }

  lemma DigitsValueOfPad3(n: nat)
    requires n < 1000
    ensures DigitsValue(Pad3(n)) == n
  {
    var s := Pad3(n);
    var q := n / 10;
    var a, b, c := q / 10, q % 10, n % 10;
    assert DigitsValue(s[..1]) == a by {
      assert s[..1][..0] == [];
    }
    assert DigitsValue(s[..2]) == a * 10 + b by {
      assert s[..2][..1] == s[..1];
    }
    assert DigitsValue(s) == (a * 10 + b) * 10 + c by {
      assert s[..|s| - 1] == s[..2];
    }
    assert q == a * 10 + b;
    assert n == q * 10 + c;
  }

  /** x written n decimal places further left: x * 10^n. */
  function Shift(x: nat, n: nat): nat {
    if n == 0 then x else Shift(x, n - 1) * 10
  }

  /** The digits of a followed by those of b read as one numeral: the value
      of a shifted past b's digits, plus the value of b. */
  lemma {:induction false} DigitsValueAppend(a: string, b: string)
    requires AllDigits(a) && AllDigits(b)
    ensures AllDigits(a + b)
    ensures DigitsValue(a + b) == Shift(DigitsValue(a), |b|) + DigitsValue(b)
    decreases |b|
  {
    if b == [] {
      assert a + b == a;
    } else {
      var c := a + b;
      var b' := b[..|b| - 1];
      assert c[..|c| - 1] == a + b';
      DigitsValueAppend(a, b');
    }
  }

  lemma {:induction false} KeepNumeralAppend(a: string, b: string)
    ensures KeepNumeral(a + b) == KeepNumeral(a) + KeepNumeral(b)
    decreases |a|
  {
    if a == [] {
      assert a + b == b;
    } else {
      assert (a + b)[1..] == a[1..] + b;
      KeepNumeralAppend(a[1..], b);
    }
  }

  lemma {:induction false} KeepNumeralOfDigits(s: string)
    requires AllDigits(s)
    ensures KeepNumeral(s) == s
    decreases |s|
  {
    if s != [] {
      KeepNumeralOfDigits(s[1..]);
    }
  }

  /** Separators between groups vanish: the kept characters of Grouped(n)
      are a numeral whose value is n. */
  lemma {:induction false} KeepNumeralOfGrouped(n: nat)
    ensures |KeepNumeral(Grouped(n))| > 0 && AllDigits(KeepNumeral(Grouped(n)))
    ensures DigitsValue(KeepNumeral(Grouped(n))) == n
    decreases n
  {
    if n < 1000 {
      KeepNumeralOfDigits(Digits(n));
      DigitsValueOfDigits(n);
    } else {
      var head := Grouped(n / 1000);
      var tail := Pad3(n % 1000);
      var a := KeepNumeral(head);
      KeepNumeralOfGrouped(n / 1000);
      assert KeepNumeral(head + ",") == a by {
        KeepNumeralAppend(head, ",");
        assert KeepNumeral(",") == [];
      }
      assert KeepNumeral(Grouped(n)) == a + tail by {
        assert Grouped(n) == (head + ",") + tail;
        KeepNumeralAppend(head + ",", tail);
        KeepNumeralOfDigits(tail);
      }
      DigitsValueAppend(a, tail);
      DigitsValueOfPad3(n % 1000);
      assert Shift(n / 1000, |tail|) == n / 1000 * 1000 by {
        assert |tail| == 3;
        assert Shift(n / 1000, 1) == n / 1000 * 10;
        assert Shift(n / 1000, 2) == n / 1000 * 100;
      }
    }
  }

  /** A numeral made of digits alone is read as its digits' value. */
  lemma ParseDecimalOfDigits(s: string)
    requires |s| > 0 && AllDigits(s)
    ensures ParseDecimal(s) == Some(DigitsValue(s) as real)
  {
    assert s[0] != '-';
    assert s[..|s|] == s;
  }

  /** A text that is only digits and surrounded by no whitespace: the text
      is kept unchanged by strip and by the parenthesis rewrite. */
  lemma StripOfUnpadded(s: string)
    requires |s| > 0 && !IsSpace(s[0]) && !IsSpace(s[|s| - 1])
    ensures Strip(s) == s
  {
    assert TrimLeft(s) == s;
  }

  /** Stripping twice strips nothing more. */
  lemma StripIdempotent(t: string)
    ensures Strip(Strip(t)) == Strip(t)
  {
    StripIsStrip(t);
    var r := Strip(t);
    if r == [] {
      StripIsStrip(r);
    } else {
      StripOfUnpadded(r);
    }
  }

  /** Surrounding whitespace is ignored: the text is stripped before the
      parenthesis test, so " (5) " reads as -5 like "(5)". */
  lemma CleanNumericIgnoresPadding(t: string)
    ensures CleanNumeric(Text(t)) == CleanNumeric(Text(Strip(t)))
  {
    StripIdempotent(t);
    if t == [] {
      StripIsStrip(t);
    }
  }

  /** Round trip of a padded accounting amount: "(n)" with whitespace on
      either side, such as " (5) ", reads back as -n. */
  lemma CleanNumericOfPaddedParenthesised(a: string, n: nat, b: string)
    requires AllSpace(a) && AllSpace(b)
    ensures CleanNumeric(Text(a + "(" + Digits(n) + ")" + b)) == Some(-(n as real))
  {
    hide CleanNumeric;
    var x := "(" + Digits(n) + ")";
    assert a + "(" + Digits(n) + ")" + b == a + x + b;
    StripOfPadded(a, x, b);
    CleanNumericIgnoresPadding(a + x + b);
    CleanNumericOfParenthesised(n);
  }

  /** Once a text is known to be stripped and not a blank token, the
      normaliser reads the kept characters of its parenthesis rewrite. */
  lemma CleanNumericOfPlainText(t: string)
    requires |t| > 0 && !IsSpace(t[0]) && !IsSpace(t[|t| - 1])
    requires t !in BlankTokens
    ensures CleanNumeric(Text(t)) ==
      (var cleaned := KeepNumeral(Unparenthesise(t)); if cleaned == "" then None else ParseDecimal(cleaned))
  {
    StripOfUnpadded(t);
  }

  /** A text of whitespace only strips to "" and so reads as None. */
  lemma CleanNumericOfBlankText(t: string)
    requires AllSpace(t)
    ensures CleanNumeric(Text(t)) == None
  {
    StripIsStrip(t);
  }

  /** Round trip of a negative numeral: "-" followed by the digits of n
      reads back as -n. */
  lemma CleanNumericOfNegatedNumeral(n: nat)
    ensures CleanNumeric(Text("-" + Digits(n))) == Some(-(n as real))
  {
    hide CleanNumeric, ParseDecimal, DigitsValue, Digits;
    var d := Digits(n);
    var t := "-" + d;
    assert t[1..] == d;
    assert t !in BlankTokens by {
      assert t != "-" && t != "" && t[0] != 'n';
    }
    forall i | 0 <= i < |t|
      ensures IsNumeralChar(t[i])
    {
      if i > 0 {
        assert t[i] == d[i - 1];
      }
    }
    CleanNumericOfNumeralText(t);
    ParseDecimalOfNegatedDigits(t);
    DigitsValueOfDigits(n);
  }

  /** Round trip of a negative amount with thousands separators: "-1,234"
      reads back as -1234. */
  lemma CleanNumericOfNegatedGrouped(n: nat)
    ensures CleanNumeric(Text("-" + Grouped(n))) == Some(-(n as real))
  {
    hide CleanNumeric, ParseDecimal, DigitsValue, Grouped, Strip;
    var g := Grouped(n);
    var t := "-" + g;
    assert t !in BlankTokens by {
      assert t != "-" && t != "" && t[0] != 'n';
    }
    assert t[|t| - 1] == g[|g| - 1];
    CleanNumericOfPlainText(t);
    assert Unparenthesise(t) == t;
    var k := KeepNumeral(g);
    assert KeepNumeral(t) == "-" + k by {
      KeepNumeralAppend("-", g);
    }
    KeepNumeralOfGrouped(n);
    assert ("-" + k)[1..] == k;
    ParseDecimalOfNegatedDigits("-" + k);
  }

  /** Round trip: the numeral of n reads back as n. */
  lemma CleanNumericOfNumeral(n: nat)
    ensures CleanNumeric(Text(Digits(n))) == Some(n as real)
  {
    var s := Digits(n);
    CleanNumericOfPlainText(s);
    assert Unparenthesise(s) == s;
    KeepNumeralOfDigits(s);
    ParseDecimalOfDigits(s);
    DigitsValueOfDigits(n);
  }

  /** Round trip of the accounting notation: "(n)" reads back as -n. */
  lemma CleanNumericOfParenthesised(n: nat)
    ensures CleanNumeric(Text("(" + Digits(n) + ")")) == Some(-(n as real))
  {
    hide *;
    var d := Digits(n);
    CleanNumericOfParenthesisedText(d);
    KeepNumeralOfDigits(d);
    var s := "-" + d;
    assert s[1..] == d;
    ParseDecimalOfNegatedDigits(s);
    DigitsValueOfDigits(n);
  }

  /** A minus sign followed by digits reads as the negated digits' value. */
  lemma ParseDecimalOfNegatedDigits(s: string)
    requires |s| > 1 && s[0] == '-' && AllDigits(s[1..])
    ensures ParseDecimal(s) == Some(-(DigitsValue(s[1..]) as real))
  {
    ParseUnsignedOfDigits(s[1..]);
  }

  /** Digits alone, without a dot, read as their value. */
  lemma ParseUnsignedOfDigits(d: string)
    requires |d| > 0 && AllDigits(d)
    ensures ParseUnsigned(d) == Some(DigitsValue(d) as real)
  {
    assert forall j :: 0 <= j < |d| ==> d[j] != '.';
    assert d[..|d|] == d;
  }

  /** Round trip with thousands separators: "1,234,567" reads back as
      1234567, because every character other than a digit, '.' or '-' is
      dropped before parsing. */
  lemma CleanNumericOfGrouped(n: nat)
    ensures CleanNumeric(Text(Grouped(n))) == Some(n as real)
  {
    var s := Grouped(n);
    CleanNumericOfPlainText(s);
    assert Unparenthesise(s) == s;
    KeepNumeralOfGrouped(n);
    ParseDecimalOfDigits(KeepNumeral(s));
  }

  /** A numeral with two dots is not a float: "1.234.567" is rejected, not
      read with dots as thousands separators. */
  lemma ParseDecimalTwoDots(s: string, i: nat, j: nat)
    requires i < j < |s| && s[i] == '.' && s[j] == '.'
    ensures ParseDecimal(s) == None
  {
    var u := if |s| > 0 && s[0] == '-' then s[1..] else s;
    var off := |s| - |u|;
    assert off <= i;
    var k := IndexOfDot(u);
    assert u[i - off] == '.';
    assert k <= i - off;
    assert k < |u|;
    var fraction := u[k + 1..];
    assert fraction[j - off - k - 1] == '.';
    assert !AllDigits(fraction);
  }

  /** A numeral with one dot is read as whole part plus fraction. */
  lemma ParseUnsignedOfFixedPoint(whole: string, fraction: string)
    requires AllDigits(whole) && AllDigits(fraction) && |whole| + |fraction| > 0
    ensures ParseUnsigned(whole + "." + fraction) == Some(FixedPointValue(whole, fraction))
  {
    var s := whole + "." + fraction;
    var k := IndexOfDot(s);
    assert s[|whole|] == '.';
    assert k <= |whole|;
    assert k == |whole|;
    assert s[..k] == whole;
    assert s[k + 1..] == fraction;
  }

  /** A parenthesised text is read as the negation of what is inside. */
  lemma CleanNumericOfParenthesisedText(inner: string)
    ensures CleanNumeric(Text("(" + inner + ")")) == ParseDecimal("-" + KeepNumeral(inner))
  {
    var t := "(" + inner + ")";
    CleanNumericOfPlainText(t);
    assert t[1..|t| - 1] == inner;
    assert KeepNumeral("-" + inner) == "-" + KeepNumeral(inner) by {
      KeepNumeralAppend("-", inner);
    }
  }

  /** Round trip of an accounting amount with thousands separators and a
      decimal fraction: "(" + Grouped(n) + "." + fraction + ")" reads back
      as the negated amount; "(1,234.5)" is the case n = 1234, fraction "5". */
  lemma CleanNumericOfAccountingAmount(n: nat, fraction: string)
    requires AllDigits(fraction)
    ensures CleanNumeric(Text("(" + Grouped(n) + "." + fraction + ")"))
         == Some(-(n as real + FractionValue(fraction)))
  {
    hide *;
    var inner := Grouped(n) + "." + fraction;
    var whole := KeepNumeral(Grouped(n));
    assert CleanNumeric(Text("(" + Grouped(n) + "." + fraction + ")"))
        == ParseDecimal("-" + (whole + "." + fraction)) by {
      assert "(" + Grouped(n) + "." + fraction + ")" == "(" + inner + ")";
      CleanNumericOfParenthesisedText(inner);
      KeepNumeralOfGroupedAmount(n, fraction);
    }
    ParseDecimalOfNegatedGrouped(n, fraction);
  }

  lemma ParseDecimalOfNegatedGrouped(n: nat, fraction: string)
    requires AllDigits(fraction)
    ensures ParseDecimal("-" + (KeepNumeral(Grouped(n)) + "." + fraction))
         == Some(-(n as real + FractionValue(fraction)))
  {
    var whole := KeepNumeral(Grouped(n));
    KeepNumeralOfGrouped(n);
    ParseDecimalOfNegatedFixedPoint(whole, fraction);
    assert FixedPointValue(whole, fraction) == n as real + FractionValue(fraction);
  }

  lemma KeepNumeralOfGroupedAmount(n: nat, fraction: string)
    requires AllDigits(fraction)
    ensures KeepNumeral(Grouped(n) + "." + fraction) == KeepNumeral(Grouped(n)) + "." + fraction
  {
    KeepNumeralAppend(Grouped(n) + ".", fraction);
    KeepNumeralAppend(Grouped(n), ".");
    assert KeepNumeral(".") == ".";
    KeepNumeralOfDigits(fraction);
  }

  lemma ParseDecimalOfNegatedFixedPoint(whole: string, fraction: string)
    requires AllDigits(whole) && AllDigits(fraction) && |whole| > 0
    ensures ParseDecimal("-" + (whole + "." + fraction)) == Some(-FixedPointValue(whole, fraction))
  {
    assert ("-" + (whole + "." + fraction))[1..] == whole + "." + fraction;
    ParseUnsignedOfFixedPoint(whole, fraction);
  }

  /** A stripped text made of digits, dots and minus signs only (and not a
      blank token) is handed to float() unchanged. */
  lemma CleanNumericOfNumeralText(t: string)
    requires t !in BlankTokens && forall i :: 0 <= i < |t| ==> IsNumeralChar(t[i])
    ensures CleanNumeric(Text(t)) == ParseDecimal(t)
  {
    assert IsNumeralChar(t[0]) && IsNumeralChar(t[|t| - 1]);
    CleanNumericOfPlainText(t);
    assert Unparenthesise(t) == t;
    KeepNumeralKeepsNumerals(t);
  }

  /** Dots used as thousands separators: "1.234.567" has two dots after the
      filter and so is not a number at all. */
  lemma CleanNumericDottedThousandsExample()
    ensures CleanNumeric(Text("1.234.567")) == None
  {
    hide CleanNumeric, ParseDecimal, Strip, TrimLeft, TrimRight, LeadingSpaces, KeepNumeral;
    var t := "1.234.567";
    CleanNumericOfNumeralText(t);
    ParseDecimalTwoDots(t, 1, 5);
  }

  lemma {:induction false} KeepNumeralKeepsNumerals(s: string)
    requires forall i :: 0 <= i < |s| ==> IsNumeralChar(s[i])
    ensures KeepNumeral(s) == s
    decreases |s|
  {
    if s != [] {
      KeepNumeralKeepsNumerals(s[1..]);
    }
  }

  /** Everything other than a digit, '.' or '-' is dropped: a text with none
      of those characters ("Rp", "%", letters, blanks) filters to nothing. */
  lemma {:induction false} KeepNumeralDropsOthers(s: string)
    requires forall i :: 0 <= i < |s| ==> !IsNumeralChar(s[i])
    ensures KeepNumeral(s) == []
    decreases |s|
  {
    if s != [] {
      KeepNumeralDropsOthers(s[1..]);
    }
  }

  /** A minus sign anywhere but first is not a float: "2024-12-31" and
      "1-2" are rejected. */
  lemma ParseDecimalInnerMinus(s: string, i: nat)
    requires 0 < i < |s| && s[i] == '-'
    ensures ParseDecimal(s) == None
  {
    var u := if s[0] == '-' then s[1..] else s;
    var off := |s| - |u|;
    var m := i - off;
    assert 0 <= m < |u| && u[m] == '-';
    var k := IndexOfDot(u);
    if m < k {
      assert u[..k][m] == '-';
      assert !AllDigits(u[..k]);
    } else {
      assert m != k;
      assert u[k + 1..][m - k - 1] == '-';
      assert !AllDigits(u[k + 1..]);
    }
  }
}
