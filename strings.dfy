/** The pieces of Python's string runtime that the scanner leans on:
    str.isspace, str.strip, str.lower, the `in` substring test, " ".join and
    the whitespace-collapsing substitution re.sub(r'\s+', ' ', s). */
module Strings {

  /** Characters for which Python's str.isspace() holds. The same set is what
      str.strip() removes and what the regular-expression class \s matches. */
  predicate IsSpace(c: char) {
    c == ' ' || ('\t' <= c <= '\r') || ('\U{1c}' <= c <= '\U{1f}')
    || c == '\U{85}' || c == '\U{a0}' || c == '\U{1680}'
    || ('\U{2000}' <= c <= '\U{200a}')
    || c == '\U{2028}' || c == '\U{2029}' || c == '\U{202f}' || c == '\U{205f}' || c == '\U{3000}'
  }

  predicate AllSpace(s: string) {
    forall i :: 0 <= i < |s| ==> IsSpace(s[i])
  }

  /** How many whitespace characters s starts with. */
  function LeadingSpaces(s: string): (n: nat)
    ensures n <= |s| && AllSpace(s[..n])
    ensures n == |s| || !IsSpace(s[n])
  {
    hide IsSpace;
    if |s| > 0 && IsSpace(s[0]) then
      var m := LeadingSpaces(s[1..]);
      assert forall i :: 1 <= i < 1 + m ==> s[i] == s[1..][i - 1];
      1 + m
    else 0
  }

  /** str.lstrip(): the suffix left after dropping the leading whitespace. */
  function TrimLeft(s: string): (r: string)
    ensures |r| <= |s| && r == s[|s| - |r|..]
    ensures AllSpace(s[..|s| - |r|])
    ensures r == [] || !IsSpace(r[0])
  {
    s[LeadingSpaces(s)..]
  }

  /** str.rstrip(): the prefix left after dropping the trailing whitespace. */
  function TrimRight(s: string): (r: string)
    ensures |r| <= |s| && r == s[..|r|]
    ensures AllSpace(s[|r|..])
    ensures r == [] || !IsSpace(r[|r| - 1])
  {
    hide IsSpace;
    if |s| > 0 && IsSpace(s[|s| - 1]) then
      var r := TrimRight(s[..|s| - 1]);
      assert s[|r|..] == s[..|s| - 1][|r|..] + [s[|s| - 1]];
      r
    else s
  }

  /** How many leading characters str.strip() removes. */
  function StripOffset(s: string): nat {
    |s| - |TrimLeft(s)|
  }

  /** str.strip(): str.lstrip() then str.rstrip(). */
  function Strip(s: string): string {
    TrimRight(TrimLeft(s))
  }

  /** r is s with its leading and trailing whitespace cut off: a slice of
      s that neither starts nor ends with whitespace, with only whitespace
      on either side of it. */
  predicate IsStripOf(r: string, s: string) {
    StripOffset(s) + |r| <= |s|
    && r == s[StripOffset(s)..StripOffset(s) + |r|]
    && AllSpace(s[..StripOffset(s)]) && AllSpace(s[StripOffset(s) + |r|..])
    && (r == [] || (!IsSpace(r[0]) && !IsSpace(r[|r| - 1])))
  }

  lemma StripIsStrip(s: string)
    ensures IsStripOf(Strip(s), s)
  {
    hide TrimLeft, TrimRight, AllSpace, IsSpace;
    StripSlices(s);
    StripSpaces(s);
  }

  /** Leading whitespace before a text that does not start with whitespace
      is exactly what str.lstrip() removes. */
  lemma {:induction false} TrimLeftOfPadded(a: string, x: string)
    requires AllSpace(a) && (x == [] || !IsSpace(x[0]))
    ensures TrimLeft(a + x) == x
    decreases |a|
  {
    if a != [] {
      assert (a + x)[1..] == a[1..] + x;
      TrimLeftOfPadded(a[1..], x);
    } else {
      assert a + x == x;
    }
  }

  /** Trailing whitespace after a text that does not end with whitespace
      is exactly what str.rstrip() removes. */
  lemma {:induction false} TrimRightOfPadded(x: string, b: string)
    requires AllSpace(b) && (x == [] || !IsSpace(x[|x| - 1]))
    ensures TrimRight(x + b) == x
    decreases |b|
  {
    if b != [] {
      var b' := b[..|b| - 1];
      assert (x + b)[..|x + b| - 1] == x + b';
      TrimRightOfPadded(x, b');
    } else {
      assert x + b == x;
    }
  }

  /** str.strip() of a text padded with whitespace on both sides gives the
      text back when it neither starts nor ends with whitespace. */
  lemma StripOfPadded(a: string, x: string, b: string)
    requires AllSpace(a) && AllSpace(b)
    requires x == [] || (!IsSpace(x[0]) && !IsSpace(x[|x| - 1]))
    ensures Strip(a + x + b) == x
  {
    if x == [] {
      assert a + x + b == (a + b) + [];
      assert AllSpace(a + b) by {
        assert forall i :: |a| <= i < |a + b| ==> (a + b)[i] == b[i - |a|];
      }
      TrimLeftOfPadded(a + b, []);
    } else {
      assert a + x + b == a + (x + b);
      TrimLeftOfPadded(a, x + b);
      TrimRightOfPadded(x, b);
    }
  }

  /** Trimming the left, then the right, keeps a slice of s. */
  lemma StripSlices(s: string)
    ensures var r := TrimRight(TrimLeft(s));
            StripOffset(s) + |r| <= |s| && r == s[StripOffset(s)..StripOffset(s) + |r|]
  {
    hide TrimLeft, TrimRight;
    var t := TrimLeft(s);
    var r := TrimRight(t);
    var i := |s| - |t|;
    assert t == s[i..] && r == t[..|r|];
    assert s[i..][..|r|] == s[i..i + |r|];
  }

  /** Stripping removes characters and changes none, so it keeps a text
      lower-case. */
  lemma StripLowered(s: string)
    requires Lowered(s)
    ensures Lowered(Strip(s))
  {
    StripIsStrip(s);
    var r := Strip(s);
    var i := StripOffset(s);
    assert forall k :: 0 <= k < |r| ==> r[k] == s[i + k];
  }

  /** What the two trims cut off is whitespace, and what they keep starts
      and ends with something else. */
  lemma StripSpaces(s: string)
    ensures var r := TrimRight(TrimLeft(s));
            StripOffset(s) + |r| <= |s|
            && AllSpace(s[..StripOffset(s)]) && AllSpace(s[StripOffset(s) + |r|..])
            && (r == [] || (!IsSpace(r[0]) && !IsSpace(r[|r| - 1])))
  {
    hide TrimLeft, TrimRight, IsSpace;
    var t := TrimLeft(s);
    var r := TrimRight(t);
    var i := |s| - |t|;
    assert s[i + |r|..] == t[|r|..];
    assert r != [] ==> r[0] == t[0];
  }

  function LowerChar(c: char): char {
    if 'A' <= c <= 'Z' then (c as int + 32) as char else c
  }

  /** No upper-case letter: what str.lower() leaves. */
  predicate Lowered(s: string) {
    forall i :: 0 <= i < |s| ==> !('A' <= s[i] <= 'Z')
  }

  /** str.lower(), restricted to the ASCII letters. */
  function Lower(s: string): (r: string)
    ensures |r| == |s|
    ensures forall i :: 0 <= i < |s| ==> r[i] == LowerChar(s[i])
    ensures Lowered(r)
  {
    if s == [] then [] else [LowerChar(s[0])] + Lower(s[1..])
  }

  predicate OccursAt(s: string, t: string, i: nat) {
    i + |t| <= |s| && s[i..i + |t|] == t
  }

  /** Python's `t in s` for strings. */
  predicate Contains(s: string, t: string) {
    exists i :: 0 <= i <= |s| - |t| && OccursAt(s, t, i)
  }

  /** A string cannot contain a word one of whose letters it lacks. */
  lemma NotContainsMissingChar(s: string, t: string, k: nat)
    requires k < |t| && t[k] !in s
    ensures !Contains(s, t)
  {
  }

  /** sep.join(parts). */
  function Join(parts: seq<string>, sep: string): string {
    if |parts| == 0 then ""
    else if |parts| == 1 then parts[0]
    else parts[0] + sep + Join(parts[1..], sep)
  }

  /** A string occurs inside any text that has it as a piece. */
  lemma ContainsPiece(a: string, t: string, b: string)
    ensures Contains(a + t + b, t)
  {
    assert (a + t + b)[|a|..|a| + |t|] == t;
    assert OccursAt(a + t + b, t, |a|);
  }

  /** What a string contains, any text around it contains too. */
  lemma ContainsWithin(a: string, s: string, b: string, t: string)
    requires Contains(s, t)
    ensures Contains(a + s + b, t)
  {
    var i :| 0 <= i <= |s| - |t| && OccursAt(s, t, i);
    assert (a + s + b)[|a| + i..|a| + i + |t|] == s[i..i + |t|];
    assert OccursAt(a + s + b, t, |a| + i);
  }

  /** Every part occurs in the joined text. */
  lemma {:induction false} JoinContainsPart(parts: seq<string>, sep: string, i: nat)
    requires i < |parts|
    ensures Contains(Join(parts, sep), parts[i])
  {
    if |parts| == 1 {
      ContainsPiece([], parts[0], []);
      assert [] + parts[0] + [] == Join(parts, sep);
    } else {
      var rest := Join(parts[1..], sep);
      assert parts[0] + sep + rest + [] == Join(parts, sep);
      if i == 0 {
        ContainsPiece([], parts[0], sep + rest);
        assert [] + parts[0] + (sep + rest) == Join(parts, sep);
      } else {
        JoinContainsPart(parts[1..], sep, i - 1);
        ContainsWithin(parts[0] + sep, rest, [], parts[i]);
      }
    }
  }

  lemma JoinContainsLeft(a: seq<string>, b: seq<string>, sep: string, i: nat)
    requires i < |a|
    ensures Contains(Join(a + b, sep), a[i])
  {
    JoinContainsPart(a + b, sep, i);
    assert (a + b)[i] == a[i];
  }

  lemma JoinContainsRight(a: seq<string>, b: seq<string>, sep: string, i: nat)
    requires i < |b|
    ensures Contains(Join(a + b, sep), b[i])
  {
    JoinContainsPart(a + b, sep, |a| + i);
    assert (a + b)[|a| + i] == b[i];
  }

  /** The characters of s other than whitespace, in order. */
  function NonSpace(s: string): string {
    if s == [] then [] else (if IsSpace(s[0]) then [] else [s[0]]) + NonSpace(s[1..])
  }

  /** Leading whitespace carries no text. */
  lemma {:induction false} NonSpaceOfTrimLeft(s: string)
    ensures NonSpace(TrimLeft(s)) == NonSpace(s)
    decreases |s|
  {
    if s != [] && IsSpace(s[0]) {
      NonSpaceOfTrimLeft(s[1..]);
      assert TrimLeft(s) == TrimLeft(s[1..]);
    } else {
      assert TrimLeft(s) == s;
    }
  }

  /** re.sub(r'\s+', ' ', s): every maximal run of whitespace becomes one
      blank, so the result holds no whitespace but single blanks, and the
      other characters are kept in order. */
  function CollapseSpaces(s: string): (r: string)
    ensures |r| <= |s|
    ensures |r| > 0 <==> |s| > 0
    ensures |r| > 0 ==> (r[0] == ' ' <==> IsSpace(s[0]))
    ensures forall i :: 0 <= i < |r| && IsSpace(r[i]) ==> r[i] == ' '
    ensures forall i :: 0 <= i < |r| - 1 ==> !(r[i] == ' ' && r[i + 1] == ' ')
    ensures NonSpace(r) == NonSpace(s)
    ensures Lowered(s) ==> Lowered(r)
    decreases |s|
  {
    if s == [] then []
    else if IsSpace(s[0]) then
      NonSpaceOfTrimLeft(s);
      [' '] + CollapseSpaces(TrimLeft(s))
    else
      [s[0]] + CollapseSpaces(s[1..])
  }

  /** The substitution as a left-to-right scan, one character at a time;
      inRun says the previous character was whitespace. A whitespace
      character that opens a run emits one blank, the rest of the run
      emits nothing, and any other character is copied. */
  function CollapseScan(s: string, inRun: bool): string {
    if s == [] then []
    else if IsSpace(s[0]) then (if inRun then [] else [' ']) + CollapseScan(s[1..], true)
    else [s[0]] + CollapseScan(s[1..], false)
  }

  /** Inside a run, the scan skips to the run's end. */
  lemma {:induction false} CollapseScanInRun(u: string)
    ensures CollapseScan(u, true) == CollapseScan(TrimLeft(u), false)
    decreases |u|
  {
    if u != [] {
      if IsSpace(u[0]) {
        CollapseScanInRun(u[1..]);
        assert TrimLeft(u) == TrimLeft(u[1..]);
      } else {
        assert TrimLeft(u) == u;
      }
    }
  }

  /** The collapse agrees with the character-by-character scan. */
  lemma {:induction false} CollapseSpacesIsScan(s: string)
    ensures CollapseSpaces(s) == CollapseScan(s, false)
    decreases |s|
  {
    if s != [] {
      if IsSpace(s[0]) {
        var t := TrimLeft(s);
        assert |t| < |s|;
        CollapseSpacesIsScan(t);
        CollapseScanInRun(s[1..]);
        assert TrimLeft(s[1..]) == t;
      } else {
        CollapseSpacesIsScan(s[1..]);
      }
    }
  }
}
