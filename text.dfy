/** The string operations of Python that the generator relies on: str() of an int,
    str.join, str.splitlines, the `in` operator on strings, and line indentation. */
module Text {

  predicate IsDigit(c: char) {
    '0' <= c <= '9'
  }

  predicate AllDigits(s: string) {
    forall k :: 0 <= k < |s| ==> IsDigit(s[k])
  }

  function DigitChar(d: nat): (c: char)
    requires d < 10
    ensures IsDigit(c) && c as int - '0' as int == d
  {
    ('0' as int + d) as char
  }

  /** str(n) for a non-negative int: decimal digits with no leading zero. */
  function NatToString(n: nat): (s: string)
    ensures |s| >= 1 && AllDigits(s)
    ensures s[0] == '0' ==> n == 0
  {
    if n < 10 then [DigitChar(n)] else NatToString(n / 10) + [DigitChar(n % 10)]
  }

  /** The number a string of decimal digits denotes. */
  function DigitsValue(s: string): nat
    requires AllDigits(s)
  {
    if s == [] then 0 else DigitsValue(s[..|s| - 1]) * 10 + (s[|s| - 1] as int - '0' as int)
  }

  /** Reading the digits of str(n) back gives n. */
  lemma {:induction false} NatToStringRoundTrip(n: nat)
    ensures DigitsValue(NatToString(n)) == n
  {
    if n >= 10 {
      NatToStringRoundTrip(n / 10);
      var s := NatToString(n);
      assert s[..|s| - 1] == NatToString(n / 10);
    }
  }

  lemma NatToStringInjective(m: nat, n: nat)
    requires NatToString(m) == NatToString(n)
    ensures m == n
  {
    NatToStringRoundTrip(m);
    NatToStringRoundTrip(n);
  }

  /** str(i) for any int: a minus sign for negative values. */
  function IntToString(i: int): string {
    if i < 0 then "-" + NatToString(-i) else NatToString(i)
  }

  /** sep.join(xs). */
  function Join(sep: string, xs: seq<string>): string {
    if |xs| == 0 then ""
    else if |xs| == 1 then xs[0]
    else Join(sep, xs[..|xs| - 1]) + sep + xs[|xs| - 1]
  }

  lemma {:induction false} JoinAppend(sep: string, xs: seq<string>, ys: seq<string>)
    requires |xs| > 0 && |ys| > 0
    ensures Join(sep, xs + ys) == Join(sep, xs) + sep + Join(sep, ys)
    decreases |ys|
  {
    if |ys| > 1 {
      var ys' := ys[..|ys| - 1];
      assert (xs + ys)[..|xs + ys| - 1] == xs + ys';
      JoinAppend(sep, xs, ys');
    } else {
      assert (xs + ys)[..|xs + ys| - 1] == xs;
    }
  }

  /** Prefixes every line with one indentation unit of four spaces. */
  function Indent(xs: seq<string>): seq<string> {
    seq(|xs|, k requires 0 <= k < |xs| => "    " + xs[k])
  }

  lemma IndentAppend(xs: seq<string>, ys: seq<string>)
    ensures Indent(xs + ys) == Indent(xs) + Indent(ys)
  {
  }

  /** `d` indentation units. */
  function Spaces(d: nat): string {
    if d == 0 then "" else "    " + Spaces(d - 1)
  }

  /** Prefixes every line with `d` indentation units. */
  function IndentBy(d: nat, xs: seq<string>): seq<string> {
    seq(|xs|, k requires 0 <= k < |xs| => Spaces(d) + xs[k])
  }

  lemma IndentByZero(xs: seq<string>)
    ensures IndentBy(0, xs) == xs
  {
    forall k | 0 <= k < |xs| ensures IndentBy(0, xs)[k] == xs[k] {
      assert Spaces(0) + xs[k] == xs[k];
    }
  }

  lemma IndentByStep(d: nat, xs: seq<string>)
    ensures Indent(IndentBy(d, xs)) == IndentBy(d + 1, xs)
  {
    forall k | 0 <= k < |xs|
      ensures Indent(IndentBy(d, xs))[k] == IndentBy(d + 1, xs)[k]
    {
      assert Spaces(d + 1) == "    " + Spaces(d);
      assert IndentBy(d, xs)[k] == Spaces(d) + xs[k];
      assert "    " + (Spaces(d) + xs[k]) == ("    " + Spaces(d)) + xs[k];
    }
  }

  /** The line boundaries recognised by Python's str.splitlines. */
  predicate IsLineBreak(c: char) {
    var o := c as int;
    o == 10 || o == 11 || o == 12 || o == 13 || o == 0x1C || o == 0x1D || o == 0x1E
    || o == 0x85 || o == 0x2028 || o == 0x2029
  }

  predicate NoBreaks(s: string) {
    forall k :: 0 <= k < |s| ==> !IsLineBreak(s[k])
  }

  lemma NoBreaksConcat(a: string, b: string)
    requires NoBreaks(a) && NoBreaks(b)
    ensures NoBreaks(a + b)
  {
    forall k | 0 <= k < |a + b| ensures !IsLineBreak((a + b)[k]) {
      if k < |a| {
        assert (a + b)[k] == a[k];
      } else {
        assert (a + b)[k] == b[k - |a|];
      }
    }
  }

  /** str() of an int is a single line. */
  lemma IntToStringNoBreaks(i: int)
    ensures NoBreaks(IntToString(i))
  {
    var s := if i < 0 then NatToString(-i) else NatToString(i);
    assert NoBreaks(s) by {
      forall k | 0 <= k < |s| ensures !IsLineBreak(s[k]) {
        assert IsDigit(s[k]);
      }
    }
    if i < 0 {
      NoBreaksConcat("-", s);
    }
  }

  /** The index of the first line boundary in `s`, or |s| when there is none. */
  function FirstBreak(s: string): (k: nat)
    ensures k <= |s|
    ensures forall j :: 0 <= j < k ==> !IsLineBreak(s[j])
    ensures k < |s| ==> IsLineBreak(s[k])
  {
    if s == [] then 0 else if IsLineBreak(s[0]) then 0 else 1 + FirstBreak(s[1..])
  }

  /** s.splitlines(): the lines of `s` without their boundaries; "\r\n" is one boundary and a
      final boundary does not start an empty line. */
  function SplitLines(s: string): (lines: seq<string>)
    ensures forall k :: 0 <= k < |lines| ==> NoBreaks(lines[k])
    decreases |s|
  {
    if s == [] then []
    else
      var k := FirstBreak(s);
      if k == |s| then [s]
      else
        var next := if s[k] == '\r' && k + 1 < |s| && s[k + 1] == '\n' then k + 2 else k + 1;
        [s[..k]] + SplitLines(s[next..])
  }

  /** Concatenation regrouped, for proofs that build a text piece by piece. */
  lemma Assoc<T>(a: seq<T>, b: seq<T>, c: seq<T>)
    ensures a + b + c == a + (b + c)
  {
  }

  /** A line without boundaries followed by "\n" splits off as exactly that line. */
  lemma SplitLinesCons(line: string, rest: string)
    requires NoBreaks(line)
    ensures SplitLines(line + "\n" + rest) == [line] + SplitLines(rest)
  {
    var s := line + "\n" + rest;
    assert IsLineBreak(s[|line|]);
    var k := FirstBreak(s);
    assert forall j :: 0 <= j < |line| ==> s[j] == line[j];
    assert s[..k] == line;
    assert s[k + 1..] == rest;
  }

  /** Python's `t in s` for strings. */
  predicate HasSubstring(s: string, t: string)
    decreases |s|
  {
    (|t| <= |s| && s[..|t|] == t) || (s != [] && HasSubstring(s[1..], t))
  }
}
