/**
 * The few pieces of Swift standard-library behaviour the harmonica engine
 * depends on, written out because Dafny's built-in operators differ:
 * truncating `Int` division and remainder, `Double.rounded()` (half away
 * from zero), the decimal text of an `Int` in string interpolation,
 * `Int(String)`, and trimming surrounding whitespace.
 *
 * Integers are unbounded: overflow of the 64-bit `Int` is not modelled.
 */
module SwiftStd {
  import opened Options

  function Abs(x: int): nat {
    if x < 0 then -x else x
  }

  function AbsReal(x: real): (r: real)
    ensures r >= 0.0
    ensures r == x || r == -x
  {
    if x < 0.0 then -x else x
  }

  /**
   * Swift's `a / b` on `Int` for a positive divisor: the quotient truncated
   * toward zero.
   */
  function Quot(a: int, b: int): (q: int)
    requires b > 0
    ensures a >= 0 ==> 0 <= a - b * q < b
    ensures a < 0 ==> -b < a - b * q <= 0
  {
    if a >= 0 then a / b else -((-a) / b)
  }

  /** Swift's `a % b` on `Int` for a positive divisor: it has the sign of `a`. */
  function Rem(a: int, b: int): (r: int)
    requires b > 0
    ensures a == b * Quot(a, b) + r
    ensures -b < r < b
    ensures a >= 0 ==> r >= 0
    ensures a < 0 ==> r <= 0
  {
    a - b * Quot(a, b)
  }

  /** `Double.rounded()` and `round(_:)`: to the nearest integer, ties away from zero. */
  function Round(x: real): (r: int)
    ensures AbsReal(x - r as real) <= 0.5
    ensures AbsReal(x - r as real) == 0.5 ==> AbsReal(r as real) > AbsReal(x)
  {
    if x >= 0.0 then (x + 0.5).Floor else -((-x + 0.5).Floor)
  }

  // ---------------------------------------------------------------------
  // Decimal text of integers

  predicate IsDigit(c: char) {
    '0' <= c <= '9'
  }

  predicate AllDigits(s: string) {
    forall i | 0 <= i < |s| :: IsDigit(s[i])
  }

  function DigitChar(d: nat): (c: char)
    requires d < 10
    ensures IsDigit(c) && c as int == '0' as int + d
  {
    "0123456789"[d]
  }

  function DigitValue(c: char): (d: nat)
    requires IsDigit(c)
    ensures d < 10
    ensures DigitChar(d) == c
  {
    (c as int - '0' as int) as nat
  }

  /** The decimal digits of `n`, most significant first, without leading zeros. */
  function NatText(n: nat): (s: string)
    ensures |s| > 0 && AllDigits(s)
    ensures s[0] == '0' ==> n == 0
  {
    if n < 10 then [DigitChar(n)] else NatText(n / 10) + [DigitChar(n % 10)]
  }

  /** `"\(n)"` for an `Int`: a minus sign for negative values, then the digits. */
  function IntText(n: int): (s: string)
    ensures |s| > 0
    ensures n < 0 ==> s[0] == '-' && s[1..] == NatText(-n)
    ensures n >= 0 ==> s == NatText(n)
  {
    if n < 0 then "-" + NatText(-n) else NatText(n)
  }

  /** The text of an integer starts with a digit or a minus sign, never with whitespace. */
  lemma IntTextStart(n: int)
    ensures IntText(n)[0] == '-' || IsDigit(IntText(n)[0])
    ensures !IsWhitespace(IntText(n)[0])
  {
    var s := IntText(n);
    if n >= 0 {
      assert IsDigit(s[0]);
    }
  }

  /** The value of a string of decimal digits (leading zeros allowed). */
  function DigitsValue(s: string): nat
    requires AllDigits(s)
  {
    if s == [] then 0 else DigitsValue(s[..|s| - 1]) * 10 + DigitValue(s[|s| - 1])
  }

  /**
   * `Int(String)`: an optional `+` or `-` followed by at least one ASCII
   * digit and nothing else; anything else is `nil`.
   */
  function ParseInt(s: string): (r: Option<int>)
    ensures r.Some? <==>
      (|s| > 0 && AllDigits(s)) ||
      (|s| > 1 && (s[0] == '+' || s[0] == '-') && AllDigits(s[1..]))
    ensures |s| > 0 && AllDigits(s) ==> r == Some(DigitsValue(s))
    ensures |s| > 1 && s[0] == '-' && AllDigits(s[1..]) ==> r == Some(-(DigitsValue(s[1..]) as int))
    ensures |s| > 1 && s[0] == '+' && AllDigits(s[1..]) ==> r == Some(DigitsValue(s[1..]))
  {
    if |s| > 0 && (s[0] == '+' || s[0] == '-') then
      var body := s[1..];
      if |body| > 0 && AllDigits(body) then
        var v: int := DigitsValue(body);
        Some(if s[0] == '-' then -v else v)
      else None
    else if |s| > 0 && AllDigits(s) then Some(DigitsValue(s))
    else None
  }

  lemma {:induction false} DigitsValueOfNatText(n: nat)
    ensures DigitsValue(NatText(n)) == n
  {
    if n >= 10 {
      var s := NatText(n);
      DigitsValueOfNatText(n / 10);
      assert s[..|s| - 1] == NatText(n / 10);
    }
  }

  /** One or two digits read as their decimal value. */
  lemma ParseDigits(s: string, d1: nat, d2: nat)
    requires d1 < 10 && d2 < 10
    ensures s == [DigitChar(d1)] ==> ParseInt(s) == Some(d1)
    ensures s == [DigitChar(d1), DigitChar(d2)] ==> ParseInt(s) == Some(10 * d1 + d2)
  {
    var c1, c2 := DigitChar(d1), DigitChar(d2);
    assert DigitValue(c1) == d1 && DigitValue(c2) == d2;
    assert DigitsValue([c1]) == d1 by {
      assert [c1][..0] == [];
    }
    if s == [c1] {
      assert AllDigits(s);
    } else if s == [c1, c2] {
      assert AllDigits(s) && s[..1] == [c1];
    }
  }

  /** Reading back the text of any integer gives that integer. */
  lemma ParseIntText(n: int)
    ensures ParseInt(IntText(n)) == Some(n)
  {
    if n < 0 {
      DigitsValueOfNatText(-n);
    } else {
      DigitsValueOfNatText(n);
    }
  }

  // ---------------------------------------------------------------------
  // Trimming

  /**
   * The characters `.whitespacesAndNewlines` removes in this model: space,
   * tab, the line and paragraph breaks, NEL and the no-break space.
   */
  predicate IsWhitespace(c: char) {
    c == ' ' || c == '\t' || c == '\n' || c == '\r' || c == '\U{000B}' || c == '\U{000C}'
    || c == '\U{0085}' || c == '\U{00A0}' || c == '\U{2028}' || c == '\U{2029}'
  }

  /** Nothing but whitespace. */
  predicate Blank(s: string) {
    forall k | 0 <= k < |s| :: IsWhitespace(s[k])
  }

  /** The first index at or after `i` that is not whitespace, or `|s|`. */
  function SkipLeading(s: string, i: nat): (j: nat)
    requires i <= |s|
    ensures i <= j <= |s|
    ensures forall k | i <= k < j :: IsWhitespace(s[k])
    ensures j < |s| ==> !IsWhitespace(s[j])
    decreases |s| - i
  {
    if i < |s| && IsWhitespace(s[i]) then SkipLeading(s, i + 1) else i
  }

  /** The end of `s[lo..j]` once the whitespace it ends with is dropped. */
  function SkipTrailing(s: string, lo: nat, j: nat): (e: nat)
    requires lo <= j <= |s|
    ensures lo <= e <= j
    ensures forall k | e <= k < j :: IsWhitespace(s[k])
    ensures e > lo ==> !IsWhitespace(s[e - 1])
  {
    if j > lo && IsWhitespace(s[j - 1]) then SkipTrailing(s, lo, j - 1) else j
  }

  /** `r` sits at offset `i` of `s` with nothing but whitespace around it. */
  ghost predicate PaddedBy(s: string, i: int, r: string) {
    && 0 <= i <= |s| - |r| && r == s[i..i + |r|]
    && (forall k | 0 <= k < i :: IsWhitespace(s[k]))
    && (forall k | i + |r| <= k < |s| :: IsWhitespace(s[k]))
  }

  /**
   * `trimmingCharacters(in: .whitespacesAndNewlines)`: the longest middle
   * part of `s` that neither starts nor ends with whitespace, everything
   * around it being whitespace.
   */
  function Trim(s: string): (r: string)
    ensures |r| <= |s|
    ensures exists i :: PaddedBy(s, i, r)
    ensures |r| > 0 ==> !IsWhitespace(r[0]) && !IsWhitespace(r[|r| - 1])
  {
    var i := SkipLeading(s, 0);
    var e := SkipTrailing(s, i, |s|);
    assert PaddedBy(s, i, s[i..e]);
    s[i..e]
  }

  /**
   * Trimming is characterised by its result: any slice with only whitespace
   * around it and no whitespace at its ends is what trimming returns.
   */
  lemma TrimUnique(s: string, i: int, r: string)
    requires PaddedBy(s, i, r)
    requires |r| > 0 ==> !IsWhitespace(r[0]) && !IsWhitespace(r[|r| - 1])
    ensures Trim(s) == r
  {
    var i0 := SkipLeading(s, 0);
    var e0 := SkipTrailing(s, i0, |s|);
    if |r| > 0 {
      assert s[i] == r[0] && s[i + |r| - 1] == r[|r| - 1];
      assert i0 == i;
      assert e0 == i + |r|;
    } else {
      assert i0 == |s|;
    }
  }

  lemma TrimPadLeft(before: string, s: string)
    requires Blank(before)
    ensures Trim(before + s) == Trim(s)
  {
    var t := Trim(s);
    var i :| PaddedBy(s, i, t);
    var w := before + s;
    var j := |before| + i;
    forall k | 0 <= k < |t|
      ensures w[j..j + |t|][k] == t[k]
    {
      assert w[j + k] == s[i + k];
    }
    forall k | 0 <= k < j
      ensures IsWhitespace(w[k])
    {
      if k >= |before| {
        assert w[k] == s[k - |before|];
      }
    }
    forall k | j + |t| <= k < |w|
      ensures IsWhitespace(w[k])
    {
      assert w[k] == s[k - |before|];
    }
    TrimUnique(w, j, t);
  }

  lemma TrimPadRight(s: string, after: string)
    requires Blank(after)
    ensures Trim(s + after) == Trim(s)
  {
    var t := Trim(s);
    var i :| PaddedBy(s, i, t);
    var w := s + after;
    forall k | 0 <= k < |t|
      ensures w[i..i + |t|][k] == t[k]
    {
      assert w[i + k] == s[i + k];
    }
    forall k | 0 <= k < i
      ensures IsWhitespace(w[k])
    {
      assert w[k] == s[k];
    }
    forall k | i + |t| <= k < |w|
      ensures IsWhitespace(w[k])
    {
      if k < |s| {
        assert w[k] == s[k];
      } else {
        assert w[k] == after[k - |s|];
      }
    }
    TrimUnique(w, i, t);
  }

  /** Whitespace added around a string is trimmed away with the whitespace already there. */
  lemma TrimIgnoresPadding(before: string, s: string, after: string)
    requires Blank(before) && Blank(after)
    ensures Trim(before + s + after) == Trim(s)
  {
    TrimPadRight(before + s, after);
    TrimPadLeft(before, s);
  }

  /** One whitespace character on each side of a string that needs no trimming is cut off. */
  lemma TrimOnePadding(s: string)
    requires |s| >= 3 && IsWhitespace(s[0]) && IsWhitespace(s[|s| - 1])
    requires !IsWhitespace(s[1]) && !IsWhitespace(s[|s| - 2])
    ensures Trim(s) == s[1..|s| - 1]
  {
    assert SkipLeading(s, 1) == 1;
    assert SkipLeading(s, 0) == 1;
    assert SkipTrailing(s, 1, |s| - 1) == |s| - 1;
    assert SkipTrailing(s, 1, |s|) == |s| - 1;
  }

  /** A string that neither starts nor ends with whitespace is left as it is. */
  lemma TrimUnchanged(s: string)
    requires |s| > 0 && !IsWhitespace(s[0]) && !IsWhitespace(s[|s| - 1])
    ensures Trim(s) == s
  {
    assert SkipLeading(s, 0) == 0;
    assert SkipTrailing(s, 0, |s|) == |s|;
  }
}
