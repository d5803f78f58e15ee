/**
 * The two pieces of JavaScript string handling the dashboard relies on:
 * turning a whole number into text (what a template literal or React does
 * with an integer below 10^21 that a double holds exactly) and `String.prototype.split(/(\d+)/)`, which cuts a
 * string around its maximal runs of ASCII digits and keeps the runs.
 */
module DecimalText {

  /** `\d` in a JavaScript regular expression without the `u` flag: ASCII digits only. */
  predicate IsDigit(c: char) {
    '0' <= c <= '9'
  }

  predicate AllDigits(s: string) {
    forall i :: 0 <= i < |s| ==> IsDigit(s[i])
  }

  predicate NoDigits(s: string) {
    forall i :: 0 <= i < |s| ==> !IsDigit(s[i])
  }

  function DigitValue(c: char): (d: nat)
    requires IsDigit(c)
    ensures d < 10
  {
    c as int - '0' as int
  }

  function DigitChar(d: nat): (c: char)
    requires d < 10
    ensures IsDigit(c) && DigitValue(c) == d
  {
    ('0' as int + d) as char
  }

  /** The decimal text of a whole number: digits only, no sign, no leading zero. */
  function Decimal(n: nat): (s: string)
    ensures |s| > 0 && AllDigits(s)
    ensures n > 0 ==> s[0] != '0'
    ensures n < 10 <==> |s| == 1
    decreases n
  {
    if n < 10 then [DigitChar(n)] else Decimal(n / 10) + [DigitChar(n % 10)]
  }

  /** Reads a run of ASCII digits back as a number, most significant digit first. */
  function ParseDecimal(s: string): nat
    requires AllDigits(s)
    decreases |s|
  {
    if s == [] then 0 else ParseDecimal(s[..|s| - 1]) * 10 + DigitValue(s[|s| - 1])
  }

  /** Reading back the decimal text of `n` gives `n`: `Decimal` loses nothing. */
  lemma {:induction false} ParseDecimalOfDecimal(n: nat)
    ensures ParseDecimal(Decimal(n)) == n
    decreases n
  {
    if n >= 10 {
      var s := Decimal(n / 10);
      assert Decimal(n)[..|Decimal(n)| - 1] == s;
      ParseDecimalOfDecimal(n / 10);
    }
  }

  /**
   * The text of an integer as JavaScript prints it, for integers a double holds
   * exactly: a minus sign before negative ones.
   */
  function IntText(i: int): (s: string)
    ensures |s| > 0
    ensures i < 0 <==> s[0] == '-'
    ensures i < 0 ==> AllDigits(s[1..])
    ensures i >= 0 ==> AllDigits(s)
  {
    if i < 0 then "-" + Decimal(-i) else Decimal(i)
  }

  /** The inverse of `IntText`, for texts of that shape. */
  function ParseInt(s: string): int
    requires |s| > 0
    requires s[0] == '-' ==> AllDigits(s[1..])
    requires s[0] != '-' ==> AllDigits(s)
  {
    if s[0] == '-' then -(ParseDecimal(s[1..]) as int) else ParseDecimal(s)
  }

  lemma ParseIntOfIntText(i: int)
    ensures ParseInt(IntText(i)) == i
  {
    if i < 0 {
      var t := Decimal(-i);
      assert IntText(i) == "-" + t;
      assert ("-" + t)[0] == '-' && ("-" + t)[1..] == t;
      ParseDecimalOfDecimal(-i);
    } else {
      var t := Decimal(i);
      assert IntText(i) == t && IsDigit(t[0]);
      ParseDecimalOfDecimal(i);
    }
  }

  /** Length of the longest prefix of `s` holding no ASCII digit. */
  function NonDigitPrefixLength(s: string): (k: nat)
    ensures k <= |s| && NoDigits(s[..k])
    ensures k < |s| ==> IsDigit(s[k])
    decreases |s|
  {
    if s == [] || IsDigit(s[0]) then 0
    else
      var k := 1 + NonDigitPrefixLength(s[1..]);
      assert forall i :: 1 <= i < k ==> s[..k][i] == s[1..][..k - 1][i - 1];
      k
  }

  /** Length of the longest prefix of `s` made only of ASCII digits. */
  function DigitPrefixLength(s: string): (k: nat)
    ensures k <= |s| && AllDigits(s[..k])
    ensures k < |s| ==> !IsDigit(s[k])
    decreases |s|
  {
    if s == [] || !IsDigit(s[0]) then 0
    else
      var k := 1 + DigitPrefixLength(s[1..]);
      assert forall i :: 1 <= i < k ==> s[..k][i] == s[1..][..k - 1][i - 1];
      k
  }

  function Join(parts: seq<string>): string {
    if parts == [] then "" else parts[0] + Join(parts[1..])
  }

  /** Digit-free pieces at even positions, non-empty digit runs at odd positions. */
  predicate Alternates(parts: seq<string>) {
    && |parts| % 2 == 1
    && (forall i :: 0 <= i < |parts| && i % 2 == 0 ==> NoDigits(parts[i]))
    && (forall i :: 0 <= i < |parts| && i % 2 == 1 ==> |parts[i]| > 0 && AllDigits(parts[i]))
  }

  lemma AlternatesCons(a: string, b: string, tail: seq<string>)
    requires NoDigits(a) && |b| > 0 && AllDigits(b) && Alternates(tail)
    ensures Alternates([a, b] + tail)
  {
  }

  /**
   * The digit runs are maximal: every digit-free piece strictly between two
   * runs is non-empty, so no two runs touch.
   */
  predicate RunsMaximal(parts: seq<string>) {
    forall i :: 0 < i < |parts| - 1 && i % 2 == 0 ==> |parts[i]| > 0
  }

  lemma RunsMaximalCons(a: string, b: string, tail: seq<string>)
    requires RunsMaximal(tail) && tail != [] && (|tail| == 1 || |tail[0]| > 0)
    ensures RunsMaximal([a, b] + tail)
  {
    var parts := [a, b] + tail;
    forall i | 0 < i < |parts| - 1 && i % 2 == 0
      ensures |parts[i]| > 0
    {
      assert parts[i] == tail[i - 2];
    }
  }

  lemma JoinCons(a: string, b: string, tail: seq<string>)
    ensures Join([a, b] + tail) == a + b + Join(tail)
  {
  }

  /** A digit-free string on its own is a well-formed split of itself. */
  lemma SplitWhole(s: string)
    requires NoDigits(s[..|s|])
    ensures Alternates([s]) && Join([s]) == s
  {
    assert s[..|s|] == s;
    assert Join([s]) == s + Join([]);
  }

  /** Cutting `s` at `k` and then `k + m` and gluing the pieces back gives `s`. */
  lemma Pieces(s: string, k: nat, m: nat)
    requires k <= |s| && m <= |s| - k
    ensures s == s[..k] + s[k..][..m] + s[k..][m..]
  {
  }

  /**
   * `s.split(/(\d+)/)`: the text before the first digit run, then each maximal
   * digit run followed by the text after it.
   */
  function SplitDigitRuns(s: string): (parts: seq<string>)
    ensures Alternates(parts)
    ensures RunsMaximal(parts)
    ensures Join(parts) == s
    ensures s != [] && !IsDigit(s[0]) ==> |parts[0]| > 0
    decreases |s|
  {
    var k := NonDigitPrefixLength(s);
    if k == |s| then
      SplitWhole(s);
      [s]
    else
      var rest := s[k..];
      var m := DigitPrefixLength(rest);
      var tail := SplitDigitRuns(rest[m..]);
      AlternatesCons(s[..k], rest[..m], tail);
      RunsMaximalCons(s[..k], rest[..m], tail);
      JoinCons(s[..k], rest[..m], tail);
      Pieces(s, k, m);
      [s[..k], rest[..m]] + tail
  }

  /** The only maximal digit-free prefix of `p + q` when `q` starts with a digit. */
  lemma NonDigitPrefixIs(p: string, q: string)
    requires NoDigits(p)
    requires q == [] || IsDigit(q[0])
    ensures NonDigitPrefixLength(p + q) == |p|
  {
    var s := p + q;
    var k := NonDigitPrefixLength(s);
    assert forall i :: 0 <= i < |p| ==> s[i] == p[i];
    assert forall i :: 0 <= i < k ==> !IsDigit(s[i]) by {
      assert forall i :: 0 <= i < k ==> s[..k][i] == s[i];
    }
    if q != [] {
      assert s[|p|] == q[0];
    }
  }

  /** The only maximal digit run at the start of `d + q` when `q` starts with a non-digit. */
  lemma DigitPrefixIs(d: string, q: string)
    requires AllDigits(d)
    requires q == [] || !IsDigit(q[0])
    ensures DigitPrefixLength(d + q) == |d|
  {
    var s := d + q;
    var k := DigitPrefixLength(s);
    assert forall i :: 0 <= i < |d| ==> s[i] == d[i];
    assert forall i :: 0 <= i < k ==> IsDigit(s[i]) by {
      assert forall i :: 0 <= i < k ==> s[..k][i] == s[i];
    }
    if q != [] {
      assert s[|d|] == q[0];
    }
  }

  /** One step of the split: the leading digit-free text, the digit run after it, then the rest. */
  lemma SplitStep(a: string, b: string, rest: string)
    requires NonDigitPrefixLength(a + b + rest) == |a| < |a + b + rest|
    requires DigitPrefixLength(b + rest) == |b|
    ensures SplitDigitRuns(a + b + rest) == [a, b] + SplitDigitRuns(rest)
  {
    var s := a + b + rest;
    assert s[..|a|] == a;
    assert s[|a|..] == b + rest;
    assert (b + rest)[..|b|] == b;
    assert (b + rest)[|b|..] == rest;
  }

  /** A digit-free string splits into itself alone. */
  lemma SplitNoDigits(q: string)
    requires NoDigits(q)
    ensures SplitDigitRuns(q) == [q]
  {
    NonDigitPrefixIs(q, []);
    assert q + [] == q;
    assert q[..|q|] == q;
  }

  /**
   * Splitting digit-free text, a digit run and digit-free text gives back
   * exactly those three pieces: the run is `parts[1]`.
   */
  lemma SplitAroundNumber(p: string, d: string, q: string)
    requires NoDigits(p) && NoDigits(q)
    requires |d| > 0 && AllDigits(d)
    ensures SplitDigitRuns(p + d + q) == [p, d, q]
  {
    assert p + d + q == p + (d + q);
    NonDigitPrefixIs(p, d + q);
    DigitPrefixIs(d, q);
    SplitStep(p, d, q);
    SplitNoDigits(q);
  }

  /**
   * The contract of `SplitDigitRuns` fixes the split: any alternation of
   * digit-free pieces and maximal digit runs that joins back to `s` is it.
   */
  lemma {:induction false} SplitIsUnique(s: string, parts: seq<string>)
    requires Alternates(parts) && RunsMaximal(parts) && Join(parts) == s
    ensures parts == SplitDigitRuns(s)
    decreases |parts|
  {
    if |parts| == 1 {
      assert Join(parts) == parts[0] + Join([]);
      SplitNoDigits(s);
    } else {
      var a, b, tail := parts[0], parts[1], parts[2..];
      assert parts == [a, b] + tail;
      JoinCons(a, b, tail);
      var rest := Join(tail);
      assert Alternates(tail) by {
        forall i | 0 <= i < |tail|
          ensures i % 2 == 0 ==> NoDigits(tail[i])
          ensures i % 2 == 1 ==> |tail[i]| > 0 && AllDigits(tail[i])
        {
          assert tail[i] == parts[i + 2];
        }
      }
      assert RunsMaximal(tail) by {
        forall i | 0 < i < |tail| - 1 && i % 2 == 0
          ensures |tail[i]| > 0
        {
          assert tail[i] == parts[i + 2];
        }
      }
      // The text after the run is empty or starts with a non-digit.
      if |tail| == 1 {
        assert rest == tail[0] + Join([]);
      } else {
        assert |parts[2]| > 0;
        assert rest == tail[0] + Join(tail[1..]);
        assert rest[0] == tail[0][0];
      }
      assert rest == [] || !IsDigit(rest[0]);
      NonDigitPrefixIs(a, b + rest);
      assert a + (b + rest) == a + b + rest;
      DigitPrefixIs(b, rest);
      SplitStep(a, b, rest);
      SplitIsUnique(rest, tail);
    }
  }

}
