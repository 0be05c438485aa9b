/** Decimal text of non-negative integers, and the inverse reading used to
    recover numbers from frames. For an integral value below 2^53 this is what
    `Number.prototype.toString()` produces; above that a JavaScript number is
    no longer exact (README, "Left out"). */
module Decimal {
  import opened Wrappers

  predicate IsDigit(c: char) { '0' <= c <= '9' }

  predicate AllDigits(s: string) { forall i :: 0 <= i < |s| ==> IsDigit(s[i]) }

  function DigitChar(d: nat): (c: char)
    requires d < 10
    ensures IsDigit(c)
  {
    ('0' as int + d) as char
  }

  function DigitValue(c: char): (d: nat)
    requires IsDigit(c)
    ensures d < 10 && DigitChar(d) == c
  {
    c as int - '0' as int
  }

  function Pow10(k: nat): (p: nat)
    ensures p >= 1
  {
    if k == 0 then 1 else 10 * Pow10(k - 1)
  }

  /** The decimal digits of `n`, most significant first, without leading zeros. */
  function Digits(n: nat): (r: string)
    ensures |r| >= 1 && AllDigits(r)
    ensures r[0] == '0' ==> n == 0
    decreases n
  {
    if n < 10 then [DigitChar(n)] else Digits(n / 10) + [DigitChar(n % 10)]
  }

  /** The value of a string of decimal digits (leading zeros allowed). */
  function ParseDecimal(s: string): (r: nat)
    requires AllDigits(s)
  {
    if s == [] then 0 else ParseDecimal(s[..|s| - 1]) * 10 + DigitValue(s[|s| - 1])
  }

  /** Reading the digits back gives the number. */
  lemma {:induction false} ParseDigits(n: nat)
    ensures ParseDecimal(Digits(n)) == n
  {
    if n >= 10 {
      var d := Digits(n);
      assert d[..|d| - 1] == Digits(n / 10);
      ParseDigits(n / 10);
    }
  }

  /** A number has at most `k` digits exactly when it is below 10^k. */
  lemma {:induction false} DigitsLength(n: nat, k: nat)
    requires k >= 1
    ensures |Digits(n)| <= k <==> n < Pow10(k)
    decreases n
  {
    if n >= 10 {
      assert |Digits(n)| == |Digits(n / 10)| + 1;
      if k > 1 {
        DigitsLength(n / 10, k - 1);
        var p := Pow10(k - 1);
        assert Pow10(k) == 10 * p;
        assert n < 10 * p <==> n / 10 < p;
      }
    } else {
      assert |Digits(n)| == 1;
      if k > 0 {
        var p := Pow10(k - 1);
        assert Pow10(k) == 10 * p && p >= 1;
      }
    }
  }

  /** Length of the longest run of digits at the front of `s`. */
  function DigitRun(s: string): (k: nat)
    ensures k <= |s| && AllDigits(s[..k])
    ensures k < |s| ==> !IsDigit(s[k])
  {
    if s == [] || !IsDigit(s[0]) then 0
    else
      var k := 1 + DigitRun(s[1..]);
      assert s[..k] == [s[0]] + s[1..][..k - 1];
      k
  }

  /** A digit run that is followed by a non-digit (or nothing) is the whole run. */
  lemma {:induction false} DigitRunOf(d: string, rest: string)
    requires AllDigits(d)
    requires rest == [] || !IsDigit(rest[0])
    ensures DigitRun(d + rest) == |d|
  {
    if d != [] {
      assert (d + rest)[1..] == d[1..] + rest;
      DigitRunOf(d[1..], rest);
    }
  }

  /** Reads the maximal non-empty run of leading digits as a number and returns
      it with the text that follows; `None` when `s` does not start with a digit. */
  function ReadNat(s: string): (r: Option<(nat, string)>)
    ensures r.Some? ==> DigitRun(s) >= 1 && s == s[..DigitRun(s)] + r.value.1
    ensures r.None? <==> (s == [] || !IsDigit(s[0]))
  {
    var k := DigitRun(s);
    if k == 0 then None else Some((ParseDecimal(s[..k]), s[k..]))
  }

  /** Decimal text followed by a non-digit reads back as the same number. */
  lemma ReadNatDigits(n: nat, rest: string)
    requires rest == [] || !IsDigit(rest[0])
    ensures ReadNat(Digits(n) + rest) == Some((n, rest))
  {
    var s := Digits(n) + rest;
    DigitRunOf(Digits(n), rest);
    assert s[..|Digits(n)|] == Digits(n);
    assert s[|Digits(n)|..] == rest;
    ParseDigits(n);
  }
}
