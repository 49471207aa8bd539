/** Decimal renderings of natural numbers, shared by the currency formatter
    and the point-of-sale transaction numbers. */
module Decimal {

  predicate IsDigit(c: char) {
    '0' <= c <= '9'
  }

  predicate AllDigits(s: string) {
    forall i :: 0 <= i < |s| ==> IsDigit(s[i])
  }

  function DigitChar(d: nat): (c: char)
    requires d < 10
    ensures IsDigit(c)
  {
    ('0' as int + d) as char
  }

  function DigitValue(c: char): (d: nat)
    requires IsDigit(c)
    ensures d < 10 && DigitChar(d) == c
  {
    (c as int - '0' as int) as nat
  }

  /** The shortest decimal rendering of n, as Python's str(n). */
  function Digits(n: nat): (s: string)
    ensures |s| >= 1 && AllDigits(s)
    ensures n >= 10 ==> s[0] != '0'
    decreases n
  {
    if n < 10 then [DigitChar(n)] else Digits(n / 10) + [DigitChar(n % 10)]
  }

  /** The number a string of digits denotes. */
  function Value(s: string): nat
    requires AllDigits(s)
    decreases |s|
  {
    if s == [] then 0 else Value(s[..|s| - 1]) * 10 + DigitValue(s[|s| - 1])
  }

  /** Value undoes Digits. */
  lemma {:induction false} ValueOfDigits(n: nat)
    ensures Value(Digits(n)) == n
    decreases n
  {
    if n >= 10 {
      var s := Digits(n);
      assert s[..|s| - 1] == Digits(n / 10);
      ValueOfDigits(n / 10);
    }
  }

  /** Digits is injective: distinct numbers never share a rendering. */
  lemma DigitsInjective(m: nat, n: nat)
    requires Digits(m) == Digits(n)
    ensures m == n
  {
    ValueOfDigits(m);
    ValueOfDigits(n);
  }

  /** The number of digits of n. */
  function Width(n: nat): (w: nat)
    ensures w >= 1
    decreases n
  {
    if n < 10 then 1 else 1 + Width(n / 10)
  }

  lemma {:induction false} DigitsLength(n: nat)
    ensures |Digits(n)| == Width(n)
    decreases n
  {
    if n >= 10 {
      DigitsLength(n / 10);
    }
  }

  /** n has at most k digits exactly when it is below 10^k. */
  function Pow10(k: nat): (p: nat)
    ensures p >= 1
  {
    if k == 0 then 1 else 10 * Pow10(k - 1)
  }

  lemma {:induction false} WidthBound(n: nat, k: nat)
    requires k >= 1
    ensures Width(n) <= k <==> n < Pow10(k)
    decreases k
  {
    var p := Pow10(k - 1);
    if n >= 10 && k >= 2 {
      WidthBound(n / 10, k - 1);
      assert n / 10 < p <==> n < 10 * p;
    } else if n >= 10 {
      assert Width(n) >= 2;
    }
  }

  /** `s` left-padded with '0' to at least `width` characters, as the `0w`
      field of a Python format specification. */
  function ZeroPad(s: string, width: nat): (r: string)
    ensures |r| == if |s| >= width then |s| else width
  {
    if |s| >= width then s else Zeros(width - |s|) + s
  }

  /** n copies of '0'. */
  function Zeros(n: nat): (z: string)
    ensures |z| == n
  {
    if n == 0 then [] else Zeros(n - 1) + ['0']
  }

  lemma {:induction false} AllZeros(n: nat)
    ensures forall i :: 0 <= i < n ==> Zeros(n)[i] == '0'
  {
    if n > 0 {
      AllZeros(n - 1);
      assert forall i :: 0 <= i < n - 1 ==> Zeros(n)[i] == Zeros(n - 1)[i];
    }
  }

  /** The padded text ends with `s` and is '0' before it. */
  lemma ZeroPadShape(s: string, width: nat)
    ensures var r := ZeroPad(s, width);
      && r[|r| - |s|..] == s
      && forall i :: 0 <= i < |r| - |s| ==> r[i] == '0'
  {
    if |s| < width {
      var r := ZeroPad(s, width);
      AllZeros(width - |s|);
      assert r[|r| - |s|..] == s;
      assert forall i :: 0 <= i < |r| - |s| ==> r[i] == Zeros(width - |s|)[i];
    }
  }

  /** Zero-padding keeps the denoted value. */
  lemma {:induction false} ValueOfZeroPad(s: string, width: nat)
    requires AllDigits(s)
    ensures AllDigits(ZeroPad(s, width))
    ensures Value(ZeroPad(s, width)) == Value(s)
  {
    var r := ZeroPad(s, width);
    ZeroPadShape(s, width);
    LeadingZeros(r, |r| - |s|);
    assert r[|r| - |s|..] == s;
  }

  /** Leading zeros do not change the value of a digit string. */
  lemma {:induction false} LeadingZeros(r: string, k: nat)
    requires k <= |r|
    requires forall i :: 0 <= i < k ==> r[i] == '0'
    requires AllDigits(r[k..])
    ensures AllDigits(r)
    ensures Value(r) == Value(r[k..])
    decreases |r|
  {
    if |r| == k {
      assert r[k..] == [];
      ZeroValue(r);
    } else {
      var init := r[..|r| - 1];
      assert init[k..] == r[k..][..|r| - 1 - k];
      LeadingZeros(init, k);
      assert r[k..][..|r[k..]| - 1] == init[k..];
    }
  }

  lemma {:induction false} ZeroValue(r: string)
    requires forall i :: 0 <= i < |r| ==> r[i] == '0'
    ensures AllDigits(r) && Value(r) == 0
    decreases |r|
  {
    if r != [] {
      ZeroValue(r[..|r| - 1]);
    }
  }

  /** A zero-padded rendering of n, as Python's f"{n:0{width}d}" for n >= 0;
      distinct numbers give distinct renderings, whatever the width. */
  lemma PaddedDigitsInjective(m: nat, n: nat, width: nat)
    requires ZeroPad(Digits(m), width) == ZeroPad(Digits(n), width)
    ensures m == n
  {
    ValueOfZeroPad(Digits(m), width);
    ValueOfZeroPad(Digits(n), width);
    ValueOfDigits(m);
    ValueOfDigits(n);
  }
}
