/**
 * Decimal digit strings and the natural numbers they denote: the part of
 * JavaScript's number parsing (`+s`) and printing (`n.toString()`) that the
 * card id generator depends on.
 */
module Decimal {
  import opened Strings

  predicate IsDigit(c: char) {
    '0' <= c <= '9'
  }

  predicate IsDigits(s: string) {
    forall i :: 0 <= i < |s| ==> IsDigit(s[i])
  }

  /** A digit string as `toString` prints it: non-empty, no leading zero except "0" itself. */
  predicate IsCanonical(s: string) {
    IsDigits(s) && |s| >= 1 && (|s| > 1 ==> s[0] != '0')
  }

  function DigitValue(c: char): (d: nat)
    requires IsDigit(c)
    ensures d < 10
  {
    (c as int) - ('0' as int)
  }

  function DigitChar(d: nat): (c: char)
    requires d < 10
    ensures IsDigit(c) && DigitValue(c) == d
  {
    (('0' as int) + d) as char
  }

  function Pow10(k: nat): (p: nat)
    ensures p >= 1
  {
    if k == 0 then 1 else 10 * Pow10(k - 1)
  }

  /**
   * The value of a digit string, most significant digit first. The empty
   * string reads as 0, as `+""` does in JavaScript.
   */
  function DigitsToNat(s: string): (n: nat)
    requires IsDigits(s)
    ensures n < Pow10(|s|)
  {
    if s == [] then 0
    else
      var init := DigitsToNat(s[..|s| - 1]);
      assert init * 10 <= (Pow10(|s| - 1) - 1) * 10;
      init * 10 + DigitValue(s[|s| - 1])
  }

  /** The shortest decimal rendering of `n`, as `n.toString()` gives it. */
  function NatToDigits(n: nat): (s: string)
    ensures IsCanonical(s)
    decreases n
  {
    if n < 10 then [DigitChar(n)] else NatToDigits(n / 10) + [DigitChar(n % 10)]
  }

  /** Parsing what was printed gives the number back. */
  lemma {:induction false} ParsePrinted(n: nat)
    ensures DigitsToNat(NatToDigits(n)) == n
    decreases n
  {
    if n >= 10 {
      var s := NatToDigits(n);
      assert s[..|s| - 1] == NatToDigits(n / 10);
      ParsePrinted(n / 10);
    }
  }

  /** A canonical digit string with a non-zero lead is at least 10^(length-1). */
  lemma {:induction false} CanonicalLowerBound(s: string)
    requires IsCanonical(s) && s[0] != '0'
    ensures DigitsToNat(s) >= Pow10(|s| - 1)
    decreases |s|
  {
    if |s| > 1 {
      var init := s[..|s| - 1];
      CanonicalLowerBound(init);
      assert DigitsToNat(s) >= DigitsToNat(init) * 10;
    }
  }

  /** Printing what was parsed gives back every string `toString` can produce. */
  lemma {:induction false} PrintParsed(s: string)
    requires IsCanonical(s)
    ensures NatToDigits(DigitsToNat(s)) == s
    decreases |s|
  {
    if |s| == 1 {
      assert DigitChar(DigitValue(s[0])) == s[0];
    } else {
      var init := s[..|s| - 1];
      var d := DigitValue(s[|s| - 1]);
      var n := DigitsToNat(s);
      CanonicalLowerBound(init);
      assert n == DigitsToNat(init) * 10 + d;
      assert n / 10 == DigitsToNat(init) && n % 10 == d;
      PrintParsed(init);
      assert s == init + [s[|s| - 1]];
    }
  }

  /** The rendering of `n` fits in `k` characters exactly when `n < 10^k`. */
  lemma {:induction false} PrintedLength(n: nat, k: nat)
    requires k >= 1
    ensures |NatToDigits(n)| <= k <==> n < Pow10(k)
    decreases n
  {
    if n >= 10 {
      if k == 1 {
        assert Pow10(1) == 10;
      } else {
        PrintedLength(n / 10, k - 1);
        assert n / 10 < Pow10(k - 1) <==> n < 10 * Pow10(k - 1);
      }
    }
  }

  /** A string of zeros denotes 0. */
  lemma {:induction false} ZerosValue(z: string)
    requires forall i :: 0 <= i < |z| ==> z[i] == '0'
    ensures IsDigits(z) && DigitsToNat(z) == 0
    decreases |z|
  {
    if z != [] {
      ZerosValue(z[..|z| - 1]);
    }
  }

  /** Leading zeros do not change the value of a digit string. */
  lemma {:induction false} LeadingZeros(z: string, s: string)
    requires forall i :: 0 <= i < |z| ==> z[i] == '0'
    requires IsDigits(s)
    ensures IsDigits(z + s) && DigitsToNat(z + s) == DigitsToNat(s)
    decreases |s|
  {
    if s == [] {
      assert z + s == z;
      ZerosValue(z);
    } else {
      var zs := z + s;
      assert zs[..|zs| - 1] == z + s[..|s| - 1];
      LeadingZeros(z, s[..|s| - 1]);
    }
  }

  /** Zero-padding a digit string at the front keeps it a digit string of the same value. */
  lemma ZeroPadded(s: string, width: nat)
    requires IsDigits(s)
    ensures IsDigits(PadStart(s, width, '0'))
    ensures DigitsToNat(PadStart(s, width, '0')) == DigitsToNat(s)
  {
    var r := PadStart(s, width, '0');
    var z := r[..|r| - |s|];
    assert r == z + s;
    LeadingZeros(z, s);
  }
}
