/**
 * The file name of a saved frame: the base path, "/frame_", the frame number in
 * decimal right-aligned in a field of six characters padded with '0', and ".png".
 * A number wider than six digits is written in full.
 */
module FrameNames {

  /** The decimal digit character for 0 <= d < 10. */
  function Digit(d: nat): (c: char)
    requires d < 10
    ensures '0' <= c <= '9' && c as int - '0' as int == d
  {
    ['0', '1', '2', '3', '4', '5', '6', '7', '8', '9'][d]
  }

  /** The value of a decimal digit character. */
  function DigitValue(c: char): nat
    requires '0' <= c <= '9'
  {
    c as int - '0' as int
  }

  ghost predicate AllDigits(s: string)
  {
    forall i :: 0 <= i < |s| ==> '0' <= s[i] <= '9'
  }

  /** The decimal representation of n, without leading zeros ("0" for zero). */
  function Decimal(n: nat): (s: string)
    ensures |s| >= 1 && AllDigits(s)
    ensures |s| > 1 ==> s[0] != '0'
    decreases n
  {
    if n < 10 then [Digit(n)] else Decimal(n / 10) + [Digit(n % 10)]
  }

  /** The number a string of digits spells, leading zeros included. */
  function ParseDecimal(s: string): (n: nat)
    requires AllDigits(s)
    ensures n < Pow10(|s|)
    decreases |s|
  {
    if s == [] then 0 else ParseDecimal(s[..|s| - 1]) * 10 + DigitValue(s[|s| - 1])
  }

  function Zeros(k: nat): (z: string)
    ensures |z| == k && AllDigits(z)
    ensures forall i :: 0 <= i < k ==> z[i] == '0'
  {
    seq(k, _ => '0')
  }

  /** QString::arg(n, 6, 10, '0'): the decimal form of n right-aligned in six characters, '0'-filled. */
  function Pad6(n: nat): (s: string)
    ensures AllDigits(s)
  {
    var d := Decimal(n);
    if |d| >= 6 then d else Zeros(6 - |d|) + d
  }

  /** The path a saved frame is written to. */
  function FrameFileName(basePath: string, n: nat): (f: string)
    ensures |f| >= |basePath| + 17 && f[..|basePath|] == basePath && f[|f| - 4..] == ".png"
  {
    Pad6Spec(n);
    basePath + "/frame_" + Pad6(n) + ".png"
  }

  /** The digits between "/frame_" and ".png" spell the frame number back. */
  lemma FrameNumberRoundTrip(basePath: string, n: nat)
    ensures var f := FrameFileName(basePath, n);
            AllDigits(f[|basePath| + 7..|f| - 4]) && ParseDecimal(f[|basePath| + 7..|f| - 4]) == n
  {
    Pad6Spec(n);
    var f := FrameFileName(basePath, n);
    assert f[|basePath| + 7..|f| - 4] == Pad6(n);
  }

  /** The number of decimal digits of n. */
  function DigitCount(n: nat): (k: nat)
    ensures k >= 1
    decreases n
  {
    if n < 10 then 1 else DigitCount(n / 10) + 1
  }

  function Pow10(k: nat): (p: nat)
    ensures p >= 1
  {
    if k == 0 then 1 else 10 * Pow10(k - 1)
  }

  /** n has at most k digits exactly when it is below 10^k. */
  lemma {:induction false} DigitCountBound(n: nat, k: nat)
    requires k >= 1
    ensures DigitCount(n) <= k <==> n < Pow10(k)
    decreases n
  {
    if n >= 10 && k > 1 {
      DigitCountBound(n / 10, k - 1);
    } else if n < 10 {
      assert Pow10(k) >= 10 by { Pow10Grows(k); }
    }
  }

  lemma {:induction false} Pow10Grows(k: nat)
    requires k >= 1
    ensures Pow10(k) >= 10
  {
    if k > 1 {
      Pow10Grows(k - 1);
    }
  }

  lemma {:induction false} DecimalLength(n: nat)
    ensures |Decimal(n)| == DigitCount(n)
    ensures DigitCount(n) <= 6 <==> n < 1000000
    decreases n
  {
    if n >= 10 {
      DecimalLength(n / 10);
    }
    DigitCountBound(n, 6);
  }

  /** Parsing the decimal form gives the number back. */
  lemma {:induction false} ParseDecimalRoundTrip(n: nat)
    ensures ParseDecimal(Decimal(n)) == n
    decreases n
  {
    if n >= 10 {
      ParseDecimalRoundTrip(n / 10);
      var d := Decimal(n);
      assert d[..|d| - 1] == Decimal(n / 10);
    }
  }

  /** A leading '0' does not change the number a string of digits spells. */
  lemma {:induction false} ParseLeadingZero(s: string)
    requires AllDigits(s)
    ensures ParseDecimal(['0'] + s) == ParseDecimal(s)
    decreases |s|
  {
    if s != [] {
      var t := ['0'] + s;
      assert t[..|t| - 1] == ['0'] + s[..|s| - 1];
      ParseLeadingZero(s[..|s| - 1]);
    } else {
      assert (['0'] + s)[..0] == [];
    }
  }

  lemma {:induction false} ParseZeros(k: nat, s: string)
    requires AllDigits(s)
    ensures ParseDecimal(Zeros(k) + s) == ParseDecimal(s)
    decreases k
  {
    if k > 0 {
      assert Zeros(k) + s == ['0'] + (Zeros(k - 1) + s);
      ParseLeadingZero(Zeros(k - 1) + s);
      ParseZeros(k - 1, s);
    } else {
      assert Zeros(0) + s == s;
    }
  }

  /**
   * The padded field has exactly six characters for frame numbers below 1000000 and the
   * full decimal form above; either way it parses back to the frame number.
   */
  lemma Pad6Spec(n: nat)
    ensures n < 1000000 ==> |Pad6(n)| == 6
    ensures n >= 1000000 ==> Pad6(n) == Decimal(n) && |Pad6(n)| > 6
    ensures ParseDecimal(Pad6(n)) == n
  {
    DecimalLength(n);
    ParseDecimalRoundTrip(n);
    var d := Decimal(n);
    if |d| < 6 {
      ParseZeros(6 - |d|, d);
    }
  }

  /** Different frame numbers never share a file name under the same base path. */
  lemma FrameFileNameInjective(basePath: string, n: nat, m: nat)
    requires FrameFileName(basePath, n) == FrameFileName(basePath, m)
    ensures n == m
  {
    var prefix := basePath + "/frame_";
    var a := FrameFileName(basePath, n);
    assert a == prefix + Pad6(n) + ".png";
    assert a[|prefix|..|a| - 4] == Pad6(n);
    assert FrameFileName(basePath, m)[|prefix|..|a| - 4] == Pad6(m);
    Pad6Spec(n);
    Pad6Spec(m);
  }

  /** The file name is the base path followed by "/frame_", six or more digits, and ".png". */
  lemma FrameFileNameShape(basePath: string, n: nat)
    ensures var f := FrameFileName(basePath, n);
            && |f| >= |basePath| + 17
            && f[..|basePath|] == basePath
            && f[|basePath|..|basePath| + 7] == "/frame_"
            && f[|f| - 4..] == ".png"
            && AllDigits(f[|basePath| + 7..|f| - 4])
  {
    Pad6Spec(n);
    DecimalLength(n);
    var f := FrameFileName(basePath, n);
    assert f == basePath + "/frame_" + Pad6(n) + ".png";
    assert f[|basePath| + 7..|f| - 4] == Pad6(n);
  }
}
