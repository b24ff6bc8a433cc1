/** Decimal fields of the ASCII commands. */
module AsciiNumbers {
  import opened Cat
  import opened AsciiTables
  import opened Wrappers

  function Pow10(n: nat): nat {
    if n == 0 then 1 else 10 * Pow10(n - 1)
  }

  /** A number written with w digits. */
  function Digits(n: nat, w: nat): (p: text)
    ensures |p| == w && AllDigits(p)
  {
    if w == 0 then [] else Digits(n / 10, w - 1) + [0x30 + n % 10]
  }

  lemma {:induction false} NumberOfDigits(n: nat, w: nat)
    requires n < Pow10(w)
    ensures Number(Digits(n, w)) == n
  {
    if w > 0 {
      NumberOfDigits(n / 10, w - 1);
      assert Digits(n, w)[..w - 1] == Digits(n / 10, w - 1);
    }
  }

  lemma {:induction false} DigitsOfNumber(p: text)
    requires AllDigits(p)
    ensures Digits(Number(p), |p|) == p
    decreases |p|
  {
    if p != [] {
      var q, b := p[..|p| - 1], p[|p| - 1];
      DigitsOfNumber(q);
      assert IsDigit(p[|p| - 1]);
      assert (Number(q) * 10 + (b as int - 0x30)) / 10 == Number(q);
      assert p == q + [b];
    }
  }

  /**
   * A field of w digits reads as hz if and only if it is hz written with w digits, hz is a
   * nonzero 32-bit number, and w is 8 to 11.
   */
  lemma FreqFieldIsExact(p: text, hz: nat)
    requires hz < Pow10(|p|)
    ensures FreqField(p) == Some(hz) <==> p == Digits(hz, |p|) && 8 <= |p| <= 11 && 0 < hz < 0x1_0000_0000
  {
    NumberOfDigits(hz, |p|);
    if AllDigits(p) {
      DigitsOfNumber(p);
    }
  }

  /** The field is read digit by digit, and given up at the first byte that is none. */
  method DecFreq(p: text) returns (hz: Option<nat>)
    ensures hz == FreqField(p)
  {
    if |p| < 8 || |p| > 11 {
      return None;
    }
    var f: nat := 0;
    for i := 0 to |p|
      invariant AllDigits(p[..i]) && f == Number(p[..i])
    {
      if p[i] < 0x30 || p[i] > 0x39 {
        return None;
      }
      assert p[..i + 1][..i] == p[..i];
      f := f * 10 + (p[i] - 0x30);
    }
    assert p[..|p|] == p;
    return if f == 0 || f >= 0x1_0000_0000 then None else Some(f);
  }
}
