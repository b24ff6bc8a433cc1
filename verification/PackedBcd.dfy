/** Packed BCD fields: two decimal digits a byte. */
module PackedBcd {
  import opened Cat
  import opened Wrappers

  function Pow100(n: nat): nat {
    if n == 0 then 1 else 100 * Pow100(n - 1)
  }

  function Reverse(p: seq<byte>): (r: seq<byte>)
    ensures |r| == |p|
    ensures forall i | 0 <= i < |p| :: r[i] == p[|p| - 1 - i]
  {
    if p == [] then [] else [p[|p| - 1]] + Reverse(p[..|p| - 1])
  }

  predicate IsPair(b: byte) {
    b / 16 <= 9 && b % 16 <= 9
  }

  /** The two digits of a byte as a number. */
  function Pair(b: byte): (v: nat)
    ensures IsPair(b) ==> v < 100
  {
    b / 16 * 10 + b % 16
  }

  /** Packed BCD, most significant byte first. */
  function Bcd(p: seq<byte>): (r: Option<nat>)
    ensures r.Some? ==> r.value < Pow100(|p|)
  {
    if p == [] then Some(0)
    else
      var b := p[|p| - 1];
      match Bcd(p[..|p| - 1])
      case None => None
      case Some(v) =>
        if !IsPair(b) then None else Some(v * 100 + Pair(b))
  }

  /** The BCD bytes of a number, the inverse of Bcd. */
  function ToBcd(v: nat, n: nat): (p: seq<byte>)
    ensures |p| == n
  {
    if n == 0 then [] else ToBcd(v / 100, n - 1) + [v % 100 / 10 * 16 + v % 10]
  }

  lemma LastDigit(v: nat)
    ensures v % 10 == v % 100 % 10
  {
    var h, w := v / 100, v % 100;
    assert v == 10 * (10 * h + w / 10) + w % 10;
  }

  lemma Digits(v: nat)
    ensures var b := v % 100 / 10 * 16 + v % 10;
            b < 256 && b / 16 == v % 100 / 10 <= 9 && b % 16 == v % 10
            && v / 100 * 100 + b / 16 * 10 + b % 16 == v
  {
    LastDigit(v);
    var q, r := v % 100 / 10, v % 10;
    assert 16 * q + r == q * 16 + r && 0 <= q <= 9 && 0 <= r <= 9;
  }

  lemma {:induction false} BcdRoundTrip(v: nat, n: nat)
    requires v < Pow100(n)
    ensures Bcd(ToBcd(v, n)) == Some(v)
  {
    if n > 0 {
      BcdRoundTrip(v / 100, n - 1);
      Digits(v);
      assert ToBcd(v, n)[..n - 1] == ToBcd(v / 100, n - 1);
    }
  }

  lemma PairDigits(q: nat, b: byte)
    requires IsPair(b)
    ensures var v := q * 100 + Pair(b);
            v / 100 == q && v % 100 / 10 * 16 + v % 10 == b
  {
    var v, d := q * 100 + Pair(b), Pair(b);
    assert v / 100 == q && v % 100 == d;
    LastDigit(v);
    assert d / 10 == b / 16 && d % 10 == b % 16;
  }

  /** Every decodable field is the encoding of its value: no two byte strings mean the same. */
  lemma {:induction false} BcdIsExact(p: seq<byte>)
    requires Bcd(p).Some?
    ensures ToBcd(Bcd(p).value, |p|) == p
  {
    hide IsPair, Pair;
    if p != [] {
      var q, b := p[..|p| - 1], p[|p| - 1];
      BcdIsExact(q);
      PairDigits(Bcd(q).value, b);
      assert p == q + [b];
    }
  }

  lemma OneMorePair(q: seq<byte>, i: nat, v: nat)
    requires i < |q| && Bcd(q[..i]) == Some(v)
    ensures Bcd(q[..i + 1]) == if IsPair(q[i]) then Some(v * 100 + Pair(q[i])) else None
  {
    assert q[..i + 1][..i] == q[..i];
  }

  method DecBcd(p: seq<byte>, be: bool) returns (r: Option<nat>)
    ensures r == Bcd(if be then p else Reverse(p))
  {
    var n := |p|;
    ghost var q := if be then p else Reverse(p);
    var v: nat := 0;
    var i := 0;
    while i < n
      invariant 0 <= i <= n
      invariant Bcd(q[..i]) == Some(v)
    {
      var b := p[if be then i else n - 1 - i];
      assert q[i] == b;
      OneMorePair(q, i, v);
      hide Bcd;
      if b / 16 > 9 || b % 16 > 9 {
        BcdPrefix(q, i + 1);
        return None;
      }
      v := v * 100 + b / 16 * 10 + b % 16;
      i := i + 1;
    }
    assert q[..n] == q;
    r := Some(v);
  }

  lemma {:induction false} BcdPrefix(q: seq<byte>, i: nat)
    requires i <= |q| && Bcd(q[..i]) == None
    ensures Bcd(q) == None
    decreases |q| - i
  {
    if i == |q| {
      assert q[..i] == q;
    } else {
      assert q[..i + 1][..i] == q[..i];
      BcdPrefix(q, i + 1);
    }
  }

  lemma Shift(d: nat, k: nat, v: nat)
    ensures (d * k + v) * 100 == d * (100 * k) + v * 100
  {
    assert d * (100 * k) == 100 * (d * k);
  }

  lemma BcdSnoc(p: seq<byte>, b: byte)
    ensures Bcd(p + [b]) ==
      if !IsPair(b) || Bcd(p).None? then None
      else Some(Bcd(p).value * 100 + Pair(b))
  {
    assert (p + [b])[..|p|] == p;
  }

  lemma {:induction false} BcdCons(b: byte, p: seq<byte>)
    ensures Bcd([b] + p) ==
      if !IsPair(b) || Bcd(p).None? then None
      else Some(Pair(b) * Pow100(|p|) + Bcd(p).value)
  {
    hide Pair, IsPair;
    if p == [] {
      BcdSnoc([], b);
      assert [b] + p == [] + [b];
    } else {
      var q, z := p[..|p| - 1], p[|p| - 1];
      assert p == q + [z] && [b] + p == ([b] + q) + [z];
      BcdSnoc(q, z);
      BcdSnoc([b] + q, z);
      BcdCons(b, q);
      if Bcd([b] + q).Some? {
        Shift(Pair(b), Pow100(|q|), Bcd(q).value);
      }
      assert Pow100(|p|) == 100 * Pow100(|q|);
      hide Bcd, Pow100;
    }
  }

  lemma ReverseSnoc(p: seq<byte>, b: byte)
    ensures Reverse(p + [b]) == [b] + Reverse(p)
  {
    assert (p + [b])[..|p|] == p;
  }

  lemma {:induction false} BadDigitStays(p: seq<byte>, i: nat)
    requires i <= |p| && Bcd(Reverse(p[..i])).None?
    ensures Bcd(Reverse(p)).None?
    decreases |p| - i
  {
    if i == |p| {
      assert p[..i] == p;
    } else {
      assert p[..i + 1] == p[..i] + [p[i]];
      ReverseSnoc(p[..i], p[i]);
      BcdCons(p[i], Reverse(p[..i]));
      BadDigitStays(p, i + 1);
    }
  }

  lemma LittleEndianStep(p: seq<byte>, i: nat)
    requires i < |p| && Bcd(Reverse(p[..i])).Some?
    ensures Bcd(Reverse(p[..i + 1])) ==
      if !IsPair(p[i]) then None else Some(Bcd(Reverse(p[..i])).value + Pair(p[i]) * Pow100(i))
  {
    hide Pair, IsPair;
    assert p[..i + 1] == p[..i] + [p[i]];
    ReverseSnoc(p[..i], p[i]);
    BcdCons(p[i], Reverse(p[..i]));
  }

  /** Least significant byte first, accumulated with a growing factor. */
  method DecLittleEndian(p: seq<byte>) returns (r: Option<nat>)
    ensures r == Bcd(Reverse(p))
  {
    var f: nat, mul: nat := 0, 1;
    for i := 0 to |p|
      invariant mul == Pow100(i)
      invariant Bcd(Reverse(p[..i])) == Some(f)
    {
      hide Bcd, Reverse;
      LittleEndianStep(p, i);
      var lo, hi := p[i] % 16, p[i] / 16;
      if lo > 9 || hi > 9 {
        BadDigitStays(p, i + 1);
        return None;
      }
      var d := lo + hi * 10;
      assert d == Pair(p[i]);
      f := f + d * mul;
      mul := mul * 100;
    }
    assert p[..|p|] == p;
    r := Some(f);
  }
}
