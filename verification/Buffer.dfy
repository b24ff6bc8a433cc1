/** The bounded FIFO of src/buffer.c. */
module Buffers {
  const CAPACITY := 4096

  /**
   * What a buffer holds: the bytes not read yet, and how many were read before them. The space
   * of those is free again only once the buffer is empty.
   */
  datatype Buf<T> = Buf(rpos: nat, bytes: seq<T>) {
    predicate Valid() {
      rpos + |bytes| <= CAPACITY && (bytes == [] ==> rpos == 0)
    }

    function Avail(): int {
      CAPACITY - rpos - |bytes|
    }
  }

  function Empty<T>(): Buf<T> {
    Buf(0, [])
  }

  /** After n bytes were read. */
  function Advance<T>(b: Buf<T>, n: nat): Buf<T>
    requires n <= |b.bytes|
  {
    if n == |b.bytes| then Empty() else Buf(b.rpos + n, b.bytes[n..])
  }

  /** The part of s that fits. */
  function Accepted<T>(b: Buf<T>, s: seq<T>): seq<T>
    requires b.Valid()
  {
    if |s| <= b.Avail() then s else s[..b.Avail()]
  }

  function Append<T>(b: Buf<T>, s: seq<T>): Buf<T>
    requires b.Valid()
  {
    Buf(b.rpos, b.bytes + Accepted(b, s))
  }

  datatype Op<T> = Put(s: seq<T>) | Read(n: nat)

  /** Runs the operations: what was accepted, what was read, and what is left. */
  function RunOps<T>(b: Buf<T>, ops: seq<Op<T>>): (r: (seq<T>, seq<T>, Buf<T>))
    requires b.Valid()
    ensures r.2.Valid()
    decreases |ops|
  {
    if ops == [] then ([], [], b)
    else match ops[0]
      case Put(s) =>
        var (a, o, r) := RunOps(Append(b, s), ops[1..]);
        (Accepted(b, s) + a, o, r)
      case Read(n) =>
        var k := if n <= |b.bytes| then n else |b.bytes|;
        var (a, o, r) := RunOps(Advance(b, k), ops[1..]);
        (a, b.bytes[..k] + o, r)
  }

  /** First in, first out: what was read and what is left is what was accepted, in order. */
  lemma {:induction false} FirstInFirstOut<T>(b: Buf<T>, ops: seq<Op<T>>)
    requires b.Valid()
    ensures var (accepted, read, rest) := RunOps(b, ops);
            read + rest.bytes == b.bytes + accepted
    decreases |ops|
  {
    if ops != [] {
      match ops[0]
      case Put(s) =>
        FirstInFirstOut(Append(b, s), ops[1..]);
        var (a, o, r) := RunOps(Append(b, s), ops[1..]);
        assert o + r.bytes == b.bytes + (Accepted(b, s) + a);
      case Read(n) =>
        var k := if n <= |b.bytes| then n else |b.bytes|;
        FirstInFirstOut(Advance(b, k), ops[1..]);
        assert b.bytes == b.bytes[..k] + Advance(b, k).bytes;
        var (a, o, r) := RunOps(Advance(b, k), ops[1..]);
        assert b.bytes[..k] + o + r.bytes == b.bytes[..k] + (Advance(b, k).bytes + a);
    }
  }

  /** struct buffer. */
  class Buffer<T(0)> {
    const data: array<T>
    var size: nat
    var rpos: nat

    ghost predicate Valid()
      reads this
    {
      data.Length == CAPACITY && rpos <= size <= CAPACITY && (rpos == size ==> size == 0)
    }

    ghost function Value(): Buf<T>
      requires Valid()
      reads this, data
    {
      Buf(rpos, data[rpos..size])
    }

    constructor ()
      ensures Valid() && Value() == Empty() && fresh(data)
    {
      data := new T[CAPACITY];
      size, rpos := 0, 0;
    }

    method Reset()
      requires data.Length == CAPACITY
      modifies this
      ensures Valid() && Value() == Empty()
    {
      size, rpos := 0, 0;
    }

    method SizeAvail() returns (n: nat)
      requires Valid()
      ensures n == Value().Avail()
    {
      n := CAPACITY - size;
    }

    method Consume(n: nat)
      requires Valid() && n <= size - rpos
      modifies this
      ensures Valid() && Value() == Advance(old(Value()), n)
    {
      ghost var was := data[rpos..size];
      rpos := rpos + n;
      if rpos == size {
        Reset();
      } else {
        assert was[n..] == data[rpos..size];
      }
    }

    method AppendC(c: T) returns (ok: bool)
      requires Valid()
      modifies this`size, data
      ensures Valid() && Value() == Append(old(Value()), [c])
      ensures ok == (old(Value()).Avail() > 0)
    {
      if size == CAPACITY {
        return false;
      }
      data[size] := c;
      size := size + 1;
      return true;
    }

    method AppendAll(s: seq<T>) returns (n: nat)
      requires Valid()
      modifies this`size, data
      ensures Valid() && Value() == Append(old(Value()), s)
      ensures n == |Accepted(old(Value()), s)|
    {
      var avail := SizeAvail();
      n := if |s| > avail then avail else |s|;
      ghost var was := data[rpos..size];
      forall i | 0 <= i < n {
        data[size + i] := s[i];
      }
      assert data[rpos..size] == was;
      size := size + n;
      assert data[rpos..size] == was + s[..n];
      assert |s| == n ==> s[..n] == s;
    }

    method GetC() returns (c: T, ok: bool)
      requires Valid()
      modifies this
      ensures Valid()
      ensures ok == (old(Value()).bytes != [])
      ensures ok ==> c == old(Value()).bytes[0] && Value() == Advance(old(Value()), 1)
      ensures !ok ==> Value() == old(Value())
    {
      if rpos == size {
        c := *;
        return c, false;
      }
      c := data[rpos];
      Consume(1);
      return c, true;
    }
  }
}
