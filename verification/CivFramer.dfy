/** The CI-V byte framer of src/cat_civ.c. */
module CivFramer {
  import opened Cat

  const PRE: byte := 0xfe
  const EOM: byte := 0xfd
  const COL: byte := 0xfc
  const MIN_LEN := 6
  const MAX_FRAME := 64

  datatype RxState = Idle | Pre | In | Skip

  datatype Rx = Rx(state: RxState, buf: seq<byte>, t: nat)

  /** What a byte completes: a whole frame, or debris. */
  datatype Got = Whole(bytes: seq<byte>) | Debris(bytes: seq<byte>) | Collision(debris: seq<byte>)

  /** No byte ends a frame. */
  predicate Unended(buf: seq<byte>) {
    forall i | 0 <= i < |buf| :: buf[i] != EOM
  }

  predicate ValidRx(r: Rx) {
    && (if r.state == In then 2 <= |r.buf| <= MAX_FRAME - 1 else r.buf == [])
    && Unended(r.buf)
  }

  /** Debris shorter than three bytes is not reported. */
  function Drop(buf: seq<byte>): seq<Got> {
    if |buf| > 2 then [Debris(buf)] else []
  }

  function Byte(r: Rx, b: byte, t: nat): (Rx, seq<Got>) {
    if b == COL then (Rx(Idle, [], t), [Collision(r.buf)])
    else match r.state
      case Idle => (Rx(if b == PRE then Pre else Idle, r.buf, t), [])
      case Pre => (if b == PRE then Rx(In, [PRE, PRE], t) else Rx(Idle, r.buf, t), [])
      case In =>
        if b == PRE then
          if |r.buf| > 2 then (Rx(Pre, [], t), Drop(r.buf)) else (r.(t := t), [])
        else if b == EOM then
          (Rx(Idle, [], t), if |r.buf| + 1 >= MIN_LEN then [Whole(r.buf + [b])] else Drop(r.buf))
        else if |r.buf| + 1 < MAX_FRAME then (Rx(In, r.buf + [b], t), [])
        else (Rx(Skip, [], t), Drop(r.buf))
      case Skip => (Rx(if b == EOM then Idle else if b == PRE then Pre else Skip, r.buf, t), [])
  }

  function Bytes(r: Rx, s: seq<byte>, t: nat): (Rx, seq<Got>)
    decreases |s|
  {
    if s == [] then (r, [])
    else
      var (r1, g1) := Byte(r, s[0], t);
      var (r2, g2) := Bytes(r1, s[1..], t);
      (r2, g1 + g2)
  }

  /** A whole frame has a length that the header fields can be read from. */
  predicate IsFrame(f: seq<byte>) {
    MIN_LEN <= |f| <= MAX_FRAME
  }

  /** Only a whole frame has an end. */
  predicate GotOk(g: Got) {
    match g
    case Whole(bytes) => IsFrame(bytes) && bytes[|bytes| - 1] == EOM
    case Debris(bytes) => Unended(bytes)
    case Collision(debris) => Unended(debris)
  }

  lemma ByteKeeps(r: Rx, b: byte, t: nat)
    requires ValidRx(r)
    ensures ValidRx(Byte(r, b, t).0)
    ensures forall i | 0 <= i < |Byte(r, b, t).1| :: GotOk(Byte(r, b, t).1[i])
  {
  }

  lemma {:induction false} BytesKeep(r: Rx, s: seq<byte>, t: nat)
    requires ValidRx(r)
    ensures ValidRx(Bytes(r, s, t).0)
    decreases |s|
  {
    if s != [] {
      BytesKeep(Byte(r, s[0], t).0, s[1..], t);
    }
  }

  /** Cutting the input into chunks changes nothing. */
  lemma {:induction false} ChunksDoNotMatter(r: Rx, s: seq<byte>, u: seq<byte>, t: nat)
    ensures var (r1, g1) := Bytes(r, s, t);
            var (r2, g2) := Bytes(r1, u, t);
            Bytes(r, s + u, t) == (r2, g1 + g2)
    decreases |s|
  {
    if s == [] {
      assert [] + u == u && [] + Bytes(r, u, t).1 == Bytes(r, u, t).1;
    } else {
      assert (s + u)[0] == s[0] && (s + u)[1..] == s[1..] + u;
      var (r0, g0) := Byte(r, s[0], t);
      ChunksDoNotMatter(r0, s[1..], u, t);
      var (r1, g1) := Bytes(r0, s[1..], t);
      assert g0 + (g1 + Bytes(r1, u, t).1) == (g0 + g1) + Bytes(r1, u, t).1;
    }
  }

  /** Bytes that may stand between the preamble and the end of a frame. */
  predicate IsBody(s: seq<byte>) {
    forall i | 0 <= i < |s| :: s[i] != PRE && s[i] != EOM && s[i] != COL
  }

  lemma {:induction false} BodyIsCollected(r: Rx, body: seq<byte>, t: nat)
    requires r.state == In && IsBody(body) && |r.buf| + |body| < MAX_FRAME
    ensures Bytes(r, body, t) == (if body == [] then r else Rx(In, r.buf + body, t), [])
    decreases |body|
  {
    if body != [] {
      var r1 := Byte(r, body[0], t).0;
      BodyIsCollected(r1, body[1..], t);
      assert r.buf + body == r1.buf + body[1..];
      assert |body| == 1 ==> r.buf + body == r1.buf;
      assert Byte(r, body[0], t).1 + Bytes(r1, body[1..], t).1 == [];
    }
  }

  /** Two preamble bytes start a frame in every state; an unfinished one ends there. */
  lemma PreambleStarts(r: Rx, t: nat)
    requires ValidRx(r)
    ensures var (r1, g) := Bytes(r, [PRE, PRE], t);
            && r1.state == In && |r1.buf| == 2
            && g == (if r.state == In then Drop(r.buf) else [])
            && r1.buf == (if r.state == In && |r.buf| == 2 then r.buf else [PRE, PRE])
  {
    var r0 := Byte(r, PRE, t).0;
    assert [PRE, PRE][1..] == [PRE] && [PRE][1..] == [];
    assert Bytes(r0, [PRE], t) == (Byte(r0, PRE, t).0, Byte(r0, PRE, t).1 + []);
  }

  /** Every framer state that bytes lead to: a frame under collection starts with its preamble. */
  predicate Started(r: Rx) {
    ValidRx(r) && (r.state == In ==> r.buf[..2] == [PRE, PRE])
  }

  lemma {:induction false} BytesStart(r: Rx, s: seq<byte>, t: nat)
    requires Started(r)
    ensures Started(Bytes(r, s, t).0)
    decreases |s|
  {
    if s != [] {
      BytesStart(Byte(r, s[0], t).0, s[1..], t);
    }
  }

  /**
   * The framer synchronises itself: whatever came before, a well-formed frame of up to 64 bytes
   * comes out exactly once, identical, and leaves the framer idle. All it may cost is the debris
   * of a frame that was under way.
   */
  lemma FramerSynchronises(r: Rx, garbage: seq<byte>, body: seq<byte>, t: nat)
    requires Started(r) && IsBody(body) && 3 <= |body| <= MAX_FRAME - 3
    ensures var (r1, g1) := Bytes(r, garbage, t);
            var frame := [PRE, PRE] + body + [EOM];
            Bytes(r, garbage + frame, t)
            == (Rx(Idle, [], t), g1 + (if r1.state == In then Drop(r1.buf) else []) + [Whole(frame)])
  {
    var (r1, g1) := Bytes(r, garbage, t);
    var frame := [PRE, PRE] + body + [EOM];
    BytesKeep(r, garbage, t);
    BytesStart(r, garbage, t);
    PreambleStarts(r1, t);
    var (r2, g2) := Bytes(r1, [PRE, PRE], t);
    assert |r1.buf| == 2 ==> r1.buf == r1.buf[..2];
    assert r2.buf == [PRE, PRE];
    BodyIsCollected(r2, body, t);
    var r3 := Rx(In, r2.buf + body, t);
    assert [EOM][1..] == [];
    var (r4, g4) := Byte(r3, EOM, t);
    assert g4 + Bytes(r4, [], t).1 == g4;
    assert Bytes(r3, [EOM], t) == (r4, g4);
    assert g4 == [Whole(frame)];
    ChunksDoNotMatter(r2, body, [EOM], t);
    ChunksDoNotMatter(r1, [PRE, PRE], body + [EOM], t);
    assert [PRE, PRE] + (body + [EOM]) == frame;
    ChunksDoNotMatter(r, garbage, frame, t);
    assert Bytes(r2, body + [EOM], t) == (r4, g4) by {
      assert [] + g4 == g4;
    }
    assert g1 + (g2 + g4) == g1 + g2 + g4;
  }
}
