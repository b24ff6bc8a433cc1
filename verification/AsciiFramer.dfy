/** The framer for Kenwood-style ASCII frames, src/cat_ascii.c. */
module AsciiFramer {
  import opened Cat

  const MAX_FRAME := 64
  const SEMICOLON: byte := 0x3b

  /** A complete frame, or bytes that can't become one. */
  datatype Got = Whole(bytes: seq<byte>) | Broken(bytes: seq<byte>)

  /** Bytes that are ignored between frames. */
  predicate IsSkipped(b: byte) {
    b == 0x0d || b == 0x0a || b == 0x20 || b == 0x00
  }

  predicate IsText(b: byte) {
    0x20 <= b < 0x7f
  }

  /** A partial frame between calls: at most 63 bytes. */
  predicate ValidBuf(buf: seq<byte>) {
    && |buf| < MAX_FRAME
    && (forall i | 0 <= i < |buf| :: IsText(buf[i]) && buf[i] != SEMICOLON)
    && (buf != [] ==> !IsSkipped(buf[0]))
  }

  function Byte(buf: seq<byte>, b: byte): (seq<byte>, seq<Got>) {
    if b == SEMICOLON then ([], [Whole(buf + [b])])
    else if buf == [] && IsSkipped(b) then (buf, [])
    else if !IsText(b) || |buf| + 1 >= MAX_FRAME then ([], [Broken(buf + [b])])
    else (buf + [b], [])
  }

  function Bytes(buf: seq<byte>, s: seq<byte>): (seq<byte>, seq<Got>)
    decreases |s|
  {
    if s == [] then (buf, [])
    else
      var (b1, g1) := Byte(buf, s[0]);
      var (b2, g2) := Bytes(b1, s[1..]);
      (b2, g1 + g2)
  }

  lemma {:induction false} ChunksDoNotMatter(buf: seq<byte>, s: seq<byte>, u: seq<byte>)
    ensures var (b1, g1) := Bytes(buf, s);
            var (b2, g2) := Bytes(b1, u);
            Bytes(buf, s + u) == (b2, g1 + g2)
    decreases |s|
  {
    if s == [] {
      assert [] + u == u && [] + Bytes(buf, u).1 == Bytes(buf, u).1;
    } else {
      hide Byte;
      assert (s + u)[0] == s[0] && (s + u)[1..] == s[1..] + u;
      var (b0, g0) := Byte(buf, s[0]);
      ChunksDoNotMatter(b0, s[1..], u);
      var (b1, g1) := Bytes(b0, s[1..]);
      assert g0 + (g1 + Bytes(b1, u).1) == (g0 + g1) + Bytes(b1, u).1;
    }
  }

  /** The bytes of everything that was emitted. */
  function Flat(gs: seq<Got>): seq<byte> {
    if gs == [] then [] else gs[0].bytes + Flat(gs[1..])
  }

  lemma {:induction false} FlatConcat(a: seq<Got>, b: seq<Got>)
    ensures Flat(a + b) == Flat(a) + Flat(b)
    decreases |a|
  {
    if a == [] {
      assert a + b == b;
    } else {
      assert (a + b)[1..] == a[1..] + b;
      FlatConcat(a[1..], b);
    }
  }

  /** The input without the line ends, spaces and NULs that stand between frames. */
  function Kept(buf: seq<byte>, s: seq<byte>): seq<byte>
    decreases |s|
  {
    if s == [] then []
    else
      var n := |s| - 1;
      Kept(buf, s[..n]) + if IsSkipped(s[n]) && Bytes(buf, s[..n]).0 == [] then [] else [s[n]]
  }

  lemma BytesSnoc(buf: seq<byte>, s: seq<byte>, b: byte)
    ensures var (b1, g1) := Bytes(buf, s);
            Bytes(buf, s + [b]) == (Byte(b1, b).0, g1 + Byte(b1, b).1)
  {
    ChunksDoNotMatter(buf, s, [b]);
    var b1 := Bytes(buf, s).0;
    assert [b][1..] == [];
    assert Bytes(b1, [b]) == (Byte(b1, b).0, Byte(b1, b).1 + []);
    assert Byte(b1, b).1 + [] == Byte(b1, b).1;
  }

  lemma ByteConserves(buf: seq<byte>, b: byte)
    ensures var (r, g) := Byte(buf, b);
            Flat(g) + r == buf + if IsSkipped(b) && buf == [] then [] else [b]
  {
    var g := Byte(buf, b).1;
    if g != [] {
      assert g[1..] == [];
      assert Flat(g) == g[0].bytes + [];
    }
  }

  /** Every byte is in a frame, in the partial frame, or was skipped between frames. */
  lemma {:induction false} BytesAreConserved(buf: seq<byte>, s: seq<byte>)
    ensures var (r, gs) := Bytes(buf, s);
            Flat(gs) + r == buf + Kept(buf, s)
    decreases |s|
  {
    if s != [] {
      var n := |s| - 1;
      var t, b := s[..n], s[n];
      assert s == t + [b];
      BytesAreConserved(buf, t);
      BytesSnoc(buf, t, b);
      var (b1, g1) := Bytes(buf, t);
      var (r, g) := Byte(b1, b);
      ByteConserves(b1, b);
      FlatConcat(g1, g);
      Chain(Flat(g1), Flat(g), r, b1, buf, Kept(buf, t), if IsSkipped(b) && b1 == [] then [] else [b]);
      hide Byte, Bytes, Flat, IsSkipped;
    }
  }

  lemma Chain(a: seq<byte>, f: seq<byte>, r: seq<byte>, b: seq<byte>, buf: seq<byte>, k: seq<byte>, x: seq<byte>)
    requires a + b == buf + k && f + r == b + x
    ensures a + f + r == buf + (k + x)
  {
    assert a + f + r == a + (f + r) == (a + b) + x;
  }

  lemma ByteKeeps(buf: seq<byte>, b: byte)
    requires ValidBuf(buf)
    ensures ValidBuf(Byte(buf, b).0)
    ensures forall i | 0 <= i < |Byte(buf, b).1| :: IsEmitted(Byte(buf, b).1[i])
  {
    assert (buf + [b])[..|buf|] == buf;
  }

  lemma {:induction false} BytesKeep(buf: seq<byte>, s: seq<byte>)
    requires ValidBuf(buf)
    ensures ValidBuf(Bytes(buf, s).0)
    ensures forall i | 0 <= i < |Bytes(buf, s).1| :: IsEmitted(Bytes(buf, s).1[i])
    decreases |s|
  {
    if s != [] {
      ByteKeeps(buf, s[0]);
      BytesKeep(Byte(buf, s[0]).0, s[1..]);
      hide Byte, IsEmitted;
    }
  }

  /** What can come out: a partial frame and the byte that ended it. */
  predicate IsEmitted(g: Got) {
    && g.bytes != []
    && var n := |g.bytes| - 1;
       && ValidBuf(g.bytes[..n])
       && (g.Whole? <==> g.bytes[n] == SEMICOLON)
       && (g.Broken? ==> (!IsText(g.bytes[n]) || n + 1 >= MAX_FRAME) && !(n == 0 && IsSkipped(g.bytes[n])))
  }

  lemma {:induction false} TextIsCollected(buf: seq<byte>, s: seq<byte>)
    requires ValidBuf(buf + s)
    ensures Bytes(buf, s) == (buf + s, [])
    decreases |s|
  {
    if s == [] {
      assert buf + s == buf;
    } else {
      assert (buf + s)[|buf|] == s[0];
      assert buf + s == (buf + [s[0]]) + s[1..];
      if buf == [] {
        assert (buf + s)[0] == s[0];
      }
      TextIsCollected(buf + [s[0]], s[1..]);
      assert Byte(buf, s[0]) == (buf + [s[0]], []);
      assert Byte(buf, s[0]).1 + Bytes(buf + [s[0]], s[1..]).1 == [];
    }
  }

  lemma EmittedReplays(g: Got)
    requires IsEmitted(g)
    ensures Bytes([], g.bytes) == ([], [g])
  {
    var n := |g.bytes| - 1;
    var body, b := g.bytes[..n], g.bytes[n];
    assert [] + body == body && g.bytes == body + [b];
    TextIsCollected([], body);
    BytesSnoc([], body, b);
    assert [] + Byte(body, b).1 == Byte(body, b).1;
  }

  lemma {:induction false} AllReplay(gs: seq<Got>)
    requires forall i | 0 <= i < |gs| :: IsEmitted(gs[i])
    ensures Bytes([], Flat(gs)) == ([], gs)
    decreases |gs|
  {
    if gs != [] {
      EmittedReplays(gs[0]);
      AllReplay(gs[1..]);
      ChunksDoNotMatter([], gs[0].bytes, Flat(gs[1..]));
      assert [gs[0]] + gs[1..] == gs;
    }
  }

  /**
   * Traces replay: the bytes of the frames that came out, complete, broken or overlong, give the
   * same frames again and leave nothing; a partial frame never has more than 63 bytes.
   */
  lemma FramesReplay(buf: seq<byte>, s: seq<byte>)
    requires ValidBuf(buf)
    ensures var (r, gs) := Bytes(buf, s);
            Bytes([], Flat(gs)) == ([], gs) && |r| <= MAX_FRAME - 1
  {
    BytesKeep(buf, s);
    AllReplay(Bytes(buf, s).1);
  }
}
