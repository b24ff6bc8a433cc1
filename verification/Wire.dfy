/** The frames between mhuxd and a microHam keyer: src/mux.c packs them, src/demux.c unpacks them. */
module Wire {
  import opened Buffers
  import opened Wrappers

  /** A byte on the wire or in a channel. */
  type octet = bv8

  const NUM_CHANNELS := 8
  const FLAGS := 0
  const CONTROL := 1
  const WINKEY := 2
  const R1 := 4
  const R2 := 5
  const R1_FSK := 6
  const R2_FSK := 7

  const MAX_SEQUENCE := 20
  const FRAMES := 5

  type Channels = seq<Buf<octet>>

  predicate ValidChannels(q: Channels) {
    |q| == NUM_CHANNELS && forall i | 0 <= i < NUM_CHANNELS :: q[i].Valid()
  }

  /** The channel that shares frame n's third byte. */
  function SharedChannel(n: nat): nat
    requires n < FRAMES
  {
    if n == 0 then FLAGS else if n == 1 then CONTROL else if n == 2 then WINKEY
    else if n == 3 then R1_FSK else R2_FSK
  }

  /** What one frame carries; valid: the shared byte's validity bit. */
  datatype Frame = Frame(r1: Option<octet>, r2: Option<octet>, shared: Option<octet>, valid: bool)

  predicate Used(f: Frame) {
    f.r1.Some? || f.r2.Some? || f.shared.Some?
  }

  function Head(b: Buf<octet>): Option<octet> {
    if b.bytes == [] then None else Some(b.bytes[0])
  }

  function Tail(b: Buf<octet>): Buf<octet> {
    if b.bytes == [] then b else Advance(b, 1)
  }

  /** On the control channel only the inner bytes of a command count as valid. */
  function IsValid(channel: nat, rest: Buf<octet>): bool {
    channel != CONTROL || (rest.rpos > 1 && rest.bytes != [])
  }

  function FrameOf(q: Channels, n: nat): Frame
    requires |q| == NUM_CHANNELS && n < FRAMES
  {
    var c := SharedChannel(n);
    Frame(Head(q[R1]), Head(q[R2]), Head(q[c]), q[c].bytes != [] && IsValid(c, Tail(q[c])))
  }

  function Drained(q: Channels, n: nat): (r: Channels)
    requires |q| == NUM_CHANNELS && n < FRAMES
    ensures |r| == NUM_CHANNELS
  {
    var c := SharedChannel(n);
    q[R1 := Tail(q[R1])][R2 := Tail(q[R2])][c := Tail(q[c])]
  }

  /** The frames n..4 of a sequence and the channels after it. */
  function FramesFrom(q: Channels, n: nat): (r: (seq<Frame>, Channels))
    requires |q| == NUM_CHANNELS && n <= FRAMES
    ensures |r.0| == FRAMES - n && |r.1| == NUM_CHANNELS
    decreases FRAMES - n
  {
    if n == FRAMES then ([], q)
    else
      var (fs, q') := FramesFrom(Drained(q, n), n + 1);
      ([FrameOf(q, n)] + fs, q')
  }

  /** Unused frames at the end of a sequence are not sent. */
  function Trim(fs: seq<Frame>): (r: seq<Frame>)
    ensures r <= fs
    ensures r != [] ==> Used(r[|r| - 1])
    ensures forall i | |r| <= i < |fs| :: !Used(fs[i])
  {
    if fs == [] || Used(fs[|fs| - 1]) then fs else Trim(fs[..|fs| - 1])
  }

  function Msb(c: Option<octet>, shift: bv8): octet
    requires shift <= 2
  {
    if c.Some? then (c.value >> 7) << shift else 0
  }

  function Sync(f: Frame, n: nat): octet {
    (if n > 0 then 0x40 else 0)
    | (if f.r1.Some? then 0x20 else 0) | Msb(f.r1, 2)
    | (if f.r2.Some? then 0x10 else 0) | Msb(f.r2, 1)
    | (if f.valid then 0x08 else 0) | Msb(f.shared, 0)
  }

  function Payload(c: Option<octet>): octet {
    0x80 | (if c.Some? then c.value else 0)
  }

  function Encode(f: Frame, n: nat): (r: seq<octet>)
    ensures |r| == 4
  {
    [Sync(f, n), Payload(f.r1), Payload(f.r2), Payload(f.shared)]
  }

  function EncodeFrom(fs: seq<Frame>, n: nat): (r: seq<octet>)
    ensures |r| == 4 * |fs|
  {
    if fs == [] then [] else Encode(fs[0], n) + EncodeFrom(fs[1..], n + 1)
  }

  /** The sequence that is sent next and what it leaves, with every buffer looked at once a frame. */
  function NextSequence(q: Channels): (r: (seq<Frame>, Channels))
    requires |q| == NUM_CHANNELS
    ensures |r.0| <= FRAMES && |r.1| == NUM_CHANNELS
  {
    var (fs, q') := FramesFrom(q, 0);
    (Trim(fs), q')
  }

  /** Bytes waiting in the channels that are sent. */
  function Waiting(q: Channels): nat
    requires |q| == NUM_CHANNELS
  {
    |q[FLAGS].bytes| + |q[CONTROL].bytes| + |q[WINKEY].bytes| + |q[R1].bytes| + |q[R2].bytes|
    + |q[R1_FSK].bytes| + |q[R2_FSK].bytes|
  }

  lemma DrainedWaits(q: Channels, n: nat)
    requires |q| == NUM_CHANNELS && n < FRAMES
    ensures Waiting(Drained(q, n)) <= Waiting(q)
    ensures Used(FrameOf(q, n)) ==> Waiting(Drained(q, n)) < Waiting(q)
  {
  }

  lemma {:induction false} FramesWait(q: Channels, n: nat)
    requires |q| == NUM_CHANNELS && n <= FRAMES
    ensures var (fs, q') := FramesFrom(q, n);
            && Waiting(q') <= Waiting(q)
            && (Waiting(q') == Waiting(q) ==> forall i | 0 <= i < |fs| :: !Used(fs[i]))
    decreases FRAMES - n
  {
    if n < FRAMES {
      DrainedWaits(q, n);
      FramesWait(Drained(q, n), n + 1);
    }
  }

  /** Everything sent in one call with so much room: the sequences, and what is left. */
  function Send(q: Channels, room: nat): (r: (seq<seq<Frame>>, Channels))
    requires |q| == NUM_CHANNELS
    ensures |r.1| == NUM_CHANNELS
    decreases room
  {
    if room < MAX_SEQUENCE then ([], q)
    else
      var (fs, q') := NextSequence(q);
      if fs == [] then ([], q)
      else
        var (more, r) := Send(q', room - 4 * |fs|);
        ([fs] + more, r)
  }

  function Bytes(ss: seq<seq<Frame>>): seq<octet> {
    if ss == [] then [] else EncodeFrom(ss[0], 0) + Bytes(ss[1..])
  }

  lemma {:induction false} NothingUsed(q: Channels)
    requires ValidChannels(q) && NextSequence(q).0 == []
    ensures Waiting(q) == 0
  {
    var q1 := Drained(q, 0);
    var q2 := Drained(q1, 1);
    var q3 := Drained(q2, 2);
    var q4 := Drained(q3, 3);
    var fs := FramesFrom(q, 0).0;
    assert fs[0] == FrameOf(q, 0) && fs[1..] == FramesFrom(q1, 1).0;
    assert fs[1] == FrameOf(q1, 1) && fs[1..][1..] == FramesFrom(q2, 2).0;
    assert fs[2] == FrameOf(q2, 2) && fs[1..][1..][1..] == FramesFrom(q3, 3).0;
    assert fs[3] == FrameOf(q3, 3) && fs[1..][1..][1..][1..] == FramesFrom(q4, 4).0;
    assert fs[4] == FrameOf(q4, 4);
    hide FramesFrom, Trim;
  }

  /** A call never sends more than there is room for. */
  lemma {:induction false} SendFits(q: Channels, room: nat)
    requires |q| == NUM_CHANNELS
    ensures |Bytes(Send(q, room).0)| <= room
    decreases room
  {
    hide FramesFrom, Trim, EncodeFrom;
    if room >= MAX_SEQUENCE && NextSequence(q).0 != [] {
      var (fs, q') := NextSequence(q);
      SendFits(q', room - 4 * |fs|);
      var more := Send(q', room - 4 * |fs|).0;
      assert ([fs] + more)[1..] == more;
    }
  }

  /** A call ends only when everything is sent, or the output has no room for a whole sequence. */
  lemma {:induction false} SendEnds(q: Channels, room: nat)
    requires ValidChannels(q)
    ensures var (ss, r) := Send(q, room);
            Waiting(r) == 0 || room - |Bytes(ss)| < MAX_SEQUENCE
    decreases room
  {
    hide FramesFrom, Trim, Waiting, EncodeFrom;
    if room >= MAX_SEQUENCE {
      var (fs, q') := NextSequence(q);
      if fs == [] {
        NothingUsed(q);
      } else {
        NextValid(q);
        SendEnds(q', room - 4 * |fs|);
        var more := Send(q', room - 4 * |fs|).0;
        assert ([fs] + more)[1..] == more;
      }
    }
  }

  lemma NextValid(q: Channels)
    requires ValidChannels(q)
    ensures ValidChannels(NextSequence(q).1)
  {
    FramesValid(q, 0);
  }

  lemma {:induction false} FramesValid(q: Channels, n: nat)
    requires ValidChannels(q) && n <= FRAMES
    ensures ValidChannels(FramesFrom(q, n).1)
    decreases FRAMES - n
  {
    if n < FRAMES {
      DrainedValid(q, n);
      hide ValidChannels, Drained;
      FramesValid(Drained(q, n), n + 1);
    }
  }

  lemma DrainedValid(q: Channels, n: nat)
    requires ValidChannels(q) && n < FRAMES
    ensures ValidChannels(Drained(q, n))
  {
  }
}
