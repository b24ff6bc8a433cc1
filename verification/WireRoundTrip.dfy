/** Decoding what the multiplexer sends gives back every byte, slot by slot and in order. */
module WireRoundTrip {
  import opened Buffers
  import opened Wire
  import opened Demux
  import opened Wrappers

  // ----- Separating commands from the rest -----

  function Plain(outs: seq<Out>): seq<Out> {
    if outs == [] then [] else (if outs[0].Command? then [] else [outs[0]]) + Plain(outs[1..])
  }

  function Commands(outs: seq<Out>): seq<seq<octet>> {
    if outs == [] then [] else (if outs[0].Command? then [outs[0].bytes] else []) + Commands(outs[1..])
  }

  lemma {:induction false} PlainConcat(a: seq<Out>, b: seq<Out>)
    ensures Plain(a + b) == Plain(a) + Plain(b)
    decreases |a|
  {
    if a == [] {
      assert a + b == b;
    } else {
      assert (a + b)[0] == a[0] && (a + b)[1..] == a[1..] + b;
      PlainConcat(a[1..], b);
    }
  }

  lemma {:induction false} CommandsConcat(a: seq<Out>, b: seq<Out>)
    ensures Commands(a + b) == Commands(a) + Commands(b)
    decreases |a|
  {
    if a == [] {
      assert a + b == b;
    } else {
      assert (a + b)[0] == a[0] && (a + b)[1..] == a[1..] + b;
      CommandsConcat(a[1..], b);
    }
  }

  lemma Separated(a: seq<Out>, b: seq<Out>)
    ensures Plain(a + b) == Plain(a) + Plain(b) && Commands(a + b) == Commands(a) + Commands(b)
  {
    PlainConcat(a, b);
    CommandsConcat(a, b);
    hide Plain, Commands;
  }

  lemma ItemsArePlain(f: Frame, n: nat)
    ensures Plain(Items(f, n)) == Items(f, n) && Commands(Items(f, n)) == []
  {
    var a := if f.r1.Some? then [R1Byte(f.r1.value)] else [];
    var b := if f.r2.Some? then [R2Byte(f.r2.value)] else [];
    var c := if n != 1 && f.valid then [Shared(n, Opt(f.shared))] else [];
    Separated(a, b);
    Separated(a + b, c);
    assert Plain(a) == a && Plain(b) == b && Plain(c) == c;
  }

  lemma ControlIsCommands(cmd: Option<octet>, buf: seq<octet>, valid: bool, byte: octet)
    ensures var o := ControlByte(cmd, buf, valid, byte).2;
            Plain(o) == [] && |Commands(o)| == |o| && (o != [] ==> Commands(o) == [o[0].bytes])
  {
  }

  // ----- One sequence -----

  /** What the frames n, n + 1, ... yield besides commands. */
  function AllItems(fs: seq<Frame>, n: nat, limit: int): seq<Out> {
    if fs == [] then []
    else (if n <= limit then Items(fs[0], n) else []) + AllItems(fs[1..], n + 1, limit)
  }

  /** The control slot of a sequence that continues with frame n, if it has one. */
  function ControlSlot(fs: seq<Frame>, n: nat): seq<Frame> {
    if n <= 1 < n + |fs| then [fs[1 - n]] else []
  }

  /** What the decoder's command state becomes with a sequence. */
  function ControlAfter(d: Dmx, fs: seq<Frame>, n: nat): (Option<octet>, seq<octet>, seq<Out>) {
    var slot := ControlSlot(fs, n);
    if slot == [] then (d.cmd, d.cmdBuf, []) else ControlOf(d, slot[0])
  }

  lemma FrameSeparates(d: Dmx, f: Frame, n: nat, limit: int)
    requires 1 <= limit && (n == 0 || d.frame == n - 1)
    ensures var (d1, o1) := Decode(d, Encode(f, n), limit);
            && d1.frame == n
            && Plain(o1) == (if n <= limit then Items(f, n) else [])
            && (n == 1 ==> Commands(o1) == Commands(ControlOf(d, f).2)
                           && d1.cmd == ControlOf(d, f).0 && d1.cmdBuf == ControlOf(d, f).1)
            && (n != 1 ==> Commands(o1) == [] && d1.cmd == d.cmd && d1.cmdBuf == d.cmdBuf)
  {
    if n <= limit {
      FrameDecodes(d, f, n, limit);
    } else {
      FrameLost(d, f, n, limit);
    }
    ItemsArePlain(f, n);
    ControlIsCommands(d.cmd, d.cmdBuf, f.valid, Opt(f.shared));
    Separated(Items(f, n), ControlOf(d, f).2);
    assert Plain([]) == [] && Commands([]) == [];
    hide Decode, Encode, Items, ControlByte, Plain, Commands;
  }

  lemma {:induction false} SequenceDecodes(d: Dmx, fs: seq<Frame>, n: nat, limit: int)
    requires 1 <= limit && (n == 0 || d.frame == n - 1)
    ensures var (d', outs) := Decode(d, EncodeFrom(fs, n), limit);
            && Plain(outs) == AllItems(fs, n, limit)
            && Commands(outs) == Commands(ControlAfter(d, fs, n).2)
            && d'.cmd == ControlAfter(d, fs, n).0 && d'.cmdBuf == ControlAfter(d, fs, n).1
    decreases |fs|
  {
    if fs != [] {
      hide DemuxByte, Encode, Items, ControlOf, Plain, Commands, Decode;
      var (d1, o1) := Decode(d, Encode(fs[0], n), limit);
      FrameSeparates(d, fs[0], n, limit);
      var (d2, o2) := Decode(d1, EncodeFrom(fs[1..], n + 1), limit);
      SequenceDecodes(d1, fs[1..], n + 1, limit);
      DecodeConcat(d, Encode(fs[0], n), EncodeFrom(fs[1..], n + 1), limit);
      Separated(o1, o2);
      NoCommands();
      assert ControlSlot(fs[1..], n + 1) == if n == 0 && |fs| > 1 then [fs[1]] else [];
    }
  }

  lemma NoCommands()
    ensures Commands([]) == []
  {
  }

  // ----- Slots -----

  /** The places of a sequence that carry a stream of bytes; the control slot is separate. */
  datatype Slot = SlotR1 | SlotR2 | SlotOf(frame: nat)

  predicate IsSlot(k: Slot) {
    k.SlotOf? ==> k.frame < FRAMES && k.frame != 1
  }

  /** The channel that a slot takes its bytes from. */
  function ChannelOf(k: Slot): nat
    requires IsSlot(k)
  {
    match k
    case SlotR1 => R1
    case SlotR2 => R2
    case SlotOf(n) => SharedChannel(n)
  }

  function PickOne(o: Out, k: Slot): seq<octet> {
    match o
    case R1Byte(b) => if k == SlotR1 then [b] else []
    case R2Byte(b) => if k == SlotR2 then [b] else []
    case Shared(n, b) => if k.SlotOf? && k.frame == n then [b] else []
    case Command(_) => []
  }

  /** The bytes that came out for a slot. */
  function Pick(outs: seq<Out>, k: Slot): seq<octet> {
    if outs == [] then [] else PickOne(outs[0], k) + Pick(outs[1..], k)
  }

  lemma {:induction false} Picked(a: seq<Out>, b: seq<Out>, k: Slot)
    ensures Pick(a + b, k) == Pick(a, k) + Pick(b, k)
    decreases |a|
  {
    if a == [] {
      assert a + b == b;
    } else {
      assert (a + b)[1..] == a[1..] + b;
      Picked(a[1..], b, k);
    }
  }

  lemma {:induction false} PickedPlain(outs: seq<Out>, k: Slot)
    ensures Pick(outs, k) == Pick(Plain(outs), k)
    decreases |outs|
  {
    if outs != [] {
      PickedPlain(outs[1..], k);
      Picked(if outs[0].Command? then [] else [outs[0]], Plain(outs[1..]), k);
    }
  }

  lemma PickItems(f: Frame, n: nat, k: Slot)
    ensures Pick(Items(f, n), k) ==
      if k == SlotR1 then (if f.r1.Some? then [f.r1.value] else [])
      else if k == SlotR2 then (if f.r2.Some? then [f.r2.value] else [])
      else if k.frame == n && n != 1 && f.valid then [Opt(f.shared)] else []
  {
    hide Pick;
    var a := if f.r1.Some? then [R1Byte(f.r1.value)] else [];
    var b := if f.r2.Some? then [R2Byte(f.r2.value)] else [];
    var c := if n != 1 && f.valid then [Shared(n, Opt(f.shared))] else [];
    Picked(a, b, k);
    Picked(a + b, c, k);
    PickR1(f, k);
    PickR2(f, k);
    PickShared(f, n, k);
  }

  lemma PickR1(f: Frame, k: Slot)
    ensures Pick(if f.r1.Some? then [R1Byte(f.r1.value)] else [], k)
         == if k == SlotR1 && f.r1.Some? then [f.r1.value] else []
  {
    PickNothing(k);
    if f.r1.Some? {
      PickSingle(R1Byte(f.r1.value), k);
    }
    hide Pick;
  }

  lemma PickR2(f: Frame, k: Slot)
    ensures Pick(if f.r2.Some? then [R2Byte(f.r2.value)] else [], k)
         == if k == SlotR2 && f.r2.Some? then [f.r2.value] else []
  {
    PickNothing(k);
    if f.r2.Some? {
      PickSingle(R2Byte(f.r2.value), k);
    }
    hide Pick;
  }

  lemma PickShared(f: Frame, n: nat, k: Slot)
    ensures Pick(if n != 1 && f.valid then [Shared(n, Opt(f.shared))] else [], k)
         == if k.SlotOf? && k.frame == n && n != 1 && f.valid then [Opt(f.shared)] else []
  {
    PickNothing(k);
    PickSingle(Shared(n, Opt(f.shared)), k);
    hide Pick;
  }

  lemma PickSingle(o: Out, k: Slot)
    ensures Pick([o], k) == PickOne(o, k)
  {
    assert [o][1..] == [];
  }

  lemma PickNothing(k: Slot)
    ensures Pick([], k) == []
  {
  }

  lemma HeadAndTail(b: Buf<octet>)
    ensures b.bytes == (if Head(b).Some? then [Head(b).value] else []) + Tail(b).bytes
  {
  }

  /** One frame takes each of its slots' next byte, and leaves the other channels alone. */
  lemma FrameTakes(q: Channels, n: nat, k: Slot)
    requires |q| == NUM_CHANNELS && n < FRAMES && IsSlot(k)
    ensures q[ChannelOf(k)].bytes == Pick(Items(FrameOf(q, n), n), k) + Drained(q, n)[ChannelOf(k)].bytes
  {
    hide Items, Pick, Drained, Tail;
    PickItems(FrameOf(q, n), n, k);
    HeadAndTail(q[ChannelOf(k)]);
    DrainedAt(q, n, ChannelOf(k));
  }

  lemma DrainedAt(q: Channels, n: nat, c: nat)
    requires |q| == NUM_CHANNELS && n < FRAMES && c < NUM_CHANNELS
    ensures Drained(q, n)[c] == if c == R1 || c == R2 || c == SharedChannel(n) then Tail(q[c]) else q[c]
  {
    hide Tail;
  }

  lemma {:induction false} FramesTake(q: Channels, n: nat, k: Slot)
    requires |q| == NUM_CHANNELS && n <= FRAMES && IsSlot(k)
    ensures var (fs, q') := FramesFrom(q, n);
            q[ChannelOf(k)].bytes == Pick(AllItems(fs, n, 4), k) + q'[ChannelOf(k)].bytes
    decreases FRAMES - n
  {
    hide Items, Pick, FrameOf, Drained, ChannelOf;
    if n < FRAMES {
      FrameTakes(q, n, k);
      FramesTake(Drained(q, n), n + 1, k);
      var fs := FramesFrom(Drained(q, n), n + 1).0;
      assert ([FrameOf(q, n)] + fs)[1..] == fs;
      Picked(Items(FrameOf(q, n), n), AllItems(fs, n + 1, 4), k);
    } else {
      PickNothing(k);
    }
  }

  lemma {:induction false} UnusedItems(fs: seq<Frame>, n: nat, k: nat, limit: int)
    requires k <= |fs|
    requires forall i | k <= i < |fs| :: !Used(fs[i]) && !fs[i].valid
    ensures AllItems(fs, n, limit) == AllItems(fs[..k], n, limit)
    decreases |fs|
  {
    if fs != [] {
      if k > 0 {
        UnusedItems(fs[1..], n + 1, k - 1, limit);
        assert fs[..k][1..] == fs[1..][..k - 1];
      } else {
        UnusedItems(fs[1..], n + 1, 0, limit);
        assert fs[1..][..0] == [];
      }
    }
  }

  lemma {:induction false} NoByteNotValid(q: Channels, n: nat)
    requires |q| == NUM_CHANNELS && n <= FRAMES
    ensures var fs := FramesFrom(q, n).0;
            forall i | 0 <= i < |fs| :: fs[i].shared.None? ==> !fs[i].valid
    decreases FRAMES - n
  {
    if n < FRAMES {
      NoByteNotValid(Drained(q, n), n + 1);
    }
  }

  /** One sequence carries exactly the bytes it takes from the channels. */
  lemma SequenceTakes(q: Channels, k: Slot)
    requires |q| == NUM_CHANNELS && IsSlot(k)
    ensures var (fs, q') := NextSequence(q);
            q[ChannelOf(k)].bytes == Pick(AllItems(fs, 0, 4), k) + q'[ChannelOf(k)].bytes
  {
    hide Trim, AllItems, Pick;
    FramesTake(q, 0, k);
    NoByteNotValid(q, 0);
    var fs := FramesFrom(q, 0).0;
    var k1 := |Trim(fs)|;
    assert Trim(fs) == fs[..k1];
    forall i | k1 <= i < |fs|
      ensures !Used(fs[i]) && !fs[i].valid
    {
    }
    UnusedItems(fs, 0, k1, 4);
  }

  // ----- Whole calls -----

  /** What all sequences of a call yield besides commands. */
  function SentItems(ss: seq<seq<Frame>>, limit: int): seq<Out> {
    if ss == [] then [] else AllItems(ss[0], 0, limit) + SentItems(ss[1..], limit)
  }

  lemma {:induction false} SendTakes(q: Channels, room: nat, k: Slot)
    requires |q| == NUM_CHANNELS && IsSlot(k)
    ensures var (ss, r) := Send(q, room);
            q[ChannelOf(k)].bytes == Pick(SentItems(ss, 4), k) + r[ChannelOf(k)].bytes
    decreases room
  {
    hide AllItems, Pick, FramesFrom, Trim, ChannelOf;
    PickNothing(k);
    if room >= MAX_SEQUENCE && NextSequence(q).0 != [] {
      var (fs, q') := NextSequence(q);
      SequenceTakes(q, k);
      SendTakes(q', room - 4 * |fs|, k);
      var more := Send(q', room - 4 * |fs|).0;
      assert ([fs] + more)[1..] == more;
      Picked(AllItems(fs, 0, 4), SentItems(more, 4), k);
    }
  }

  lemma {:induction false} BytesDecode(d: Dmx, ss: seq<seq<Frame>>, limit: int)
    requires 1 <= limit
    ensures Plain(Decode(d, Bytes(ss), limit).1) == SentItems(ss, limit)
    decreases |ss|
  {
    hide DemuxByte, AllItems, EncodeFrom;
    if ss != [] {
      var (d1, o1) := Decode(d, EncodeFrom(ss[0], 0), limit);
      SequenceDecodes(d, ss[0], 0, limit);
      BytesDecode(d1, ss[1..], limit);
      DecodeConcat(d, EncodeFrom(ss[0], 0), Bytes(ss[1..]), limit);
      Separated(o1, Decode(d1, Bytes(ss[1..]), limit).1);
    }
  }

  /**
   * A decoder that takes all five frames, in whatever state it is, gives back for every slot
   * exactly the bytes that left its channel, in order.
   */
  lemma FiveFrameRoundTrip(q: Channels, room: nat, d: Dmx, k: Slot)
    requires |q| == NUM_CHANNELS && IsSlot(k)
    ensures var (ss, r) := Send(q, room);
            q[ChannelOf(k)].bytes == Pick(Decode(d, Bytes(ss), 4).1, k) + r[ChannelOf(k)].bytes
  {
    hide Send, Decode, Pick, ChannelOf;
    var (ss, r) := Send(q, room);
    SendTakes(q, room, k);
    BytesDecode(d, ss, 4);
    PickedPlain(Decode(d, Bytes(ss), 4).1, k);
  }

  predicate FourFramesOnly(ss: seq<seq<Frame>>) {
    forall i | 0 <= i < |ss| :: |ss[i]| <= 4
  }

  lemma {:induction false} FewerItems(fs: seq<Frame>, n: nat)
    requires n + |fs| <= FRAMES
    ensures n + |fs| <= 4 ==> AllItems(fs, n, 3) == AllItems(fs, n, 4)
    ensures |AllItems(fs, n, 3)| <= |AllItems(fs, n, 4)|
    ensures n + |fs| == 5 && fs != [] ==>
      |AllItems(fs, n, 4)| == |AllItems(fs, n, 3)| + |Items(fs[|fs| - 1], 4)|
    decreases |fs|
  {
    hide Items;
    if fs != [] {
      FewerItems(fs[1..], n + 1);
      assert fs[1..] == [] ==> AllItems(fs[1..], n + 1, 3) == [] && AllItems(fs[1..], n + 1, 4) == [];
    }
  }

  /** A sequence as it is sent: at most five frames, and something in the fifth if there is one. */
  predicate Sendable(fs: seq<Frame>) {
    0 < |fs| <= FRAMES && (|fs| == FRAMES ==> |Items(fs[FRAMES - 1], 4)| > 0)
  }

  lemma {:induction false} FifthFrameItems(ss: seq<seq<Frame>>)
    requires forall i | 0 <= i < |ss| :: Sendable(ss[i])
    ensures FourFramesOnly(ss) ==> SentItems(ss, 3) == SentItems(ss, 4)
    ensures !FourFramesOnly(ss) ==> |SentItems(ss, 3)| < |SentItems(ss, 4)|
    ensures |SentItems(ss, 3)| <= |SentItems(ss, 4)|
    decreases |ss|
  {
    hide AllItems, Items;
    if ss != [] {
      assert Sendable(ss[0]);
      FewerItems(ss[0], 0);
      FifthFrameItems(ss[1..]);
      assert FourFramesOnly(ss) <==> |ss[0]| <= 4 && FourFramesOnly(ss[1..]) by {
        assert ss == [ss[0]] + ss[1..];
      }
    }
  }

  lemma {:induction false} LastFrameIsUsed(q: Channels, n: nat)
    requires |q| == NUM_CHANNELS && n < FRAMES
    ensures var f := FramesFrom(q, n).0[FRAMES - 1 - n];
            Used(f) ==> |Items(f, 4)| > 0
    decreases FRAMES - n
  {
    if n < FRAMES - 1 {
      hide Items;
      LastFrameIsUsed(Drained(q, n), n + 1);
    }
  }

  lemma {:induction false} SendsSendable(q: Channels, room: nat)
    requires |q| == NUM_CHANNELS
    ensures forall i | 0 <= i < |Send(q, room).0| :: Sendable(Send(q, room).0[i])
    decreases room
  {
    hide FramesFrom, Items;
    if room >= MAX_SEQUENCE && NextSequence(q).0 != [] {
      var (fs, q') := NextSequence(q);
      LastFrameIsUsed(q, 0);
      SendsSendable(q', room - 4 * |fs|);
      var more := Send(q', room - 4 * |fs|).0;
      forall i | 0 <= i < |[fs] + more|
        ensures Sendable(([fs] + more)[i])
      {
        assert i == 0 || ([fs] + more)[i] == more[i - 1];
      }
    }
  }

  /** Nothing that waits needs the fifth frame of a sequence. */
  predicate FitsFourFrames(q: Channels)
    requires |q| == NUM_CHANNELS
  {
    |q[R1].bytes| <= 4 && |q[R2].bytes| <= 4 && q[R2_FSK].bytes == []
  }

  function Less(n: nat, k: nat): nat {
    if n > k then n - k else 0
  }

  lemma {:induction false} FrameFourOf(q: Channels, n: nat)
    requires |q| == NUM_CHANNELS && n < FRAMES
    ensures var (fs, r) := FramesFrom(q, n);
            && (Used(fs[FRAMES - 1 - n]) <==>
                |q[R1].bytes| > 4 - n || |q[R2].bytes| > 4 - n || q[R2_FSK].bytes != [])
            && |r[R1].bytes| == Less(|q[R1].bytes|, FRAMES - n) && |r[R2].bytes| == Less(|q[R2].bytes|, FRAMES - n)
            && |r[R2_FSK].bytes| == Less(|q[R2_FSK].bytes|, 1)
    decreases FRAMES - n
  {
    var q1 := Drained(q, n);
    if n < FRAMES - 1 {
      FrameFourOf(q1, n + 1);
      assert FramesFrom(q, n).0 == [FrameOf(q, n)] + FramesFrom(q1, n + 1).0;
    } else {
      assert FramesFrom(q1, n + 1) == ([], q1);
      assert [FrameOf(q, n)] + [] == [FrameOf(q, n)];
    }
  }

  /** The buffers decide before the call whether it uses a fifth frame. */
  lemma {:induction false} FifthFrameIsUsed(q: Channels, room: nat)
    requires |q| == NUM_CHANNELS
    ensures FourFramesOnly(Send(q, room).0) <==> room < MAX_SEQUENCE || FitsFourFrames(q)
    decreases room
  {
    hide FramesFrom, Trim;
    if room >= MAX_SEQUENCE {
      FrameFourOf(q, 0);
      var (fs, q') := NextSequence(q);
      assert |fs| == FRAMES <==> !FitsFourFrames(q);
      if fs != [] {
        FifthFrameIsUsed(q', room - 4 * |fs|);
        assert Send(q, room).0 == [fs] + Send(q', room - 4 * |fs|).0;
        assert Send(q, room).0[1..] == Send(q', room - 4 * |fs|).0;
        assert FourFramesOnly(Send(q, room).0) <==> |fs| <= 4 && FourFramesOnly(Send(q', room - 4 * |fs|).0) by {
          OneMore(fs, Send(q', room - 4 * |fs|).0);
        }
      }
    }
  }

  lemma OneMore(fs: seq<Frame>, ss: seq<seq<Frame>>)
    ensures FourFramesOnly([fs] + ss) <==> |fs| <= 4 && FourFramesOnly(ss)
  {
    assert ([fs] + ss)[0] == fs && ([fs] + ss)[1..] == ss;
  }

  /**
   * The keyer frame decoder of mhuxd takes four frames: it reports everything that a call sends
   * if and only if the call sends nothing, or R1 and R2 have at most four bytes waiting and the
   * second FSK channel none.
   */
  lemma FourFrameDecoderIsComplete(q: Channels, room: nat, d: Dmx)
    requires |q| == NUM_CHANNELS
    ensures var ss := Send(q, room).0;
            Plain(Decode(d, Bytes(ss), 3).1) == Plain(Decode(d, Bytes(ss), 4).1)
            <==> room < MAX_SEQUENCE || FitsFourFrames(q)
  {
    SendsSendable(q, room);
    FifthFrameIsUsed(q, room);
    var ss := Send(q, room).0;
    FifthFrameItems(ss);
    BytesDecode(d, ss, 3);
    BytesDecode(d, ss, 4);
  }

  lemma FourFrameRoundTrip(q: Channels, room: nat, d: Dmx, k: Slot)
    requires |q| == NUM_CHANNELS && IsSlot(k)
    requires FitsFourFrames(q)
    ensures var (ss, r) := Send(q, room);
            q[ChannelOf(k)].bytes == Pick(Decode(d, Bytes(ss), 3).1, k) + r[ChannelOf(k)].bytes
  {
    hide Send, Decode, Pick, ChannelOf, Plain;
    var ss := Send(q, room).0;
    FourFrameDecoderIsComplete(q, room, d);
    FiveFrameRoundTrip(q, room, d, k);
    PickedPlain(Decode(d, Bytes(ss), 3).1, k);
    PickedPlain(Decode(d, Bytes(ss), 4).1, k);
  }

  /** Five bytes on R1 are sent in five frames, and the decoder misses the last one. */
  lemma FiveBytesLoseOne(d: Dmx)
    ensures var none: Buf<octet> := Empty();
            var q := [none, none, none, none, Buf(0, [1, 2, 3, 4, 5]), none, none, none];
            var ss := Send(q, MAX_SEQUENCE).0;
            Plain(Decode(d, Bytes(ss), 3).1) != Plain(Decode(d, Bytes(ss), 4).1)
  {
    hide Send, Decode, Plain, Bytes;
    var none: Buf<octet> := Empty();
    var q := [none, none, none, none, Buf(0, [1, 2, 3, 4, 5]), none, none, none];
    FourFrameDecoderIsComplete(q, MAX_SEQUENCE, d);
  }
}
