/** mx_mux and dmx_demux as they run: on buffers and on struct dmx, in place. */
module WireMachine {
  import opened Buffers
  import opened Wire
  import opened Demux
  import opened Wrappers

  // ----- The multiplexer -----

  lemma TrimSnoc(fs: seq<Frame>, f: Frame)
    ensures Trim(fs + [f]) == if Used(f) then fs + [f] else Trim(fs)
  {
    assert (fs + [f])[..|fs|] == fs;
  }

  lemma {:induction false} EncodeSnoc(fs: seq<Frame>, f: Frame, n: nat)
    ensures EncodeFrom(fs + [f], n) == EncodeFrom(fs, n) + Encode(f, n + |fs|)
    decreases |fs|
  {
    hide Encode;
    if fs == [] {
      assert [] + [f] == [f] && [f][1..] == [];
    } else {
      assert (fs + [f])[1..] == fs[1..] + [f];
      EncodeSnoc(fs[1..], f, n + 1);
    }
  }

  lemma {:induction false} EncodePrefix(fs: seq<Frame>, k: nat, n: nat)
    requires k <= |fs|
    ensures EncodeFrom(fs[..k], n) == EncodeFrom(fs, n)[..4 * k]
    decreases k
  {
    if k > 0 {
      assert fs[..k][1..] == fs[1..][..k - 1];
      EncodePrefix(fs[1..], k - 1, n + 1);
    }
  }

  /** Takes the next byte of a channel, if there is one. */
  method Take(ibuf: array<Buf<octet>>, i: nat) returns (c: Option<octet>)
    requires i < ibuf.Length
    modifies ibuf
    ensures c == Head(old(ibuf[i])) && ibuf[..] == old(ibuf[..])[i := Tail(old(ibuf[i]))]
  {
    c := Head(ibuf[i]);
    if c.Some? {
      ibuf[i] := Advance(ibuf[i], 1);
    }
    assert ibuf[..] == old(ibuf[..])[i := Tail(old(ibuf[i]))];
  }

  /** Takes what frame n carries from the channels. */
  method TakeFrame(ibuf: array<Buf<octet>>, n: nat) returns (f: Frame)
    requires ibuf.Length == NUM_CHANNELS && n < FRAMES
    modifies ibuf
    ensures ibuf[..] == Drained(old(ibuf[..]), n)
    ensures f == FrameOf(old(ibuf[..]), n) && (f.valid ==> f.shared.Some?)
  {
    hide Head, Tail;
    var channel := SharedChannel(n);
    var c1 := Take(ibuf, R1);
    var c2 := Take(ibuf, R2);
    var c3 := Take(ibuf, channel);
    assert ibuf[channel] == Tail(old(ibuf[channel]));
    // rpos has moved on already.
    var b := ibuf[channel];
    var valid := c3.Some? && (channel != CONTROL || (b.rpos > 1 && b.bytes != []));
    f := Frame(c1, c2, c3, valid);
    HeadIsSome(old(ibuf[channel]));
  }

  lemma HeadIsSome(b: Buf<octet>)
    ensures Head(b).Some? <==> b.bytes != []
  {
  }

  /** The four bytes of frame n, put together bit by bit. */
  method PackFrame(f: Frame, n: nat) returns (bytes: seq<octet>)
    requires f.valid ==> f.shared.Some?
    ensures bytes == Encode(f, n)
  {
    var sync: octet := if n > 0 then 0x40 else 0;  // always set if not the first frame of a sequence
    var p1: octet, p2: octet, p3: octet;
    sync, p1 := PackByte(sync, f.r1, 0x20, 2);
    sync, p2 := PackByte(sync, f.r2, 0x10, 1);
    sync, p3 := PackByte(sync, f.shared, if f.valid then 0x08 else 0, 0);
    bytes := [sync, p1, p2, p3];
    hide Msb, Payload;
  }

  /** A byte of the frame: its validity flag and its top bit go into the sync byte. */
  method PackByte(s: octet, c: Option<octet>, flag: octet, shift: bv8) returns (sync: octet, p: octet)
    requires shift <= 2
    ensures sync == s | (if c.Some? then flag else 0) | Msb(c, shift) && p == Payload(c)
  {
    sync, p := s, 0x80;
    if c.Some? {
      sync := sync | flag;
      sync := sync | ((c.value >> 7) << shift);
      p := p | c.value;
    }
  }

  lemma FramesStep(fs: seq<Frame>, q: Channels, n: nat)
    requires |q| == NUM_CHANNELS && n < FRAMES
    ensures FramesFrom(q, n).1 == FramesFrom(Drained(q, n), n + 1).1
    ensures fs + FramesFrom(q, n).0 == (fs + [FrameOf(q, n)]) + FramesFrom(Drained(q, n), n + 1).0
  {
    hide FrameOf, Drained;
  }

  /** One sequence: five frames, sent up to the last used one. */
  method MuxSequence(ibuf: array<Buf<octet>>) returns (out: seq<octet>)
    requires ibuf.Length == NUM_CHANNELS
    modifies ibuf
    ensures ibuf[..] == NextSequence(old(ibuf[..])).1
    ensures out == EncodeFrom(NextSequence(old(ibuf[..])).0, 0)
  {
    ghost var q0 := ibuf[..];
    var size := 0;
    out := [];
    ghost var fs: seq<Frame>, q := [], q0;
    assert fs + FramesFrom(q0, 0).0 == FramesFrom(q0, 0).0;
    for n := 0 to FRAMES
      invariant ibuf[..] == q && |q| == NUM_CHANNELS && |fs| == n
      invariant FramesFrom(q0, 0) == (fs + FramesFrom(q, n).0, FramesFrom(q, n).1)
      invariant out == EncodeFrom(fs, 0)
      invariant size == 4 * |Trim(fs)|
    {
      hide Encode, EncodeFrom, Trim, Drained, FrameOf;
      var f := TakeFrame(ibuf, n);
      var bytes := PackFrame(f, n);
      TrimSnoc(fs, f);
      EncodeSnoc(fs, f, 0);
      FramesStep(fs, q, n);
      q := Drained(q, n);
      fs := fs + [f];
      out := out + bytes;
      if Used(f) {
        size := 4 * (n + 1);
      }
    }
    assert fs + FramesFrom(q, FRAMES).0 == fs;
    EncodePrefix(fs, |Trim(fs)|, 0);
    assert Trim(fs) == fs[..|Trim(fs)|];
    out := out[..size];
  }

  lemma SendGoesOn(q: Channels, room: nat)
    requires |q| == NUM_CHANNELS && room >= MAX_SEQUENCE
    ensures var (fs, q') := NextSequence(q);
            Send(q, room) ==
            if fs == [] then ([], q) else ([fs] + Send(q', room - 4 * |fs|).0, Send(q', room - 4 * |fs|).1)
  {
  }

  lemma {:induction false} NothingTaken(q: Channels, n: nat)
    requires |q| == NUM_CHANNELS && n <= FRAMES
    ensures var (fs, q') := FramesFrom(q, n);
            (forall i | 0 <= i < |fs| :: !Used(fs[i])) ==> q' == q
    decreases FRAMES - n
  {
    if n < FRAMES {
      NothingTaken(Drained(q, n), n + 1);
      var fs := FramesFrom(Drained(q, n), n + 1).0;
      assert ([FrameOf(q, n)] + fs)[0] == FrameOf(q, n);
      assert forall i | 0 <= i < |fs| :: ([FrameOf(q, n)] + fs)[i + 1] == fs[i];
      assert !Used(FrameOf(q, n)) ==> Drained(q, n) == q;
    }
  }

  lemma {:induction false} BytesSnoc(ss: seq<seq<Frame>>, fs: seq<Frame>)
    ensures Bytes(ss + [fs]) == Bytes(ss) + EncodeFrom(fs, 0)
    decreases |ss|
  {
    hide EncodeFrom;
    if ss == [] {
      assert [] + [fs] == [fs] && [fs][1..] == [];
    } else {
      assert (ss + [fs])[1..] == ss[1..] + [fs];
      BytesSnoc(ss[1..], fs);
    }
  }

  function Extended(b: Buf<octet>, s: seq<octet>): Buf<octet> {
    Buf(b.rpos, b.bytes + s)
  }

  lemma AppendFits(b: Buf<octet>, s: seq<octet>)
    requires b.Valid() && |s| <= b.Avail()
    ensures Append(b, s) == Extended(b, s)
  {
  }

  /** Appends what fits for sure. */
  method Output(bout: Buffer<octet>, s: seq<octet>)
    requires bout.Valid() && |s| <= bout.Value().Avail()
    modifies bout, bout.data
    ensures bout.Valid() && bout.Value() == Extended(old(bout.Value()), s)
    ensures bout.Value().Avail() == old(bout.Value()).Avail() - |s|
  {
    var n := bout.AppendAll(s);
  }

  lemma ExtendedTwice(b: Buf<octet>, s: seq<octet>, u: seq<octet>)
    ensures Extended(Extended(b, s), u) == Extended(b, s + u)
  {
    assert b.bytes + s + u == b.bytes + (s + u);
  }

  /** Where a call is: the sequences done so far are in b; more: another one is to be tried. */
  ghost predicate Midway(q0: Channels, b0: Buf<octet>, done: seq<seq<Frame>>, q: Channels, b: Buf<octet>, n: nat,
                         more: bool)
  {
    && |q| == NUM_CHANNELS && |q0| == NUM_CHANNELS && b0.Valid() && b.Valid()
    && b == Extended(b0, Bytes(done)) && n == |Bytes(done)|
    && if more then Leaves(q0, b0.Avail(), done, q, b.Avail()) else Send(q0, b0.Avail()) == (done, q)
  }

  lemma Starts(q0: Channels, b0: Buf<octet>)
    requires |q0| == NUM_CHANNELS && b0.Valid()
    ensures Midway(q0, b0, [], q0, b0, 0, true)
  {
    assert [] + Send(q0, b0.Avail()).0 == Send(q0, b0.Avail()).0;
    assert Extended(b0, []) == b0;
  }

  lemma Continues(q0: Channels, b0: Buf<octet>, done: seq<seq<Frame>>, q: Channels, b: Buf<octet>, n: nat)
    requires Midway(q0, b0, done, q, b, n, true) && b.Avail() >= MAX_SEQUENCE
    ensures var (fs, q') := NextSequence(q);
            var out := EncodeFrom(fs, 0);
            && |out| <= b.Avail()
            && (out == [] ==> Midway(q0, b0, done, q', b, n, false))
            && (out != [] ==> Midway(q0, b0, done + [fs], q', Extended(b, out), n + |out|, true))
  {
    hide Send, NextSequence, EncodeFrom, Leaves;
    SendStep(q0, b0.Avail(), done, q, b.Avail());
    ExtendedTwice(b0, Bytes(done), EncodeFrom(NextSequence(q).0, 0));
  }

  lemma Ends(q0: Channels, b0: Buf<octet>, done: seq<seq<Frame>>, q: Channels, b: Buf<octet>, n: nat, more: bool)
    requires Midway(q0, b0, done, q, b, n, more) && (b.Avail() < MAX_SEQUENCE || !more)
    ensures Send(q0, b0.Avail()) == (done, q) && n == |Bytes(done)| && b == Append(b0, Bytes(done))
  {
    SendOver(q0, b0.Avail(), done, q, b.Avail());
    SendFits(q0, b0.Avail());
    AppendFits(b0, Bytes(done));
  }

  method Mux(bout: Buffer<octet>, ibuf: array<Buf<octet>>) returns (outSize: nat)
    requires ibuf.Length == NUM_CHANNELS && bout.Valid()
    modifies ibuf, bout, bout.data
    ensures bout.Valid()
    ensures var (ss, r) := Send(old(ibuf[..]), old(bout.Value()).Avail());
            && ibuf[..] == r && outSize == |Bytes(ss)|
            && bout.Value() == Append(old(bout.Value()), Bytes(ss))
  {
    hide Midway, Send, Bytes, NextSequence, EncodeFrom, Extended, Append;
    outSize := 0;
    var avail := bout.SizeAvail();
    ghost var q0, b0 := ibuf[..], bout.Value();
    ghost var done: seq<seq<Frame>> := [];
    Starts(q0, b0);
    var more := true;
    while more && avail >= MAX_SEQUENCE
      invariant bout.Valid() && avail == bout.Value().Avail()
      invariant Midway(q0, b0, done, ibuf[..], bout.Value(), outSize, more)
      decreases more, avail
    {
      Continues(q0, b0, done, ibuf[..], bout.Value(), outSize);
      ghost var fs := NextSequence(ibuf[..]).0;
      var out := MuxSequence(ibuf);
      if out == [] {
        more := false;
      } else {
        Output(bout, out);
        outSize := outSize + |out|;
        avail := bout.SizeAvail();
        done := done + [fs];
      }
    }
    Ends(q0, b0, done, ibuf[..], bout.Value(), outSize, more);
  }

  /** What has been sent and what will be sent is what the call sends. */
  ghost predicate Leaves(q0: Channels, room0: nat, done: seq<seq<Frame>>, q: Channels, room: nat) {
    && |q0| == NUM_CHANNELS && |q| == NUM_CHANNELS
    && Send(q0, room0) == (done + Send(q, room).0, Send(q, room).1)
  }

  lemma SendOver(q0: Channels, room0: nat, done: seq<seq<Frame>>, q: Channels, room: nat)
    ensures Leaves(q0, room0, done, q, room) && room < MAX_SEQUENCE ==> Send(q0, room0) == (done, q)
  {
    if |q| == NUM_CHANNELS && room < MAX_SEQUENCE {
      assert done + Send(q, room).0 == done;
    }
  }

  lemma SendStep(q0: Channels, room0: nat, done: seq<seq<Frame>>, q: Channels, room: nat)
    requires Leaves(q0, room0, done, q, room) && room >= MAX_SEQUENCE
    ensures var (fs, q') := NextSequence(q);
            var out := EncodeFrom(fs, 0);
            && |out| <= room
            && (out == [] ==> Send(q0, room0) == (done, q'))
            && (out != [] ==> && Leaves(q0, room0, done + [fs], q', room - |out|)
                              && Bytes(done + [fs]) == Bytes(done) + out)
  {
    hide FramesFrom, Trim;
    var (fs, q') := NextSequence(q);
    SendGoesOn(q, room);
    BytesSnoc(done, fs);
    if fs == [] {
      NoSequence(q);
      assert done + [] == done;
    } else {
      var rest := Send(q', room - 4 * |fs|).0;
      assert done + ([fs] + rest) == (done + [fs]) + rest;
    }
  }

  lemma NoSequence(q: Channels)
    requires |q| == NUM_CHANNELS && NextSequence(q).0 == []
    ensures NextSequence(q).1 == q
  {
    NothingTaken(q, 0);
  }

  // ----- The demultiplexer -----

  /** struct dmx; -1 is no sync byte, no command. */
  class Decoder {
    var frameNo: int
    var byteNo: int
    var syncByte: Option<octet>
    var resultByte: octet
    const cmdBuffer: array<octet>
    var cmdLength: nat
    var cmd: Option<octet>

    ghost predicate Valid()
      reads this
    {
      cmdBuffer.Length == CMD_BUFFER_SIZE && cmdLength <= CMD_BUFFER_SIZE
    }

    ghost function Value(): Dmx
      requires Valid()
      reads this, cmdBuffer
    {
      Dmx(frameNo, byteNo, syncByte, cmd, cmdBuffer[..cmdLength])
    }

    constructor ()
      ensures Valid() && Value() == CREATED && fresh(cmdBuffer)
    {
      frameNo, byteNo, syncByte, resultByte, cmdLength, cmd := 0, 0, Some(0), 0, 0, Some(0);
      cmdBuffer := new octet[CMD_BUFFER_SIZE](_ => 0);
    }

    /** The channel the byte completes something for, -1 if none. */
    ghost predicate Returns(rv: int, outs: seq<Out>)
      requires Valid()
      reads this, cmdBuffer
    {
      if outs == [] then rv == -1
      else match outs[0]
        case R1Byte(b) => rv == R1 && resultByte == b
        case R2Byte(b) => rv == R2 && resultByte == b
        case Shared(n, b) => rv == n && resultByte == b
        case Command(bytes) => rv == CONTROL && cmdBuffer[..cmdLength] == bytes
    }

    method Demux(c: octet) returns (rv: int)
      requires Valid()
      modifies this, cmdBuffer
      ensures Valid() && Value() == DemuxByte(old(Value()), c, 3).0
      ensures Returns(rv, DemuxByte(old(Value()), c, 3).1)
    {
      hide ControlByte, Join;
      rv := -1;
      if c & 0x80 == 0 {
        if c & 0x40 == 0 {
          frameNo := 0;
        } else {
          frameNo := frameNo + 1;
        }
        byteNo := 0;
        syncByte := Some(c);
        return;
      }
      byteNo := byteNo + 1;
      if syncByte == None {
        return;
      }
      if frameNo > 3 {
        syncByte := None;
        return;
      }
      var s := syncByte.value;
      if byteNo == 1 {
        if s & 0x20 != 0 {
          resultByte := Join(c, (s >> 2) & 1);
          rv := R1;
        }
      } else if byteNo == 2 {
        if s & 0x10 != 0 {
          resultByte := Join(c, (s >> 1) & 1);
          rv := R2;
        }
      } else if byteNo == 3 {
        rv := ThirdByte(s, Join(c, s & 1));
      }
    }

    method ThirdByte(s: octet, byte: octet) returns (rv: int)
      requires Valid()
      modifies this`cmd, this`cmdLength, this`resultByte, cmdBuffer
      ensures Valid()
      ensures var (c, buf, outs) :=
                if frameNo != 1 then
                  (old(cmd), old(cmdBuffer[..cmdLength]), if (s >> 3) & 1 != 0 then [Shared(frameNo, byte)] else [])
                else ControlByte(old(cmd), old(cmdBuffer[..cmdLength]), s & 0x08 != 0, byte);
              && cmd == c && cmdBuffer[..cmdLength] == buf && Returns(rv, outs)
    {
      hide ControlByte;
      rv := -1;
      if frameNo == 1 {
        rv := Control(s & 0x08 != 0, byte);
      } else if (s >> 3) & 1 != 0 {
        resultByte := byte;
        rv := frameNo;
      }
    }

    method Control(valid: bool, byte: octet) returns (rv: int)
      requires Valid()
      modifies this`cmd, this`cmdLength, cmdBuffer
      ensures Valid()
      ensures var (c, buf, outs) := ControlByte(old(cmd), old(cmdBuffer[..cmdLength]), valid, byte);
              && cmd == c && cmdBuffer[..cmdLength] == buf && Returns(rv, outs)
    {
      rv := -1;
      if !valid {
        if byte & 0x80 == 0 {
          cmd := Some(byte);
          cmdLength := 0;
        } else if cmd.Some? && byte == cmd.value | 0x80 {
          rv := CONTROL;
        }
      }
      if cmd.Some? {
        if cmdLength == CMD_BUFFER_SIZE {
          return -1;
        }
        cmdBuffer[cmdLength] := byte;
        cmdLength := cmdLength + 1;
        if rv == CONTROL {
          cmd := None;
        }
      }
    }
  }
}
