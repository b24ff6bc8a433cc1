/** The keyer frame decoder of src/demux.c, and what it makes of the frames of module Wire. */
module Demux {
  import opened Buffers
  import opened Wire
  import opened Wrappers

  const CMD_BUFFER_SIZE := 4096

  /** struct dmx; None stands for -1. */
  datatype Dmx = Dmx(frame: int, byteNo: int, sync: Option<octet>, cmd: Option<octet>, cmdBuf: seq<octet>)

  const CREATED := Dmx(0, 0, Some(0), Some(0), [])

  /** What a byte completes; Shared: by frame number (FLAGS, WINKEY, PS2 in the keyer's frames). */
  datatype Out = R1Byte(b: octet) | R2Byte(b: octet) | Shared(frame: int, b: octet) | Command(bytes: seq<octet>)

  function Join(c: octet, msb: octet): octet {
    (c & 0x7f) | (msb << 7)
  }

  /** A control byte: a clear validity bit marks the ends of a command. */
  function ControlByte(cmd: Option<octet>, buf: seq<octet>, valid: bool, byte: octet):
    (r: (Option<octet>, seq<octet>, seq<Out>))
  {
    var first := !valid && byte & 0x80 == 0;
    var last := !valid && byte & 0x80 != 0 && cmd.Some? && byte == cmd.value | 0x80;
    var cmd1 := if first then Some(byte) else cmd;
    var buf1 := if first then [] else buf;
    if cmd1 == None || |buf1| == CMD_BUFFER_SIZE then (cmd1, buf1, [])
    else
      var buf2 := buf1 + [byte];
      if last then (None, buf2, [Command(buf2)]) else (cmd1, buf2, [])
  }

  /** limit: the highest frame number taken, 3 in the source. */
  function DemuxByte(d: Dmx, c: octet, limit: int): (Dmx, seq<Out>) {
    if c & 0x80 == 0 then
      (d.(frame := if c & 0x40 == 0 then 0 else d.frame + 1, byteNo := 0, sync := Some(c)), [])
    else
      var d1 := d.(byteNo := d.byteNo + 1);
      if d.sync == None then (d1, [])
      else if d.frame > limit then (d1.(sync := None), [])
      else
        var s := d.sync.value;
        if d1.byteNo == 1 then (d1, if s & 0x20 != 0 then [R1Byte(Join(c, (s >> 2) & 1))] else [])
        else if d1.byteNo == 2 then (d1, if s & 0x10 != 0 then [R2Byte(Join(c, (s >> 1) & 1))] else [])
        else if d1.byteNo == 3 then
          var byte := Join(c, s & 1);
          if d.frame != 1 then (d1, if (s >> 3) & 1 != 0 then [Shared(d.frame, byte)] else [])
          else
            var (cmd, buf, out) := ControlByte(d.cmd, d.cmdBuf, s & 0x08 != 0, byte);
            (d1.(cmd := cmd, cmdBuf := buf), out)
        else (d1, [])
  }

  function Decode(d: Dmx, s: seq<octet>, limit: int): (Dmx, seq<Out>)
    decreases |s|
  {
    if s == [] then (d, [])
    else
      var (d1, o1) := DemuxByte(d, s[0], limit);
      var (d2, o2) := Decode(d1, s[1..], limit);
      (d2, o1 + o2)
  }

  lemma {:induction false} DecodeConcat(d: Dmx, s: seq<octet>, u: seq<octet>, limit: int)
    ensures var (d1, o1) := Decode(d, s, limit);
            var (d2, o2) := Decode(d1, u, limit);
            Decode(d, s + u, limit) == (d2, o1 + o2)
    decreases |s|
  {
    if s == [] {
      assert [] + u == u && [] + Decode(d, u, limit).1 == Decode(d, u, limit).1;
    } else {
      hide DemuxByte;
      assert (s + u)[0] == s[0] && (s + u)[1..] == s[1..] + u;
      var (d0, o0) := DemuxByte(d, s[0], limit);
      DecodeConcat(d0, s[1..], u, limit);
      var (d1, o1) := Decode(d0, s[1..], limit);
      assert o0 + (o1 + Decode(d1, u, limit).1) == (o0 + o1) + Decode(d1, u, limit).1;
    }
  }

  // ----- One frame -----

  /** Each bit of a sync byte comes back as it was put. */
  lemma SyncReads(f: Frame, n: nat)
    ensures var s := Sync(f, n);
            && s & 0x80 == 0 && (s & 0x40 == 0 <==> n == 0)
            && (s & 0x20 != 0 <==> f.r1.Some?) && (s & 0x10 != 0 <==> f.r2.Some?)
            && ((s >> 3) & 1 != 0 <==> f.valid) && (s & 0x08 != 0 <==> f.valid)
            && (s >> 2) & 1 == Msb(f.r1, 0) && (s >> 1) & 1 == Msb(f.r2, 0) && s & 1 == Msb(f.shared, 0)
  {
  }

  lemma PayloadReads(c: Option<octet>)
    ensures Payload(c) & 0x80 != 0
    ensures Join(Payload(c), Msb(c, 0)) == if c.Some? then c.value else 0
  {
  }

  function Opt(c: Option<octet>): octet {
    if c.Some? then c.value else 0
  }

  /** What frame n yields besides control bytes. */
  function Items(f: Frame, n: nat): seq<Out> {
    (if f.r1.Some? then [R1Byte(f.r1.value)] else [])
    + (if f.r2.Some? then [R2Byte(f.r2.value)] else [])
    + (if n != 1 && f.valid then [Shared(n, Opt(f.shared))] else [])
  }

  lemma DecodeFour(d: Dmx, a: octet, b: octet, c: octet, e: octet, limit: int)
    ensures var (d1, o1) := DemuxByte(d, a, limit);
            var (d2, o2) := DemuxByte(d1, b, limit);
            var (d3, o3) := DemuxByte(d2, c, limit);
            var (d4, o4) := DemuxByte(d3, e, limit);
            Decode(d, [a, b, c, e], limit) == (d4, o1 + o2 + o3 + o4)
  {
    hide DemuxByte;
    var (d1, o1) := DemuxByte(d, a, limit);
    var (d2, o2) := DemuxByte(d1, b, limit);
    var (d3, o3) := DemuxByte(d2, c, limit);
    var (d4, o4) := DemuxByte(d3, e, limit);
    assert [a, b, c, e][1..] == [b, c, e] && [b, c, e][1..] == [c, e] && [c, e][1..] == [e] && [e][1..] == [];
    assert Decode(d3, [e], limit) == (d4, o4 + []);
    assert Decode(d2, [c, e], limit) == (d4, o3 + (o4 + []));
    assert Decode(d1, [b, c, e], limit) == (d4, o2 + (o3 + (o4 + [])));
    assert o1 + (o2 + (o3 + (o4 + []))) == o1 + o2 + o3 + o4;
  }

  /** What the decoder knows of the command under way. */
  function ControlOf(d: Dmx, f: Frame): (Option<octet>, seq<octet>, seq<Out>) {
    ControlByte(d.cmd, d.cmdBuf, f.valid, Opt(f.shared))
  }

  /** The decoder after the sync byte of frame n. */
  function Synced(d: Dmx, f: Frame, n: nat): Dmx {
    d.(frame := n, byteNo := 0, sync := Some(Sync(f, n)))
  }

  lemma SyncStep(d: Dmx, f: Frame, n: nat, limit: int)
    requires n == 0 || d.frame == n - 1
    ensures DemuxByte(d, Sync(f, n), limit) == (Synced(d, f, n), [])
  {
    SyncReads(f, n);
    hide Sync;
  }

  lemma R1Step(d: Dmx, f: Frame, n: nat, limit: int)
    requires n <= limit
    ensures DemuxByte(Synced(d, f, n), Payload(f.r1), limit)
         == (Synced(d, f, n).(byteNo := 1), if f.r1.Some? then [R1Byte(f.r1.value)] else [])
  {
    SyncReads(f, n);
    PayloadReads(f.r1);
    hide Sync, Payload, Join, Msb, ControlByte;
  }

  lemma R2Step(d: Dmx, f: Frame, n: nat, limit: int)
    requires n <= limit
    ensures DemuxByte(Synced(d, f, n).(byteNo := 1), Payload(f.r2), limit)
         == (Synced(d, f, n).(byteNo := 2), if f.r2.Some? then [R2Byte(f.r2.value)] else [])
  {
    SyncReads(f, n);
    PayloadReads(f.r2);
    hide Sync, Payload, Join, Msb, ControlByte;
  }

  lemma SharedStep(d: Dmx, f: Frame, n: nat, limit: int)
    requires n <= limit
    ensures var d3 := Synced(d, f, n).(byteNo := 3);
            DemuxByte(Synced(d, f, n).(byteNo := 2), Payload(f.shared), limit) ==
            if n != 1 then (d3, if f.valid then [Shared(n, Opt(f.shared))] else [])
            else (d3.(cmd := ControlOf(d, f).0, cmdBuf := ControlOf(d, f).1), ControlOf(d, f).2)
  {
    SyncReads(f, n);
    PayloadReads(f.shared);
    hide Sync, Payload, Join, Msb, ControlByte;
  }

  /** A frame within the limit comes back whole, whatever the decoder saw before. */
  lemma FrameDecodes(d: Dmx, f: Frame, n: nat, limit: int)
    requires n <= limit && (n == 0 || d.frame == n - 1)
    ensures var (d', outs) := Decode(d, Encode(f, n), limit);
            && d'.frame == n
            && (n != 1 ==> d'.cmd == d.cmd && d'.cmdBuf == d.cmdBuf && outs == Items(f, n))
            && (n == 1 ==> d'.cmd == ControlOf(d, f).0 && d'.cmdBuf == ControlOf(d, f).1
                           && outs == Items(f, n) + ControlOf(d, f).2)
  {
    hide DemuxByte, ControlByte, Sync, Payload;
    DecodeFour(d, Sync(f, n), Payload(f.r1), Payload(f.r2), Payload(f.shared), limit);
    SyncStep(d, f, n, limit);
    R1Step(d, f, n, limit);
    R2Step(d, f, n, limit);
    SharedStep(d, f, n, limit);
  }

  /** A frame beyond the limit is lost. */
  lemma FrameLost(d: Dmx, f: Frame, n: nat, limit: int)
    requires n > limit >= 0 && d.frame == n - 1
    ensures var (d', outs) := Decode(d, Encode(f, n), limit);
            d'.frame == n && d'.cmd == d.cmd && d'.cmdBuf == d.cmdBuf && outs == []
  {
    SyncReads(f, n);
    PayloadReads(f.r1);
    PayloadReads(f.r2);
    PayloadReads(f.shared);
    DecodeFour(d, Sync(f, n), Payload(f.r1), Payload(f.r2), Payload(f.shared), limit);
    hide ControlByte, Sync, Payload, Join, Msb;
  }
}
