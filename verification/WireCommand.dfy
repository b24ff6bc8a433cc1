/** A control command crosses the wire whole, whatever else is sent with it. */
module WireCommand {
  import opened Buffers
  import opened Wire
  import opened Demux
  import opened WireRoundTrip
  import opened Wrappers

  /** A command ends with its first byte, bit 7 set; the bytes between are arbitrary. */
  predicate IsCommand(cmd: seq<octet>) {
    2 <= |cmd| <= CAPACITY && cmd[0] & 0x80 == 0 && cmd[|cmd| - 1] == cmd[0] | 0x80
  }

  /** Bytes of the command already taken from the control buffer. */
  function Gone(q: Channels, cmd: seq<octet>): int
    requires |q| == NUM_CHANNELS
  {
    |cmd| - |q[CONTROL].bytes|
  }

  /** The command is the only one in the control buffer, and the decoder has what was sent of it. */
  predicate Progress(q: Channels, d: Dmx, cmd: seq<octet>) {
    && |q| == NUM_CHANNELS && IsCommand(cmd)
    && var k := Gone(q, cmd);
       && 0 <= k <= |cmd|
       && (k < |cmd| ==> q[CONTROL] == Buf(k, cmd[k..]))
       && (k == |cmd| ==> q[CONTROL] == Empty())
       && (0 < k < |cmd| ==> d.cmd == Some(cmd[0]) && d.cmdBuf == cmd[..k])
  }

  /** Nothing is added to the control buffer. */
  predicate Shrinks(before: Channels, after: Channels)
    requires |before| == NUM_CHANNELS && |after| == NUM_CHANNELS
  {
    |after[CONTROL].bytes| <= |before[CONTROL].bytes|
  }

  lemma ReportsAdd(a: Channels, b: Channels, c: Channels, cmd: seq<octet>)
    requires |a| == NUM_CHANNELS && |b| == NUM_CHANNELS && |c| == NUM_CHANNELS
    requires Shrinks(a, b) && Shrinks(b, c)
    ensures Shrinks(a, c) && Report(a, c, cmd) == Report(a, b, cmd) + Report(b, c, cmd)
  {
  }

  /** What is reported when the control buffer goes from before to after. */
  function Report(before: Channels, after: Channels, cmd: seq<octet>): seq<seq<octet>>
    requires |before| == NUM_CHANNELS && |after| == NUM_CHANNELS
  {
    if before[CONTROL].bytes != [] && after[CONTROL].bytes == [] then [cmd] else []
  }

  lemma {:induction false} OthersKeepControl(q: Channels, n: nat)
    requires |q| == NUM_CHANNELS && 2 <= n <= FRAMES
    ensures FramesFrom(q, n).1[CONTROL] == q[CONTROL]
    decreases FRAMES - n
  {
    if n < FRAMES {
      OthersKeepControl(Drained(q, n), n + 1);
    }
  }

  /** Each sequence takes one control byte, and carries it in its second frame. */
  lemma SequenceControl(q: Channels)
    requires |q| == NUM_CHANNELS
    ensures var (fs, q') := NextSequence(q);
            && q'[CONTROL] == Tail(q[CONTROL])
            && (q[CONTROL].bytes != [] ==> |fs| >= 2)
            && (|fs| >= 2 ==>
                  && fs[1].shared == Head(q[CONTROL])
                  && fs[1].valid == (q[CONTROL].bytes != [] && IsValid(CONTROL, Tail(q[CONTROL]))))
  {
    var q1 := Drained(q, 0);
    var q2 := Drained(q1, 1);
    OthersKeepControl(q2, 2);
    var fs := FramesFrom(q, 0).0;
    assert fs[1..] == FramesFrom(q1, 1).0 && fs[1] == FrameOf(q1, 1);
    assert q1[CONTROL] == q[CONTROL] && q2[CONTROL] == Tail(q1[CONTROL]);
  }

  lemma CommandByte(d: Dmx, cmd: seq<octet>, k: nat)
    requires IsCommand(cmd) && k < |cmd|
    requires k > 0 ==> d.cmd == Some(cmd[0]) && d.cmdBuf == cmd[..k]
    ensures var (c, buf, out) := ControlByte(d.cmd, d.cmdBuf, 0 < k < |cmd| - 1, cmd[k]);
            if k == |cmd| - 1 then Commands(out) == [cmd]
            else c == Some(cmd[0]) && buf == cmd[..k + 1] && Commands(out) == []
  {
    ControlIsCommands(d.cmd, d.cmdBuf, 0 < k < |cmd| - 1, cmd[k]);
    assert k == |cmd| - 1 ==> cmd[..k] + [cmd[k]] == cmd;
  }

  lemma IdleSlot(d: Dmx)
    ensures Commands(ControlByte(d.cmd, d.cmdBuf, false, 0).2) == []
  {
  }

  lemma SequenceProgress(q: Channels, d: Dmx, cmd: seq<octet>)
    requires Progress(q, d, cmd) && NextSequence(q).0 != []
    ensures var (fs, q') := NextSequence(q);
            var (c, buf, out) := ControlAfter(d, fs, 0);
            && Progress(q', d.(cmd := c, cmdBuf := buf), cmd) && Shrinks(q, q')
            && Commands(out) == Report(q, q', cmd)
  {
    SequenceControl(q);
    IdleSlot(d);
    hide NextSequence, ControlByte;
    var k := Gone(q, cmd);
    if k < |cmd| {
      CommandByte(d, cmd, k);
      assert cmd[k..][1..] == cmd[k + 1..];
    }
  }

  lemma {:induction false} SendProgress(q: Channels, room: nat, d: Dmx, cmd: seq<octet>, limit: int)
    requires |q| == NUM_CHANNELS && Progress(q, d, cmd) && 1 <= limit
    ensures var (ss, r) := Send(q, room);
            var (d', outs) := Decode(d, Bytes(ss), limit);
            Progress(r, d', cmd) && Shrinks(q, r) && Commands(outs) == Report(q, r, cmd)
    decreases room
  {
    hide FramesFrom, Trim, EncodeFrom, DemuxByte, ControlAfter, AllItems, Progress, Report, Shrinks;
    if room >= MAX_SEQUENCE && NextSequence(q).0 != [] {
      var (fs, q') := NextSequence(q);
      var (d1, o1) := Decode(d, EncodeFrom(fs, 0), limit);
      OneSequence(q, d, cmd, limit);
      SendProgress(q', room - 4 * |fs|, d1, cmd, limit);
      var (more, r) := Send(q', room - 4 * |fs|);
      ReportsAdd(q, q', r, cmd);
      BytesCons(fs, more);
      DecodeConcat(d, EncodeFrom(fs, 0), Bytes(more), limit);
      Separated(o1, Decode(d1, Bytes(more), limit).1);
      hide Decode, Bytes, Commands;
    } else {
      NothingSent(q, d, cmd);
    }
  }

  lemma BytesCons(fs: seq<Frame>, more: seq<seq<Frame>>)
    ensures Bytes([fs] + more) == EncodeFrom(fs, 0) + Bytes(more)
  {
    assert ([fs] + more)[1..] == more;
  }

  lemma NothingSent(q: Channels, d: Dmx, cmd: seq<octet>)
    requires |q| == NUM_CHANNELS
    ensures Shrinks(q, q) && Report(q, q, cmd) == []
  {
  }

  lemma OneSequence(q: Channels, d: Dmx, cmd: seq<octet>, limit: int)
    requires Progress(q, d, cmd) && 1 <= limit && NextSequence(q).0 != []
    ensures var (fs, q') := NextSequence(q);
            var (d1, o1) := Decode(d, EncodeFrom(fs, 0), limit);
            Progress(q', d1, cmd) && Shrinks(q, q') && Commands(o1) == Report(q, q', cmd)
  {
    hide NextSequence, EncodeFrom, Decode, ControlAfter, Report;
    var (fs, q') := NextSequence(q);
    SequenceDecodes(d, fs, 0, limit);
    SequenceProgress(q, d, cmd);
  }

  // ----- Many calls -----

  /** Data that arrives on the other channels, and the room in the output buffer. */
  datatype Call = Call(arrives: seq<seq<octet>>, room: nat)

  predicate LeavesControl(c: Call) {
    |c.arrives| == NUM_CHANNELS && c.arrives[CONTROL] == []
  }

  function Filled(q: Channels, c: Call): (r: Channels)
    requires ValidChannels(q) && LeavesControl(c)
    ensures |r| == NUM_CHANNELS
  {
    seq(NUM_CHANNELS, i requires 0 <= i < NUM_CHANNELS => Append(q[i], c.arrives[i]))
  }

  /** Calls one after the other; all output goes to one decoder. */
  function Calls(q: Channels, d: Dmx, cs: seq<Call>, limit: int): (r: (Channels, Dmx, seq<Out>))
    requires ValidChannels(q) && forall i | 0 <= i < |cs| :: LeavesControl(cs[i])
    ensures |r.0| == NUM_CHANNELS
    decreases |cs|
  {
    if cs == [] then (q, d, [])
    else
      var q1 := Filled(q, cs[0]);
      SendKeeps(q1, cs[0].room);
      var (ss, q2) := Send(q1, cs[0].room);
      var (d2, o) := Decode(d, Bytes(ss), limit);
      var (q3, d3, more) := Calls(q2, d2, cs[1..], limit);
      (q3, d3, o + more)
  }

  lemma {:induction false} SendKeeps(q: Channels, room: nat)
    requires ValidChannels(q)
    ensures ValidChannels(Send(q, room).1)
    decreases room
  {
    hide FramesFrom, Trim;
    if room >= MAX_SEQUENCE && NextSequence(q).0 != [] {
      NextValid(q);
      SendKeeps(NextSequence(q).1, room - 4 * |NextSequence(q).0|);
    }
  }

  lemma {:induction false} CallsProgress(q: Channels, d: Dmx, cmd: seq<octet>, cs: seq<Call>, limit: int)
    requires ValidChannels(q) && Progress(q, d, cmd) && 1 <= limit
    requires forall i | 0 <= i < |cs| :: LeavesControl(cs[i])
    ensures var (q', d', outs) := Calls(q, d, cs, limit);
            Progress(q', d', cmd) && Shrinks(q, q') && Commands(outs) == Report(q, q', cmd)
    decreases |cs|
  {
    hide Send, Decode, Bytes, Shrinks;
    if cs != [] {
      var q1 := Filled(q, cs[0]);
      assert q1[CONTROL].bytes == q[CONTROL].bytes;
      SendKeeps(q1, cs[0].room);
      SendProgress(q1, cs[0].room, d, cmd, limit);
      var (ss, q2) := Send(q1, cs[0].room);
      var (d2, o) := Decode(d, Bytes(ss), limit);
      CallsProgress(q2, d2, cmd, cs[1..], limit);
      Separated(o, Calls(q2, d2, cs[1..], limit).2);
      ReportsAdd(q1, q2, Calls(q2, d2, cs[1..], limit).0, cmd);
      SameControl(q, q1, Calls(q2, d2, cs[1..], limit).0, cmd);
    } else {
      NothingSent(q, d, cmd);
    }
  }

  lemma SameControl(q: Channels, q1: Channels, r: Channels, cmd: seq<octet>)
    requires |q| == NUM_CHANNELS && |q1| == NUM_CHANNELS && |r| == NUM_CHANNELS
    requires q1[CONTROL].bytes == q[CONTROL].bytes
    ensures Shrinks(q1, r) ==> Shrinks(q, r)
    ensures Report(q1, r, cmd) == Report(q, r, cmd)
  {
  }

  /**
   * One command in the control buffer: over any number of calls, with any data on the other
   * channels and any room, the decoder (in any state, with four frames as in the source or more)
   * reports exactly this command, once, when its last byte has been sent, and nothing before.
   */
  lemma CommandRoundTrip(q: Channels, d: Dmx, cmd: seq<octet>, cs: seq<Call>, limit: int)
    requires ValidChannels(q) && IsCommand(cmd) && q[CONTROL] == Buf(0, cmd) && 3 <= limit
    requires forall i | 0 <= i < |cs| :: LeavesControl(cs[i])
    ensures var (q', d', outs) := Calls(q, d, cs, limit);
            Commands(outs) == if q'[CONTROL].bytes == [] then [cmd] else []
  {
    hide Calls;
    assert cmd[0..] == cmd;
    CallsProgress(q, d, cmd, cs, limit);
  }
}
