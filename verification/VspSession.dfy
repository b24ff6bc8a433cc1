/** struct vsp_session, the reading side, updated in place: each operation a step of module Vsp. */
module VspSession {
  import opened Cat
  import V = Vsp
  import B = Buffers
  import opened Wrappers

  class VspSession {
    const bufOut: B.Buffer<byte>
    /** pending_out_req: a read is held. */
    var pending: bool
    var pendingSize: nat
    var pendingWant: nat
    var pendingBuf: seq<byte>
    var timer: Option<nat>
    var vmin: nat
    var vtime: nat
    ghost var vminThen: nat
    ghost var vtimeThen: nat
    ghost var accepted: seq<byte>
    ghost var outs: seq<V.Out>

    ghost predicate Shape()
      reads this, bufOut
    {
      && bufOut.Valid() && (pending <==> pendingSize != 0)
      && (pending ==> |pendingBuf| < pendingWant <= pendingSize)
    }

    ghost function Value(): V.Session
      requires Shape()
      reads this, bufOut, bufOut.data
    {
      V.Session(bufOut.Value(),
                if pending then Some(V.Held(pendingSize, pendingWant, pendingBuf, vminThen, vtimeThen)) else None,
                timer, vmin, vtime, accepted, outs)
    }

    constructor (vmin: nat, vtime: nat)
      ensures Shape() && fresh(bufOut) && fresh(bufOut.data) && Value() == V.Open(vmin, vtime)
    {
      bufOut := new B.Buffer();
      pending, pendingSize, pendingWant, pendingBuf, timer := false, 0, 0, [], None;
      this.vmin, this.vtime := vmin, vtime;
      vminThen, vtimeThen, accepted, outs := 0, 0, [], [];
    }

    method ReadTimerArm(t: nat)
      modifies this`timer
      ensures timer == if vtime == 0 then old(timer) else Some(t + 100 * vtime)
    {
      if vtime != 0 {
        timer := Some(t + 100 * vtime);
      }
    }

    /** The first n buffered bytes. */
    method Take(n: nat) returns (bytes: seq<byte>)
      requires bufOut.Valid() && n <= |bufOut.Value().bytes|
      modifies bufOut
      ensures bufOut.Valid() && bufOut.Value() == B.Advance(old(bufOut.Value()), n)
      ensures bytes == old(bufOut.Value()).bytes[..n]
    {
      bytes := bufOut.data[bufOut.rpos..bufOut.rpos + n];
      assert bytes == bufOut.Value().bytes[..n];
      bufOut.Consume(n);
    }

    /** The read has to wait, with what is there already. */
    method Hold(size: nat, want: nat, t: nat)
      requires Shape() && !pending && |bufOut.Value().bytes| < want <= size
      modifies this`pending, this`pendingSize, this`pendingWant, this`pendingBuf, this`vminThen, this`vtimeThen,
               this`timer, bufOut
      ensures Shape()
      ensures var s := old(Value());
              var s1 := s.(held := Some(V.Held(size, want, s.buf.bytes, s.vmin, s.vtime)), buf := B.Empty());
              Value() == if s.vmin == 0 || |s.buf.bytes| > 0 then V.Arm(s1, t) else s1
    {
      var avail := bufOut.size - bufOut.rpos;
      pending, pendingSize, pendingWant, vminThen, vtimeThen := true, size, want, vmin, vtime;
      pendingBuf := bufOut.data[bufOut.rpos..bufOut.size];
      bufOut.Reset();
      // Without VMIN the timer limits the whole read, else only the gaps.
      if vmin == 0 || avail > 0 {
        ReadTimerArm(t);
      }
    }

    /** The answer is what the application gets, or nothing: try again, or wait. */
    method DvRead(size: nat, nonblock: bool, t: nat) returns (answer: Option<seq<byte>>)
      requires Shape()
      modifies this, bufOut
      ensures Shape() && Value() == V.DvRead(old(Value()), size, nonblock, t)
      ensures answer.Some? <==> !old(pending) && |old(Value()).buf.bytes| >= V.Want(old(Value()), size, nonblock)
      ensures answer.Some? ==>
        answer.value == var have := old(Value()).buf.bytes; if size > |have| then have else have[..size]
    {
      if pendingSize != 0 {
        return None;
      }
      hide V.Arm, B.Advance;
      var avail := bufOut.size - bufOut.rpos;
      var want := if nonblock then 1 else if vmin == 0 then if vtime > 0 then 1 else 0 else vmin;
      if want > size {
        want := size;
      }
      if avail >= want {
        var n := if size > avail then avail else size;
        var bytes := Take(n);
        outs := outs + [V.Answer(bytes, size, vmin, vtime, nonblock, false)];
        return Some(bytes);
      }
      if !nonblock {
        Hold(size, want, t);
      }
      return None;
    }

    method ReplyPendingRead(ghost expired: bool) returns (answer: seq<byte>)
      requires bufOut.Valid() && pending && pendingSize != 0
      modifies this`pending, this`pendingSize, this`pendingWant, this`pendingBuf, this`timer, this`outs
      ensures Shape() && answer == old(pendingBuf)
      ensures Value() == old(V.Session(bufOut.Value(), None, None, vmin, vtime, accepted,
                                       outs + [V.Answer(pendingBuf, pendingSize, vminThen, vtimeThen, false, expired)]))
    {
      timer := None;
      answer := pendingBuf;
      outs := outs + [V.Answer(pendingBuf, pendingSize, vminThen, vtimeThen, false, expired)];
      pending, pendingSize, pendingWant, pendingBuf := false, 0, 0, [];
    }

    /** Gives the held read what it still may get. */
    method Collect(t: nat) returns (answer: Option<seq<byte>>)
      requires Shape() && pending
      modifies this, bufOut
      ensures Shape() && Value() == V.Collect(old(Value()), t)
      ensures answer.Some? <==> old(pending) && !pending
      ensures answer.Some? ==> outs != [] && outs[|outs| - 1].bytes == answer.value
    {
      hide B.Advance;
      var quanta := bufOut.size - bufOut.rpos;
      if quanta > pendingSize - |pendingBuf| {
        quanta := pendingSize - |pendingBuf|;
      }
      var bytes := Take(quanta);
      pendingBuf := pendingBuf + bytes;
      if |pendingBuf| >= pendingWant || |pendingBuf| == pendingSize {
        var reply := ReplyPendingRead(false);
        return Some(reply);
      }
      // A new gap begins.
      if quanta > 0 {
        ReadTimerArm(t);
      }
      return None;
    }

    /** Data from the router. */
    method DataIn(data: seq<byte>, t: nat) returns (answer: Option<seq<byte>>)
      requires Shape()
      modifies this, bufOut, bufOut.data
      ensures Shape() && Value() == V.DataIn(old(Value()), data, t)
      ensures answer.Some? <==> old(pending) && !pending
      ensures answer.Some? ==> outs != [] && outs[|outs| - 1].bytes == answer.value
    {
      hide V.Collect, B.Accepted;
      accepted := accepted + B.Accepted(bufOut.Value(), data);
      var n := bufOut.AppendAll(data);
      answer := None;
      if pending {
        answer := Collect(t);
      }
    }

    method ReadTimer(t: nat) returns (answer: Option<seq<byte>>)
      requires Shape()
      modifies this
      ensures Shape() && Value() == V.ReadTimer(old(Value()), t)
      ensures answer.Some? <==> old(pending) && !pending
      ensures answer.Some? ==> outs != [] && outs[|outs| - 1].bytes == answer.value
    {
      if timer == None || t < timer.value {
        return None;
      }
      if !pending {
        timer := None;
        return None;
      }
      var reply := ReplyPendingRead(true);
      return Some(reply);
    }

    method Interrupt()
      requires Shape()
      modifies this
      ensures Shape() && Value() == V.Interrupt(old(Value()))
    {
      if pending {
        timer := None;
        outs := outs + [V.Thrown(pendingBuf)];
        pending, pendingSize, pendingWant, pendingBuf := false, 0, 0, [];
      }
    }

    method Flush()
      requires Shape()
      modifies this, bufOut
      ensures Shape() && Value() == V.Flush(old(Value()))
    {
      outs := outs + [V.Thrown(bufOut.Value().bytes)];
      bufOut.Reset();
    }
  }
}
