/** struct cat_ybin: the decoder updated in place, each operation a step of module Ybin. */
module YbinDecoder {
  import opened Cat
  import opened CatState
  import opened YbinTables
  import Y = Ybin

  /** The bytes of one call as events; none for a host without a client number. */
  function FeedEvents(dir: Dir, client: clientNo, buf: seq<byte>, t: nat): seq<Y.Event> {
    if dir == Radio then seq(|buf|, k requires 0 <= k < |buf| => Y.RadioEvent(buf[k], t))
    else if dir == Host && client == 0 then []
    else
      var i: Y.source := if dir == Host then client - 1 else Y.RX_OWN;
      seq(|buf|, k requires 0 <= k < |buf| => Y.HostEvent(i, buf[k], t))
  }

  class YbinDecoder {
    const model: Model
    var st: State
    const rx: array<Y.Rx>
    var pend: seq<Y.Pending>
    const ans: array<byte>
    var ansLen: nat
    const hold: array<nat>
    var pacing: nat
    ghost var log: seq<Frame>

    ghost predicate Shape()
      reads this
    {
      && rx.Length == Y.RX_NUM && hold.Length == Y.RX_NUM && ans.Length == MAX_FRAME
      && ansLen <= MAX_FRAME
      && (rx as object) != hold && (rx as object) != ans && (hold as object) != ans
    }

    ghost function Value(): Y.Decoder
      requires Shape()
      reads this, rx, ans, hold
    {
      Y.Decoder(model, st, rx[..], pend, ans[..ansLen], hold[..], pacing, log)
    }

    constructor (model: Model, st: State)
      ensures Shape() && Value() == Y.Create(model, st)
      ensures fresh(rx) && fresh(ans) && fresh(hold)
    {
      this.model, this.st, pend, ansLen, pacing, log := model, st, [], 0, 0, [];
      rx := new Y.Rx[Y.RX_NUM](_ => Y.Rx([], 0));
      ans := new byte[MAX_FRAME](_ => 0);
      hold := new nat[Y.RX_NUM](_ => 0);
    }

    ghost method Emit(f: Frame)
      requires Shape()
      modifies this`log
      ensures Value() == Y.Emit(old(Value()), f)
    {
      log := log + [f];
    }

    method RemoveHead()
      requires Shape() && pend != []
      modifies this`pend, this`ansLen
      ensures Shape() && Value() == Y.DropHead(old(Value()))
    {
      ansLen := 0;
      pend := pend[1..];
    }

    method AnswerDone(complete: bool, t: nat)
      requires Shape() && pend != [] && (complete ==> Y.Complete(Value()))
      modifies this
      ensures Shape() && Value() == Y.AnswerDone(old(Value()), complete, t)
    {
      hide ApplyAnswer;
      var p := pend[0];
      var a := ans[..ansLen];
      RemoveHead();
      // The waiting time of the new head starts here.
      if pend != [] && pend[0].sent < t {
        pend := pend[0 := pend[0].(sent := t)];
      }
      var kind, applied, at := Reply, false, t;
      if !complete {
        kind := if p.guess then Reply else Dropped;
        at := p.last;
      } else if p.len <= MAX_FRAME {
        var (s, r) := ApplyAnswer(model, st, p.cmd, a, t);
        st := s;
        applied := r == Updated;
        kind := if r == Invalid then Bad else if IsAck(model, p.cmd) then Ack else Reply;
      }
      if a != [] {
        Emit(Frame(kind, Radio, at, a, applied, p.own, p.client));
      }
    }

    method PendExpire(t: nat)
      requires Shape() && Y.Valid(Value())
      modifies this
      ensures Shape() && Y.Valid(Value()) && Value() == Y.PendExpire(old(Value()), t)
    {
      hide Y.AnswerDone;
      while pend != [] && !Y.PendLive(Y.Decoder(model, st, [], pend, [], [], pacing, []), pend[0], t)
        invariant Shape() && Y.Valid(Value())
        invariant Y.PendExpire(Value(), t) == Y.PendExpire(old(Value()), t)
        decreases |pend|
      {
        ghost var was := Value();
        if pend[0].got > 0 {
          Y.AnswerDoneKeeps(was, false, t);
          AnswerDone(false, t);
        } else {
          RemoveHead();
        }
      }
    }

    method PendGiveup(t: nat)
      requires Shape() && Y.Valid(Value())
      modifies this
      ensures Shape() && Y.Valid(Value()) && Value() == Y.PendGiveup(old(Value()), t)
    {
      while pend != [] && pend[0].got == 0 && pend[0].sent + Y.GIVEUP_MS < t
        invariant Shape() && Y.Valid(Value())
        invariant Y.PendGiveup(Value(), t) == Y.PendGiveup(old(Value()), t)
        decreases |pend|
      {
        RemoveHead();
      }
    }

    method PendAdd(c: command, l: Length, i: Y.source, t: nat)
      requires Shape() && Y.Valid(Value())
      modifies this
      ensures Shape() && Value() == Y.PendAdd(old(Value()), c, l, i, t)
    {
      hide Y.AnswerDone;
      if |pend| == Y.PEND_MAX {
        if pend[0].got > 0 {
          AnswerDone(false, t);
        } else {
          RemoveHead();
        }
      }
      pend := pend + [Y.Pending(c, l.n, l.guess, i == Y.RX_OWN, Y.ClientOf(i), 0, t, t)];
    }

    /** What a new command does to the list of pending ones. */
    method Issue(i: Y.source, c: command, t: nat)
      requires Shape() && Y.Valid(Value())
      modifies this, hold
      ensures Shape() && Value() == Y.Issue(old(Value()), i, c, t)
    {
      hide ApplyCommand, AnswerLen, Y.PendExpire, Y.PendGiveup, Y.PendAdd;
      var l := AnswerLen(model, c);
      if !st.ab.valid {
        st := SelectVfo(st, A, t);
      }
      PendExpire(t);
      PendGiveup(t);
      if c[4] == 0x0e && HasPacing(model) {
        pacing := c[3];
      }
      if l.n > 0 {
        PendAdd(c, l, i, t);
      } else {
        hold[Y.ClientOf(i)] := t + HoldMs(model);
      }
    }

    method Command(i: Y.source, c: command, t: nat)
      requires Shape() && Y.Valid(Value())
      modifies this, hold
      ensures Shape() && Value() == Y.Command(old(Value()), i, c, t)
    {
      hide ApplyCommand, Y.Issue;
      Issue(i, c, t);
      var (s, r) := ApplyCommand(model, st, c, t);
      st := s;
      Emit(Frame(if r == Invalid then Bad else Cmd, Y.DirOf(i), t, c, r == Updated, i == Y.RX_OWN, Y.ClientOf(i)));
    }

    method RxExpire(i: Y.source, t: nat)
      requires Shape()
      modifies this`log, rx
      ensures Shape() && Value() == Y.RxExpire(old(Value()), i, t)
    {
      var r := rx[i];
      if r.buf == [] || r.t + Y.CMD_GAP_MS >= t {
        return;
      }
      Emit(Frame(Dropped, Y.DirOf(i), r.t, r.buf, false, i == Y.RX_OWN, Y.ClientOf(i)));
      rx[i] := r.(buf := []);
      assert rx[..] == old(rx[..])[i := r.(buf := [])];
    }

    method HostByte(i: Y.source, b: byte, t: nat)
      requires Shape() && Y.Valid(Value())
      modifies this, rx, hold
      ensures Shape() && Value() == Y.HostByte(old(Value()), i, b, t)
    {
      hide Y.Command;
      RxExpire(i, t);
      ghost var y := Value();
      var buf := rx[i].buf + [b];
      rx[i] := Y.Rx(buf, t);
      assert Value() == y.(rx := y.rx[i := Y.Rx(buf, t)]);
      if |buf| == CMD_LEN {
        rx[i] := Y.Rx([], t);
        assert Value() == y.(rx := y.rx[i := Y.Rx([], t)]);
        Command(i, buf, t);
      }
    }

    method TakeByte(b: byte, t: nat)
      requires Shape() && pend != [] && ansLen < MAX_FRAME
      modifies this, ans
      ensures Shape() && pend != [] && Value() == Y.TakeByte(old(Value()), b, t)
    {
      ans[ansLen] := b;
      ansLen := ansLen + 1;
      pend := pend[0 := pend[0].(got := pend[0].got + 1, last := t)];
    }

    method RadioByte(b: byte, t: nat)
      requires Shape() && Y.Valid(Value())
      modifies this, ans
      ensures Shape() && Value() == Y.RadioByte(old(Value()), b, t)
    {
      hide Y.AnswerDone, Y.PendExpire, Y.TakeByte;
      PendExpire(t);
      if pend == [] {
        Emit(Frame(Unmatched, Radio, t, [b], false, false, 0));
        return;
      }
      if !st.ab.valid {
        st := SelectVfo(st, A, t);
      }
      Y.TakeByteKeeps(Value(), b, t);
      TakeByte(b, t);
      if pend[0].got == pend[0].len {
        AnswerDone(true, t);
      } else if ansLen == MAX_FRAME {
        // ans is full.
        Emit(Frame(Reply, Radio, t, ans[..ansLen], false, pend[0].own, pend[0].client));
        ansLen := 0;
      }
    }

    method DiscardEntries(client: clientNo)
      requires Shape()
      modifies this
      ensures Shape() && Value() == Y.DiscardFrom(old(Value()), client, |old(pend)|)
    {
      hide Y.AnswerDone;
      var n := |pend|;
      while n > 0
        invariant 0 <= n <= |pend| && Shape()
        invariant Y.DiscardFrom(Value(), client, n) == Y.DiscardFrom(old(Value()), client, |old(pend)|)
      {
        if pend[n - 1].client == client && !pend[n - 1].own {
          if n == 1 && pend[0].got > 0 {
            AnswerDone(false, pend[0].last);
          } else if n == 1 {
            RemoveHead();
          } else {
            pend := pend[..n - 1] + pend[n..];
          }
        }
        n := n - 1;
      }
    }

    method ClientDiscard(client: clientNo)
      requires Shape() && Y.Valid(Value())
      modifies this, rx, hold
      ensures Shape() && Value() == Y.Step(old(Value()), Y.DiscardEvent(client))
    {
      hide Y.DiscardFrom;
      if client < 1 {
        return;
      }
      ghost var y := Value();
      rx[client - 1] := rx[client - 1].(buf := []);
      hold[client] := 0;
      assert Value() == y.(rx := y.rx[client - 1 := y.rx[client - 1].(buf := [])], hold := y.hold[client := 0]);
      DiscardEntries(client);
    }

    method Feed(dir: Dir, client: clientNo, buf: seq<byte>, t: nat)
      requires Shape() && Y.Valid(Value())
      modifies this, rx, hold, ans
      ensures Shape() && Value() == Y.Run(old(Value()), FeedEvents(dir, client, buf, t))
    {
      hide Y.HostByte, Y.RadioByte, Y.Valid;
      if dir == Host && client < 1 {
        return;
      }
      var i: Y.source := if dir == Host then client - 1 else Y.RX_OWN;
      ghost var es := FeedEvents(dir, client, buf, t);
      var k := 0;
      while k < |buf|
        invariant 0 <= k <= |buf| && Shape() && Y.Valid(Value())
        invariant Y.Run(Value(), es[k..]) == Y.Run(old(Value()), es)
      {
        ghost var was := Value();
        if dir == Radio {
          RadioByte(buf[k], t);
        } else {
          HostByte(i, buf[k], t);
        }
        assert Value() == Y.Step(was, es[k]);
        assert es[k..][0] == es[k] && es[k..][1..] == es[k + 1..];
        k := k + 1;
      }
      assert es[k..] == [];
    }

    method Expire(t: nat)
      requires Shape() && Y.Valid(Value())
      modifies this, rx
      ensures Shape() && Value() == Y.Step(old(Value()), Y.ExpireEvent(t))
    {
      hide Y.RxExpire, Y.PendExpire;
      ghost var y := Value();
      for i := 0 to Y.RX_NUM
        invariant Shape() && Value() == Y.RxExpireAll(y, i, t)
      {
        RxExpire(i, t);
      }
      Y.RxExpireAllKeeps(y, Y.RX_NUM, t);
      PendExpire(t);
    }

    /** Whether the line must be left to this client. */
    method ClientBusy(client: int, t: nat) returns (busy: bool)
      requires Shape() && Y.Valid(Value())
      ensures busy == (1 <= client <= MAX_CLIENTS && Y.ClientBusy(Value(), client, t))
    {
      if client < 1 || client > MAX_CLIENTS {
        return false;
      }
      if Y.RxPartial(rx[client - 1], t) || hold[client] > t {
        return true;
      }
      for i := 0 to |pend|
        invariant forall k | 0 <= k < i ::
          !(pend[k].client == client && !pend[k].own && Y.PendLive(Value(), pend[k], t))
      {
        if pend[i].client == client && !pend[i].own &&
           Y.PendLive(Y.Decoder(model, st, [], [], [], [], pacing, []), pend[i], t)
        {
          return true;
        }
      }
      return false;
    }
  }
}
