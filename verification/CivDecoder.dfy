/** struct cat_civ: the CI-V decoder updated in place, each operation a step of module Civ. */
module CivDecoder {
  import opened Cat
  import opened CatState
  import opened CivTables
  import C = Civ
  import F = CivFramer
  import opened SeqFacts
  import opened Sources
  import opened Wrappers

  function FeedEvents(i: source, buf: seq<byte>, t: nat): seq<C.Event> {
    seq(|buf|, k requires 0 <= k < |buf| => C.ByteEvent(i, buf[k], t))
  }

  lemma {:induction false} OthersPrepend(pend: seq<C.Pending>, j: nat, n: nat, ctrl: byte, client: clientNo)
    requires j < n <= |pend|
    ensures C.Others(pend[j..n], ctrl, client) ==
      (if From(pend[j].buf) == ctrl && pend[j].client == client then [] else [pend[j]])
      + C.Others(pend[j + 1..n], ctrl, client)
  {
    assert pend[j..n][1..] == pend[j + 1..n];
  }

  lemma ResendCons(p: C.Pending, rest: seq<C.Pending>, max: nat, t: nat)
    ensures C.Resend([p] + rest, max, t) ==
      if p.lost && p.resends < max then
        var p' := p.(lost := false, resends := p.resends + 1, t := t);
        ([p'] + rest, Some(p'))
      else ([p.(lost := false)] + C.Resend(rest, max, t).0, C.Resend(rest, max, t).1)
  {
    assert ([p] + rest)[1..] == rest;
  }

  class CivDecoder {
    const freqLen: nat
    var radio: byte
    var st: State
    const rx: array<F.Rx>
    var pend: seq<C.Pending>
    var last: Option<C.Seen>
    var frames: nat
    ghost var seen: seq<C.Seen>
    ghost var log: seq<C.Entry>
    ghost var resent: seq<C.Sending>
    ghost var cuts: seq<C.Cut>

    ghost predicate Shape()
      reads this
    {
      rx.Length == RX_NUM && frames == |seen|
    }

    ghost function Value(): C.Decoder
      requires Shape()
      reads this, rx
    {
      C.Decoder(freqLen, radio, st, rx[..], pend, last, seen, log, resent, cuts)
    }

    constructor (radio: byte, freqLen: nat, st: State)
      ensures Shape() && fresh(rx) && Value() == C.Create(radio, freqLen, st)
    {
      this.freqLen := if freqLen == 0 then 5 else freqLen;
      this.radio, this.st, pend, last, frames, seen, log := radio, st, [], None, 0, [], [];
      resent, cuts := [], [];
      rx := new F.Rx[RX_NUM](_ => F.Rx(F.Idle, [], 0));
    }

    ghost method Emit(f: Frame, credit: Option<C.Credit>)
      requires Shape()
      modifies this`log
      ensures Value() == C.Emit(old(Value()), f, credit)
    {
      log := log + [C.Entry(f, credit, frames, radio)];
    }

    method PendExpire(t: nat)
      modifies this`pend
      ensures pend == C.PendExpire(old(pend), t)
    {
      while pend != [] && pend[0].t + C.PEND_TIMEOUT_MS < t
        invariant C.PendExpire(pend, t) == C.PendExpire(old(pend), t)
        decreases |pend|
      {
        pend := pend[1..];
      }
    }

    method PendAdd(s: C.Seen, id: nat, t: nat)
      modifies this`pend
      ensures pend == C.PendAdd(old(pend), s, id, t)
    {
      if |pend| == C.PEND_MAX {
        pend := pend[1..];
      }
      pend := pend + [C.Pending(s.bytes, t, s.dir != Radio, s.dir == Radio, s.dir == Own,
                                if s.dir == Host then s.client else 0, false, 0, id)];
    }

    method PendConsume(i: nat)
      requires i < |pend|
      modifies this`pend
      ensures pend == C.Consume(old(pend), i)
    {
      ghost var was, kept, tail := pend, [], pend[i + 1..];
      var ctrl, client := From(pend[i].buf), pend[i].client;
      var j := i + 1;
      assert was == was[..j] + (kept + tail);
      while j > 0
        invariant 0 <= j <= i + 1
        invariant kept == C.Others(was[j..i + 1], ctrl, client)
        invariant pend == was[..j] + (kept + tail)
      {
        hide C.Others;
        j := j - 1;
        OthersPrepend(was, j, i + 1, ctrl, client);
        SplitAt(was, j);
        RemoveAt(was[..j], was[j], kept + tail);
        Assoc(was[..j], [was[j]], kept + tail);
        Assoc([was[j]], kept, tail);
        if From(pend[j].buf) == ctrl && pend[j].client == client {
          pend := pend[..j] + pend[j + 1..];
        } else {
          kept := [was[j]] + kept;
        }
      }
    }

    method LearnAddr(dir: Dir, f: frame, t: nat)
      requires Shape() && seen != []
      modifies this`radio, this`pend
      ensures Shape() && Value() == C.LearnAddr(old(Value()), dir, f, t)
    {
      if dir != Radio {
        return;
      }
      if To(f) == BCAST || CmdOf(f) == OK || CmdOf(f) == NG {
        radio := From(f);
      } else if last.Some? {
        var l := last.value;
        if To(l.bytes) == From(f) && From(l.bytes) == To(f) && CmdOf(l.bytes) == CmdOf(f) && frames >= 2 {
          // The frame mirrors the previous one, so its sender is the radio.
          radio := From(f);
          PendAdd(l, frames - 2, t);
        }
      }
    }

    method Acknowledge(f: frame, t: nat)
      requires Shape()
      modifies this
      ensures Shape() && Value() == C.Acknowledge(old(Value()), f, t)
    {
      hide ApplySet, C.Consume, Acknowledges;
      var ok := CmdOf(f) == OK;
      var kind := if ok then Ack else Nak;
      var i := Find(pend, C.IsAckedBy(To(f), ok));
      if i == |pend| {
        Emit(C.RadioFrame(kind, t, f, false, false, 0), None);
        return;
      }
      var p, applied := pend[i], false;
      if ok && PurposeOf(p.buf) == Set {
        var (s, r) := ApplySet(freqLen, st, p.buf, t);
        st, applied := s, r == Updated;
      }
      PendConsume(i);
      Emit(C.RadioFrame(kind, t, f, applied, p.own, p.client), C.CreditOf(p));
    }

    method ReplyTo(f: frame, t: nat)
      requires Shape()
      modifies this
      ensures Shape() && Value() == C.ReplyTo(old(Value()), f, t)
    {
      hide ApplyReply, C.Consume, Answers;
      var i := Find(pend, C.IsQueryOf(f));
      if i == |pend| {
        Emit(C.RadioFrame(Unmatched, t, f, false, false, 0), None);
        return;
      }
      var p := pend[i];
      PendConsume(i);
      var (s, r) := ApplyReply(freqLen, st, f, t);
      st := s;
      Emit(C.RadioFrame(if r == Invalid then Bad else Reply, t, f, r == Updated, p.own, p.client), C.CreditOf(p));
    }

    method OnBus(s: C.Seen)
      requires Shape() && seen != []
      modifies this
      ensures Shape() && Value() == C.OnBus(old(Value()), s)
    {
      var f, t := s.bytes, s.t;
      hide C.PendAdd;
      var i := Find(pend, C.IsEchoedBy(f));
      if i < |pend| {
        pend := pend[i := pend[i].(echoed := true)];
        Emit(C.RadioFrame(Echo, t, f, false, pend[i].own, pend[i].client), C.CreditOf(pend[i]));
      } else {
        // Nobody here sent it.
        PendAdd(s, frames - 1, t);
        Emit(C.RadioFrame(Cmd, t, f, false, false, 0), None);
      }
    }

    method ProcessRadio(s: C.Seen)
      requires Shape() && seen != []
      modifies this
      ensures Shape() && Value() == C.ProcessRadio(old(Value()), s)
    {
      var f, t := s.bytes, s.t;
      hide ApplyUnsolicited, C.Acknowledge, C.ReplyTo, C.OnBus;
      if From(f) == radio && To(f) != radio {
        if To(f) == BCAST {
          var (st', r) := ApplyUnsolicited(freqLen, st, f, t);
          st := st';
          Emit(C.RadioFrame(if r == Invalid then Bad else Unsolicited, t, f, r == Updated, false, 0), None);
        } else if CmdOf(f) == OK || CmdOf(f) == NG {
          Acknowledge(f, t);
        } else {
          ReplyTo(f, t);
        }
      } else if To(f) == radio && From(f) != radio && From(f) != BCAST {
        OnBus(s);
      } else {
        Emit(C.RadioFrame(Foreign, t, f, false, false, 0), None);
      }
    }

    method Admit(s: C.Seen)
      requires Shape()
      modifies this
      ensures Shape() && Value() == C.Admit(old(Value()), s)
    {
      hide C.LearnAddr, C.PendExpire;
      frames := frames + 1;
      seen := seen + [s];
      PendExpire(s.t);
      if radio == 0 {
        LearnAddr(s.dir, s.bytes, s.t);
      }
    }

    method ProcessFrame(s: C.Seen)
      requires Shape()
      modifies this
      ensures Shape() && Value() == C.ProcessFrame(old(Value()), s)
    {
      hide C.Admit, C.ProcessRadio, C.PendAdd;
      var f, t := s.bytes, s.t;
      Admit(s);
      if radio == 0 {
        Emit(Frame(Foreign, s.dir, t, f, false, s.dir == Own, s.client), None);
      } else if s.dir == Radio {
        ProcessRadio(s);
      } else if To(f) == radio && From(f) != BCAST {
        PendAdd(s, frames - 1, t);
        Emit(Frame(Cmd, s.dir, t, f, false, s.dir == Own, s.client), None);
      } else {
        Emit(Frame(Foreign, s.dir, t, f, false, s.dir == Own, s.client), None);
      }
      last := Some(s);
    }

    method MarkLost(t: nat)
      modifies this`pend
      ensures pend == C.MarkLost(old(pend), t)
    {
      for i := 0 to |pend|
        invariant |pend| == |old(pend)|
        invariant forall k | 0 <= k < i :: pend[k] == C.MarkLost(old(pend), t)[k]
        invariant forall k | i <= k < |pend| :: pend[k] == old(pend)[k]
      {
        if pend[i].fromHost && !pend[i].echoed && pend[i].t + C.COLLISION_MS >= t {
          pend := pend[i := pend[i].(lost := true)];
        }
      }
    }

    method Report(i: source, g: F.Got, t: nat)
      requires Shape()
      modifies this
      ensures Shape() && Value() == C.Report(old(Value()), i, g, t)
    {
      hide C.ProcessFrame, C.MarkLost;
      if g.Whole? {
        if F.IsFrame(g.bytes) {
          ProcessFrame(C.Seen(DirOf(i), ClientOf(i), g.bytes, t, radio != 0));
        }
        return;
      }
      if g.Collision? && i == RX_RADIO {
        MarkLost(t);
      }
      var buf := if g.Debris? then g.bytes else g.debris;
      if |buf| > 2 {
        Emit(Frame(Dropped, DirOf(i), t, buf, false, i == RX_OWN, ClientOf(i)), None);
      }
      if g.Collision? {
        Emit(Frame(Jam, DirOf(i), t, [F.COL], false, i == RX_OWN, ClientOf(i)), None);
      }
    }

    method RxByte(i: source, b: byte, t: nat)
      requires Shape()
      modifies this, rx
      ensures Shape() && Value() == C.RxByte(old(Value()), i, b, t)
    {
      hide F.Byte, C.Report;
      var (r, g) := F.Byte(rx[i], b, t);
      if g != [] {
        Report(i, g[0], t);
      }
      ghost var c1 := Value();
      rx[i] := r;
      assert c1.rx == old(Value()).rx;
      assert Value() == c1.(rx := c1.rx[i := r]);
    }

    method Feed(i: source, buf: seq<byte>, t: nat)
      requires Shape()
      modifies this, rx
      ensures Shape() && Value() == C.Run(old(Value()), FeedEvents(i, buf, t))
    {
      hide C.RxByte;
      ghost var es := FeedEvents(i, buf, t);
      var k := 0;
      while k < |buf|
        invariant 0 <= k <= |buf| && Shape()
        invariant C.Run(Value(), es[k..]) == C.Run(old(Value()), es)
      {
        RxByte(i, buf[k], t);
        assert es[k..][0] == es[k] && es[k..][1..] == es[k + 1..];
        k := k + 1;
      }
      assert es[k..] == [];
    }

    method ClientDiscard(client: clientNo)
      requires Shape()
      modifies this, rx
      ensures Shape() && Value() == C.Discard(old(Value()), client)
    {
      if client < 1 {
        return;
      }
      rx[client - 1] := rx[client - 1].(buf := [], state := F.Idle);
      assert Value() == old(Value()).(rx := old(rx[..])[client - 1 := rx[client - 1]]);
      cuts := cuts + [C.Cut(client, |seen|, |log|, radio != 0)];
      pend := Retain(pend, C.NotOf(client));
    }

    /** A lost command to be sent again, if there is one. */
    method Resend(max: nat, t: nat) returns (r: Option<C.Pending>)
      requires Shape()
      modifies this`pend, this`resent
      ensures Shape() && Value() == C.SendAgain(old(Value()), max, t) && r == C.Resend(old(pend), max, t).1
    {
      hide C.Resend;
      r := TakeLost(max, t);
      if r.Some? {
        resent := resent + [C.Sending(r.value.id, t)];
      }
    }

    /** The oldest lost command not sent too often yet; older ones are given up. */
    method TakeLost(max: nat, t: nat) returns (r: Option<C.Pending>)
      modifies this`pend
      ensures (pend, r) == C.Resend(old(pend), max, t)
    {
      ghost var was, done := pend, [];
      var i := 0;
      assert was[0..] == was;
      assert done + C.Resend(was, max, t).0 == C.Resend(was, max, t).0;
      assert was[|was|..] == [] && C.Resend([], max, t) == ([], None);
      hide C.Resend;
      while i < |pend|
        invariant 0 <= i <= |was| && |done| == i
        invariant pend == done + was[i..]
        invariant C.Resend(was, max, t) == (done + C.Resend(was[i..], max, t).0, C.Resend(was[i..], max, t).1)
      {
        var p := pend[i];
        ghost var rest := was[i + 1..];
        SplitAt(was, i);
        Assoc(done, [was[i]], rest);
        RemoveAt(done, was[i], rest);
        assert p == was[i];
        ResendCons(p, rest, max, t);
        if p.lost && p.resends < max {
          var p' := p.(lost := false, resends := p.resends + 1, t := t);
          UpdateAt(done, p, p', rest);
          Assoc(done, [p'], rest);
          pend := pend[i := p'];
          return Some(p');
        }
        var p' := p.(lost := false);
        UpdateAt(done, p, p', rest);
        Assoc(done, [p'], C.Resend(rest, max, t).0);
        pend := pend[i := p'];
        done := done + [p'];
        i := i + 1;
      }
      assert done + [] == done;
      r := None;
    }
  }
}
