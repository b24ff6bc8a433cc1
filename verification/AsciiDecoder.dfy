/** struct cat_ascii: the ASCII decoder updated in place, each operation a step of module Ascii. */
module AsciiDecoder {
  import opened Cat
  import opened CatState
  import opened AsciiTables
  import opened SeqFacts
  import opened Sources
  import A = Ascii
  import F = AsciiFramer
  import opened Wrappers

  function FeedEvents(i: source, buf: text, t: nat): seq<A.Event> {
    seq(|buf|, k requires 0 <= k < |buf| => A.ByteEvent(i, buf[k], t))
  }

  class AsciiDecoder {
    const cfg: Cfg
    var v: Tracked
    const rx: array<A.Rx>
    var pend: seq<A.Pending>
    var commands: nat
    ghost var seen: seq<A.Seen>
    ghost var log: seq<A.Entry>

    ghost predicate Shape()
      reads this
    {
      rx.Length == RX_NUM && commands == |seen|
    }

    ghost function Value(): A.Decoder
      requires Shape()
      reads this, rx
    {
      A.Decoder(cfg, v, rx[..], pend, seen, log)
    }

    constructor (cfg: Cfg, st: State)
      ensures Shape() && fresh(rx) && Value() == A.Create(cfg, st)
    {
      this.cfg, v, pend, commands, seen, log := cfg, Tracked(st, None, UNKNOWN, UNKNOWN), [], 0, [], [];
      rx := new A.Rx[RX_NUM](_ => A.Rx([], 0));
    }

    method PendAdd(s: A.Seen)
      requires Shape()
      modifies this`pend, this`commands, this`seen
      ensures Shape() && Value() == old(Value()).(pend := A.PendAdd(old(pend), s, |old(seen)|), seen := old(seen) + [s])
    {
      pend := Retain(pend, A.Lives(s.t));
      if |pend| == A.PEND_MAX {
        pend := pend[1..];
      }
      pend := pend + [A.PendingOf(s, commands)];
      commands := commands + 1;
      seen := seen + [s];
    }

    /** The command that the radio frame answers, if any; frame: None for an error. */
    method PendTake(frame: Option<text>, t: nat) returns (r: Option<A.Pending>)
      modifies this`pend
      ensures (pend, r) == A.PendTake(old(pend), frame, t)
    {
      var found := Find(pend, A.IsQueryFor(frame, t));
      if found == |pend| {
        found := Find(pend, A.IsFor(frame, t));
        if found == |pend| {
          return None;
        }
        if frame.Some? && !pend[found].own && pend[found].frame == frame.value {
          pend := A.RemoveAtIndex(pend, found);
          return None;
        }
      }
      r := Some(pend[found]);
      pend := A.RemoveAtIndex(pend, found);
    }

    method ProcessFrame(i: source, bytes: text, t: nat)
      requires Shape()
      modifies this
      ensures Shape() && Value() == A.Report(old(Value()), i, F.Whole(bytes), t)
    {
      hide ApplyFrame, A.PendTake, A.PendAdd;
      if !v.st.ab.valid {
        v := v.(st := SelectVfo(v.st, CatState.A, t));
      }
      var s := A.Body(bytes);
      if i != RX_RADIO {
        if s != [] {
          PendAdd(A.Seen(DirOf(i), ClientOf(i), bytes, t));
        }
        var (v', r) := ApplyFrame(cfg, v, s, true, t);
        v := v';
        log := log + [A.Entry(Frame(Cmd, DirOf(i), t, bytes, r == Updated, DirOf(i) == Own, ClientOf(i)), None)];
        return;
      }
      if A.IsError(s) {
        var p := PendTake(None, t);
        log := log + [A.Credited(Error, t, bytes, false, p)];
        return;
      }
      var p: Option<A.Pending> := None;
      if s != [] {
        p := PendTake(Some(bytes), t);
      }
      var (v', r) := ApplyFrame(cfg, v, s, false, t);
      v := v';
      log := log + [A.Credited(if r == Invalid then Bad else if p.Some? then Reply else Unsolicited,
                               t, bytes, r == Updated, p)];
    }

    method RxByte(i: source, b: byte, t: nat)
      requires Shape()
      modifies this, rx
      ensures Shape() && Value() == A.RxByte(old(Value()), i, b, t)
    {
      hide A.RadioFrame, A.HostFrame;
      var buf := rx[i].buf;
      if b == F.SEMICOLON {
        ProcessFrame(i, buf + [b], t);
        Keep(i, [], t, b, old(Value()));
        return;
      }
      if buf == [] && F.IsSkipped(b) {
        Keep(i, buf, t, b, old(Value()));
        return;
      }
      if !F.IsText(b) || |buf| + 1 >= F.MAX_FRAME {
        log := log + [A.Entry(Frame(Dropped, DirOf(i), t, buf + [b], false, DirOf(i) == Own, ClientOf(i)), None)];
        Keep(i, [], t, b, old(Value()));
        return;
      }
      Keep(i, buf + [b], t, b, old(Value()));
    }

    /** The framer of the source is left with buf. */
    method Keep(i: source, buf: text, t: nat, b: byte, ghost was: A.Decoder)
      requires Shape() && |was.rx| == RX_NUM && rx[..] == was.rx
      requires buf == F.Byte(was.rx[i].buf, b).0
      requires var g := F.Byte(was.rx[i].buf, b).1;
               Value() == if g == [] then was else A.Report(was, i, g[0], t)
      modifies rx
      ensures Shape() && Value() == A.RxByte(was, i, b, t)
    {
      hide A.Report, F.Byte;
      rx[i] := A.Rx(buf, t);
      assert rx[..] == was.rx[i := A.Rx(buf, t)];
    }

    method Feed(i: source, buf: text, t: nat)
      requires Shape()
      modifies this, rx
      ensures Shape() && Value() == A.Run(old(Value()), FeedEvents(i, buf, t))
    {
      hide A.RxByte;
      ghost var es := FeedEvents(i, buf, t);
      var k := 0;
      while k < |buf|
        invariant 0 <= k <= |buf| && Shape()
        invariant A.Run(Value(), es[k..]) == A.Run(old(Value()), es)
      {
        RxByte(i, buf[k], t);
        assert es[k..][0] == es[k] && es[k..][1..] == es[k + 1..];
        k := k + 1;
      }
      assert es[k..] == [];
    }

    method ClientBusy(client: clientNo, t: nat) returns (busy: bool)
      requires Shape()
      ensures busy == A.ClientBusy(Value(), client, t)
    {
      if client < 1 {
        return false;
      }
      if A.Partial(rx[client - 1], t) {
        return true;
      }
      var i := Find(pend, A.OfClient(client, t));
      return i < |pend|;
    }

    method ClientDiscard(client: clientNo)
      requires Shape()
      modifies this, rx
      ensures Shape() && Value() == A.Discard(old(Value()), client)
    {
      if client < 1 {
        return;
      }
      rx[client - 1] := rx[client - 1].(buf := []);
      assert Value() == old(Value()).(rx := old(rx[..])[client - 1 := rx[client - 1]]);
      pend := Retain(pend, A.NotOf(client));
    }
  }
}
