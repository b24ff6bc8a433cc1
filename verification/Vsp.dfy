/** Reads of a virtual serial port that wait for data, src/con_vsp.c. */
module Vsp {
  import opened Cat
  import B = Buffers
  import opened Wrappers

  /** A read that waits: the bytes collected for it so far, fewer than wanted; VMIN and VTIME when it began. */
  datatype Held = Held(size: nat, want: nat, bytes: seq<byte>, vmin: nat, vtime: nat)

  /** What became of the bytes for the application: the answer to a read, or thrown away. */
  datatype Out =
    | Answer(bytes: seq<byte>, size: nat, vmin: nat, vtime: nat, nonblock: bool, expired: bool)
    | Thrown(bytes: seq<byte>)

  /**
   * The application's side of an open port. VTIME is in deciseconds; timer: when it expires, in
   * ms. accepted and outs are the history.
   */
  datatype Session = Session(
    buf: B.Buf<byte>,
    held: Option<Held>,
    timer: Option<nat>,
    vmin: nat,
    vtime: nat,
    accepted: seq<byte>,
    outs: seq<Out>)

  function Open(vmin: nat, vtime: nat): Session {
    Session(B.Empty(), None, None, vmin, vtime, [], [])
  }

  /** The number of bytes at which a read is answered without the timer. */
  function Want(s: Session, size: nat, nonblock: bool): (w: nat)
    ensures w <= size
  {
    var w := if nonblock then 1 else if s.vmin == 0 then if s.vtime > 0 then 1 else 0 else s.vmin;
    if w > size then size else w
  }

  function Arm(s: Session, t: nat): Session {
    if s.vtime == 0 then s else s.(timer := Some(t + 100 * s.vtime))
  }

  /** A read: answered now, told to try again (nothing changes), or held. */
  function DvRead(s: Session, size: nat, nonblock: bool, t: nat): Session {
    var want, avail := Want(s, size, nonblock), |s.buf.bytes|;
    if s.held.Some? then s
    else if avail >= want then
      var n := if size > avail then avail else size;
      var answer := Answer(s.buf.bytes[..n], size, s.vmin, s.vtime, nonblock, false);
      s.(buf := B.Advance(s.buf, n), outs := s.outs + [answer])
    else if nonblock then s
    else
      var s1 := s.(held := Some(Held(size, want, s.buf.bytes, s.vmin, s.vtime)), buf := B.Empty());
      if s.vmin == 0 || avail > 0 then Arm(s1, t) else s1
  }

  function ReplyHeld(s: Session, expired: bool): Session
    requires s.held.Some?
  {
    var h := s.held.value;
    s.(held := None, timer := None, outs := s.outs + [Answer(h.bytes, h.size, h.vmin, h.vtime, false, expired)])
  }

  /** Collects for the held read what it still may get. */
  function Collect(s: Session, t: nat): Session
    requires s.held.Some? && |s.held.value.bytes| <= s.held.value.size
  {
    var h := s.held.value;
    var room := h.size - |h.bytes|;
    var n := if |s.buf.bytes| > room then room else |s.buf.bytes|;
    var h1 := h.(bytes := h.bytes + s.buf.bytes[..n]);
    var s1 := s.(buf := B.Advance(s.buf, n), held := Some(h1));
    if |h1.bytes| >= h1.want || |h1.bytes| == h1.size then ReplyHeld(s1, false)
    else if n > 0 then Arm(s1, t)
    else s1
  }

  /** Data from the router; what does not fit is dropped. */
  function DataIn(s: Session, data: seq<byte>, t: nat): Session
    requires s.buf.Valid()
  {
    var s1 := s.(buf := B.Append(s.buf, data), accepted := s.accepted + B.Accepted(s.buf, data));
    if s1.held.Some? && |s1.held.value.bytes| <= s1.held.value.size then Collect(s1, t) else s1
  }

  /** The timer of the held read expires. */
  function ReadTimer(s: Session, t: nat): Session {
    if s.timer == None || t < s.timer.value then s
    else if s.held == None then s.(timer := None)
    else ReplyHeld(s, true)
  }

  /** The waiting application is interrupted: what was collected is lost. */
  function Interrupt(s: Session): Session {
    if s.held == None then s
    else s.(held := None, timer := None, outs := s.outs + [Thrown(s.held.value.bytes)])
  }

  function Flush(s: Session): Session {
    s.(buf := B.Empty(), outs := s.outs + [Thrown(s.buf.bytes)])
  }

  datatype Event =
    | Read(size: nat, nonblock: bool)
    | Data(data: seq<byte>)
    | Timer
    | Interrupted
    | Flushed
    | SetTermios(vmin: nat, vtime: nat)

  function Step(s: Session, e: Event, t: nat): Session
    requires s.buf.Valid()
  {
    match e
    case Read(size, nonblock) => DvRead(s, size, nonblock, t)
    case Data(data) => DataIn(s, data, t)
    case Timer => ReadTimer(s, t)
    case Interrupted => Interrupt(s)
    case Flushed => Flush(s)
    case SetTermios(vmin, vtime) => s.(vmin := vmin, vtime := vtime)
  }

  // ----- What holds between two events -----

  function Flat(outs: seq<Out>): seq<byte> {
    if outs == [] then [] else Flat(outs[..|outs| - 1]) + outs[|outs| - 1].bytes
  }

  function HeldBytes(s: Session): seq<byte> {
    if s.held.Some? then s.held.value.bytes else []
  }

  function Min(a: nat, b: nat): nat {
    if a < b then a else b
  }

  /**
   * What an answer owes: never more than asked for. With VMIN, VMIN bytes or all that was asked
   * for, and from the timer fewer, but one at least. With VTIME only, a byte, and nothing from
   * the timer. With neither, or without waiting, what is there; without waiting that is
   * something, or the answer would look like the end of the file.
   */
  predicate Pays(o: Out) {
    o.Answer? ==>
      && |o.bytes| <= o.size
      && (if o.expired then
            && !o.nonblock
            && (if o.vmin == 0 then o.vtime > 0 && o.bytes == [] && o.size > 0
                else 0 < |o.bytes| < Min(o.vmin, o.size))
          else if o.nonblock then o.size == 0 || o.bytes != []
          else if o.vmin > 0 then |o.bytes| >= Min(o.vmin, o.size)
          else o.vtime == 0 || o.size == 0 || o.bytes != [])
  }

  /** A read waits only while less is there than it is owed, and VMIN 0 only with the timer running. */
  predicate HeldOk(s: Session) {
    match s.held
    case None => s.timer == None
    case Some(h) =>
      && s.buf == B.Empty() && h.size > 0
      && h.want == Min(if h.vmin == 0 then 1 else h.vmin, h.size)
      && (if h.vmin == 0 then h.vtime > 0 && h.bytes == [] && s.timer.Some?
          else |h.bytes| < Min(h.vmin, h.size))
      && (s.timer.Some? && h.bytes == [] ==> h.vmin == 0)
  }

  predicate Inv(s: Session) {
    && s.buf.Valid() && HeldOk(s)
    && (forall i | 0 <= i < |s.outs| :: Pays(s.outs[i]))
    && Flat(s.outs) + (HeldBytes(s) + s.buf.bytes) == s.accepted
  }

  lemma FlatSnoc(outs: seq<Out>, o: Out)
    ensures Flat(outs + [o]) == Flat(outs) + o.bytes
  {
    assert (outs + [o])[..|outs|] == outs;
  }

  /** Bytes go out at the front. */
  lemma GoOut(outs: seq<Out>, o: Out, front: seq<byte>, rest: seq<byte>, accepted: seq<byte>)
    requires Flat(outs) + (front + rest) == accepted && o.bytes == front
    ensures Flat(outs + [o]) + rest == accepted
  {
    FlatSnoc(outs, o);
    assert Flat(outs) + front + rest == Flat(outs) + (front + rest);
  }

  lemma ReadOk(s: Session, size: nat, nonblock: bool, t: nat)
    requires Inv(s)
    ensures Inv(DvRead(s, size, nonblock, t))
  {
    hide Flat;
    var want, avail := Want(s, size, nonblock), |s.buf.bytes|;
    assert [] + s.buf.bytes == s.buf.bytes && s.buf.bytes + [] == s.buf.bytes;
    if s.held == None && avail >= want {
      AnsweredOk(s, size, nonblock);
    }
  }

  /** The read is answered at once. */
  lemma AnsweredOk(s: Session, size: nat, nonblock: bool)
    requires Inv(s) && s.held == None && Want(s, size, nonblock) <= |s.buf.bytes|
    ensures var n := if size > |s.buf.bytes| then |s.buf.bytes| else size;
            var o := Answer(s.buf.bytes[..n], size, s.vmin, s.vtime, nonblock, false);
            Inv(s.(buf := B.Advance(s.buf, n), outs := s.outs + [o]))
  {
    var n := if size > |s.buf.bytes| then |s.buf.bytes| else size;
    var o := Answer(s.buf.bytes[..n], size, s.vmin, s.vtime, nonblock, false);
    hide Flat;
    assert s.buf.bytes[..n] + s.buf.bytes[n..] == s.buf.bytes && [] + s.buf.bytes == s.buf.bytes;
    GoOut(s.outs, o, s.buf.bytes[..n], s.buf.bytes[n..], s.accepted);
    PaysAtOnce(s, size, nonblock);
    hide Pays, Want;
    assert n == |s.buf.bytes| ==> s.buf.bytes[n..] == [];
    assert [] + s.buf.bytes[n..] == s.buf.bytes[n..];
  }

  lemma PaysAtOnce(s: Session, size: nat, nonblock: bool)
    requires Want(s, size, nonblock) <= |s.buf.bytes|
    ensures var n := if size > |s.buf.bytes| then |s.buf.bytes| else size;
            Pays(Answer(s.buf.bytes[..n], size, s.vmin, s.vtime, nonblock, false))
  {
  }

  lemma ReplyOk(s: Session, expired: bool)
    requires s.held.Some? && s.buf.Valid()
    requires forall i | 0 <= i < |s.outs| :: Pays(s.outs[i])
    requires Flat(s.outs) + (HeldBytes(s) + s.buf.bytes) == s.accepted
    requires var h := s.held.value; Pays(Answer(h.bytes, h.size, h.vmin, h.vtime, false, expired))
    ensures Inv(ReplyHeld(s, expired))
  {
    var h := s.held.value;
    GoOut(s.outs, Answer(h.bytes, h.size, h.vmin, h.vtime, false, expired), h.bytes, s.buf.bytes, s.accepted);
    assert [] + s.buf.bytes == s.buf.bytes;
    hide Flat;
  }

  /** What goes from the buffer to the held read stays in order. */
  lemma MovedOver(front: seq<byte>, got: seq<byte>, n: nat)
    requires n <= |got|
    ensures (front + got[..n]) + got[n..] == front + got
    ensures n == |got| ==> got[n..] == []
  {
  }

  lemma CollectOk(s: Session, t: nat)
    requires s.held.Some? && s.buf.Valid() && s.buf.rpos == 0
    requires HeldOk(s.(buf := B.Empty()))
    requires forall i | 0 <= i < |s.outs| :: Pays(s.outs[i])
    requires Flat(s.outs) + (HeldBytes(s) + s.buf.bytes) == s.accepted
    ensures Inv(Collect(s, t))
  {
    hide Flat, Pays;
    var h, got := s.held.value, s.buf.bytes;
    var room := h.size - |h.bytes|;
    var n := if |got| > room then room else |got|;
    MovedOver(h.bytes, got, n);
    var s2 := s.(buf := B.Advance(s.buf, n), held := Some(h.(bytes := h.bytes + got[..n])));
    if |h.bytes| + n >= h.want || |h.bytes| + n == h.size {
      PaysNow(s2.held.value);
      ReplyOk(s2, false);
    }
  }

  /** A held read that got what it wants is paid. */
  lemma PaysNow(h: Held)
    requires h.want <= |h.bytes| <= h.size && h.size > 0 && h.want == Min(if h.vmin == 0 then 1 else h.vmin, h.size)
    ensures Pays(Answer(h.bytes, h.size, h.vmin, h.vtime, false, false))
  {
  }

  lemma DataOk(s: Session, data: seq<byte>, t: nat)
    requires Inv(s)
    ensures Inv(DataIn(s, data, t))
  {
    hide Flat, Pays;
    var got := B.Accepted(s.buf, data);
    var s1 := s.(buf := B.Append(s.buf, data), accepted := s.accepted + got);
    assert Flat(s.outs) + (HeldBytes(s) + (s.buf.bytes + got)) == Flat(s.outs) + (HeldBytes(s) + s.buf.bytes) + got;
    if s.held.Some? {
      assert s1.(buf := B.Empty(), accepted := s.accepted) == s;
      hide Collect;
      CollectOk(s1, t);
    }
  }

  lemma ThrowOk(s: Session)
    requires Inv(s)
    ensures Inv(Interrupt(s)) && Inv(Flush(s))
  {
    if s.held.Some? {
      GoOut(s.outs, Thrown(s.held.value.bytes), s.held.value.bytes, s.buf.bytes, s.accepted);
      FlatSnoc(s.outs, Thrown(s.buf.bytes));
      assert Flat(s.outs) + [] == Flat(s.outs);
    } else {
      assert [] + s.buf.bytes == s.buf.bytes && s.buf.bytes + [] == s.buf.bytes;
      GoOut(s.outs, Thrown(s.buf.bytes), s.buf.bytes, [], s.accepted);
    }
    hide Flat;
    assert [] + s.buf.bytes == s.buf.bytes;
  }

  lemma StepOk(s: Session, e: Event, t: nat)
    requires Inv(s)
    ensures Inv(Step(s, e, t))
  {
    match e {
      case Read(size, nonblock) => ReadOk(s, size, nonblock, t);
      case Data(data) => DataOk(s, data, t);
      case Timer =>
        if s.timer.Some? && t >= s.timer.value {
          ReplyOk(s, true);
        }
      case Interrupted => ThrowOk(s);
      case Flushed => ThrowOk(s);
      case SetTermios(vmin, vtime) =>
    }
    hide Flat, DvRead, DataIn;
  }

  /** Events with their times. */
  function Run(s: Session, es: seq<(Event, nat)>): (r: Session)
    requires Inv(s)
    ensures Inv(r)
    decreases |es|
  {
    if es == [] then s
    else
      StepOk(s, es[0].0, es[0].1);
      Run(Step(s, es[0].0, es[0].1), es[1..])
  }

  predicate NothingThrown(s: Session) {
    forall i | 0 <= i < |s.outs| :: s.outs[i].Answer?
  }

  lemma StepThrowsNothing(s: Session, e: Event, t: nat)
    requires Inv(s) && !e.Flushed? && !e.Interrupted?
    requires NothingThrown(s)
    ensures NothingThrown(Step(s, e, t))
  {
    hide Flat, Pays;
  }

  /** Nothing is thrown away without a flush or an interrupt. */
  lemma {:induction false} OnlyThrownOnPurpose(s: Session, es: seq<(Event, nat)>)
    requires Inv(s)
    requires forall i | 0 <= i < |es| :: !es[i].0.Flushed? && !es[i].0.Interrupted?
    requires NothingThrown(s)
    ensures NothingThrown(Run(s, es))
    decreases |es|
  {
    if es != [] {
      StepOk(s, es[0].0, es[0].1);
      StepThrowsNothing(s, es[0].0, es[0].1);
      hide Inv, Step;
      OnlyThrownOnPurpose(Step(s, es[0].0, es[0].1), es[1..]);
    }
  }

  /**
   * Over any run: while a read is held nothing else is buffered for the application, and less is
   * collected than VMIN and the size asked for owe it; with VMIN 0 nothing is collected and the
   * timer runs, and with VTIME 0 too no read is ever held. Every answer pays what VMIN and VTIME
   * owe its read, and a short or empty one comes from the timer. Answers, collected and buffered
   * bytes are what arrived, in order; nothing is missing unless it was flushed or the read was
   * interrupted.
   */
  lemma HeldReadsKeepOrder(vmin: nat, vtime: nat, es: seq<(Event, nat)>)
    ensures Inv(Open(vmin, vtime))
    ensures var s := Run(Open(vmin, vtime), es);
            && HeldOk(s)
            && (forall i | 0 <= i < |s.outs| :: Pays(s.outs[i]))
            && Flat(s.outs) + HeldBytes(s) + s.buf.bytes == s.accepted
            && ((forall i | 0 <= i < |es| :: !es[i].0.Flushed? && !es[i].0.Interrupted?) ==>
                NothingThrown(s))
  {
    assert Inv(Open(vmin, vtime));
    var s := Run(Open(vmin, vtime), es);
    assert Flat(s.outs) + HeldBytes(s) + s.buf.bytes == Flat(s.outs) + (HeldBytes(s) + s.buf.bytes);
    if forall i | 0 <= i < |es| :: !es[i].0.Flushed? && !es[i].0.Interrupted? {
      OnlyThrownOnPurpose(Open(vmin, vtime), es);
    }
    hide Flat, Pays;
  }

  /** A read waits if and only if it may wait and less is there than it is owed. */
  lemma ReadsWaitForWhatTheyAreOwed(s: Session, size: nat, nonblock: bool, t: nat)
    requires Inv(s) && s.held == None
    ensures DvRead(s, size, nonblock, t).held.Some? <==>
      !nonblock && (if s.vmin > 0 then |s.buf.bytes| < Min(s.vmin, size)
                    else s.vtime > 0 && size > 0 && s.buf.bytes == [])
    ensures nonblock && s.buf.bytes == [] && size > 0 ==> DvRead(s, size, nonblock, t) == s
  {
    hide Flat, Pays;
  }

  /** Data answers a held read as soon as it pays what is owed: the first byte does with VMIN 0. */
  lemma DataAnswersWhenItPays(s: Session, data: seq<byte>, t: nat)
    requires Inv(s) && s.held.Some? && |data| <= B.CAPACITY
    ensures var h, r := s.held.value, DataIn(s, data, t);
            && (r.held.Some? <==> |h.bytes| + |data| < Min(if h.vmin == 0 then 1 else h.vmin, h.size))
            && (r.held == None ==> r.outs == s.outs + [r.outs[|s.outs|]] && r.outs[|s.outs|].Answer?
                                   && r.outs[|s.outs|].bytes + r.buf.bytes == h.bytes + data)
  {
    hide Flat, Pays;
    var h := s.held.value;
    assert B.Accepted(s.buf, data) == data && [] + data == data;
    var n := Min(|data|, h.size - |h.bytes|);
    assert (h.bytes + data[..n]) + data[n..] == h.bytes + data;
    assert n == |data| ==> data[n..] == [];
  }

  /** The interbyte timer starts again with every byte, and at once only if VMIN is 0. */
  lemma TimerFollowsData(s: Session, e: Event, t: nat)
    requires Inv(s) && Step(s, e, t).held.Some? && s.vtime > 0
    ensures e.Data? && e.data != [] ==> Step(s, e, t).timer == Some(t + 100 * s.vtime)
    ensures e.Read? && s.held == None ==>
      Step(s, e, t).timer == if s.vmin == 0 || s.buf.bytes != [] then Some(t + 100 * s.vtime) else None
  {
    hide Flat, Pays;
    if e.Data? && e.data != [] {
      assert B.Accepted(s.buf, e.data) != [];
      assert B.Append(s.buf, e.data).bytes == B.Accepted(s.buf, e.data);
    }
  }
}
