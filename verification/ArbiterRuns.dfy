/** The line arbiter over whole runs: who may use the line, and where radio data goes. */
module ArbiterRuns {
  import opened Cat
  import opened SeqFacts
  import opened Arbiter
  import B = Buffers
  import opened Wrappers

  // ----- The invariant -----

  /** The bytes of all segments. */
  function Flat(segs: seq<Seg>): seq<byte> {
    if segs == [] then [] else Flat(segs[..|segs| - 1]) + segs[|segs| - 1].bytes
  }

  /** The bytes of the chosen segments. */
  function Picked(segs: seq<Seg>, got: seq<nat>): seq<byte> {
    if got == [] then []
    else
      Picked(segs, got[..|got| - 1]) + if got[|got| - 1] < |segs| then segs[got[|got| - 1]].bytes else []
  }

  /** A consumer got whole segments in order, and they are what its application took and what is left. */
  predicate ConsumerOk(c: Consumer, segs: seq<Seg>) {
    && c.buf.Valid()
    && (forall i | 0 <= i < |c.got| :: c.got[i] < |segs|)
    && (forall i, j | 0 <= i < j < |c.got| :: c.got[i] < c.got[j])
    && c.read + c.buf.bytes == Picked(segs, c.got)
  }

  predicate ConsumersOk(cs: seq<Consumer>, segs: seq<Seg>) {
    forall i | 0 <= i < |cs| :: ConsumerOk(cs[i], segs)
  }

  predicate SentOk(s: Sent) {
    match s.src
    case App(p) => !s.ownActive && (s.turn == None || s.turn == Some(p))
    case Resent(own) => own ==> s.ownActive
    case _ => !s.ownActive && !s.pending && (s.turn == None || s.freshTurn)
  }

  predicate AllSentOk(sends: seq<Sent>) {
    forall i | 0 <= i < |sends| :: SentOk(sends[i])
  }

  /** The router does what the arbiter thinks it does. */
  predicate Linked(l: Line) {
    && l.ch.turn == l.na.turn.conn && l.ch.hold == l.na.ownActive && l.ch.intercept == l.na.route.on
    && |l.na.clients| == MAX_CLIENTS
    && |l.na.route.buf| <= ROUTE_MAX && (!l.na.route.on ==> l.na.route.buf == [])
  }

  /** held: radio data whose delivery is not decided yet. */
  predicate Conserved(segs: seq<Seg>, held: seq<byte>, radio: seq<byte>) {
    Flat(segs) + held == radio
  }

  predicate Base(l: Line) {
    && Linked(l) && Conserved(l.h.segs, l.na.route.buf, l.h.radio)
    && ConsumersOk(l.ch.consumers, l.h.segs) && AllSentOk(l.h.sends)
  }

  /** What holds between two steps. */
  predicate Inv(l: Line) {
    && Base(l)
    && (RouteAlways(l.na) ==> l.na.route.on)
    && (l.na.decoder == NoDecoder ==>
        !l.na.multi && !l.na.filter && l.na.turn.conn == None && !l.na.ownActive && !l.na.route.on)
  }

  // ----- Delivery -----

  lemma {:induction false} PickedGrows(segs: seq<Seg>, s: Seg, got: seq<nat>)
    requires forall i | 0 <= i < |got| :: got[i] < |segs|
    ensures Picked(segs + [s], got) == Picked(segs, got)
    decreases |got|
  {
    if got != [] {
      PickedGrows(segs, s, got[..|got| - 1]);
    }
  }

  lemma GiveOk(c: Consumer, s: Seg, segs: seq<Seg>)
    requires ConsumerOk(c, segs)
    ensures ConsumerOk(Give(c, s, |segs|), segs + [s])
  {
    hide Picked, Takes;
    PickedGrows(segs, s, c.got);
    PickedLast(segs, s, c.got);
    Assoc(c.read, c.buf.bytes, s.bytes);
    RisesOn(c.got, |segs|);
  }

  /** A list of numbers that rises below n goes on rising with n. */
  lemma RisesOn(got: seq<nat>, n: nat)
    requires forall i | 0 <= i < |got| :: got[i] < n
    requires forall i, j | 0 <= i < j < |got| :: got[i] < got[j]
    ensures forall i | 0 <= i < |got + [n]| :: (got + [n])[i] < n + 1
    ensures forall i, j | 0 <= i < j < |got + [n]| :: (got + [n])[i] < (got + [n])[j]
  {
  }

  lemma PickedLast(segs: seq<Seg>, s: Seg, got: seq<nat>)
    ensures Picked(segs + [s], got + [|segs|]) == Picked(segs + [s], got) + s.bytes
  {
    var g := got + [|segs|];
    assert g[..|g| - 1] == got;
  }

  lemma DeliverOk(l: Line, bytes: seq<byte>, dest: Dest)
    requires ConsumersOk(l.ch.consumers, l.h.segs)
    ensures var r := Deliver(l, bytes, dest);
            && ConsumersOk(r.ch.consumers, r.h.segs)
            && Flat(r.h.segs) == Flat(l.h.segs) + bytes
  {
    var s := Seg(bytes, dest);
    forall i | 0 <= i < |l.ch.consumers|
      ensures ConsumerOk(Give(l.ch.consumers[i], s, |l.h.segs|), l.h.segs + [s])
    {
      GiveOk(l.ch.consumers[i], s, l.h.segs);
    }
    assert (l.h.segs + [s])[..|l.h.segs|] == l.h.segs;
    hide ConsumerOk, Give;
  }

  lemma FlushOk(l: Line, dest: Dest)
    requires Base(l)
    ensures Base(RouteFlush(l, dest)) && RouteFlush(l, dest).na == l.na.(route := l.na.route.(buf := []))
  {
    hide ConsumersOk, Flat;
    if l.na.route.buf == [] {
    } else {
      DeliverOk(l, l.na.route.buf, dest);
      hide GiveAll;
      var r := RouteFlush(l, dest);
      assert Flat(r.h.segs) + [] == Flat(r.h.segs);
    }
  }

  lemma StartOk(l: Line)
    requires Base(l)
    ensures Base(RouteStart(l)) && RouteStart(l).na.route.on
  {
    hide ConsumersOk, Conserved, AllSentOk;
  }

  lemma StopOk(l: Line)
    requires Base(l)
    ensures Base(RouteStop(l)) && !RouteStop(l).na.route.on
  {
    if l.na.route.on {
      FlushOk(l, All);
    }
    hide ConsumersOk, Conserved, AllSentOk, RouteFlush;
  }

  /** All but routing is as before. */
  predicate SameTurns(l: Line, m: Line) {
    && m.na == l.na.(route := m.na.route) && m.na.route.dest == l.na.route.dest
    && m.ch == l.ch.(intercept := m.ch.intercept, consumers := m.ch.consumers)
    && m.h == l.h.(segs := m.h.segs)
  }

  lemma CheckOk(l: Line, v: View)
    requires Base(l)
    ensures Base(RouteCheck(l, v)) && SameTurns(l, RouteCheck(l, v))
    ensures (RouteAlways(l.na) ==> l.na.route.on) ==> (RouteAlways(l.na) ==> RouteCheck(l, v).na.route.on)
  {
    StopOk(l);
    StopSame(l);
    hide Base, RouteStop, RemovedBusy;
  }

  lemma StopSame(l: Line)
    ensures SameTurns(l, RouteStop(l)) && SameTurns(l, RouteStart(l))
    ensures forall d :: SameTurns(l, RouteFlush(l, d))
  {
    hide GiveAll;
  }

  // ----- Turns -----

  lemma ClientOk(l: Line, p: fd)
    requires Base(l)
    ensures var (m, n) := ClientOf(l, p);
            Base(m) && m == l.(na := l.na.(clients := m.na.clients))
  {
    hide ConsumersOk, Conserved, AllSentOk, ClientSlot;
  }

  lemma GiveTurnOk(l: Line, p: Option<fd>, freshTurn: bool, now: nat)
    requires Base(l)
    ensures var m := TurnGive(l, p, freshTurn, now);
            && Base(m) && m.h == l.h
            && m.na == l.na.(clients := m.na.clients, turn := m.na.turn)
            && m.na.turn == Turn(p, m.na.turn.client, freshTurn, now)
            && m.ch == l.ch.(turn := p)
  {
    if p.Some? {
      ClientOk(l, p.value);
    }
    hide ConsumersOk, Conserved, AllSentOk, ClientOf;
  }

  lemma TurnOverOk(l: Line, v: View, waiting: set<fd>, now: nat)
    requires Inv(l) && l.na.turn.conn.Some?
    ensures Inv(TurnOver(l, v, waiting, now))
  {
    hide ConsumersOk, Conserved, AllSentOk, TurnBusy, Fresh, NextWaiting;
    var l1 := if TurnBusy(l, v) && !Fresh(l)
              then l.(h := l.h.(discarded := l.h.discarded + [l.na.turn.client])) else l;
    var next := if l.na.multi then NextWaiting(l.ch.producers, l.na.turn.conn.value, waiting) else None;
    assert Base(l1);
    GiveTurnOk(l1, next, next.Some?, now);
    hide Base, TurnGive;
  }

  lemma TurnCheckOk(l: Line, v: View, waiting: set<fd>, now: nat)
    requires Inv(l)
    ensures Inv(TurnCheck(l, v, waiting, now))
  {
    hide ConsumersOk, Conserved, AllSentOk, TurnEnds, TurnOver, TurnStart;
    if l.na.turn.conn.Some? {
      TurnOverOk(l, v, waiting, now);
    }
  }

  lemma FlagsOk(l: Line, now: nat)
    requires Base(l) && (l.na.decoder == NoDecoder ==> l.na.turn.conn == None)
    ensures var m := MultiFlags(l, now);
            && Base(m) && m.h == l.h && m.ch == l.ch.(turn := m.ch.turn)
            && m.na == l.na.(multi := m.na.multi, filter := m.na.filter, turn := m.na.turn)
            && m.na.turn.conn == l.na.turn.conn
            && (l.na.decoder == NoDecoder ==> !m.na.multi && !m.na.filter)
            && (l.na.decoder != NoDecoder ==> m.na == l.na.(multi := |l.ch.producers| > 1, filter := m.na.filter))
  {
    hide ConsumersOk, Conserved, AllSentOk;
  }

  lemma MultiOk(l: Line, v: View, now: nat)
    requires Base(l) && (l.na.decoder == NoDecoder ==> !l.na.ownActive && l.na.turn.conn == None)
    requires l.na.decoder == NoDecoder ==> v == IDLE || !l.na.route.on
    ensures Inv(MultiUpdate(l, v, now))
  {
    FlagsOk(l, now);
    var m := MultiFlags(l, now);
    hide Base, MultiFlags, RouteStart, RouteStop;
    StartOk(m);
    CheckOk(m, v);
    StopSame(m);
    StopOk(m);
  }

  // ----- Own queries -----

  lemma OwnEndOk(l: Line, now: nat)
    requires Base(l)
    ensures var m := OwnEnd(l, now);
            && Base(m) && !m.na.ownActive && m.h == l.h
            && m.na == l.na.(ownActive := false, turn := l.na.turn.(t := m.na.turn.t))
            && m.ch == l.ch.(hold := m.ch.hold)
            && (m.na.turn.t == l.na.turn.t || m.na.turn.t == now)
  {
    hide ConsumersOk, Conserved, AllSentOk, OwnEnd;
    OwnEndIs(l, now);
  }

  lemma OwnEndIs(l: Line, now: nat)
    ensures var m := OwnEnd(l, now);
            && !m.na.ownActive && m.h == l.h && (m == l || !m.ch.hold) && (m == l <== !l.na.ownActive)
            && m.na == l.na.(ownActive := false, turn := l.na.turn.(t := m.na.turn.t))
            && m.ch == l.ch.(hold := m.ch.hold)
            && (m.na.turn.t == l.na.turn.t || m.na.turn.t == now)
  {
  }

  lemma ResetOk(l: Line, now: nat)
    requires Base(l)
    ensures var m := Reset(l, now);
            && Base(m) && !m.na.ownActive && m.na.turn.conn == None
            && m.na.decoder == l.na.decoder && m.ch.producers == l.ch.producers
  {
    var l1 := OwnEnd(l, now);
    OwnEndOk(l, now);
    StopOk(l1);
    StopSame(l1);
    GiveTurnOk(if RouteAlways(l1.na) then l1 else RouteStop(l1), None, false, now);
    hide Base, OwnEnd, RouteStop, TurnGive;
  }

  lemma SetupOk(l: Line, p: Protocol, now: nat)
    requires Base(l)
    ensures Inv(Setup(l, p, now))
  {
    var l0 := l.(na := l.na.(decoder := NoDecoder));
    assert Base(l0);
    var l1 := Reset(l0, now);
    ResetOk(l0, now);
    var l2 := l1.(na := l1.na.(decoder := p));
    assert Base(l2);
    hide Base, Reset, MultiUpdate;
    MultiOk(l2, IDLE, now);
  }

  lemma KeyerOk(l: Line, p: Option<Protocol>, now: nat)
    requires Base(l)
    ensures Inv(KeyerState(l, p, now))
  {
    var l0 := l.(na := l.na.(decoder := NoDecoder));
    assert Base(l0);
    ResetOk(l0, now);
    hide Base, Reset, MultiUpdate, Setup;
    MultiOk(Reset(l0, now), IDLE, now);
    if p.Some? {
      SetupOk(MultiUpdate(Reset(l0, now), IDLE, now), p.value, now);
    }
  }

  /** What a completed frame may change. */
  predicate SameButFrame(l: Line, m: Line, now: nat) {
    && m.h == l.h && m.ch == l.ch.(hold := m.ch.hold)
    && m.na == l.na.(ownActive := m.na.ownActive, turn := l.na.turn.(t := m.na.turn.t),
                     route := l.na.route.(dest := m.na.route.dest), answered := m.na.answered,
                     frameDone := m.na.frameDone)
    && (m.na.turn.t == l.na.turn.t || m.na.turn.t == now)
    && (m.na.ownActive ==> l.na.ownActive)
  }

  lemma AimOk(l: Line, dest: Option<Dest>, now: nat)
    requires Base(l)
    ensures var m := l.(na := l.na.(route := l.na.route.(dest := dest)));
            Base(m) && SameButFrame(l, m, now)
  {
    hide ConsumersOk, Conserved, AllSentOk;
  }

  lemma EndSame(l: Line, now: nat)
    requires Base(l)
    ensures Base(OwnEnd(l, now)) && SameButFrame(l, OwnEnd(l, now), now)
  {
    OwnEndOk(l, now);
    hide Base, OwnEnd;
  }

  lemma SameTrans(l: Line, m: Line, n: Line, now: nat)
    requires SameButFrame(l, m, now) && SameButFrame(m, n, now)
    ensures SameButFrame(l, n, now)
  {
  }

  lemma OwnFrameOk(l: Line, f: RadioFrame, now: nat)
    requires Base(l)
    ensures Base(OnOwnFrame(l, f, now)) && SameButFrame(l, OnOwnFrame(l, f, now), now)
  {
    hide Base, OwnEnd, SameButFrame;
    EndSame(l, now);
    AimOk(l, l.na.route.dest, now);
    var m := if l.na.ownActive && f.kind != Echo then OwnEnd(l, now) else l;
    assert l.(na := l.na.(route := l.na.route.(dest := l.na.route.dest))) == l;
    AimOk(m, Some(Nobody), now);
    SameTrans(l, m, m.(na := m.na.(route := m.na.route.(dest := Some(Nobody)))), now);
  }

  lemma OtherFrameOk(l: Line, f: RadioFrame, now: nat)
    requires Base(l)
    ensures Base(OnOtherFrame(l, f)) && SameButFrame(l, OnOtherFrame(l, f), now)
  {
    hide ConsumersOk, Conserved, AllSentOk, FrameDest;
  }

  lemma FrameOk(l: Line, f: RadioFrame, now: nat)
    requires Base(l)
    ensures Base(OnFrame(l, f, now)) && SameButFrame(l, OnFrame(l, f, now), now)
  {
    hide ConsumersOk, Conserved, AllSentOk, OnOwnFrame, OnOtherFrame;
    var l1 := if IsJam(f.kind) then l else l.(na := l.na.(frameDone := true));
    OwnFrameOk(l1, f, now);
    OtherFrameOk(l1, f, now);
  }

  lemma {:induction false} FramesOk(l: Line, fs: seq<RadioFrame>, now: nat)
    requires Base(l)
    ensures Base(OnFrames(l, fs, now)) && SameButFrame(l, OnFrames(l, fs, now), now)
    decreases |fs|
  {
    hide Base, OnFrame;
    if fs != [] {
      FrameOk(l, fs[0], now);
      FramesOk(OnFrame(l, fs[0], now), fs[1..], now);
    }
  }

  lemma FramesKeep(l: Line, fs: seq<RadioFrame>, now: nat)
    requires Inv(l)
    ensures Inv(OnFrames(l, fs, now))
  {
    FramesOk(l, fs, now);
    hide Base, OnFrames;
  }

  lemma FeedOk(l: Line, setup: Option<Protocol>, fs: seq<RadioFrame>, now: nat)
    requires Inv(l)
    ensures Inv(Feed(l, setup, fs, now))
  {
    hide Base, Setup, OnFrames;
    if setup.Some? {
      SetupOk(l, setup.value, now);
    }
    FramesKeep(if setup.Some? then Setup(l, setup.value, now) else l, fs, now);
  }

  lemma LogOk(l: Line, src: Source, bytes: seq<byte>, pending: bool)
    requires Inv(l) && SentOk(Sent(src, bytes, l.na.turn.conn, l.na.turn.unread, l.na.ownActive, pending))
    ensures Inv(Log(l, src, bytes, pending))
  {
    hide ConsumersOk, Conserved;
  }

  lemma OwnSendOk(l: Line, d: Due, v: View, now: nat)
    requires Inv(l) && FreeForOwn(l, v)
    ensures Inv(OwnSend(l, d, v, now))
  {
    if l.ch.up && d.room {
      LogOk(l, OwnQuery, d.bytes, v.pending);
      var l0 := Log(l, OwnQuery, d.bytes, v.pending);
      var l1 := Hold(l0, true);
      var l1' := l1.(na := l1.na.(ownActive := true));
      assert Base(l1') by {
        hide ConsumersOk, Conserved, AllSentOk;
      }
      StartOk(l1');
      StopSame(l1');
      hide Base, OnFrames, RouteStart;
      FramesKeep(RouteStart(l1'), d.frames, now);
    }
  }

  lemma OwnTryOk(l: Line, d: Option<Due>, v: View, now: nat)
    requires Inv(l)
    ensures Inv(OwnTry(l, d, v, now))
  {
    if FreeForOwn(l, v) && d.Some? {
      OwnSendOk(l, d.value, v, now);
      LogOk(l, CatOn, d.value.bytes, v.pending);
      hide Inv, OnFrames, OwnSend;
      FramesKeep(Log(l, CatOn, d.value.bytes, v.pending), d.value.frames, now);
    }
  }

  lemma AgainOk(l: Line, v: View, c: Option<Lost>, now: nat)
    requires Inv(l)
    ensures Inv(CivAgain(l, v, c, now))
  {
    if c.Some? && (c.value.own ==> l.na.ownActive) {
      LogOk(l, Resent(c.value.own), c.value.bytes, v.pending);
    }
    hide ConsumersOk, Conserved, AllSentOk;
  }

  // ----- Data -----

  lemma TakeTurnOk(l: Line, p: fd, now: nat)
    requires Inv(l)
    ensures Inv(TakeTurn(l, p, now))
  {
    hide ConsumersOk, Conserved, AllSentOk, TurnGive;
    GiveTurnOk(l, Some(p), false, now);
  }

  lemma ClientKeeps(l: Line, p: fd)
    requires Inv(l)
    ensures Inv(ClientOf(l, p).0)
  {
    hide Base, ClientOf;
    ClientOk(l, p);
  }

  lemma MultiKeeps(l: Line, v: View, now: nat)
    requires Inv(l)
    ensures Inv(MultiUpdate(l, v, now))
  {
    hide Base, MultiUpdate;
    MultiOk(l, v, now);
  }

  lemma HostOk(l: Line, p: fd, bytes: seq<byte>, v: View, setup: Option<Protocol>, fs: seq<RadioFrame>, now: nat)
    requires Inv(l)
    ensures Inv(HostRead(l, p, bytes, v, setup, fs, now))
  {
    if MayRead(l.ch, p) {
      LogOk(l, App(p), bytes, v.pending);
      hide Inv, Log, MultiUpdate, TakeTurn, ClientOf, Feed;
      var l1 := MultiUpdate(Log(l, App(p), bytes, v.pending), v, now);
      MultiKeeps(Log(l, App(p), bytes, v.pending), v, now);
      TakeTurnOk(l1, p, now);
      ClientKeeps(TakeTurn(l1, p, now), p);
      FeedOk(ClientOf(TakeTurn(l1, p, now), p).0, setup, fs, now);
    }
  }

  lemma AfterOk(l: Line, i: RadioInput, now: nat)
    requires Inv(l)
    ensures Inv(AfterByte(l, i, now))
  {
    hide Inv, TurnCheck, OwnTry;
    TurnCheckOk(l, i.v, i.waiting, now);
    OwnTryOk(TurnCheck(l, i.v, i.waiting, now), i.due, i.afterTurn, now);
  }

  /** A byte that is passed on by the router. */
  lemma PassedOk(l: Line, b: byte)
    requires Inv(l) && !l.na.route.on
    ensures Inv(Arrive(l, b))
  {
    var l0 := l.(h := l.h.(radio := l.h.radio + [b]));
    DeliverOk(l0, [b], All);
    hide ConsumersOk, Flat, GiveAll, AllSentOk;
    Assoc(Flat(l.h.segs), [], [b]);
    assert Flat(l.h.segs) + [] == Flat(l.h.segs) && Flat(l.h.segs) + [b] + [] == Flat(l.h.segs) + [b];
  }

  /** A byte that joins the held data. */
  lemma CollectedOk(l: Line, b: byte)
    requires Inv(l) && l.na.route.on
    ensures Inv(Collect(Arrive(l, b), b))
  {
    hide ConsumersOk, Flat, AllSentOk, GiveAll;
    var l0 := l.(h := l.h.(radio := l.h.radio + [b]));
    FlushOk(l, RouteDefault(l.na));
    FlushCommutes(l, RouteDefault(l.na), b);
    StopSame(l);
    hide RouteFlush;
    var m := if |l.na.route.buf| == ROUTE_MAX then RouteFlush(l, RouteDefault(l.na)) else l;
    assert Collect(l0, b) == m.(na := m.na.(route := m.na.route.(buf := m.na.route.buf + [b], dest := None),
                                            frameDone := false),
                                h := m.h.(radio := m.h.radio + [b]));
    Assoc(Flat(m.h.segs), m.na.route.buf, [b]);
  }

  lemma FlushCommutes(l: Line, dest: Dest, b: byte)
    ensures var l0 := l.(h := l.h.(radio := l.h.radio + [b]));
            var m := RouteFlush(l, dest);
            RouteFlush(l0, dest) == m.(h := m.h.(radio := m.h.radio + [b])) && m.h.radio == l.h.radio
  {
    hide GiveAll;
  }

  lemma RouteOk(l: Line, i: RadioInput, now: nat)
    requires Inv(l)
    ensures Inv(Route(l, i, now))
  {
    var l1 := if l.na.route.dest.Some? then RouteFlush(l, l.na.route.dest.value) else l;
    if l.na.route.dest.Some? {
      FlushOk(l, l.na.route.dest.value);
    }
    hide Base, RouteFlush, CivAgain;
    assert Inv(l1);
    AgainOk(l1, i.v, i.lost, now);
  }

  lemma CheckKeeps(l: Line, v: View)
    requires Inv(l)
    ensures Inv(RouteCheck(l, v))
  {
    CheckOk(l, v);
    hide Base, RouteCheck;
  }

  lemma RadioByteOk(l: Line, b: byte, i: RadioInput, now: nat)
    requires Inv(l)
    ensures Inv(RadioByte(l, b, i, now))
  {
    ArriveLeaves(l, b);
    var l0 := Arrive(l, b);
    var l1 := l0.(na := l0.na.(answered := false));
    if !l.na.route.on {
      PassedOk(l, b);
      assert Inv(l1);
      hide Inv, Arrive, Feed, AfterByte;
      FeedOk(l1, i.setup, i.frames, now);
      AfterOk(Feed(l1, i.setup, i.frames, now), i, now);
    } else {
      CollectedOk(l, b);
      AnsweredApart(l0, b);
      assert Inv(Collect(l1, b)) by {
        hide ConsumersOk, Conserved, AllSentOk, Collect, Arrive;
      }
      hide Inv, Arrive, Collect, Feed, AfterByte, Route, RouteCheck;
      FeedOk(Collect(l1, b), i.setup, i.frames, now);
      RouteOk(Feed(Collect(l1, b), i.setup, i.frames, now), i, now);
      AfterOk(Route(Feed(Collect(l1, b), i.setup, i.frames, now), i, now), i, now);
      CheckKeeps(AfterByte(Route(Feed(Collect(l1, b), i.setup, i.frames, now), i, now), i, now), i.atEnd);
    }
  }

  lemma ArriveLeaves(l: Line, b: byte)
    ensures Arrive(l, b).na == l.na
    ensures Arrive(l, b).ch == l.ch.(consumers := Arrive(l, b).ch.consumers)
  {
    hide GiveAll;
  }

  lemma AnsweredApart(l: Line, b: byte)
    ensures var l1 := l.(na := l.na.(answered := false));
            var m := Collect(l, b);
            Collect(l1, b) == m.(na := m.na.(answered := false))
  {
    hide GiveAll;
  }

  lemma TickOk(l: Line, i: RadioInput, quiet: bool, now: nat)
    requires Inv(l)
    ensures Inv(Tick(l, i, quiet, now))
  {
    FramesKeep(l, i.frames, now);
    var l1 := if l.na.decoder == NoDecoder then l else OnFrames(l, i.frames, now);
    hide OnFrames;
    MultiOk(l1, i.v, now);
    hide Inv, MultiUpdate, RouteCheck, Setup, OwnTry;
    CheckKeeps(MultiUpdate(l1, i.v, now), i.v);
    var l2 := RouteCheck(MultiUpdate(l1, i.v, now), i.v);
    assert Inv(l2);
    SetupWhen(l2, i.setup, now);
    OwnTryOk(if i.setup.Some? then Setup(l2, i.setup.value, now) else l2, i.due, i.afterTurn, now);
  }

  lemma SetupWhen(l: Line, p: Option<Protocol>, now: nat)
    requires Inv(l)
    ensures Inv(if p.Some? then Setup(l, p.value, now) else l)
  {
    hide Base, Setup;
    if p.Some? {
      SetupOk(l, p.value, now);
    }
  }

  // ----- Connectors -----

  lemma DrainedOk(c: Consumer, n: nat, segs: seq<Seg>)
    requires ConsumerOk(c, segs)
    ensures ConsumerOk(Drained(c, n), segs)
  {
    hide Picked;
    var k := if n <= |c.buf.bytes| then n else |c.buf.bytes|;
    assert c.buf.bytes == c.buf.bytes[..k] + c.buf.bytes[k..];
    assert c.read + c.buf.bytes[..k] + c.buf.bytes[k..] == c.read + c.buf.bytes;
    assert k == |c.buf.bytes| ==> c.buf.bytes[k..] == [];
  }

  lemma AllDrainedOk(cs: seq<Consumer>, k: nat, n: nat, segs: seq<Seg>)
    requires ConsumersOk(cs, segs) && k < |cs|
    ensures ConsumersOk(cs[k := Drained(cs[k], n)], segs)
  {
    DrainedOk(cs[k], n, segs);
    hide ConsumerOk, Drained;
  }

  lemma AllMarkedOk(cs: seq<Consumer>, p: fd, noUnsol: bool, segs: seq<Seg>)
    requires ConsumersOk(cs, segs)
    ensures ConsumersOk(Marked(cs, p, noUnsol), segs)
  {
    hide Picked, Marked;
  }

  lemma FewerOk(cs: seq<Consumer>, p: fd, segs: seq<Seg>)
    requires ConsumersOk(cs, segs)
    ensures ConsumersOk(WithoutFirst(cs, HasFd(p)), segs)
  {
    hide ConsumerOk;
  }

  lemma ConnectorOk(l: Line, e: Event)
    requires Inv(l)
    ensures Inv(l.(ch := Connector(l.ch, e)))
  {
    var cs, segs := l.ch.consumers, l.h.segs;
    match e {
      case ConsumerAdded(p, noUnsol) => assert ConsumerOk(Consumer(p, noUnsol, B.Empty(), [], []), segs);
      case ConsumerRemoved(p) => FewerOk(cs, p, segs);
      case ConsumerReads(k, n) =>
        if k < |cs| {
          AllDrainedOk(cs, k, n, segs);
        }
      case Flagged(p, noUnsol) => AllMarkedOk(cs, p, noUnsol, segs);
      case _ =>
    }
    hide ConsumerOk, Conserved, AllSentOk, Drained, Marked, WithoutFirst;
  }

  lemma StepOk(l: Line, e: Event, now: nat)
    requires Inv(l)
    ensures Inv(Step(l, e, now))
  {
    hide Inv, HostRead, RadioByte, Tick, TurnCheck, RouteFlush, OwnTimeout, CivAgain, KeyerState, Connector;
    match e {
      case Host(p, bytes, v, setup, frames) => HostOk(l, p, bytes, v, setup, frames, now);
      case Radio(b, i) => RadioByteOk(l, b, i, now);
      case Ticked(i, quiet) => TickOk(l, i, quiet, now);
      case TurnTimer(v, waiting) => TurnCheckOk(l, v, waiting, now);
      case RouteTimer => FlushKeeps(l, RouteDefault(l.na));
      case OwnTimer(v) => TimeoutOk(l, v, now);
      case ResendTimer(v, lost) => AgainOk(l, v, lost, now);
      case Keyer(p) => KeyerKeeps(l, p, now);
      case _ => ConnectorOk(l, e);
    }
  }

  lemma FlushKeeps(l: Line, dest: Dest)
    requires Inv(l)
    ensures Inv(RouteFlush(l, dest))
  {
    FlushOk(l, dest);
    hide Base, RouteFlush;
  }

  lemma TimeoutOk(l: Line, v: View, now: nat)
    requires Inv(l)
    ensures Inv(OwnTimeout(l, v, now))
  {
    OwnEndOk(l, now);
    hide Base, OwnEnd;
  }

  lemma KeyerKeeps(l: Line, p: Option<Protocol>, now: nat)
    requires Inv(l)
    ensures Inv(KeyerState(l, p, now))
  {
    hide Base, KeyerState;
    KeyerOk(l, p, now);
  }

  lemma {:induction false} RunOk(l: Line, es: seq<(Event, nat)>)
    requires Inv(l)
    ensures Inv(Run(l, es))
    decreases |es|
  {
    hide Inv, Step;
    if es != [] {
      StepOk(l, es[0].0, es[0].1);
      RunOk(Step(l, es[0].0, es[0].1), es[1..]);
    }
  }
}
