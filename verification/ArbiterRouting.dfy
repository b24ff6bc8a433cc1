/** How long applications wait for an own query, and where one radio frame goes. */
module ArbiterRouting {
  import opened Cat
  import opened SeqFacts
  import opened Arbiter
  import opened ArbiterRuns
  import opened ArbiterSafety
  import opened Wrappers

  // ----- Own queries -----

  /** An answer, acknowledge or rejection of an own query. */
  predicate IsOwnAnswer(f: RadioFrame) {
    f.own && f.kind != Echo
  }

  predicate HasOwnAnswer(fs: seq<RadioFrame>) {
    exists i | 0 <= i < |fs| :: IsOwnAnswer(fs[i])
  }

  lemma {:induction false} FramesHold(l: Line, fs: seq<RadioFrame>, now: nat)
    requires l.na.ownActive && !HasOwnAnswer(fs)
    ensures OnFrames(l, fs, now).na.ownActive
    decreases |fs|
  {
    if fs != [] {
      assert !IsOwnAnswer(fs[0]);
      assert forall i | 0 <= i < |fs[1..]| :: fs[1..][i] == fs[i + 1];
      FramesHold(OnFrame(l, fs[0], now), fs[1..], now);
    }
  }

  lemma FeedHolds(l: Line, fs: seq<RadioFrame>, now: nat)
    requires l.na.ownActive && !HasOwnAnswer(fs)
    ensures Feed(l, None, fs, now).na.ownActive
  {
    hide OnFrames, HasOwnAnswer;
    FramesHold(l, fs, now);
  }

  lemma CollectLeaves(l: Line, b: byte)
    ensures Collect(l, b).na.ownActive == l.na.ownActive
  {
    hide GiveAll;
  }

  lemma RouteHolds(l: Line, i: RadioInput, now: nat)
    ensures Route(l, i, now).na.ownActive == l.na.ownActive
  {
    var l1 := if l.na.route.dest.Some? then RouteFlush(l, l.na.route.dest.value) else l;
    assert l1.na.ownActive == l.na.ownActive by {
      hide GiveAll;
    }
    AgainHolds(l1, i.v, i.lost, now);
    hide RouteFlush, CivAgain;
  }

  lemma CheckHolds(l: Line, v: View, waiting: set<fd>, now: nat)
    ensures TurnCheck(l, v, waiting, now).na.ownActive == l.na.ownActive
  {
    hide NextWaiting, TurnBusy, Fresh, TurnStart, TurnEnds, TurnOver;
    if l.na.turn.conn.Some? {
      OverGives(l, v, waiting, now);
    }
  }

  lemma AfterHolds(l: Line, i: RadioInput, now: nat)
    requires l.na.ownActive
    ensures AfterByte(l, i, now).na.ownActive
  {
    CheckHolds(l, i.v, i.waiting, now);
    hide TurnCheck, OwnSend, OwnCatOn;
  }

  lemma RadioHolds(l: Line, b: byte, i: RadioInput, now: nat)
    requires l.na.ownActive && i.setup == None && !HasOwnAnswer(i.frames)
    ensures RadioByte(l, b, i, now).na.ownActive
  {
    ArriveLeaves(l, b);
    var l0 := Arrive(l, b);
    var l1 := l0.(na := l0.na.(answered := false));
    hide Arrive, Collect, Feed, Route, AfterByte, RouteCheck, HasOwnAnswer;
    if !l1.na.route.on {
      FeedHolds(l1, i.frames, now);
      AfterHolds(Feed(l1, None, i.frames, now), i, now);
    } else {
      CollectLeaves(l1, b);
      FeedHolds(Collect(l1, b), i.frames, now);
      var l2 := Feed(Collect(l1, b), None, i.frames, now);
      RouteHolds(l2, i, now);
      AfterHolds(Route(l2, i, now), i, now);
      CheckLeaves(AfterByte(Route(l2, i, now), i, now), i.atEnd);
    }
  }

  lemma CheckLeaves(l: Line, v: View)
    ensures RouteCheck(l, v).na.ownActive == l.na.ownActive
  {
    StopSame(l);
    hide RouteStop, RemovedBusy;
  }

  lemma TickHolds(l: Line, i: RadioInput, quiet: bool, now: nat)
    requires Inv(l) && l.na.ownActive && i.setup == None && !HasOwnAnswer(i.frames)
    ensures Tick(l, i, quiet, now).na.ownActive
  {
    FramesKeep(l, i.frames, now);
    FeedSame(l, i.frames, now);
    FramesHold(l, i.frames, now);
    var l1 := OnFrames(l, i.frames, now);
    FlagsOk(l1, now);
    StopSame(MultiFlags(l1, now));
    CheckLeaves(MultiFlags(l1, now), i.v);
    CheckLeaves(MultiUpdate(l1, i.v, now), i.v);
    hide OnFrames, Base, MultiFlags, RouteCheck, RouteStart, Setup, OwnTry, HasOwnAnswer;
  }

  /**
   * The applications wait for an own query until it is answered, or timed out with no answer
   * coming in, or the decoder starts over; nothing else lets them go on.
   */
  lemma OwnQueryEnds(l: Line, e: Event, now: nat)
    requires Inv(l) && l.na.ownActive && !Step(l, e, now).na.ownActive
    ensures
      || Resets(e)
      || (e.OwnTimer? && 0 !in e.v.answering)
      || (e.Radio? && HasOwnAnswer(e.i.frames))
      || (e.Ticked? && HasOwnAnswer(e.i.frames))
  {
    hide Inv, HasOwnAnswer, RadioByte, Tick, TurnCheck, RouteFlush, CivAgain, KeyerState, Connector;
    if !Resets(e) {
      match e {
        case Host(p, bytes, v, setup, frames) => HeldIsNotRead(l, p, bytes, v, setup, frames, now);
        case Radio(b, i) =>
          if !HasOwnAnswer(i.frames) {
            RadioHolds(l, b, i, now);
          }
        case Ticked(i, quiet) =>
          if !HasOwnAnswer(i.frames) {
            TickHolds(l, i, quiet, now);
          }
        case TurnTimer(v, waiting) => CheckHolds(l, v, waiting, now);
        case RouteTimer => StopSame(l);
        case ResendTimer(v, lost) => AgainHolds(l, v, lost, now);
        case _ =>
      }
    }
  }

  lemma HeldIsNotRead(l: Line, p: fd, bytes: seq<byte>, v: View, setup: Option<Protocol>, fs: seq<RadioFrame>, now: nat)
    requires Inv(l) && l.na.ownActive
    ensures HostRead(l, p, bytes, v, setup, fs, now) == l
  {
    hide MultiUpdate, TakeTurn, Feed, ClientOf;
  }

  lemma AgainHolds(l: Line, v: View, c: Option<Lost>, now: nat)
    ensures CivAgain(l, v, c, now).na.ownActive == l.na.ownActive
  {
  }

  // ----- The frames of one radio byte -----

  /** Nothing more is delivered, and routing goes on. */
  predicate NoMore(l: Line, m: Line) {
    m.h.segs == l.h.segs && m.na.route.buf == l.na.route.buf && m.na.route.on == l.na.route.on
  }

  lemma SendNoMore(l: Line, i: RadioInput, now: nat)
    requires Inv(l) && l.na.route.on
    ensures NoMore(l, OwnTry(l, i.due, i.afterTurn, now))
  {
    hide ConsumersOk, Conserved, AllSentOk, OnFrames;
    if FreeForOwn(l, i.afterTurn) && i.due.Some? && l.ch.up && i.due.value.room {
      var d := i.due.value;
      var src := if d.catOn then CatOn else OwnQuery;
      LogOk(l, src, d.bytes, i.afterTurn.pending);
      if d.catOn {
        FramesOk(Log(l, src, d.bytes, i.afterTurn.pending), d.frames, now);
      } else {
        var l1 := Hold(Log(l, src, d.bytes, i.afterTurn.pending), true);
        assert Base(l1.(na := l1.na.(ownActive := true)));
        FramesOk(l1.(na := l1.na.(ownActive := true)), d.frames, now);
      }
    }
  }

  lemma TurnNoMore(l: Line, i: RadioInput, now: nat)
    ensures NoMore(l, TurnCheck(l, i.v, i.waiting, now))
  {
    hide NextWaiting, TurnBusy, Fresh, TurnStart, TurnEnds, TurnOver;
    if l.na.turn.conn.Some? {
      OverGives(l, i.v, i.waiting, now);
    }
  }

  lemma AfterNoMore(l: Line, i: RadioInput, now: nat)
    requires Inv(l) && l.na.route.on
    ensures NoMore(l, AfterByte(l, i, now))
  {
    TurnNoMore(l, i, now);
    TurnCheckOk(l, i.v, i.waiting, now);
    hide Inv, TurnCheck, OwnTry;
    SendNoMore(TurnCheck(l, i.v, i.waiting, now), i, now);
  }

  /** Routing goes on, or it ends, and what is held goes to all. */
  lemma CheckEnds(l: Line, v: View)
    requires l.na.route.on
    ensures var m := RouteCheck(l, v);
            || (m.na.route.on && NoMore(l, m))
            || (!m.na.route.on && m.na.route.buf == []
                && m.h.segs == if l.na.route.buf == [] then l.h.segs else l.h.segs + [Seg(l.na.route.buf, All)])
  {
    hide RemovedBusy, GiveAll;
  }

  /** Where a frame goes, if it decides. */
  function DestOf(l: Line, f: RadioFrame): Dest {
    if f.own then Nobody
    else if IsJam(f.kind) && f.lost && l.na.civResend && l.na.decoder == Civ then Nobody
    else if f.client > 0 && f.client <= |l.na.clients| && l.na.clients[f.client - 1].Some?
    then To(l.na.clients[f.client - 1].value)
    else if f.kind == Unsolicited then Unsol
    else if l.na.turn.conn.Some? then To(l.na.turn.conn.value)
    else All
  }

  /** All answer mhuxd's own queries. */
  predicate AllOwn(fs: seq<RadioFrame>) {
    forall j | 0 <= j < |fs| :: fs[j].own
  }

  /** Of several frames, the last one that is not mhuxd's own decides. */
  predicate Decides(fs: seq<RadioFrame>, k: int) {
    0 <= k < |fs| && !fs[k].own && AllOwn(fs[k + 1..])
  }

  /** The destination that the frames leave behind. */
  function Aim(l: Line, d: Option<Dest>, fs: seq<RadioFrame>): Option<Dest>
    decreases |fs|
  {
    if fs == [] then d else Aim(l, if fs[0].own && d.Some? then d else Some(DestOf(l, fs[0])), fs[1..])
  }

  /** What destinations depend on. */
  predicate SameAim(l: Line, m: Line) {
    && m.na.clients == l.na.clients && m.na.turn.conn == l.na.turn.conn
    && m.na.decoder == l.na.decoder && m.na.civResend == l.na.civResend
  }

  lemma {:induction false} AimAlike(l: Line, m: Line, d: Option<Dest>, fs: seq<RadioFrame>)
    requires SameAim(l, m)
    ensures Aim(m, d, fs) == Aim(l, d, fs)
    decreases |fs|
  {
    if fs != [] {
      AimAlike(l, m, if fs[0].own && d.Some? then d else Some(DestOf(l, fs[0])), fs[1..]);
    }
  }

  lemma FrameAims(l: Line, f: RadioFrame, now: nat)
    requires Base(l)
    ensures var m := OnFrame(l, f, now);
            && SameAim(l, m)
            && m.na.route.dest == if f.own && l.na.route.dest.Some? then l.na.route.dest else Some(DestOf(l, f))
  {
    FrameOk(l, f, now);
    hide Base, IsJam;
    if f.own {
      OwnEndLeaves(if IsJam(f.kind) then l else l.(na := l.na.(frameDone := true)), now);
      hide OwnEnd;
    }
  }

  lemma OwnEndLeaves(l: Line, now: nat)
    ensures OwnEnd(l, now).na.route == l.na.route
  {
  }

  lemma {:induction false} FramesAim(l: Line, fs: seq<RadioFrame>, now: nat)
    requires Base(l)
    ensures OnFrames(l, fs, now).na.route.dest == Aim(l, l.na.route.dest, fs)
    decreases |fs|
  {
    if fs != [] {
      var m := OnFrame(l, fs[0], now);
      FrameAims(l, fs[0], now);
      FrameOk(l, fs[0], now);
      hide Base, OnFrame, SameAim, DestOf;
      FramesAim(m, fs[1..], now);
      AimAlike(l, m, m.na.route.dest, fs[1..]);
    }
  }

  lemma {:induction false} OwnAim(l: Line, d: Dest, fs: seq<RadioFrame>)
    requires AllOwn(fs)
    ensures Aim(l, Some(d), fs) == Some(d)
    decreases |fs|
  {
    if fs != [] {
      assert fs[0].own;
      assert AllOwn(fs[1..]);
      OwnAim(l, d, fs[1..]);
    }
  }

  lemma {:induction false} DeciderAims(l: Line, d: Option<Dest>, fs: seq<RadioFrame>, k: int)
    requires Decides(fs, k)
    ensures Aim(l, d, fs) == Some(DestOf(l, fs[k]))
    decreases |fs|
  {
    hide DestOf;
    var d1 := if fs[0].own && d.Some? then d else Some(DestOf(l, fs[0]));
    if k == 0 {
      OwnAim(l, d1.value, fs[1..]);
    } else {
      assert fs[1..][k..] == fs[k + 1..];
      DeciderAims(l, d1, fs[1..], k - 1);
    }
  }

  lemma DecidersAim(l: Line, fs: seq<RadioFrame>)
    ensures forall k | Decides(fs, k) :: Aim(l, None, fs) == Some(DestOf(l, fs[k]))
    ensures fs != [] && AllOwn(fs) ==> Aim(l, None, fs) == Some(Nobody)
    ensures fs == [] ==> Aim(l, None, fs) == None
  {
    forall k | Decides(fs, k)
      ensures Aim(l, None, fs) == Some(DestOf(l, fs[k]))
    {
      DeciderAims(l, None, fs, k);
    }
    if fs != [] && AllOwn(fs) {
      assert fs[0].own;
      OwnAim(l, Nobody, fs[1..]);
    }
  }

  /** The held data, b included, is delivered to dest as one segment; a full buffer went before. */
  predicate Routed(l: Line, b: byte, m: Line, dest: Dest) {
    m.na.route.buf == [] && m.h.segs == SegsOf(l) + [Seg(HeldOf(l) + [b], dest)]
  }

  predicate BufferFull(l: Line) {
    |l.na.route.buf| == ROUTE_MAX
  }

  /** The segments once there is room for one more byte. */
  function SegsOf(l: Line): seq<Seg> {
    if BufferFull(l) then l.h.segs + [Seg(l.na.route.buf, RouteDefault(l.na))] else l.h.segs
  }

  function HeldOf(l: Line): seq<byte> {
    if BufferFull(l) then [] else l.na.route.buf
  }

  lemma CollectHeld(l: Line, b: byte)
    requires l.ch.intercept
    ensures var l0 := Arrive(l, b);
            var m := Collect(l0.(na := l0.na.(answered := false)), b);
            && m.h.segs == SegsOf(l) && m.na.route.buf == HeldOf(l) + [b] && m.na.route.dest == None
            && m.na.route.on == l.na.route.on && SameAim(l, m)
  {
    hide GiveAll;
  }

  lemma CollectedInv(l: Line, b: byte)
    requires Inv(l) && l.na.route.on
    ensures var l0 := Arrive(l, b);
            Inv(Collect(l0.(na := l0.na.(answered := false)), b))
  {
    CollectedOk(l, b);
    AnsweredApart(Arrive(l, b), b);
    hide ConsumersOk, Conserved, AllSentOk, Collect, Arrive;
  }

  lemma RouteDelivers(l: Line, i: RadioInput, now: nat)
    requires l.na.route.buf != []
    ensures var m := Route(l, i, now);
            && m.na.route.on == l.na.route.on
            && m.na.route.buf == (if l.na.route.dest.Some? then [] else l.na.route.buf)
            && m.h.segs == if l.na.route.dest.Some? then l.h.segs + [Seg(l.na.route.buf, l.na.route.dest.value)]
                           else l.h.segs
  {
    hide GiveAll;
  }

  /** What is held, and where the frames of the byte send it. */
  lemma FedAims(l: Line, b: byte, fs: seq<RadioFrame>, now: nat)
    requires Inv(l) && l.na.route.on
    ensures var l0 := Arrive(l, b);
            var m := Feed(Collect(l0.(na := l0.na.(answered := false)), b), None, fs, now);
            && Inv(m) && m.na.route.on && m.h.segs == SegsOf(l) && m.na.route.buf == HeldOf(l) + [b]
            && m.na.route.dest == Aim(l, None, fs)
  {
    ArriveLeaves(l, b);
    CollectHeld(l, b);
    CollectedInv(l, b);
    var l0 := Arrive(l, b);
    var c := Collect(l0.(na := l0.na.(answered := false)), b);
    hide Base, Arrive, Collect, OnFrames, SegsOf, HeldOf, SameAim, Aim;
    FeedOk(c, None, fs, now);
    FramesOk(c, fs, now);
    FramesAim(c, fs, now);
    AimAlike(l, c, None, fs);
  }

  lemma ByteAims(l: Line, b: byte, i: RadioInput, now: nat)
    requires Inv(l) && l.na.route.on && i.setup == None
    ensures var m := RadioByte(l, b, i, now);
            var d := Aim(l, None, i.frames);
            if d.Some? then Routed(l, b, m, d.value)
            else if m.na.route.on then m.na.route.buf == HeldOf(l) + [b] && m.h.segs == SegsOf(l)
            else Routed(l, b, m, All)
  {
    ArriveLeaves(l, b);
    FedAims(l, b, i.frames, now);
    hide Inv, Arrive, Collect, Feed, Route, AfterByte, RouteCheck, SegsOf, HeldOf, Aim;
    var l0 := Arrive(l, b);
    var d := Feed(Collect(l0.(na := l0.na.(answered := false)), b), None, i.frames, now);
    RouteDelivers(d, i, now);
    RouteOk(d, i, now);
    var r := Route(d, i, now);
    AfterNoMore(r, i, now);
    CheckEnds(AfterByte(r, i, now), i.atEnd);
  }

  /**
   * While radio data is routed, the byte that completes frames sends the held data on as one
   * segment. The last of its frames that does not answer an own query decides where: to the
   * connector whose client asked, to all that take them for unsolicited frames, to nobody for
   * a collision after which the lost command is sent again, and otherwise to the one that has
   * the turn, or to all. If all answer own queries, nobody gets it. A byte that completes no
   * frame is held; it goes to all if routing ends with it.
   */
  lemma FrameIsRouted(l: Line, b: byte, i: RadioInput, now: nat)
    requires Inv(l) && l.na.route.on && i.setup == None
    ensures var m := RadioByte(l, b, i, now);
            && (forall k | Decides(i.frames, k) :: Routed(l, b, m, DestOf(l, i.frames[k])))
            && (i.frames != [] && AllOwn(i.frames) ==> Routed(l, b, m, Nobody))
            && (i.frames == [] && m.na.route.on ==> m.na.route.buf == HeldOf(l) + [b] && m.h.segs == SegsOf(l))
            && (i.frames == [] && !m.na.route.on ==> Routed(l, b, m, All))
  {
    ByteAims(l, b, i, now);
    DecidersAim(l, i.frames);
    hide Inv, RadioByte, Routed, DestOf, SegsOf, HeldOf, Decides, AllOwn, Aim;
  }
}
