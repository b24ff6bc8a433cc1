/** What the line arbiter promises: turns, own queries, and radio data. */
module ArbiterSafety {
  import opened Cat
  import opened SeqFacts
  import opened Arbiter
  import opened ArbiterRuns
  import B = Buffers
  import opened Wrappers

  // ----- Safety -----

  lemma CreatedOk(civResend: bool)
    ensures Inv(Create(civResend))
  {
  }

  /**
   * In every reachable state the router reads from whom the arbiter gave the turn to, holds the
   * connectors back exactly while an own query is in flight, and intercepts radio data exactly
   * while it is routed. So no connector's data ever entered the channel while another one had
   * the turn, or while an own query waited for its answer; and an own query only entered while
   * no command was pending, and nobody had the turn or its holder had not sent anything yet.
   */
  lemma ArbitrationIsSafe(civResend: bool, es: seq<(Event, nat)>)
    ensures var l := Run(Create(civResend), es);
            && l.ch.turn == l.na.turn.conn && l.ch.hold == l.na.ownActive && l.ch.intercept == l.na.route.on
            && (l.na.multi ==> l.na.route.on)
            && forall i | 0 <= i < |l.h.sends| ::
                 var s := l.h.sends[i];
                 && (s.src.App? ==> !s.ownActive && (s.turn == None || s.turn == Some(s.src.conn)))
                 && (s.src.OwnQuery? || s.src.CatOn? ==>
                     !s.ownActive && !s.pending && (s.turn == None || s.freshTurn))
  {
    hide Run;
    CreatedOk(civResend);
    RunOk(Create(civResend), es);
    var l := Run(Create(civResend), es);
    forall i | 0 <= i < |l.h.sends|
      ensures SentOk(l.h.sends[i])
    {
    }
  }

  // ----- Radio data -----

  /** a is what is left of b when some bytes are taken out. */
  predicate Sub(a: seq<byte>, b: seq<byte>)
    decreases |b|
  {
    || a == []
    || (b != [] && (Sub(a, b[..|b| - 1])
                    || (a[|a| - 1] == b[|b| - 1] && Sub(a[..|a| - 1], b[..|b| - 1]))))
  }

  lemma {:induction false} SubGrows(a: seq<byte>, b: seq<byte>, c: seq<byte>)
    requires Sub(a, b)
    ensures Sub(a, b + c) && Sub(a + c, b + c)
    decreases |c|
  {
    if c == [] {
      assert a + c == a && b + c == b;
    } else {
      var n := |c| - 1;
      SubGrows(a, b, c[..n]);
      assert (b + c)[..|b + c| - 1] == b + c[..n] && (a + c)[..|a + c| - 1] == a + c[..n];
    }
  }

  predicate Rises(got: seq<nat>, n: nat) {
    (forall i | 0 <= i < |got| :: got[i] < n) && forall i, j | 0 <= i < j < |got| :: got[i] < got[j]
  }

  lemma {:induction false} PickedPrefix(segs: seq<Seg>, n: nat, got: seq<nat>)
    requires n <= |segs| && forall i | 0 <= i < |got| :: got[i] < n
    ensures Picked(segs[..n], got) == Picked(segs, got)
    decreases |got|
  {
    if got != [] {
      PickedPrefix(segs, n, got[..|got| - 1]);
    }
  }

  lemma EmptyIsSub(b: seq<byte>)
    ensures Sub([], b)
  {
  }

  lemma {:induction false} PickedIsSub(segs: seq<Seg>, got: seq<nat>)
    requires Rises(got, |segs|)
    ensures Sub(Picked(segs, got), Flat(segs))
    decreases |segs|
  {
    hide Sub;
    EmptyIsSub(Flat(segs));
    if segs != [] && got != [] {
      var n, last := |segs| - 1, |got| - 1;
      if got[last] == n {
        PickedIsSub(segs[..n], got[..last]);
        PickedPrefix(segs, n, got[..last]);
        SubGrows(Picked(segs, got[..last]), Flat(segs[..n]), segs[n].bytes);
      } else {
        PickedIsSub(segs[..n], got);
        PickedPrefix(segs, n, got);
        SubGrows(Picked(segs, got), Flat(segs[..n]), segs[n].bytes);
      }
    }
  }

  /**
   * Over any run, with routing started and stopped at any time: every radio byte had its
   * delivery decided exactly once and in order, or is still held, at most 256 bytes of them; and
   * what a connector's application took and can still take is what the radio sent, with some
   * whole segments left out.
   */
  lemma RadioDataIsConserved(civResend: bool, es: seq<(Event, nat)>)
    ensures var l := Run(Create(civResend), es);
            && Flat(l.h.segs) + l.na.route.buf == l.h.radio && |l.na.route.buf| <= ROUTE_MAX
            && (!l.na.route.on ==> Flat(l.h.segs) == l.h.radio)
            && forall i | 0 <= i < |l.ch.consumers| ::
                 var c := l.ch.consumers[i];
                 && Rises(c.got, |l.h.segs|)
                 && c.read + c.buf.bytes == Picked(l.h.segs, c.got)
                 && Sub(c.read + c.buf.bytes, l.h.radio)
  {
    hide Run, Flat, Picked, Sub;
    CreatedOk(civResend);
    RunOk(Create(civResend), es);
    var l := Run(Create(civResend), es);
    assert Flat(l.h.segs) + [] == Flat(l.h.segs);
    forall i | 0 <= i < |l.ch.consumers|
      ensures var c := l.ch.consumers[i];
              && Rises(c.got, |l.h.segs|)
              && c.read + c.buf.bytes == Picked(l.h.segs, c.got)
              && Sub(c.read + c.buf.bytes, l.h.radio)
    {
      assert ConsumerOk(l.ch.consumers[i], l.h.segs);
      PickedIsSub(l.h.segs, l.ch.consumers[i].got);
      SubGrows(Picked(l.h.segs, l.ch.consumers[i].got), Flat(l.h.segs), l.na.route.buf);
    }
  }

  // ----- Turns -----

  /** The turn is the same one; its time may have started again. */
  predicate SameTurn(l: Line, m: Line, now: nat) {
    && m.na.turn.conn == l.na.turn.conn && m.na.turn.client == l.na.turn.client && m.na.turn.unread == l.na.turn.unread
    && m.ch.producers == l.ch.producers && m.na.decoder == l.na.decoder
    && (m.na.turn.t == l.na.turn.t || m.na.turn.t == now) && m.h.discarded == l.h.discarded
  }

  lemma FeedSame(l: Line, fs: seq<RadioFrame>, now: nat)
    requires Inv(l)
    ensures SameTurn(l, Feed(l, None, fs, now), now) && Feed(l, None, fs, now).na.multi == l.na.multi
    ensures l.na.decoder != NoDecoder ==> SameTurn(l, OnFrames(l, fs, now), now)
  {
    FramesOk(l, fs, now);
    hide Base, OnFrames;
  }

  lemma AgainSame(l: Line, v: View, c: Option<Lost>, now: nat)
    ensures SameTurn(l, CivAgain(l, v, c, now), now) && CivAgain(l, v, c, now).na.multi == l.na.multi
  {
  }

  lemma MultiSame(l: Line, v: View, now: nat)
    requires Inv(l) && l.na.decoder != NoDecoder
    ensures SameTurn(l, MultiUpdate(l, v, now), now)
    ensures MultiUpdate(l, v, now).na.multi == (|l.ch.producers| > 1)
  {
    FlagsOk(l, now);
    StopSame(MultiFlags(l, now));
    hide Base, MultiFlags, RouteStart, RouteStop;
  }

  lemma OwnTrySame(l: Line, d: Option<Due>, v: View, now: nat)
    requires Inv(l)
    ensures SameTurn(l, OwnTry(l, d, v, now), now) && OwnTry(l, d, v, now).na.multi == l.na.multi
  {
    hide ConsumersOk, Conserved, AllSentOk, OnFrames;
    if FreeForOwn(l, v) && d.Some? && l.ch.up && d.value.room {
      var l1 := Log(l, if d.value.catOn then CatOn else OwnQuery, d.value.bytes, v.pending);
      LogOk(l, if d.value.catOn then CatOn else OwnQuery, d.value.bytes, v.pending);
      if d.value.catOn {
        FramesOk(l1, d.value.frames, now);
      } else {
        var l2 := Hold(l1, true);
        var l2' := l2.(na := l2.na.(ownActive := true));
        StartOk(l2');
        StopSame(l2');
        hide RouteStart, Linked;
        FramesOk(RouteStart(l2'), d.value.frames, now);
      }
    }
  }

  /** The state in which a radio byte's turn check is made. */
  function BeforeCheck(l: Line, b: byte, i: RadioInput, now: nat): Line {
    var l0 := Arrive(l, b);
    var l1 := l0.(na := l0.na.(answered := false));
    if !l1.na.route.on then Feed(l1, i.setup, i.frames, now)
    else Route(Feed(Collect(l1, b), i.setup, i.frames, now), i, now)
  }

  lemma BeforeCheckOk(l: Line, b: byte, i: RadioInput, now: nat)
    requires Inv(l)
    ensures var m := BeforeCheck(l, b, i, now);
            && Inv(m)
            && RadioByte(l, b, i, now) ==
               if l.na.route.on then RouteCheck(AfterByte(m, i, now), i.atEnd) else AfterByte(m, i, now)
  {
    ArriveLeaves(l, b);
    var l0 := Arrive(l, b);
    var l1 := l0.(na := l0.na.(answered := false));
    if !l.na.route.on {
      PassedOk(l, b);
      assert Inv(l1);
      hide Inv, Arrive, Feed, AfterByte;
      FeedOk(l1, i.setup, i.frames, now);
    } else {
      CollectedOk(l, b);
      AnsweredApart(l0, b);
      assert Inv(Collect(l1, b)) by {
        hide ConsumersOk, Conserved, AllSentOk, Collect, Arrive;
      }
      hide Inv, Arrive, Collect, Feed, AfterByte, Route, RouteCheck;
      FeedOk(Collect(l1, b), i.setup, i.frames, now);
      RouteOk(Feed(Collect(l1, b), i.setup, i.frames, now), i, now);
    }
  }

  lemma RouteSame(l: Line, i: RadioInput, now: nat)
    ensures SameTurn(l, Route(l, i, now), now) && Route(l, i, now).na.multi == l.na.multi
  {
    StopSame(l);
    hide RouteFlush, CivAgain;
    var l1 := if l.na.route.dest.Some? then RouteFlush(l, l.na.route.dest.value) else l;
    AgainSame(l1, i.v, i.lost, now);
  }

  lemma CollectSame(l: Line, b: byte, now: nat)
    ensures SameTurn(l, Collect(l, b), now) && Collect(l, b).na.multi == l.na.multi
  {
    hide GiveAll;
  }

  lemma ArriveSame(l: Line, b: byte, now: nat)
    ensures SameTurn(l, Arrive(l, b), now)
  {
    hide GiveAll;
  }

  lemma BeforeCheckSame(l: Line, b: byte, i: RadioInput, now: nat)
    requires Inv(l) && i.setup == None
    ensures SameTurn(l, BeforeCheck(l, b, i, now), now) && BeforeCheck(l, b, i, now).na.multi == l.na.multi
  {
    ArriveLeaves(l, b);
    ArriveSame(l, b, now);
    var l0 := Arrive(l, b);
    var l1 := l0.(na := l0.na.(answered := false));
    if !l.na.route.on {
      PassedOk(l, b);
      assert Inv(l1);
      hide Inv, Arrive, Feed;
      FeedSame(l1, i.frames, now);
    } else {
      CollectedOk(l, b);
      AnsweredApart(l0, b);
      assert Inv(Collect(l1, b)) by {
        hide ConsumersOk, Conserved, AllSentOk, Collect, Arrive;
      }
      hide Inv, Arrive, Collect, Feed, Route;
      CollectSame(l1, b, now);
      FeedSame(Collect(l1, b), i.frames, now);
      RouteSame(Feed(Collect(l1, b), None, i.frames, now), i, now);
    }
  }

  lemma AfterSame(l: Line, i: RadioInput, now: nat)
    requires Inv(l)
    ensures SameTurn(TurnCheck(l, i.v, i.waiting, now), AfterByte(l, i, now), now)
    ensures AfterByte(l, i, now).na.multi == TurnCheck(l, i.v, i.waiting, now).na.multi
  {
    hide Inv, TurnCheck, OwnTry;
    TurnCheckOk(l, i.v, i.waiting, now);
    OwnTrySame(TurnCheck(l, i.v, i.waiting, now), i.due, i.afterTurn, now);
  }

  lemma CheckSame(l: Line, v: View, now: nat)
    ensures SameTurn(l, RouteCheck(l, v), now) && RouteCheck(l, v).na.multi == l.na.multi
  {
    StopSame(l);
    hide RouteStop, RemovedBusy;
  }

  /** The decoder is replaced or lost: nobody has the line afterwards. */
  predicate Resets(e: Event) {
    match e
    case Host(_, _, _, setup, _) => setup.Some?
    case Radio(_, i) => i.setup.Some?
    case Ticked(i, _) => i.setup.Some?
    case Keyer(_) => true
    case _ => false
  }

  predicate ChecksTurn(e: Event) {
    e.Radio? || e.TurnTimer?
  }

  function ViewOf(e: Event): View
    requires ChecksTurn(e)
  {
    if e.Radio? then e.i.v else e.v
  }

  function WaitingOf(e: Event): set<fd>
    requires ChecksTurn(e)
  {
    if e.Radio? then e.i.waiting else e.waiting
  }

  /** The state in which the event's turn check is made. */
  function Before(l: Line, e: Event, now: nat): Line {
    if e.Radio? then BeforeCheck(l, e.b, e.i, now) else l
  }

  lemma CheckedStep(l: Line, e: Event, now: nat)
    requires Inv(l) && ChecksTurn(e) && !Resets(e)
    ensures var m := Before(l, e, now);
            && Inv(m) && SameTurn(l, m, now) && m.na.multi == l.na.multi
            && SameTurn(TurnCheck(m, ViewOf(e), WaitingOf(e), now), Step(l, e, now), now)
            && Step(l, e, now).na.multi == TurnCheck(m, ViewOf(e), WaitingOf(e), now).na.multi
  {
    hide Inv, TurnCheck, BeforeCheck, AfterByte, RouteCheck, RadioByte;
    if e.Radio? {
      BeforeCheckOk(l, e.b, e.i, now);
      BeforeCheckSame(l, e.b, e.i, now);
      AfterSame(BeforeCheck(l, e.b, e.i, now), e.i, now);
      CheckSame(AfterByte(BeforeCheck(l, e.b, e.i, now), e.i, now), e.i.atEnd, now);
    }
  }

  /** The turn's holder stays, and the connectors with it. */
  predicate SameHolder(l: Line, m: Line) {
    && m.na.turn.conn == l.na.turn.conn && m.ch.producers == l.ch.producers
    && (l.na.multi && |l.ch.producers| > 1 ==> m.na.multi)
  }

  lemma OtherStep(l: Line, e: Event, now: nat)
    requires Inv(l) && !ChecksTurn(e) && !Resets(e) && l.na.turn.conn.Some?
    ensures Step(l, e, now).na.turn.conn == l.na.turn.conn
    ensures !e.ProducerAdded? && !e.ProducerRemoved? ==> SameHolder(l, Step(l, e, now))
  {
    assert l.na.decoder != NoDecoder && Base(l);
    hide Inv, Base, HostRead, Tick, RouteFlush, OwnTimeout, CivAgain, KeyerState, Connector, SameHolder, RouteDefault;
    match e {
      case Host(p, bytes, v, setup, frames) => HostSame(l, p, bytes, v, frames, now);
      case Ticked(i, quiet) => TickSame(l, i, quiet, now);
      case RouteTimer => FlushSame(l, RouteDefault(l.na));
      case OwnTimer(v) => TimeoutSame(l, v, now);
      case ResendTimer(v, lost) => AgainHolds(l, v, lost, now);
      case _ => ConnectorSame(l, e);
    }
    HolderIs(l, Step(l, e, now));
  }

  lemma HolderIs(l: Line, m: Line)
    ensures SameHolder(l, m) ==> m.na.turn.conn == l.na.turn.conn
  {
  }

  lemma FlushSame(l: Line, dest: Dest)
    ensures SameHolder(l, RouteFlush(l, dest))
  {
    StopSame(l);
    hide RouteFlush;
  }

  lemma TimeoutSame(l: Line, v: View, now: nat)
    requires Base(l)
    ensures SameHolder(l, OwnTimeout(l, v, now))
  {
    OwnEndOk(l, now);
    hide Base, OwnEnd;
  }

  lemma AgainHolds(l: Line, v: View, c: Option<Lost>, now: nat)
    ensures SameHolder(l, CivAgain(l, v, c, now))
  {
    AgainSame(l, v, c, now);
    hide CivAgain;
  }

  lemma ConnectorSame(l: Line, e: Event)
    ensures l.(ch := Connector(l.ch, e)).na == l.na
    ensures !e.ProducerAdded? && !e.ProducerRemoved? ==> SameHolder(l, l.(ch := Connector(l.ch, e)))
  {
    hide Drained, Marked, WithoutFirst;
  }

  lemma HostSame(l: Line, p: fd, bytes: seq<byte>, v: View, fs: seq<RadioFrame>, now: nat)
    requires Inv(l) && l.na.decoder != NoDecoder && l.na.turn.conn.Some?
    ensures var m := HostRead(l, p, bytes, v, None, fs, now);
            SameHolder(l, m)
  {
    if MayRead(l.ch, p) {
      LogOk(l, App(p), bytes, v.pending);
      var l0 := Log(l, App(p), bytes, v.pending);
      MultiKeeps(l0, v, now);
      MultiSame(l0, v, now);
      var l1 := MultiUpdate(l0, v, now);
      hide MultiUpdate, Feed, Inv, ClientOf;
      TakeTurnOk(l1, p, now);
      ClientKeeps(TakeTurn(l1, p, now), p);
      ClientSame(TakeTurn(l1, p, now), p);
      FeedSame(ClientOf(TakeTurn(l1, p, now), p).0, fs, now);
    }
  }

  lemma ClientSame(l: Line, p: fd)
    ensures var m := ClientOf(l, p).0;
            m == l.(na := l.na.(clients := m.na.clients))
  {
  }

  lemma TickSame(l: Line, i: RadioInput, quiet: bool, now: nat)
    requires Inv(l) && l.na.decoder != NoDecoder && i.setup == None
    ensures var m := Tick(l, i, quiet, now);
            SameHolder(l, m)
  {
    FramesKeep(l, i.frames, now);
    FeedSame(l, i.frames, now);
    var l1 := OnFrames(l, i.frames, now);
    hide OnFrames, Feed, Inv, MultiUpdate, RouteCheck, OwnTry;
    MultiKeeps(l1, i.v, now);
    MultiSame(l1, i.v, now);
    CheckKeeps(MultiUpdate(l1, i.v, now), i.v);
    CheckSame(MultiUpdate(l1, i.v, now), i.v, now);
    OwnTrySame(RouteCheck(MultiUpdate(l1, i.v, now), i.v), i.due, i.afterTurn, now);
  }

  lemma NextIsAnother(ps: seq<fd>, p: fd, waiting: set<fd>)
    ensures var next := NextWaiting(ps, p, waiting);
            && (next.Some? ==> next.value != p && next.value in waiting && next.value in ps)
            && (next.None? ==> forall q | q in ps && q != p :: q !in waiting)
  {
    var i := First(ps, Is(p));
    var rest := if i < |ps| then ps[i + 1..] else [];
    var k := First(rest, WaitsBeside(waiting, p));
    var j := First(ps, WaitsBeside(waiting, p));
    if k < |rest| {
      assert rest[k] == ps[i + 1 + k];
    }
    forall q | q in ps && q != p && q in waiting
      ensures j < |ps|
    {
      var n :| 0 <= n < |ps| && ps[n] == q;
      assert WaitsBeside(waiting, p)(ps[n]);
    }
  }

  lemma GivenTurn(l: Line, p: Option<fd>, freshTurn: bool, now: nat)
    ensures var m := TurnGive(l, p, freshTurn, now);
            && m.h == l.h && m.ch == l.ch.(turn := p)
            && m.na == l.na.(clients := m.na.clients, turn := m.na.turn)
            && m.na.turn == Turn(p, m.na.turn.client, freshTurn, now)
  {
    hide ClientOf;
    if p.Some? {
      ClientSame(l, p.value);
    }
  }

  /** A turn that is over goes to another connector, or to nobody. */
  lemma OverGives(l: Line, v: View, waiting: set<fd>, now: nat)
    requires l.na.turn.conn.Some?
    ensures var m := TurnOver(l, v, waiting, now);
            && m.na.turn.conn ==
               (if l.na.multi then NextWaiting(l.ch.producers, l.na.turn.conn.value, waiting) else None)
            && m.na.turn.conn != l.na.turn.conn && m.ch == l.ch.(turn := m.ch.turn)
            && m.na == l.na.(clients := m.na.clients, turn := m.na.turn)
            && m.h == if TurnBusy(l, v) && !Fresh(l)
                      then l.h.(discarded := l.h.discarded + [l.na.turn.client]) else l.h
  {
    NextIsAnother(l.ch.producers, l.na.turn.conn.value, waiting);
    hide NextWaiting, TurnGive, TurnBusy, Fresh;
    var l1 := if TurnBusy(l, v) && !Fresh(l)
              then l.(h := l.h.(discarded := l.h.discarded + [l.na.turn.client])) else l;
    var next := if l.na.multi then NextWaiting(l.ch.producers, l.na.turn.conn.value, waiting) else None;
    GivenTurn(l1, next, next.Some?, now);
  }

  lemma CheckCloses(l: Line, v: View, waiting: set<fd>, now: nat)
    requires l.na.turn.conn.Some?
    ensures var m := TurnCheck(l, v, waiting, now);
            && (m.na.turn.conn != l.na.turn.conn <==> TurnEnds(l, v, now))
            && m.h == if TurnEnds(l, v, now) && TurnBusy(l, v) && !Fresh(l)
                      then l.h.(discarded := l.h.discarded + [l.na.turn.client]) else l.h
  {
    hide TurnEnds, TurnBusy, Fresh, TurnStart, TurnOver;
    OverGives(l, v, waiting, now);
  }

  lemma EndsAlike(l: Line, m: Line, v: View, now: nat)
    requires SameTurn(l, m, now) && l.na.turn.conn.Some?
    ensures TurnBusy(m, v) == TurnBusy(l, v) && Fresh(m) == Fresh(l)
    ensures TurnEnds(m, v, now) ==> TurnEnds(l, v, now) && (TurnBusy(l, v) ==> now - l.na.turn.t >= TURN_TIMEOUT_MS)
    ensures !TurnEnds(m, v, now) ==> TurnBusy(l, v)
  {
  }

  /**
   * While the decoder stays, a turn closes only at a turn check, and only when its client is not
   * busy any more, or after half a second without its data or an answer; commands that are still
   * pending then are discarded. And a check closes the turn of a client that is not busy; the
   * timer closes a turn exactly then.
   */
  lemma TurnsCloseInTime(l: Line, e: Event, now: nat)
    requires Inv(l) && l.na.turn.conn.Some? && !Resets(e)
    ensures var m := Step(l, e, now);
            var closed := m.na.turn.conn != l.na.turn.conn;
            && (closed ==> ChecksTurn(e) && TurnEnds(l, ViewOf(e), now))
            && (closed && TurnBusy(l, ViewOf(e)) ==> now - l.na.turn.t >= TURN_TIMEOUT_MS)
            && (closed ==>
                  m.h.discarded == if TurnBusy(l, ViewOf(e)) && !Fresh(l)
                                   then l.h.discarded + [l.na.turn.client] else l.h.discarded)
            && (!closed && ChecksTurn(e) ==> TurnBusy(l, ViewOf(e)) && m.h.discarded == l.h.discarded)
            && (e.TurnTimer? ==> (closed <==> TurnEnds(l, e.v, now)))
  {
    hide Inv, Step, Before, TurnCheck, TurnEnds, TurnBusy, Fresh;
    if ChecksTurn(e) {
      CheckedStep(l, e, now);
      var m := Before(l, e, now);
      CheckCloses(m, ViewOf(e), WaitingOf(e), now);
      EndsAlike(l, m, ViewOf(e), now);
      if e.TurnTimer? {
        assert m == l by {
          TimerIsBare(l, e, now);
        }
      }
    } else {
      OtherStep(l, e, now);
    }
  }

  lemma TimerIsBare(l: Line, e: Event, now: nat)
    requires e.TurnTimer?
    ensures Before(l, e, now) == l
  {
  }

  // ----- Bounded waiting -----

  predicate Distinct(ps: seq<fd>) {
    forall i, j | 0 <= i < j < |ps| :: ps[i] != ps[j]
  }

  /** How many places after h the producer w comes, round robin; one that is gone comes before all. */
  function Distance(ps: seq<fd>, h: fd, w: fd): nat {
    var i, j := First(ps, Is(h)), First(ps, Is(w));
    if i == |ps| then j + 1 else if j >= i then j - i else j + |ps| - i
  }

  lemma FirstIs(ps: seq<fd>, i: nat)
    requires Distinct(ps) && i < |ps|
    ensures First(ps, Is(ps[i])) == i
  {
    var k := First(ps, Is(ps[i]));
    assert Is(ps[i])(ps[i]);
    assert k <= i;
  }

  /** The place of the connector that gets the line after the one at place a, while the one at b waits. */
  lemma NextAt(ps: seq<fd>, a: nat, b: nat, waiting: set<fd>) returns (n: nat)
    requires Distinct(ps) && a < |ps| && b < |ps| && a != b && ps[b] in waiting
    ensures n < |ps| && NextWaiting(ps, ps[a], waiting) == Some(ps[n])
    ensures if a < b then a < n <= b else n > a || n <= b
  {
    FirstIs(ps, a);
    assert WaitsBeside(waiting, ps[a])(ps[b]);
    hide Distinct, First, Is, WaitsBeside;
    var rest, p := ps[a + 1..], WaitsBeside(waiting, ps[a]);
    var k, j := First(rest, p), First(ps, p);
    assert NextWaiting(ps, ps[a], waiting)
        == if k < |rest| then Some(rest[k]) else if j < |ps| then Some(ps[j]) else None;
    hide NextWaiting;
    n := NextOf(ps, a, b, p);
  }

  lemma NextOf(ps: seq<fd>, a: nat, b: nat, p: fd -> bool) returns (n: nat)
    requires a < |ps| && b < |ps| && a != b && p(ps[b])
    ensures var k, j := First(ps[a + 1..], p), First(ps, p);
            n < |ps| && ps[n] == if k < |ps[a + 1..]| then ps[a + 1..][k] else ps[j]
    ensures if a < b then a < n <= b && First(ps[a + 1..], p) < |ps[a + 1..]| else n > a || n <= b
    ensures First(ps, p) < |ps|
  {
    hide First;
    var k, j := First(ps[a + 1..], p), First(ps, p);
    FirstUpTo(ps, p, b);
    if b > a {
      assert ps[a + 1..][b - a - 1] == ps[b];
      FirstUpTo(ps[a + 1..], p, b - a - 1);
      n := a + 1 + k;
    } else {
      n := if k < |ps[a + 1..]| then a + 1 + k else j;
    }
  }

  /** The one that gets the line is nearer to every other one that waits. */
  lemma NextIsNearer(ps: seq<fd>, h: fd, w: fd, waiting: set<fd>)
    requires Distinct(ps) && w in ps && h != w && w in waiting
    ensures var next := NextWaiting(ps, h, waiting);
            next.Some? && next.value in ps && Distance(ps, next.value, w) < Distance(ps, h, w)
  {
    hide NextWaiting;
    var b: nat :| b < |ps| && ps[b] == w;
    FirstIs(ps, b);
    if h in ps {
      var a: nat :| a < |ps| && ps[a] == h;
      var n := NextAt(ps, a, b, waiting);
      FirstIs(ps, a);
      FirstIs(ps, n);
      hide First, Distinct;
    } else {
      var n := NextAfterGone(ps, h, b, waiting);
      FirstIs(ps, n);
      hide First, Distinct;
    }
  }

  lemma GoneIsNotFound(ps: seq<fd>, h: fd)
    requires h !in ps
    ensures First(ps, Is(h)) == |ps|
  {
    assert forall k | 0 <= k < |ps| :: !Is(h)(ps[k]);
  }

  /** The turn of a connector that is gone goes to the first one that waits. */
  lemma NextAfterGone(ps: seq<fd>, h: fd, b: nat, waiting: set<fd>) returns (n: nat)
    requires h !in ps && b < |ps| && ps[b] in waiting
    ensures n <= b && NextWaiting(ps, h, waiting) == Some(ps[n])
    ensures First(ps, Is(h)) == |ps|
  {
    var p := WaitsBeside(waiting, h);
    n := First(ps, p);
    assert p(ps[b]);
    GoneIsNotFound(ps, h);
    var none: seq<fd> := [];
    assert First(none, p) == 0;
    hide First;
  }

  /** The connectors and the decoder stay, and w has data waiting whenever a turn is checked. */
  predicate KeepsWaiting(e: Event, w: fd) {
    !Resets(e) && !e.ProducerAdded? && !e.ProducerRemoved? && (ChecksTurn(e) ==> w in WaitingOf(e))
  }

  /** One step: the line stays, or goes to a connector nearer to w. */
  lemma StepBringsNearer(l: Line, e: Event, now: nat, w: fd)
    requires Inv(l) && l.na.multi && Distinct(l.ch.producers) && |l.ch.producers| > 1 && KeepsWaiting(e, w)
    requires l.na.turn.conn.Some? && w in l.ch.producers && l.na.turn.conn != Some(w)
    ensures var m := Step(l, e, now);
            && m.na.multi && m.ch.producers == l.ch.producers && m.na.turn.conn.Some?
            && (m.na.turn.conn == l.na.turn.conn ||
                Distance(l.ch.producers, m.na.turn.conn.value, w) < Distance(l.ch.producers, l.na.turn.conn.value, w))
  {
    hide Inv, Step, Before, NextWaiting, Distance, Distinct, TurnCheck, Resets;
    if ChecksTurn(e) {
      CheckedStep(l, e, now);
      NextIsNearer(l.ch.producers, l.na.turn.conn.value, w, WaitingOf(e));
      CheckHandsOver(Before(l, e, now), ViewOf(e), WaitingOf(e), now);
    } else {
      OtherStep(l, e, now);
    }
  }

  lemma CheckHandsOver(l: Line, v: View, waiting: set<fd>, now: nat)
    requires l.na.turn.conn.Some? && l.na.multi
    ensures var m := TurnCheck(l, v, waiting, now);
            && m.na.multi && m.ch.producers == l.ch.producers
            && (m.na.turn.conn == l.na.turn.conn ||
                m.na.turn.conn == NextWaiting(l.ch.producers, l.na.turn.conn.value, waiting))
  {
    hide NextWaiting, TurnOver, TurnEnds, TurnStart;
    OverGives(l, v, waiting, now);
  }

  /** How often the line changes hands. */
  function Handovers(l: Line, es: seq<(Event, nat)>): nat
    decreases |es|
  {
    if es == [] then 0
    else
      var m := Step(l, es[0].0, es[0].1);
      (if m.na.turn.conn != l.na.turn.conn then 1 else 0) + Handovers(m, es[1..])
  }

  predicate GetsTheLine(l: Line, es: seq<(Event, nat)>, w: fd)
    decreases |es|
  {
    l.na.turn.conn == Some(w) || (es != [] && GetsTheLine(Step(l, es[0].0, es[0].1), es[1..], w))
  }

  lemma {:induction false} WaitingIsBoundedBy(l: Line, es: seq<(Event, nat)>, w: fd)
    requires Inv(l) && l.na.multi && Distinct(l.ch.producers) && |l.ch.producers| > 1
    requires l.na.turn.conn.Some? && w in l.ch.producers
    requires forall i | 0 <= i < |es| :: KeepsWaiting(es[i].0, w)
    ensures GetsTheLine(l, es, w) || Handovers(l, es) < Distance(l.ch.producers, l.na.turn.conn.value, w)
    decreases |es|
  {
    if l.na.turn.conn != Some(w) {
      NotAtZero(l.ch.producers, l.na.turn.conn.value, w);
      hide Inv, Step, KeepsWaiting, Distance, Distinct;
      if es != [] {
        var (e, now) := es[0];
        assert KeepsWaiting(e, w);
        StepOk(l, e, now);
        StepBringsNearer(l, e, now, w);
        WaitingIsBoundedBy(Step(l, e, now), es[1..], w);
      }
    }
  }

  lemma NotAtZero(ps: seq<fd>, h: fd, w: fd)
    requires Distinct(ps) && w in ps && h != w
    ensures 0 < Distance(ps, h, w) <= if h in ps then |ps| - 1 else |ps|
  {
    var j: nat :| j < |ps| && ps[j] == w;
    FirstIs(ps, j);
    if h in ps {
      var i: nat :| i < |ps| && ps[i] == h;
      FirstIs(ps, i);
    } else {
      GoneIsNotFound(ps, h);
    }
  }

  /**
   * With n connectors that stay, one whose data keeps waiting gets the line after at most n - 1
   * handovers, or n if the connector that has the line first is gone; whatever the radio, the
   * other applications and mhuxd's own queries do.
   */
  lemma WaitingIsBounded(l: Line, es: seq<(Event, nat)>, w: fd)
    requires Inv(l) && l.na.multi && Distinct(l.ch.producers) && |l.ch.producers| > 1
    requires l.na.turn.conn.Some? && w in l.ch.producers
    requires forall i | 0 <= i < |es| :: KeepsWaiting(es[i].0, w)
    requires var n := |l.ch.producers|;
             Handovers(l, es) >= if l.na.turn.conn.value in l.ch.producers then n - 1 else n
    ensures GetsTheLine(l, es, w)
  {
    WaitingIsBoundedBy(l, es, w);
    if l.na.turn.conn != Some(w) {
      NotAtZero(l.ch.producers, l.na.turn.conn.value, w);
    }
    hide Inv, Handovers, Distance;
  }

  /** Whoever sends, while several connectors share the radio, has the turn from then on. */
  lemma SenderHasTheTurn(l: Line, p: fd, bytes: seq<byte>, v: View, fs: seq<RadioFrame>, now: nat)
    requires Inv(l) && MayRead(l.ch, p) && l.ch.up && bytes != [] && p in l.ch.producers
    requires l.na.decoder != NoDecoder && |l.ch.producers| > 1
    ensures var m := HostRead(l, p, bytes, v, None, fs, now);
            && m.na.turn.conn == Some(p) && !m.na.turn.unread && m.na.turn.t == now
            && m.h.sends == l.h.sends + [Sent(App(p), bytes, l.na.turn.conn, l.na.turn.unread, false, v.pending)]
  {
    hide Inv, MultiUpdate, TakeTurn, ClientOf, Feed;
    NotOwnActive(l);
    LogOk(l, App(p), bytes, v.pending);
    var l0 := Log(l, App(p), bytes, v.pending);
    MultiKeeps(l0, v, now);
    MultiSame(l0, v, now);
    MultiSends(l0, v, now);
    var l1 := MultiUpdate(l0, v, now);
    TakeTurnOk(l1, p, now);
    TakesTurn(l1, p, now);
    var l2 := TakeTurn(l1, p, now);
    ClientKeeps(l2, p);
    ClientSame(l2, p);
    FeedSame(ClientOf(l2, p).0, fs, now);
    FeedSends(ClientOf(l2, p).0, fs, now);
  }

  /** Nothing is read while an own query waits, nor from one that has not the turn. */
  lemma NotOwnActive(l: Line)
    requires Inv(l)
    ensures l.ch.hold == l.na.ownActive && l.ch.turn == l.na.turn.conn
  {
    hide ConsumersOk, Conserved, AllSentOk;
  }

  lemma TakesTurn(l: Line, p: fd, now: nat)
    requires l.na.multi && (l.na.turn.conn == None || l.na.turn.conn == Some(p))
    ensures var m := TakeTurn(l, p, now);
            m.na.turn.conn == Some(p) && !m.na.turn.unread && m.na.turn.t == now && m.h == l.h
  {
    hide TurnGive;
    GivenTurn(l, Some(p), false, now);
  }

  lemma MultiSends(l: Line, v: View, now: nat)
    requires Inv(l) && l.na.decoder != NoDecoder
    ensures MultiUpdate(l, v, now).h.sends == l.h.sends
  {
    FlagsOk(l, now);
    StopSame(MultiFlags(l, now));
    hide Base, MultiFlags, RouteStart, RouteStop;
  }

  lemma FeedSends(l: Line, fs: seq<RadioFrame>, now: nat)
    requires Inv(l)
    ensures Feed(l, None, fs, now).h == l.h
  {
    FramesOk(l, fs, now);
    hide Base, OnFrames;
  }

  // ----- Client numbers -----

  /** No connector has two client numbers. */
  predicate Apart(clients: seq<Option<fd>>) {
    forall i, j | 0 <= i < j < |clients| :: clients[i].Some? && clients[j].Some? ==> clients[i] != clients[j]
  }

  /** The slot for p is its own one, or one that no other connector that is there needs. */
  lemma SlotIsRight(clients: seq<Option<fd>>, ps: seq<fd>, p: fd)
    ensures var i := ClientSlot(clients, ps, p);
            && (i < |clients| ==>
                  || clients[i] == Some(p)
                  || (Some(p) !in clients && (clients[i] == None || clients[i].value !in ps)))
            && (i == |clients| ==> forall k | 0 <= k < |clients| ::
                  clients[k].Some? && clients[k].value != p && clients[k].value in ps)
  {
    var i, f, g := First(clients, IsClient(p)), First(clients, IsFree()), First(clients, IsGone(ps));
    assert i == |clients| ==> forall k | 0 <= k < |clients| :: !IsClient(p)(clients[k]);
    assert f == |clients| ==> forall k | 0 <= k < |clients| :: !IsFree()(clients[k]);
    assert g == |clients| ==> forall k | 0 <= k < |clients| :: !IsGone(ps)(clients[k]);
    hide First;
  }

  /**
   * A connector keeps its client number as long as it is there, no two have the same one, and a
   * new one gets none only while nine others that are there have theirs.
   */
  lemma ClientsStayApart(l: Line, p: fd)
    requires Apart(l.na.clients) && |l.na.clients| == MAX_CLIENTS
    ensures var (m, n) := ClientOf(l, p);
            && Apart(m.na.clients)
            && (n != 0 ==> m.na.clients[n - 1] == Some(p))
            && (n == 0 ==> forall k | 0 <= k < MAX_CLIENTS ::
                  l.na.clients[k].Some? && l.na.clients[k].value != p && l.na.clients[k].value in l.ch.producers)
            && (forall k | 0 <= k < MAX_CLIENTS && l.na.clients[k].Some? && l.na.clients[k].value in l.ch.producers ::
                  m.na.clients[k] == l.na.clients[k])
  {
    SlotIsRight(l.na.clients, l.ch.producers, p);
    hide ClientSlot;
  }
}
