/** Client numbers over whole runs of the line arbiter. */
module ArbiterClients {
  import opened Cat
  import opened Arbiter
  import opened ArbiterSafety
  import opened Wrappers

  predicate Numbered(l: Line) {
    Apart(l.na.clients) && |l.na.clients| == MAX_CLIENTS
  }

  /** The client number i + 1 belongs to a connector that is there. */
  predicate Present(l: Line, i: int) {
    0 <= i < |l.na.clients| && l.na.clients[i].Some? && l.na.clients[i].value in l.ch.producers
  }

  /** Numbers stay apart, and connectors that are there keep theirs. */
  predicate Keeps(l: Line, m: Line) {
    && m.ch.producers == l.ch.producers
    && (Numbered(l) ==>
          Numbered(m) && forall i | 0 <= i < MAX_CLIENTS && Present(l, i) :: m.na.clients[i] == l.na.clients[i])
  }

  /** Nothing about client numbers changes. */
  predicate Same(l: Line, m: Line) {
    m.ch.producers == l.ch.producers && m.na.clients == l.na.clients
  }

  lemma Then(a: Line, b: Line, c: Line)
    requires Keeps(a, b) && Keeps(b, c)
    ensures Keeps(a, c)
  {
    hide Apart;
  }

  lemma SameKeeps(l: Line, m: Line)
    requires Same(l, m)
    ensures Keeps(l, m)
  {
    hide Apart;
  }

  lemma ClientKeeps(l: Line, p: fd)
    ensures Keeps(l, ClientOf(l, p).0)
  {
    if Numbered(l) {
      ClientsStayApart(l, p);
    }
    hide Apart, ClientSlot;
  }

  lemma GiveKeeps(l: Line, p: Option<fd>, freshTurn: bool, now: nat)
    ensures Keeps(l, TurnGive(l, p, freshTurn, now))
  {
    hide Keeps, ClientOf;
    if p.Some? {
      ClientKeeps(l, p.value);
      SameKeeps(ClientOf(l, p.value).0, TurnGive(l, p, freshTurn, now));
      Then(l, ClientOf(l, p.value).0, TurnGive(l, p, freshTurn, now));
    } else {
      SameKeeps(l, TurnGive(l, p, freshTurn, now));
    }
  }

  // ----- Routing and frames -----

  lemma FlushSame(l: Line, dest: Dest)
    ensures Same(l, RouteFlush(l, dest))
  {
    hide GiveAll;
  }

  lemma StopSame(l: Line)
    ensures Same(l, RouteStop(l))
  {
    hide RouteFlush;
    FlushSame(l, All);
  }

  lemma RouteCheckSame(l: Line, v: View)
    ensures Same(l, RouteCheck(l, v))
  {
    hide RouteStop, RemovedBusy;
    StopSame(l);
  }

  lemma OwnEndSame(l: Line, now: nat)
    ensures Same(l, OwnEnd(l, now))
  {
  }

  lemma FrameSame(l: Line, f: RadioFrame, now: nat)
    ensures Same(l, OnFrame(l, f, now))
  {
    hide OwnEnd, FrameDest, IsJam;
    var l1 := if IsJam(f.kind) then l else l.(na := l.na.(frameDone := true));
    OwnEndSame(l1, now);
  }

  lemma {:induction false} FramesSame(l: Line, fs: seq<RadioFrame>, now: nat)
    ensures Same(l, OnFrames(l, fs, now))
    decreases |fs|
  {
    if fs != [] {
      hide OnFrame;
      FrameSame(l, fs[0], now);
      FramesSame(OnFrame(l, fs[0], now), fs[1..], now);
    }
  }

  lemma RouteSame(l: Line, i: RadioInput, now: nat)
    ensures Same(l, Route(l, i, now))
  {
    hide RouteFlush;
    if l.na.route.dest.Some? {
      FlushSame(l, l.na.route.dest.value);
    }
  }

  lemma CollectSame(l: Line, b: byte)
    ensures Same(l, Collect(l, b))
  {
    hide RouteFlush;
    FlushSame(l, RouteDefault(l.na));
  }

  lemma ArriveSame(l: Line, b: byte)
    ensures Same(l, Arrive(l, b))
  {
    hide GiveAll;
  }

  lemma OwnTrySame(l: Line, d: Option<Due>, v: View, now: nat)
    ensures Same(l, OwnTry(l, d, v, now))
  {
    hide OnFrames, FreeForOwn;
    if d.Some? {
      FramesSame(Log(l, CatOn, d.value.bytes, v.pending), d.value.frames, now);
      var l1 := Hold(Log(l, OwnQuery, d.value.bytes, v.pending), true);
      FramesSame(RouteStart(l1.(na := l1.na.(ownActive := true))), d.value.frames, now);
    }
  }

  // ----- Turns -----

  lemma CheckKeeps(l: Line, v: View, waiting: set<fd>, now: nat)
    ensures Keeps(l, TurnCheck(l, v, waiting, now))
  {
    hide Keeps, TurnGive, TurnEnds, TurnBusy, TurnStart, NextWaiting, Fresh;
    var m := TurnCheck(l, v, waiting, now);
    if l.na.turn.conn.Some? && TurnEnds(l, v, now) {
      var l1 := if TurnBusy(l, v) && !Fresh(l)
                then l.(h := l.h.(discarded := l.h.discarded + [l.na.turn.client])) else l;
      var next := if l.na.multi then NextWaiting(l.ch.producers, l.na.turn.conn.value, waiting) else None;
      SameKeeps(l, l1);
      GiveKeeps(l1, next, next.Some?, now);
      Then(l, l1, m);
    } else {
      SameKeeps(l, m);
    }
  }

  lemma MultiKeeps(l: Line, v: View, now: nat)
    ensures Keeps(l, MultiUpdate(l, v, now))
  {
    hide Keeps, TurnGive, RouteCheck, RouteStart;
    var l1 := FilterUpdate(l);
    var l2 := l1.(na := l1.na.(multi := |l.ch.producers| > 1 && l.na.decoder != NoDecoder));
    var m := MultiFlags(l, now);
    SameKeeps(l, l2);
    GiveKeeps(l2, None, false, now);
    if m != l2 {
      Then(l, l2, m);
    }
    RouteCheckSame(m, v);
    assert Same(m, RouteStart(m)) by {
      StartSame(m);
    }
    SameKeeps(m, MultiUpdate(l, v, now));
    Then(l, m, MultiUpdate(l, v, now));
  }

  lemma StartSame(l: Line)
    ensures Same(l, RouteStart(l))
  {
  }

  lemma ResetKeeps(l: Line, now: nat)
    ensures Keeps(l, Reset(l, now))
  {
    hide Keeps, TurnGive, OwnEnd, RouteStop;
    var l1 := OwnEnd(l, now);
    OwnEndSame(l, now);
    StopSame(l1);
    var l2 := if RouteAlways(l1.na) then l1 else RouteStop(l1);
    SameKeeps(l, l2);
    GiveKeeps(l2, None, false, now);
    Then(l, l2, Reset(l, now));
  }

  lemma SetupKeeps(l: Line, p: Protocol, now: nat)
    ensures Keeps(l, Setup(l, p, now))
  {
    hide Keeps, Reset, MultiUpdate;
    var l0 := l.(na := l.na.(decoder := NoDecoder));
    var l1 := Reset(l0, now);
    var l2 := l1.(na := l1.na.(decoder := p));
    SameKeeps(l, l0);
    ResetKeeps(l0, now);
    SameKeeps(l1, l2);
    MultiKeeps(l2, IDLE, now);
    Then(l, l0, l1);
    Then(l, l1, l2);
    Then(l, l2, Setup(l, p, now));
  }

  lemma KeyerKeeps(l: Line, p: Option<Protocol>, now: nat)
    ensures Keeps(l, KeyerState(l, p, now))
  {
    hide Keeps, Reset, MultiUpdate, Setup;
    var l0 := l.(na := l.na.(decoder := NoDecoder));
    var l1 := Reset(l0, now);
    var l2 := MultiUpdate(l1, IDLE, now);
    SameKeeps(l, l0);
    ResetKeeps(l0, now);
    MultiKeeps(l1, IDLE, now);
    Then(l, l0, l1);
    Then(l, l1, l2);
    if p.Some? {
      SetupKeeps(l2, p.value, now);
      Then(l, l2, KeyerState(l, p, now));
    }
  }

  lemma FeedKeeps(l: Line, setup: Option<Protocol>, fs: seq<RadioFrame>, now: nat)
    ensures Keeps(l, Feed(l, setup, fs, now))
  {
    hide Keeps, Setup, OnFrames;
    var l1 := if setup.Some? then Setup(l, setup.value, now) else l;
    if setup.Some? {
      SetupKeeps(l, setup.value, now);
    } else {
      SameKeeps(l, l1);
    }
    FramesSame(l1, fs, now);
    SameKeeps(l1, Feed(l, setup, fs, now));
    Then(l, l1, Feed(l, setup, fs, now));
  }

  // ----- Steps -----

  lemma TakeTurnKeeps(l: Line, p: fd, now: nat)
    ensures Keeps(l, TakeTurn(l, p, now))
  {
    hide Keeps, TurnGive;
    var l1 := if l.na.multi && l.na.turn.conn == None then TurnGive(l, Some(p), false, now) else l;
    GiveKeeps(l, Some(p), false, now);
    if l1 == l {
      SameKeeps(l, l1);
    }
    SameKeeps(l1, TakeTurn(l, p, now));
    Then(l, l1, TakeTurn(l, p, now));
  }

  lemma HostKeeps(l: Line, p: fd, bytes: seq<byte>, v: View, setup: Option<Protocol>, fs: seq<RadioFrame>, now: nat)
    ensures Keeps(l, HostRead(l, p, bytes, v, setup, fs, now))
  {
    hide Keeps, MultiUpdate, TakeTurn, Feed, ClientOf, MayRead;
    var r := HostRead(l, p, bytes, v, setup, fs, now);
    if r == l {
      SameKeeps(l, r);
    } else {
      var l0 := Log(l, App(p), bytes, v.pending);
      var l1 := MultiUpdate(l0, v, now);
      var l2 := TakeTurn(l1, p, now);
      var l3 := ClientOf(l2, p).0;
      SameKeeps(l, l0);
      MultiKeeps(l0, v, now);
      TakeTurnKeeps(l1, p, now);
      ClientKeeps(l2, p);
      FeedKeeps(l3, setup, fs, now);
      Then(l, l0, l1);
      Then(l, l1, l2);
      Then(l, l2, l3);
      Then(l, l3, r);
    }
  }

  lemma AfterKeeps(l: Line, i: RadioInput, now: nat)
    ensures Keeps(l, AfterByte(l, i, now))
  {
    hide Keeps, TurnCheck, OwnTry;
    var l1 := TurnCheck(l, i.v, i.waiting, now);
    CheckKeeps(l, i.v, i.waiting, now);
    OwnTrySame(l1, i.due, i.afterTurn, now);
    SameKeeps(l1, AfterByte(l, i, now));
    Then(l, l1, AfterByte(l, i, now));
  }

  lemma RadioKeeps(l: Line, b: byte, i: RadioInput, now: nat)
    ensures Keeps(l, RadioByte(l, b, i, now))
  {
    hide Keeps, Arrive, Collect, Feed, Route, AfterByte, RouteCheck;
    var l0 := Arrive(l, b);
    var l1 := l0.(na := l0.na.(answered := false));
    ArriveSame(l, b);
    SameKeeps(l, l1);
    var l2 := if l1.na.route.on then Collect(l1, b) else l1;
    CollectSame(l1, b);
    SameKeeps(l1, l2);
    var l3 := Feed(l2, i.setup, i.frames, now);
    FeedKeeps(l2, i.setup, i.frames, now);
    var l4 := if l1.na.route.on then Route(l3, i, now) else l3;
    RouteSame(l3, i, now);
    SameKeeps(l3, l4);
    var l5 := AfterByte(l4, i, now);
    AfterKeeps(l4, i, now);
    RouteCheckSame(l5, i.atEnd);
    SameKeeps(l5, RadioByte(l, b, i, now));
    Then(l, l1, l2);
    Then(l, l2, l3);
    Then(l, l3, l4);
    Then(l, l4, l5);
    Then(l, l5, RadioByte(l, b, i, now));
  }

  lemma TickKeeps(l: Line, i: RadioInput, quiet: bool, now: nat)
    ensures Keeps(l, Tick(l, i, quiet, now))
  {
    hide Keeps, OnFrames, MultiUpdate, RouteCheck, Setup, OwnTry;
    var l1 := if l.na.decoder == NoDecoder then l else OnFrames(l, i.frames, now);
    var l2 := MultiUpdate(l1, i.v, now);
    var l3 := RouteCheck(l2, i.v);
    var l4 := if !l3.na.ownActive && i.setup.Some? then Setup(l3, i.setup.value, now) else l3;
    FramesSame(l, i.frames, now);
    SameKeeps(l, l1);
    MultiKeeps(l1, i.v, now);
    RouteCheckSame(l2, i.v);
    SameKeeps(l2, l3);
    if l4 == l3 {
      SameKeeps(l3, l4);
    } else {
      SetupKeeps(l3, i.setup.value, now);
    }
    OwnTrySame(l4, i.due, i.afterTurn, now);
    SameKeeps(l4, Tick(l, i, quiet, now));
    Then(l, l1, l2);
    Then(l, l2, l3);
    Then(l, l3, l4);
    Then(l, l4, Tick(l, i, quiet, now));
  }

  /** One event: numbers stay apart, and a connector that is there before keeps its number. */
  lemma StepKeeps(l: Line, e: Event, now: nat)
    requires Numbered(l)
    ensures var m := Step(l, e, now);
            Numbered(m) && forall i | 0 <= i < MAX_CLIENTS && Present(l, i) :: m.na.clients[i] == l.na.clients[i]
  {
    hide HostRead, RadioByte, Tick, TurnCheck, RouteFlush, OwnTimeout, CivAgain, KeyerState, Connector, Apart;
    match e {
      case Host(p, bytes, v, setup, frames) => HostKeeps(l, p, bytes, v, setup, frames, now);
      case Radio(b, i) => RadioKeeps(l, b, i, now);
      case Ticked(i, quiet) => TickKeeps(l, i, quiet, now);
      case TurnTimer(v, waiting) => CheckKeeps(l, v, waiting, now);
      case RouteTimer => FlushSame(l, RouteDefault(l.na));
      case OwnTimer(v) => TimeoutSame(l, v, now);
      case ResendTimer(v, lost) => AgainSame(l, v, lost, now);
      case Keyer(p) => KeyerKeeps(l, p, now);
      case _ =>
    }
  }

  lemma TimeoutSame(l: Line, v: View, now: nat)
    ensures Same(l, OwnTimeout(l, v, now))
  {
    OwnEndSame(l, now);
    hide OwnEnd;
  }

  lemma AgainSame(l: Line, v: View, c: Option<Lost>, now: nat)
    ensures Same(l, CivAgain(l, v, c, now))
  {
  }

  // ----- Runs -----

  /** The connector is there all along the run, up to its last event. */
  predicate StaysIn(l: Line, es: seq<(Event, nat)>, p: fd)
    decreases |es|
  {
    es != [] ==> p in l.ch.producers && StaysIn(Step(l, es[0].0, es[0].1), es[1..], p)
  }

  lemma {:induction false} RunKeeps(l: Line, es: seq<(Event, nat)>, p: fd, i: nat)
    requires Numbered(l)
    ensures Numbered(Run(l, es))
    ensures i < MAX_CLIENTS && l.na.clients[i] == Some(p) && StaysIn(l, es, p) ==> Run(l, es).na.clients[i] == Some(p)
    decreases |es|
  {
    hide Step, Apart;
    if es != [] {
      StepKeeps(l, es[0].0, es[0].1);
      assert i < MAX_CLIENTS && l.na.clients[i] == Some(p) && p in l.ch.producers ==> Present(l, i);
      RunKeeps(Step(l, es[0].0, es[0].1), es[1..], p, i);
    }
  }

  /**
   * In every reachable state no two client numbers belong to one connector, and from then on a
   * connector keeps its number for as long as it is there.
   */
  lemma ClientNumbersStay(civResend: bool, before: seq<(Event, nat)>, es: seq<(Event, nat)>, p: fd, i: nat)
    ensures var l := Run(Create(civResend), before);
            var m := Run(l, es);
            && Apart(l.na.clients) && |l.na.clients| == |m.na.clients| == MAX_CLIENTS
            && (i < MAX_CLIENTS && l.na.clients[i] == Some(p) && StaysIn(l, es, p) ==> m.na.clients[i] == Some(p))
  {
    assert Numbered(Create(civResend));
    RunKeeps(Create(civResend), before, p, i);
    RunKeeps(Run(Create(civResend), before), es, p, i);
    hide Run, Apart;
  }
}
