/** The line arbiter updated in place: one CAT channel of struct mh_router, and struct cat_native. */
module LineArbiter {
  import opened Cat
  import opened SeqFacts
  import A = Arbiter
  import B = Buffers
  import opened Wrappers

  lemma {:induction false} NobodyGetsNothing(cs: seq<A.Consumer>, bytes: seq<byte>, k: nat)
    ensures A.GiveAll(cs, A.Seg(bytes, A.Nobody), k) == cs
    decreases |cs|
  {
    if cs != [] {
      NobodyGetsNothing(cs[..|cs| - 1], bytes, k);
    }
  }

  lemma GiveTake(cs: seq<A.Consumer>, s: A.Seg, k: nat, i: nat)
    requires i < |cs|
    ensures A.GiveAll(cs[..i + 1], s, k) == A.GiveAll(cs[..i], s, k) + [A.Give(cs[i], s, k)]
  {
    assert cs[..i + 1][..i] == cs[..i];
  }

  /** The producer at place i waits, and none between p and it does. */
  lemma Told(q: A.fd, p: A.fd, waiting: set<A.fd>)
    ensures A.Is(p)(q) <==> q == p
    ensures A.WaitsBeside(waiting, p)(q) <==> q != p && q in waiting
  {
  }

  lemma Behind(ps: seq<A.fd>, p: A.fd, waiting: set<A.fd>, i: nat)
    requires First(ps, A.Is(p)) < i < |ps| && A.WaitsBeside(waiting, p)(ps[i])
    requires forall k | First(ps, A.Is(p)) < k < i :: !A.WaitsBeside(waiting, p)(ps[k])
    ensures A.NextWaiting(ps, p, waiting) == Some(ps[i])
  {
    hide First, A.WaitsBeside, A.Is;
    var h := First(ps, A.Is(p));
    var rest := ps[h + 1..];
    assert rest[i - h - 1] == ps[i];
    FirstUpTo(rest, A.WaitsBeside(waiting, p), i - h - 1);
    var k := First(rest, A.WaitsBeside(waiting, p));
    assert rest[k] == ps[h + 1 + k];
  }

  lemma NoneBehind(ps: seq<A.fd>, p: A.fd, waiting: set<A.fd>)
    requires forall k | First(ps, A.Is(p)) < k < |ps| :: !A.WaitsBeside(waiting, p)(ps[k])
    ensures var j := First(ps, A.WaitsBeside(waiting, p));
            A.NextWaiting(ps, p, waiting) == if j < |ps| then Some(ps[j]) else None
  {
    hide First, A.WaitsBeside, A.Is;
    var h := First(ps, A.Is(p));
    if h < |ps| {
      var rest := ps[h + 1..];
      forall n | 0 <= n < |rest|
        ensures !A.WaitsBeside(waiting, p)(rest[n])
      {
        assert rest[n] == ps[h + 1 + n];
      }
    }
  }

  /** The CAT channel in the router. */
  class Router {
    var producers: seq<A.fd>
    var consumers: seq<A.Consumer>
    var hold: bool
    var turn: Option<A.fd>
    var intercept: bool
    var up: bool

    function Value(): A.Channel
      reads this
    {
      A.Channel(producers, consumers, hold, turn, intercept, up)
    }

    constructor ()
      ensures Value() == A.Channel([], [], false, None, false, false)
    {
      producers, consumers, hold, turn, intercept, up := [], [], false, None, false, false;
    }

    method MayRead(p: A.fd) returns (r: bool)
      ensures r == A.MayRead(Value(), p)
    {
      return !hold && (turn == None || turn == Some(p));
    }

    /** One scan that remembers the first candidate ahead of p. */
    method NextWaitingProducer(p: A.fd, waiting: set<A.fd>) returns (next: Option<A.fd>)
      ensures next == A.NextWaiting(producers, p, waiting)
    {
      var after, first := false, None;
      hide First, A.NextWaiting, A.Is, A.WaitsBeside;
      for i := 0 to |producers|
        invariant after == (First(producers, A.Is(p)) < i)
        invariant var j := First(producers, A.WaitsBeside(waiting, p));
                  first == if j < i then Some(producers[j]) else None
        invariant after ==> forall k | First(producers, A.Is(p)) < k < i :: !A.WaitsBeside(waiting, p)(producers[k])
      {
        Told(producers[i], p, waiting);
        if producers[i] == p {
          FirstUpTo(producers, A.Is(p), i);
          after := true;
        } else if producers[i] in waiting {
          if after {
            Behind(producers, p, waiting, i);
            return Some(producers[i]);
          }
          FirstUpTo(producers, A.WaitsBeside(waiting, p), i);
          if first == None {
            first := Some(producers[i]);
          }
        }
      }
      NoneBehind(producers, p, waiting);
      return first;
    }

    /** Each consumer that takes the data gets it, if it has room for all of it; k: the data's number. */
    method PassOut(bytes: seq<byte>, dest: A.Dest, k: nat)
      modifies this`consumers
      ensures consumers == A.GiveAll(old(consumers), A.Seg(bytes, dest), k)
    {
      var given := Offer(consumers, bytes, dest, k);
      consumers := given;
    }
  }

  method Offer(cs: seq<A.Consumer>, bytes: seq<byte>, dest: A.Dest, k: nat) returns (given: seq<A.Consumer>)
    ensures given == A.GiveAll(cs, A.Seg(bytes, dest), k)
  {
    given := [];
    for i := 0 to |cs|
      invariant given == A.GiveAll(cs[..i], A.Seg(bytes, dest), k)
    {
      GiveTake(cs, A.Seg(bytes, dest), k, i);
      hide A.GiveAll;
      var c := cs[i];
      if A.Takes(c, dest) && |bytes| <= c.buf.Avail() {
        c := c.(buf := B.Buf(c.buf.rpos, c.buf.bytes + bytes), got := c.got + [k]);
      }
      given := given + [c];
    }
    assert cs[..|cs|] == cs;
  }

  /** struct cat_native, the fields that decide about the line. */
  class CatNative {
    const router: Router
    const civResend: bool
    var decoder: A.Protocol
    var multi: bool
    var filter: bool
    var ownActive: bool
    var routing: bool
    var routeBuf: seq<byte>
    var routeDest: Option<A.Dest>
    var answered: bool
    var frameDone: bool
    var clients: seq<Option<A.fd>>
    var turnFd: Option<A.fd>
    var turnClient: clientNo
    var turnFresh: bool
    var turnT: nat
    var segments: nat
    ghost var h: A.History

    ghost predicate Shape()
      reads this
    {
      |clients| == MAX_CLIENTS && segments == |h.segs|
    }

    ghost function Own(): A.Native
      reads this
    {
      A.Native(decoder, civResend, multi, filter, ownActive, A.Routing(routing, routeBuf, routeDest),
               answered, frameDone, clients, A.Turn(turnFd, turnClient, turnFresh, turnT))
    }

    ghost function Value(): A.Line
      reads this, router
    {
      A.Line(router.Value(), Own(), h)
    }

    constructor (civResend: bool)
      ensures Shape() && fresh(router) && Value() == A.Create(civResend)
    {
      this.civResend, decoder, multi, filter, ownActive := civResend, A.NoDecoder, false, false, false;
      routing, routeBuf, routeDest, answered, frameDone := false, [], None, false, false;
      clients := seq(MAX_CLIENTS, i => None);
      turnFd, turnClient, turnFresh, turnT, segments := None, 0, false, 0, 0;
      h := A.History([], [], [], []);
      router := new Router();
    }

    // ----- Routing -----

    method Deliver(bytes: seq<byte>, dest: A.Dest)
      requires Shape()
      modifies this`segments, this`h, router`consumers
      ensures Shape() && Value() == A.Deliver(old(Value()), bytes, dest)
    {
      hide A.GiveAll;
      if dest != A.Nobody {
        router.PassOut(bytes, dest, segments);
      } else {
        NobodyGetsNothing(router.consumers, bytes, segments);
      }
      segments := segments + 1;
      h := h.(segs := h.segs + [A.Seg(bytes, dest)]);
    }

    method RouteFlush(dest: A.Dest)
      requires Shape()
      modifies this`segments, this`h, this`routeBuf, router`consumers
      ensures Shape() && Value() == A.RouteFlush(old(Value()), dest)
    {
      hide A.Deliver;
      if routeBuf != [] {
        Deliver(routeBuf, dest);
      }
      routeBuf := [];
    }

    method RouteStart()
      requires Shape()
      modifies this`routing, this`routeBuf, router`intercept
      ensures Shape() && Value() == A.RouteStart(old(Value()))
    {
      if routing {
        return;
      }
      routing := true;
      routeBuf := [];
      router.intercept := true;
    }

    method RouteStop()
      requires Shape()
      modifies this`segments, this`h, this`routing, this`routeBuf, router`consumers, router`intercept
      ensures Shape() && Value() == A.RouteStop(old(Value()))
    {
      hide A.RouteFlush;
      if !routing {
        return;
      }
      RouteFlush(A.All);
      ghost var l := Value();
      routing := false;
      router.intercept := false;
      assert l.na.route.buf == [] by {
        FlushEmpties(old(Value()), A.All);
      }
    }

    predicate RouteAlways(): (r: bool)
      reads this
      ensures r == A.RouteAlways(Own())
    {
      multi || filter || (civResend && decoder == A.Civ)
    }

    method RemovedBusy(v: A.View) returns (busy: bool)
      requires Shape()
      ensures busy == A.RemovedBusy(Value(), v)
    {
      for i := 0 to MAX_CLIENTS
        invariant forall k | 0 <= k < i ::
          !(clients[k].Some? && clients[k].value !in router.producers && k + 1 in v.busy)
      {
        if clients[i].Some? && clients[i].value !in router.producers && i + 1 in v.busy {
          return true;
        }
      }
      return false;
    }

    method RouteCheck(v: A.View)
      requires Shape()
      modifies this`segments, this`h, this`routing, this`routeBuf, router`consumers, router`intercept
      ensures Shape() && Value() == A.RouteCheck(old(Value()), v)
    {
      hide A.RouteStop, A.RemovedBusy;
      if routing && !RouteAlways() && !ownActive && !v.pendingOwn {
        var busy := RemovedBusy(v);
        if !busy {
          RouteStop();
        }
      }
    }

    // ----- Turns -----

    /** The number that stands for connector p in the decoder; 0 when none can be had. */
    method ClientOf(p: A.fd) returns (n: clientNo)
      requires Shape()
      modifies this`clients
      ensures Shape() && (Value(), n) == A.ClientOf(old(Value()), p)
    {
      var i := ClientSlot(p);
      if i == MAX_CLIENTS {
        return 0;
      }
      clients := clients[i := Some(p)];
      return i + 1;
    }

    method ClientSlot(p: A.fd) returns (slot: nat)
      requires Shape()
      ensures slot == A.ClientSlot(clients, router.producers, p)
    {
      var free, removed := MAX_CLIENTS, MAX_CLIENTS;
      hide First;
      for i := 0 to MAX_CLIENTS
        invariant First(clients, A.IsClient(p)) >= i
        invariant free == var f := First(clients, A.IsFree()); if f < i then f else MAX_CLIENTS
        invariant removed == var f := First(clients, A.IsGone(router.producers)); if f < i then f else MAX_CLIENTS
      {
        if clients[i] == Some(p) {
          FirstUpTo(clients, A.IsClient(p), i);
          return i;
        }
        if clients[i] == None {
          FirstUpTo(clients, A.IsFree(), i);
          if free == MAX_CLIENTS {
            free := i;
          }
        } else if clients[i].value !in router.producers {
          FirstUpTo(clients, A.IsGone(router.producers), i);
          if removed == MAX_CLIENTS {
            removed := i;
          }
        }
      }
      return if free < MAX_CLIENTS then free else removed;
    }

    method SetTurn(t: A.Turn)
      requires Shape()
      modifies this`turnFd, this`turnClient, this`turnFresh, this`turnT, router`turn
      ensures Shape() && router.Value() == old(router.Value()).(turn := t.conn) && h == old(h)
      ensures Own() == old(Own()).(turn := t)
    {
      turnFd, turnClient, turnFresh, turnT := t.conn, t.client, t.unread, t.t;
      router.turn := t.conn;
    }

    method TurnGive(p: Option<A.fd>, freshTurn: bool, now: nat)
      requires Shape()
      modifies this`clients, this`turnFd, this`turnClient, this`turnFresh, this`turnT, router`turn
      ensures Shape() && Value() == A.TurnGive(old(Value()), p, freshTurn, now)
    {
      hide A.ClientOf;
      var client := 0;
      if p.Some? {
        client := ClientOf(p.value);
      }
      SetTurn(A.Turn(p, client, freshTurn, now));
    }

    method TurnCheck(v: A.View, waiting: set<A.fd>, now: nat)
      requires Shape()
      modifies this`clients, this`turnFd, this`turnClient, this`turnFresh, this`turnT, this`h, router`turn
      ensures Shape() && Value() == A.TurnCheck(old(Value()), v, waiting, now)
    {
      hide A.TurnGive, A.NextWaiting;
      if turnFd == None {
        return;
      }
      ghost var l := Value();
      var isFresh := turnFresh && turnFd.value in router.producers;
      var busy := isFresh || (turnClient >= 1 && turnClient in v.busy);
      if busy && turnClient in v.answering {
        turnT := now;
      }
      if busy && now - turnT < A.TURN_TIMEOUT_MS {
        return;
      }
      if busy && !isFresh {
        // Half a second without an answer.
        h := h.(discarded := h.discarded + [turnClient]);
      }
      var next: Option<A.fd> := None;
      if multi {
        next := router.NextWaitingProducer(turnFd.value, waiting);
      }
      ghost var l1 := Value();
      TurnGive(next, next.Some?, now);
      GiveForgetsTime(l1, l1.na.turn.(t := l.na.turn.t), next, next.Some?, now);
    }

    method FilterUpdate()
      requires Shape()
      modifies this`filter
      ensures Shape() && Value() == A.FilterUpdate(old(Value()))
    {
      var i := 0;
      while i < |router.consumers| && !router.consumers[i].noUnsol
        invariant i <= |router.consumers| && First(router.consumers, A.Refuses()) >= i
      {
        i := i + 1;
      }
      if i < |router.consumers| {
        FirstUpTo(router.consumers, A.Refuses(), i);
      }
      filter := i < |router.consumers| && decoder != A.NoDecoder;
    }

    method MultiUpdate(v: A.View, now: nat)
      requires Shape()
      modifies this, router
      ensures Shape() && Value() == A.MultiUpdate(old(Value()), v, now)
    {
      hide A.TurnGive, A.RouteStart, A.RouteCheck, A.FilterUpdate;
      ghost var l := Value();
      var m := |router.producers| > 1 && decoder != A.NoDecoder;
      FilterUpdate();
      if m != multi {
        multi := m;
        if !m && decoder == A.NoDecoder {
          TurnGive(None, false, now);
        }
      }
      assert Value() == A.MultiFlags(l, now);
      if RouteAlways() {
        RouteStart();
      } else {
        RouteCheck(v);
      }
    }

    // ----- Own queries -----

    method OwnEnd(now: nat)
      requires Shape()
      modifies this`ownActive, this`turnT, router`hold
      ensures Shape() && Value() == A.OwnEnd(old(Value()), now)
    {
      if !ownActive {
        return;
      }
      ownActive := false;
      router.hold := false;
      if turnFd.Some? && turnFresh {
        turnT := now;
      }
    }

    /** The decoder starts over. */
    method Reset(now: nat)
      requires Shape()
      modifies this, router
      ensures Shape() && Value() == A.Reset(old(Value()), now)
    {
      hide A.OwnEnd, A.RouteStop, A.TurnGive;
      OwnEnd(now);
      if !RouteAlways() {
        RouteStop();
      }
      TurnGive(None, false, now);
    }

    method SetDecoder(p: A.Protocol)
      requires Shape()
      modifies this`decoder
      ensures Shape() && router.Value() == old(router.Value()) && h == old(h)
      ensures Own() == old(Own()).(decoder := p)
    {
      decoder := p;
    }

    method SetupDecoder(p: A.Protocol, now: nat)
      requires Shape()
      modifies this, router
      ensures Shape() && Value() == A.Setup(old(Value()), p, now)
    {
      hide A.Reset, A.MultiUpdate;
      SetDecoder(A.NoDecoder);
      Reset(now);
      SetDecoder(p);
      MultiUpdate(A.IDLE, now);
    }

    method KeyerState(p: Option<A.Protocol>, now: nat)
      requires Shape()
      modifies this, router
      ensures Shape() && Value() == A.KeyerState(old(Value()), p, now)
    {
      hide A.Reset, A.MultiUpdate, A.Setup;
      SetDecoder(A.NoDecoder);
      Reset(now);
      MultiUpdate(A.IDLE, now);
      if p.Some? {
        SetupDecoder(p.value, now);
      }
    }

    method OnOwnFrame(f: A.RadioFrame, now: nat)
      requires Shape()
      modifies this`ownActive, this`turnT, this`routeDest, router`hold
      ensures Shape() && Value() == A.OnOwnFrame(old(Value()), f, now)
    {
      hide A.OwnEnd;
      if ownActive && f.kind != Echo {
        OwnEnd(now);
      }
      if routeDest == None {
        routeDest := Some(A.Nobody);
      }
    }

    method OnOtherFrame(f: A.RadioFrame)
      requires Shape()
      modifies this`routeDest, this`answered
      ensures Shape() && Value() == A.OnOtherFrame(old(Value()), f)
    {
      var dest := if f.kind == Unsolicited then A.Unsol else if turnFd.Some? then A.To(turnFd.value) else A.All;
      if f.client > 0 && clients[f.client - 1].Some? {
        dest := A.To(clients[f.client - 1].value);
      }
      // What a jam left behind goes nowhere while its command is to be repeated.
      if A.IsJam(f.kind) && civResend && decoder == A.Civ && f.lost {
        dest := A.Nobody;
      }
      routeDest := Some(dest);
      if f.client > 0 && (f.kind == Reply || f.kind == Nak || f.kind == Error) {
        answered := true;
      }
    }

    /** The decoder reports a radio frame. */
    method OnFrame(f: A.RadioFrame, now: nat)
      requires Shape()
      modifies this`ownActive, this`turnT, this`routeDest, this`answered, this`frameDone, router`hold
      ensures Shape() && Value() == A.OnFrame(old(Value()), f, now)
    {
      hide A.OnOwnFrame, A.OnOtherFrame;
      if !A.IsJam(f.kind) {
        frameDone := true;
      }
      if f.own {
        OnOwnFrame(f, now);
      } else {
        OnOtherFrame(f);
      }
    }

    method OnFrames(fs: seq<A.RadioFrame>, now: nat)
      requires Shape()
      modifies this`ownActive, this`turnT, this`routeDest, this`answered, this`frameDone, router`hold
      ensures Shape() && Value() == A.OnFrames(old(Value()), fs, now)
    {
      hide A.OnFrame;
      var i := 0;
      assert fs[0..] == fs;
      while i < |fs|
        invariant 0 <= i <= |fs| && Shape()
        invariant A.OnFrames(Value(), fs[i..], now) == A.OnFrames(old(Value()), fs, now)
      {
        OnFrame(fs[i], now);
        assert fs[i..][1..] == fs[i + 1..];
        i := i + 1;
      }
    }

    method Feed(setup: Option<A.Protocol>, fs: seq<A.RadioFrame>, now: nat)
      requires Shape()
      modifies this, router
      ensures Shape() && Value() == A.Feed(old(Value()), setup, fs, now)
    {
      hide A.Setup, A.OnFrames;
      if setup.Some? {
        SetupDecoder(setup.value, now);
      }
      if decoder != A.NoDecoder {
        OnFrames(fs, now);
      }
    }

    ghost method Log(src: A.Source, bytes: seq<byte>, pending: bool)
      requires Shape()
      modifies this`h
      ensures Shape() && Value() == A.Log(old(Value()), src, bytes, pending)
    {
      h := h.(sends := h.sends + [A.Sent(src, bytes, turnFd, turnFresh, ownActive, pending)]);
    }

    /** Lets mhuxd ask the radio between two commands of the applications. */
    method OwnTry(d: Option<A.Due>, v: A.View, now: nat)
      requires Shape()
      modifies this, router
      ensures Shape() && Value() == A.OwnTry(old(Value()), d, v, now)
    {
      hide A.OnFrames, A.RouteStart;
      if ownActive || decoder == A.NoDecoder || v.pending || (turnFd.Some? && !turnFresh) || d == None {
        return;
      }
      var q := d.value;
      if q.catOn {
        if router.up && q.room {
          Log(A.CatOn, q.bytes, v.pending);
          OnFrames(q.frames, now);
        }
        return;
      }
      // From here on no connector is read.
      router.hold := router.up && q.room;
      if router.hold {
        Log(A.OwnQuery, q.bytes, v.pending);
        ownActive := true;
        RouteStart();
        OnFrames(q.frames, now);
      }
    }

    method OwnTimeout(v: A.View, now: nat)
      requires Shape()
      modifies this`ownActive, this`turnT, router`hold
      ensures Shape() && Value() == A.OwnTimeout(old(Value()), v, now)
    {
      if 0 !in v.answering {
        OwnEnd(now);
      }
    }

    method CivAgain(v: A.View, c: Option<A.Lost>, now: nat)
      requires Shape()
      modifies this`turnT, this`h
      ensures Shape() && Value() == A.CivAgain(old(Value()), v, c, now)
    {
      if decoder != A.Civ || !v.lost || c == None {
        return;
      }
      // The hold of a timed-out query is gone, so it must not be repeated.
      if c.value.own && !ownActive {
        return;
      }
      if !(router.up && c.value.room) {
        return;
      }
      Log(A.Resent(c.value.own), c.value.bytes, v.pending);
      if !c.value.own && c.value.client != 0 && c.value.client == turnClient {
        turnT := now;
      }
    }

    // ----- Data -----

    /** A free line is taken by whoever sends on it. */
    method TakeTurn(p: A.fd, now: nat)
      requires Shape()
      modifies this, router
      ensures Shape() && Value() == A.TakeTurn(old(Value()), p, now)
    {
      hide A.TurnGive;
      if multi && turnFd == None {
        TurnGive(Some(p), false, now);
      }
      if turnFd == Some(p) {
        turnFresh := false;
        turnT := now;
      }
    }

    method HostRead(p: A.fd, bytes: seq<byte>, v: A.View, setup: Option<A.Protocol>, fs: seq<A.RadioFrame>, now: nat)
      requires Shape()
      modifies this, router
      ensures Shape() && Value() == A.HostRead(old(Value()), p, bytes, v, setup, fs, now)
    {
      hide A.MultiUpdate, A.TakeTurn, A.Feed, A.ClientOf;
      var may := router.MayRead(p);
      if !may || !router.up || bytes == [] || p !in router.producers {
        return;
      }
      Log(A.App(p), bytes, v.pending);
      MultiUpdate(v, now);
      TakeTurn(p, now);
      var client := ClientOf(p);
      Feed(setup, fs, now);
    }

    method AfterByte(i: A.RadioInput, now: nat)
      requires Shape()
      modifies this, router
      ensures Shape() && Value() == A.AfterByte(old(Value()), i, now)
    {
      hide A.TurnCheck, A.OwnTry;
      TurnCheck(i.v, i.waiting, now);
      if answered {
        OwnTry(i.due, i.afterTurn, now);
      }
    }

    /** The byte joins the frame that is being collected. */
    method Collect(b: byte)
      requires Shape()
      modifies this`segments, this`h, this`routeBuf, this`routeDest, this`frameDone, router`consumers
      ensures Shape() && Value() == A.Collect(old(Value()), b)
    {
      hide A.RouteFlush;
      if |routeBuf| == A.ROUTE_MAX {
        RouteFlush(if turnFd.Some? then A.To(turnFd.value) else A.All);
      }
      routeBuf := routeBuf + [b];
      routeDest := None;
      frameDone := false;
    }

    method Route(i: A.RadioInput, now: nat)
      requires Shape()
      modifies this, router
      ensures Shape() && Value() == A.Route(old(Value()), i, now)
    {
      hide A.RouteFlush, A.CivAgain;
      if routeDest.Some? {
        RouteFlush(routeDest.value);
      }
      if civResend && decoder == A.Civ && i.v.lost && frameDone {
        CivAgain(i.v, i.lost, now);
      }
    }

    /** The router passes a byte on, unless it is intercepted. */
    method Arrive(b: byte)
      requires Shape()
      modifies this, router
      ensures Shape() && Value() == A.Arrive(old(Value()), b)
    {
      hide A.Deliver;
      h := h.(radio := h.radio + [b]);
      if !router.intercept {
        Deliver([b], A.All);
      }
    }

    method RouteByte(b: byte, i: A.RadioInput, now: nat)
      requires Shape()
      modifies this, router
      ensures Shape() && Value() == A.Route(A.Feed(A.Collect(old(Value()), b), i.setup, i.frames, now), i, now)
    {
      hide A.Collect, A.Feed, A.Route;
      Collect(b);
      Feed(i.setup, i.frames, now);
      Route(i, now);
    }

    /** A byte of the radio, first in the router, then here. */
    method RadioByte(b: byte, i: A.RadioInput, now: nat)
      requires Shape()
      modifies this, router
      ensures Shape() && Value() == A.RadioByte(old(Value()), b, i, now)
    {
      hide A.Arrive, A.Collect, A.Feed, A.Route, A.AfterByte, A.RouteCheck;
      Arrive(b);
      answered := false;
      if !routing {
        Feed(i.setup, i.frames, now);
        AfterByte(i, now);
        return;
      }
      RouteByte(b, i, now);
      AfterByte(i, now);
      RouteCheck(i.atEnd);
    }

    method Tick(i: A.RadioInput, quiet: bool, now: nat)
      requires Shape()
      modifies this, router
      ensures Shape() && Value() == A.Tick(old(Value()), i, quiet, now)
    {
      hide A.OnFrames, A.MultiUpdate, A.RouteCheck, A.Setup, A.OwnTry;
      if decoder != A.NoDecoder {
        OnFrames(i.frames, now);
      }
      MultiUpdate(i.v, now);
      RouteCheck(i.v);
      if ownActive {
        return;
      }
      if i.setup.Some? {
        SetupDecoder(i.setup.value, now);
      }
      if quiet {
        OwnTry(i.due, i.afterTurn, now);
      }
    }
  }

  lemma ClientOfAnyTime(l: A.Line, t: A.Turn, p: A.fd)
    ensures var (m, n) := A.ClientOf(l, p);
            A.ClientOf(l.(na := l.na.(turn := t)), p) == (m.(na := m.na.(turn := t)), n)
  {
    hide A.ClientSlot;
  }

  /** Whoever gets the line, its time starts then. */
  lemma GiveForgetsTime(l: A.Line, t: A.Turn, p: Option<A.fd>, freshTurn: bool, now: nat)
    ensures A.TurnGive(l.(na := l.na.(turn := t)), p, freshTurn, now) == A.TurnGive(l, p, freshTurn, now)
  {
    hide A.ClientOf;
    if p.Some? {
      ClientOfAnyTime(l, t, p.value);
    }
  }

  lemma FlushEmpties(l: A.Line, dest: A.Dest)
    ensures A.RouteFlush(l, dest).na == l.na.(route := l.na.route.(buf := []))
  {
    hide A.GiveAll;
  }
}
