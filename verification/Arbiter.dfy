/**
 * One CAT channel of the router (src/mhrouter.c) and the line arbiter on it (src/cat_native.c),
 * as steps on a value. What the decoder makes of the data is input to the steps.
 */
module Arbiter {
  import opened Cat
  import opened SeqFacts
  import B = Buffers
  import opened Wrappers

  const TURN_TIMEOUT_MS := 500
  const ROUTE_MAX := 256

  type fd = nat

  /** The destinations of radio data; Unsol leaves out connectors that refuse unsolicited frames. */
  datatype Dest = To(conn: fd) | All | Unsol | Nobody

  /** Radio data whose delivery is decided. */
  datatype Seg = Seg(bytes: seq<byte>, dest: Dest)

  /** got: the segments it was given, by number; read: what its application took. */
  datatype Consumer = Consumer(conn: fd, noUnsol: bool, buf: B.Buf<byte>, got: seq<nat>, read: seq<byte>)

  /** The channel in the router. */
  datatype Channel = Channel(
    producers: seq<fd>,
    consumers: seq<Consumer>,
    hold: bool,
    turn: Option<fd>,
    intercept: bool,
    up: bool)

  datatype Protocol = NoDecoder | Civ | OtherProtocol

  /** buf: the beginning of a frame under way; dest: set by the frames that end with the current byte. */
  datatype Routing = Routing(on: bool, buf: seq<byte>, dest: Option<Dest>)

  /** unread: the holder has sent nothing since it got the turn; t: start of its half second. */
  datatype Turn = Turn(conn: Option<fd>, client: clientNo, unread: bool, t: nat)

  datatype Native = Native(
    decoder: Protocol,
    civResend: bool,
    multi: bool,
    filter: bool,
    ownActive: bool,
    route: Routing,
    answered: bool,
    frameDone: bool,
    clients: seq<Option<fd>>,
    turn: Turn)

  datatype Source = App(conn: fd) | OwnQuery | CatOn | Resent(own: bool)

  /** Data that entered the channel, and how the arbiter stood then; pending: as the decoder said. */
  datatype Sent = Sent(
    src: Source,
    bytes: seq<byte>,
    turn: Option<fd>,
    freshTurn: bool,
    ownActive: bool,
    pending: bool)

  /** The history. discarded: clients whose commands were given up. */
  datatype History = History(radio: seq<byte>, segs: seq<Seg>, sends: seq<Sent>, discarded: seq<clientNo>)

  datatype Line = Line(ch: Channel, na: Native, h: History)

  function Create(civResend: bool): Line {
    Line(Channel([], [], false, None, false, false),
         Native(NoDecoder, civResend, false, false, false, Routing(false, [], None), false, false,
                seq(MAX_CLIENTS, i => None), Turn(None, 0, false, 0)),
         History([], [], [], []))
  }

  /** What the decoder says when asked: clients with commands pending, and so on; 0 is mhuxd. */
  datatype View = View(busy: set<clientNo>, answering: set<clientNo>, pending: bool, pendingOwn: bool, lost: bool)

  const IDLE := View({}, {}, false, false, false)

  /** A radio frame that the decoder completes; lost: a command was lost in a collision. */
  datatype RadioFrame = RadioFrame(kind: Kind, own: bool, client: clientNo, lost: bool)

  // ----- Router -----

  predicate MayRead(c: Channel, p: fd) {
    !c.hold && (c.turn == None || c.turn == Some(p))
  }

  predicate Takes(c: Consumer, dest: Dest) {
    match dest
    case To(p) => c.conn == p
    case All => true
    case Unsol => !c.noUnsol
    case Nobody => false
  }

  /** The k-th segment for one consumer: all of it, or nothing if there is no room. */
  function Give(c: Consumer, s: Seg, k: nat): Consumer {
    if Takes(c, s.dest) && |s.bytes| <= c.buf.Avail() then
      c.(buf := B.Buf(c.buf.rpos, c.buf.bytes + s.bytes), got := c.got + [k])
    else c
  }

  function GiveAll(cs: seq<Consumer>, s: Seg, k: nat): (r: seq<Consumer>)
    ensures |r| == |cs|
    ensures forall i | 0 <= i < |cs| :: r[i] == Give(cs[i], s, k)
  {
    if cs == [] then [] else GiveAll(cs[..|cs| - 1], s, k) + [Give(cs[|cs| - 1], s, k)]
  }

  /** The delivery of some radio data is decided. */
  function Deliver(l: Line, bytes: seq<byte>, dest: Dest): Line {
    var s := Seg(bytes, dest);
    l.(ch := l.ch.(consumers := GiveAll(l.ch.consumers, s, |l.h.segs|)), h := l.h.(segs := l.h.segs + [s]))
  }

  function Is(p: fd): fd -> bool {
    (q: fd) => q == p
  }

  function WaitsBeside(waiting: set<fd>, p: fd): fd -> bool {
    (q: fd) => q != p && q in waiting
  }

  /** Round robin: the list is searched from p to its end, then from its start. */
  function NextWaiting(ps: seq<fd>, p: fd, waiting: set<fd>): Option<fd> {
    var i := First(ps, Is(p));
    var rest := if i < |ps| then ps[i + 1..] else [];
    var k := First(rest, WaitsBeside(waiting, p));
    if k < |rest| then Some(rest[k])
    else
      var j := First(ps, WaitsBeside(waiting, p));
      if j < |ps| then Some(ps[j]) else None
  }

  // ----- Routing -----

  function RouteDefault(n: Native): Dest {
    if n.turn.conn.Some? then To(n.turn.conn.value) else All
  }

  function RouteFlush(l: Line, dest: Dest): Line {
    var l1 := if l.na.route.buf == [] then l else Deliver(l, l.na.route.buf, dest);
    l1.(na := l1.na.(route := l1.na.route.(buf := [])))
  }

  function SetRouting(l: Line, on: bool): Line {
    l.(na := l.na.(route := l.na.route.(on := on, buf := [])), ch := l.ch.(intercept := on))
  }

  function RouteStart(l: Line): Line {
    if l.na.route.on then l else SetRouting(l, true)
  }

  function RouteStop(l: Line): Line {
    if !l.na.route.on then l else SetRouting(RouteFlush(l, All), false)
  }

  predicate RouteAlways(n: Native) {
    n.multi || n.filter || (n.civResend && n.decoder == Civ)
  }

  /** Some client number belongs to a connector that is gone, and still has commands pending. */
  predicate RemovedBusy(l: Line, v: View) {
    exists i | 0 <= i < |l.na.clients| && i < MAX_CLIENTS ::
      l.na.clients[i].Some? && l.na.clients[i].value !in l.ch.producers && i + 1 in v.busy
  }

  function RouteCheck(l: Line, v: View): Line {
    if l.na.route.on && !RouteAlways(l.na) && !l.na.ownActive && !v.pendingOwn && !RemovedBusy(l, v)
    then RouteStop(l) else l
  }

  // ----- Turns -----

  function IsClient(p: fd): Option<fd> -> bool {
    (c: Option<fd>) => c == Some(p)
  }

  function IsFree(): Option<fd> -> bool {
    (c: Option<fd>) => c == None
  }

  function IsGone(ps: seq<fd>): Option<fd> -> bool {
    (c: Option<fd>) => c.Some? && c.value !in ps
  }

  /** The connector's client number, or the place where it gets one: free, or of one that is gone. */
  function ClientSlot(clients: seq<Option<fd>>, ps: seq<fd>, p: fd): (i: nat)
    ensures i <= |clients|
  {
    var i, f := First(clients, IsClient(p)), First(clients, IsFree());
    if i < |clients| then i else if f < |clients| then f else First(clients, IsGone(ps))
  }

  function ClientOf(l: Line, p: fd): (Line, clientNo) {
    var i := ClientSlot(l.na.clients, l.ch.producers, p);
    if i < |l.na.clients| && i < MAX_CLIENTS then
      (l.(na := l.na.(clients := l.na.clients[i := Some(p)])), i + 1)
    else (l, 0)
  }

  function TurnGive(l: Line, p: Option<fd>, freshTurn: bool, now: nat): Line {
    var (l1, client) := if p.Some? then ClientOf(l, p.value) else (l, 0);
    l1.(na := l1.na.(turn := Turn(p, client, freshTurn, now)),
        ch := l1.ch.(turn := p))
  }

  /** The line was given to a connector that is still there, and nothing of it was read yet. */
  predicate Fresh(l: Line) {
    l.na.turn.conn.Some? && l.na.turn.unread && l.na.turn.conn.value in l.ch.producers
  }

  predicate TurnBusy(l: Line, v: View) {
    Fresh(l) || (l.na.turn.client != 0 && l.na.turn.client in v.busy)
  }

  /** When the turn's time started, an answer coming in included. */
  function TurnStart(l: Line, v: View, now: nat): nat {
    if TurnBusy(l, v) && l.na.turn.client in v.answering then now else l.na.turn.t
  }

  predicate TurnEnds(l: Line, v: View, now: nat) {
    l.na.turn.conn.Some? && (TurnBusy(l, v) ==> now - TurnStart(l, v, now) >= TURN_TIMEOUT_MS)
  }

  /** The holder loses the line, and its pending commands with it; a connector that waits gets it. */
  function TurnOver(l: Line, v: View, waiting: set<fd>, now: nat): Line
    requires l.na.turn.conn.Some?
  {
    var l1 := if TurnBusy(l, v) && !Fresh(l)
              then l.(h := l.h.(discarded := l.h.discarded + [l.na.turn.client])) else l;
    var next := if l.na.multi then NextWaiting(l.ch.producers, l.na.turn.conn.value, waiting) else None;
    TurnGive(l1, next, next.Some?, now)
  }

  function TurnCheck(l: Line, v: View, waiting: set<fd>, now: nat): Line {
    if l.na.turn.conn == None then l
    else if TurnEnds(l, v, now) then TurnOver(l, v, waiting, now)
    else l.(na := l.na.(turn := l.na.turn.(t := TurnStart(l, v, now))))
  }

  function Refuses(): Consumer -> bool {
    (c: Consumer) => c.noUnsol
  }

  function FilterUpdate(l: Line): Line {
    l.(na := l.na.(filter := First(l.ch.consumers, Refuses()) < |l.ch.consumers| && l.na.decoder != NoDecoder))
  }

  /** The flags that follow from who is connected and from the decoder. */
  function MultiFlags(l: Line, now: nat): Line {
    var multi := |l.ch.producers| > 1 && l.na.decoder != NoDecoder;
    var l1 := FilterUpdate(l);
    var l2 := l1.(na := l1.na.(multi := multi));
    // Only a missing decoder takes the turn away at once.
    if l1.na.multi && !multi && l1.na.decoder == NoDecoder then TurnGive(l2, None, false, now) else l2
  }

  function MultiUpdate(l: Line, v: View, now: nat): Line {
    var l1 := MultiFlags(l, now);
    if RouteAlways(l1.na) then RouteStart(l1) else RouteCheck(l1, v)
  }

  // ----- Own queries -----

  function Hold(l: Line, on: bool): Line {
    l.(ch := l.ch.(hold := on))
  }

  function OwnEnd(l: Line, now: nat): Line {
    if !l.na.ownActive then l
    else
      var l1 := Hold(l.(na := l.na.(ownActive := false)), false);
      if l1.na.turn.conn.Some? && l1.na.turn.unread then l1.(na := l1.na.(turn := l1.na.turn.(t := now))) else l1
  }

  /** The decoder starts over. */
  function Reset(l: Line, now: nat): Line {
    var l1 := OwnEnd(l, now);
    var l2 := if RouteAlways(l1.na) then l1 else RouteStop(l1);
    TurnGive(l2, None, false, now)
  }

  function Setup(l: Line, p: Protocol, now: nat): Line {
    var l1 := Reset(l.(na := l.na.(decoder := NoDecoder)), now);
    MultiUpdate(l1.(na := l1.na.(decoder := p)), IDLE, now)
  }

  function KeyerState(l: Line, p: Option<Protocol>, now: nat): Line {
    var l1 := MultiUpdate(Reset(l.(na := l.na.(decoder := NoDecoder)), now), IDLE, now);
    if p.Some? then Setup(l1, p.value, now) else l1
  }

  predicate IsJam(k: Kind) {
    k == Jam || k == Dropped
  }

  function FrameDest(l: Line, f: RadioFrame): Dest {
    if IsJam(f.kind) && l.na.civResend && l.na.decoder == Civ && f.lost then Nobody
    else if f.client > 0 && f.client <= |l.na.clients| && l.na.clients[f.client - 1].Some?
    then To(l.na.clients[f.client - 1].value)
    else if f.kind == Unsolicited then Unsol
    else RouteDefault(l.na)
  }

  /** A frame that mhuxd asked for: no connector gets it, unless another frame decides. */
  function OnOwnFrame(l: Line, f: RadioFrame, now: nat): Line {
    var l1 := if l.na.ownActive && f.kind != Echo then OwnEnd(l, now) else l;
    if l1.na.route.dest == None then l1.(na := l1.na.(route := l1.na.route.(dest := Some(Nobody)))) else l1
  }

  function OnOtherFrame(l: Line, f: RadioFrame): Line {
    var answer := f.client > 0 && (f.kind == Reply || f.kind == Nak || f.kind == Error);
    l.(na := l.na.(route := l.na.route.(dest := Some(FrameDest(l, f))), answered := l.na.answered || answer))
  }

  /** A radio frame is complete. */
  function OnFrame(l: Line, f: RadioFrame, now: nat): Line {
    var l1 := if IsJam(f.kind) then l else l.(na := l.na.(frameDone := true));
    if f.own then OnOwnFrame(l1, f, now) else OnOtherFrame(l1, f)
  }

  function OnFrames(l: Line, fs: seq<RadioFrame>, now: nat): Line
    decreases |fs|
  {
    if fs == [] then l else OnFrames(OnFrame(l, fs[0], now), fs[1..], now)
  }

  /** Data is fed to the decoder, after a change of the channel's configuration is noticed. */
  function Feed(l: Line, setup: Option<Protocol>, fs: seq<RadioFrame>, now: nat): Line {
    var l1 := if setup.Some? then Setup(l, setup.value, now) else l;
    if l1.na.decoder == NoDecoder then l1 else OnFrames(l1, fs, now)
  }

  function Log(l: Line, src: Source, bytes: seq<byte>, pending: bool): Line {
    var s := Sent(src, bytes, l.na.turn.conn, l.na.turn.unread, l.na.ownActive, pending);
    l.(h := l.h.(sends := l.h.sends + [s]))
  }

  /** What mhuxd would send now; room: the channel has space for it; frames: seen while it is fed. */
  datatype Due = Due(catOn: bool, bytes: seq<byte>, room: bool, frames: seq<RadioFrame>)

  function OwnSend(l: Line, d: Due, v: View, now: nat): Line {
    if !(l.ch.up && d.room) then Hold(l, false)
    else
      var l1 := Hold(Log(l, OwnQuery, d.bytes, v.pending), true);
      var l2 := RouteStart(l1.(na := l1.na.(ownActive := true)));
      OnFrames(l2, d.frames, now)
  }

  function OwnCatOn(l: Line, d: Due, v: View, now: nat): Line {
    if !(l.ch.up && d.room) then l else OnFrames(Log(l, CatOn, d.bytes, v.pending), d.frames, now)
  }

  /** The line is free for an own query: nothing of an application is on it. */
  predicate FreeForOwn(l: Line, v: View) {
    !l.na.ownActive && l.na.decoder != NoDecoder && !v.pending && (l.na.turn.conn == None || l.na.turn.unread)
  }

  function OwnTry(l: Line, d: Option<Due>, v: View, now: nat): Line {
    if !FreeForOwn(l, v) || d == None then l
    else if d.value.catOn then OwnCatOn(l, d.value, v, now)
    else OwnSend(l, d.value, v, now)
  }

  /** The timer of an own query: it is put off while an answer arrives, otherwise the hold ends. */
  function OwnTimeout(l: Line, v: View, now: nat): Line {
    if 0 in v.answering then l else OwnEnd(l, now)
  }

  /** A command that was lost in a collision, to be sent again. */
  datatype Lost = Lost(bytes: seq<byte>, client: clientNo, own: bool, room: bool)

  function CivAgain(l: Line, v: View, c: Option<Lost>, now: nat): Line {
    if l.na.decoder != Civ || !v.lost || c == None then l
    else if c.value.own && !l.na.ownActive then l
    else if !(l.ch.up && c.value.room) then l
    else
      var l1 := Log(l, Resent(c.value.own), c.value.bytes, v.pending);
      if !c.value.own && c.value.client != 0 && c.value.client == l.na.turn.client
      then l1.(na := l1.na.(turn := l1.na.turn.(t := now))) else l1
  }

  // ----- Data -----

  /** Data of p was read: p takes a free line, and its half second starts again. */
  function TakeTurn(l: Line, p: fd, now: nat): Line {
    var l1 := if l.na.multi && l.na.turn.conn == None then TurnGive(l, Some(p), false, now) else l;
    if l1.na.turn.conn == Some(p) then l1.(na := l1.na.(turn := l1.na.turn.(unread := false, t := now))) else l1
  }

  /** A connector's data is read into the channel. */
  function HostRead(l: Line, p: fd, bytes: seq<byte>, v: View, setup: Option<Protocol>, fs: seq<RadioFrame>, now: nat):
    Line
  {
    if !MayRead(l.ch, p) || !l.ch.up || bytes == [] || p !in l.ch.producers then l
    else
      var l1 := TakeTurn(MultiUpdate(Log(l, App(p), bytes, v.pending), v, now), p, now);
      Feed(ClientOf(l1, p).0, setup, fs, now)
  }

  /** What the decoder says while a radio byte is looked at. */
  datatype RadioInput = RadioInput(
    setup: Option<Protocol>,
    frames: seq<RadioFrame>,
    v: View,
    waiting: set<fd>,
    lost: Option<Lost>,
    afterTurn: View,
    due: Option<Due>,
    atEnd: View)

  function AfterByte(l: Line, i: RadioInput, now: nat): Line {
    var l1 := TurnCheck(l, i.v, i.waiting, now);
    if l1.na.answered then OwnTry(l1, i.due, i.afterTurn, now) else l1
  }

  /** The router passes the byte on if it is not intercepted. */
  function Arrive(l: Line, b: byte): Line {
    var l1 := l.(h := l.h.(radio := l.h.radio + [b]));
    if l.ch.intercept then l1 else Deliver(l1, [b], All)
  }

  /** The byte joins the frame that is being collected. */
  function Collect(l: Line, b: byte): Line {
    var l1 := if |l.na.route.buf| == ROUTE_MAX then RouteFlush(l, RouteDefault(l.na)) else l;
    l1.(na := l1.na.(route := l1.na.route.(buf := l1.na.route.buf + [b], dest := None), frameDone := false))
  }

  /** Frames that the byte completed are on their way; a lost command may go out again. */
  function Route(l: Line, i: RadioInput, now: nat): Line {
    var l1 := if l.na.route.dest.Some? then RouteFlush(l, l.na.route.dest.value) else l;
    if l1.na.civResend && l1.na.decoder == Civ && i.v.lost && l1.na.frameDone
    then CivAgain(l1, i.v, i.lost, now) else l1
  }

  function RadioByte(l: Line, b: byte, i: RadioInput, now: nat): Line {
    var l0 := Arrive(l, b);
    var l1 := l0.(na := l0.na.(answered := false));
    if !l1.na.route.on then AfterByte(Feed(l1, i.setup, i.frames, now), i, now)
    else RouteCheck(AfterByte(Route(Feed(Collect(l1, b), i.setup, i.frames, now), i, now), i, now), i.atEnd)
  }

  /** The periodic look: late frames, connectors, routing, configuration, and own queries. */
  function Tick(l: Line, i: RadioInput, quiet: bool, now: nat): Line {
    var l1 := if l.na.decoder == NoDecoder then l else OnFrames(l, i.frames, now);
    var l2 := RouteCheck(MultiUpdate(l1, i.v, now), i.v);
    if l2.na.ownActive then l2
    else
      var l3 := if i.setup.Some? then Setup(l2, i.setup.value, now) else l2;
      if quiet then OwnTry(l3, i.due, i.afterTurn, now) else l3
  }

  // ----- Runs -----

  datatype Event =
    | Host(p: fd, bytes: seq<byte>, v: View, setup: Option<Protocol>, frames: seq<RadioFrame>)
    | Radio(b: byte, i: RadioInput)
    | Ticked(i: RadioInput, quiet: bool)
    | TurnTimer(v: View, waiting: set<fd>)
    | RouteTimer
    | OwnTimer(v: View)
    | ResendTimer(v: View, lost: Option<Lost>)
    | ProducerAdded(p: fd)
    | ProducerRemoved(p: fd)
    | ConsumerAdded(p: fd, noUnsol: bool)
    | ConsumerRemoved(p: fd)
    | ConsumerReads(k: nat, n: nat)
    | Flagged(p: fd, noUnsol: bool)
    | Link(up: bool)
    | Keyer(to: Option<Protocol>)

  function WithoutFirst<T>(s: seq<T>, p: T -> bool): seq<T> {
    var i := First(s, p);
    if i < |s| then s[..i] + s[i + 1..] else s
  }

  function HasFd(p: fd): Consumer -> bool {
    (c: Consumer) => c.conn == p
  }

  function Marked(cs: seq<Consumer>, p: fd, noUnsol: bool): (r: seq<Consumer>)
    ensures |r| == |cs|
    ensures forall i | 0 <= i < |cs| :: r[i] == if cs[i].conn == p then cs[i].(noUnsol := noUnsol) else cs[i]
  {
    seq(|cs|, i requires 0 <= i < |cs| => if cs[i].conn == p then cs[i].(noUnsol := noUnsol) else cs[i])
  }

  function Drained(c: Consumer, n: nat): Consumer {
    var k := if n <= |c.buf.bytes| then n else |c.buf.bytes|;
    c.(buf := B.Advance(c.buf, k), read := c.read + c.buf.bytes[..k])
  }

  /** Connectors come, go, and take what they were given. */
  function Connector(c: Channel, e: Event): Channel {
    match e
    case ProducerAdded(p) => c.(producers := c.producers + [p])
    case ProducerRemoved(p) => c.(producers := WithoutFirst(c.producers, Is(p)))
    case ConsumerAdded(p, noUnsol) => c.(consumers := c.consumers + [Consumer(p, noUnsol, B.Empty(), [], [])])
    case ConsumerRemoved(p) => c.(consumers := WithoutFirst(c.consumers, HasFd(p)))
    case ConsumerReads(i, n) =>
      if i < |c.consumers| then c.(consumers := c.consumers[i := Drained(c.consumers[i], n)]) else c
    case Flagged(p, noUnsol) => c.(consumers := Marked(c.consumers, p, noUnsol))
    case Link(up) => c.(up := up)
    case _ => c
  }

  function Step(l: Line, e: Event, now: nat): Line {
    match e
    case Host(p, bytes, v, setup, frames) => HostRead(l, p, bytes, v, setup, frames, now)
    case Radio(b, i) => RadioByte(l, b, i, now)
    case Ticked(i, quiet) => Tick(l, i, quiet, now)
    case TurnTimer(v, waiting) => TurnCheck(l, v, waiting, now)
    case RouteTimer => RouteFlush(l, RouteDefault(l.na))
    case OwnTimer(v) => OwnTimeout(l, v, now)
    case ResendTimer(v, lost) => CivAgain(l, v, lost, now)
    case Keyer(p) => KeyerState(l, p, now)
    case _ => l.(ch := Connector(l.ch, e))
  }

  /** Events with their times. */
  function Run(l: Line, es: seq<(Event, nat)>): Line
    decreases |es|
  {
    if es == [] then l else Run(Step(l, es[0].0, es[0].1), es[1..])
  }
}
