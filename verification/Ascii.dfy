/** The ASCII decoder of src/cat_ascii.c as steps on a value. */
module Ascii {
  import opened Cat
  import opened CatState
  import opened AsciiTables
  import opened SeqFacts
  import opened Sources
  import F = AsciiFramer
  import opened Wrappers

  const PEND_MAX := 8
  const PEND_TIMEOUT_MS := 2000
  const SET_WAIT_MS := 200

  /** t: when the last byte came. */
  datatype Rx = Rx(buf: text, t: nat)

  /** A command as the decoder got it: its place in seen is its number. */
  datatype Seen = Seen(dir: Dir, client: clientNo, bytes: text, t: nat)

  datatype Pending = Pending(prefix: text, frame: text, t: nat, own: bool, client: clientNo, query: bool, id: nat)

  /** The command that a radio frame answers. */
  datatype Credit = Credit(id: nat, cmd: text)

  datatype Entry = Entry(f: Frame, credit: Option<Credit>)

  /** seen and log are the history. */
  datatype Decoder = Decoder(
    cfg: Cfg,
    v: Tracked,
    rx: seq<Rx>,
    pend: seq<Pending>,
    seen: seq<Seen>,
    log: seq<Entry>)

  function Create(cfg: Cfg, st: State): Decoder {
    Decoder(cfg, Tracked(st, None, UNKNOWN, UNKNOWN), seq(RX_NUM, i => Rx([], 0)), [], [], [])
  }

  /** A frame without its semicolon. */
  function Body(bytes: text): text {
    if bytes == [] then [] else bytes[..|bytes| - 1]
  }

  function PrefixOf(s: text): text {
    if |s| >= 4 && Named(s, 'Z', 'Z') then s[..4] else if |s| >= 2 then s[..2] else s
  }

  /** No parameters: the radio answers it. */
  predicate IsQuery(bytes: text) {
    |bytes| == |PrefixOf(Body(bytes))| + 1
  }

  // ----- Pending commands -----

  predicate LiveAt(p: Pending, t: nat) {
    p.t + (if p.query then PEND_TIMEOUT_MS else SET_WAIT_MS) >= t
  }

  function Lives(t: nat): Pending -> bool {
    (p: Pending) => LiveAt(p, t)
  }

  function PendingOf(s: Seen, id: nat): Pending {
    Pending(PrefixOf(Body(s.bytes)), s.bytes, s.t, s.dir == Own, s.client, IsQuery(s.bytes), id)
  }

  function PendAdd(pend: seq<Pending>, s: Seen, id: nat): seq<Pending> {
    var live := Filter(pend, Lives(s.t));
    (if |live| == PEND_MAX then live[1..] else live) + [PendingOf(s, id)]
  }

  /** A command this radio frame may answer; an error (no frame) may answer any. */
  predicate MayAnswer(p: Pending, frame: Option<text>, t: nat) {
    LiveAt(p, t) && (frame.Some? ==> p.prefix == PrefixOf(Body(frame.value)))
  }

  function IsQueryFor(frame: Option<text>, t: nat): Pending -> bool {
    (p: Pending) => p.query && MayAnswer(p, frame, t)
  }

  function IsFor(frame: Option<text>, t: nat): Pending -> bool {
    (p: Pending) => MayAnswer(p, frame, t)
  }

  function RemoveAtIndex(pend: seq<Pending>, i: nat): seq<Pending>
    requires i < |pend|
  {
    pend[..i] + pend[i + 1..]
  }

  /** Takes the entry that is credited: queries come before other commands, older before newer. */
  function PendTake(pend: seq<Pending>, frame: Option<text>, t: nat): (seq<Pending>, Option<Pending>) {
    var i := First(pend, IsQueryFor(frame, t));
    var j := First(pend, IsFor(frame, t));
    if i < |pend| then (RemoveAtIndex(pend, i), Some(pend[i]))
    else if j == |pend| then (pend, None)
    // Auto information echoes sets; that credits nobody.
    else if frame.Some? && !pend[j].own && pend[j].frame == frame.value then (RemoveAtIndex(pend, j), None)
    else (RemoveAtIndex(pend, j), Some(pend[j]))
  }

  // ----- Frames -----

  function Emit(d: Decoder, f: Frame, credit: Option<Credit>): Decoder {
    d.(log := d.log + [Entry(f, credit)])
  }

  /** A decoder that knows no selection assumes VFO A. */
  function Settled(v: Tracked, t: nat): Tracked {
    if v.st.ab.valid then v else v.(st := SelectVfo(v.st, A, t))
  }

  function HostFrame(d: Decoder, s: Seen): Decoder {
    var (v, r) := ApplyFrame(d.cfg, Settled(d.v, s.t), Body(s.bytes), true, s.t);
    var d1 := if Body(s.bytes) == [] then d else d.(pend := PendAdd(d.pend, s, |d.seen|), seen := d.seen + [s]);
    Emit(d1.(v := v), Frame(Cmd, s.dir, s.t, s.bytes, r == Updated, s.dir == Own, s.client), None)
  }

  predicate IsError(s: text) {
    |s| == 1 && (s[0] as char == '?' || s[0] as char == 'E' || s[0] as char == 'O')
  }

  function Credited(kind: Kind, t: nat, bytes: text, applied: bool, p: Option<Pending>): Entry {
    match p
    case None => Entry(Frame(kind, Radio, t, bytes, applied, false, 0), None)
    case Some(p) => Entry(Frame(kind, Radio, t, bytes, applied, p.own, p.client), Some(Credit(p.id, p.frame)))
  }

  function RadioFrame(d: Decoder, bytes: text, t: nat): Decoder {
    var v0 := Settled(d.v, t);
    var s := Body(bytes);
    if IsError(s) then
      var (pend, p) := PendTake(d.pend, None, t);
      d.(v := v0, pend := pend, log := d.log + [Credited(Error, t, bytes, false, p)])
    else
      var (pend, p) := if s == [] then (d.pend, None) else PendTake(d.pend, Some(bytes), t);
      var (v, r) := ApplyFrame(d.cfg, v0, s, false, t);
      var kind := if r == Invalid then Bad else if p.Some? then Reply else Unsolicited;
      d.(v := v, pend := pend, log := d.log + [Credited(kind, t, bytes, r == Updated, p)])
  }

  function Report(d: Decoder, i: source, g: F.Got, t: nat): Decoder {
    match g
    case Whole(bytes) =>
      if i == RX_RADIO then RadioFrame(d, bytes, t) else HostFrame(d, Seen(DirOf(i), ClientOf(i), bytes, t))
    case Broken(bytes) => Emit(d, Frame(Dropped, DirOf(i), t, bytes, false, i == RX_OWN, ClientOf(i)), None)
  }

  function RxByte(d: Decoder, i: source, b: byte, t: nat): Decoder
    requires |d.rx| == RX_NUM
  {
    var (buf, g) := F.Byte(d.rx[i].buf, b);
    var d1 := if g == [] then d else Report(d, i, g[0], t);
    d1.(rx := d.rx[i := Rx(buf, t)])
  }

  // ----- What the line arbiter asks for -----

  predicate Partial(r: Rx, t: nat) {
    r.buf != [] && r.t + PEND_TIMEOUT_MS >= t
  }

  function OfClient(client: clientNo, t: nat): Pending -> bool {
    (p: Pending) => p.client == client && LiveAt(p, t)
  }

  predicate ClientBusy(d: Decoder, client: clientNo, t: nat)
    requires |d.rx| == RX_NUM
  {
    client != 0 && (Partial(d.rx[client - 1], t) || First(d.pend, OfClient(client, t)) < |d.pend|)
  }

  function NotOf(client: clientNo): Pending -> bool {
    (p: Pending) => p.client != client
  }

  function Discard(d: Decoder, client: clientNo): Decoder
    requires |d.rx| == RX_NUM
  {
    if client == 0 then d
    else d.(rx := d.rx[client - 1 := d.rx[client - 1].(buf := [])], pend := Filter(d.pend, NotOf(client)))
  }

  datatype Event =
    | ByteEvent(i: source, b: byte, t: nat)
    | DiscardEvent(client: clientNo)

  function Step(d: Decoder, e: Event): (r: Decoder)
    requires |d.rx| == RX_NUM
    ensures |r.rx| == RX_NUM
  {
    match e
    case ByteEvent(i, b, t) => RxByte(d, i, b, t)
    case DiscardEvent(client) => Discard(d, client)
  }

  function Run(d: Decoder, es: seq<Event>): (r: Decoder)
    requires |d.rx| == RX_NUM
    ensures |r.rx| == RX_NUM
    decreases |es|
  {
    if es == [] then d else Run(Step(d, es[0]), es[1..])
  }

  /** Time never runs backwards. */
  predicate InTime(es: seq<Event>, now: nat)
    decreases |es|
  {
    es == [] || (if es[0].ByteEvent? then now <= es[0].t && InTime(es[1..], es[0].t) else InTime(es[1..], now))
  }
}
