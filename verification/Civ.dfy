/** The CI-V decoder of src/cat_civ.c as steps on a value. */
module Civ {
  import opened Cat
  import opened CatState
  import opened CivTables
  import F = CivFramer
  import opened SeqFacts
  import opened Sources
  import opened Wrappers

  const PEND_MAX := 8
  const PEND_TIMEOUT_MS := 2000
  const COLLISION_MS := 150

  /**
   * A whole frame as the decoder got it: its place in seen is its number. known: whether the
   * radio's address was known before.
   */
  datatype Seen = Seen(dir: Dir, client: clientNo, bytes: frame, t: nat, known: bool)

  /** An entry of the pending list; id: the place of its frame in seen. */
  datatype Pending = Pending(
    buf: frame,
    t: nat,
    fromHost: bool,
    echoed: bool,
    own: bool,
    client: clientNo,
    lost: bool,
    resends: nat,
    id: nat)

  /** The command that a radio frame was matched with. */
  datatype Credit = Credit(id: nat, cmd: frame)

  /** at: how many frames had been seen; radio: the radio's address as far as it was known. */
  datatype Entry = Entry(f: Frame, credit: Option<Credit>, at: nat, radio: byte)

  /** A command was sent again. */
  datatype Sending = Sending(id: nat, t: nat)

  /** A client was discarded: how many frames and entries there were, and whether the address was known. */
  datatype Cut = Cut(client: clientNo, seen: nat, log: nat, known: bool)

  /** last is the previous whole frame; seen, log, resent and cuts are the history. */
  datatype Decoder = Decoder(
    freqLen: nat,
    radio: byte,
    st: State,
    rx: seq<F.Rx>,
    pend: seq<Pending>,
    last: Option<Seen>,
    seen: seq<Seen>,
    log: seq<Entry>,
    resent: seq<Sending>,
    cuts: seq<Cut>)

  function Create(radio: byte, freqLen: nat, st: State): Decoder {
    Decoder(if freqLen == 0 then 5 else freqLen, radio, st,
            seq(RX_NUM, i => F.Rx(F.Idle, [], 0)), [], None, [], [], [], [])
  }

  predicate ValidRx(rx: seq<F.Rx>) {
    |rx| == RX_NUM && forall i | 0 <= i < RX_NUM :: F.ValidRx(rx[i])
  }

  function Emit(c: Decoder, f: Frame, credit: Option<Credit>): Decoder {
    c.(log := c.log + [Entry(f, credit, |c.seen|, c.radio)])
  }

  // ----- Pending commands -----

  function PendExpire(pend: seq<Pending>, t: nat): seq<Pending> {
    if pend != [] && pend[0].t + PEND_TIMEOUT_MS < t then PendExpire(pend[1..], t) else pend
  }

  function PendAdd(pend: seq<Pending>, s: Seen, id: nat, t: nat): seq<Pending> {
    (if |pend| == PEND_MAX then pend[1..] else pend)
    + [Pending(s.bytes, t, s.dir != Radio, s.dir == Radio, s.dir == Own,
               if s.dir == Host then s.client else 0, false, 0, id)]
  }

  /** The entries that do not belong to the controller and client. */
  function Others(pend: seq<Pending>, ctrl: byte, client: clientNo): seq<Pending> {
    if pend == [] then []
    else (if From(pend[0].buf) == ctrl && pend[0].client == client then [] else [pend[0]])
         + Others(pend[1..], ctrl, client)
  }

  /** Entry i is answered, which settles all older ones of its controller and client. */
  function Consume(pend: seq<Pending>, i: nat): seq<Pending>
    requires i < |pend|
  {
    Others(pend[..i + 1], From(pend[i].buf), pend[i].client) + pend[i + 1..]
  }

  function IsQueryOf(r: frame): Pending -> bool {
    (p: Pending) => Answers(p.buf, r)
  }

  function IsAckedBy(ctrl: byte, ok: bool): Pending -> bool {
    (p: Pending) => Acknowledges(p.buf, ctrl, ok)
  }

  function IsEchoedBy(f: frame): Pending -> bool {
    (p: Pending) => p.fromHost && !p.echoed && p.buf == f
  }

  // ----- Classification -----

  /** The radio's address from a broadcast, an acknowledge, or a command and its reply. */
  function LearnAddr(c: Decoder, dir: Dir, f: frame, t: nat): Decoder
    requires c.seen != []
  {
    if dir != Radio then c
    else if To(f) == BCAST || CmdOf(f) == OK || CmdOf(f) == NG then c.(radio := From(f))
    else if c.last.Some? && To(c.last.value.bytes) == From(f) && From(c.last.value.bytes) == To(f)
            && CmdOf(c.last.value.bytes) == CmdOf(f) && |c.seen| >= 2 then
      c.(radio := From(f), pend := PendAdd(c.pend, c.last.value, |c.seen| - 2, t))
    else c
  }

  function RadioFrame(kind: Kind, t: nat, f: frame, applied: bool, own: bool, client: clientNo): Frame {
    Frame(kind, Radio, t, f, applied, own, client)
  }

  function CreditOf(p: Pending): Option<Credit> {
    Some(Credit(p.id, p.buf))
  }

  function Broadcast(c: Decoder, f: frame, t: nat): Decoder {
    var (st, r) := ApplyUnsolicited(c.freqLen, c.st, f, t);
    Emit(c.(st := st), RadioFrame(if r == Invalid then Bad else Unsolicited, t, f, r == Updated, false, 0), None)
  }

  function Acknowledge(c: Decoder, f: frame, t: nat): Decoder {
    var ok := CmdOf(f) == OK;
    var kind := if ok then Ack else Nak;
    var i := First(c.pend, IsAckedBy(To(f), ok));
    if i == |c.pend| then Emit(c, RadioFrame(kind, t, f, false, false, 0), None)
    else
      var p := c.pend[i];
      var (st, r) := if ok && PurposeOf(p.buf) == Set then ApplySet(c.freqLen, c.st, p.buf, t) else (c.st, Nothing);
      Emit(c.(st := st, pend := Consume(c.pend, i)),
           RadioFrame(kind, t, f, r == Updated, p.own, p.client), CreditOf(p))
  }

  function ReplyTo(c: Decoder, f: frame, t: nat): Decoder {
    var i := First(c.pend, IsQueryOf(f));
    if i == |c.pend| then Emit(c, RadioFrame(Unmatched, t, f, false, false, 0), None)
    else
      var p := c.pend[i];
      var (st, r) := ApplyReply(c.freqLen, c.st, f, t);
      Emit(c.(st := st, pend := Consume(c.pend, i)),
           RadioFrame(if r == Invalid then Bad else Reply, t, f, r == Updated, p.own, p.client), CreditOf(p))
  }

  /** A command to the radio on the bus: the echo of host data, or another controller's. */
  function OnBus(c: Decoder, s: Seen): Decoder
    requires c.seen != []
  {
    var f, t := s.bytes, s.t;
    var i := First(c.pend, IsEchoedBy(f));
    if i == |c.pend| then
      Emit(c.(pend := PendAdd(c.pend, s, |c.seen| - 1, t)),
           RadioFrame(Cmd, t, f, false, false, 0), None)
    else
      var p := c.pend[i];
      Emit(c.(pend := c.pend[i := p.(echoed := true)]), RadioFrame(Echo, t, f, false, p.own, p.client), CreditOf(p))
  }

  function ProcessRadio(c: Decoder, s: Seen): Decoder
    requires c.seen != []
  {
    var ra, f, t := c.radio, s.bytes, s.t;
    if From(f) == ra && To(f) != ra then
      if To(f) == BCAST then Broadcast(c, f, t)
      else if CmdOf(f) == OK || CmdOf(f) == NG then Acknowledge(c, f, t)
      else ReplyTo(c, f, t)
    else if To(f) == ra && From(f) != ra && From(f) != BCAST then OnBus(c, s)
    else Emit(c, RadioFrame(Foreign, t, f, false, false, 0), None)
  }

  /** The frame gets its number, expired commands go, and the radio's address may be learned. */
  function Admit(c: Decoder, s: Seen): (r: Decoder)
    ensures r.seen == c.seen + [s]
  {
    var c1 := c.(seen := c.seen + [s], pend := PendExpire(c.pend, s.t));
    if c1.radio == 0 then LearnAddr(c1, s.dir, s.bytes, s.t) else c1
  }

  function Classify(c: Decoder, s: Seen): Decoder
    requires c.seen != []
  {
    var f, t := s.bytes, s.t;
    if c.radio == 0 then Emit(c, Frame(Foreign, s.dir, t, f, false, s.dir == Own, s.client), None)
    else if s.dir == Radio then ProcessRadio(c, s)
    else if To(f) == c.radio && From(f) != BCAST then
      Emit(c.(pend := PendAdd(c.pend, s, |c.seen| - 1, t)),
           Frame(Cmd, s.dir, t, f, false, s.dir == Own, s.client), None)
    else Emit(c, Frame(Foreign, s.dir, t, f, false, s.dir == Own, s.client), None)
  }

  function ProcessFrame(c: Decoder, s: Seen): Decoder {
    Classify(Admit(c, s), s).(last := Some(s))
  }

  // ----- Bytes -----

  /** After a jam: which commands count as destroyed. */
  function MarkLost(pend: seq<Pending>, t: nat): seq<Pending> {
    seq(|pend|, k requires 0 <= k < |pend| =>
      if pend[k].fromHost && !pend[k].echoed && pend[k].t + COLLISION_MS >= t then pend[k].(lost := true) else pend[k])
  }

  function Debris(c: Decoder, i: source, buf: seq<byte>, t: nat): Decoder {
    if |buf| > 2 then Emit(c, Frame(Dropped, DirOf(i), t, buf, false, i == RX_OWN, ClientOf(i)), None) else c
  }

  function Report(c: Decoder, i: source, g: F.Got, t: nat): Decoder {
    match g
    case Whole(bytes) =>
      if F.IsFrame(bytes) then ProcessFrame(c, Seen(DirOf(i), ClientOf(i), bytes, t, c.radio != 0)) else c
    case Debris(buf) => Debris(c, i, buf, t)
    case Collision(buf) =>
      var c1 := if i == RX_RADIO then c.(pend := MarkLost(c.pend, t)) else c;
      Emit(Debris(c1, i, buf, t), Frame(Jam, DirOf(i), t, [F.COL], false, i == RX_OWN, ClientOf(i)), None)
  }

  function RxByte(c: Decoder, i: source, b: byte, t: nat): Decoder
    requires |c.rx| == RX_NUM
  {
    var (r, g) := F.Byte(c.rx[i], b, t);
    var c1 := if g == [] then c else Report(c, i, g[0], t);
    c1.(rx := c.rx[i := r])
  }

  // ----- What the line arbiter asks for -----

  function NotOf(client: clientNo): Pending -> bool {
    (p: Pending) => p.client != client
  }

  function Discard(c: Decoder, client: clientNo): Decoder
    requires |c.rx| == RX_NUM
  {
    if client == 0 then c
    else c.(rx := c.rx[client - 1 := c.rx[client - 1].(buf := [], state := F.Idle)],
            pend := Filter(c.pend, NotOf(client)),
            cuts := c.cuts + [Cut(client, |c.seen|, |c.log|, c.radio != 0)])
  }

  /** The oldest lost command that was not sent again max times yet, to be sent again. */
  function Resend(pend: seq<Pending>, max: nat, t: nat): (r: (seq<Pending>, Option<Pending>))
    ensures |r.0| == |pend|
  {
    if pend == [] then ([], None)
    else
      var p := pend[0];
      if p.lost && p.resends < max then
        var p' := p.(lost := false, resends := p.resends + 1, t := t);
        ([p'] + pend[1..], Some(p'))
      else
        var (rest, r) := Resend(pend[1..], max, t);
        ([p.(lost := false)] + rest, r)
  }

  function SendAgain(c: Decoder, max: nat, t: nat): Decoder {
    var (pend, r) := Resend(c.pend, max, t);
    c.(pend := pend, resent := if r.Some? then c.resent + [Sending(r.value.id, t)] else c.resent)
  }

  datatype Event =
    | ByteEvent(i: source, b: byte, t: nat)
    | DiscardEvent(client: clientNo)
    | ResendEvent(max: nat, t: nat)

  function Step(c: Decoder, e: Event): (r: Decoder)
    requires |c.rx| == RX_NUM
    ensures |r.rx| == RX_NUM
  {
    match e
    case ByteEvent(i, b, t) => RxByte(c, i, b, t)
    case DiscardEvent(client) => Discard(c, client)
    case ResendEvent(max, t) => SendAgain(c, max, t)
  }

  function Run(c: Decoder, es: seq<Event>): (r: Decoder)
    requires |c.rx| == RX_NUM
    ensures |r.rx| == RX_NUM
    decreases |es|
  {
    if es == [] then c else Run(Step(c, es[0]), es[1..])
  }
}
