/** The Yaesu binary decoder of src/cat_ybin.c as steps on a value. */
module Ybin {
  import opened Cat
  import opened CatState
  import opened YbinTables

  const PEND_MAX := 8
  const GIVEUP_MS := 200
  const CMD_GAP_MS := 300
  const ANSWER_MS := 1000
  const BYTE_GAP_MS := 100

  /** Where commands come from: clients 1 to 9 at 0 to 8, mhuxd after them. */
  const RX_OWN := MAX_CLIENTS
  const RX_NUM := MAX_CLIENTS + 1

  type source = i: int | 0 <= i < RX_NUM

  datatype Rx = Rx(buf: seq<byte>, t: nat)

  /** An entry of the pending list; sent and last are the source's t_ms and t_last. */
  datatype Pending = Pending(
    cmd: command,
    len: nat,
    guess: bool,
    own: bool,
    client: clientNo,
    got: nat,
    sent: nat,
    last: nat)

  datatype Decoder = Decoder(
    model: Model,
    st: State,
    rx: seq<Rx>,
    pend: seq<Pending>,
    ans: seq<byte>,
    hold: seq<nat>,
    pacing: nat,
    log: seq<Frame>)

  function Create(m: Model, st: State): (y: Decoder)
    ensures Valid(y)
  {
    Decoder(m, st, seq(RX_NUM, i => Rx([], 0)), [], [], seq(RX_NUM, i => 0), 0, [])
  }

  function DirOf(i: source): Dir {
    if i == RX_OWN then Own else Host
  }

  function ClientOf(i: source): clientNo {
    if i == RX_OWN then 0 else i + 1
  }

  predicate ValidPending(m: Model, p: Pending) {
    AnswerLen(m, p.cmd) == Length(p.len, p.guess) && 0 < p.len
  }

  predicate ValidList(m: Model, pend: seq<Pending>) {
    && |pend| <= PEND_MAX
    && (forall i | 0 <= i < |pend| :: ValidPending(m, pend[i]))
    && (forall i | 0 < i < |pend| :: pend[i].got == 0)
  }

  predicate ValidRx(rx: seq<Rx>) {
    |rx| == RX_NUM && forall i | 0 <= i < RX_NUM :: |rx[i].buf| < CMD_LEN
  }

  /** Between calls: only the head has answer bytes, and its unreported piece is in ans. */
  predicate Valid(y: Decoder) {
    && ValidRx(y.rx)
    && |y.hold| == RX_NUM
    && ValidList(y.model, y.pend)
    && (y.pend != [] ==> y.pend[0].got < y.pend[0].len)
    && |y.ans| == (if y.pend == [] then 0 else y.pend[0].got % MAX_FRAME)
  }

  function Emit(y: Decoder, f: Frame): Decoder {
    y.(log := y.log + [f])
  }

  function ByteGap(y: Decoder): nat {
    BYTE_GAP_MS + y.pacing
  }

  /** Neither the wait for the first byte nor the gap since the last one has run out at t. */
  predicate PendLive(y: Decoder, p: Pending, t: nat) {
    if p.got > 0 then p.last + ByteGap(y) >= t else p.sent + ANSWER_MS + y.pacing >= t
  }

  /** The head without answer bytes is forgotten. */
  function DropHead(y: Decoder): Decoder
    requires y.pend != []
  {
    y.(pend := y.pend[1..], ans := [])
  }

  /** The next command's answer is due from t on. */
  function Restart(pend: seq<Pending>, t: nat): seq<Pending> {
    if pend != [] && pend[0].sent < t then pend[0 := pend[0].(sent := t)] else pend
  }

  /** The head's answer is all there: len <= 80 bytes of it in ans. */
  predicate Complete(y: Decoder) {
    && y.pend != []
    && ValidPending(y.model, y.pend[0])
    && y.pend[0].got == y.pend[0].len
    && (y.pend[0].len <= MAX_FRAME ==> |y.ans| == y.pend[0].len)
  }

  /** The head leaves the list, and what is in ans goes out as a frame of its own. */
  function AnswerDone(y: Decoder, complete: bool, t: nat): Decoder
    requires y.pend != []
    requires complete ==> Complete(y)
  {
    var p, a := y.pend[0], y.ans;
    var y1 := y.(pend := Restart(y.pend[1..], t), ans := []);
    if !complete then
      EmitPiece(y1, if p.guess then Reply else Dropped, a, false, p, p.last)
    else if p.len > MAX_FRAME then
      EmitPiece(y1, Reply, a, false, p, t)
    else
      var (st, r) := ApplyAnswer(y.model, y.st, p.cmd, a, t);
      EmitPiece(y1.(st := st), if r == Invalid then Bad else if IsAck(y.model, p.cmd) then Ack else Reply,
                a, r == Updated, p, t)
  }

  function EmitPiece(y: Decoder, k: Kind, a: seq<byte>, applied: bool, p: Pending, t: nat): Decoder {
    if a == [] then y else Emit(y, Frame(k, Radio, t, a, applied, p.own, p.client))
  }

  /** Answers that ended or never came. */
  function PendExpire(y: Decoder, t: nat): Decoder
    decreases |y.pend|
  {
    if y.pend == [] || PendLive(y, y.pend[0], t) then y
    else PendExpire(if y.pend[0].got > 0 then AnswerDone(y, false, t) else DropHead(y), t)
  }

  /** Unanswered heads go once they are older than the give-up time. */
  function PendGiveup(y: Decoder, t: nat): Decoder
    decreases |y.pend|
  {
    if y.pend == [] || y.pend[0].got > 0 || y.pend[0].sent + GIVEUP_MS >= t then y
    else PendGiveup(DropHead(y), t)
  }

  function Evict(y: Decoder, t: nat): Decoder {
    if |y.pend| == PEND_MAX then
      if y.pend[0].got > 0 then AnswerDone(y, false, t) else DropHead(y)
    else y
  }

  function PendAdd(y: Decoder, c: command, l: Length, i: source, t: nat): Decoder {
    var y1 := Evict(y, t);
    y1.(pend := y1.pend + [Pending(c, l.n, l.guess, i == RX_OWN, ClientOf(i), 0, t, t)])
  }

  /** A decoder that knows no selection assumes VFO A. */
  function AssumeVfoA(y: Decoder, t: nat): Decoder {
    if y.st.ab.valid then y else y.(st := SelectVfo(y.st, A, t))
  }

  function Queue(y: Decoder, i: source, c: command, t: nat): Decoder
    requires |y.hold| == RX_NUM
  {
    var y1 := if c[4] == 0x0e && HasPacing(y.model) then y.(pacing := c[3]) else y;
    var l := AnswerLen(y.model, c);
    if l.n > 0 then PendAdd(y1, c, l, i, t)
    else y1.(hold := y1.hold[ClientOf(i) := t + HoldMs(y.model)])
  }

  /** What a new command does to the list of pending ones, before the settings it carries. */
  function Issue(y: Decoder, i: source, c: command, t: nat): Decoder
    requires Valid(y)
  {
    var y1 := PendGiveup(PendExpire(AssumeVfoA(y, t), t), t);
    ExpireKeeps(AssumeVfoA(y, t), t);
    GiveupKeeps(PendExpire(AssumeVfoA(y, t), t), t);
    Queue(y1, i, c, t)
  }

  function Command(y: Decoder, i: source, c: command, t: nat): Decoder
    requires Valid(y)
  {
    var y1 := Issue(y, i, c, t);
    var (st, r) := ApplyCommand(y.model, y1.st, c, t);
    Emit(y1.(st := st),
         Frame(if r == Invalid then Bad else Cmd, DirOf(i), t, c, r == Updated, i == RX_OWN, ClientOf(i)))
  }

  function RxExpire(y: Decoder, i: source, t: nat): Decoder
    requires |y.rx| == RX_NUM
  {
    var r := y.rx[i];
    if r.buf == [] || r.t + CMD_GAP_MS >= t then y
    else Emit(y.(rx := y.rx[i := Rx([], r.t)]),
              Frame(Dropped, DirOf(i), r.t, r.buf, false, i == RX_OWN, ClientOf(i)))
  }

  function HostByte(y: Decoder, i: source, b: byte, t: nat): Decoder
    requires Valid(y)
  {
    var y1 := RxExpire(y, i, t);
    var buf := y1.rx[i].buf + [b];
    if |buf| == CMD_LEN then Command(y1.(rx := y1.rx[i := Rx([], t)]), i, buf, t)
    else y1.(rx := y1.rx[i := Rx(buf, t)])
  }

  /** The head takes one answer byte. */
  function TakeByte(y: Decoder, b: byte, t: nat): Decoder
    requires y.pend != []
  {
    var p := y.pend[0];
    y.(ans := y.ans + [b], pend := y.pend[0 := p.(got := p.got + 1, last := t)])
  }

  /** An answer byte for the head, which completes the answer, fills a piece, or neither. */
  function Receive(y: Decoder, b: byte, t: nat): Decoder
    requires Valid(y) && y.pend != []
  {
    TakeByteKeeps(y, b, t);
    var y1 := TakeByte(y, b, t);
    var p := y1.pend[0];
    if p.got == p.len then AnswerDone(y1, true, t)
    else if |y1.ans| == MAX_FRAME then
      Emit(y1.(ans := []), Frame(Reply, Radio, t, y1.ans, false, p.own, p.client))
    else y1
  }

  function RadioByte(y: Decoder, b: byte, t: nat): Decoder
    requires Valid(y)
  {
    var y1 := PendExpire(y, t);
    ExpireKeeps(y, t);
    if y1.pend == [] then Emit(y1, Frame(Unmatched, Radio, t, [b], false, false, 0))
    else Receive(AssumeVfoA(y1, t), b, t)
  }

  /** Removes the client's entries, the last first; an answer under way ends early. */
  function DiscardFrom(y: Decoder, client: clientNo, n: nat): Decoder
    requires n <= |y.pend|
    decreases n
  {
    if n == 0 then y
    else
      var p := y.pend[n - 1];
      var y1 := if p.client != client || p.own then y
                else if n == 1 then
                  if p.got > 0 then AnswerDone(y, false, p.last) else DropHead(y)
                else y.(pend := y.pend[..n - 1] + y.pend[n..]);
      DiscardFrom(y1, client, n - 1)
  }

  function Discard(y: Decoder, client: clientNo): Decoder
    requires Valid(y) && 1 <= client
  {
    var y1 := y.(rx := y.rx[client - 1 := y.rx[client - 1].(buf := [])], hold := y.hold[client := 0]);
    DiscardFrom(y1, client, |y1.pend|)
  }

  function RxExpireAll(y: Decoder, n: nat, t: nat): (r: Decoder)
    requires |y.rx| == RX_NUM && n <= RX_NUM
    ensures |r.rx| == RX_NUM
    decreases n
  {
    if n == 0 then y else RxExpire(RxExpireAll(y, n - 1, t), n - 1, t)
  }

  function Expire(y: Decoder, t: nat): Decoder
    requires Valid(y)
  {
    PendExpire(RxExpireAll(y, RX_NUM, t), t)
  }

  // ----- What clients and the line arbiter ask -----

  predicate RxPartial(r: Rx, t: nat) {
    r.buf != [] && r.t + CMD_GAP_MS >= t
  }

  predicate ClientBusy(y: Decoder, client: clientNo, t: nat)
    requires Valid(y) && 1 <= client
  {
    || RxPartial(y.rx[client - 1], t)
    || y.hold[client] > t
    || exists p <- y.pend :: p.client == client && !p.own && PendLive(y, p, t)
  }

  // ----- Every step keeps the decoder valid -----

  lemma AnswerDoneKeeps(y: Decoder, complete: bool, t: nat)
    requires y.pend != [] && ValidList(y.model, y.pend) && (complete ==> Complete(y))
    ensures var r := AnswerDone(y, complete, t);
            && ValidList(y.model, r.pend) && |r.pend| == |y.pend| - 1
            && r.ans == [] && (r.pend != [] ==> r.pend[0].got == 0)
            && r.model == y.model && r.rx == y.rx && r.hold == y.hold && r.pacing == y.pacing
  {
  }

  lemma {:induction false} ExpireKeeps(y: Decoder, t: nat)
    requires Valid(y)
    ensures var r := PendExpire(y, t);
            Valid(r) && r.model == y.model && r.rx == y.rx && |r.pend| <= |y.pend|
    decreases |y.pend|
  {
    if y.pend != [] && !PendLive(y, y.pend[0], t) {
      if y.pend[0].got > 0 {
        AnswerDoneKeeps(y, false, t);
        ExpireKeeps(AnswerDone(y, false, t), t);
      } else {
        ExpireKeeps(DropHead(y), t);
      }
    }
  }

  lemma {:induction false} GiveupKeeps(y: Decoder, t: nat)
    requires Valid(y)
    ensures var r := PendGiveup(y, t);
            Valid(r) && r.model == y.model && r.rx == y.rx && |r.pend| <= |y.pend|
    decreases |y.pend|
  {
    if !(y.pend == [] || y.pend[0].got > 0 || y.pend[0].sent + GIVEUP_MS >= t) {
      GiveupKeeps(DropHead(y), t);
    }
  }

  lemma QueueKeeps(y: Decoder, i: source, c: command, t: nat)
    requires Valid(y)
    ensures Valid(Queue(y, i, c, t)) && Queue(y, i, c, t).model == y.model
  {
    hide ApplyAnswer;
    if |y.pend| == PEND_MAX && y.pend[0].got > 0 {
      var y1 := if c[4] == 0x0e && HasPacing(y.model) then y.(pacing := c[3]) else y;
      AnswerDoneKeeps(y1, false, t);
    }
  }

  lemma HostByteKeeps(y: Decoder, i: source, b: byte, t: nat)
    requires Valid(y)
    ensures Valid(HostByte(y, i, b, t)) && HostByte(y, i, b, t).model == y.model
  {
    var y1 := RxExpire(y, i, t);
    var buf := y1.rx[i].buf + [b];
    if |buf| == CMD_LEN {
      var y2 := AssumeVfoA(y1.(rx := y1.rx[i := Rx([], t)]), t);
      ExpireKeeps(y2, t);
      GiveupKeeps(PendExpire(y2, t), t);
      QueueKeeps(PendGiveup(PendExpire(y2, t), t), i, buf, t);
    }
  }

  lemma TakeByteKeeps(y: Decoder, b: byte, t: nat)
    requires Valid(y) && y.pend != []
    ensures var r := TakeByte(y, b, t);
            && ValidList(r.model, r.pend) && r.pend[0].got == y.pend[0].got + 1 <= r.pend[0].len
            && |r.ans| == y.pend[0].got % MAX_FRAME + 1
            && (r.pend[0].got == r.pend[0].len ==> Complete(r))
            && (|r.ans| != MAX_FRAME ==> |r.ans| == r.pend[0].got % MAX_FRAME)
            && (|r.ans| == MAX_FRAME ==> r.pend[0].got % MAX_FRAME == 0)
  {
  }

  lemma RadioByteKeeps(y: Decoder, b: byte, t: nat)
    requires Valid(y)
    ensures Valid(RadioByte(y, b, t)) && RadioByte(y, b, t).model == y.model
  {
    hide ApplyAnswer;
    var y1 := PendExpire(y, t);
    ExpireKeeps(y, t);
    if y1.pend != [] {
      var y2 := AssumeVfoA(y1, t);
      var y3 := TakeByte(y2, b, t);
      TakeByteKeeps(y2, b, t);
      if y3.pend[0].got == y3.pend[0].len {
        AnswerDoneKeeps(y3, true, t);
      }
    }
  }

  lemma ListWithout(m: Model, pend: seq<Pending>, i: nat)
    requires ValidList(m, pend) && 0 < i < |pend|
    ensures var r := pend[..i] + pend[i + 1..];
            ValidList(m, r) && |r| == |pend| - 1 && r[0] == pend[0]
  {
    hide ValidPending;
    var r := pend[..i] + pend[i + 1..];
    assert forall k | 0 <= k < |r| :: r[k] == pend[if k < i then k else k + 1];
  }

  lemma {:induction false} DiscardFromKeeps(y: Decoder, client: clientNo, n: nat)
    requires Valid(y) && n <= |y.pend|
    ensures Valid(DiscardFrom(y, client, n)) && DiscardFrom(y, client, n).model == y.model
    decreases n
  {
    hide ValidRx, AnswerDone;
    if n > 0 {
      var p := y.pend[n - 1];
      if p.client != client || p.own {
        DiscardFromKeeps(y, client, n - 1);
      } else if n == 1 {
        if p.got > 0 {
          AnswerDoneKeeps(y, false, p.last);
        }
      } else {
        ListWithout(y.model, y.pend, n - 1);
        DiscardFromKeeps(y.(pend := y.pend[..n - 1] + y.pend[n..]), client, n - 1);
      }
    }
  }

  lemma {:induction false} RxExpireAllKeeps(y: Decoder, n: nat, t: nat)
    requires Valid(y) && n <= RX_NUM
    ensures var r := RxExpireAll(y, n, t);
            Valid(r) && r.pend == y.pend && r.ans == y.ans && r.model == y.model && r.pacing == y.pacing
    decreases n
  {
    if n > 0 {
      RxExpireAllKeeps(y, n - 1, t);
    }
  }

  /** One entry point of the decoder at a time. */
  datatype Event =
    | HostEvent(i: source, b: byte, t: nat)
    | RadioEvent(b: byte, t: nat)
    | DiscardEvent(client: clientNo)
    | ExpireEvent(t: nat)

  function Step(y: Decoder, e: Event): (r: Decoder)
    requires Valid(y)
    ensures Valid(r) && r.model == y.model
  {
    match e
    case HostEvent(i, b, t) => HostByteKeeps(y, i, b, t); HostByte(y, i, b, t)
    case RadioEvent(b, t) => RadioByteKeeps(y, b, t); RadioByte(y, b, t)
    case DiscardEvent(client) =>
      if client == 0 then y
      else
        var y1 := y.(rx := y.rx[client - 1 := y.rx[client - 1].(buf := [])], hold := y.hold[client := 0]);
        DiscardFromKeeps(y1, client, |y1.pend|);
        Discard(y, client)
    case ExpireEvent(t) =>
      RxExpireAllKeeps(y, RX_NUM, t);
      ExpireKeeps(RxExpireAll(y, RX_NUM, t), t);
      Expire(y, t)
  }

  function Run(y: Decoder, es: seq<Event>): (r: Decoder)
    requires Valid(y)
    ensures Valid(r) && r.model == y.model
    decreases |es|
  {
    if es == [] then y else Run(Step(y, es[0]), es[1..])
  }
}
