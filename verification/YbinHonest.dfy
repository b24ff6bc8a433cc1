/** The decoder against a radio that answers in order, with the lengths of the tables. */
module YbinHonest {
  import opened Cat
  import opened CatState
  import opened YbinTables
  import opened Ybin
  import opened SeqFacts
  import opened Wrappers

  /** The radio's answer to one command, and whose command that was. */
  datatype Answer = Answer(bytes: seq<byte>, own: bool, client: clientNo)

  /** A radio frame as applications are affected by it; framed: not dropped, not unmatched. */
  datatype Piece = Piece(bytes: seq<byte>, own: bool, client: clientNo, framed: bool)

  function PieceOf(f: Frame): Piece {
    Piece(f.buf, f.own, f.client, f.kind == Reply || f.kind == Ack || f.kind == Bad)
  }

  /** The radio frames of a log. */
  function Credits(log: seq<Frame>): seq<Piece>
    decreases |log|
  {
    if log == [] then []
    else
      var f := log[|log| - 1];
      Credits(log[..|log| - 1]) + if f.dir == Radio then [PieceOf(f)] else []
  }

  lemma CreditsSnoc(log: seq<Frame>, f: Frame)
    ensures Credits(log + [f]) == Credits(log) + if f.dir == Radio then [PieceOf(f)] else []
  {
    assert (log + [f])[..|log|] == log;
  }

  /** An answer cut into pieces of 80 bytes, the last one shorter. */
  function Pieces(bytes: seq<byte>, a: Answer): seq<Piece>
    decreases |bytes|
  {
    if bytes == [] then []
    else if |bytes| <= MAX_FRAME then [Piece(bytes, a.own, a.client, true)]
    else [Piece(bytes[..MAX_FRAME], a.own, a.client, true)] + Pieces(bytes[MAX_FRAME..], a)
  }

  function AllPieces(answers: seq<Answer>): seq<Piece> {
    if answers == [] then [] else Pieces(answers[0].bytes, answers[0]) + AllPieces(answers[1..])
  }

  lemma {:induction false} AllPiecesSnoc(answers: seq<Answer>, a: Answer)
    ensures AllPieces(answers + [a]) == AllPieces(answers) + Pieces(a.bytes, a)
  {
    if answers == [] {
      assert [a][1..] == [];
    } else {
      assert (answers + [a])[1..] == answers[1..] + [a];
      AllPiecesSnoc(answers[1..], a);
    }
  }

  /**
   * The decoder and the radio: the answers the radio still owes, how much of the first one it
   * has sent, and all answers it was ever asked for, in the order of their commands.
   */
  datatype World = World(y: Decoder, owed: seq<Answer>, sent: nat, all: seq<Answer>)

  datatype Event =
    | HostByteWith(i: source, b: byte, t: nat, answer: seq<byte>)  // answer: if the byte ends a command that has one
    | RadioSends(t: nat)
    | Discards(client: clientNo)
    | Expires(t: nat)

  /** The command that the byte completes. */
  function Completes(y: Decoder, i: source, b: byte, t: nat): Option<command>
    requires Valid(y)
  {
    var buf := RxExpire(y, i, t).rx[i].buf + [b];
    if |buf| == CMD_LEN then Some(buf) else None
  }

  predicate HeadLive(y: Decoder, t: nat) {
    y.pend == [] || PendLive(y, y.pend[0], t)
  }

  predicate HeadKept(y: Decoder, t: nat) {
    y.pend == [] || y.pend[0].got > 0 || y.pend[0].sent + GIVEUP_MS >= t
  }

  /** No command is expired, given up, evicted or discarded by the event; the radio is honest. */
  predicate Undisturbed(w: World, e: Event)
    requires Valid(w.y)
  {
    match e
    case HostByteWith(i, b, t, answer) =>
      var c := Completes(w.y, i, b, t);
      c.Some? ==>
        var l := AnswerLen(w.y.model, c.value);
        && HeadLive(w.y, t) && HeadKept(w.y, t)
        && (l.n > 0 ==> |w.y.pend| < PEND_MAX && |answer| == l.n)
    case RadioSends(t) => w.owed != [] && w.sent < |w.owed[0].bytes| && HeadLive(w.y, t)
    case Discards(client) => forall i | 0 <= i < |w.y.pend| :: w.y.pend[i].client != client || w.y.pend[i].own
    case Expires(t) => HeadLive(w.y, t)
  }

  function StepWorld(w: World, e: Event): (r: World)
    requires Valid(w.y) && Undisturbed(w, e)
    ensures Valid(r.y) && r.y.model == w.y.model
  {
    match e
    case HostByteWith(i, b, t, answer) =>
      var y := Step(w.y, HostEvent(i, b, t));
      var c := Completes(w.y, i, b, t);
      if c.Some? && AnswerLen(w.y.model, c.value).n > 0 then
        var a := Answer(answer, i == RX_OWN, ClientOf(i));
        w.(y := y, owed := w.owed + [a], all := w.all + [a])
      else w.(y := y)
    case RadioSends(t) =>
      var y := Step(w.y, RadioEvent(w.owed[0].bytes[w.sent], t));
      if w.sent + 1 == |w.owed[0].bytes| then w.(y := y, owed := w.owed[1..], sent := 0)
      else w.(y := y, sent := w.sent + 1)
    case Discards(client) => w.(y := Step(w.y, DiscardEvent(client)))
    case Expires(t) => w.(y := Step(w.y, ExpireEvent(t)))
  }

  predicate Honest(w: World, es: seq<Event>)
    requires Valid(w.y)
    decreases |es|
  {
    es == [] || (Undisturbed(w, es[0]) && Honest(StepWorld(w, es[0]), es[1..]))
  }

  function RunWorld(w: World, es: seq<Event>): (r: World)
    requires Valid(w.y) && Honest(w, es)
    ensures Valid(r.y)
    decreases |es|
  {
    if es == [] then w else RunWorld(StepWorld(w, es[0]), es[1..])
  }

  /** The part of the head's answer that no piece has reported. */
  function Rest(a: Answer, sent: nat): seq<byte>
    requires sent <= |a.bytes|
  {
    a.bytes[sent - sent % MAX_FRAME..]
  }

  /** What will be passed on once the radio has sent everything it owes. */
  function Outstanding(w: World): seq<Piece>
    requires w.owed != [] ==> w.sent <= |w.owed[0].bytes|
  {
    if w.owed == [] then []
    else Pieces(Rest(w.owed[0], w.sent), w.owed[0]) + AllPieces(w.owed[1..])
  }

  /** The pending list is the list of owed answers. */
  predicate Matches(pend: seq<Pending>, owed: seq<Answer>) {
    && |pend| == |owed|
    && forall i | 0 <= i < |pend| ::
         pend[i].len == |owed[i].bytes| && pend[i].own == owed[i].own && pend[i].client == owed[i].client
  }

  predicate Synced(w: World) {
    && Valid(w.y)
    && Matches(w.y.pend, w.owed)
    && (if w.owed == [] then w.sent == 0
        else && w.sent < |w.owed[0].bytes| && w.y.pend[0].got == w.sent
             && w.y.ans == w.owed[0].bytes[w.sent - w.sent % MAX_FRAME..w.sent])
    && Credits(w.y.log) + Outstanding(w) == AllPieces(w.all)
  }

  // ----- One event -----

  lemma KeptIsIdle(y: Decoder, t: nat)
    ensures HeadLive(y, t) ==> PendExpire(y, t) == y
    ensures HeadKept(y, t) ==> PendGiveup(y, t) == y
  {
  }

  lemma RxExpireQuiet(y: Decoder, i: source, t: nat)
    requires |y.rx| == RX_NUM
    ensures var r := RxExpire(y, i, t);
            && Credits(r.log) == Credits(y.log)
            && r == y.(rx := r.rx, log := r.log) && |r.rx| == RX_NUM
            && (ValidRx(y.rx) ==> ValidRx(r.rx))
  {
    var r := RxExpire(y, i, t);
    if r != y {
      CreditsSnoc(y.log, r.log[|y.log|]);
    }
  }

  /** A command joins the pending list if it has an answer; nothing else happens to the list. */
  lemma CommandEffect(y: Decoder, i: source, c: command, t: nat)
    requires Valid(y) && HeadLive(y, t) && HeadKept(y, t)
    requires |y.pend| < PEND_MAX || AnswerLen(y.model, c).n == 0
    ensures var r := Command(y, i, c, t);
            && Credits(r.log) == Credits(y.log) && r.ans == y.ans
            && if AnswerLen(y.model, c).n > 0 then
                 var l := AnswerLen(y.model, c);
                 r.pend == y.pend + [Pending(c, l.n, l.guess, i == RX_OWN, ClientOf(i), 0, t, t)]
               else r.pend == y.pend
  {
    hide AnswerDone, ApplyCommand, AnswerLen, Credits;
    KeptIsIdle(AssumeVfoA(y, t), t);
    var y1 := Issue(y, i, c, t);
    assert y1.log == y.log;
    CreditsSnoc(y1.log, Command(y, i, c, t).log[|y1.log|]);
    hide Issue;
  }

  /** A host byte leaves the pending list alone, but for the command it completes. */
  lemma HostByteEffect(y: Decoder, i: source, b: byte, t: nat)
    requires Valid(y)
    requires Completes(y, i, b, t).Some? ==> HeadLive(y, t) && HeadKept(y, t)
    requires |y.pend| < PEND_MAX || Completes(y, i, b, t).None? ||
             AnswerLen(y.model, Completes(y, i, b, t).value).n == 0
    ensures var r := HostByte(y, i, b, t);
            var c := Completes(y, i, b, t);
            && Credits(r.log) == Credits(y.log) && r.ans == y.ans
            && if c.Some? && AnswerLen(y.model, c.value).n > 0 then
                 var l := AnswerLen(y.model, c.value);
                 r.pend == y.pend + [Pending(c.value, l.n, l.guess, i == RX_OWN, ClientOf(i), 0, t, t)]
               else r.pend == y.pend
  {
    hide AnswerLen, Credits, RxExpire, Command;
    RxExpireQuiet(y, i, t);
    var c := Completes(y, i, b, t);
    if c.Some? {
      var y1 := RxExpire(y, i, t);
      CommandEffect(y1.(rx := y1.rx[i := Rx([], t)]), i, c.value, t);
    }
  }

  lemma HostSynced(w: World, e: Event)
    requires Valid(w.y) && Synced(w) && Undisturbed(w, e) && e.HostByteWith?
    ensures Synced(StepWorld(w, e))
  {
    hide HostByte, Completes, AnswerLen, Credits, Synced, ValidList, ValidRx;
    HostByteEffect(w.y, e.i, e.b, e.t);
    var r := StepWorld(w, e);
    var c := Completes(w.y, e.i, e.b, e.t);
    if c.Some? && AnswerLen(w.y.model, c.value).n > 0 {
      var l := AnswerLen(w.y.model, c.value);
      var p := Pending(c.value, l.n, l.guess, e.i == RX_OWN, ClientOf(e.i), 0, e.t, e.t);
      CommandSynced(w, r, p, Answer(e.answer, e.i == RX_OWN, ClientOf(e.i)));
    } else {
      QuietSynced(w, r);
    }
  }

  /** One more command is pending, and its answer is owed. */
  lemma CommandSynced(w: World, r: World, p: Pending, a: Answer)
    requires Valid(w.y) && Synced(w) && Valid(r.y)
    requires r.y.pend == w.y.pend + [p] && r.y.ans == w.y.ans && Credits(r.y.log) == Credits(w.y.log)
    requires r.owed == w.owed + [a] && r.all == w.all + [a] && r.sent == w.sent
    requires p.got == 0 && p.len == |a.bytes| && p.own == a.own && p.client == a.client
    ensures Synced(r)
  {
    hide Credits, AllPieces, Pieces, ValidList, ValidRx;
    AllPiecesSnoc(w.all, a);
    OwedGrows(w, r, a);
    Assoc(Credits(w.y.log), Outstanding(w), Pieces(a.bytes, a));
  }

  lemma OwedGrows(w: World, r: World, a: Answer)
    requires w.owed != [] ==> w.sent <= |w.owed[0].bytes|
    requires w.owed == [] ==> w.sent == 0
    requires r.owed == w.owed + [a] && r.sent == w.sent
    ensures r.sent <= |r.owed[0].bytes|
    ensures Outstanding(r) == Outstanding(w) + Pieces(a.bytes, a)
  {
    if w.owed == [] {
      assert r.owed[1..] == [] && Rest(a, 0) == a.bytes;
    } else {
      assert r.owed[1..] == w.owed[1..] + [a];
      AllPiecesSnoc(w.owed[1..], a);
    }
  }

  /** The pending head is where the radio is in its answer. */
  predicate AtByte(y: Decoder, a: Answer, sent: nat) {
    && Valid(y) && y.pend != [] && sent < |a.bytes|
    && y.pend[0].len == |a.bytes| && y.pend[0].own == a.own && y.pend[0].client == a.client
    && y.pend[0].got == sent && y.ans == a.bytes[sent - sent % MAX_FRAME..sent]
  }

  lemma DoneEffect(y: Decoder, t: nat)
    requires y.pend != [] && Complete(y) && y.ans != []
    ensures var r := AnswerDone(y, true, t);
            && Credits(r.log) == Credits(y.log) + [Piece(y.ans, y.pend[0].own, y.pend[0].client, true)]
            && r.pend == Restart(y.pend[1..], t) && r.ans == []
  {
    hide ApplyAnswer, Credits;
    CreditsSnoc(y.log, AnswerDone(y, true, t).log[|y.log|]);
  }

  lemma LastByte(y: Decoder, a: Answer, t: nat)
    requires a.bytes != [] && AtByte(y, a, |a.bytes| - 1)
    ensures var r := Receive(y, a.bytes[|a.bytes| - 1], t);
            && Credits(r.log) == Credits(y.log) + Pieces(Rest(a, |a.bytes| - 1), a)
            && r.pend == Restart(y.pend[1..], t) && r.ans == []
  {
    hide AnswerDone, Credits, Pieces, Restart, Rest, AtByte, Complete, Valid;
    var n := |a.bytes|;
    LastTaken(y, a, t);
    var y1 := TakeByte(y, a.bytes[n - 1], t);
    OnePiece(y1.ans, a);
    DoneEffect(y1, t);
  }

  /** With the last byte the rest of the answer is there. */
  lemma LastTaken(y: Decoder, a: Answer, t: nat)
    requires a.bytes != [] && AtByte(y, a, |a.bytes| - 1)
    ensures var n := |a.bytes|;
            && Valid(y) && y.pend != []
            && var y1 := TakeByte(y, a.bytes[n - 1], t);
               && y1.ans == Rest(a, n - 1) && 0 < |y1.ans| <= MAX_FRAME && Complete(y1)
               && y1.pend[0].own == a.own && y1.pend[0].client == a.client
               && y1.pend[1..] == y.pend[1..] && y1.log == y.log
               && Receive(y, a.bytes[n - 1], t) == AnswerDone(y1, true, t)
  {
    hide AnswerDone, Complete, ValidList;
    TakeByteKeeps(y, a.bytes[|a.bytes| - 1], t);
  }

  lemma FirstPiece(bytes: seq<byte>, a: Answer)
    requires |bytes| > MAX_FRAME
    ensures Pieces(bytes, a) == [Piece(bytes[..MAX_FRAME], a.own, a.client, true)] + Pieces(bytes[MAX_FRAME..], a)
  {
  }

  lemma OnePiece(bytes: seq<byte>, a: Answer)
    requires 0 < |bytes| <= MAX_FRAME
    ensures Pieces(bytes, a) == [Piece(bytes, a.own, a.client, true)]
  {
  }

  lemma PieceBoundary(s: seq<byte>, k: nat)
    requires k + MAX_FRAME <= |s|
    ensures s[k..][..MAX_FRAME] == s[k..k + MAX_FRAME] && s[k..][MAX_FRAME..] == s[k + MAX_FRAME..]
  {
  }

  lemma ReceiveMiddle(y: Decoder, b: byte, t: nat)
    requires Valid(y) && y.pend != [] && y.pend[0].got + 1 != y.pend[0].len
    ensures var p := y.pend[0].(got := y.pend[0].got + 1, last := t);
            var ans := y.ans + [b];
            Receive(y, b, t) ==
            if |ans| == MAX_FRAME then
              y.(pend := [p] + y.pend[1..], ans := [],
                 log := y.log + [Frame(Reply, Radio, t, ans, false, p.own, p.client)])
            else y.(pend := [p] + y.pend[1..], ans := ans)
  {
    hide AnswerDone;
    TakeByteKeeps(y, b, t);
    assert TakeByte(y, b, t).pend == [TakeByte(y, b, t).pend[0]] + y.pend[1..];
  }

  /** Where the piece of the next byte starts. */
  lemma NextPiece(sent: nat)
    ensures (sent + 1) - (sent + 1) % MAX_FRAME
         == if sent % MAX_FRAME + 1 == MAX_FRAME then sent + 1 else sent - sent % MAX_FRAME
  {
  }

  lemma MiddleByte(y: Decoder, a: Answer, sent: nat, t: nat)
    requires sent + 1 < |a.bytes| && AtByte(y, a, sent)
    ensures var r := Receive(y, a.bytes[sent], t);
            && Credits(r.log) + Pieces(Rest(a, sent + 1), a) == Credits(y.log) + Pieces(Rest(a, sent), a)
            && r.pend == [y.pend[0].(got := sent + 1, last := t)] + y.pend[1..]
            && r.ans == a.bytes[sent + 1 - (sent + 1) % MAX_FRAME..sent + 1]
  {
    hide Receive, Valid, Credits, Pieces;
    var k := sent - sent % MAX_FRAME;
    NextPiece(sent);
    ReceiveMiddle(y, a.bytes[sent], t);
    var ans := y.ans + [a.bytes[sent]];
    assert ans == a.bytes[k..sent + 1];
    if |ans| == MAX_FRAME {
      CreditsSnoc(y.log, Receive(y, a.bytes[sent], t).log[|y.log|]);
      assert sent + 1 == k + MAX_FRAME;
      PieceBoundary(a.bytes, k);
      FirstPiece(a.bytes[k..], a);
    }
  }

  lemma RestartMatches(pend: seq<Pending>, owed: seq<Answer>, t: nat)
    requires Matches(pend, owed)
    ensures Matches(Restart(pend, t), owed)
  {
  }

  lemma SyncedAtByte(w: World, t: nat)
    requires Synced(w) && w.owed != []
    ensures AtByte(AssumeVfoA(w.y, t), w.owed[0], w.sent)
    ensures Valid(AssumeVfoA(w.y, t)) && w.y.pend != [] && AssumeVfoA(w.y, t) == w.y.(st := AssumeVfoA(w.y, t).st)
  {
    hide Credits, AllPieces, Pieces;
  }

  lemma RadioStep(w: World, t: nat)
    requires Valid(w.y) && Valid(AssumeVfoA(w.y, t)) && w.y.pend != [] && Undisturbed(w, RadioSends(t))
    ensures var y := Receive(AssumeVfoA(w.y, t), w.owed[0].bytes[w.sent], t);
            StepWorld(w, RadioSends(t)) ==
            if w.sent + 1 == |w.owed[0].bytes| then w.(y := y, owed := w.owed[1..], sent := 0)
            else w.(y := y, sent := w.sent + 1)
  {
    hide Receive, PendLive, Valid;
    KeptIsIdle(w.y, t);
  }

  lemma RadioSynced(w: World, t: nat)
    requires Valid(w.y) && Synced(w) && Undisturbed(w, RadioSends(t))
    ensures Synced(StepWorld(w, RadioSends(t)))
  {
    hide Synced, Valid, Undisturbed, StepWorld;
    assert w.owed != [] && w.sent < |w.owed[0].bytes| by {
      OwesSome(w, t);
    }
    if w.sent + 1 == |w.owed[0].bytes| {
      LastSynced(w, t);
    } else {
      MiddleSynced(w, t);
    }
  }

  lemma OwesSome(w: World, t: nat)
    requires Valid(w.y) && Undisturbed(w, RadioSends(t))
    ensures w.owed != [] && w.sent < |w.owed[0].bytes|
  {
    hide Valid, HeadLive;
  }

  lemma LastSynced(w: World, t: nat)
    requires Valid(w.y) && Synced(w) && Undisturbed(w, RadioSends(t))
    requires w.owed != [] && w.sent + 1 == |w.owed[0].bytes|
    ensures Synced(StepWorld(w, RadioSends(t)))
  {
    hide Synced, Valid, AtByte, Step, StepWorld, AssumeVfoA, Receive, Credits, PendLive, Rest, Outstanding, Pieces;
    hide Restart, AllPieces, Matches;
    SyncedAtByte(w, t);
    RadioStep(w, t);
    LastByte(AssumeVfoA(w.y, t), w.owed[0], t);
    AnsweredSynced(w, StepWorld(w, RadioSends(t)), t);
  }

  lemma MiddleSynced(w: World, t: nat)
    requires Valid(w.y) && Synced(w) && Undisturbed(w, RadioSends(t))
    requires w.owed != [] && w.sent + 1 < |w.owed[0].bytes|
    ensures Synced(StepWorld(w, RadioSends(t)))
  {
    hide Synced, Valid, AtByte, Step, StepWorld, AssumeVfoA, Receive, Credits, PendLive, Rest, Outstanding, Pieces;
    hide Restart, AllPieces, Matches;
    SyncedAtByte(w, t);
    RadioStep(w, t);
    MiddleByte(AssumeVfoA(w.y, t), w.owed[0], w.sent, t);
    AdvancedSynced(w, StepWorld(w, RadioSends(t)), t);
  }

  /** The head's answer goes on. */
  lemma AdvancedSynced(w: World, r: World, t: nat)
    requires Synced(w) && w.owed != [] && w.sent + 1 < |w.owed[0].bytes|
    requires r.owed == w.owed && r.sent == w.sent + 1 && r.all == w.all && Valid(r.y)
    requires Credits(r.y.log) + Pieces(Rest(w.owed[0], r.sent), w.owed[0]) ==
             Credits(w.y.log) + Pieces(Rest(w.owed[0], w.sent), w.owed[0])
    requires r.y.pend == [w.y.pend[0].(got := r.sent, last := t)] + w.y.pend[1..]
    requires r.y.ans == r.owed[0].bytes[r.sent - r.sent % MAX_FRAME..r.sent]
    ensures Synced(r)
  {
    hide Valid, Credits, Pieces, AllPieces;
    assert Matches(r.y.pend, r.owed);
    var a, tail := w.owed[0], AllPieces(w.owed[1..]);
    assert Credits(r.y.log) + Outstanding(r) == Credits(r.y.log) + Pieces(Rest(a, r.sent), a) + tail;
  }

  /** The head's answer is over, the next one starts. */
  lemma AnsweredSynced(w: World, r: World, t: nat)
    requires Synced(w) && w.owed != []
    requires r.owed == w.owed[1..] && r.sent == 0 && r.all == w.all && Valid(r.y)
    requires Credits(r.y.log) == Credits(w.y.log) + Pieces(Rest(w.owed[0], w.sent), w.owed[0])
    requires r.y.pend == Restart(w.y.pend[1..], t) && r.y.ans == []
    ensures Synced(r)
  {
    hide Valid, Credits, Pieces;
    assert Matches(w.y.pend[1..], w.owed[1..]);
    RestartMatches(w.y.pend[1..], w.owed[1..], t);
    if r.owed != [] {
      HeadIsOwed(w, r);
      assert Rest(r.owed[0], 0) == r.owed[0].bytes;
    }
  }

  lemma HeadIsOwed(w: World, r: World)
    requires Synced(w) && |w.owed| > 1 && r.owed == w.owed[1..]
    ensures r.owed[0].bytes != [] && w.y.pend[1].got == 0
  {
    assert ValidPending(w.y.model, w.y.pend[1]);
  }

  lemma {:induction false} DiscardIsIdle(y: Decoder, client: clientNo, n: nat)
    requires n <= |y.pend|
    requires forall i | 0 <= i < |y.pend| :: y.pend[i].client != client || y.pend[i].own
    ensures DiscardFrom(y, client, n) == y
  {
    if n > 0 {
      DiscardIsIdle(y, client, n - 1);
    }
  }

  lemma RxExpireCredits(y: Decoder, i: source, t: nat)
    requires |y.rx| == RX_NUM
    ensures Credits(RxExpire(y, i, t).log) == Credits(y.log)
  {
    var r := RxExpire(y, i, t);
    if r != y {
      CreditsSnoc(y.log, r.log[|y.log|]);
    }
  }

  lemma {:induction false} RxExpireAllCredits(y: Decoder, n: nat, t: nat)
    requires |y.rx| == RX_NUM && n <= RX_NUM
    ensures Credits(RxExpireAll(y, n, t).log) == Credits(y.log)
    decreases n
  {
    hide RxExpire, Credits;
    if n > 0 {
      RxExpireAllCredits(y, n - 1, t);
      RxExpireCredits(RxExpireAll(y, n - 1, t), n - 1, t);
    }
  }

  /** A step that changes neither the pending list nor what was passed on. */
  lemma QuietSynced(w: World, r: World)
    requires Valid(w.y) && Synced(w) && Valid(r.y)
    requires r.owed == w.owed && r.sent == w.sent && r.all == w.all
    requires r.y.pend == w.y.pend && r.y.ans == w.y.ans && Credits(r.y.log) == Credits(w.y.log)
    ensures Synced(r)
  {
  }

  lemma DiscardSynced(w: World, client: clientNo)
    requires Valid(w.y) && Synced(w) && Undisturbed(w, Discards(client))
    ensures Synced(StepWorld(w, Discards(client)))
  {
    hide Synced, Credits;
    if client != 0 {
      var y1 := w.y.(rx := w.y.rx[client - 1 := w.y.rx[client - 1].(buf := [])], hold := w.y.hold[client := 0]);
      DiscardIsIdle(y1, client, |y1.pend|);
    }
    QuietSynced(w, StepWorld(w, Discards(client)));
  }

  lemma ExpireSynced(w: World, t: nat)
    requires Valid(w.y) && Synced(w) && Undisturbed(w, Expires(t))
    ensures Synced(StepWorld(w, Expires(t)))
  {
    hide Synced, Credits, RxExpireAll;
    RxExpireAllKeeps(w.y, RX_NUM, t);
    RxExpireAllCredits(w.y, RX_NUM, t);
    KeptIsIdle(RxExpireAll(w.y, RX_NUM, t), t);
    QuietSynced(w, StepWorld(w, Expires(t)));
  }

  lemma StepSynced(w: World, e: Event)
    requires Valid(w.y) && Synced(w) && Undisturbed(w, e)
    ensures Synced(StepWorld(w, e))
  {
    hide Synced, Undisturbed, StepWorld;
    match e {
      case HostByteWith(_, _, _, _) => HostSynced(w, e);
      case RadioSends(t) => RadioSynced(w, t);
      case Discards(client) => DiscardSynced(w, client);
      case Expires(t) => ExpireSynced(w, t);
    }
  }

  // ----- Whole runs -----

  lemma {:induction false} RunSynced(w: World, es: seq<Event>)
    requires Valid(w.y) && Synced(w) && Honest(w, es)
    ensures Synced(RunWorld(w, es))
    decreases |es|
  {
    hide Synced, Undisturbed, StepWorld;
    if es != [] {
      StepSynced(w, es[0]);
      RunSynced(StepWorld(w, es[0]), es[1..]);
    }
  }

  /**
   * Commands of the nine clients and mhuxd in any interleaving, a radio that answers each one in
   * order with the length of the tables: the radio frames passed on so far, followed by those
   * still outstanding, are the answers cut into pieces of 80 bytes, in the order of their
   * commands, each credited to the source of its command. With nothing owed they are all of them.
   */
  lemma HonestRadioIsFramedExactly(m: Model, st: State, es: seq<Event>)
    requires Honest(World(Create(m, st), [], 0, []), es)
    ensures var w := RunWorld(World(Create(m, st), [], 0, []), es);
            && (w.owed != [] ==> w.sent < |w.owed[0].bytes|)
            && Credits(w.y.log) + Outstanding(w) == AllPieces(w.all)
            && (w.owed == [] ==> Credits(w.y.log) == AllPieces(w.all))
  {
    hide Honest, RunWorld, Undisturbed;
    RunSynced(World(Create(m, st), [], 0, []), es);
  }
}
