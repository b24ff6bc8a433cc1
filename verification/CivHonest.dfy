/** CI-V: a radio that answers all commands in order has each answer credited to its command. */
module CivHonest {
  import opened Cat
  import opened CatState
  import opened CivTables
  import opened Civ
  import opened CivRuns
  import F = CivFramer
  import opened SeqFacts
  import opened Sources
  import opened Wrappers

  // ----- The oldest that fits -----

  /** The frame f of the radio fits the pending command p. */
  predicate FitsPending(radio: byte, f: frame, p: Pending) {
    if From(f) == radio && To(f) != radio then
      && To(f) != BCAST
      && (if CmdOf(f) == OK then Acknowledges(p.buf, To(f), true)
          else if CmdOf(f) == NG then Acknowledges(p.buf, To(f), false)
          else Answers(p.buf, f))
    else To(f) == radio && From(f) != radio && From(f) != BCAST && p.fromHost && !p.echoed && p.buf == f
  }

  /** The i-th pending command fits, and no older one. */
  predicate IsOldest(pend: seq<Pending>, radio: byte, f: frame, i: nat) {
    i < |pend| && FitsPending(radio, f, pend[i]) && forall k | 0 <= k < i :: !FitsPending(radio, f, pend[k])
  }

  /** The entry e reports f, and credits it to the oldest pending command that it fits. */
  ghost predicate OldestGetsIt(pend: seq<Pending>, radio: byte, f: frame, e: Entry) {
    && (forall i: nat | IsOldest(pend, radio, f, i) ::
          e.credit == CreditOf(pend[i]) && e.f.client == pend[i].client && e.f.own == pend[i].own)
    && ((forall i | 0 <= i < |pend| :: !FitsPending(radio, f, pend[i])) <==> e.credit == None)
  }

  lemma AcknowledgeOldest(a: Decoder, f: frame, t: nat)
    requires From(f) == a.radio && To(f) != a.radio && To(f) != BCAST && (CmdOf(f) == OK || CmdOf(f) == NG)
    ensures OldestGetsIt(a.pend, a.radio, f, Acknowledge(a, f, t).log[|a.log|])
  {
    hide Consume, ApplySet, Acknowledges;
    var i := First(a.pend, IsAckedBy(To(f), CmdOf(f) == OK));
    forall k | 0 <= k < |a.pend|
      ensures FitsPending(a.radio, f, a.pend[k]) <==> IsAckedBy(To(f), CmdOf(f) == OK)(a.pend[k])
    {
    }
    hide First, FitsPending;
  }

  lemma ReplyOldest(a: Decoder, f: frame, t: nat)
    requires From(f) == a.radio && To(f) != a.radio && To(f) != BCAST && CmdOf(f) != OK && CmdOf(f) != NG
    ensures OldestGetsIt(a.pend, a.radio, f, ReplyTo(a, f, t).log[|a.log|])
  {
    hide Consume, ApplyReply, Answers;
    var i := First(a.pend, IsQueryOf(f));
    forall k | 0 <= k < |a.pend|
      ensures FitsPending(a.radio, f, a.pend[k]) <==> IsQueryOf(f)(a.pend[k])
    {
    }
    hide First, FitsPending;
  }

  lemma EchoOldest(a: Decoder, s: Seen)
    requires a.seen != [] && To(s.bytes) == a.radio && From(s.bytes) != a.radio && From(s.bytes) != BCAST
    ensures OldestGetsIt(a.pend, a.radio, s.bytes, OnBus(a, s).log[|a.log|])
  {
    hide PendAdd;
    var i := First(a.pend, IsEchoedBy(s.bytes));
    forall k | 0 <= k < |a.pend|
      ensures FitsPending(a.radio, s.bytes, a.pend[k]) <==> IsEchoedBy(s.bytes)(a.pend[k])
    {
    }
    hide First, FitsPending;
  }

  /**
   * Every frame of the radio is credited to the oldest pending command that it fits, among those
   * that did not expire, and to nobody if it fits none.
   */
  lemma OldestIsCredited(c: Decoder, s: Seen)
    requires Admit(c, s).radio != 0 && s.dir == Radio
    ensures var a, r := Admit(c, s), ProcessFrame(c, s);
            |r.log| == |a.log| + 1 && OldestGetsIt(a.pend, a.radio, s.bytes, r.log[|a.log|])
  {
    var a, f := Admit(c, s), s.bytes;
    hide Admit, Acknowledge, ReplyTo, OnBus, ApplyUnsolicited;
    assert |Acknowledge(a, f, s.t).log| == |ReplyTo(a, f, s.t).log| == |OnBus(a, s).log| == |a.log| + 1 by {
      OneEntry(a, s);
    }
    if From(f) == a.radio && To(f) != a.radio && To(f) != BCAST {
      hide OldestGetsIt;
      if CmdOf(f) == OK || CmdOf(f) == NG {
        AcknowledgeOldest(a, f, s.t);
      } else {
        ReplyOldest(a, f, s.t);
      }
    } else if To(f) == a.radio && From(f) != a.radio && From(f) != BCAST {
      hide OldestGetsIt;
      EchoOldest(a, s);
    }
  }

  lemma OneEntry(a: Decoder, s: Seen)
    requires a.seen != []
    ensures |Acknowledge(a, s.bytes, s.t).log| == |ReplyTo(a, s.bytes, s.t).log| == |OnBus(a, s).log| == |a.log| + 1
  {
    hide Consume, PendAdd, ApplyReply, ApplySet, First;
  }

  // ----- What the radio was asked, and what it answered -----

  /** A command to the radio: the frame with the number id, from a host or seen on the bus only. */
  datatype Command = Command(id: nat, s: Seen, echoed: bool)

  /** All commands so far, and how many of them the radio answered. */
  datatype World = World(cmds: seq<Command>, done: nat) {
    predicate Valid() {
      done <= |cmds|
    }

    function Open(): seq<Command>
      requires Valid()
    {
      cmds[done..]
    }
  }

  /** f may answer the command q. */
  predicate IsAnswerTo(q: frame, f: frame) {
    if CmdOf(f) == OK then Acknowledges(q, To(f), true)
    else if CmdOf(f) == NG then Acknowledges(q, To(f), false)
    else Answers(q, f)
  }

  /** An answer, by its addresses. */
  predicate Answering(radio: byte, dir: Dir, f: frame) {
    dir == Radio && From(f) == radio && To(f) != radio && To(f) != BCAST
  }

  function EchoedBy(f: frame): Command -> bool {
    (k: Command) => k.s.dir != Radio && !k.echoed && k.s.bytes == f
  }

  /** One more command, unless more than eight would be open. */
  function Asked(w: World, id: nat, s: Seen): Option<World>
    requires w.Valid()
  {
    if |w.Open()| < PEND_MAX then Some(w.(cmds := w.cmds + [Command(id, s, s.dir == Radio)])) else None
  }

  /**
   * One more frame: None if the oldest open command waited for more than two seconds, if too many
   * are open, or if the radio does not answer the oldest one.
   */
  function Meets(w: World, radio: byte, id: nat, s: Seen): (r: Option<World>)
    requires w.Valid()
    ensures r.Some? ==> r.value.Valid()
  {
    var f := s.bytes;
    if w.Open() != [] && w.Open()[0].s.t + PEND_TIMEOUT_MS < s.t then None
    else if s.dir != Radio then if To(f) == radio && From(f) != BCAST then Asked(w, id, s) else Some(w)
    else if Answering(radio, s.dir, f) then
      if w.Open() != [] && IsAnswerTo(w.Open()[0].s.bytes, f) then Some(w.(done := w.done + 1)) else None
    else if To(f) == radio && From(f) != radio && From(f) != BCAST then
      var i := First(w.Open(), EchoedBy(f));
      if i == |w.Open()| then Asked(w, id, s)
      else Some(w.(cmds := w.cmds[w.done + i := w.Open()[i].(echoed := true)]))
    else Some(w)
  }

  /** The radio answers each command in time, all of them in order. */
  function Honest(radio: byte, seen: seq<Seen>): (r: Option<World>)
    ensures r.Some? ==> r.value.Valid()
  {
    if seen == [] then Some(World([], 0))
    else
      match Honest(radio, seen[..|seen| - 1])
      case None => None
      case Some(w) => Meets(w, radio, |seen| - 1, seen[|seen| - 1])
  }

  // ----- Credits -----

  /** Whom a frame was credited to. */
  datatype Credited = Credited(credit: Option<Credit>, client: clientNo, own: bool)

  /** The credits of all answers, in order. */
  function AnswerCredits(radio: byte, log: seq<Entry>): seq<Credited> {
    if log == [] then []
    else
      var e := log[|log| - 1];
      AnswerCredits(radio, log[..|log| - 1])
      + if IsComplete(e.f.buf) && Answering(radio, e.f.dir, e.f.buf) then [Credited(e.credit, e.f.client, e.f.own)]
        else []
  }

  function CreditFor(k: Command): Credited {
    Credited(Some(Credit(k.id, k.s.bytes)), Sender(k.s), k.s.dir == Own)
  }

  function CreditsFor(cmds: seq<Command>): (r: seq<Credited>)
    ensures |r| == |cmds|
    ensures forall i | 0 <= i < |cmds| :: r[i] == CreditFor(cmds[i])
  {
    seq(|cmds|, i requires 0 <= i < |cmds| => CreditFor(cmds[i]))
  }

  lemma OneMoreEntry(radio: byte, log: seq<Entry>, e: Entry)
    ensures AnswerCredits(radio, log + [e]) == AnswerCredits(radio, log)
      + if IsComplete(e.f.buf) && Answering(radio, e.f.dir, e.f.buf) then [Credited(e.credit, e.f.client, e.f.own)]
        else []
  {
    assert (log + [e])[..|log|] == log;
  }

  // ----- The decoder follows -----

  predicate Follows(p: Pending, k: Command) {
    && p.id == k.id && p.buf == k.s.bytes && p.t == k.s.t && p.client == Sender(k.s)
    && p.fromHost == (k.s.dir != Radio) && p.own == (k.s.dir == Own) && p.echoed == k.echoed
  }

  predicate AllFollow(pend: seq<Pending>, open: seq<Command>) {
    |pend| == |open| && forall i | 0 <= i < |pend| :: Follows(pend[i], open[i])
  }

  /** The pending commands are the open ones, and the answers went to the others in order. */
  predicate Tracks(c: Decoder, w: World) {
    w.Valid() && AllFollow(c.pend, w.Open()) && AnswerCredits(c.radio, c.log) == CreditsFor(w.cmds[..w.done])
  }

  lemma ConsumeHead(pend: seq<Pending>)
    requires pend != []
    ensures Consume(pend, 0) == pend[1..]
  {
    assert pend[..1] == [pend[0]] && pend[..1][1..] == [];
    assert Others(pend[..1], From(pend[0].buf), pend[0].client) == [];
  }

  lemma {:induction false} SameFirst(pend: seq<Pending>, open: seq<Command>, f: frame)
    requires AllFollow(pend, open)
    ensures First(pend, IsEchoedBy(f)) == First(open, EchoedBy(f))
    decreases |pend|
  {
    if pend != [] {
      assert Follows(pend[0], open[0]);
      assert IsEchoedBy(f)(pend[0]) <==> EchoedBy(f)(open[0]);
      SameFirst(pend[1..], open[1..], f);
    }
  }

  lemma HeadIsFirst(pend: seq<Pending>, p: Pending -> bool)
    requires pend != [] && p(pend[0])
    ensures First(pend, p) == 0
  {
  }

  lemma NothingExpires(pend: seq<Pending>, open: seq<Command>, t: nat)
    requires AllFollow(pend, open) && (open != [] ==> open[0].s.t + PEND_TIMEOUT_MS >= t)
    ensures PendExpire(pend, t) == pend
  {
  }

  /** The frame is reported, and nothing else changes. */
  lemma OthersTrack(a: Decoder, w: World, r: Decoder, e: Entry)
    requires Tracks(a, w) && r.pend == a.pend && r.radio == a.radio && r.log == a.log + [e]
    requires !(IsComplete(e.f.buf) && Answering(a.radio, e.f.dir, e.f.buf))
    ensures Tracks(r, w)
  {
    hide AllFollow, CreditsFor, AnswerCredits, Answering, IsComplete;
    OneMoreEntry(a.radio, a.log, e);
  }

  lemma AskedTracks(a: Decoder, w: World, s: Seen, r: Decoder, e: Entry)
    requires Tracks(a, w) && a.seen != [] && Asked(w, |a.seen| - 1, s).Some?
    requires r.pend == PendAdd(a.pend, s, |a.seen| - 1, s.t) && r.radio == a.radio && r.log == a.log + [e]
    requires !(IsComplete(e.f.buf) && Answering(a.radio, e.f.dir, e.f.buf))
    ensures Tracks(r, Asked(w, |a.seen| - 1, s).value)
  {
    hide AnswerCredits, Answering, IsComplete;
    OneMoreEntry(a.radio, a.log, e);
    var w1 := Asked(w, |a.seen| - 1, s).value;
    assert w1.Open() == w.Open() + [Command(|a.seen| - 1, s, s.dir == Radio)];
    assert w1.cmds[..w.done] == w.cmds[..w.done];
    hide CreditsFor;
  }

  lemma EchoTracks(a: Decoder, w: World, i: nat, r: Decoder, e: Entry)
    requires Tracks(a, w) && i < |w.Open()| && |a.pend| == |w.Open()|
    requires r.pend == a.pend[i := a.pend[i].(echoed := true)] && r.radio == a.radio && r.log == a.log + [e]
    requires !(IsComplete(e.f.buf) && Answering(a.radio, e.f.dir, e.f.buf))
    ensures Tracks(r, w.(cmds := w.cmds[w.done + i := w.Open()[i].(echoed := true)]))
  {
    hide AnswerCredits, Answering, IsComplete;
    OneMoreEntry(a.radio, a.log, e);
    var w1 := w.(cmds := w.cmds[w.done + i := w.Open()[i].(echoed := true)]);
    assert w1.Open() == w.Open()[i := w.Open()[i].(echoed := true)];
    assert w1.cmds[..w.done] == w.cmds[..w.done];
    hide CreditsFor;
  }

  lemma AnswerTracks(a: Decoder, w: World, r: Decoder, e: Entry)
    requires Tracks(a, w) && w.Open() != [] && |a.pend| == |w.Open()|
    requires r.pend == a.pend[1..] && r.radio == a.radio && r.log == a.log + [e]
    requires IsComplete(e.f.buf) && Answering(a.radio, e.f.dir, e.f.buf)
    requires Credited(e.credit, e.f.client, e.f.own) == Credited(CreditOf(a.pend[0]), a.pend[0].client, a.pend[0].own)
    ensures Tracks(r, w.(done := w.done + 1))
  {
    hide AnswerCredits, Answering, IsComplete;
    OneMoreEntry(a.radio, a.log, e);
    assert Follows(a.pend[0], w.Open()[0]);
    var w1 := w.(done := w.done + 1);
    assert w1.Open() == w.Open()[1..];
    SplitAt(w.cmds, w.done);
    assert CreditsFor(w1.cmds[..w1.done]) == CreditsFor(w.cmds[..w.done]) + [CreditFor(w.cmds[w.done])];
    hide CreditsFor;
  }

  // ----- One frame -----

  lemma AcknowledgeTracks(a: Decoder, w: World, f: frame, t: nat)
    requires Tracks(a, w) && w.Open() != [] && IsAnswerTo(w.Open()[0].s.bytes, f)
    requires IsComplete(f) && Answering(a.radio, Radio, f) && (CmdOf(f) == OK || CmdOf(f) == NG)
    ensures Tracks(Acknowledge(a, f, t), w.(done := w.done + 1))
  {
    hide ApplySet, Consume, CreditsFor, AnswerCredits, Acknowledges;
    var r := Acknowledge(a, f, t);
    assert Follows(a.pend[0], w.Open()[0]);
    assert IsAckedBy(To(f), CmdOf(f) == OK)(a.pend[0]);
    HeadIsFirst(a.pend, IsAckedBy(To(f), CmdOf(f) == OK));
    ConsumeHead(a.pend);
    hide First;
    AnswerTracks(a, w, r, r.log[|a.log|]);
  }

  lemma ReplyTracks(a: Decoder, w: World, f: frame, t: nat)
    requires Tracks(a, w) && w.Open() != [] && IsAnswerTo(w.Open()[0].s.bytes, f)
    requires IsComplete(f) && Answering(a.radio, Radio, f) && CmdOf(f) != OK && CmdOf(f) != NG
    ensures Tracks(ReplyTo(a, f, t), w.(done := w.done + 1))
  {
    hide ApplyReply, Consume, CreditsFor, AnswerCredits, Answers;
    var r := ReplyTo(a, f, t);
    assert Follows(a.pend[0], w.Open()[0]);
    assert IsQueryOf(f)(a.pend[0]);
    HeadIsFirst(a.pend, IsQueryOf(f));
    ConsumeHead(a.pend);
    hide First;
    AnswerTracks(a, w, r, r.log[|a.log|]);
  }

  lemma OnBusTracks(a: Decoder, w: World, s: Seen)
    requires Tracks(a, w) && a.seen != [] && To(s.bytes) == a.radio && From(s.bytes) != a.radio
    requires First(w.Open(), EchoedBy(s.bytes)) == |w.Open()| ==> Asked(w, |a.seen| - 1, s).Some?
    ensures var r, i := OnBus(a, s), First(w.Open(), EchoedBy(s.bytes));
            if i == |w.Open()| then Tracks(r, Asked(w, |a.seen| - 1, s).value)
            else Tracks(r, w.(cmds := w.cmds[w.done + i := w.Open()[i].(echoed := true)]))
  {
    SameFirst(a.pend, w.Open(), s.bytes);
    hide PendAdd, CreditsFor, AnswerCredits, First, Follows, Asked;
    var r, i := OnBus(a, s), First(w.Open(), EchoedBy(s.bytes));
    if i == |w.Open()| {
      AskedTracks(a, w, s, r, r.log[|a.log|]);
    } else {
      EchoTracks(a, w, i, r, r.log[|a.log|]);
    }
  }

  lemma ClassifyTracks(a: Decoder, w: World, s: Seen)
    requires a.radio != 0 && Tracks(a, w) && a.seen != [] && IsComplete(s.bytes)
    requires Meets(w, a.radio, |a.seen| - 1, s).Some?
    ensures Tracks(Classify(a, s), Meets(w, a.radio, |a.seen| - 1, s).value)
  {
    hide Tracks, Acknowledge, ReplyTo, OnBus, PendAdd, IsAnswerTo, First, ApplyUnsolicited, Asked, IsComplete;
    var r, f := Classify(a, s), s.bytes;
    if s.dir == Radio && Answering(a.radio, s.dir, f) {
      if CmdOf(f) == OK || CmdOf(f) == NG {
        AcknowledgeTracks(a, w, f, s.t);
      } else {
        ReplyTracks(a, w, f, s.t);
      }
    } else if s.dir == Radio && To(f) == a.radio && From(f) != a.radio && From(f) != BCAST {
      OnBusTracks(a, w, s);
    } else if s.dir != Radio && To(f) == a.radio && From(f) != BCAST {
      AskedTracks(a, w, s, r, r.log[|a.log|]);
    } else {
      OthersTrack(a, w, r, r.log[|a.log|]);
    }
  }

  lemma FrameTracks(c: Decoder, w: World, s: Seen)
    requires c.radio != 0 && Tracks(c, w) && IsComplete(s.bytes) && Meets(w, c.radio, |c.seen|, s).Some?
    ensures var r := ProcessFrame(c, s);
            Tracks(r, Meets(w, c.radio, |c.seen|, s).value) && r.radio == c.radio && r.seen == c.seen + [s]
  {
    hide CreditsFor, AnswerCredits, Classify, Answering, IsAnswerTo, Asked, First, PendExpire, Follows;
    NothingExpires(c.pend, w.Open(), s.t);
    var a := Admit(c, s);
    assert a == c.(seen := c.seen + [s]);
    ClassifyTracks(a, w, s);
    ClassifyKeeps(a, s);
    hide Meets;
  }

  // ----- Runs -----

  lemma BrokenTracks(c: Decoder, w: World, f: Frame)
    requires Tracks(c, w) && !IsComplete(f.buf)
    ensures Tracks(Emit(c, f, None), w)
  {
    hide Tracks;
    OthersTrack(c, w, Emit(c, f, None), Entry(f, None, |c.seen|, c.radio));
  }

  lemma DebrisTracks(c: Decoder, w: World, i: source, buf: seq<byte>, t: nat)
    requires Tracks(c, w) && F.Unended(buf)
    ensures Tracks(Debris(c, i, buf, t), w)
  {
    hide Tracks;
    if |buf| > 2 {
      BrokenTracks(c, w, Frame(Dropped, DirOf(i), t, buf, false, i == RX_OWN, ClientOf(i)));
    }
  }

  lemma MarkedTracks(c: Decoder, w: World, t: nat)
    requires Tracks(c, w)
    ensures Tracks(c.(pend := MarkLost(c.pend, t)), w)
  {
    hide CreditsFor, AnswerCredits;
    var m := MarkLost(c.pend, t);
    forall i | 0 <= i < |m|
      ensures Follows(m[i], w.Open()[i])
    {
      assert Follows(c.pend[i], w.Open()[i]);
    }
  }

  /** The next frame, if there is one, is what an honest radio and few enough commands make of it. */
  ghost predicate StaysHonest(c: Decoder, w: World, r: Decoder) {
    Honest(c.radio, c.seen) == Some(w) && Honest(c.radio, r.seen).Some?
  }

  lemma OneMoreSeen(radio: byte, seen: seq<Seen>, s: Seen)
    ensures Honest(radio, seen + [s])
         == match Honest(radio, seen) case None => None case Some(w) => Meets(w, radio, |seen|, s)
  {
    assert (seen + [s])[..|seen|] == seen;
  }

  lemma ReportTracks(c: Decoder, w: World, i: source, g: F.Got, t: nat)
    requires c.radio != 0 && Tracks(c, w) && F.GotOk(g) && StaysHonest(c, w, Report(c, i, g, t))
    ensures var r := Report(c, i, g, t);
            r.radio == c.radio && Tracks(r, Honest(c.radio, r.seen).value)
  {
    hide Tracks, Honest, Meets, ProcessFrame, MarkLost;
    match g {
      case Whole(bytes) =>
        var s := Seen(DirOf(i), ClientOf(i), bytes, t, true);
        ProcessSees(c, s);
        OneMoreSeen(c.radio, c.seen, s);
        FrameTracks(c, w, s);
      case Debris(buf) => DebrisTracks(c, w, i, buf, t);
      case Collision(buf) =>
        MarkedTracks(c, w, t);
        var c1 := if i == RX_RADIO then c.(pend := MarkLost(c.pend, t)) else c;
        DebrisTracks(c1, w, i, buf, t);
        BrokenTracks(Debris(c1, i, buf, t), w, Frame(Jam, DirOf(i), t, [F.COL], false, i == RX_OWN, ClientOf(i)));
    }
  }

  lemma ProcessSees(c: Decoder, s: Seen)
    ensures ProcessFrame(c, s).seen == c.seen + [s]
  {
    hide Classify;
    ClassifyKeeps(Admit(c, s), s);
  }

  lemma StepTracks(c: Decoder, w: World, e: Event)
    requires ValidRx(c.rx) && c.radio != 0 && Tracks(c, w) && e.ByteEvent? && StaysHonest(c, w, Step(c, e))
    ensures var r := Step(c, e);
            ValidRx(r.rx) && r.radio == c.radio && Tracks(r, Honest(c.radio, r.seen).value)
  {
    hide Tracks, Honest, Report, F.Byte;
    F.ByteKeeps(c.rx[e.i], e.b, e.t);
    var (rx, g) := F.Byte(c.rx[e.i], e.b, e.t);
    if g != [] {
      assert F.GotOk(g[0]);
      ReportTracks(c, w, e.i, g[0], e.t);
      var c1 := Report(c, e.i, g[0], e.t);
      SameTracks(c1, Step(c, e), Honest(c.radio, c1.seen).value);
    } else {
      SameTracks(c, Step(c, e), w);
    }
    hide F.ValidRx;
  }

  lemma SameTracks(c: Decoder, r: Decoder, w: World)
    requires Tracks(c, w) && r == c.(rx := r.rx)
    ensures Tracks(r, w)
  {
    hide AllFollow, AnswerCredits, CreditsFor;
  }

  lemma {:induction false} HonestBefore(radio: byte, a: seq<Seen>, b: seq<Seen>)
    requires a <= b && Honest(radio, b).Some?
    ensures Honest(radio, a).Some?
    decreases |b|
  {
    if |a| < |b| {
      assert a <= b[..|b| - 1];
      hide Meets;
      HonestBefore(radio, a, b[..|b| - 1]);
    } else {
      assert a == b;
    }
  }

  lemma StepSees(c: Decoder, e: Event)
    requires |c.rx| == RX_NUM && e.ByteEvent?
    ensures c.seen <= Step(c, e).seen
  {
    hide F.Byte, ProcessFrame, MarkLost;
    var g := F.Byte(c.rx[e.i], e.b, e.t).1;
    if g != [] && g[0].Whole? && F.IsFrame(g[0].bytes) {
      ProcessSees(c, Seen(DirOf(e.i), ClientOf(e.i), g[0].bytes, e.t, c.radio != 0));
    }
  }

  predicate OnlyBytes(es: seq<Event>) {
    forall i | 0 <= i < |es| :: es[i].ByteEvent?
  }

  lemma {:induction false} RunSees(c: Decoder, es: seq<Event>)
    requires |c.rx| == RX_NUM && OnlyBytes(es)
    ensures c.seen <= Run(c, es).seen
    decreases |es|
  {
    hide Step;
    if es != [] {
      assert es[0].ByteEvent?;
      StepSees(c, es[0]);
      RunSees(Step(c, es[0]), es[1..]);
    }
  }

  lemma {:induction false} RunTracks(c: Decoder, w: World, es: seq<Event>)
    requires ValidRx(c.rx) && c.radio != 0 && Tracks(c, w) && OnlyBytes(es)
    requires StaysHonest(c, w, Run(c, es))
    ensures var r := Run(c, es);
            r.radio == c.radio && Tracks(r, Honest(c.radio, r.seen).value)
    decreases |es|
  {
    hide Step, Tracks, Honest;
    if es != [] {
      assert es[0].ByteEvent?;
      assert OnlyBytes(es[1..]);
      var m := Step(c, es[0]);
      RunSees(m, es[1..]);
      HonestBefore(c.radio, m.seen, Run(m, es[1..]).seen);
      StepTracks(c, w, es[0]);
      hide ValidRx, OnlyBytes;
      RunTracks(m, Honest(c.radio, m.seen).value, es[1..]);
    }
  }

  /**
   * If the radio, whose address is known, answers every command in time and in order, whoever
   * sent it, and no more than eight are open at a time, then over any run of bytes from any
   * sources, with broadcasts, echoes, other controllers and collisions in between, the n-th
   * answer is credited to the n-th command and its sender, and the others are pending in order.
   */
  lemma HonestRadioIsCreditedInOrder(radio: byte, freqLen: nat, st0: State, es: seq<Event>)
    requires radio != 0 && OnlyBytes(es) && Honest(radio, Run(Create(radio, freqLen, st0), es).seen).Some?
    ensures var r := Run(Create(radio, freqLen, st0), es);
            var w := Honest(radio, r.seen).value;
            AnswerCredits(radio, r.log) == CreditsFor(w.cmds[..w.done]) && AllFollow(r.pend, w.Open())
  {
    var c := Create(radio, freqLen, st0);
    assert Tracks(c, World([], 0));
    RunTracks(c, World([], 0), es);
    hide Run, Honest, AllFollow, AnswerCredits, CreditsFor;
  }
}
