/** What a discard of the CI-V decoder may miss. */
module CivDiscards {
  import opened Cat
  import opened CatState
  import opened CivTables
  import opened Civ
  import opened CivRuns
  import F = CivFramer
  import opened SeqFacts
  import opened Sources
  import opened Wrappers

  /** The last frame that was seen is one of the client. */
  predicate Remembered(c: Decoder, client: clientNo) {
    c.last.Some? && c.last.value.dir == Host && c.last.value.client == client
  }

  /** The entry credits one of the first n frames to the client. */
  predicate CreditsOld(e: Entry, client: clientNo, n: nat) {
    e.credit.Some? && e.credit.value.id < n && e.f.client == client
  }

  /** One of the client's first n frames is a pending command. */
  predicate HasOld(pend: seq<Pending>, client: clientNo, n: nat) {
    exists k | 0 <= k < |pend| :: pend[k].client == client && pend[k].id < n
  }

  // ----- One frame -----

  lemma {:induction false} ExpireDrops(pend: seq<Pending>, t: nat) returns (k: nat)
    ensures k <= |pend| && PendExpire(pend, t) == pend[k..]
    decreases |pend|
  {
    if pend != [] && pend[0].t + PEND_TIMEOUT_MS < t {
      k := ExpireDrops(pend[1..], t);
      k := k + 1;
    } else {
      k := 0;
    }
  }

  /** q is that pending command, echoed meanwhile or not. */
  predicate SameCommand(p: Pending, q: Pending) {
    q == p.(echoed := q.echoed)
  }

  lemma ConsumeKeeps(pend: seq<Pending>, i: nat)
    requires i < |pend|
    ensures forall k | 0 <= k < |Consume(pend, i)| :: Consume(pend, i)[k] in pend
    ensures i < |pend| - 1 ==> pend[|pend| - 1] in Consume(pend, i)
  {
    var r := Consume(pend, i);
    forall k | 0 <= k < |r|
      ensures r[k] in pend
    {
      ConsumeRemovesOnlyItsOwn(pend, i, r[k]);
    }
    if i < |pend| - 1 {
      assert pend[i + 1..][|pend| - 2 - i] == pend[|pend| - 1];
      ConsumeRemovesOnlyItsOwn(pend, i, pend[|pend| - 1]);
    }
    hide Consume;
  }

  /** What becomes of pending commands, and of the last of them, when a frame is looked at. */
  ghost predicate Accounted(a: Decoder, r: Decoder) {
    && |r.log| == |a.log| + 1
    && var e := r.log[|a.log|];
       && (forall k | 0 <= k < |r.pend| ::
             r.pend[k].id + 1 == |a.seen| || exists m | 0 <= m < |a.pend| :: SameCommand(a.pend[m], r.pend[k]))
       && (e.credit.Some? ==>
             exists m | 0 <= m < |a.pend| :: e.credit == CreditOf(a.pend[m]) && e.f.client == a.pend[m].client)
       && (a.pend != [] ==>
             var q := a.pend[|a.pend| - 1];
             || (e.credit == CreditOf(q) && e.f.client == q.client)
             || exists k | 0 <= k < |r.pend| :: SameCommand(q, r.pend[k]))
  }

  lemma AddAccounted(pend: seq<Pending>, s: Seen, id: nat, t: nat)
    ensures var r := PendAdd(pend, s, id, t);
            && r != [] && r[|r| - 1] == NewPending(s, id, t)
            && (forall k | 0 <= k < |r| :: r[k] == NewPending(s, id, t) || r[k] in pend)
            && (pend != [] ==> pend[|pend| - 1] in r)
  {
    var kept := if |pend| == PEND_MAX then pend[1..] else pend;
    var r := PendAdd(pend, s, id, t);
    assert r[..|kept|] == kept;
    if pend != [] {
      assert r[|kept| - 1] == pend[|pend| - 1];
    }
  }

  lemma Unchanged(a: Decoder, r: Decoder)
    requires r.pend == a.pend && |r.log| == |a.log| + 1 && r.log[|a.log|].credit == None
    ensures Accounted(a, r)
  {
    forall k | 0 <= k < |r.pend|
      ensures SameCommand(a.pend[k], r.pend[k])
    {
    }
  }

  lemma Grew(a: Decoder, r: Decoder, s: Seen)
    requires a.seen != [] && r.pend == PendAdd(a.pend, s, |a.seen| - 1, s.t)
    requires |r.log| == |a.log| + 1 && r.log[|a.log|].credit == None
    ensures Accounted(a, r)
  {
    AddAccounted(a.pend, s, |a.seen| - 1, s.t);
    hide PendAdd;
    forall k | 0 <= k < |r.pend| && r.pend[k].id + 1 != |a.seen|
      ensures exists m | 0 <= m < |a.pend| :: SameCommand(a.pend[m], r.pend[k])
    {
      assert r.pend[k] in a.pend;
    }
    if a.pend != [] {
      var q := a.pend[|a.pend| - 1];
      var k :| 0 <= k < |r.pend| && r.pend[k] == q;
      assert SameCommand(q, r.pend[k]);
    }
  }

  lemma Consumed(a: Decoder, r: Decoder, i: nat)
    requires i < |a.pend| && r.pend == Consume(a.pend, i) && |r.log| == |a.log| + 1
    requires r.log[|a.log|].credit == CreditOf(a.pend[i]) && r.log[|a.log|].f.client == a.pend[i].client
    ensures Accounted(a, r)
  {
    ConsumeKeeps(a.pend, i);
    hide Consume;
    forall k | 0 <= k < |r.pend|
      ensures exists m | 0 <= m < |a.pend| :: SameCommand(a.pend[m], r.pend[k])
    {
      assert r.pend[k] in a.pend;
    }
    var q := a.pend[|a.pend| - 1];
    if i < |a.pend| - 1 {
      var k :| 0 <= k < |r.pend| && r.pend[k] == q;
      assert SameCommand(q, r.pend[k]);
    }
  }

  lemma Echoed(a: Decoder, r: Decoder, i: nat)
    requires i < |a.pend| && r.pend == a.pend[i := a.pend[i].(echoed := true)] && |r.log| == |a.log| + 1
    requires r.log[|a.log|].credit == CreditOf(a.pend[i]) && r.log[|a.log|].f.client == a.pend[i].client
    ensures Accounted(a, r)
  {
    forall k | 0 <= k < |r.pend|
      ensures SameCommand(a.pend[k], r.pend[k])
    {
    }
  }

  lemma AcknowledgeAccounts(a: Decoder, f: frame, t: nat)
    ensures Accounted(a, Acknowledge(a, f, t))
  {
    hide Accounted, Consume, ApplySet;
    var r := Acknowledge(a, f, t);
    var i := First(a.pend, IsAckedBy(To(f), CmdOf(f) == OK));
    if i < |a.pend| {
      Consumed(a, r, i);
    } else {
      Unchanged(a, r);
    }
  }

  lemma ReplyAccounts(a: Decoder, f: frame, t: nat)
    ensures Accounted(a, ReplyTo(a, f, t))
  {
    hide Accounted, Consume, ApplyReply;
    var r := ReplyTo(a, f, t);
    var i := First(a.pend, IsQueryOf(f));
    if i < |a.pend| {
      Consumed(a, r, i);
    } else {
      Unchanged(a, r);
    }
  }

  lemma OnBusAccounts(a: Decoder, s: Seen)
    requires a.seen != []
    ensures Accounted(a, OnBus(a, s))
  {
    hide Accounted, PendAdd;
    var r := OnBus(a, s);
    var i := First(a.pend, IsEchoedBy(s.bytes));
    if i < |a.pend| {
      Echoed(a, r, i);
    } else {
      Grew(a, r, s);
    }
  }

  lemma ClassifyAccounts(a: Decoder, s: Seen)
    requires a.seen != []
    ensures Accounted(a, Classify(a, s))
  {
    hide Accounted, PendAdd, Acknowledge, ReplyTo, OnBus, ApplyUnsolicited;
    var r, f := Classify(a, s), s.bytes;
    AcknowledgeAccounts(a, f, s.t);
    ReplyAccounts(a, f, s.t);
    OnBusAccounts(a, s);
    if r == Acknowledge(a, f, s.t) || r == ReplyTo(a, f, s.t) || r == OnBus(a, s) {
    } else if r.pend == a.pend {
      Unchanged(a, r);
    } else {
      Grew(a, r, s);
    }
  }

  // ----- What comes back -----

  lemma RxThere(c: Decoder, st0: State)
    requires Inv(c, st0)
    ensures |c.rx| == RX_NUM
  {
    hide Good;
  }

  /** The decoder just after a discard. */
  lemma AfterDiscard(c: Decoder, st0: State, client: clientNo)
    requires Inv(c, st0) && client != 0
    ensures var d := Discard(c, client);
            && Inv(d, st0) && d.cuts == c.cuts + [Cut(client, |c.seen|, |c.log|, c.radio != 0)]
            && d.seen == c.seen && d.log == c.log && d.radio == c.radio && d.last == c.last
            && c.last == if c.seen == [] then None else Some(c.seen[|c.seen| - 1])
  {
    DiscardOk(c, st0, client);
    hide Good;
  }

  lemma NonePending(c: Decoder, st0: State, client: clientNo)
    requires Inv(c, st0) && client != 0
    ensures forall k | 0 <= k < |Discard(c, client).pend| :: Discard(c, client).pend[k].client != client
  {
    hide Sound, Evidence, CreditsBelow, ListOk, InOrder, Filter;
    WithoutOk(c.pend, client, PastOf(c), Bound(c));
  }

  predicate Teaches(c: Decoder, client: clientNo, s: Seen) {
    c.radio == 0 && Remembered(c, client) && Mirrors(c.last.value, s)
  }

  /** Whose commands are pending when the next frame is looked at. */
  lemma AdmitAfterDiscard(c: Decoder, st0: State, client: clientNo, s: Seen)
    requires Inv(c, st0) && client != 0
    ensures var a, n := Admit(Discard(c, client), s), |c.seen|;
            && a.log == c.log && |a.seen| == n + 1
            && (if Teaches(c, client, s)
                then a.pend != [] && a.pend[|a.pend| - 1].client == client && a.pend[|a.pend| - 1].id < n
                else forall k | 0 <= k < |a.pend| :: a.pend[k].client != client)
  {
    hide Inv, Discard;
    RxThere(c, st0);
    AfterDiscard(c, st0, client);
    NonePending(c, st0, client);
    var d := Discard(c, client);
    var k := ExpireDrops(d.pend, s.t);
    if c.radio == 0 && c.last.Some? && Mirrors(c.last.value, s) {
      AddAccounted(PendExpire(d.pend, s.t), c.last.value, |c.seen| - 1, s.t);
      hide PendAdd;
      assert Remembered(c, client) <==> Sender(c.last.value) == client;
      var a := Admit(d, s);
      forall m | 0 <= m < |a.pend| && a.pend[m] != NewPending(c.last.value, |c.seen| - 1, s.t)
        ensures a.pend[m].client != client
      {
        assert a.pend[m] in d.pend[k..];
      }
    }
  }

  /**
   * After the next frame one of the discarded client's frames is pending or credited, if and
   * only if the radio's address was not known, the client's frame was the last one seen, and the
   * next one mirrors it.
   */
  lemma DiscardMissesOnlyTheMirrored(c: Decoder, st0: State, client: clientNo, s: Seen)
    requires Inv(c, st0) && client != 0
    ensures var r, n := ProcessFrame(Discard(c, client), s), |c.seen|;
            && |r.log| == |c.log| + 1
            && (HasOld(r.pend, client, n) || CreditsOld(r.log[|c.log|], client, n) <==>
                c.radio == 0 && Remembered(c, client) && Mirrors(c.last.value, s))
  {
    hide Inv, Admit, Classify, Discard, Mirrors, Remembered;
    RxThere(c, st0);
    AdmitAfterDiscard(c, st0, client, s);
    var a := Admit(Discard(c, client), s);
    ClassifyAccounts(a, s);
    var r, n := Classify(a, s), |c.seen|;
    if HasOld(r.pend, client, n) {
      var k :| 0 <= k < |r.pend| && r.pend[k].client == client && r.pend[k].id < n;
      var m :| 0 <= m < |a.pend| && SameCommand(a.pend[m], r.pend[k]);
      assert a.pend[m].client == client;
    }
    if CreditsOld(r.log[|c.log|], client, n) {
      var e := r.log[|c.log|];
      var m :| 0 <= m < |a.pend| && e.credit == CreditOf(a.pend[m]) && e.f.client == a.pend[m].client;
      assert a.pend[m].client == client;
    }
    assert ProcessFrame(Discard(c, client), s).pend == r.pend && ProcessFrame(Discard(c, client), s).log == r.log;
    if Teaches(c, client, s) {
      var q := a.pend[|a.pend| - 1];
      if !CreditsOld(r.log[|c.log|], client, n) {
        var k :| 0 <= k < |r.pend| && SameCommand(q, r.pend[k]);
        assert r.pend[k].client == client && r.pend[k].id < n;
      }
    }
  }

  // ----- Whatever is seen next -----

  /** The decoder sees these frames, one after the other. */
  function Sees(c: Decoder, ss: seq<Seen>): Decoder
    decreases |ss|
  {
    if ss == [] then c else Sees(ProcessFrame(c, ss[0].(known := c.radio != 0)), ss[1..])
  }

  predicate Proper(ss: seq<Seen>) {
    forall i | 0 <= i < |ss| :: IsComplete(ss[i].bytes) && (ss[i].dir == Radio ==> ss[i].client == 0)
  }

  lemma FrameKeeps(c: Decoder, s: Seen)
    ensures var r := ProcessFrame(c, s);
            r.seen == c.seen + [s] && r.cuts == c.cuts && (c.radio != 0 ==> r.radio == c.radio)
  {
    hide PendAdd, PendExpire, First, Consume, ApplyReply, ApplySet, ApplyUnsolicited, Answers, Acknowledges;
  }

  lemma MirrorTeaches(c: Decoder, s: Seen)
    requires c.radio == 0 && c.last.Some? && Mirrors(c.last.value, s) && c.seen != []
    ensures ProcessFrame(c, s).radio == From(s.bytes)
  {
    hide PendAdd, PendExpire, Classify;
    ClassifyKeeps(Admit(c, s), s);
  }

  lemma SeesOne(c: Decoder, st0: State, s: Seen)
    requires Inv(c, st0) && IsComplete(s.bytes) && (s.dir == Radio ==> s.client == 0) && s.known == (c.radio != 0)
    ensures var r := ProcessFrame(c, s);
            && Inv(r, st0) && r.seen == c.seen + [s] && r.cuts == c.cuts && (c.radio != 0 ==> r.radio == c.radio)
            && (c.radio == 0 && c.last.Some? && Mirrors(c.last.value, s) ==> r.radio == From(s.bytes))
  {
    ProcessFrameOk(c, st0, s);
    FrameKeeps(c, s);
    if c.radio == 0 && c.last.Some? && Mirrors(c.last.value, s) {
      MirrorTeaches(c, s);
    }
    hide Good, ProcessFrame, Mirrors, IsComplete;
  }

  lemma {:induction false} SeesKeeps(c: Decoder, st0: State, ss: seq<Seen>)
    requires Inv(c, st0) && Proper(ss)
    ensures var r := Sees(c, ss);
            Inv(r, st0) && r.cuts == c.cuts && c.seen <= r.seen && (c.radio != 0 ==> r.radio == c.radio)
    decreases |ss|
  {
    if ss != [] {
      hide Inv, ProcessFrame, IsComplete, Mirrors;
      var s := ss[0].(known := c.radio != 0);
      ProperParts(ss);
      SeesOne(c, st0, s);
      SeesKeeps(ProcessFrame(c, s), st0, ss[1..]);
    }
  }

  lemma ProperParts(ss: seq<Seen>)
    requires Proper(ss) && ss != []
    ensures IsComplete(ss[0].bytes) && (ss[0].dir == Radio ==> ss[0].client == 0) && Proper(ss[1..])
  {
    hide IsComplete;
  }

  /** What the first of some frames does stays. */
  lemma SeesFirst(c: Decoder, st0: State, ss: seq<Seen>)
    requires Inv(c, st0) && Proper(ss) && ss != []
    ensures var r, s, n := Sees(c, ss), ss[0].(known := c.radio != 0), |c.seen|;
            && |r.seen| > n && r.seen[n] == s
            && (c.radio == 0 && c.last.Some? && Mirrors(c.last.value, s) && From(s.bytes) != 0 ==>
                  r.radio == From(s.bytes))
  {
    hide Inv, ProcessFrame, IsComplete, Mirrors;
    var s := ss[0].(known := c.radio != 0);
    ProperParts(ss);
    SeesOne(c, st0, s);
    SeesKeeps(ProcessFrame(c, s), st0, ss[1..]);
  }

  /** Some frames make the decoder credit an old frame of the client to it. */
  ghost predicate CanBeCredited(c: Decoder, client: clientNo, n: nat, log: nat) {
    exists ss: seq<Seen> :: Proper(ss) && CreditedIn(Sees(c, ss), client, n, log)
  }

  predicate CreditedIn(r: Decoder, client: clientNo, n: nat, log: nat) {
    exists j | log <= j < |r.log| :: CreditsOld(r.log[j], client, n)
  }

  /** The client's frame, just seen, can teach the radio's address, and is not from and to one place. */
  predicate Outlives(c: Decoder, client: clientNo) {
    && c.radio == 0 && Remembered(c, client)
    && var q := c.last.value.bytes;
       From(q) != BCAST && From(q) != To(q) && CmdOf(q) != OK && CmdOf(q) != NG
  }

  /** What a run says about one of its entries and one of its discards. */
  lemma EntryTells(r: Decoder, st0: State, i: nat, j: nat)
    requires Inv(r, st0) && i < |r.cuts| && r.cuts[i].log <= j < |r.log|
    ensures EntryOk(r.log[j], PastOf(r)) && AfterCut(r.seen, r.cuts[i], r.log[j])
    ensures r.log[j].radio == 0 || r.log[j].radio == r.radio
  {
    hide EntryOk, AfterCut, Clash, ListOk, CreditsBelow, Evidence;
  }

  /** An old frame is credited after its client's discard: the first new frame mirrored it. */
  lemma OldCreditTells(r: Decoder, st0: State, i: nat, j: nat)
    requires Inv(r, st0) && i < |r.cuts| && r.cuts[i].log <= j < |r.log|
    requires r.cuts[i].client != 0 && CreditsOld(r.log[j], r.cuts[i].client, r.cuts[i].seen)
    ensures var cut := r.cuts[i];
            && cut.seen > 0 && !cut.known && TaughtNext(r.seen, cut.seen - 1)
            && r.log[j].credit.value.id == cut.seen - 1
            && r.seen[cut.seen - 1].dir == Host && r.seen[cut.seen - 1].client == cut.client
            && r.seen[cut.seen - 1].bytes == r.log[j].credit.value.cmd
  {
    EntryTells(r, st0, i, j);
    hide Inv, SentLately, Fits, TaughtNext;
  }

  lemma CreditedOutlives(c: Decoder, st0: State, client: clientNo, ss: seq<Seen>)
    requires Inv(c, st0) && client != 0 && Proper(ss)
    requires CreditedIn(Sees(Discard(c, client), ss), client, |c.seen|, |c.log|)
    ensures Outlives(c, client)
  {
    hide Inv, Discard, EntryOk, TaughtNext, Mirrors, ProcessFrame, Proper;
    RxThere(c, st0);
    AfterDiscard(c, st0, client);
    var d, n := Discard(c, client), |c.seen|;
    SeesKeeps(d, st0, ss);
    var r := Sees(d, ss);
    assert r.cuts[|c.cuts|] == Cut(client, n, |c.log|, c.radio != 0);
    var j: nat :| |c.log| <= j < |r.log| && CreditsOld(r.log[j], client, n);
    OldCreditTells(r, st0, |c.cuts|, j);
    EntryTells(r, st0, |c.cuts|, j);
    MirrorIsThere(r.seen, n - 1);
    assert |r.seen| > n;
    assert ss != [];
    SeesFirst(d, st0, ss);
    assert r.seen[n - 1] == c.seen[n - 1];
    var q := c.last.value;
    MirrorIs(q, r.seen[n]);
    if From(q.bytes) == To(q.bytes) {
      NobodyAnswersItself(r.log[j], PastOf(r), q.bytes, r.radio);
    }
  }

  lemma MirrorIsThere(seen: seq<Seen>, id: nat)
    requires TaughtNext(seen, id)
    ensures id + 1 < |seen| && Mirrors(seen[id], seen[id + 1])
  {
  }

  lemma MirrorIs(q: Seen, s: Seen)
    requires Mirrors(q, s)
    ensures From(s.bytes) == To(q.bytes) && From(q.bytes) != BCAST && CmdOf(q.bytes) != OK && CmdOf(q.bytes) != NG
  {
  }

  lemma NobodyAnswersItself(e: Entry, h: Past, q: frame, radio: byte)
    requires EntryOk(e, h) && (e.radio == 0 || e.radio == radio) && radio != 0 && e.credit.Some?
    requires e.credit.value.cmd == q && From(q) == radio && To(q) == radio
    ensures false
  {
    hide SentLately;
  }

  // ----- That it happens -----

  /** Later than any command can be pending. */
  function LateFor(pend: seq<Pending>): (t: nat)
    ensures forall k | 0 <= k < |pend| :: pend[k].t + PEND_TIMEOUT_MS < t
  {
    if pend == [] then 0
    else
      var t, u := LateFor(pend[..|pend| - 1]), pend[|pend| - 1].t + PEND_TIMEOUT_MS + 1;
      if t < u then u else t
  }

  lemma {:induction false} AllExpire(pend: seq<Pending>, t: nat)
    requires forall k | 0 <= k < |pend| :: pend[k].t + PEND_TIMEOUT_MS < t
    ensures PendExpire(pend, t) == []
    decreases |pend|
  {
    if pend != [] {
      AllExpire(pend[1..], t);
    }
  }

  /** A frame with the same command back to its sender. */
  function Mirrored(q: frame): frame {
    [F.PRE, F.PRE, From(q), To(q), CmdOf(q), F.EOM]
  }

  function Rejection(from: byte, to: byte): frame {
    [F.PRE, F.PRE, to, from, NG, F.EOM]
  }

  /** The mirrored frame makes the command pending, or answers it. */
  lemma MirrorRevives(d: Decoder, q: Seen, t: nat)
    requires d.radio == 0 && d.last == Some(q) && d.seen != [] && q.dir == Host && LateFor(d.pend) <= t
    requires From(q.bytes) != BCAST && CmdOf(q.bytes) != OK && CmdOf(q.bytes) != NG && From(q.bytes) != To(q.bytes)
    ensures var n, x := |d.seen|, To(q.bytes);
            var r := ProcessFrame(d, Seen(Radio, 0, Mirrored(q.bytes), t, false));
            && r.radio == x && |r.seen| == n + 1 && |r.log| == |d.log| + 1
            && (CreditsOld(r.log[|d.log|], q.client, n) || r.pend == [NewPending(q, n - 1, t)])
  {
    hide ApplyReply, ApplySet, ApplyUnsolicited, Answers, Acknowledges, Consume;
    AllExpire(d.pend, t);
    hide PendExpire, LateFor;
    var s := Seen(Radio, 0, Mirrored(q.bytes), t, false);
    assert From(s.bytes) == To(q.bytes) && To(s.bytes) == From(q.bytes) && CmdOf(s.bytes) == CmdOf(q.bytes);
    var a := Admit(d, s);
    assert a.pend == [NewPending(q, |d.seen| - 1, t)];
  }

  /** A rejection from anywhere else answers the only command, and teaches the address if need be. */
  lemma RejectionAnswers(r: Decoder, p: Pending, z: byte)
    requires r.pend == [p] && z != 0 && z != From(p.buf) && (r.radio == 0 || r.radio == z) && From(p.buf) != BCAST
    ensures var m := ProcessFrame(r, Seen(Radio, 0, Rejection(z, From(p.buf)), p.t, r.radio != 0));
            |m.log| == |r.log| + 1 && m.log[|r.log|].credit == CreditOf(p) && m.log[|r.log|].f.client == p.client
  {
    hide ApplyReply, ApplySet, ApplyUnsolicited, Answers, Consume;
    var s := Seen(Radio, 0, Rejection(z, From(p.buf)), p.t, r.radio != 0);
    var a := Admit(r, s);
    assert a.pend == [p] && a.radio == z && CmdOf(s.bytes) == NG && To(s.bytes) == From(p.buf);
    assert IsAckedBy(From(p.buf), false)(p);
    assert First([p], IsAckedBy(From(p.buf), false)) == 0;
  }

  lemma OutlivingIsCredited(c: Decoder, st0: State, client: clientNo)
    requires Inv(c, st0) && client != 0 && Outlives(c, client)
    ensures CanBeCredited(Discard(c, client), client, |c.seen|, |c.log|)
  {
    hide Inv, ProcessFrame, LateFor, Discard;
    RxThere(c, st0);
    AfterDiscard(c, st0, client);
    var d, q, n := Discard(c, client), c.last.value, |c.seen|;
    var t, x, y := LateFor(d.pend), To(q.bytes), From(q.bytes);
    var z: byte := if x != 0 then x else if y == 1 then 2 else 1;
    MirrorRevives(d, q, t);
    var s0 := Seen(Radio, 0, Mirrored(q.bytes), t, false);
    var r := ProcessFrame(d, s0);
    var s1 := Seen(Radio, 0, Rejection(z, y), t, r.radio != 0);
    if CreditsOld(r.log[|c.log|], client, n) {
      OneSeen(d, s0);
    } else {
      RejectionAnswers(r, NewPending(q, n - 1, t), z);
      assert CreditsOld(ProcessFrame(r, s1).log[|r.log|], client, n);
      TwoSeen(d, s0, s1);
    }
  }

  lemma OneSeen(d: Decoder, s: Seen)
    requires d.radio == 0 && IsComplete(s.bytes) && s.client == 0 && !s.known
    ensures Proper([s]) && Sees(d, [s]) == ProcessFrame(d, s)
  {
    hide ProcessFrame;
    assert [s][1..] == [];
    assert s.(known := false) == s;
  }

  lemma TwoSeen(d: Decoder, s: Seen, s1: Seen)
    requires d.radio == 0 && IsComplete(s.bytes) && s.client == 0 && !s.known
    requires IsComplete(s1.bytes) && s1.client == 0 && s1.known == (ProcessFrame(d, s).radio != 0)
    ensures Proper([s, s1]) && Sees(d, [s, s1]) == ProcessFrame(ProcessFrame(d, s), s1)
  {
    hide ProcessFrame;
    var r := ProcessFrame(d, s);
    assert [s, s1][1..] == [s1] && [s1][1..] == [];
    assert s.(known := false) == s && s1.(known := r.radio != 0) == s1;
    assert Sees(r, [s1]) == Sees(ProcessFrame(r, s1), []);
  }

  /**
   * Whether a discarded client can still get credit for what it sent before, by any frames that
   * may be seen: exactly if the radio's address is not known, the client's frame is the last one
   * seen, and that one may teach the address.
   */
  lemma DiscardedClientsCredit(c: Decoder, st0: State, client: clientNo)
    requires Inv(c, st0) && client != 0
    ensures CanBeCredited(Discard(c, client), client, |c.seen|, |c.log|) <==> Outlives(c, client)
  {
    hide Inv, Discard, Outlives;
    RxThere(c, st0);
    if CanBeCredited(Discard(c, client), client, |c.seen|, |c.log|) {
      hide CreditedIn;
      var ss: seq<Seen> :| Proper(ss) && CreditedIn(Sees(Discard(c, client), ss), client, |c.seen|, |c.log|);
      CreditedOutlives(c, st0, client, ss);
    }
    if Outlives(c, client) {
      OutlivingIsCredited(c, st0, client);
    }
  }
}
