/** CI-V over whole runs: whom radio frames are credited to, and what may change the state. */
module CivRuns {
  import opened Cat
  import opened CatState
  import opened CivTables
  import opened Civ
  import F = CivFramer
  import opened SeqFacts
  import opened Sources
  import opened Wrappers

  // ----- What the bytes of an entry tell -----

  predicate IsAnswer(k: Kind) {
    k == Reply || k == Bad || k == Ack || k == Nak
  }

  /** Debris has no end. */
  predicate IsComplete(f: seq<byte>) {
    F.IsFrame(f) && f[|f| - 1] == F.EOM
  }

  /** The kinds that a whole frame can be reported as: its addresses and its command decide. */
  predicate Classified(k: Kind, dir: Dir, radio: byte, f: frame) {
    if radio == 0 then k == Foreign
    else if dir != Radio then k == if To(f) == radio && From(f) != BCAST then Cmd else Foreign
    else if From(f) == radio && To(f) != radio then
      if To(f) == BCAST then k == Unsolicited || k == Bad
      else if CmdOf(f) == OK then k == Ack
      else if CmdOf(f) == NG then k == Nak
      else k == Reply || k == Bad || k == Unmatched
    else if To(f) == radio && From(f) != radio && From(f) != BCAST then k == Echo || k == Cmd
    else k == Foreign
  }

  /** A radio frame of that kind fits the command it is credited with. */
  predicate Fits(k: Kind, q: frame, f: frame) {
    match k
    case Echo => q == f
    case Reply => Answers(q, f)
    case Bad => Answers(q, f)
    case Ack => Acknowledges(q, To(f), true)
    case Nak => Acknowledges(q, To(f), false)
    case _ => false
  }

  /** Whose frame it was; 0 for mhuxd and for the bus. */
  function Sender(s: Seen): clientNo {
    if s.dir == Host then s.client else 0
  }

  /** s is a frame of the radio back to the sender of q; it teaches the radio's address if that is not known. */
  predicate Mirrors(q: Seen, s: Seen) {
    && s.dir == Radio && To(s.bytes) != BCAST && CmdOf(s.bytes) != OK && CmdOf(s.bytes) != NG
    && From(s.bytes) == To(q.bytes) && To(s.bytes) == From(q.bytes) && CmdOf(s.bytes) == CmdOf(q.bytes)
  }

  /** The frame after the one with the number id taught the radio's address, as the mirror of it. */
  predicate TaughtNext(seen: seq<Seen>, id: nat) {
    id + 1 < |seen| && !seen[id + 1].known && Mirrors(seen[id], seen[id + 1])
  }

  /** The command with the number id went out at t: when it was seen, when its reply taught the address, or again. */
  predicate SentAt(seen: seq<Seen>, resent: seq<Sending>, id: nat, t: nat) {
    && id < |seen|
    && (seen[id].t == t || (TaughtNext(seen, id) && seen[id + 1].t == t) || Sending(id, t) in resent)
  }

  /** This command, or one before it, went out at most two seconds before t. */
  ghost predicate SentLately(seen: seq<Seen>, resent: seq<Sending>, id: nat, t: nat) {
    exists h: nat, th: nat :: h <= id && SentAt(seen, resent, h, th) && th + PEND_TIMEOUT_MS >= t
  }

  /** The history of a decoder. */
  datatype Past = Past(seen: seq<Seen>, log: seq<Entry>, resent: seq<Sending>, cuts: seq<Cut>)

  function PastOf(c: Decoder): Past {
    Past(c.seen, c.log, c.resent, c.cuts)
  }

  /** What an entry reports is the frame that had just been seen; only its kind is the decoder's. */
  predicate FrameOk(e: Entry, h: Past) {
    && e.at <= |h.seen|
    && (if IsComplete(e.f.buf) then
          && e.at > 0 && h.seen[e.at - 1].bytes == e.f.buf && h.seen[e.at - 1].dir == e.f.dir
          && h.seen[e.at - 1].t == e.f.t && Classified(e.f.kind, e.f.dir, e.radio, e.f.buf)
        else e.f.kind == Dropped || e.f.kind == Jam)
  }

  /** Credit goes to an earlier frame of that very client, which fits and went out lately. */
  ghost predicate CreditOk(e: Entry, h: Past) {
    match e.credit
    case None => e.f.kind != Echo && e.f.kind != Reply && (e.f.dir == Radio ==> e.f.client == 0 && !e.f.own)
    case Some(credit) =>
      && credit.id + 1 < e.at <= |h.seen|
      && var s := h.seen[credit.id];
         && s.bytes == credit.cmd && e.f.dir == Radio
         && e.f.own == (s.dir == Own) && e.f.client == Sender(s)
         && IsComplete(e.f.buf) && To(e.f.buf) != BCAST && Fits(e.f.kind, credit.cmd, e.f.buf)
         && (e.f.kind == Echo ==> s.dir != Radio)
         && SentLately(h.seen, h.resent, credit.id, e.f.t)
  }

  ghost predicate EntryOk(e: Entry, h: Past) {
    FrameOk(e, h) && CreditOk(e, h)
  }

  /** b is credited to a command not sent after the one that a answered, for the same controller and client. */
  predicate Overtakes(a: Entry, b: Entry) {
    && a.credit.Some? && b.credit.Some? && IsAnswer(a.f.kind)
    && From(a.credit.value.cmd) == From(b.credit.value.cmd) && a.f.client == b.f.client
    && b.credit.value.id <= a.credit.value.id
  }

  /** What a reports would have fitted an older command, to which b is credited: that one was still open. */
  predicate Skips(a: Entry, b: Entry) {
    && a.credit.Some? && b.credit.Some? && b.credit.value.id < a.credit.value.id
    && IsComplete(a.f.buf) && Fits(a.f.kind, b.credit.value.cmd, a.f.buf) && (IsAnswer(a.f.kind) || b.f.kind == Echo)
  }

  predicate EchoTwice(a: Entry, b: Entry) {
    a.credit.Some? && b.credit.Some? && a.credit.value.id == b.credit.value.id && a.f.kind == Echo && b.f.kind == Echo
  }

  predicate Clash(a: Entry, b: Entry) {
    Overtakes(a, b) || Skips(a, b) || EchoTwice(a, b)
  }

  /**
   * A command with this number was given up by the discard. The very last frame before the
   * discard is not, if the radio's address was not known and the next frame taught it as the
   * mirror of this one.
   */
  predicate GivenUp(seen: seq<Seen>, cut: Cut, client: clientNo, id: nat) {
    client == cut.client && id < cut.seen && !(id + 1 == cut.seen && !cut.known && TaughtNext(seen, id))
  }

  predicate AfterCut(seen: seq<Seen>, cut: Cut, e: Entry) {
    e.credit.Some? ==> !GivenUp(seen, cut, e.f.client, e.credit.value.id)
  }

  ghost predicate Sound(h: Past) {
    && (forall j | 0 <= j < |h.log| :: EntryOk(h.log[j], h))
    && (forall j, k | 0 <= j < k < |h.log| :: !Clash(h.log[j], h.log[k]))
    && (forall i, j | 0 <= i < |h.cuts| && h.cuts[i].log <= j < |h.log| ::
          AfterCut(h.seen, h.cuts[i], h.log[j]))
  }

  // ----- The pending list -----

  predicate Credited(e: Entry, id: nat) {
    e.credit.Some? && e.credit.value.id == id
  }

  /** What e is credited with leaves p open. */
  predicate LeavesOpen(e: Entry, p: Pending) {
    && (Credited(e, p.id) ==> e.f.kind == Echo && p.echoed)
    && (e.credit.Some? && IsAnswer(e.f.kind) && From(e.credit.value.cmd) == From(p.buf) && e.f.client == p.client
        ==> e.credit.value.id < p.id)
    && (e.credit.Some? && p.id < e.credit.value.id && IsComplete(e.f.buf) && Fits(e.f.kind, p.buf, e.f.buf)
        ==> e.f.kind == Echo && (p.fromHost ==> p.echoed))
  }

  predicate IsOf(p: Pending, h: Past) {
    && p.id < |h.seen|
    && var s := h.seen[p.id];
       && s.bytes == p.buf && p.fromHost == (s.dir != Radio) && p.own == (s.dir == Own) && p.client == Sender(s)
       && SentAt(h.seen, h.resent, p.id, p.t)
  }

  predicate PendOk(p: Pending, h: Past) {
    && IsOf(p, h)
    && (forall j | 0 <= j < |h.log| :: LeavesOpen(h.log[j], p))
    && (forall i | 0 <= i < |h.cuts| :: !GivenUp(h.seen, h.cuts[i], p.client, p.id))
  }

  /** Open commands with rising numbers from lo up to, not including, hi. */
  predicate ListOk(pend: seq<Pending>, h: Past, lo: nat, hi: nat) {
    && (forall i | 0 <= i < |pend| :: lo <= pend[i].id < hi && PendOk(pend[i], h))
    && (forall i, j | 0 <= i < j < |pend| :: pend[i].id < pend[j].id)
  }

  lemma Joined(a: seq<Pending>, b: seq<Pending>, h: Past, lo: nat, mid: nat, hi: nat)
    requires ListOk(a, h, lo, mid) && ListOk(b, h, mid, hi) && lo <= mid <= hi
    ensures ListOk(a + b, h, lo, hi)
  {
    hide PendOk;
  }

  lemma Parted(pend: seq<Pending>, h: Past, lo: nat, hi: nat, k: nat)
    requires ListOk(pend, h, lo, hi) && k < |pend|
    ensures ListOk(pend[..k], h, lo, pend[k].id)
    ensures ListOk(pend[k + 1..], h, pend[k].id + 1, hi)
  {
    hide PendOk;
  }

  lemma {:induction false} ExpireOk(pend: seq<Pending>, h: Past, hi: nat, t: nat)
    requires ListOk(pend, h, 0, hi)
    ensures var r := PendExpire(pend, t);
            ListOk(r, h, 0, hi) && |r| <= |pend| && (r != [] ==> r[0].t + PEND_TIMEOUT_MS >= t)
    decreases |pend|
  {
    hide PendOk;
    if pend != [] && pend[0].t + PEND_TIMEOUT_MS < t {
      ExpireOk(pend[1..], h, hi, t);
    }
  }

  lemma {:induction false} OthersOk(pend: seq<Pending>, ctrl: byte, client: clientNo, h: Past, lo: nat, hi: nat)
    requires ListOk(pend, h, lo, hi) && lo <= hi
    ensures ListOk(Others(pend, ctrl, client), h, lo, hi) && |Others(pend, ctrl, client)| <= |pend|
    decreases |pend|
  {
    hide PendOk;
    if pend != [] {
      Parted(pend, h, lo, hi, 0);
      var head, mid := [pend[0]], pend[0].id + 1;
      OthersOk(pend[1..], ctrl, client, h, mid, hi);
      assert ListOk(head, h, lo, mid);
      var kept := if From(pend[0].buf) == ctrl && pend[0].client == client then [] else head;
      Joined(kept, Others(pend[1..], ctrl, client), h, lo, mid, hi);
    }
  }

  lemma {:induction false} OthersSnoc(pend: seq<Pending>, p: Pending, ctrl: byte, client: clientNo)
    requires From(p.buf) == ctrl && p.client == client
    ensures Others(pend + [p], ctrl, client) == Others(pend, ctrl, client)
    decreases |pend|
  {
    if pend == [] {
      assert [] + [p] == [p] && [p][1..] == [];
    } else {
      assert (pend + [p])[1..] == pend[1..] + [p];
      OthersSnoc(pend[1..], p, ctrl, client);
    }
  }

  lemma {:induction false} OthersAre(pend: seq<Pending>, ctrl: byte, client: clientNo, p: Pending)
    ensures p in Others(pend, ctrl, client) <==> p in pend && !(From(p.buf) == ctrl && p.client == client)
    decreases |pend|
  {
    if pend != [] {
      assert pend == [pend[0]] + pend[1..];
      OthersAre(pend[1..], ctrl, client, p);
    }
  }

  /** An entry goes unless it is up to i and of i's controller and client. */
  lemma {:induction false} ConsumeRemovesOnlyItsOwn(pend: seq<Pending>, i: nat, p: Pending)
    requires i < |pend|
    ensures p in Consume(pend, i) <==>
      p in pend[i + 1..] ||
      (p in pend[..i + 1] && !(From(p.buf) == From(pend[i].buf) && p.client == pend[i].client))
  {
    OthersAre(pend[..i + 1], From(pend[i].buf), pend[i].client, p);
  }

  /** A consumed command is gone with all older ones of its controller and client. */
  lemma ConsumeOk(pend: seq<Pending>, i: nat, h: Past, hi: nat)
    requires ListOk(pend, h, 0, hi) && i < |pend|
    ensures var r := Consume(pend, i);
            && ListOk(r, h, 0, hi) && |r| <= |pend|
            && (forall k | 0 <= k < |r| :: r[k] in pend && r[k].id != pend[i].id)
            && (forall k | 0 <= k < |r| && From(r[k].buf) == From(pend[i].buf) && r[k].client == pend[i].client ::
                  pend[i].id < r[k].id)
  {
    hide PendOk;
    var p := pend[i];
    var kept := Others(pend[..i], From(p.buf), p.client);
    Parted(pend, h, 0, hi, i);
    assert pend[..i + 1] == pend[..i] + [p];
    OthersSnoc(pend[..i], p, From(p.buf), p.client);
    OthersOk(pend[..i], From(p.buf), p.client, h, 0, p.id);
    Joined(kept, pend[i + 1..], h, 0, p.id + 1, hi);
    assert Consume(pend, i) == kept + pend[i + 1..];
    forall k | 0 <= k < |kept|
      ensures kept[k] in pend && !(From(kept[k].buf) == From(p.buf) && kept[k].client == p.client)
    {
      OthersAre(pend[..i], From(p.buf), p.client, kept[k]);
    }
    hide Others, ListOk;
    var rest := pend[i + 1..];
    forall k | 0 <= k < |rest|
      ensures rest[k] in pend && rest[k].id > p.id
    {
      LaterIsGreater(pend, h, hi, i, i + 1 + k);
    }
    KeptIsLess(kept, h, p.id);
  }

  lemma LaterIsGreater(pend: seq<Pending>, h: Past, hi: nat, i: nat, j: nat)
    requires ListOk(pend, h, 0, hi) && i < j < |pend|
    ensures pend[i].id < pend[j].id
  {
  }

  lemma KeptIsLess(pend: seq<Pending>, h: Past, hi: nat)
    requires ListOk(pend, h, 0, hi)
    ensures forall k | 0 <= k < |pend| :: pend[k].id < hi
  {
  }

  /** The history grows. */
  predicate Extends(h: Past, r: Past) {
    && h.seen <= r.seen && h.resent <= r.resent && h.cuts == r.cuts
    && (r.log == h.log || (|r.log| == |h.log| + 1 && r.log[..|h.log|] == h.log))
  }

  lemma SentAtGrows(h: Past, r: Past, id: nat, t: nat)
    requires SentAt(h.seen, h.resent, id, t) && h.seen <= r.seen && h.resent <= r.resent
    ensures SentAt(r.seen, r.resent, id, t)
  {
    if Sending(id, t) in h.resent {
      var k :| 0 <= k < |h.resent| && h.resent[k] == Sending(id, t);
      assert r.resent[k] == Sending(id, t);
    }
  }

  lemma LatelyGrows(h: Past, r: Past, id: nat, t: nat)
    requires SentLately(h.seen, h.resent, id, t) && h.seen <= r.seen && h.resent <= r.resent
    ensures SentLately(r.seen, r.resent, id, t)
  {
    hide SentAt;
    var k: nat, tk: nat :| k <= id && SentAt(h.seen, h.resent, k, tk) && tk + PEND_TIMEOUT_MS >= t;
    SentAtGrows(h, r, k, tk);
  }

  lemma PendGrows(p: Pending, h: Past, r: Past)
    requires PendOk(p, h) && Extends(h, r)
    requires |r.log| > |h.log| ==> LeavesOpen(r.log[|h.log|], p)
    ensures PendOk(p, r)
  {
    SentAtGrows(h, r, p.id, p.t);
    forall j | 0 <= j < |r.log|
      ensures LeavesOpen(r.log[j], p)
    {
      assert j < |h.log| ==> r.log[j] == h.log[j];
    }
    hide LeavesOpen, SentAt;
  }

  lemma ListGrows(pend: seq<Pending>, h: Past, r: Past, hi: nat)
    requires ListOk(pend, h, 0, hi) && Extends(h, r)
    requires |r.log| > |h.log| ==> forall k | 0 <= k < |pend| :: LeavesOpen(r.log[|h.log|], pend[k])
    ensures ListOk(pend, r, 0, hi)
  {
    forall k | 0 <= k < |pend|
      ensures PendOk(pend[k], r)
    {
      PendGrows(pend[k], h, r);
    }
    hide PendOk, Extends, LeavesOpen;
  }

  lemma EntryGrows(e: Entry, h: Past, r: Past)
    requires EntryOk(e, h) && h.seen <= r.seen && h.resent <= r.resent
    ensures EntryOk(e, r)
  {
    if e.credit.Some? {
      LatelyGrows(h, r, e.credit.value.id, e.f.t);
    }
    hide SentLately, Classified, Fits;
  }

  lemma SoundGrows(h: Past, r: Past)
    requires Sound(h) && r.log == h.log && r.cuts == h.cuts && h.seen <= r.seen && h.resent <= r.resent
    ensures Sound(r)
  {
    forall j | 0 <= j < |r.log|
      ensures EntryOk(r.log[j], r)
    {
      EntryGrows(h.log[j], h, r);
    }
    hide EntryOk, Clash, AfterCut;
  }

  // ----- New commands -----

  predicate CreditsBelow(log: seq<Entry>, hi: nat) {
    forall j | 0 <= j < |log| :: log[j].credit.Some? ==> log[j].credit.value.id < hi
  }

  lemma BelowGrows(log: seq<Entry>, lo: nat, hi: nat)
    requires CreditsBelow(log, lo) && lo <= hi
    ensures CreditsBelow(log, hi)
  {
  }

  lemma ListBelow(pend: seq<Pending>, h: Past, lo: nat, hi: nat)
    requires ListOk(pend, h, 0, lo) && lo <= hi
    ensures ListOk(pend, h, 0, hi)
  {
    hide PendOk;
  }

  function NewPending(s: Seen, id: nat, t: nat): Pending {
    Pending(s.bytes, t, s.dir != Radio, s.dir == Radio, s.dir == Own, Sender(s), false, 0, id)
  }

  lemma NewIsOk(s: Seen, h: Past, id: nat, t: nat)
    requires SentAt(h.seen, h.resent, id, t) && h.seen[id] == s && CreditsBelow(h.log, id)
    requires forall i | 0 <= i < |h.cuts| :: !GivenUp(h.seen, h.cuts[i], Sender(s), id)
    ensures PendOk(NewPending(s, id, t), h)
  {
    hide GivenUp;
  }

  /** A command gets its number, which is larger than all others. */
  lemma AddOk(pend: seq<Pending>, s: Seen, h: Past, id: nat, t: nat)
    requires ListOk(pend, h, 0, id) && |pend| <= PEND_MAX && PendOk(NewPending(s, id, t), h)
    ensures var r := PendAdd(pend, s, id, t);
            ListOk(r, h, 0, id + 1) && |r| <= PEND_MAX
            && forall k | 0 <= k < |r| :: r[k] in pend || r[k] == NewPending(s, id, t)
  {
    hide PendOk;
    var kept := if |pend| == PEND_MAX then pend[1..] else pend;
    var p := NewPending(s, id, t);
    assert ListOk([p], h, id, id + 1);
    assert ListOk(kept, h, 0, id);
    Joined(kept, [p], h, 0, id, id + 1);
    assert PendAdd(pend, s, id, t) == kept + [p];
  }

  // ----- The state -----

  /** What the bytes of a radio frame, and the command they answer, tell about the radio. */
  function Tell(freqLen: nat, st: State, e: Entry): State {
    if e.f.dir != Radio || e.radio == 0 || !IsComplete(e.f.buf) then st
    else if From(e.f.buf) != e.radio || To(e.f.buf) == e.radio then st
    else if To(e.f.buf) == BCAST then ApplyUnsolicited(freqLen, st, e.f.buf, e.f.t).0
    else if e.credit == None || CmdOf(e.f.buf) == NG then st
    else if CmdOf(e.f.buf) != OK then ApplyReply(freqLen, st, e.f.buf, e.f.t).0
    else if PurposeOf(e.credit.value.cmd) == Set then ApplySet(freqLen, st, e.credit.value.cmd, e.f.t).0
    else st
  }

  /** All that the radio told: broadcasts to 00, replies to queries, and sets it confirmed with FB. */
  function Evidence(freqLen: nat, st: State, log: seq<Entry>): State
    decreases |log|
  {
    if log == [] then st
    else Tell(freqLen, Evidence(freqLen, st, log[..|log| - 1]), log[|log| - 1])
  }

  lemma EvidenceSnoc(freqLen: nat, st: State, log: seq<Entry>, e: Entry)
    ensures Evidence(freqLen, st, log + [e]) == Tell(freqLen, Evidence(freqLen, st, log), e)
  {
    assert (log + [e])[..|log|] == log;
  }

  // ----- The invariant -----

  /** While the radio is unknown, the previous frame may still become a command. */
  function Bound(c: Decoder): nat {
    if c.radio == 0 && c.seen != [] then |c.seen| - 1 else |c.seen|
  }

  /** Nothing is recorded before it happened, and the radio's address, once known, stays. */
  predicate InOrder(log: seq<Entry>, cuts: seq<Cut>, radio: byte, n: nat) {
    && (forall i | 0 <= i < |cuts| ::
          cuts[i].client != 0 && cuts[i].seen <= n && cuts[i].log <= |log| && (cuts[i].known ==> radio != 0))
    && (forall j | 0 <= j < |log| :: log[j].radio == 0 || log[j].radio == radio)
  }

  /** Commands and credits have numbers below hi; n frames were seen at the last discard or before. */
  ghost predicate Good(c: Decoder, st0: State, hi: nat, n: nat) {
    && Sound(PastOf(c))
    && ListOk(c.pend, PastOf(c), 0, hi) && |c.pend| <= PEND_MAX
    && CreditsBelow(c.log, hi)
    && InOrder(c.log, c.cuts, c.radio, n)
    && c.st == Evidence(c.freqLen, st0, c.log)
  }

  ghost predicate Inv(c: Decoder, st0: State) {
    && ValidRx(c.rx)
    && Good(c, st0, Bound(c), |c.seen|)
    && c.last == (if c.seen == [] then None else Some(c.seen[|c.seen| - 1]))
  }

  /** All pending commands went out lately, or one before them did. */
  ghost predicate AllLately(c: Decoder, t: nat) {
    forall k | 0 <= k < |c.pend| :: SentLately(c.seen, c.resent, c.pend[k].id, t)
  }

  /** The frame s got its number and is about to be looked at. */
  lemma AdmittedOk(c: Decoder, st0: State, s: Seen)
    requires Inv(c, st0)
    ensures var r := c.(seen := c.seen + [s], pend := PendExpire(c.pend, s.t));
            Good(r, st0, Bound(c), |c.seen|) && AllLately(r, s.t)
  {
    var r := c.(seen := c.seen + [s], pend := PendExpire(c.pend, s.t));
    hide Sound, Evidence, CreditsBelow, InOrder, SentAt, SentLately;
    SoundGrows(PastOf(c), PastOf(r));
    ListGrows(c.pend, PastOf(c), PastOf(r), Bound(c));
    ExpireOk(c.pend, PastOf(r), Bound(c), s.t);
    HeadIsLate(r, Bound(c), s.t);
  }

  lemma HeadIsLate(c: Decoder, hi: nat, t: nat)
    requires ListOk(c.pend, PastOf(c), 0, hi) && (c.pend != [] ==> c.pend[0].t + PEND_TIMEOUT_MS >= t)
    ensures AllLately(c, t)
  {
    forall k | 0 <= k < |c.pend|
      ensures SentLately(c.seen, c.resent, c.pend[k].id, t)
    {
      assert PendOk(c.pend[0], PastOf(c));
      assert c.pend[0].id <= c.pend[k].id && SentAt(c.seen, c.resent, c.pend[0].id, c.pend[0].t);
    }
  }

  lemma SentNow(c: Decoder, id: nat, t: nat)
    requires SentAt(c.seen, c.resent, id, t)
    ensures SentLately(c.seen, c.resent, id, t)
  {
    hide SentAt;
  }

  lemma LearnOk(c: Decoder, st0: State, s: Seen)
    requires c.seen != [] && c.radio == 0 && c.seen[|c.seen| - 1] == s && !s.known && AllLately(c, s.t)
    requires Good(c, st0, if |c.seen| >= 2 then |c.seen| - 2 else 0, |c.seen| - 1)
    requires c.last == if |c.seen| >= 2 then Some(c.seen[|c.seen| - 2]) else None
    ensures var r := LearnAddr(c, s.dir, s.bytes, s.t);
            Good(r, st0, |c.seen| - 1, |c.seen| - 1) && AllLately(r, s.t)
  {
    hide Sound, Evidence, PendOk, SentLately;
    var lo, n := if |c.seen| >= 2 then |c.seen| - 2 else 0, |c.seen|;
    BelowGrows(c.log, lo, n - 1);
    ListBelow(c.pend, PastOf(c), lo, n - 1);
    if n >= 2 && Mirrors(c.seen[n - 2], s) {
      var l := c.seen[n - 2];
      assert SentAt(c.seen, c.resent, n - 2, s.t);
      NewIsOk(l, PastOf(c), n - 2, s.t);
      AddOk(c.pend, l, PastOf(c), n - 2, s.t);
      SentNow(c, n - 2, s.t);
      hide ListOk, CreditsBelow, SentAt;
      var r := PendAdd(c.pend, l, n - 2, s.t);
      forall k | 0 <= k < |r|
        ensures SentLately(c.seen, c.resent, r[k].id, s.t)
      {
        assert r[k] in c.pend || r[k].id == n - 2;
      }
    }
  }

  lemma AdmitOk(c: Decoder, st0: State, s: Seen)
    requires Inv(c, st0) && s.known == (c.radio != 0)
    ensures var r := Admit(c, s);
            Good(r, st0, |c.seen|, |c.seen|) && AllLately(r, s.t) && r.rx == c.rx && r.freqLen == c.freqLen
  {
    AdmittedOk(c, st0, s);
    hide Sound, Evidence, ListOk, PendExpire, AllLately, InOrder, CreditsBelow;
    var c1 := c.(seen := c.seen + [s], pend := PendExpire(c.pend, s.t));
    if c1.radio == 0 {
      LearnOk(c1, st0, s);
    }
  }

  // ----- One more entry -----

  /** The entry e is sound where it stands. */
  ghost predicate FitsIn(e: Entry, h: Past) {
    && EntryOk(e, h)
    && (forall j | 0 <= j < |h.log| :: !Clash(h.log[j], e))
    && (forall i | 0 <= i < |h.cuts| :: AfterCut(h.seen, h.cuts[i], e))
  }

  lemma Appended(h: Past, e: Entry)
    requires Sound(h) && FitsIn(e, h)
    ensures Sound(h.(log := h.log + [e]))
  {
    var r := h.(log := h.log + [e]);
    forall j | 0 <= j < |r.log|
      ensures EntryOk(r.log[j], r)
    {
      EntryGrows(if j < |h.log| then h.log[j] else e, h, r);
    }
    hide EntryOk, Clash, AfterCut;
  }

  /** One more frame in the log, and what comes with it. */
  lemma Logged(c: Decoder, st0: State, hi: nat, n: nat, pend: seq<Pending>, e: Entry)
    requires Good(c, st0, hi, n)
    requires ListOk(pend, PastOf(c), 0, hi) && |pend| <= PEND_MAX
    requires forall k | 0 <= k < |pend| :: LeavesOpen(e, pend[k])
    requires FitsIn(e, PastOf(c)) && (e.credit.Some? ==> e.credit.value.id < hi) && e.radio == c.radio
    ensures Good(c.(pend := pend, log := c.log + [e], st := Tell(c.freqLen, c.st, e)), st0, hi, n)
  {
    hide FitsIn, LeavesOpen, Tell, Sound, PendOk;
    var h := PastOf(c);
    Appended(h, e);
    ListGrows(pend, h, h.(log := h.log + [e]), hi);
    EvidenceSnoc(c.freqLen, st0, c.log, e);
    hide ListOk;
  }

  lemma UncreditedFitsIn(e: Entry, h: Past, pend: seq<Pending>)
    requires e.credit == None && EntryOk(e, h)
    ensures FitsIn(e, h) && forall k | 0 <= k < |pend| :: LeavesOpen(e, pend[k])
  {
    hide EntryOk;
  }

  /** A frame credited to nobody. */
  lemma Uncredited(c: Decoder, st0: State, hi: nat, n: nat, e: Entry)
    requires Good(c, st0, hi, n) && e.credit == None && EntryOk(e, PastOf(c)) && e.radio == c.radio
    ensures Good(c.(log := c.log + [e], st := Tell(c.freqLen, c.st, e)), st0, hi, n)
  {
    UncreditedFitsIn(e, PastOf(c), c.pend);
    hide Tell, ListOk, Sound, CreditsBelow, Evidence, EntryOk, FitsIn, LeavesOpen, InOrder;
    Logged(c, st0, hi, n, c.pend, e);
  }

  /** The entry credits the open command p for the first time, or answers it. */
  lemma CreditFitsIn(e: Entry, p: Pending, h: Past)
    requires PendOk(p, h) && EntryOk(e, h) && e.credit == Some(Credit(p.id, p.buf)) && e.f.client == p.client
    requires e.f.kind == Echo ==> p.fromHost && !p.echoed
    ensures FitsIn(e, h)
  {
    forall j | 0 <= j < |h.log|
      ensures !Clash(h.log[j], e)
    {
      assert LeavesOpen(h.log[j], p);
    }
    hide EntryOk, IsOf, LeavesOpen, Clash;
  }

  /** The i-th pending command got its answer. */
  lemma AnsweredOk(c: Decoder, st0: State, hi: nat, n: nat, i: nat, e: Entry)
    requires Good(c, st0, hi, n) && i < |c.pend| && e.radio == c.radio
    requires e.credit == CreditOf(c.pend[i]) && IsAnswer(e.f.kind) && EntryOk(e, PastOf(c))
    requires e.f.client == c.pend[i].client && forall k | 0 <= k < i :: !Fits(e.f.kind, c.pend[k].buf, e.f.buf)
    ensures Good(c.(pend := Consume(c.pend, i), log := c.log + [e], st := Tell(c.freqLen, c.st, e)), st0, hi, n)
  {
    hide Sound, CreditsBelow, Evidence, Consume, Tell, EntryOk, FitsIn, PendOk, InOrder;
    var p := c.pend[i];
    assert PendOk(p, PastOf(c)) && p.id < hi;
    ConsumeOk(c.pend, i, PastOf(c), hi);
    hide ListOk;
    CreditFitsIn(e, p, PastOf(c));
    var pend := Consume(c.pend, i);
    forall k | 0 <= k < |pend|
      ensures LeavesOpen(e, pend[k])
    {
      assert pend[k].id != p.id;
    }
    hide LeavesOpen;
    Logged(c, st0, hi, n, pend, e);
  }

  lemma EchoedOk(pend: seq<Pending>, i: nat, h: Past, hi: nat)
    requires ListOk(pend, h, 0, hi) && i < |pend|
    ensures var r := pend[i := pend[i].(echoed := true)];
            && ListOk(r, h, 0, hi)
            && forall k | 0 <= k < |r| && k != i :: r[k].id != pend[i].id
  {
    var r := pend[i := pend[i].(echoed := true)];
    forall k | 0 <= k < |r|
      ensures PendOk(r[k], h)
    {
      assert PendOk(pend[k], h);
    }
    hide PendOk;
  }

  lemma EchoOk(c: Decoder, st0: State, hi: nat, n: nat, i: nat, e: Entry)
    requires Good(c, st0, hi, n) && i < |c.pend| && e.radio == c.radio
    requires e.credit == CreditOf(c.pend[i]) && e.f.kind == Echo && EntryOk(e, PastOf(c))
    requires e.f.client == c.pend[i].client && c.pend[i].fromHost && !c.pend[i].echoed
    requires forall k | 0 <= k < i :: c.pend[k].fromHost && c.pend[k].buf == e.f.buf ==> c.pend[k].echoed
    requires Tell(c.freqLen, c.st, e) == c.st
    ensures Good(c.(pend := c.pend[i := c.pend[i].(echoed := true)], log := c.log + [e]), st0, hi, n)
  {
    hide Sound, CreditsBelow, Evidence, Tell, EntryOk, FitsIn, PendOk, InOrder;
    var p := c.pend[i];
    assert PendOk(p, PastOf(c)) && p.id < hi;
    EchoedOk(c.pend, i, PastOf(c), hi);
    hide ListOk;
    CreditFitsIn(e, p, PastOf(c));
    var pend := c.pend[i := p.(echoed := true)];
    assert forall k | 0 <= k < |pend| :: LeavesOpen(e, pend[k]);
    hide LeavesOpen;
    Logged(c, st0, hi, n, pend, e);
  }

  // ----- One frame -----

  /** The decoder looks at the frame s, which it has just seen. */
  ghost predicate Looks(c: Decoder, s: Seen) {
    && c.seen != [] && c.seen[|c.seen| - 1] == s && IsComplete(s.bytes) && AllLately(c, s.t)
    && (s.dir == Radio ==> s.client == 0)
  }

  /** s is a frame of the radio to somebody else. */
  predicate FromRadio(c: Decoder, s: Seen) {
    s.dir == Radio && c.radio != 0 && From(s.bytes) == c.radio && To(s.bytes) != c.radio
  }

  lemma Reported(c: Decoder, s: Seen, f: Frame)
    requires Looks(c, s) && f.buf == s.bytes && f.dir == s.dir && f.t == s.t
    requires Classified(f.kind, f.dir, c.radio, f.buf) && f.kind != Echo && f.kind != Reply
    requires f.dir == Radio ==> f.client == 0 && !f.own
    ensures EntryOk(Entry(f, None, |c.seen|, c.radio), PastOf(c))
  {
    hide Classified;
  }

  lemma CreditReported(c: Decoder, s: Seen, hi: nat, i: nat, f: Frame)
    requires Looks(c, s) && f.buf == s.bytes && f.dir == s.dir == Radio && f.t == s.t
    requires ListOk(c.pend, PastOf(c), 0, hi) && hi < |c.seen| && i < |c.pend|
    requires Classified(f.kind, f.dir, c.radio, f.buf) && Fits(f.kind, c.pend[i].buf, f.buf)
    requires f.own == c.pend[i].own && f.client == c.pend[i].client && (f.kind == Echo ==> c.pend[i].fromHost)
    requires To(s.bytes) != BCAST
    ensures EntryOk(Entry(f, CreditOf(c.pend[i]), |c.seen|, c.radio), PastOf(c))
  {
    hide Classified, Fits, SentLately, LeavesOpen, GivenUp;
    assert PendOk(c.pend[i], PastOf(c));
  }

  lemma BroadcastOk(c: Decoder, st0: State, hi: nat, n: nat, s: Seen)
    requires Good(c, st0, hi, n) && Looks(c, s) && FromRadio(c, s) && To(s.bytes) == BCAST
    ensures Good(Broadcast(c, s.bytes, s.t), st0, hi, n)
  {
    hide Good, ApplyUnsolicited, ApplySet, ApplyReply, EntryOk;
    var e := Broadcast(c, s.bytes, s.t).log[|c.log|];
    Reported(c, s, e.f);
    Uncredited(c, st0, hi, n, e);
  }

  lemma AcknowledgeOk(c: Decoder, st0: State, hi: nat, n: nat, s: Seen)
    requires Good(c, st0, hi, n) && Looks(c, s) && FromRadio(c, s) && To(s.bytes) != BCAST && hi < |c.seen|
    requires CmdOf(s.bytes) == OK || CmdOf(s.bytes) == NG
    ensures Good(Acknowledge(c, s.bytes, s.t), st0, hi, n)
  {
    hide ApplySet, Consume, Sound, CreditsBelow, Evidence, EntryOk, InOrder, PendOk, AllLately, Acknowledges;
    var e := Acknowledge(c, s.bytes, s.t).log[|c.log|];
    var i := First(c.pend, IsAckedBy(To(s.bytes), CmdOf(s.bytes) == OK));
    if i == |c.pend| {
      Reported(c, s, e.f);
      Uncredited(c, st0, hi, n, e);
    } else {
      CreditReported(c, s, hi, i, e.f);
      AnsweredOk(c, st0, hi, n, i, e);
    }
  }

  lemma ReplyOk(c: Decoder, st0: State, hi: nat, n: nat, s: Seen)
    requires Good(c, st0, hi, n) && Looks(c, s) && FromRadio(c, s) && To(s.bytes) != BCAST && hi < |c.seen|
    requires CmdOf(s.bytes) != OK && CmdOf(s.bytes) != NG
    ensures Good(ReplyTo(c, s.bytes, s.t), st0, hi, n)
  {
    hide ApplyReply, ApplySet, ApplyUnsolicited, Consume, Sound, CreditsBelow, Evidence, EntryOk, InOrder, PendOk;
    hide AllLately, Answers;
    var e := ReplyTo(c, s.bytes, s.t).log[|c.log|];
    var i := First(c.pend, IsQueryOf(s.bytes));
    if i == |c.pend| {
      Reported(c, s, e.f);
      Uncredited(c, st0, hi, n, e);
    } else {
      CreditReported(c, s, hi, i, e.f);
      AnsweredOk(c, st0, hi, n, i, e);
    }
  }

  lemma AddedOk(c: Decoder, st0: State, s: Seen)
    requires c.seen != [] && c.seen[|c.seen| - 1] == s && Good(c, st0, |c.seen| - 1, |c.seen| - 1)
    ensures Good(c.(pend := PendAdd(c.pend, s, |c.seen| - 1, s.t)), st0, |c.seen|, |c.seen| - 1)
  {
    hide Sound, Evidence, PendOk, PendAdd;
    var id := |c.seen| - 1;
    BelowGrows(c.log, id, id + 1);
    NewIsOk(s, PastOf(c), id, s.t);
    AddOk(c.pend, s, PastOf(c), id, s.t);
    hide ListOk;
  }

  lemma Grown(c: Decoder, st0: State, lo: nat, hi: nat, n: nat)
    requires Good(c, st0, lo, n) && lo <= hi
    ensures Good(c, st0, hi, n)
  {
    hide Sound, Evidence, PendOk, InOrder;
    BelowGrows(c.log, lo, hi);
    ListBelow(c.pend, PastOf(c), lo, hi);
  }

  lemma OnBusOk(c: Decoder, st0: State, s: Seen)
    requires Looks(c, s) && s.dir == Radio && Good(c, st0, |c.seen| - 1, |c.seen| - 1)
    requires c.radio != 0 && To(s.bytes) == c.radio && From(s.bytes) != c.radio && From(s.bytes) != BCAST
    ensures Good(OnBus(c, s), st0, |c.seen|, |c.seen| - 1)
  {
    hide Sound, Evidence, PendAdd, CreditsBelow, EntryOk, InOrder, PendOk;
    var n := |c.seen|;
    var e := OnBus(c, s).log[|c.log|];
    var i := First(c.pend, IsEchoedBy(s.bytes));
    if i == |c.pend| {
      AddedOk(c, st0, s);
      Reported(c, s, e.f);
      hide AllLately, ListOk;
      Uncredited(c.(pend := PendAdd(c.pend, s, n - 1, s.t)), st0, n, n - 1, e);
    } else {
      CreditReported(c, s, n - 1, i, e.f);
      EchoOk(c, st0, n - 1, n - 1, i, e);
      Grown(OnBus(c, s), st0, n - 1, n, n - 1);
    }
  }

  lemma ForeignOk(c: Decoder, st0: State, hi: nat, n: nat, s: Seen, f: Frame)
    requires Good(c, st0, hi, n) && Looks(c, s) && Classified(Foreign, s.dir, c.radio, s.bytes)
    requires f == Frame(Foreign, s.dir, s.t, s.bytes, false, s.dir == Own, s.client)
    ensures Good(Emit(c, f, None), st0, hi, n)
  {
    hide Good, EntryOk, Classified;
    var e := Entry(f, None, |c.seen|, c.radio);
    Reported(c, s, f);
    ForeignTellsNothing(c.freqLen, c.st, e);
    Uncredited(c, st0, hi, n, e);
  }

  lemma ForeignTellsNothing(freqLen: nat, st: State, e: Entry)
    requires IsComplete(e.f.buf) && Classified(Foreign, e.f.dir, e.radio, e.f.buf)
    ensures Tell(freqLen, st, e) == st
  {
  }

  lemma ProcessRadioOk(c: Decoder, st0: State, s: Seen)
    requires Looks(c, s) && s.dir == Radio && c.radio != 0 && Good(c, st0, |c.seen| - 1, |c.seen| - 1)
    ensures Good(ProcessRadio(c, s), st0, |c.seen|, |c.seen| - 1)
  {
    hide Good, Broadcast, Acknowledge, ReplyTo, OnBus, AllLately;
    var f, n := s.bytes, |c.seen|;
    var r := ProcessRadio(c, s);
    if From(f) == c.radio && To(f) != c.radio {
      if To(f) == BCAST {
        BroadcastOk(c, st0, n - 1, n - 1, s);
      } else if CmdOf(f) == OK || CmdOf(f) == NG {
        AcknowledgeOk(c, st0, n - 1, n - 1, s);
      } else {
        ReplyOk(c, st0, n - 1, n - 1, s);
      }
      Grown(r, st0, n - 1, n, n - 1);
    } else if To(f) == c.radio && From(f) != c.radio && From(f) != BCAST {
      OnBusOk(c, st0, s);
    } else {
      ForeignOk(c, st0, n - 1, n - 1, s, RadioFrame(Foreign, s.t, f, false, false, 0));
      Grown(r, st0, n - 1, n, n - 1);
    }
  }

  lemma ClassifyOk(c: Decoder, st0: State, s: Seen)
    requires Looks(c, s) && Good(c, st0, |c.seen| - 1, |c.seen| - 1)
    ensures Good(Classify(c, s), st0, Bound(c), |c.seen| - 1)
  {
    hide Good, ProcessRadio, PendAdd, AllLately;
    if c.radio == 0 {
      ForeignOk(c, st0, |c.seen| - 1, |c.seen| - 1, s,
                Frame(Foreign, s.dir, s.t, s.bytes, false, s.dir == Own, s.client));
    } else if s.dir == Radio {
      ProcessRadioOk(c, st0, s);
    } else {
      HostFrameOk(c, st0, s);
    }
  }

  lemma HostFrameOk(c: Decoder, st0: State, s: Seen)
    requires Looks(c, s) && s.dir != Radio && c.radio != 0 && Good(c, st0, |c.seen| - 1, |c.seen| - 1)
    ensures Good(Classify(c, s), st0, |c.seen|, |c.seen| - 1)
  {
    hide Good, ProcessRadio, PendAdd, AllLately, EntryOk;
    var n := |c.seen|;
    var foreign := Frame(Foreign, s.dir, s.t, s.bytes, false, s.dir == Own, s.client);
    if To(s.bytes) == c.radio && From(s.bytes) != BCAST {
      var c1 := c.(pend := PendAdd(c.pend, s, n - 1, s.t));
      AddedOk(c, st0, s);
      Reported(c, s, foreign.(kind := Cmd));
      Uncredited(c1, st0, n, n - 1, Entry(foreign.(kind := Cmd), None, n, c.radio));
    } else {
      ForeignOk(c, st0, n - 1, n - 1, s, foreign);
      Grown(Emit(c, foreign, None), st0, n - 1, n, n - 1);
    }
  }

  lemma ClassifyKeeps(c: Decoder, s: Seen)
    requires c.seen != []
    ensures var r := Classify(c, s);
            r.radio == c.radio && r.seen == c.seen && r.rx == c.rx && r.freqLen == c.freqLen
  {
    hide First, Consume, ApplyReply, ApplySet, ApplyUnsolicited, PendAdd, Answers, Acknowledges;
  }

  lemma OrderGrows(c: Decoder, st0: State, hi: nat, n: nat, m: nat)
    requires Good(c, st0, hi, n) && n <= m
    ensures Good(c, st0, hi, m)
  {
    hide Sound, ListOk, CreditsBelow, Evidence;
  }

  lemma SameRx(c: Decoder, d: Decoder, st0: State, hi: nat, n: nat)
    requires Good(c, st0, hi, n) && d == c.(rx := d.rx, last := d.last)
    ensures Good(d, st0, hi, n)
  {
    hide Sound, ListOk, CreditsBelow, Evidence, InOrder;
  }

  lemma ProcessFrameOk(c: Decoder, st0: State, s: Seen)
    requires Inv(c, st0) && (s.dir == Radio ==> s.client == 0)
    requires s.known == (c.radio != 0) && IsComplete(s.bytes)
    ensures Inv(ProcessFrame(c, s), st0) && ProcessFrame(c, s).rx == c.rx
  {
    hide Good, Admit, Classify, AllLately, ValidRx;
    AdmitOk(c, st0, s);
    var c1 := Admit(c, s);
    ClassifyOk(c1, st0, s);
    ClassifyKeeps(c1, s);
    var c2 := Classify(c1, s);
    OrderGrows(c2, st0, Bound(c1), |c.seen|, |c2.seen|);
    SameRx(c2, ProcessFrame(c, s), st0, Bound(c1), |c2.seen|);
  }

  // ----- One byte -----

  /** Marks of an entry do not matter, nor does its time as long as it was sent then. */
  lemma SameNumbers(a: seq<Pending>, b: seq<Pending>, h: Past, hi: nat)
    requires ListOk(a, h, 0, hi) && |a| == |b|
    requires forall k | 0 <= k < |a| :: b[k] == a[k].(lost := b[k].lost, resends := b[k].resends, t := b[k].t)
    requires forall k | 0 <= k < |a| :: b[k].t == a[k].t || Sending(b[k].id, b[k].t) in h.resent
    ensures ListOk(b, h, 0, hi)
  {
    forall k | 0 <= k < |b|
      ensures PendOk(b[k], h) && b[k].id == a[k].id
    {
      assert PendOk(a[k], h) && b[k] == a[k].(lost := b[k].lost, resends := b[k].resends, t := b[k].t);
      assert forall j | 0 <= j < |h.log| :: LeavesOpen(h.log[j], a[k]) == LeavesOpen(h.log[j], b[k]);
    }
    hide PendOk;
  }

  lemma MarkLostOk(c: Decoder, st0: State, t: nat)
    requires Good(c, st0, Bound(c), |c.seen|)
    ensures Good(c.(pend := MarkLost(c.pend, t)), st0, Bound(c), |c.seen|)
  {
    hide Sound, Evidence, CreditsBelow, PendOk, InOrder;
    SameNumbers(c.pend, MarkLost(c.pend, t), PastOf(c), Bound(c));
  }

  lemma BrokenOk(c: Decoder, st0: State, f: Frame)
    requires Inv(c, st0) && (f.kind == Dropped || f.kind == Jam) && !IsComplete(f.buf)
    requires f.dir == Radio ==> f.client == 0 && !f.own
    ensures Inv(Emit(c, f, None), st0)
  {
    hide Good;
    Uncredited(c, st0, Bound(c), |c.seen|, Entry(f, None, |c.seen|, c.radio));
  }

  lemma DebrisOk(c: Decoder, st0: State, i: source, buf: seq<byte>, t: nat)
    requires Inv(c, st0) && F.Unended(buf)
    ensures Inv(Debris(c, i, buf, t), st0)
  {
    hide Inv;
    if |buf| > 2 {
      BrokenOk(c, st0, Frame(Dropped, DirOf(i), t, buf, false, i == RX_OWN, ClientOf(i)));
    }
  }

  lemma ReportOk(c: Decoder, st0: State, i: source, g: F.Got, t: nat)
    requires Inv(c, st0) && F.GotOk(g)
    ensures Inv(Report(c, i, g, t), st0) && Report(c, i, g, t).rx == c.rx
  {
    hide Good, ProcessFrame, MarkLost;
    match g {
      case Whole(bytes) => ProcessFrameOk(c, st0, Seen(DirOf(i), ClientOf(i), bytes, t, c.radio != 0));
      case Debris(buf) => DebrisOk(c, st0, i, buf, t);
      case Collision(buf) =>
        MarkLostOk(c, st0, t);
        var c1 := if i == RX_RADIO then c.(pend := MarkLost(c.pend, t)) else c;
        DebrisOk(c1, st0, i, buf, t);
        BrokenOk(Debris(c1, i, buf, t), st0, Frame(Jam, DirOf(i), t, [F.COL], false, i == RX_OWN, ClientOf(i)));
    }
  }

  // ----- Discards and resends -----

  lemma {:induction false} WithoutOk(pend: seq<Pending>, client: clientNo, h: Past, hi: nat)
    requires ListOk(pend, h, 0, hi)
    ensures var r := Filter(pend, NotOf(client));
            ListOk(r, h, 0, hi) && forall k | 0 <= k < |r| :: r[k].client != client
    decreases |pend|
  {
    hide PendOk;
    if pend != [] {
      var n := |pend| - 1;
      Parted(pend, h, 0, hi, n);
      WithoutOk(pend[..n], client, h, pend[n].id);
      assert ListOk([pend[n]], h, pend[n].id, hi);
      var kept := if pend[n].client == client then [] else [pend[n]];
      Joined(Filter(pend[..n], NotOf(client)), kept, h, 0, pend[n].id, hi);
    }
  }

  lemma CutKeeps(pend: seq<Pending>, h: Past, hi: nat, cut: Cut)
    requires ListOk(pend, h, 0, hi) && Sound(h) && cut.log == |h.log|
    requires forall k | 0 <= k < |pend| :: pend[k].client != cut.client
    ensures ListOk(pend, h.(cuts := h.cuts + [cut]), 0, hi) && Sound(h.(cuts := h.cuts + [cut]))
  {
    var r := h.(cuts := h.cuts + [cut]);
    forall k | 0 <= k < |pend|
      ensures PendOk(pend[k], r)
    {
      assert PendOk(pend[k], h);
      hide LeavesOpen, SentAt;
    }
    forall j | 0 <= j < |r.log|
      ensures EntryOk(r.log[j], r)
    {
      EntryGrows(h.log[j], h, r);
    }
    hide PendOk, EntryOk, Clash, AfterCut;
  }

  lemma DiscardOk(c: Decoder, st0: State, client: clientNo)
    requires Inv(c, st0)
    ensures Inv(Discard(c, client), st0)
  {
    hide Sound, Evidence, CreditsBelow, PendOk, Filter;
    if client != 0 {
      WithoutOk(c.pend, client, PastOf(c), Bound(c));
      hide ListOk;
      CutKeeps(Filter(c.pend, NotOf(client)), PastOf(c), Bound(c), Cut(client, |c.seen|, |c.log|, c.radio != 0));
    }
  }

  lemma {:induction false} ResendSame(pend: seq<Pending>, max: nat, t: nat)
    ensures var (b, r) := Resend(pend, max, t);
            forall k | 0 <= k < |pend| ::
              && b[k] == pend[k].(lost := b[k].lost, resends := b[k].resends, t := b[k].t)
              && (b[k].t != pend[k].t ==> r.Some? && b[k].id == r.value.id && b[k].t == t)
    decreases |pend|
  {
    if pend != [] {
      ResendSame(pend[1..], max, t);
    }
  }

  lemma ResendOk(c: Decoder, st0: State, max: nat, t: nat)
    requires Inv(c, st0)
    ensures Inv(SendAgain(c, max, t), st0)
  {
    ResendSame(c.pend, max, t);
    hide Sound, Evidence, CreditsBelow, PendOk, Resend;
    var d := SendAgain(c, max, t);
    SoundGrows(PastOf(c), PastOf(d));
    ListGrows(c.pend, PastOf(c), PastOf(d), Bound(c));
    hide ListOk;
    SameNumbers(c.pend, d.pend, PastOf(d), Bound(c));
  }

  lemma StepOk(c: Decoder, st0: State, e: Event)
    requires Inv(c, st0)
    ensures Inv(Step(c, e), st0)
  {
    hide Good, Report, Discard, SendAgain, F.Byte;
    match e {
      case ByteEvent(i, b, t) =>
        F.ByteKeeps(c.rx[i], b, t);
        var (rx, g) := F.Byte(c.rx[i], b, t);
        if g != [] {
          assert F.GotOk(g[0]);
          ReportOk(c, st0, i, g[0], t);
        }
        hide F.ValidRx;
        var c1 := if g == [] then c else Report(c, i, g[0], t);
        SameRx(c1, Step(c, e), st0, Bound(c1), |c1.seen|);
      case DiscardEvent(client) => DiscardOk(c, st0, client);
      case ResendEvent(max, t) => ResendOk(c, st0, max, t);
    }
  }

  // ----- Whole runs -----

  lemma {:induction false} RunOk(c: Decoder, st0: State, es: seq<Event>)
    requires |c.rx| == RX_NUM && Inv(c, st0)
    ensures Inv(Run(c, es), st0)
    decreases |es|
  {
    hide Inv, Step;
    if es != [] {
      StepOk(c, st0, es[0]);
      RunOk(Step(c, es[0]), st0, es[1..]);
    }
  }

  lemma CreatedOk(radio: byte, freqLen: nat, st0: State)
    ensures Inv(Create(radio, freqLen, st0), st0)
  {
  }

  /**
   * Over any run, from any sources, with expiry, eviction, address learning, collisions and
   * resends: every report of a whole frame is of a kind that its bytes allow. A radio frame
   * credited to a client fits an earlier frame of that very client (an echo byte for byte, a
   * reply by controller, command and sub command, an acknowledge by controller), and it or one
   * before it went out at most two seconds earlier. The oldest open command that fits is taken:
   * what an answer is credited to never skips an older one that is credited later. For one
   * controller and client, after an answer only commands sent later than the answered one are
   * credited, so answers come in the order of their commands, each command gets one, and no echo
   * follows it; and no command gets two echoes. A discarded client's commands are never credited
   * afterwards, but for the last frame before the discard, if the address was not known and the
   * very next frame mirrored that one and taught it.
   */
  lemma CreditIsSound(radio: byte, freqLen: nat, st0: State, es: seq<Event>)
    ensures var r := Run(Create(radio, freqLen, st0), es);
            Sound(PastOf(r)) && |r.pend| <= PEND_MAX
  {
    hide Run, Sound;
    CreatedOk(radio, freqLen, st0);
    RunOk(Create(radio, freqLen, st0), st0, es);
  }

  /** The kind of an entry is what its bytes say, from the radio with this address. */
  predicate Truthful(e: Entry, radio: byte) {
    && (e.radio == 0 || e.radio == radio)
    && (if IsComplete(e.f.buf) then
          && (e.f.kind == Unsolicited || IsAnswer(e.f.kind) ==>
              e.f.dir == Radio && radio != 0 && From(e.f.buf) == radio && To(e.f.buf) != radio)
          && (e.f.kind == Unsolicited ==> To(e.f.buf) == BCAST)
          && (e.f.kind == Ack ==> CmdOf(e.f.buf) == OK) && (e.f.kind == Nak ==> CmdOf(e.f.buf) == NG)
          && (e.credit.Some? && e.f.kind != Echo ==>
              && (CmdOf(e.f.buf) == OK ==> e.f.kind == Ack) && (CmdOf(e.f.buf) == NG ==> e.f.kind == Nak)
              && To(e.f.buf) != BCAST)
        else e.credit == None && (e.f.kind == Dropped || e.f.kind == Jam))
  }

  /**
   * Over any run: once the radio's address is known it stays, and only frames from it count as
   * broadcasts, replies, acknowledges and rejections; broadcasts go to 00, an acknowledge is FB
   * and a rejection FA.
   */
  lemma AddressStays(radio: byte, freqLen: nat, st0: State, es: seq<Event>)
    ensures var r := Run(Create(radio, freqLen, st0), es);
            (radio != 0 ==> r.radio == radio) && forall j | 0 <= j < |r.log| :: Truthful(r.log[j], r.radio)
  {
    CreatedOk(radio, freqLen, st0);
    hide Run;
    RunOk(Create(radio, freqLen, st0), st0, es);
    AddressRuns(Create(radio, freqLen, st0), es);
    var r := Run(Create(radio, freqLen, st0), es);
    forall j | 0 <= j < |r.log|
      ensures Truthful(r.log[j], r.radio)
    {
      assert EntryOk(r.log[j], PastOf(r));
      EntryIsTruthful(r.log[j], PastOf(r), r.radio);
    }
    hide Truthful, EntryOk, Clash, ListOk, Evidence, AfterCut;
  }

  lemma EntryIsTruthful(e: Entry, h: Past, radio: byte)
    requires EntryOk(e, h) && (e.radio == 0 || e.radio == radio)
    ensures Truthful(e, radio)
  {
    hide SentLately, Answers, Acknowledges;
  }

  lemma StepKeepsAddress(c: Decoder, e: Event)
    requires |c.rx| == RX_NUM && c.radio != 0
    ensures Step(c, e).radio == c.radio
  {
    hide F.Byte, PendAdd, PendExpire, Resend, MarkLost, Classify;
    if e.ByteEvent? {
      var g := F.Byte(c.rx[e.i], e.b, e.t).1;
      if g != [] && g[0].Whole? && F.IsFrame(g[0].bytes) {
        var s := Seen(DirOf(e.i), ClientOf(e.i), g[0].bytes, e.t, true);
        ClassifyKeeps(Admit(c, s), s);
      }
    }
  }

  lemma {:induction false} AddressRuns(c: Decoder, es: seq<Event>)
    requires |c.rx| == RX_NUM
    ensures c.radio != 0 ==> Run(c, es).radio == c.radio
    decreases |es|
  {
    hide Step;
    if es != [] && c.radio != 0 {
      StepKeepsAddress(c, es[0]);
      AddressRuns(Step(c, es[0]), es[1..]);
    }
  }

  /**
   * Over any run the state is what the radio told: its broadcasts to 00, its replies to pending
   * queries, and pending sets that it confirmed with FB. Nothing that hosts or mhuxd send, and no
   * other frame, changes it.
   */
  lemma StateIsEvidence(radio: byte, freqLen: nat, st0: State, es: seq<Event>)
    ensures var r := Run(Create(radio, freqLen, st0), es);
            r.st == Evidence(r.freqLen, st0, r.log)
  {
    hide Run, Sound, Evidence;
    CreatedOk(radio, freqLen, st0);
    RunOk(Create(radio, freqLen, st0), st0, es);
  }

  /** No byte of a client or of mhuxd, no discard and no resend touches the state. */
  lemma OnlyTheRadioChangesState(c: Decoder, e: Event)
    requires |c.rx| == RX_NUM && (e.ByteEvent? ==> e.i != RX_RADIO)
    ensures Step(c, e).st == c.st
  {
    hide F.Byte, PendAdd, PendExpire, Resend;
  }

  // ----- In time, and after a discard -----

  /** Time never runs backwards. */
  predicate InTime(es: seq<Event>, now: nat)
    decreases |es|
  {
    es == [] || (if es[0].ByteEvent? then now <= es[0].t && InTime(es[1..], es[0].t) else InTime(es[1..], now))
  }

  predicate InOrderOfTime(seen: seq<Seen>, now: nat) {
    && (forall i | 0 <= i < |seen| :: seen[i].t <= now)
    && (forall i, j | 0 <= i < j < |seen| :: seen[i].t <= seen[j].t)
  }

  lemma StepInTime(c: Decoder, e: Event, now: nat)
    requires |c.rx| == RX_NUM && InOrderOfTime(c.seen, now) && !e.ResendEvent? && (e.ByteEvent? ==> now <= e.t)
    ensures var r := Step(c, e);
            InOrderOfTime(r.seen, if e.ByteEvent? then e.t else now) && r.resent == c.resent
  {
    hide F.Byte, PendAdd, PendExpire, MarkLost, Classify, InOrderOfTime;
    if e.ByteEvent? {
      Later(c.seen, now, e.t);
      var g := F.Byte(c.rx[e.i], e.b, e.t).1;
      if g != [] && g[0].Whole? && F.IsFrame(g[0].bytes) {
        var s := Seen(DirOf(e.i), ClientOf(e.i), g[0].bytes, e.t, c.radio != 0);
        ClassifyKeeps(Admit(c, s), s);
        ClassifySendsNothing(Admit(c, s), s);
        OneMore(c.seen, s);
      }
    }
  }

  lemma Later(seen: seq<Seen>, now: nat, t: nat)
    requires InOrderOfTime(seen, now) && now <= t
    ensures InOrderOfTime(seen, t)
  {
  }

  lemma OneMore(seen: seq<Seen>, s: Seen)
    requires InOrderOfTime(seen, s.t)
    ensures InOrderOfTime(seen + [s], s.t)
  {
  }

  lemma ClassifySendsNothing(c: Decoder, s: Seen)
    requires c.seen != []
    ensures Classify(c, s).resent == c.resent
  {
    hide First, Consume, ApplyReply, ApplySet, ApplyUnsolicited, PendAdd, Answers, Acknowledges;
  }

  lemma {:induction false} RunInTime(c: Decoder, es: seq<Event>, now: nat)
    requires |c.rx| == RX_NUM && InOrderOfTime(c.seen, now) && InTime(es, now)
    requires forall i | 0 <= i < |es| :: !es[i].ResendEvent?
    ensures var r := Run(c, es);
            r.resent == c.resent && forall i, j | 0 <= i < j < |r.seen| :: r.seen[i].t <= r.seen[j].t
    decreases |es|
  {
    hide Step;
    if es != [] {
      StepInTime(c, es[0], now);
      hide InOrderOfTime;
      RunInTime(Step(c, es[0]), es[1..], if es[0].ByteEvent? then es[0].t else now);
    }
  }

  /**
   * While nothing is sent again: a credited command was sent at most two seconds before its echo
   * or answer, or the frame right after it, which mirrored it and taught the radio's address, was.
   */
  lemma AnswersAreTimely(radio: byte, freqLen: nat, st0: State, es: seq<Event>)
    requires InTime(es, 0) && forall i | 0 <= i < |es| :: !es[i].ResendEvent?
    ensures var r := Run(Create(radio, freqLen, st0), es);
            forall j | 0 <= j < |r.log| && r.log[j].credit.Some? ::
              var e, id := r.log[j], r.log[j].credit.value.id;
              && id + 1 < |r.seen|
              && (|| e.f.t <= r.seen[id].t + PEND_TIMEOUT_MS
                  || (TaughtNext(r.seen, id) && e.f.t <= r.seen[id + 1].t + PEND_TIMEOUT_MS))
  {
    CreatedOk(radio, freqLen, st0);
    RunInTime(Create(radio, freqLen, st0), es, 0);
    hide Run;
    RunOk(Create(radio, freqLen, st0), st0, es);
    var r := Run(Create(radio, freqLen, st0), es);
    hide ListOk, Clash, AfterCut, FrameOk;
    forall j | 0 <= j < |r.log| && r.log[j].credit.Some?
      ensures Timely(r.seen, r.log[j])
    {
      assert EntryOk(r.log[j], PastOf(r));
      CreditIsTimely(r.log[j], PastOf(r));
    }
  }

  predicate Timely(seen: seq<Seen>, e: Entry)
    requires e.credit.Some?
  {
    var id := e.credit.value.id;
    && id + 1 < |seen|
    && (|| e.f.t <= seen[id].t + PEND_TIMEOUT_MS
        || (TaughtNext(seen, id) && e.f.t <= seen[id + 1].t + PEND_TIMEOUT_MS))
  }

  lemma CreditIsTimely(e: Entry, h: Past)
    requires CreditOk(e, h) && e.credit.Some? && h.resent == []
    requires forall i, j | 0 <= i < j < |h.seen| :: h.seen[i].t <= h.seen[j].t
    ensures Timely(h.seen, e)
  {
    hide Fits;
    var id := e.credit.value.id;
    var k: nat, tk: nat :| k <= id && SentAt(h.seen, h.resent, k, tk) && tk + PEND_TIMEOUT_MS >= e.f.t;
    if k < id {
      assert h.seen[k].t <= h.seen[id].t && (k + 1 < id ==> h.seen[k + 1].t <= h.seen[id].t);
    }
  }
}
