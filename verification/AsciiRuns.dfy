/** ASCII over whole runs: whom answers are credited to, in which order, and split. */
module AsciiRuns {
  import opened Cat
  import opened CatState
  import opened CatStateVfos
  import opened AsciiTables
  import opened AsciiSplit
  import opened Ascii
  import opened SeqFacts
  import opened Sources
  import F = AsciiFramer
  import opened Wrappers

  /** A radio frame may answer the command: same prefix, or it is an error. */
  predicate Matches(f: Frame, cmd: text) {
    f.kind == Error || PrefixOf(Body(cmd)) == PrefixOf(Body(f.buf))
  }

  predicate EntryOk(e: Entry, seen: seq<Seen>) {
    match e.credit
    case None => e.f.dir == Radio ==> e.f.client == 0 && !e.f.own && e.f.kind != Reply
    case Some(c) =>
      && c.id < |seen|
      && var s := seen[c.id];
         && s.bytes == c.cmd && e.f.dir == Radio
         && e.f.own == (s.dir == Own) && e.f.client == s.client
         && (e.f.kind == Reply || e.f.kind == Bad || e.f.kind == Error)
         && Matches(e.f, c.cmd) && LiveAt(PendingOf(s, c.id), e.f.t)
         && (s.dir == Host && !IsQuery(c.cmd) && e.f.kind != Error ==> e.f.buf != c.cmd)
  }

  predicate IsCredited(e: Entry, id: nat) {
    e.credit.Some? && e.credit.value.id == id
  }

  /** b answers an older query that a, which came first, could have answered. */
  predicate Overtakes(a: Entry, b: Entry) {
    && a.credit.Some? && b.credit.Some? && IsQuery(b.credit.value.cmd) && Matches(a.f, b.credit.value.cmd)
    && b.credit.value.id < a.credit.value.id
  }

  predicate Sound(log: seq<Entry>, seen: seq<Seen>) {
    && (forall j | 0 <= j < |log| :: EntryOk(log[j], seen))
    && (forall j, k | 0 <= j < k < |log| ::
          log[j].credit.Some? && log[k].credit.Some? ==> log[j].credit.value.id != log[k].credit.value.id)
    && (forall j, k | 0 <= j < k < |log| :: !Overtakes(log[j], log[k]))
  }

  // ----- The pending list -----

  /** A query that was passed over was too old by then. */
  predicate TooOldFor(p: Pending, e: Entry) {
    e.credit.Some? && p.query && Matches(e.f, p.frame) && p.id < e.credit.value.id ==> !LiveAt(p, e.f.t)
  }

  predicate Open(p: Pending, seen: seq<Seen>, log: seq<Entry>) {
    && p.id < |seen| && p == PendingOf(seen[p.id], p.id)
    && (forall j | 0 <= j < |log| :: !IsCredited(log[j], p.id))
    && (forall j | 0 <= j < |log| :: TooOldFor(p, log[j]))
  }

  predicate ListOk(pend: seq<Pending>, seen: seq<Seen>, log: seq<Entry>) {
    && (forall i | 0 <= i < |pend| :: Open(pend[i], seen, log))
    && (forall i, j | 0 <= i < j < |pend| :: pend[i].id < pend[j].id)
  }

  predicate Before(log: seq<Entry>, now: nat) {
    forall j | 0 <= j < |log| :: log[j].f.t <= now
  }

  predicate Good(d: Decoder, now: nat) {
    Sound(d.log, d.seen) && ListOk(d.pend, d.seen, d.log) && Before(d.log, now)
  }

  predicate Inv(d: Decoder, now: nat) {
    |d.rx| == RX_NUM && Good(d, now)
  }

  lemma {:induction false} FilterOk(pend: seq<Pending>, p: Pending -> bool, seen: seq<Seen>, log: seq<Entry>)
    requires ListOk(pend, seen, log)
    ensures ListOk(Filter(pend, p), seen, log)
    ensures forall i | 0 <= i < |Filter(pend, p)| :: pend != [] && Filter(pend, p)[i].id <= pend[|pend| - 1].id
    decreases |pend|
  {
    hide Open;
    if pend != [] {
      var n := |pend| - 1;
      FilterOk(pend[..n], p, seen, log);
    }
  }

  lemma RemoveOk(pend: seq<Pending>, i: nat, seen: seq<Seen>, log: seq<Entry>)
    requires ListOk(pend, seen, log) && i < |pend|
    ensures var rest := RemoveAtIndex(pend, i);
            && ListOk(rest, seen, log)
            && forall k | 0 <= k < |rest| :: rest[k].id != pend[i].id && rest[k] == pend[if k < i then k else k + 1]
  {
    hide Open;
  }

  /** What is taken is the oldest query it can be, and is gone from the list. */
  lemma TakeOk(pend: seq<Pending>, frame: Option<text>, t: nat, seen: seq<Seen>, log: seq<Entry>)
    requires ListOk(pend, seen, log)
    ensures var (rest, p) := PendTake(pend, frame, t);
            && ListOk(rest, seen, log)
            && (p.Some? ==>
                && Open(p.value, seen, log) && MayAnswer(p.value, frame, t)
                && (frame.Some? && !p.value.own && !p.value.query ==> p.value.frame != frame.value)
                && forall k | 0 <= k < |rest| ::
                     && rest[k].id != p.value.id
                     && (rest[k].query && MayAnswer(rest[k], frame, t) ==> p.value.id < rest[k].id))
  {
    hide Open, MayAnswer;
    var i := First(pend, IsQueryFor(frame, t));
    var j := First(pend, IsFor(frame, t));
    if i < |pend| {
      RemoveOk(pend, i, seen, log);
    } else if j < |pend| {
      RemoveOk(pend, j, seen, log);
    }
  }

  lemma AddOk(pend: seq<Pending>, s: Seen, seen: seq<Seen>, log: seq<Entry>)
    requires ListOk(pend, seen, log) && Sound(log, seen)
    ensures ListOk(PendAdd(pend, s, |seen|), seen + [s], log)
  {
    hide Open, Sound, Filter, Lives, ListOk;
    var live := Filter(pend, Lives(s.t));
    FilterOk(pend, Lives(s.t), seen, log);
    ListGrows(live, s, seen, log);
    NewIsOpen(s, seen, log);
    if |live| == PEND_MAX {
      EvictOk(live, seen + [s], log);
      ListSnoc(live[1..], PendingOf(s, |seen|), seen + [s], log);
    } else {
      ListSnoc(live, PendingOf(s, |seen|), seen + [s], log);
    }
  }

  lemma ListGrows(pend: seq<Pending>, s: Seen, seen: seq<Seen>, log: seq<Entry>)
    requires ListOk(pend, seen, log)
    ensures ListOk(pend, seen + [s], log)
    ensures forall i | 0 <= i < |pend| :: pend[i].id < |seen|
  {
    forall i | 0 <= i < |pend|
      ensures Open(pend[i], seen + [s], log) && pend[i].id < |seen|
    {
      assert Open(pend[i], seen, log);
    }
    hide Open;
  }

  lemma EvictOk(pend: seq<Pending>, seen: seq<Seen>, log: seq<Entry>)
    requires ListOk(pend, seen, log) && pend != []
    ensures ListOk(pend[1..], seen, log)
    ensures forall i | 0 <= i < |pend[1..]| :: pend[1..][i] in pend
  {
    hide Open;
  }

  lemma ListSnoc(pend: seq<Pending>, p: Pending, seen: seq<Seen>, log: seq<Entry>)
    requires ListOk(pend, seen, log) && Open(p, seen, log)
    requires forall q | q in pend :: q.id < p.id
    ensures ListOk(pend + [p], seen, log)
  {
    hide Open;
  }

  lemma NewIsOpen(s: Seen, seen: seq<Seen>, log: seq<Entry>)
    requires Sound(log, seen)
    ensures Open(PendingOf(s, |seen|), seen + [s], log)
  {
    forall j | 0 <= j < |log|
      ensures !IsCredited(log[j], |seen|) && TooOldFor(PendingOf(s, |seen|), log[j])
    {
      assert EntryOk(log[j], seen);
    }
  }

  lemma SeenGrows(log: seq<Entry>, s: Seen, seen: seq<Seen>)
    requires Sound(log, seen)
    ensures Sound(log, seen + [s])
  {
    forall j | 0 <= j < |log|
      ensures EntryOk(log[j], seen + [s])
    {
      assert EntryOk(log[j], seen);
    }
    hide EntryOk, Overtakes;
  }

  // ----- One more entry -----

  lemma Uncredited(d: Decoder, now: nat, e: Entry)
    requires Good(d, now) && e.credit == None && EntryOk(e, d.seen) && e.f.t <= now
    ensures Good(d.(log := d.log + [e]), now)
  {
    hide EntryOk;
    forall i | 0 <= i < |d.pend|
      ensures Open(d.pend[i], d.seen, d.log + [e])
    {
      assert Open(d.pend[i], d.seen, d.log);
    }
    hide Open;
  }

  /** The i-th answer of the log and the next one do not cross. */
  lemma NoCrossing(a: Entry, e: Entry, p: Pending, t: nat)
    requires e.credit == Some(Credit(p.id, p.frame)) && e.f.t == t && a.f.t <= t && LiveAt(p, t)
    requires TooOldFor(p, a) && p.query == IsQuery(p.frame)
    ensures !Overtakes(a, e)
  {
  }

  /** The command p, just taken from the list, is credited with e. */
  lemma CreditedOk(d: Decoder, now: nat, p: Pending, e: Entry, frame: Option<text>)
    requires Good(d, now) && Open(p, d.seen, d.log) && EntryOk(e, d.seen)
    requires e.credit == Some(Credit(p.id, p.frame)) && e.f.t == now && MayAnswer(p, frame, now)
    requires forall k | 0 <= k < |d.pend| ::
      && d.pend[k].id != p.id
      && (d.pend[k].query && MayAnswer(d.pend[k], frame, now) ==> p.id < d.pend[k].id)
    requires frame == if e.f.kind == Error then None else Some(e.f.buf)
    ensures Good(d.(log := d.log + [e]), now)
  {
    forall j | 0 <= j < |d.log|
      ensures !Overtakes(d.log[j], e) && !IsCredited(d.log[j], p.id)
    {
      NoCrossing(d.log[j], e, p, now);
    }
    forall i | 0 <= i < |d.pend|
      ensures Open(d.pend[i], d.seen, d.log + [e])
    {
      assert Open(d.pend[i], d.seen, d.log);
      assert TooOldFor(d.pend[i], e);
    }
    hide Open, Overtakes, EntryOk, MayAnswer;
  }

  lemma TakenOk(d: Decoder, now: nat, kind: Kind, bytes: text, applied: bool, frame: Option<text>)
    requires Good(d, now)
    requires frame == if kind == Error then None else Some(bytes)
    requires kind == Bad || kind == Error ||
             kind == (if PendTake(d.pend, frame, now).1.Some? then Reply else Unsolicited)
    ensures var (rest, p) := PendTake(d.pend, frame, now);
            Good(d.(pend := rest, log := d.log + [Credited(kind, now, bytes, applied, p)]), now)
  {
    TakeOk(d.pend, frame, now, d.seen, d.log);
    hide PendTake, ListOk, Sound, PrefixOf;
    var (rest, p) := PendTake(d.pend, frame, now);
    var e := Credited(kind, now, bytes, applied, p);
    if p.Some? {
      CreditedOk(d.(pend := rest), now, p.value, e, frame);
    } else {
      Uncredited(d.(pend := rest), now, e);
    }
  }

  // ----- Frames -----

  lemma RadioFrameOk(d: Decoder, now: nat, bytes: text)
    requires Good(d, now)
    ensures Good(RadioFrame(d, bytes, now), now)
  {
    hide Good, PendTake, ApplyFrame, Settled;
    var s, v0 := Body(bytes), Settled(d.v, now);
    if IsError(s) {
      TakenOk(d, now, Error, bytes, false, None);
      var r := RadioFrame(d, bytes, now);
      SameHistory(d.(pend := PendTake(d.pend, None, now).0, log := r.log), r, now);
    } else {
      var (v, r) := ApplyFrame(d.cfg, v0, s, false, now);
      if s == [] {
        Uncredited(d, now, Credited(if r == Invalid then Bad else Unsolicited, now, bytes, r == Updated, None));
        SameHistory(d.(log := RadioFrame(d, bytes, now).log), RadioFrame(d, bytes, now), now);
      } else {
        var (pend, p) := PendTake(d.pend, Some(bytes), now);
        var kind := if r == Invalid then Bad else if p.Some? then Reply else Unsolicited;
        TakenOk(d, now, kind, bytes, r == Updated, Some(bytes));
        SameHistory(d.(pend := pend, log := RadioFrame(d, bytes, now).log), RadioFrame(d, bytes, now), now);
      }
    }
  }

  lemma SameHistory(c: Decoder, d: Decoder, now: nat)
    requires Good(c, now) && d.pend == c.pend && d.seen == c.seen && d.log == c.log
    ensures Good(d, now)
  {
    hide Sound, ListOk, Before;
  }

  lemma HostFrameOk(d: Decoder, now: nat, s: Seen)
    requires Good(d, now) && s.t == now && s.dir != Radio
    ensures Good(HostFrame(d, s), now)
  {
    hide PendAdd, ApplyFrame, Settled, ListOk, Sound;
    var d1 := d;
    if Body(s.bytes) != [] {
      AddOk(d.pend, s, d.seen, d.log);
      SeenGrows(d.log, s, d.seen);
      d1 := d.(pend := PendAdd(d.pend, s, |d.seen|), seen := d.seen + [s]);
    }
    var r := HostFrame(d, s);
    Uncredited(d1, now, r.log[|d.log|]);
    SameHistory(d1.(log := r.log), r, now);
  }

  lemma ReportOk(d: Decoder, now: nat, i: source, g: F.Got)
    requires Inv(d, now)
    ensures Inv(Report(d, i, g, now), now) && Report(d, i, g, now).rx == d.rx
  {
    hide Good, RadioFrame, HostFrame;
    match g {
      case Whole(bytes) =>
        if i == RX_RADIO {
          RadioFrameOk(d, now, bytes);
          RxStays(d, Seen(Radio, 0, bytes, now));
        } else {
          HostFrameOk(d, now, Seen(DirOf(i), ClientOf(i), bytes, now));
          RxStays(d, Seen(DirOf(i), ClientOf(i), bytes, now));
        }
      case Broken(bytes) =>
        BrokenOk(d, now, i, bytes);
    }
  }

  lemma RxStays(d: Decoder, s: Seen)
    ensures RadioFrame(d, s.bytes, s.t).rx == d.rx && HostFrame(d, s).rx == d.rx
  {
    hide PendAdd, PendTake, ApplyFrame, Settled;
  }

  lemma BrokenOk(d: Decoder, now: nat, i: source, bytes: text)
    requires Good(d, now)
    ensures Good(Report(d, i, F.Broken(bytes), now), now)
  {
    hide Sound, ListOk;
    Uncredited(d, now, Report(d, i, F.Broken(bytes), now).log[|d.log|]);
  }

  lemma Later(d: Decoder, now: nat, t: nat)
    requires Inv(d, now) && now <= t
    ensures Inv(d, t)
  {
    hide Sound, ListOk;
  }

  function Now(e: Event, now: nat): nat {
    if e.ByteEvent? then e.t else now
  }

  lemma StepOk(d: Decoder, now: nat, e: Event)
    requires Inv(d, now) && (e.ByteEvent? ==> now <= e.t)
    ensures Inv(Step(d, e), Now(e, now))
  {
    hide Report, F.Byte;
    match e {
      case ByteEvent(i, b, t) =>
        Later(d, now, t);
        var (buf, g) := F.Byte(d.rx[i].buf, b);
        if g != [] {
          ReportOk(d, t, i, g[0]);
        }
        hide Good;
        var d1 := if g == [] then d else Report(d, i, g[0], t);
        SameGood(d1, d1.(rx := d.rx[i := Rx(buf, t)]), t);
      case DiscardEvent(client) =>
        FilterOk(d.pend, NotOf(client), d.seen, d.log);
        hide Sound, ListOk;
    }
  }

  lemma SameGood(c: Decoder, d: Decoder, now: nat)
    requires Inv(c, now) && d.pend == c.pend && d.seen == c.seen && d.log == c.log && d.v == c.v && |d.rx| == |c.rx|
    ensures Inv(d, now)
  {
    hide Sound, ListOk;
  }

  /** The time of the last byte. */
  function End(es: seq<Event>, now: nat): nat
    decreases |es|
  {
    if es == [] then now else End(es[1..], Now(es[0], now))
  }

  lemma {:induction false} RunOk(d: Decoder, now: nat, es: seq<Event>)
    requires Inv(d, now) && InTime(es, now)
    ensures Inv(Run(d, es), End(es, now))
    decreases |es|
  {
    assert |d.rx| == RX_NUM;
    hide Inv, Step;
    if es != [] {
      StepOk(d, now, es[0]);
      RunOk(Step(d, es[0]), Now(es[0], now), es[1..]);
    }
  }

  lemma CreatedOk(cfg: Cfg, st: State)
    ensures Inv(Create(cfg, st), 0)
  {
  }

  /**
   * Over any run, with expiry, eviction and discarded clients: each radio frame that is credited
   * answers a command of that very client, with its prefix and still in time; no command is
   * answered twice, a set repeated by the radio answers nothing, and of two queries that the
   * same frame could answer the older one is answered first.
   */
  lemma CreditIsSound(cfg: Cfg, st: State, es: seq<Event>)
    requires InTime(es, 0)
    ensures var r := Run(Create(cfg, st), es);
            Sound(r.log, r.seen)
  {
    hide Run, Sound;
    CreatedOk(cfg, st);
    RunOk(Create(cfg, st), 0, es);
  }

  // ----- Split -----

  /** The radio frame g tears split from the transmitting VFO. */
  predicate TearsNow(d: Decoder, i: source, g: F.Got, t: nat) {
    i == RX_RADIO && g.Whole? && Tears(d.cfg, Settled(d.v, t), Body(g.bytes))
  }

  /** The event completes such a frame. */
  predicate TearsAt(d: Decoder, e: Event)
    requires |d.rx| == RX_NUM
  {
    && e.ByteEvent?
    && var g := F.Byte(d.rx[e.i].buf, e.b).1;
       g != [] && TearsNow(d, e.i, g[0], e.t)
  }

  predicate NeverTorn(d: Decoder, es: seq<Event>)
    requires |d.rx| == RX_NUM
    decreases |es|
  {
    es == [] || (!TearsAt(d, es[0]) && NeverTorn(Step(d, es[0]), es[1..]))
  }

  /** Split fits the transmitting VFO before, during and after the run. */
  predicate AlwaysKnown(d: Decoder, es: seq<Event>)
    requires |d.rx| == RX_NUM
    decreases |es|
  {
    SplitKnown(d.v) && (es == [] || AlwaysKnown(Step(d, es[0]), es[1..]))
  }

  lemma SettledKeeps(v: Tracked, t: nat)
    requires SplitKnown(v)
    ensures SplitKnown(Settled(v, t)) && Settled(v, t).st.ab.valid
  {
  }

  lemma TooShort(cfg: Cfg, v: Tracked, s: text, t: nat)
    requires |s| < 2
    ensures ApplyFrame(cfg, v, s, false, t).0 == v && !Tears(cfg, v, s)
  {
  }

  lemma ReportKeepsSplit(d: Decoder, i: source, g: F.Got, t: nat)
    requires SplitKnown(d.v)
    ensures SplitKnown(Report(d, i, g, t).v) <==> !TearsNow(d, i, g, t)
    ensures TearsNow(d, i, g, t) ==> Report(d, i, g, t).log == d.log + [Report(d, i, g, t).log[|d.log|]]
                                     && Report(d, i, g, t).log[|d.log|].f.kind == Bad
  {
    hide PendAdd, PendTake, ApplyFrame, Settled, SplitKnown, Tears;
    if g.Whole? {
      var s := Body(g.bytes);
      SettledKeeps(d.v, t);
      FramesKeepSplit(d.cfg, Settled(d.v, t), s, i != RX_RADIO, t);
      if |s| < 2 {
        TooShort(d.cfg, Settled(d.v, t), s, t);
      }
    }
  }

  lemma StepKeepsSplit(d: Decoder, e: Event)
    requires |d.rx| == RX_NUM && SplitKnown(d.v)
    ensures SplitKnown(Step(d, e).v) <==> !TearsAt(d, e)
  {
    hide Report, F.Byte, SplitKnown, TearsNow;
    if e.ByteEvent? {
      var g := F.Byte(d.rx[e.i].buf, e.b).1;
      if g != [] {
        ReportKeepsSplit(d, e.i, g[0], e.t);
      }
    }
  }

  lemma {:induction false} SplitRuns(d: Decoder, es: seq<Event>)
    requires |d.rx| == RX_NUM && SplitKnown(d.v)
    ensures AlwaysKnown(d, es) <==> NeverTorn(d, es)
    ensures NeverTorn(d, es) ==> SplitKnown(Run(d, es).v)
    decreases |es|
  {
    hide Step, SplitKnown, TearsAt;
    if es != [] {
      StepKeepsSplit(d, es[0]);
      if SplitKnown(Step(d, es[0]).v) {
        SplitRuns(Step(d, es[0]), es[1..]);
      } else {
        NotKnown(Step(d, es[0]), es[1..]);
      }
    }
  }

  lemma NotKnown(d: Decoder, es: seq<Event>)
    requires |d.rx| == RX_NUM && !SplitKnown(d.v)
    ensures !AlwaysKnown(d, es)
  {
  }

  /**
   * Split fits the transmitting VFO all along a run if and only if no frame of the radio tears
   * them apart; and then, once the transmitting VFO is known, the transmit frequency is what
   * that VFO holds. Other bad frames do no harm.
   */
  lemma TxFreqIsTheTxVfos(cfg: Cfg, st: State, es: seq<Event>)
    ensures AlwaysKnown(Create(cfg, st), es) <==> NeverTorn(Create(cfg, st), es)
    ensures var r := Run(Create(cfg, st), es);
            NeverTorn(Create(cfg, st), es) && r.v.tx.Some? ==>
              SplitTells(r.v.st, r.v.tx.value) && TxFreq(r.v.st) == FreqOf(Contents(Abstract(r.v.st), r.v.tx.value))
  {
    SplitRuns(Create(cfg, st), es);
    hide Run, NeverTorn, AlwaysKnown;
    var r := Run(Create(cfg, st), es);
    if NeverTorn(Create(cfg, st), es) && r.v.tx.Some? {
      CatStateVfos.TxFreqIsTheTxVfos(r.v.st, r.v.tx.value);
    }
  }

  // ----- Every source on its own -----

  function SourceOf(f: Frame): source {
    if f.dir == Radio then RX_RADIO else if f.dir == Own || f.client == 0 then RX_OWN else f.client - 1
  }

  /** What came out of one source. */
  function FramesFrom(log: seq<Entry>, i: source): seq<text>
    decreases |log|
  {
    if log == [] then []
    else
      FramesFrom(log[..|log| - 1], i) + if SourceOf(log[|log| - 1].f) == i then [log[|log| - 1].f.buf] else []
  }

  function Texts(gs: seq<F.Got>): seq<text> {
    if gs == [] then [] else [gs[0].bytes] + Texts(gs[1..])
  }

  /** What went into one source. */
  function Input(es: seq<Event>, i: source): text
    decreases |es|
  {
    if es == [] then []
    else (if es[0].ByteEvent? && es[0].i == i then [es[0].b] else []) + Input(es[1..], i)
  }

  predicate KeepsClient(es: seq<Event>, i: source) {
    forall k | 0 <= k < |es| :: es[k].DiscardEvent? ==> es[k].client == 0 || es[k].client != ClientOf(i)
  }

  lemma {:induction false} TextsConcat(a: seq<F.Got>, b: seq<F.Got>)
    ensures Texts(a + b) == Texts(a) + Texts(b)
    decreases |a|
  {
    if a == [] {
      assert a + b == b;
    } else {
      assert (a + b)[1..] == a[1..] + b;
      TextsConcat(a[1..], b);
    }
  }

  lemma ReportIsFromItsSource(d: Decoder, i: source, g: F.Got, t: nat)
    ensures var r := Report(d, i, g, t);
            |r.log| == |d.log| + 1 && r.log[..|d.log|] == d.log
            && SourceOf(r.log[|d.log|].f) == i && r.log[|d.log|].f.buf == g.bytes
  {
    hide PendAdd, PendTake, ApplyFrame, Settled;
  }

  lemma ByteIsFramed(d: Decoder, i: source, j: source, b: byte, t: nat)
    requires |d.rx| == RX_NUM
    ensures var r := RxByte(d, j, b, t);
            var (buf, g) := F.Byte(d.rx[i].buf, b);
            if i == j then r.rx[i].buf == buf && FramesFrom(r.log, i) == FramesFrom(d.log, i) + Texts(g)
            else r.rx[i] == d.rx[i] && FramesFrom(r.log, i) == FramesFrom(d.log, i)
  {
    hide Report, F.Byte, FramesFrom;
    var g := F.Byte(d.rx[j].buf, b).1;
    AtMostOne(d.rx[j].buf, b);
    if g != [] {
      ReportIsFromItsSource(d, j, g[0], t);
      FramesSnoc(d.log, Report(d, j, g[0], t).log, i);
      assert g[1..] == [] && Texts(g) == [g[0].bytes] + [];
    }
  }

  lemma AtMostOne(buf: text, b: byte)
    ensures |F.Byte(buf, b).1| <= 1
  {
  }

  lemma FramesSnoc(log: seq<Entry>, more: seq<Entry>, i: source)
    requires |more| == |log| + 1 && more[..|log|] == log
    ensures var f := more[|log|].f;
            FramesFrom(more, i) == FramesFrom(log, i) + if SourceOf(f) == i then [f.buf] else []
  {
  }

  lemma {:induction false} FramedFrom(d: Decoder, es: seq<Event>, i: source)
    requires |d.rx| == RX_NUM && KeepsClient(es, i)
    ensures var r := Run(d, es);
            var (buf, gs) := F.Bytes(d.rx[i].buf, Input(es, i));
            r.rx[i].buf == buf && FramesFrom(r.log, i) == FramesFrom(d.log, i) + Texts(gs)
    decreases |es|
  {
    hide RxByte, F.Byte, F.Bytes, FramesFrom, Texts;
    NoBytes(d.rx[i].buf);
    if es != [] {
      var d1 := Step(d, es[0]);
      FramedFrom(d1, es[1..], i);
      var rest := Input(es[1..], i);
      match es[0] {
        case ByteEvent(j, b, t) =>
          ByteIsFramed(d, i, j, b, t);
          if i == j {
            BytesCons(d.rx[i].buf, b, rest);
            TextsConcat(F.Byte(d.rx[i].buf, b).1, F.Bytes(d1.rx[i].buf, rest).1);
            Assoc(FramesFrom(d.log, i), Texts(F.Byte(d.rx[i].buf, b).1), Texts(F.Bytes(d1.rx[i].buf, rest).1));
          } else {
            assert [] + rest == rest;
          }
        case DiscardEvent(client) =>
          assert [] + rest == rest;
      }
    }
  }

  lemma NoBytes(buf: text)
    ensures F.Bytes(buf, []) == (buf, []) && Texts([]) == []
  {
  }

  lemma BytesCons(buf: text, b: byte, rest: text)
    ensures var (b1, g1) := F.Byte(buf, b);
            var (b2, g2) := F.Bytes(b1, rest);
            F.Bytes(buf, [b] + rest) == (b2, g1 + g2)
  {
    assert ([b] + rest)[1..] == rest;
  }

  /**
   * Over any run each source is framed as if it were alone: as long as the client is not
   * discarded, what comes out of it is what the framer makes of its bytes, and the rest of them
   * is its partial frame. So AsciiFramer's conservation and replay hold for every source.
   */
  lemma EverySourceIsFramed(cfg: Cfg, st: State, es: seq<Event>, i: source)
    requires KeepsClient(es, i)
    ensures var r := Run(Create(cfg, st), es);
            var (buf, gs) := F.Bytes([], Input(es, i));
            && r.rx[i].buf == buf && |buf| < F.MAX_FRAME && FramesFrom(r.log, i) == Texts(gs)
            && F.Bytes([], F.Flat(gs)) == ([], gs) && F.Flat(gs) + buf == F.Kept([], Input(es, i))
  {
    hide Run, Input, F.Bytes, F.Flat, F.Kept, KeepsClient;
    FramedFrom(Create(cfg, st), es, i);
    F.FramesReplay([], Input(es, i));
    F.BytesAreConserved([], Input(es, i));
  }

  // ----- The line arbiter -----

  /** A client that lets its turn run out is not busy once its commands are discarded. */
  lemma DiscardEndsBusy(d: Decoder, client: clientNo, t: nat)
    requires |d.rx| == RX_NUM
    ensures !ClientBusy(Discard(d, client), client, t)
    ensures forall c: clientNo | c != client :: ClientBusy(Discard(d, client), c, t) == ClientBusy(d, c, t)
  {
    if client != 0 {
      forall p {
        FilterHas(d.pend, NotOf(client), p);
      }
      forall c: clientNo | c != client
        ensures ClientBusy(Discard(d, client), c, t) == ClientBusy(d, c, t)
      {
        var pend := Discard(d, client).pend;
        var i, j := First(d.pend, OfClient(c, t)), First(pend, OfClient(c, t));
        if i < |d.pend| {
          assert d.pend[i] in pend;
        }
        if j < |pend| {
          assert pend[j] in d.pend;
        }
      }
    }
  }

  /** Without new bytes no client stays busy longer than two seconds after its last byte and command. */
  lemma BusyEnds(d: Decoder, client: clientNo, last: nat, t: nat)
    requires |d.rx| == RX_NUM && t > last + PEND_TIMEOUT_MS
    requires client != 0 ==> d.rx[client - 1].t <= last
    requires forall k | 0 <= k < |d.pend| :: d.pend[k].t <= last
    ensures !ClientBusy(d, client, t)
  {
    assert forall k | 0 <= k < |d.pend| :: !LiveAt(d.pend[k], t);
  }
}
