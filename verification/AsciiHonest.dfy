/** ASCII: a radio that answers all queries in order has each answer credited to its query. */
module AsciiHonest {
  import opened Cat
  import opened CatState
  import opened AsciiTables
  import opened Ascii
  import opened SeqFacts
  import opened Sources
  import F = AsciiFramer
  import opened Wrappers

  // ----- Lists -----

  lemma {:induction false} FilterConcat<T>(a: seq<T>, b: seq<T>, p: T -> bool)
    ensures Filter(a + b, p) == Filter(a, p) + Filter(b, p)
    decreases |b|
  {
    if b == [] {
      assert a + b == a;
    } else {
      assert (a + b)[..|a + b| - 1] == a + b[..|b| - 1];
      FilterConcat(a, b[..|b| - 1], p);
    }
  }

  lemma {:induction false} FilterNone<T>(s: seq<T>, p: T -> bool)
    requires forall i | 0 <= i < |s| :: !p(s[i])
    ensures Filter(s, p) == []
    decreases |s|
  {
    if s != [] {
      FilterNone(s[..|s| - 1], p);
    }
  }

  lemma FilterOne<T>(x: T, p: T -> bool)
    ensures Filter([x], p) == if p(x) then [x] else []
  {
    assert [x][..0] == [];
  }

  /** A filter that keeps all that another one keeps does not matter to it. */
  lemma {:induction false} FilterTwice<T>(s: seq<T>, p: T -> bool, q: T -> bool)
    requires forall i | 0 <= i < |s| :: q(s[i]) ==> p(s[i])
    ensures Filter(Filter(s, p), q) == Filter(s, q)
    decreases |s|
  {
    if s != [] {
      var n := |s| - 1;
      FilterTwice(s[..n], p, q);
      FilterConcat(Filter(s[..n], p), if p(s[n]) then [s[n]] else [], q);
      FilterOne(s[n], q);
      assert Filter([], q) == [];
    }
  }

  lemma FilterWithout<T>(s: seq<T>, i: nat, p: T -> bool)
    requires i < |s|
    ensures Filter(s, p) == Filter(s[..i], p) + (if p(s[i]) then [s[i]] else []) + Filter(s[i + 1..], p)
    ensures Filter(s[..i] + s[i + 1..], p) == Filter(s[..i], p) + Filter(s[i + 1..], p)
  {
    hide Filter;
    assert s == s[..i] + s[i..];
    SplitAt(s, i);
    FilterConcat(s[..i], s[i..], p);
    FilterConcat([s[i]], s[i + 1..], p);
    FilterOne(s[i], p);
    FilterConcat(s[..i], s[i + 1..], p);
    Assoc(Filter(s[..i], p), if p(s[i]) then [s[i]] else [], Filter(s[i + 1..], p));
  }

  // ----- What the radio was asked, and what it answered -----

  function AsksRadio(): Pending -> bool {
    (p: Pending) => p.query
  }

  /** The queries that wait for their answers. */
  function Open(d: Decoder): seq<Pending> {
    Filter(d.pend, AsksRadio())
  }

  /** A query was sent: its number and its frame. */
  datatype Query = Query(id: nat, s: Seen)

  /** All queries so far, and how many of them the radio answered. */
  datatype World = World(queries: seq<Query>, done: nat)

  function NewPend(d: Decoder, t: nat): seq<Pending> {
    Filter(d.pend, Lives(t))
  }

  predicate OpenInTime(d: Decoder, t: nat) {
    forall i | 0 <= i < |d.pend| :: d.pend[i].query ==> LiveAt(d.pend[i], t)
  }

  /** The command finds room without pushing a query out. */
  predicate HasRoom(d: Decoder, t: nat) {
    |NewPend(d, t)| < PEND_MAX || !NewPend(d, t)[0].query
  }

  /** The radio frame answers the oldest open query. */
  predicate IsNextAnswer(d: Decoder, bytes: text) {
    Open(d) != [] && Body(bytes) != [] && (IsError(Body(bytes)) || PrefixOf(Body(bytes)) == Open(d)[0].prefix)
  }

  /** It answers no open query: auto information about something else, or the refusal of a set. */
  predicate IsNoAnswer(d: Decoder, bytes: text) {
    Body(bytes) == [] ||
    forall i | 0 <= i < |Open(d)| :: !IsError(Body(bytes)) && Open(d)[i].prefix != PrefixOf(Body(bytes))
  }

  /** No query expires, is pushed out or discarded, and the radio answers the oldest one, if any. */
  predicate Undisturbed(d: Decoder, e: Event)
    requires |d.rx| == RX_NUM
  {
    match e
    case ByteEvent(i, b, t) =>
      var g := F.Byte(d.rx[i].buf, b).1;
      g != [] && g[0].Whole? ==>
        && OpenInTime(d, t)
        && (if i == RX_RADIO then IsNextAnswer(d, g[0].bytes) || IsNoAnswer(d, g[0].bytes)
            else Body(g[0].bytes) != [] ==> HasRoom(d, t))
    case DiscardEvent(client) => forall i | 0 <= i < |d.pend| :: d.pend[i].query ==> d.pend[i].client != client
  }

  function Meets(w: World, d: Decoder, e: Event): World
    requires |d.rx| == RX_NUM
  {
    match e
    case DiscardEvent(_) => w
    case ByteEvent(i, b, t) =>
      var g := F.Byte(d.rx[i].buf, b).1;
      if g == [] || !g[0].Whole? then w
      else if i == RX_RADIO then if IsNextAnswer(d, g[0].bytes) then w.(done := w.done + 1) else w
      else
        var s := Seen(DirOf(i), ClientOf(i), g[0].bytes, t);
        if Body(s.bytes) != [] && IsQuery(s.bytes) then w.(queries := w.queries + [Query(|d.seen|, s)]) else w
  }

  predicate Honest(d: Decoder, es: seq<Event>)
    requires |d.rx| == RX_NUM
    decreases |es|
  {
    es == [] || (Undisturbed(d, es[0]) && Honest(Step(d, es[0]), es[1..]))
  }

  function RunWorld(w: World, d: Decoder, es: seq<Event>): World
    requires |d.rx| == RX_NUM
    decreases |es|
  {
    if es == [] then w else RunWorld(Meets(w, d, es[0]), Step(d, es[0]), es[1..])
  }

  // ----- Credits -----

  /** A radio frame that was credited to a query. */
  datatype Answer = Answer(credit: Credit, client: clientNo, own: bool)

  predicate AnswersQuery(e: Entry) {
    e.credit.Some? && IsQuery(e.credit.value.cmd)
  }

  function AnswersIn(log: seq<Entry>): seq<Answer> {
    if log == [] then []
    else
      var e := log[|log| - 1];
      AnswersIn(log[..|log| - 1]) + if AnswersQuery(e) then [Answer(e.credit.value, e.f.client, e.f.own)] else []
  }

  function AnswerFor(q: Query): Answer {
    Answer(Credit(q.id, q.s.bytes), q.s.client, q.s.dir == Own)
  }

  function AnswersFor(qs: seq<Query>): (r: seq<Answer>)
    ensures |r| == |qs|
    ensures forall i | 0 <= i < |qs| :: r[i] == AnswerFor(qs[i])
  {
    seq(|qs|, i requires 0 <= i < |qs| => AnswerFor(qs[i]))
  }

  lemma OneMoreEntry(log: seq<Entry>, e: Entry)
    ensures AnswersIn(log + [e])
         == AnswersIn(log) + if AnswersQuery(e) then [Answer(e.credit.value, e.f.client, e.f.own)] else []
  {
    assert (log + [e])[..|log|] == log;
  }

  // ----- The decoder follows -----

  predicate SameQueries(open: seq<Pending>, qs: seq<Query>) {
    |open| == |qs| && forall i | 0 <= i < |qs| :: open[i] == PendingOf(qs[i].s, qs[i].id)
  }

  predicate WellFormed(pend: seq<Pending>) {
    forall i | 0 <= i < |pend| :: pend[i].query == IsQuery(pend[i].frame)
  }

  predicate Tracks(d: Decoder, w: World) {
    && w.done <= |w.queries| && SameQueries(Open(d), w.queries[w.done..]) && WellFormed(d.pend)
    && AnswersIn(d.log) == AnswersFor(w.queries[..w.done])
  }

  /** The first query that is open is the first one that an answer to it can be taken for. */
  lemma OldestIsTaken(d: Decoder, frame: Option<text>, t: nat)
    requires Open(d) != [] && OpenInTime(d, t) && (frame.Some? ==> Open(d)[0].prefix == PrefixOf(Body(frame.value)))
    ensures var (pend, p) := PendTake(d.pend, frame, t);
            p == Some(Open(d)[0]) && Filter(pend, AsksRadio()) == Open(d)[1..]
            && forall i | 0 <= i < |pend| :: pend[i] in d.pend
  {
    hide Filter, First;
    var k := FirstOpen(d);
    assert IsQueryFor(frame, t)(d.pend[k]);
    var i := First(d.pend, IsQueryFor(frame, t));
    FirstUpTo(d.pend, IsQueryFor(frame, t), k);
    assert d.pend[i].query;
  }

  lemma FirstOpen(d: Decoder) returns (k: nat)
    requires Open(d) != []
    ensures k < |d.pend| && d.pend[k].query && d.pend[k] == Open(d)[0]
    ensures forall m | 0 <= m < k :: !d.pend[m].query
    ensures Filter(RemoveAtIndex(d.pend, k), AsksRadio()) == Open(d)[1..]
  {
    hide Filter, First;
    k := First(d.pend, AsksRadio());
    assert forall m | 0 <= m < k :: !AsksRadio()(d.pend[m]);
    if k == |d.pend| {
      FilterNone(d.pend, AsksRadio());
    }
    FilterWithout(d.pend, k, AsksRadio());
    FilterNone(d.pend[..k], AsksRadio());
    assert AsksRadio()(d.pend[k]);
  }

  /** A frame that no open query can be answered by takes none. */
  lemma NoQueryIsTaken(d: Decoder, frame: Option<text>, t: nat)
    requires forall i | 0 <= i < |Open(d)| :: frame.Some? && Open(d)[i].prefix != PrefixOf(Body(frame.value))
    ensures var (pend, p) := PendTake(d.pend, frame, t);
            && Filter(pend, AsksRadio()) == Open(d) && (p.Some? ==> !p.value.query && p.value in d.pend)
            && forall i | 0 <= i < |pend| :: pend[i] in d.pend
  {
    hide Filter, First;
    var i, j := First(d.pend, IsQueryFor(frame, t)), First(d.pend, IsFor(frame, t));
    forall k | 0 <= k < |d.pend|
      ensures !IsQueryFor(frame, t)(d.pend[k])
    {
      FilterHas(d.pend, AsksRadio(), d.pend[k]);
      if d.pend[k].query {
        var m :| 0 <= m < |Open(d)| && Open(d)[m] == d.pend[k];
      }
    }
    if j < |d.pend| {
      FilterWithout(d.pend, j, AsksRadio());
      assert !IsQueryFor(frame, t)(d.pend[j]) && IsFor(frame, t)(d.pend[j]);
    }
  }

  // ----- One frame -----

  lemma TakenAreOld(pend: seq<Pending>, rest: seq<Pending>)
    requires WellFormed(pend) && forall i | 0 <= i < |rest| :: rest[i] in pend
    ensures WellFormed(rest)
  {
  }

  /** The entry of a radio frame, and what is pending after it. */
  lemma RadioFrameIs(d: Decoder, bytes: text, t: nat)
    ensures var r, s := RadioFrame(d, bytes, t), Body(bytes);
            var (pend, p) := if IsError(s) then PendTake(d.pend, None, t)
                             else if s == [] then (d.pend, None) else PendTake(d.pend, Some(bytes), t);
            && r.pend == pend && r.seen == d.seen && |r.log| == |d.log| + 1 && r.log[..|d.log|] == d.log
            && var e := r.log[|d.log|];
               && (p.Some? ==> e.credit == Some(Credit(p.value.id, p.value.frame))
                               && e.f.own == p.value.own && e.f.client == p.value.client)
               && (p.None? ==> e.credit == None)
  {
    hide PendTake, ApplyFrame, IsError;
  }

  lemma HeadIsQuery(d: Decoder)
    requires Open(d) != []
    ensures Open(d)[0].query
  {
    var k := FirstOpen(d);
    hide Filter;
  }

  lemma AnswerTracks(d: Decoder, w: World, bytes: text, t: nat)
    requires Tracks(d, w) && OpenInTime(d, t) && IsNextAnswer(d, bytes)
    ensures Tracks(RadioFrame(d, bytes, t), w.(done := w.done + 1))
  {
    hide Filter, PendTake, RadioFrame, AnswersFor, AnswersIn, IsError, OpenInTime, IsQuery, PrefixOf;
    var r, q := RadioFrame(d, bytes, t), w.queries[w.done];
    RadioFrameIs(d, bytes, t);
    var frame := if IsError(Body(bytes)) then None else Some(bytes);
    OldestIsTaken(d, frame, t);
    HeadIsQuery(d);
    TakenAreOld(d.pend, r.pend);
    assert w.queries[w.done..][1..] == w.queries[w.done + 1..];
    SplitAt(w.queries, w.done);
    assert AnswersFor(w.queries[..w.done + 1]) == AnswersFor(w.queries[..w.done]) + [AnswerFor(q)];
    assert r.log == d.log + [r.log[|d.log|]];
    OneMoreEntry(d.log, r.log[|d.log|]);
  }

  lemma SetIsNoQuery(pend: seq<Pending>, p: Pending)
    requires WellFormed(pend) && p in pend && !p.query
    ensures !IsQuery(p.frame)
  {
    hide IsQuery;
  }

  lemma NoAnswerTracks(d: Decoder, w: World, bytes: text, t: nat)
    requires Tracks(d, w) && IsNoAnswer(d, bytes)
    ensures Tracks(RadioFrame(d, bytes, t), w)
  {
    hide Filter, PendTake, RadioFrame, AnswersFor, AnswersIn, IsQuery, PrefixOf;
    var r := RadioFrame(d, bytes, t);
    RadioFrameIs(d, bytes, t);
    var frame := if IsError(Body(bytes)) then None else Some(bytes);
    if Body(bytes) != [] {
      forall i | 0 <= i < |Open(d)|
        ensures frame.Some? && Open(d)[i].prefix != PrefixOf(Body(frame.value))
      {
        assert Open(d)[i].prefix != PrefixOf(Body(bytes));
      }
      NoQueryIsTaken(d, frame, t);
      var p := PendTake(d.pend, frame, t).1;
      if p.Some? {
        SetIsNoQuery(d.pend, p.value);
      }
    }
    TakenAreOld(d.pend, r.pend);
    assert r.log == d.log + [r.log[|d.log|]];
    OneMoreEntry(d.log, r.log[|d.log|]);
  }

  /** Dead entries go, and perhaps the oldest one, but no query. */
  lemma AddKeepsQueries(d: Decoder, s: Seen, id: nat)
    requires OpenInTime(d, s.t) && HasRoom(d, s.t) && WellFormed(d.pend)
    ensures var r := PendAdd(d.pend, s, id);
            && Filter(r, AsksRadio()) == Open(d) + (if IsQuery(s.bytes) then [PendingOf(s, id)] else [])
            && WellFormed(r)
  {
    hide IsQuery, Filter;
    var live := NewPend(d, s.t);
    LiveKeepsQueries(d, s.t);
    var kept := if |live| == PEND_MAX then live[1..] else live;
    if |live| == PEND_MAX {
      FirstIsNoQuery(live);
    }
    FilterConcat(kept, [PendingOf(s, id)], AsksRadio());
    FilterOne(PendingOf(s, id), AsksRadio());
    assert PendAdd(d.pend, s, id) == kept + [PendingOf(s, id)];
  }

  lemma LiveKeepsQueries(d: Decoder, t: nat)
    requires OpenInTime(d, t) && WellFormed(d.pend)
    ensures Filter(NewPend(d, t), AsksRadio()) == Open(d) && WellFormed(NewPend(d, t))
  {
    hide IsQuery, Filter, LiveAt;
    FilterTwice(d.pend, Lives(t), AsksRadio());
    var live := NewPend(d, t);
    forall i | 0 <= i < |live|
      ensures live[i] in d.pend
    {
      FilterHas(d.pend, Lives(t), live[i]);
    }
  }

  lemma FirstIsNoQuery(live: seq<Pending>)
    requires live != [] && !live[0].query
    ensures Filter(live[1..], AsksRadio()) == Filter(live, AsksRadio())
  {
    FilterWithout(live, 0, AsksRadio());
    assert live[..0] == [] && Filter(live[..0], AsksRadio()) == [];
    assert live[..0] + live[1..] == live[1..];
    hide Filter;
  }

  lemma QuietTracks(d: Decoder, w: World, r: Decoder, e: Entry)
    requires Tracks(d, w) && r.pend == d.pend && r.log == d.log + [e] && e.credit == None
    ensures Tracks(r, w)
  {
    hide AnswersFor, AnswersIn, Filter, IsQuery;
    OneMoreEntry(d.log, e);
  }

  lemma HostFrameTracks(d: Decoder, w: World, s: Seen)
    requires Tracks(d, w) && OpenInTime(d, s.t) && (Body(s.bytes) != [] ==> HasRoom(d, s.t))
    ensures Tracks(HostFrame(d, s), if Body(s.bytes) != [] && IsQuery(s.bytes)
                                    then w.(queries := w.queries + [Query(|d.seen|, s)]) else w)
  {
    hide AnswersFor, AnswersIn, Filter, IsQuery, PendAdd, ApplyFrame, HasRoom, OpenInTime;
    var r := HostFrame(d, s);
    OneMoreEntry(d.log, r.log[|d.log|]);
    if Body(s.bytes) != [] {
      AddKeepsQueries(d, s, |d.seen|);
      var qs := w.queries + [Query(|d.seen|, s)];
      assert qs[w.done..] == w.queries[w.done..] + [Query(|d.seen|, s)];
      assert qs[..w.done] == w.queries[..w.done];
    }
  }

  lemma DiscardTracks(d: Decoder, w: World, client: clientNo)
    requires |d.rx| == RX_NUM && Tracks(d, w) && Undisturbed(d, DiscardEvent(client))
    ensures Tracks(Discard(d, client), w)
  {
    hide AnswersFor, AnswersIn, Filter, IsQuery;
    if client != 0 {
      FilterTwice(d.pend, NotOf(client), AsksRadio());
      var r := Discard(d, client);
      forall i | 0 <= i < |r.pend|
        ensures r.pend[i] in d.pend
      {
        FilterHas(d.pend, NotOf(client), r.pend[i]);
      }
      TakenAreOld(d.pend, r.pend);
    }
  }

  lemma StepTracks(d: Decoder, w: World, e: Event)
    requires |d.rx| == RX_NUM && Tracks(d, w) && Undisturbed(d, e)
    ensures Tracks(Step(d, e), Meets(w, d, e))
  {
    hide Tracks, F.Byte, RadioFrame, HostFrame, IsNextAnswer, IsNoAnswer, OpenInTime, HasRoom, IsQuery;
    match e {
      case DiscardEvent(client) => DiscardTracks(d, w, client);
      case ByteEvent(i, b, t) =>
        var g := F.Byte(d.rx[i].buf, b).1;
        var d1 := if g == [] then d else Report(d, i, g[0], t);
        if g != [] {
          match g[0] {
            case Broken(bytes) => QuietTracks(d, w, d1, d1.log[|d.log|]);
            case Whole(bytes) =>
              if i != RX_RADIO {
                HostFrameTracks(d, w, Seen(DirOf(i), ClientOf(i), bytes, t));
              } else if IsNextAnswer(d, bytes) {
                AnswerTracks(d, w, bytes, t);
              } else {
                NoAnswerTracks(d, w, bytes, t);
              }
          }
        }
        SameTracks(d1, Step(d, e), Meets(w, d, e));
    }
  }

  lemma SameTracks(d: Decoder, r: Decoder, w: World)
    requires Tracks(d, w) && r == d.(rx := r.rx)
    ensures Tracks(r, w)
  {
    hide AnswersFor, AnswersIn, Filter, IsQuery;
  }

  lemma {:induction false} RunTracks(d: Decoder, w: World, es: seq<Event>)
    requires |d.rx| == RX_NUM && Tracks(d, w) && Honest(d, es)
    ensures Tracks(Run(d, es), RunWorld(w, d, es))
    decreases |es|
  {
    hide Tracks, Step, Undisturbed, Meets;
    if es != [] {
      StepTracks(d, w, es[0]);
      RunTracks(Step(d, es[0]), Meets(w, d, es[0]), es[1..]);
    }
  }

  /**
   * If the radio answers each query in time and in order, or refuses it with an error, and no
   * query is pushed out or discarded, then over any run, with sets and their repetitions, other
   * auto information and broken frames in between, the n-th answer is credited to the n-th query
   * and its sender, and the others are pending in order.
   */
  lemma HonestRadioIsCreditedInOrder(cfg: Cfg, st: State, es: seq<Event>)
    requires Honest(Create(cfg, st), es)
    ensures var d, w := Run(Create(cfg, st), es), RunWorld(World([], 0), Create(cfg, st), es);
            && w.done <= |w.queries|
            && AnswersIn(d.log) == AnswersFor(w.queries[..w.done]) && SameQueries(Open(d), w.queries[w.done..])
  {
    var d := Create(cfg, st);
    assert Tracks(d, World([], 0));
    RunTracks(d, World([], 0), es);
    hide Run, RunWorld, Honest, AnswersIn, AnswersFor, SameQueries;
  }
}
