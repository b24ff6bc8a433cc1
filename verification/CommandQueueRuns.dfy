/** Exactly-once completion, order, and one command in flight, over whole runs. */
module CommandQueueRuns {
  import opened CommandQueue

  function Ids(list: seq<Command>): (r: seq<nat>)
    ensures |r| == |list|
    ensures forall i | 0 <= i < |list| :: r[i] == list[i].id
  {
    seq(|list|, i requires 0 <= i < |list| => list[i].id)
  }

  function CompletedIds(cs: seq<Completion>): (r: seq<nat>)
    ensures |r| == |cs|
    ensures forall i | 0 <= i < |cs| :: r[i] == cs[i].id
  {
    seq(|cs|, i requires 0 <= i < |cs| => cs[i].id)
  }

  /** Every submission, where it is now: completed in one of three ways, or in the queue. */
  function Census(s: Queue): multiset<nat> {
    multiset(Ids(s.list)) + multiset(CompletedIds(s.done)) + multiset(CompletedIds(s.late))
    + multiset(CompletedIds(s.deferred))
  }

  function Submitted(n: nat): multiset<nat> {
    if n == 0 then multiset{} else Submitted(n - 1) + multiset{n - 1}
  }

  predicate Rising(s: seq<nat>) {
    forall i, j | 0 <= i < j < |s| :: s[i] < s[j]
  }

  /** The commands that are in the queue and not sent yet. */
  function Unsent(s: Queue): seq<nat> {
    if s.list != [] && s.list[0].sent then Ids(s.list[1..]) else Ids(s.list)
  }

  /** True at every moment, also while callbacks run. */
  predicate Always(s: Queue) {
    && Census(s) == Submitted(s.next)
    && Rising(s.left + Ids(s.list))
    && Rising(s.sentLog + Unsent(s))
    && (forall i | 0 <= i < |s.list| :: s.list[i].id < s.next)
    && (forall i | 0 <= i < |s.left| :: s.left[i] < s.next)
    && (forall i | 0 <= i < |s.sentLog| :: s.sentLog[i] < s.next)
    && OnlyHeadSent(s)
    && !s.stray
  }

  /** The timeout timer runs exactly while the head is sent. */
  predicate Timed(s: Queue) {
    s.timer <==> s.list != [] && s.list[0].sent
  }

  /** Between events: the head of a non-empty queue is sent. */
  predicate Settled(s: Queue) {
    Always(s) && Timed(s) && (s.list != [] ==> s.list[0].sent)
  }

  lemma IdsConcat(a: seq<Command>, b: seq<Command>)
    ensures Ids(a + b) == Ids(a) + Ids(b)
  {
  }

  lemma CompletedConcat(a: seq<Completion>, b: seq<Completion>)
    ensures CompletedIds(a + b) == CompletedIds(a) + CompletedIds(b)
  {
  }

  lemma MovedOut(s: Queue, r: Result)
    requires s.list != []
    ensures Census(Defer(Pop(s), s.list[0].id, r)) == Census(s)
    ensures Census(Pop(s).(done := s.done + [Completion(s.list[0].id, r)])) == Census(s)
  {
    var c := Completion(s.list[0].id, r);
    assert s.list == [s.list[0]] + s.list[1..];
    IdsConcat([s.list[0]], s.list[1..]);
    assert Ids([s.list[0]]) == [c.id] && CompletedIds([c]) == [c.id];
    CompletedConcat(s.deferred, [c]);
    CompletedConcat(s.done, [c]);
  }

  lemma RisingWithout(a: seq<nat>, i: nat)
    requires Rising(a) && i < |a|
    ensures Rising(a[..i] + a[i + 1..])
  {
    var b := a[..i] + a[i + 1..];
    assert forall k | 0 <= k < |b| :: b[k] == a[if k < i then k else k + 1];
  }

  lemma PoppedOrder(s: Queue)
    requires s.list != [] && Always(s)
    ensures var r := Pop(s);
            && Rising(r.left + Ids(r.list)) && Rising(r.sentLog + Unsent(r)) && OnlyHeadSent(r)
            && forall i | 0 <= i < |r.left| :: r.left[i] < r.next
  {
    hide Rising, Census;
    var r := Pop(s);
    assert r.left + Ids(r.list) == s.left + Ids(s.list);
    if !s.list[0].sent {
      var a, n := s.sentLog + Unsent(s), |s.sentLog|;
      RisingWithout(a, n);
      assert Unsent(s)[1..] == Unsent(r);
      assert a[..n] == s.sentLog && a[n + 1..] == Unsent(s)[1..];
    } else {
      assert Unsent(r) == Unsent(s);
    }
  }

  lemma PopKeeps(s: Queue, r: Result)
    requires s.list != [] && Always(s)
    ensures Always(Defer(Pop(s), s.list[0].id, r))
    ensures Always(Pop(s).(done := s.done + [Completion(s.list[0].id, r)]))
  {
    hide Census, Rising;
    MovedOut(s, r);
    PoppedOrder(s);
  }

  lemma SendKeeps(s: Queue)
    requires s.list != [] && !s.list[0].sent && Always(s)
    ensures var c := s.list[0];
            Always(s.(list := s.list[0 := c.(sent := true)], timer := true, sentLog := s.sentLog + [c.id]))
  {
    var c := s.list[0];
    var r := s.(list := s.list[0 := c.(sent := true)], timer := true, sentLog := s.sentLog + [c.id]);
    assert Ids(r.list) == Ids(s.list);
    assert r.list[1..] == s.list[1..];
    assert r.sentLog + Unsent(r) == s.sentLog + Unsent(s);
  }

  lemma {:induction false} PushKeeps(s: Queue, w: World)
    requires Always(s) && Timed(s)
    ensures Settled(Push(s, w))
    decreases |s.list|
  {
    if s.list != [] && !s.list[0].sent {
      if s.up && w.room(s.list[0].id) {
        SendKeeps(s);
      } else {
        PopKeeps(s, Error);
        PushKeeps(Defer(Pop(s), s.list[0].id, Error), w);
      }
    }
  }

  lemma OneMoreCounted(a: seq<nat>, x: nat)
    ensures multiset(a + [x]) == multiset(a) + multiset{x}
  {
  }

  lemma RefusedIsCounted(s: Queue, r: Result)
    requires Census(s) == Submitted(s.next)
    ensures Census(Defer(s.(next := s.next + 1), s.next, r)) == Submitted(s.next + 1)
  {
    hide Ids, CompletedIds;
    var d := Completion(s.next, r);
    CompletedConcat(s.deferred, [d]);
    OneCompletedId(d);
    OneMoreCounted(CompletedIds(s.deferred), s.next);
  }

  lemma OneCompletedId(c: Completion)
    ensures CompletedIds([c]) == [c.id]
  {
  }

  lemma OneId(c: Command)
    ensures Ids([c]) == [c.id]
  {
  }

  lemma QueuedIsCounted(s: Queue, c: Command)
    requires Census(s) == Submitted(s.next) && c.id == s.next
    ensures Census(s.(next := s.next + 1, list := s.list + [c])) == Submitted(s.next + 1)
  {
    hide Ids, CompletedIds;
    IdsConcat(s.list, [c]);
    OneId(c);
    OneMoreCounted(Ids(s.list), s.next);
  }

  lemma RisingSnoc(a: seq<nat>, x: nat)
    requires Rising(a) && forall i | 0 <= i < |a| :: a[i] < x
    ensures Rising(a + [x])
  {
  }

  lemma NewIsLast(s: Queue, c: Command)
    requires Always(s) && c.id == s.next && !c.sent
    ensures var q := s.(next := s.next + 1, list := s.list + [c]);
            Rising(q.left + Ids(q.list)) && Rising(q.sentLog + Unsent(q)) && OnlyHeadSent(q)
  {
    hide Census;
    var q := s.(next := s.next + 1, list := s.list + [c]);
    assert q.left + Ids(q.list) == s.left + Ids(s.list) + [s.next];
    if s.list != [] {
      assert q.list[1..] == s.list[1..] + [c];
    }
    assert Unsent(q) == Unsent(s) + [s.next];
    assert q.sentLog + Unsent(q) == s.sentLog + Unsent(s) + [s.next];
    RisingSnoc(s.left + Ids(s.list), s.next);
    RisingSnoc(s.sentLog + Unsent(s), s.next);
  }

  lemma NewKeeps(s: Queue, c: Command, r: Result)
    requires Always(s) && c.id == s.next && !c.sent
    ensures Always(Defer(s.(next := s.next + 1), s.next, r))
    ensures Always(s.(next := s.next + 1, list := s.list + [c]))
  {
    hide Census, Rising;
    RefusedIsCounted(s, r);
    QueuedIsCounted(s, c);
    NewIsLast(s, c);
  }

  lemma SubmitKeeps(s: Queue, r: Request, w: World)
    requires Always(s) && Timed(s)
    ensures Always(Submit(s, r, w)) && Timed(Submit(s, r, w))
    ensures Settled(s) ==> Settled(Submit(s, r, w))
  {
    hide Always, Push;
    var c := Command(s.next, r.first, false);
    NewKeeps(s, c, Offline);
    NewKeeps(s, c, Error);
    PushKeeps(s.(next := s.next + 1, list := s.list + [c]), w);
  }

  lemma {:induction false} SubmitsKeep(s: Queue, rs: seq<Request>, w: World)
    requires Always(s) && Timed(s)
    ensures Always(SubmitAll(s, rs, w)) && Timed(SubmitAll(s, rs, w))
    ensures Settled(s) ==> Settled(SubmitAll(s, rs, w))
    decreases |rs|
  {
    hide Always, Timed, Submit;
    if rs != [] {
      SubmitKeeps(s, rs[0], w);
      SubmitsKeep(Submit(s, rs[0], w), rs[1..], w);
    }
  }

  lemma CompleteKeeps(s: Queue, r: Result, w: World)
    requires s.list != [] && Always(s) && !s.timer
    ensures Always(Complete(s, r, w)) && Timed(Complete(s, r, w))
  {
    PopKeeps(s, r);
    SubmitsKeep(Pop(s).(done := s.done + [Completion(s.list[0].id, r)]), w.script(s.list[0].id), w);
    hide SubmitAll, Always;
  }

  lemma TimerDoesNotMatter(s: Queue)
    requires Always(s)
    ensures Always(s.(timer := false)) && Always(s.(up := false)) && Always(s.(up := true))
  {
    hide Rising, Ids, CompletedIds, Submitted;
  }

  lemma ReceiveKeeps(s: Queue, first: nat, more: seq<Request>, w: World)
    requires Settled(s)
    ensures Settled(Receive(s, first, more, w))
  {
    hide Always, Push, SubmitAll, Complete;
    TimerDoesNotMatter(s);
    var s1 := s;
    if s.list != [] && s.list[0].sent && (first == s.list[0].first || first == NOT_SUPPORTED) {
      var r := if first == s.list[0].first then Ok else NotSupported;
      CompleteKeeps(s.(timer := false), r, w);
      s1 := Complete(s.(timer := false), r, w);
    }
    SubmitsKeep(s1, more, w);
    PushKeeps(SubmitAll(s1, more, w), w);
  }

  lemma TimeOutKeeps(s: Queue, w: World)
    requires Settled(s) && s.timer
    ensures Settled(TimeOut(s, w))
  {
    hide Always, Push, Complete;
    TimerDoesNotMatter(s);
    CompleteKeeps(s.(timer := false), TimedOut, w);
    PushKeeps(Complete(s.(timer := false), TimedOut, w), w);
  }

  lemma {:induction false} FlushKeeps(s: Queue, r: Result, w: World)
    requires Always(s) && !s.up && !s.timer && OnlyHeadSent(s)
    ensures Settled(Flush(s, r, w))
    decreases |s.list|
  {
    hide Census, Rising, SubmitAll;
    if s.list != [] {
      CallbackWhileDown(Pop(s).(done := s.done + [Completion(s.list[0].id, r)]), w.script(s.list[0].id), w);
      CompleteKeeps(s, r, w);
      FlushKeeps(Complete(s, r, w), r, w);
    }
  }

  lemma DisconnectKeeps(s: Queue, more: seq<Request>, w: World)
    requires Settled(s)
    ensures Settled(Disconnect(s, more, w))
  {
    hide Census, Rising, SubmitAll, Flush;
    var s1 := s.(up := false);
    TimerDoesNotMatter(s);
    SubmitsWhileDown(s1, more, w);
    SubmitsKeep(s1, more, w);
    TimerDoesNotMatter(SubmitAll(s1, more, w));
    FlushKeeps(SubmitAll(s1, more, w).(timer := false), Offline, w);
  }

  lemma DeferredIsCounted(s: Queue, i: nat)
    requires i < |s.deferred|
    ensures Census(s.(deferred := s.deferred[..i] + s.deferred[i + 1..], late := s.late + [s.deferred[i]])) == Census(s)
  {
    var c, a, b := s.deferred[i], s.deferred[..i], s.deferred[i + 1..];
    assert s.deferred == a + [c] + b;
    CompletedConcat(a + [c], b);
    CompletedConcat(a, [c]);
    CompletedConcat(a, b);
    CompletedConcat(s.late, [c]);
    hide Ids, CompletedIds;
  }

  lemma DeferredKeeps(s: Queue, i: nat, w: World)
    requires Settled(s) && i < |s.deferred|
    ensures Settled(RunDeferred(s, i, w))
  {
    hide Census, Rising, SubmitAll;
    DeferredIsCounted(s, i);
    var c := s.deferred[i];
    SubmitsKeep(s.(deferred := s.deferred[..i] + s.deferred[i + 1..], late := s.late + [c]), w.script(c.id), w);
  }

  lemma StepKeeps(s: Queue, e: Event, w: World)
    requires Settled(s) && OnlyHeadSent(s)
    ensures Settled(Step(s, e, w)) && OnlyHeadSent(Step(s, e, w))
  {
    hide Census, Rising, Submit, Receive, TimeOut, Disconnect, SubmitAll, RunDeferred;
    match e {
      case Submits(r) => SubmitKeeps(s, r, w);
      case Receives(first, more) => ReceiveKeeps(s, first, more, w);
      case TimerFires => if s.timer { TimeOutKeeps(s, w); }
      case Disconnects(more) => DisconnectKeeps(s, more, w);
      case Connects(more) =>
        TimerDoesNotMatter(s);
        SubmitsKeep(s.(up := true), more, w);
      case Idles(i) => if i < |s.deferred| { DeferredKeeps(s, i, w); }
    }
  }

  function Run(s: Queue, es: seq<Event>, w: World): (r: Queue)
    requires Settled(s)
    ensures Settled(r)
    decreases |es|
  {
    if es == [] then s
    else
      StepKeeps(s, es[0], w);
      Run(Step(s, es[0], w), es[1..], w)
  }

  lemma CreatedIsSettled()
    ensures Settled(CREATED)
  {
    assert Census(CREATED) == multiset{};
  }

  function RunAll(es: seq<Event>, w: World): (r: Queue)
    ensures Settled(r)
  {
    CreatedIsSettled();
    Run(CREATED, es, w)
  }

  lemma {:induction false} SubmittedOnce(n: nat, id: nat)
    ensures Submitted(n)[id] == if id < n then 1 else 0
    decreases n
  {
    if n > 0 {
      SubmittedOnce(n - 1, id);
    }
  }

  /**
   * Over any run of submissions, answers, timeouts, send failures, disconnects and connects, with
   * callbacks that submit again: each command is completed once, will be by one deferred callback,
   * or is queued, and never twice.
   */
  lemma ExactlyOnce(es: seq<Event>, w: World, id: nat)
    ensures var s := RunAll(es, w);
            multiset(CompletedIds(s.done))[id] + multiset(CompletedIds(s.late))[id]
            + multiset(CompletedIds(s.deferred))[id] + multiset(Ids(s.list))[id]
            == if id < s.next then 1 else 0
  {
    var s := RunAll(es, w);
    SubmittedOnce(s.next, id);
    assert Census(s)[id] == Submitted(s.next)[id];
  }

  /**
   * After every event: commands were sent, and left the queue, in the order of their submission;
   * a queue that is not empty has its head in flight and only its head, and the timeout timer runs
   * exactly then; the timer never fired without a command pending.
   */
  lemma OneInFlightInOrder(es: seq<Event>, w: World)
    ensures var s := RunAll(es, w);
            && Rising(s.left + Ids(s.list)) && Rising(s.sentLog)
            && (forall i | 0 <= i < |s.list| :: s.list[i].sent <==> i == 0)
            && (s.timer <==> s.list != [])
            && !s.stray
  {
    var s := RunAll(es, w);
    assert forall i | 0 <= i < |s.sentLog| :: (s.sentLog + Unsent(s))[i] == s.sentLog[i];
  }

  // ----- Results -----

  /** What a callback, or a refusal, does to the completions: deferred ones are added, as refusals. */
  predicate OnlyRefuses(s: Queue, r: Queue) {
    && r.done == s.done && r.late == s.late
    && s.deferred <= r.deferred
    && forall i | |s.deferred| <= i < |r.deferred| :: r.deferred[i].result == Error || r.deferred[i].result == Offline
  }

  lemma {:induction false} PushRefuses(s: Queue, w: World)
    ensures OnlyRefuses(s, Push(s, w))
    decreases |s.list|
  {
    if s.list != [] && !s.list[0].sent && !(s.up && w.room(s.list[0].id)) {
      PushRefuses(Defer(Pop(s), s.list[0].id, Error), w);
    }
  }

  lemma SubmitRefuses(s: Queue, r: Request, w: World)
    ensures OnlyRefuses(s, Submit(s, r, w))
  {
    hide Push;
    PushRefuses(s.(next := s.next + 1, list := s.list + [Command(s.next, r.first, false)]), w);
  }

  lemma OneAfterTheOther(s: Queue, m: Queue, r: Queue)
    requires OnlyRefuses(s, m) && OnlyRefuses(m, r)
    ensures OnlyRefuses(s, r)
  {
    forall i | |s.deferred| <= i < |r.deferred|
      ensures r.deferred[i].result == Error || r.deferred[i].result == Offline
    {
      assert i < |m.deferred| ==> r.deferred[i] == m.deferred[i];
    }
  }

  lemma {:induction false} SubmitsRefuse(s: Queue, rs: seq<Request>, w: World)
    ensures OnlyRefuses(s, SubmitAll(s, rs, w))
    decreases |rs|
  {
    if rs != [] {
      hide OnlyRefuses, Submit;
      SubmitRefuses(s, rs[0], w);
      SubmitsRefuse(Submit(s, rs[0], w), rs[1..], w);
      OneAfterTheOther(s, Submit(s, rs[0], w), SubmitAll(s, rs, w));
    }
  }

  /** The completions that an event adds, and why. */
  predicate ResultsOk(s: Queue, e: Event, r: Queue) {
    && (match e
        case Receives(first, _) =>
          r.done == s.done + if s.list == [] then []
                             else if first == s.list[0].first then [Completion(s.list[0].id, Ok)]
                             else if first == NOT_SUPPORTED then [Completion(s.list[0].id, NotSupported)]
                             else []
        case TimerFires => r.done == s.done + if s.timer && s.list != [] then [Completion(s.list[0].id, TimedOut)]
                                              else []
        case Disconnects(_) =>
          s.done <= r.done && r.list == [] && forall i | |s.done| <= i < |r.done| :: r.done[i].result == Offline
        case _ => r.done == s.done)
    && r.late == (if e.Idles? && e.i < |s.deferred| then s.late + [s.deferred[e.i]] else s.late)
    && (forall i | 0 <= i < |r.deferred| && r.deferred[i] !in s.deferred ::
          r.deferred[i].result == Error || r.deferred[i].result == Offline)
  }

  lemma OneCompleted(s: Queue, r: Result, w: World)
    requires s.list != []
    ensures OnlyRefuses(s.(done := s.done + [Completion(s.list[0].id, r)]), Complete(s, r, w))
  {
    SubmitsRefuse(Pop(s).(done := s.done + [Completion(s.list[0].id, r)]), w.script(s.list[0].id), w);
    hide SubmitAll;
  }

  lemma {:induction false} FlushResults(s: Queue, r: Result, w: World)
    requires !s.up && OnlyHeadSent(s)
    ensures var f := Flush(s, r, w);
            && s.done <= f.done && f.late == s.late && s.deferred <= f.deferred
            && (forall i | |s.done| <= i < |f.done| :: f.done[i].result == r)
            && (forall i | |s.deferred| <= i < |f.deferred| ::
                  f.deferred[i].result == Error || f.deferred[i].result == Offline)
    decreases |s.list|
  {
    hide SubmitAll;
    if s.list != [] {
      CallbackWhileDown(Pop(s).(done := s.done + [Completion(s.list[0].id, r)]), w.script(s.list[0].id), w);
      OneCompleted(s, r, w);
      FlushResults(Complete(s, r, w), r, w);
    }
  }

  lemma DisconnectResults(s: Queue, more: seq<Request>, w: World)
    requires OnlyHeadSent(s)
    ensures ResultsOk(s, Disconnects(more), Disconnect(s, more, w))
  {
    hide SubmitAll, Flush;
    var s1 := s.(up := false);
    SubmitsWhileDown(s1, more, w);
    SubmitsRefuse(s1, more, w);
    FlushResults(SubmitAll(s1, more, w).(timer := false), Offline, w);
  }

  lemma ReceiveResults(s: Queue, first: nat, more: seq<Request>, w: World)
    requires Settled(s)
    ensures ResultsOk(s, Receives(first, more), Receive(s, first, more, w))
  {
    hide Always, Push, SubmitAll, Complete;
    var s1 := s;
    if s.list != [] && (first == s.list[0].first || first == NOT_SUPPORTED) {
      var r := if first == s.list[0].first then Ok else NotSupported;
      OneCompleted(s.(timer := false), r, w);
      s1 := Complete(s.(timer := false), r, w);
    }
    SubmitsRefuse(s1, more, w);
    PushRefuses(SubmitAll(s1, more, w), w);
  }

  lemma TimeOutResults(s: Queue, w: World)
    requires Settled(s)
    ensures ResultsOk(s, TimerFires, Step(s, TimerFires, w))
  {
    hide Census, Rising, Push, Complete;
    if s.timer {
      OneCompleted(s.(timer := false), TimedOut, w);
      PushRefuses(Complete(s.(timer := false), TimedOut, w), w);
    }
  }

  lemma DeferredResults(s: Queue, i: nat, w: World)
    requires i < |s.deferred|
    ensures ResultsOk(s, Idles(i), RunDeferred(s, i, w))
  {
    var c := s.deferred[i];
    var s1 := s.(deferred := s.deferred[..i] + s.deferred[i + 1..], late := s.late + [c]);
    SubmitsRefuse(s1, w.script(c.id), w);
    hide SubmitAll;
    var r := RunDeferred(s, i, w);
    forall k | 0 <= k < |r.deferred|
      ensures r.deferred[k] in s.deferred || r.deferred[k].result == Error || r.deferred[k].result == Offline
    {
      assert k < |s1.deferred| ==> r.deferred[k] == s1.deferred[k];
    }
  }

  /**
   * Every result has its own cause. Ok comes only with a reply whose first byte is the command's,
   * for the command in flight, and NotSupported with the keyer's 7F for it; TimedOut with the
   * timer; Offline when the keyer goes. A deferred callback gets the result it was deferred with,
   * which is that of a refusal: an error, or offline.
   */
  lemma StepResults(s: Queue, e: Event, w: World)
    requires Settled(s) && OnlyHeadSent(s)
    ensures ResultsOk(s, e, Step(s, e, w))
  {
    hide Submit, Receive, TimeOut, Disconnect, SubmitAll, RunDeferred, Settled;
    match e {
      case Submits(r) => SubmitRefuses(s, r, w);
      case Receives(first, more) => ReceiveResults(s, first, more, w);
      case TimerFires => TimeOutResults(s, w);
      case Disconnects(more) => DisconnectResults(s, more, w);
      case Connects(more) => SubmitsRefuse(s.(up := true), more, w);
      case Idles(i) => if i < |s.deferred| { DeferredResults(s, i, w); }
    }
    if OnlyRefuses(s, Step(s, e, w)) && (e.Submits? || e.Connects? || (e.Idles? && e.i >= |s.deferred|)) {
      RefusalsAreOk(s, e, Step(s, e, w));
    }
  }

  lemma RefusalsAreOk(s: Queue, e: Event, r: Queue)
    requires OnlyRefuses(s, r) && (e.Submits? || e.Connects? || (e.Idles? && e.i >= |s.deferred|))
    ensures ResultsOk(s, e, r)
  {
  }

  /** What made the command complete with its result, as the n-th event of the run. */
  ghost predicate CausedAt(es: seq<Event>, w: World, n: nat, c: Completion) {
    && n < |es|
    && var s, e := RunAll(es[..n], w), es[n];
       match c.result
       case Ok => e.Receives? && s.list != [] && s.list[0].id == c.id && e.first == s.list[0].first
       case NotSupported => e.Receives? && s.list != [] && s.list[0].id == c.id && e.first == NOT_SUPPORTED
       case TimedOut => e.TimerFires? && s.timer && s.list != [] && s.list[0].id == c.id
       case Offline => e.Disconnects?
       case Error => false
  }

  lemma OnlyOneSent(s: Queue)
    requires Settled(s)
    ensures OnlyHeadSent(s)
  {
  }

  lemma {:induction false} RunSnoc(s: Queue, es: seq<Event>, e: Event, w: World)
    requires Settled(s)
    ensures Run(s, es + [e], w) == Step(Run(s, es, w), e, w)
    decreases |es|
  {
    hide Always, Step;
    if es == [] {
      assert [e][1..] == [];
    } else {
      assert (es + [e])[1..] == es[1..] + [e];
      OnlyOneSent(s);
      StepKeeps(s, es[0], w);
      RunSnoc(Step(s, es[0], w), es[1..], e, w);
    }
  }

  lemma RunAllSnoc(es: seq<Event>, e: Event, w: World)
    ensures OnlyHeadSent(RunAll(es, w)) && RunAll(es + [e], w) == Step(RunAll(es, w), e, w)
  {
    CreatedIsSettled();
    RunSnoc(CREATED, es, e, w);
    hide Census, Rising, Step;
  }

  lemma CauseStays(es: seq<Event>, e: Event, w: World, n: nat, c: Completion)
    requires CausedAt(es, w, n, c)
    ensures CausedAt(es + [e], w, n, c)
  {
    assert (es + [e])[..n] == es[..n] && (es + [e])[n] == es[n];
  }

  ghost predicate HasCause(es: seq<Event>, w: World, c: Completion) {
    exists n: nat :: CausedAt(es, w, n, c)
  }

  /** The deferred results are those of refusals, and all others have their cause in the run. */
  ghost predicate AllCaused(es: seq<Event>, w: World) {
    var s := RunAll(es, w);
    && (forall i | 0 <= i < |s.done| :: HasCause(es, w, s.done[i]))
    && AllRefused(s.late) && AllRefused(s.deferred)
  }

  predicate AllRefused(cs: seq<Completion>) {
    forall i | 0 <= i < |cs| :: cs[i].result == Error || cs[i].result == Offline
  }

  lemma StaysRefused(s: Queue, e: Event, r: Queue)
    requires ResultsOk(s, e, r) && AllRefused(s.late) && AllRefused(s.deferred)
    ensures AllRefused(r.late) && AllRefused(r.deferred)
  {
    forall i | 0 <= i < |r.deferred|
      ensures r.deferred[i].result == Error || r.deferred[i].result == Offline
    {
      if r.deferred[i] in s.deferred {
        var k :| 0 <= k < |s.deferred| && s.deferred[k] == r.deferred[i];
      }
    }
  }

  lemma DoneStays(s: Queue, e: Event, r: Queue)
    requires ResultsOk(s, e, r)
    ensures s.done <= r.done
  {
  }

  lemma OneMoreCaused(es: seq<Event>, e: Event, w: World)
    requires AllCaused(es, w)
    ensures AllCaused(es + [e], w)
  {
    hide Step, RunAll, Settled, CausedAt, ResultsOk, OnlyHeadSent;
    var s := RunAll(es, w);
    RunAllSnoc(es, e, w);
    var r := RunAll(es + [e], w);
    StepResults(s, e, w);
    StaysRefused(s, e, r);
    DoneStays(s, e, r);
    hide AllRefused;
    forall i | 0 <= i < |r.done|
      ensures HasCause(es + [e], w, r.done[i])
    {
      if i < |s.done| {
        assert r.done[i] == s.done[i] && HasCause(es, w, s.done[i]);
        var n: nat :| CausedAt(es, w, n, s.done[i]);
        CauseStays(es, e, w, n, s.done[i]);
      } else {
        CausedNow(es, e, w, i);
      }
    }
  }

  lemma CausedNow(es: seq<Event>, e: Event, w: World, i: nat)
    requires |RunAll(es, w).done| <= i < |RunAll(es + [e], w).done|
    ensures CausedAt(es + [e], w, |es|, RunAll(es + [e], w).done[i])
  {
    hide Step, RunAll, Settled, OnlyHeadSent;
    RunAllSnoc(es, e, w);
    StepResults(RunAll(es, w), e, w);
    assert (es + [e])[..|es|] == es;
    NewResult(RunAll(es, w), e, RunAll(es + [e], w), i);
  }

  /** Why the i-th completion is there, if it is new. */
  lemma NewResult(s: Queue, e: Event, r: Queue, i: nat)
    requires ResultsOk(s, e, r) && |s.done| <= i < |r.done|
    ensures match r.done[i].result
            case Ok => e.Receives? && s.list != [] && s.list[0].id == r.done[i].id && e.first == s.list[0].first
            case NotSupported => e.Receives? && s.list != [] && s.list[0].id == r.done[i].id && e.first == NOT_SUPPORTED
            case TimedOut => e.TimerFires? && s.timer && s.list != [] && s.list[0].id == r.done[i].id
            case Offline => e.Disconnects?
            case Error => false
  {
  }

  /**
   * Over any run every result has its cause: Ok a reply with the command's first byte while it was
   * in flight, NotSupported the keyer's 7F then, TimedOut the timer, Offline the keyer's going. A
   * deferred callback gets the result of its refusal, an error or offline.
   */
  lemma {:induction false} ResultsHaveCauses(es: seq<Event>, w: World)
    ensures AllCaused(es, w)
    decreases |es|
  {
    if es == [] {
      CreatedIsSettled();
      assert RunAll(es, w) == CREATED;
    } else {
      var n := |es| - 1;
      ResultsHaveCauses(es[..n], w);
      assert es == es[..n] + [es[n]];
      OneMoreCaused(es[..n], es[n], w);
    }
  }
}
