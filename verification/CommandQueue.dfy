/** The keyer command queue of src/mhcontrol.c as steps on a value. */
module CommandQueue {
  const MAX_CMD_LEN := 128
  const MAX_QUEUE_SIZE := 16
  const ARE_YOU_THERE := 0x7e
  const NOT_SUPPORTED := 0x7f

  datatype Result = Ok | Error | TimedOut | NotSupported | Offline

  /** A command to submit: its first byte, its length, and what is_connected() says then. */
  datatype Request = Request(first: nat, len: nat, connected: bool)

  /** A queued command; id: the number of its submission. */
  datatype Command = Command(id: nat, first: nat, sent: bool)

  datatype Completion = Completion(id: nat, result: Result)

  /**
   * What is outside: what the completion callback of a command submits, and whether the control
   * channel has room for a command when it is sent.
   */
  datatype World = World(script: nat -> seq<Request>, room: nat -> bool)

  /**
   * up: the keyer is there to send to. The rest is history: commands completed by their
   * callback, by a deferred callback that has run, or with one still waiting; the commands in the
   * order they were sent and in the order they left the queue; and whether the timeout timer ever
   * fired without a command pending.
   */
  datatype Queue = Queue(
    list: seq<Command>,
    timer: bool,
    up: bool,
    next: nat,
    deferred: seq<Completion>,
    done: seq<Completion>,
    late: seq<Completion>,
    sentLog: seq<nat>,
    left: seq<nat>,
    stray: bool)

  const CREATED := Queue([], false, false, 0, [], [], [], [], [], false)

  function Defer(s: Queue, id: nat, r: Result): Queue {
    s.(deferred := s.deferred + [Completion(id, r)])
  }

  /** Takes the head out of the queue. */
  function Pop(s: Queue): Queue
    requires s.list != []
  {
    s.(list := s.list[1..], left := s.left + [s.list[0].id])
  }

  /** Sends the head; commands that can't be sent are dropped. */
  function Push(s: Queue, w: World): Queue
    decreases |s.list|
  {
    if s.list == [] || s.list[0].sent then s
    else
      var c := s.list[0];
      if s.up && w.room(c.id) then
        s.(list := s.list[0 := c.(sent := true)], timer := true, sentLog := s.sentLog + [c.id])
      else Push(Defer(Pop(s), c.id, Error), w)
  }

  function Submit(s: Queue, r: Request, w: World): Queue {
    var id, s1 := s.next, s.(next := s.next + 1);
    if r.first != ARE_YOU_THERE && !r.connected then Defer(s1, id, Offline)
    else if r.len > MAX_CMD_LEN || |s.list| > MAX_QUEUE_SIZE then Defer(s1, id, Error)
    else Push(s1.(list := s1.list + [Command(id, r.first, false)]), w)
  }

  function SubmitAll(s: Queue, rs: seq<Request>, w: World): Queue
    decreases |rs|
  {
    if rs == [] then s else SubmitAll(Submit(s, rs[0], w), rs[1..], w)
  }

  /** The head's completion callback, which may submit commands. */
  function Complete(s: Queue, r: Result, w: World): Queue
    requires s.list != []
  {
    var id := s.list[0].id;
    SubmitAll(Pop(s).(done := s.done + [Completion(id, r)]), w.script(id), w)
  }

  /** A message of the keyer; what else it makes the program submit comes in more. */
  function Receive(s: Queue, first: nat, more: seq<Request>, w: World): Queue {
    var answered := s.list != [] && s.list[0].sent && (first == s.list[0].first || first == NOT_SUPPORTED);
    var s1 := if answered then Complete(s.(timer := false), if first == s.list[0].first then Ok else NotSupported, w)
              else s;
    Push(SubmitAll(s1, more, w), w)
  }

  /** The one-shot timeout timer fires. */
  function TimeOut(s: Queue, w: World): Queue {
    var s1 := s.(timer := false);
    if s.list != [] && s.list[0].sent then Push(Complete(s1, TimedOut, w), w) else s1.(stray := true)
  }

  /** Nobody but the head is sent. */
  predicate OnlyHeadSent(s: Queue) {
    forall i | 0 < i < |s.list| :: !s.list[i].sent
  }

  predicate NoneSent(s: Queue) {
    forall i | 0 <= i < |s.list| :: !s.list[i].sent
  }

  /** Completes all commands. With the keyer gone nothing a callback submits stays in the queue. */
  function Flush(s: Queue, r: Result, w: World): (s': Queue)
    requires !s.up && OnlyHeadSent(s)
    ensures s'.list == []
    decreases |s.list|
  {
    if s.list == [] then s
    else
      CallbackWhileDown(Pop(s).(done := s.done + [Completion(s.list[0].id, r)]), w.script(s.list[0].id), w);
      Flush(Complete(s, r, w), r, w)
  }

  function Disconnect(s: Queue, more: seq<Request>, w: World): Queue
    requires OnlyHeadSent(s)
  {
    var s1 := s.(up := false);
    SubmitsWhileDown(s1, more, w);
    Flush(SubmitAll(s1, more, w).(timer := false), Offline, w)
  }

  /** A deferred completion callback runs. */
  function RunDeferred(s: Queue, i: nat, w: World): Queue
    requires i < |s.deferred|
  {
    var c := s.deferred[i];
    SubmitAll(s.(deferred := s.deferred[..i] + s.deferred[i + 1..], late := s.late + [c]), w.script(c.id), w)
  }

  // ----- While the keyer is gone -----

  lemma {:induction false} PushWhileDown(s: Queue, w: World)
    requires !s.up && OnlyHeadSent(s)
    ensures var r := Push(s, w);
            && !r.up && OnlyHeadSent(r)
            && (if s.list != [] && s.list[0].sent then r == s else r.list == [])
    decreases |s.list|
  {
    if s.list != [] && !s.list[0].sent {
      PushWhileDown(Defer(Pop(s), s.list[0].id, Error), w);
    }
  }

  lemma {:induction false} SubmitsWhileDown(s: Queue, rs: seq<Request>, w: World)
    requires !s.up && OnlyHeadSent(s)
    ensures !SubmitAll(s, rs, w).up && OnlyHeadSent(SubmitAll(s, rs, w))
    decreases |rs|
  {
    if rs != [] {
      PushWhileDown(s.(next := s.next + 1, list := s.list + [Command(s.next, rs[0].first, false)]), w);
      SubmitsWhileDown(Submit(s, rs[0], w), rs[1..], w);
    }
  }

  lemma {:induction false} CallbackWhileDown(s: Queue, rs: seq<Request>, w: World)
    requires !s.up && NoneSent(s)
    ensures var r := SubmitAll(s, rs, w);
            !r.up && NoneSent(r) && |r.list| <= |s.list|
    decreases |rs|
  {
    if rs != [] {
      PushWhileDown(s.(next := s.next + 1, list := s.list + [Command(s.next, rs[0].first, false)]), w);
      CallbackWhileDown(Submit(s, rs[0], w), rs[1..], w);
    }
  }

  // ----- Events -----

  datatype Event =
    | Submits(r: Request)
    | Receives(first: nat, more: seq<Request>)
    | TimerFires
    | Disconnects(more: seq<Request>)
    | Connects(more: seq<Request>)
    | Idles(i: nat)

  function Step(s: Queue, e: Event, w: World): Queue
    requires OnlyHeadSent(s)
  {
    match e
    case Submits(r) => Submit(s, r, w)
    case Receives(first, more) => Receive(s, first, more, w)
    case TimerFires => if s.timer then TimeOut(s, w) else s
    case Disconnects(more) => Disconnect(s, more, w)
    case Connects(more) => SubmitAll(s.(up := true), more, w)
    case Idles(i) => if i < |s.deferred| then RunDeferred(s, i, w) else s
  }
}
