/** The command part of struct mh_control, updated in place; each operation is a step of module CommandQueue. */
module CommandControl {
  import Q = CommandQueue

  class CommandControl {
    var list: seq<Q.Command>
    var timer: bool
    var up: bool
    var next: nat
    var deferred: seq<Q.Completion>
    ghost var done: seq<Q.Completion>
    ghost var late: seq<Q.Completion>
    ghost var sentLog: seq<nat>
    ghost var left: seq<nat>
    var stray: bool

    ghost function Value(): Q.Queue
      reads this
    {
      Q.Queue(list, timer, up, next, deferred, done, late, sentLog, left, stray)
    }

    constructor ()
      ensures Value() == Q.CREATED
    {
      list, timer, up, next, deferred := [], false, false, 0, [];
      done, late, sentLog, left, stray := [], [], [], [], false;
    }

    method Defer(id: nat, r: Q.Result)
      modifies this`deferred
      ensures Value() == Q.Defer(old(Value()), id, r)
    {
      deferred := deferred + [Q.Completion(id, r)];
    }

    method RemoveHead() returns (c: Q.Command)
      requires list != []
      modifies this`list, this`left
      ensures c == old(list)[0] && Value() == Q.Pop(old(Value()))
    {
      c := list[0];
      left := left + [c.id];
      list := list[1..];
    }

    method PushCmds(w: Q.World)
      modifies this
      ensures Value() == Q.Push(old(Value()), w)
    {
      while list != []
        invariant Q.Push(Value(), w) == Q.Push(old(Value()), w)
        decreases |list|
      {
        var c := list[0];
        if c.sent {
          return;
        }
        if up && w.room(c.id) {
          timer := true;
          list := list[0 := c.(sent := true)];
          sentLog := sentLog + [c.id];
          return;
        }
        // It must not stay at the head.
        c := RemoveHead();
        Defer(c.id, Q.Error);
      }
    }

    method SubmitCmd(r: Q.Request, w: Q.World)
      modifies this
      ensures Value() == Q.Submit(old(Value()), r, w)
    {
      hide Q.Push;
      var id := next;
      next := next + 1;
      if r.first != Q.ARE_YOU_THERE && !r.connected {
        Defer(id, Q.Offline);
        return;
      }
      if r.len > Q.MAX_CMD_LEN {
        Defer(id, Q.Error);
        return;
      }
      if |list| > Q.MAX_QUEUE_SIZE {
        Defer(id, Q.Error);
        return;
      }
      list := list + [Q.Command(id, r.first, false)];
      PushCmds(w);
    }

    method SubmitAll(rs: seq<Q.Request>, w: Q.World)
      modifies this
      ensures Value() == Q.SubmitAll(old(Value()), rs, w)
    {
      hide Q.Submit;
      var i := 0;
      assert rs[0..] == rs;
      while i < |rs|
        invariant 0 <= i <= |rs|
        invariant Q.SubmitAll(Value(), rs[i..], w) == Q.SubmitAll(old(Value()), rs, w)
      {
        assert rs[i..][0] == rs[i] && rs[i..][1..] == rs[i + 1..];
        SubmitCmd(rs[i], w);
        i := i + 1;
      }
    }

    /** Takes the head out and runs its completion callback. */
    method CompleteHead(r: Q.Result, w: Q.World)
      requires list != []
      modifies this
      ensures Value() == Q.Complete(old(Value()), r, w)
    {
      hide Q.SubmitAll;
      var c := RemoveHead();
      done := done + [Q.Completion(c.id, r)];
      SubmitAll(w.script(c.id), w);
    }

    method ControlChannel(first: nat, more: seq<Q.Request>, w: Q.World)
      modifies this
      ensures Value() == Q.Receive(old(Value()), first, more, w)
    {
      hide Q.Complete, Q.Push, Q.SubmitAll;
      if list != [] && list[0].sent && first == list[0].first {
        timer := false;
        CompleteHead(Q.Ok, w);
      } else if list != [] && list[0].sent && first == Q.NOT_SUPPORTED {
        timer := false;
        CompleteHead(Q.NotSupported, w);
      }
      SubmitAll(more, w);
      PushCmds(w);
    }

    method CmdTimeout(w: Q.World)
      modifies this
      ensures Value() == Q.TimeOut(old(Value()), w)
    {
      hide Q.Complete, Q.Push;
      timer := false;
      if list != [] && list[0].sent {
        CompleteHead(Q.TimedOut, w);
        PushCmds(w);
        return;
      }
      stray := true;
    }

    method FlushCmds(r: Q.Result, w: Q.World)
      requires !up && Q.OnlyHeadSent(Value())
      modifies this
      ensures Value() == Q.Flush(old(Value()).(timer := false), r, w)
    {
      hide Q.SubmitAll;
      timer := false;
      ghost var s := Value();
      while list != []
        invariant !up && Q.OnlyHeadSent(Value())
        invariant Q.Flush(Value(), r, w) == Q.Flush(s, r, w)
        decreases |list|
      {
        ghost var id := list[0].id;
        Q.CallbackWhileDown(Q.Pop(Value()).(done := done + [Q.Completion(id, r)]), w.script(id), w);
        CompleteHead(r, w);
      }
    }

    /** The keyer got disconnected. */
    method Disconnected(more: seq<Q.Request>, w: Q.World)
      requires Q.OnlyHeadSent(Value())
      modifies this
      ensures Value() == Q.Disconnect(old(Value()), more, w)
    {
      hide Q.SubmitAll, Q.Flush;
      up := false;
      Q.SubmitsWhileDown(Value(), more, w);
      SubmitAll(more, w);
      FlushCmds(Q.Offline, w);
    }

    method HandleDeferred(i: nat, w: Q.World)
      requires i < |deferred|
      modifies this
      ensures Value() == Q.RunDeferred(old(Value()), i, w)
    {
      hide Q.SubmitAll;
      var c := deferred[i];
      deferred := deferred[..i] + deferred[i + 1..];
      late := late + [c];
      SubmitAll(w.script(c.id), w);
    }
  }
}
