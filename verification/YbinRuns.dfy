/** Properties of the Yaesu decoder over whole runs. */
module YbinRuns {
  import opened Cat
  import opened CatState
  import opened YbinTables
  import opened Ybin

  // ----- Radio bytes are conserved -----

  /** The radio bytes handed on so far, in order. */
  function Passed(log: seq<Frame>): seq<byte>
    decreases |log|
  {
    if log == [] then []
    else
      var f := log[|log| - 1];
      Passed(log[..|log| - 1]) + if f.dir == Radio then f.buf else []
  }

  lemma PassedSnoc(log: seq<Frame>, f: Frame)
    ensures Passed(log + [f]) == Passed(log) + if f.dir == Radio then f.buf else []
  {
    assert (log + [f])[..|log|] == log;
  }

  /** Everything the radio sent: passed on, or in the partial answer. */
  function Taken(y: Decoder): seq<byte> {
    Passed(y.log) + y.ans
  }

  lemma AnswerDoneConserves(y: Decoder, complete: bool, t: nat)
    requires y.pend != [] && (complete ==> Complete(y))
    ensures Taken(AnswerDone(y, complete, t)) == Taken(y)
  {
    hide ApplyAnswer;
    var p, a := y.pend[0], y.ans;
    if a != [] {
      var log := AnswerDone(y, complete, t).log;
      assert log == y.log + [log[|y.log|]];
      PassedSnoc(y.log, log[|y.log|]);
    }
  }

  lemma {:induction false} ExpireConserves(y: Decoder, t: nat)
    requires Valid(y)
    ensures Taken(PendExpire(y, t)) == Taken(y)
    decreases |y.pend|
  {
    hide AnswerDone;
    if y.pend != [] && !PendLive(y, y.pend[0], t) {
      if y.pend[0].got > 0 {
        AnswerDoneConserves(y, false, t);
        AnswerDoneKeeps(y, false, t);
        ExpireConserves(AnswerDone(y, false, t), t);
      } else {
        ExpireConserves(DropHead(y), t);
      }
    }
  }

  lemma {:induction false} GiveupConserves(y: Decoder, t: nat)
    requires Valid(y)
    ensures Taken(PendGiveup(y, t)) == Taken(y)
    decreases |y.pend|
  {
    if !(y.pend == [] || y.pend[0].got > 0 || y.pend[0].sent + GIVEUP_MS >= t) {
      GiveupConserves(DropHead(y), t);
    }
  }

  lemma QueueConserves(y: Decoder, i: source, c: command, t: nat)
    requires Valid(y)
    ensures Taken(Queue(y, i, c, t)) == Taken(y)
  {
    hide AnswerDone;
    if |y.pend| == PEND_MAX && y.pend[0].got > 0 {
      AnswerDoneConserves(if c[4] == 0x0e && HasPacing(y.model) then y.(pacing := c[3]) else y, false, t);
    }
  }

  lemma IssueConserves(y: Decoder, i: source, c: command, t: nat)
    requires Valid(y)
    ensures Taken(Issue(y, i, c, t)) == Taken(y)
  {
    hide Queue, PendExpire, PendGiveup;
    var y1 := AssumeVfoA(y, t);
    ExpireKeeps(y1, t);
    ExpireConserves(y1, t);
    GiveupKeeps(PendExpire(y1, t), t);
    GiveupConserves(PendExpire(y1, t), t);
    QueueConserves(PendGiveup(PendExpire(y1, t), t), i, c, t);
  }

  lemma RxExpireConserves(y: Decoder, i: source, t: nat)
    requires |y.rx| == RX_NUM
    ensures Taken(RxExpire(y, i, t)) == Taken(y)
  {
    if RxExpire(y, i, t) != y {
      PassedSnoc(y.log, RxExpire(y, i, t).log[|y.log|]);
    }
  }

  lemma HostByteConserves(y: Decoder, i: source, b: byte, t: nat)
    requires Valid(y)
    ensures Taken(HostByte(y, i, b, t)) == Taken(y)
  {
    hide ApplyCommand, Issue;
    var y1 := RxExpire(y, i, t);
    RxExpireConserves(y, i, t);
    var buf := y1.rx[i].buf + [b];
    if |buf| == CMD_LEN {
      var y2 := y1.(rx := y1.rx[i := Rx([], t)]);
      IssueConserves(y2, i, buf, t);
      var log := Issue(y2, i, buf, t).log;
      PassedSnoc(log, Command(y2, i, buf, t).log[|log|]);
    }
  }

  lemma ReceiveConserves(y: Decoder, b: byte, t: nat)
    requires Valid(y) && y.pend != []
    ensures Taken(Receive(y, b, t)) == Taken(y) + [b]
  {
    hide AnswerDone;
    var y1 := TakeByte(y, b, t);
    TakeByteKeeps(y, b, t);
    assert Taken(y1) == Taken(y) + [b];
    if y1.pend[0].got == y1.pend[0].len {
      AnswerDoneConserves(y1, true, t);
    } else if |y1.ans| == MAX_FRAME {
      PassedSnoc(y1.log, Receive(y, b, t).log[|y1.log|]);
    }
  }

  lemma RadioByteConserves(y: Decoder, b: byte, t: nat)
    requires Valid(y)
    ensures Taken(RadioByte(y, b, t)) == Taken(y) + [b]
  {
    hide Receive, PendExpire;
    var y1 := PendExpire(y, t);
    ExpireKeeps(y, t);
    ExpireConserves(y, t);
    if y1.pend == [] {
      PassedSnoc(y1.log, RadioByte(y, b, t).log[|y1.log|]);
    } else {
      ReceiveConserves(AssumeVfoA(y1, t), b, t);
    }
  }

  lemma {:induction false} DiscardConserves(y: Decoder, client: clientNo, n: nat)
    requires Valid(y) && n <= |y.pend|
    ensures Taken(DiscardFrom(y, client, n)) == Taken(y)
    decreases n
  {
    hide AnswerDone;
    if n > 0 {
      var p := y.pend[n - 1];
      if p.client != client || p.own {
        DiscardConserves(y, client, n - 1);
      } else if n == 1 {
        if p.got > 0 {
          AnswerDoneConserves(y, false, p.last);
        }
      } else {
        DiscardConserves(y.(pend := y.pend[..n - 1] + y.pend[n..]), client, n - 1);
      }
    }
  }

  lemma {:induction false} RxExpireAllConserves(y: Decoder, n: nat, t: nat)
    requires |y.rx| == RX_NUM && n <= RX_NUM
    ensures Taken(RxExpireAll(y, n, t)) == Taken(y)
    decreases n
  {
    if n > 0 {
      RxExpireAllConserves(y, n - 1, t);
      RxExpireConserves(RxExpireAll(y, n - 1, t), n - 1, t);
    }
  }

  lemma StepConserves(y: Decoder, e: Event)
    requires Valid(y)
    ensures Taken(Step(y, e)) == Taken(y) + if e.RadioEvent? then [e.b] else []
  {
    hide HostByte, RadioByte, DiscardFrom, RxExpireAll, PendExpire;
    match e {
      case HostEvent(i, b, t) => HostByteConserves(y, i, b, t);
      case RadioEvent(b, t) => RadioByteConserves(y, b, t);
      case DiscardEvent(client) =>
        if client != 0 {
          var y1 := y.(rx := y.rx[client - 1 := y.rx[client - 1].(buf := [])], hold := y.hold[client := 0]);
          DiscardConserves(y1, client, |y1.pend|);
        }
      case ExpireEvent(t) =>
        RxExpireAllKeeps(y, RX_NUM, t);
        RxExpireAllConserves(y, RX_NUM, t);
        ExpireConserves(RxExpireAll(y, RX_NUM, t), t);
    }
  }

  /** The bytes the radio sent during a run. */
  function Sent(es: seq<Event>): seq<byte> {
    if es == [] then [] else (if es[0].RadioEvent? then [es[0].b] else []) + Sent(es[1..])
  }

  lemma {:induction false} RunConserves(y: Decoder, es: seq<Event>)
    requires Valid(y)
    ensures Taken(Run(y, es)) == Taken(y) + Sent(es)
    decreases |es|
  {
    hide Step, Valid, Taken;
    if es != [] {
      StepConserves(y, es[0]);
      RunConserves(Step(y, es[0]), es[1..]);
    }
  }

  /**
   * In every run, whatever expires, is given up, evicted or discarded: the radio frames and the
   * partial answer are the bytes received, each once and in order, and the partial answer is the
   * part of the head's answer that no piece has reported yet.
   */
  lemma RadioBytesAreConserved(y: Decoder, es: seq<Event>)
    requires Valid(y) && y.log == [] && y.ans == []
    ensures var r := Run(y, es);
            && Passed(r.log) + r.ans == Sent(es)
            && |r.ans| == (if r.pend == [] then 0 else r.pend[0].got % MAX_FRAME)
            && forall i | 0 < i < |r.pend| :: r.pend[i].got == 0
  {
    hide Run;
    RunConserves(y, es);
  }
}
