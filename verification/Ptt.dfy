/** PTT ownership in the router of src/mhrouter.c, and the way of the flags bytes to the keyer. */
module Ptt {
  import B = Buffers

  type flags = bv8

  const PTT_R1: flags := 0x04
  const PTT_R2: flags := 0x08
  const PTT_FLAGS: flags := 0x0c
  const ON := 0x01
  const OFF := 0x00

  type Queue = b: B.Buf<flags> | b.Valid() witness B.Buf(0, [])

  datatype Channel = Ptt1 | Ptt2 | PttFocus | NoPtt

  /** mask: what the producer holds. */
  datatype Producer = Producer(fd: int, channel: Channel, mask: flags)

  /**
   * queue: bytes of the flags channel; out: those in frames that are not written completely;
   * begun: the first of these frames is written in part. keyer: the flags byte the keyer got
   * last since it was connected, 0 before the first.
   */
  datatype Router = Router(
    producers: seq<Producer>,
    wflag: flags,
    up: bool,
    focusR2: bool,
    hasFlags: bool,
    queue: Queue,
    out: seq<flags>,
    begun: bool,
    keyer: flags)

  function Created(hasFlags: bool): Router {
    Router([], 0, false, false, hasFlags, B.Empty(), [], false, 0)
  }

  function Share(p: Producer): flags {
    if p.channel == NoPtt then 0 else p.mask
  }

  function Union(a: flags, b: flags): flags {
    a | b
  }

  /** The bits all producers of the PTT channels hold together. */
  function Held(ps: seq<Producer>): flags {
    if ps == [] then 0 else Union(Held(ps[..|ps| - 1]), Share(ps[|ps| - 1]))
  }

  function PttOf(w: flags): flags {
    w & PTT_FLAGS
  }

  function RestOf(w: flags): flags {
    w & !PTT_FLAGS
  }

  /** The flags byte with its PTT bits replaced. */
  function Merged(w: flags, held: flags): flags {
    RestOf(w) | held
  }

  /** The keyer has a flags channel, and the channel has room for one more byte. */
  predicate Accepts(r: Router) {
    r.hasFlags && r.queue.Avail() > 0
  }

  /** A flags byte for the keyer; without room for it, it is lost. */
  function Queued(r: Router, w: flags): Router {
    if Accepts(r) then r.(queue := B.Buf(r.queue.rpos, r.queue.bytes + [w])) else r
  }

  function Push(r: Router): Router {
    var r1 := r.(wflag := Merged(r.wflag, Held(r.producers)));
    if r.up then Queued(r1, r1.wflag) else r1
  }

  /** The radio that PTT on of this channel keys. */
  function Keyed(r: Router, c: Channel): flags {
    if c == Ptt2 || (c == PttFocus && r.focusR2) then PTT_R2 else PTT_R1
  }

  /** What a producer holds after the bytes it sent; the last valid one counts. */
  function MaskAfter(mask: flags, on: flags, bytes: seq<int>): flags {
    if bytes == [] then mask
    else
      var b := bytes[|bytes| - 1];
      if b == ON then on else if b == OFF then 0 else MaskAfter(mask, on, bytes[..|bytes| - 1])
  }

  predicate AnyValid(bytes: seq<int>) {
    exists i | 0 <= i < |bytes| :: bytes[i] == ON || bytes[i] == OFF
  }

  /** Data of the i-th producer. Nothing is read for a keyer that is gone. */
  function Data(r: Router, i: nat, bytes: seq<int>): Router
    requires i < |r.producers|
  {
    var p := r.producers[i];
    if !r.up || p.channel == NoPtt || !AnyValid(bytes) then r
    else Push(r.(producers := r.producers[i := p.(mask := MaskAfter(p.mask, Keyed(r, p.channel), bytes))]))
  }

  function Add(r: Router, fd: int, c: Channel): Router {
    r.(producers := r.producers + [Producer(fd, c, 0)])
  }

  function Remove(r: Router, i: nat): Router
    requires i < |r.producers|
  {
    var r1 := r.(producers := r.producers[..i] + r.producers[i + 1..]);
    if r.producers[i].mask != 0 then Push(r1) else r1
  }

  function Released(ps: seq<Producer>): (q: seq<Producer>)
    ensures |q| == |ps|
  {
    seq(|ps|, i requires 0 <= i < |ps| => ps[i].(mask := 0))
  }

  /** Nobody holds anything any more. */
  function Dropped(r: Router): Router {
    r.(producers := Released(r.producers), wflag := RestOf(r.wflag))
  }

  /** The frames that a keyer which comes next understands: not one whose beginning it missed. */
  function Whole(r: Router): seq<flags> {
    if r.begun && r.out != [] then r.out[1..] else r.out
  }

  /** The keyer comes, goes, or is replaced by another one. What waits for it goes on waiting. */
  function SetKeyer(r: Router, up: bool, same: bool): Router {
    if same then r
    else
      var r1 := if r.up then Dropped(r) else r;
      r1.(up := up, out := Whole(r), begun := false, keyer := 0)
  }

  function Min(a: nat, b: nat): nat {
    if a < b then a else b
  }

  /** The next n flags bytes are packed into frames. */
  function Packed(r: Router, n: nat): Router {
    var k := Min(n, |r.queue.bytes|);
    r.(out := r.out + r.queue.bytes[..k], queue := B.Advance(r.queue, k))
  }

  /** k frames are written, and perhaps the beginning of another one. */
  function Written(r: Router, k: nat, more: bool): Router {
    var n := Min(k, |r.out|);
    r.(keyer := if n > 0 then r.out[n - 1] else r.keyer, out := r.out[n..],
       begun := n < |r.out| && (more || (n == 0 && r.begun)))
  }

  datatype Write = Wrote(frames: nat, more: bool) | Failed

  /** Data goes out to the keyer. */
  function WriteOut(r: Router, n: nat, w: Write): Router {
    if !r.up then r
    else
      match w
      case Wrote(k, more) => Written(Packed(r, n), k, more)
      case Failed => SetKeyer(Packed(r, n), false, false)
  }

  /** Data of a connector of the flags channel itself is passed on as it is, as much as there is room for. */
  function RawFlags(r: Router, bytes: seq<flags>): Router
  {
    if r.up && r.hasFlags then r.(queue := B.Append(r.queue, bytes)) else r
  }

  datatype Event =
    | DataFrom(i: nat, bytes: seq<int>)
    | Added(fd: int, c: Channel)
    | Removed(i: nat)
    | Keyer(up: bool)
    | Focus(r2: bool)
    | ToKeyer(n: nat, w: Write)
    | Raw(data: seq<flags>)

  function Step(r: Router, e: Event): Router
  {
    match e
    case DataFrom(i, bytes) => if i < |r.producers| then Data(r, i, bytes) else r
    case Added(fd, c) => Add(r, fd, c)
    case Removed(i) => if i < |r.producers| then Remove(r, i) else r
    case Keyer(up) => SetKeyer(r, up, !up && !r.up)
    case Focus(r2) => r.(focusR2 := r2)
    case ToKeyer(n, w) => WriteOut(r, n, w)
    case Raw(data) => RawFlags(r, data)
  }

  function Run(r: Router, es: seq<Event>): Router
    decreases |es|
  {
    if es == [] then r else Run(Step(r, es[0]), es[1..])
  }

  // ----- Who holds what -----

  /** The radios that a producer of this channel can hold. */
  predicate MayHold(c: Channel, m: flags) {
    || m == 0
    || (m == PTT_R1 && (c == Ptt1 || c == PttFocus))
    || (m == PTT_R2 && (c == Ptt2 || c == PttFocus))
  }

  predicate WellHeld(ps: seq<Producer>) {
    forall i | 0 <= i < |ps| :: MayHold(ps[i].channel, ps[i].mask)
  }

  predicate Inv(r: Router) {
    && WellHeld(r.producers)
    && PttOf(r.wflag) == Held(r.producers)
    && (!r.up ==> r.keyer == 0 && !r.begun && forall i | 0 <= i < |r.producers| :: r.producers[i].mask == 0)
  }

  lemma {:induction false} HeldConcat(a: seq<Producer>, b: seq<Producer>)
    ensures Held(a + b) == Union(Held(a), Held(b))
    decreases |b|
  {
    if b == [] {
      assert a + b == a;
    } else {
      assert (a + b)[..|a + b| - 1] == a + b[..|b| - 1];
      HeldConcat(a, b[..|b| - 1]);
    }
  }

  lemma HeldSnoc(ps: seq<Producer>, i: nat)
    requires i < |ps|
    ensures Held(ps[..i + 1]) == Union(Held(ps[..i]), Share(ps[i]))
  {
    assert ps[..i + 1][..i] == ps[..i];
  }

  lemma {:induction false} HeldIsPtt(ps: seq<Producer>)
    requires WellHeld(ps)
    ensures PttOf(Held(ps)) == Held(ps)
    ensures Held(ps) & PTT_R1 != 0 <==> exists i | 0 <= i < |ps| :: ps[i].channel != NoPtt && ps[i].mask == PTT_R1
    ensures Held(ps) & PTT_R2 != 0 <==> exists i | 0 <= i < |ps| :: ps[i].channel != NoPtt && ps[i].mask == PTT_R2
    decreases |ps|
  {
    if ps != [] {
      var n := |ps| - 1;
      HeldIsPtt(ps[..n]);
      assert MayHold(ps[n].channel, ps[n].mask);
      assert forall i | 0 <= i < n :: ps[..n][i] == ps[i];
    }
  }

  lemma {:induction false} NothingHeld(ps: seq<Producer>)
    requires forall i | 0 <= i < |ps| :: ps[i].mask == 0
    ensures Held(ps) == 0
    decreases |ps|
  {
    if ps != [] {
      NothingHeld(ps[..|ps| - 1]);
    }
  }

  lemma PushedBits(w: flags, h: flags)
    requires PttOf(h) == h
    ensures PttOf(Merged(w, h)) == h
    ensures RestOf(Merged(w, h)) == RestOf(w)
    ensures PttOf(RestOf(w)) == 0 && RestOf(RestOf(w)) == RestOf(w)
  {
  }

  lemma {:induction false} MaskIsHeld(c: Channel, mask: flags, on: flags, bytes: seq<int>)
    requires MayHold(c, mask) && MayHold(c, on)
    ensures MayHold(c, MaskAfter(mask, on, bytes))
    decreases |bytes|
  {
    if bytes != [] {
      MaskIsHeld(c, mask, on, bytes[..|bytes| - 1]);
    }
  }

  lemma PushKeeps(r: Router)
    requires WellHeld(r.producers) && r.up
    ensures Inv(Push(r)) && RestOf(Push(r).wflag) == RestOf(r.wflag)
  {
    hide Held, WellHeld, PttOf, RestOf, Merged;
    HeldIsPtt(r.producers);
    PushedBits(r.wflag, Held(r.producers));
    assert Push(r).queue.Valid() && Push(r).producers == r.producers;
    assert Push(r).wflag == Merged(r.wflag, Held(r.producers)) && Push(r).up;
    hide Push;
  }

  lemma StepKeeps(r: Router, e: Event)
    requires Inv(r)
    ensures Inv(Step(r, e))
    ensures RestOf(Step(r, e).wflag) == RestOf(r.wflag)
  {
    hide Inv, Held, Data, Remove, SetKeyer;
    match e {
      case DataFrom(i, bytes) => DataKeeps(r, i, bytes);
      case Added(fd, c) => AddKeeps(r, fd, c);
      case Removed(i) => RemoveKeeps(r, i);
      case Keyer(up) => KeyerKeeps(r, up);
      case Focus(r2) => FocusKeeps(r, r2);
      case ToKeyer(n, w) => OutKeeps(r, n, w);
      case Raw(data) => RawKeeps(r, data);
    }
  }

  lemma OutKeeps(r: Router, n: nat, w: Write)
    requires Inv(r)
    ensures var r' := Step(r, ToKeyer(n, w));
            Inv(r') && RestOf(r'.wflag) == RestOf(r.wflag)
  {
    if r.up && w.Failed? {
      KeyerKeeps(Packed(r, n), false);
    }
    hide Held, WellHeld;
  }

  lemma RawKeeps(r: Router, bytes: seq<flags>)
    requires Inv(r)
    ensures Inv(Step(r, Raw(bytes)))
  {
    hide Held, WellHeld;
  }

  lemma FocusKeeps(r: Router, r2: bool)
    requires Inv(r)
    ensures Inv(r.(focusR2 := r2))
  {
    hide Held;
  }

  lemma AddKeeps(r: Router, fd: int, c: Channel)
    requires Inv(r)
    ensures Inv(Add(r, fd, c))
  {
    HeldConcat(r.producers, [Producer(fd, c, 0)]);
    NothingHeld([Producer(fd, c, 0)]);
    hide Held;
  }

  lemma DataKeeps(r: Router, i: nat, bytes: seq<int>)
    requires Inv(r)
    ensures var r' := Step(r, DataFrom(i, bytes));
            Inv(r') && RestOf(r'.wflag) == RestOf(r.wflag)
  {
    if i < |r.producers| && r.up && r.producers[i].channel != NoPtt {
      var p := r.producers[i];
      MaskIsHeld(p.channel, p.mask, Keyed(r, p.channel), bytes);
      hide Held, MaskAfter;
      PushKeeps(r.(producers := r.producers[i := p.(mask := MaskAfter(p.mask, Keyed(r, p.channel), bytes))]));
    }
  }

  lemma OthersAreWell(ps: seq<Producer>, i: nat)
    requires i < |ps|
    requires WellHeld(ps)
    ensures WellHeld(ps[..i] + ps[i + 1..])
  {
    hide MayHold;
  }

  /** A producer that holds nothing is not missed. */
  lemma IdleIsNotMissed(ps: seq<Producer>, i: nat)
    requires i < |ps| && ps[i].mask == 0
    ensures Held(ps[..i] + ps[i + 1..]) == Held(ps)
  {
    var a, p, b := ps[..i], ps[i], ps[i + 1..];
    assert ps == a + [p] + b;
    HeldConcat(a + [p], b);
    HeldConcat(a, [p]);
    HeldConcat(a, b);
    NothingHeld([p]);
    hide Held;
  }

  lemma OthersStay(r: Router, i: nat)
    requires Inv(r)
    ensures i < |r.producers| ==> WellHeld(r.producers[..i] + r.producers[i + 1..])
    ensures !r.up ==> forall k | 0 <= k < |r.producers| :: r.producers[k].mask == 0
    ensures !r.up && i < |r.producers| ==> r.producers[i].mask == 0
  {
    hide Held, WellHeld;
    if i < |r.producers| {
      OthersAreWell(r.producers, i);
    }
  }

  lemma RemoveKeeps(r: Router, i: nat)
    requires Inv(r)
    ensures var r' := Step(r, Removed(i));
            Inv(r') && RestOf(r'.wflag) == RestOf(r.wflag)
  {
    OthersStay(r, i);
    hide Held, Push, WellHeld, MayHold;
    if i < |r.producers| {
      if r.producers[i].mask != 0 {
        PushKeeps(r.(producers := r.producers[..i] + r.producers[i + 1..]));
      } else {
        IdleIsNotMissed(r.producers, i);
      }
    }
  }

  lemma NothingIsHeld(r: Router)
    ensures var d := Dropped(r);
            && WellHeld(d.producers) && Held(d.producers) == 0
            && (forall i | 0 <= i < |d.producers| :: d.producers[i].mask == 0)
            && PttOf(d.wflag) == 0 && RestOf(d.wflag) == RestOf(r.wflag)
  {
    NothingHeld(Released(r.producers));
    PushedBits(r.wflag, 0);
    hide Held;
  }

  lemma KeyerKeeps(r: Router, up: bool)
    requires Inv(r)
    ensures var r' := Step(r, Keyer(up));
            Inv(r') && RestOf(r'.wflag) == RestOf(r.wflag)
  {
    NothingIsHeld(r);
    hide Dropped, Held, WellHeld;
  }

  lemma {:induction false} RunKeeps(r: Router, es: seq<Event>)
    requires Inv(r)
    ensures Inv(Run(r, es)) && RestOf(Run(r, es).wflag) == RestOf(r.wflag)
    decreases |es|
  {
    hide Inv, Step;
    if es != [] {
      StepKeeps(r, es[0]);
      RunKeeps(Step(r, es[0]), es[1..]);
    }
  }

  /**
   * Over any run: a PTT bit of the flags byte is set if and only if some producer holds that
   * radio, each producer holds at most one radio and that one of its channel, no other bit of the
   * flags byte was touched, and with the keyer gone nobody holds anything.
   */
  lemma PttIsTheUnionOfHolders(hasFlags: bool, es: seq<Event>)
    ensures var r := Run(Created(hasFlags), es);
            && (r.wflag & PTT_R1 != 0 <==>
                exists i | 0 <= i < |r.producers| :: r.producers[i].channel != NoPtt && r.producers[i].mask == PTT_R1)
            && (r.wflag & PTT_R2 != 0 <==>
                exists i | 0 <= i < |r.producers| :: r.producers[i].channel != NoPtt && r.producers[i].mask == PTT_R2)
            && RestOf(r.wflag) == 0
            && (!r.up ==> r.wflag == 0 && forall i | 0 <= i < |r.producers| :: r.producers[i].mask == 0)
            && forall i | 0 <= i < |r.producers| :: MayHold(r.producers[i].channel, r.producers[i].mask)
  {
    hide Run;
    RunKeeps(Created(hasFlags), es);
    var r := Run(Created(hasFlags), es);
    HeldIsPtt(r.producers);
    if !r.up {
      NothingHeld(r.producers);
    }
    BitsOf(r.wflag);
  }

  lemma BitsOf(w: flags)
    ensures w & PTT_R1 == PttOf(w) & PTT_R1 && w & PTT_R2 == PttOf(w) & PTT_R2
    ensures PttOf(w) == 0 && RestOf(w) == 0 ==> w == 0
  {
  }

  lemma FlagsAreHeld(r: Router, i: nat)
    requires Inv(r)
    ensures PttOf(r.wflag) == Held(r.producers)
    ensures i < |r.producers| ==> Share(r.producers[i]) == r.producers[i].mask
  {
    hide Held, PttOf;
  }

  /** Removing a producer releases a radio exactly if nobody else holds it. */
  lemma RemovalReleasesItsShare(r: Router, i: nat)
    requires Inv(r) && i < |r.producers|
    ensures var r' := Remove(r, i);
            && r'.producers == r.producers[..i] + r.producers[i + 1..]
            && PttOf(r'.wflag) == Union(Held(r.producers[..i]), Held(r.producers[i + 1..]))
            && PttOf(r.wflag) == Union(PttOf(r'.wflag), r.producers[i].mask)
  {
    hide Inv, Held, Merged, Union, PttOf, RestOf, MayHold, Accepts;
    RemoveKeeps(r, i);
    HeldAround(r.producers, i);
    FlagsAreHeld(r, i);
    FlagsAreHeld(Remove(r, i), 0);
  }

  /** What all hold is what the others hold, and the share of one. */
  lemma HeldAround(ps: seq<Producer>, i: nat)
    requires i < |ps|
    ensures Held(ps[..i] + ps[i + 1..]) == Union(Held(ps[..i]), Held(ps[i + 1..]))
    ensures Held(ps) == Union(Union(Held(ps[..i]), Held(ps[i + 1..])), Share(ps[i]))
  {
    hide Held, Union;
    var a, p, b := ps[..i], ps[i], ps[i + 1..];
    assert ps == a + [p] + b;
    HeldConcat(a + [p], b);
    HeldConcat(a, [p]);
    HeldConcat(a, b);
    InAnyOrder(Held(a), Held([p]), Held(b));
    HeldOne(p);
  }

  lemma HeldOne(p: Producer)
    ensures Held([p]) == Share(p)
  {
    assert [p][..0] == [];
    Alone(Share(p));
  }

  lemma InAnyOrder(a: flags, p: flags, b: flags)
    ensures Union(Union(a, p), b) == Union(Union(a, b), p)
  {
  }

  lemma Alone(a: flags)
    ensures Union(0, a) == a && Union(a, 0) == a
  {
  }

  /**
   * The last byte decides, whatever came before and whatever the focus did meanwhile: off leaves
   * the producer holding nothing, on leaves it holding its channel's radio, or the one that has
   * the focus now, and nothing else; all other producers hold what they held.
   */
  lemma LastByteDecides(r: Router, i: nat, bytes: seq<int>, b: int)
    requires r.up && i < |r.producers| && r.producers[i].channel != NoPtt && (b == ON || b == OFF)
    ensures var after := Data(r, i, bytes + [b]).producers;
            && |after| == |r.producers|
            && after[i].mask == (if b == OFF then 0
                                 else match r.producers[i].channel
                                      case Ptt1 => PTT_R1
                                      case Ptt2 => PTT_R2
                                      case _ => if r.focusR2 then PTT_R2 else PTT_R1)
            && forall k | 0 <= k < |after| && k != i :: after[k] == r.producers[k]
  {
    assert (bytes + [b])[|bytes|] == b;
    hide Held;
  }

  // ----- What the keyer has -----

  /** The flags byte that the keyer has, and those on their way to it, in order. */
  function InOrder(r: Router): (s: seq<flags>)
    ensures s != []
  {
    [r.keyer] + r.out + r.queue.bytes
  }

  /** What the keyer has once nothing waits any more. */
  function Latest(r: Router): flags {
    InOrder(r)[|InOrder(r)| - 1]
  }

  /** Nothing waits for the keyer. */
  predicate Drained(r: Router) {
    r.out == [] && r.queue.bytes == []
  }

  /** A keyer that is there has, once nothing waits, the PTT bits that the producers hold. */
  predicate Agrees(r: Router) {
    r.up ==> PttOf(Latest(r)) == Held(r.producers)
  }

  /** The bytes that a keyer which comes now gets first. */
  function LeftFor(r: Router): seq<flags> {
    Whole(r) + r.queue.bytes
  }

  /** The producers after the event hold something else, and the flags byte for it finds no room. */
  predicate Refused(r: Router, ps: seq<Producer>) {
    r.up && !Accepts(r) && Held(ps) != Held(r.producers)
  }

  /** What the flags channel takes of some bytes ends with other PTT bits than the producers hold. */
  predicate Meddles(r: Router, bytes: seq<flags>)
  {
    var taken := B.Accepted(r.queue, bytes);
    r.up && r.hasFlags && taken != [] && PttOf(taken[|taken| - 1]) != Held(r.producers)
  }

  /**
   * The events that part the keyer from the producers: a change without room for its flags byte,
   * a keyer that comes while a flags byte with a PTT bit still waits, and a connector that
   * writes other flags itself.
   */
  predicate Parts(r: Router, e: Event)
  {
    match e
    case DataFrom(i, bytes) => i < |r.producers| && Refused(r, Data(r, i, bytes).producers)
    case Removed(i) => i < |r.producers| && Refused(r, Remove(r, i).producers)
    case Keyer(up) => up && LeftFor(r) != [] && PttOf(LeftFor(r)[|LeftFor(r)| - 1]) != 0
    case Raw(data) => Meddles(r, data)
    case _ => false
  }

  lemma PushAgrees(r: Router)
    requires r.up && WellHeld(r.producers)
    ensures Latest(Push(r)) == if Accepts(r) then Merged(r.wflag, Held(r.producers)) else Latest(r)
    ensures PttOf(Merged(r.wflag, Held(r.producers))) == Held(r.producers)
  {
    HeldIsPtt(r.producers);
    PushedBits(r.wflag, Held(r.producers));
    hide Held, WellHeld, Merged;
  }

  lemma DataParts(r: Router, i: nat, bytes: seq<int>)
    requires Inv(r) && Agrees(r) && i < |r.producers|
    ensures Agrees(Data(r, i, bytes)) <==> !Refused(r, Data(r, i, bytes).producers)
  {
    var p := r.producers[i];
    if r.up && p.channel != NoPtt && AnyValid(bytes) {
      var r1 := r.(producers := r.producers[i := p.(mask := MaskAfter(p.mask, Keyed(r, p.channel), bytes))]);
      MaskIsHeld(p.channel, p.mask, Keyed(r, p.channel), bytes);
      hide Held, MaskAfter, Latest, AnyValid, Keyed, Merged;
      PushAgrees(r1);
    }
  }

  lemma RemovalParts(r: Router, i: nat)
    requires Inv(r) && Agrees(r) && i < |r.producers|
    ensures Agrees(Remove(r, i)) <==> !Refused(r, Remove(r, i).producers)
  {
    OthersAreWell(r.producers, i);
    hide Held, Latest, Merged, WellHeld;
    var r1 := r.(producers := r.producers[..i] + r.producers[i + 1..]);
    if r.producers[i].mask != 0 {
      assert r.up;
      PushAgrees(r1);
    } else {
      IdleIsNotMissed(r.producers, i);
      assert Latest(r1) == Latest(r);
    }
  }

  lemma KeyerParts(r: Router, up: bool)
    requires Inv(r) && Agrees(r)
    ensures Agrees(Step(r, Keyer(up))) <==> !Parts(r, Keyer(up))
  {
    hide Held, PttOf, RestOf, WellHeld;
    if up {
      NothingIsLeft(r);
      var r' := Step(r, Keyer(up));
      assert InOrder(r') == [0] + LeftFor(r);
      ZeroHoldsNothing();
    }
  }

  lemma ZeroHoldsNothing()
    ensures PttOf(0) == 0
  {
  }

  lemma NothingIsLeft(r: Router)
    requires Inv(r)
    ensures Held(SetKeyer(r, true, false).producers) == 0
  {
    NothingIsHeld(r);
    if !r.up {
      NothingHeld(r.producers);
    }
    hide Dropped, Held;
  }

  /** Packing moves no byte out of order. */
  lemma PackedInOrder(r: Router, n: nat)
    ensures InOrder(Packed(r, n)) == InOrder(r)
  {
    var k := Min(n, |r.queue.bytes|);
    assert r.queue.bytes == r.queue.bytes[..k] + Packed(r, n).queue.bytes;
  }

  /** Writing takes the oldest ones. */
  lemma WrittenInOrder(r: Router, k: nat, more: bool)
    ensures InOrder(Written(r, k, more)) == InOrder(r)[Min(k, |r.out|)..]
  {
  }

  lemma OutAgrees(r: Router, n: nat, w: Write)
    requires r.up && w.Wrote?
    ensures Latest(WriteOut(r, n, w)) == Latest(r)
  {
    PackedInOrder(r, n);
    WrittenInOrder(Packed(r, n), w.frames, w.more);
    assert Min(w.frames, |Packed(r, n).out|) < |InOrder(r)|;
    hide InOrder, Packed, Written;
  }

  lemma RawParts(r: Router, bytes: seq<flags>)
    requires Inv(r) && Agrees(r)
    ensures Agrees(RawFlags(r, bytes)) <==> !Meddles(r, bytes)
  {
    hide Held, WellHeld;
    var taken := B.Accepted(r.queue, bytes);
    if r.up && r.hasFlags {
      assert InOrder(RawFlags(r, bytes)) == InOrder(r) + taken;
    }
  }

  lemma AddAgrees(r: Router, fd: int, c: Channel)
    ensures Agrees(Add(r, fd, c)) == Agrees(r)
  {
    HeldConcat(r.producers, [Producer(fd, c, 0)]);
    NothingHeld([Producer(fd, c, 0)]);
    hide Held;
  }

  /** Exactly these events part them. */
  lemma StepParts(r: Router, e: Event)
    requires Inv(r) && Agrees(r)
    ensures Agrees(Step(r, e)) <==> !Parts(r, e)
  {
    hide Inv, Held, Data, Remove, SetKeyer, RawFlags, Refused, Meddles, LeftFor, Latest;
    match e {
      case DataFrom(i, bytes) =>
        if i < |r.producers| {
          DataParts(r, i, bytes);
        }
      case Added(fd, c) => AddAgrees(r, fd, c);
      case Removed(i) =>
        if i < |r.producers| {
          RemovalParts(r, i);
        }
      case Keyer(up) => KeyerParts(r, up);
      case Focus(r2) => FocusAgrees(r, r2);
      case ToKeyer(n, w) => OutParts(r, n, w);
      case Raw(data) => RawParts(r, data);
    }
  }

  lemma FocusAgrees(r: Router, r2: bool)
    ensures Agrees(r.(focusR2 := r2)) == Agrees(r)
  {
    hide Held;
  }

  lemma OutParts(r: Router, n: nat, w: Write)
    requires Agrees(r)
    ensures Agrees(WriteOut(r, n, w))
  {
    hide Held, Latest;
    if r.up && w.Wrote? {
      OutAgrees(r, n, w);
    }
  }

  predicate AlwaysAgrees(r: Router, es: seq<Event>)
    decreases |es|
  {
    Agrees(r) && (es != [] ==> AlwaysAgrees(Step(r, es[0]), es[1..]))
  }

  predicate NeverParted(r: Router, es: seq<Event>)
    decreases |es|
  {
    es != [] ==> !Parts(r, es[0]) && NeverParted(Step(r, es[0]), es[1..])
  }

  lemma {:induction false} RunParts(r: Router, es: seq<Event>)
    requires Inv(r) && Agrees(r)
    ensures AlwaysAgrees(r, es) <==> NeverParted(r, es)
    ensures NeverParted(r, es) ==> Agrees(Run(r, es))
    decreases |es|
  {
    if es != [] {
      StepParts(r, es[0]);
      StepKeeps(r, es[0]);
      hide Inv, Step, Agrees, Parts;
      if !Parts(r, es[0]) {
        RunParts(Step(r, es[0]), es[1..]);
      } else {
        NotAgreeing(Step(r, es[0]), es[1..]);
      }
    }
  }

  lemma NotAgreeing(r: Router, es: seq<Event>)
    requires !Agrees(r)
    ensures !AlwaysAgrees(r, es)
  {
  }

  /**
   * Over any run: a keyer that is there has, once nothing waits for it, the PTT bits that the
   * producers hold, all along the run, if and only if no event parts them.
   */
  lemma KeyerFollowsHolders(hasFlags: bool, es: seq<Event>)
    ensures AlwaysAgrees(Created(hasFlags), es) <==> NeverParted(Created(hasFlags), es)
    ensures var r := Run(Created(hasFlags), es);
            NeverParted(Created(hasFlags), es) && r.up && Drained(r) ==> PttOf(r.keyer) == PttOf(r.wflag)
  {
    var c := Created(hasFlags);
    RunParts(c, es);
    RunKeeps(c, es);
    hide Run, Held, AlwaysAgrees, NeverParted, WellHeld;
  }

  /** The keyer writes only. */
  predicate OnlyWrites(es: seq<Event>) {
    forall i | 0 <= i < |es| :: es[i].ToKeyer? && es[i].w.Wrote?
  }

  /** However the bytes are packed and written, the latest one is what the keyer has in the end. */
  lemma {:induction false} LatestArrives(r: Router, es: seq<Event>)
    requires Inv(r) && r.up && OnlyWrites(es)
    ensures var r' := Run(r, es);
            && r'.up && r'.producers == r.producers && Latest(r') == Latest(r)
            && (Drained(r') ==> r'.keyer == Latest(r))
    decreases |es|
  {
    if es != [] {
      assert es[0].ToKeyer? && es[0].w.Wrote?;
      OutAgrees(r, es[0].n, es[0].w);
      StepKeeps(r, es[0]);
      hide Inv, Latest;
      LatestArrives(Step(r, es[0]), es[1..]);
    }
  }

  /** A client that repeats its state brings them together again, if there is room for the byte. */
  lemma RepeatedStateResyncs(r: Router, i: nat, bytes: seq<int>)
    requires Inv(r) && i < |r.producers| && r.producers[i].channel != NoPtt && AnyValid(bytes) && Accepts(r)
    ensures Agrees(Data(r, i, bytes))
  {
    var p := r.producers[i];
    if r.up {
      var r1 := r.(producers := r.producers[i := p.(mask := MaskAfter(p.mask, Keyed(r, p.channel), bytes))]);
      MaskIsHeld(p.channel, p.mask, Keyed(r, p.channel), bytes);
      hide Held, MaskAfter, Latest, AnyValid, Keyed, Merged;
      PushAgrees(r1);
    }
  }

  /** PTT on is queued, the keyer goes before it is written, and comes back. */
  const OLD_BYTE: seq<Event> := [
    Added(1, Ptt1), Keyer(true), DataFrom(0, [ON]), ToKeyer(1, Failed), Keyer(true), ToKeyer(0, Wrote(1, false))]

  /** Then it keys a radio that nobody holds. */
  lemma OldByteKeysARadio()
    ensures var r := Run(Created(true), OLD_BYTE);
            && r.up && Drained(r) && r.keyer == PTT_R1
            && r.wflag == 0 && forall i | 0 <= i < |r.producers| :: r.producers[i].mask == 0
  {
    var r0 := Add(Created(true), 1, Ptt1);
    var r1 := SetKeyer(r0, true, false);
    var r2 := Data(r1, 0, [ON]);
    assert AnyValid([ON]) by {
      assert [ON][0] == ON;
    }
    assert MaskAfter(0, PTT_R1, [ON]) == PTT_R1;
    assert Held([Producer(1, Ptt1, PTT_R1)]) == PTT_R1 by {
      HeldSnoc([Producer(1, Ptt1, PTT_R1)], 0);
    }
    assert r2.queue.bytes == [PTT_R1] && r2.producers == [Producer(1, Ptt1, PTT_R1)];
    var r3 := WriteOut(r2, 1, Failed);
    assert r3.out == [PTT_R1];
    var r4 := SetKeyer(r3, true, false);
    var r5 := WriteOut(r4, 0, Wrote(1, false));
    assert Run(Created(true), OLD_BYTE) == r5 by {
      hide Data, SetKeyer, WriteOut, Held;
      assert OLD_BYTE[1..][1..][1..][1..][1..][1..] == [];
      SixSteps(Created(true), OLD_BYTE);
    }
  }

  lemma SixSteps(r: Router, es: seq<Event>)
    requires |es| == 6
    ensures Run(r, es) == Step(Step(Step(Step(Step(Step(r, es[0]), es[1]), es[2]), es[3]), es[4]), es[5])
  {
    hide Step;
    assert es[5..][1..] == [];
    assert es[4..][1..] == es[5..] && es[3..][1..] == es[4..] && es[2..][1..] == es[3..] && es[1..][1..] == es[2..];
    var r1 := Step(r, es[0]);
    var r2 := Step(r1, es[1]);
    var r3 := Step(r2, es[2]);
    var r4 := Step(r3, es[3]);
    var r5 := Step(r4, es[4]);
    assert Run(Step(r5, es[5]), []) == Step(r5, es[5]);
    assert Run(r5, es[5..]) == Step(r5, es[5]);
    assert Run(r4, es[4..]) == Run(r5, es[5..]);
    assert Run(r3, es[3..]) == Run(r4, es[4..]);
    assert Run(r2, es[2..]) == Run(r3, es[3..]);
    assert Run(r1, es[1..]) == Run(r2, es[2..]);
  }

  // ----- In place -----

  /** The router's producers, the flags byte, and its way to the keyer. */
  class PttRouter {
    const hasFlags: bool
    var producers: seq<Producer>
    var wflag: flags
    var up: bool
    var focusR2: bool
    var queue: Queue
    var out: seq<flags>
    var begun: bool
    ghost var keyer: flags

    ghost function Value(): Router
      reads this
    {
      Router(producers, wflag, up, focusR2, hasFlags, queue, out, begun, keyer)
    }

    constructor (hasFlags: bool)
      ensures Value() == Created(hasFlags)
    {
      this.hasFlags := hasFlags;
      producers, wflag, up, focusR2 := [], 0, false, false;
      queue, out, begun, keyer := B.Empty(), [], false, 0;
    }

    method HeldBits() returns (held: flags)
      ensures held == Held(producers)
    {
      held := 0;
      for i := 0 to |producers|
        invariant held == Held(producers[..i])
      {
        HeldSnoc(producers, i);
        hide Held;
        if producers[i].channel != NoPtt {
          held := held | producers[i].mask;
        } else {
          Alone(held);
        }
      }
      assert producers[..|producers|] == producers;
    }

    method SendIn(w: flags) returns (ok: bool)
      modifies this
      ensures ok == (up && Accepts(old(Value())))
      ensures Value() == if ok then Queued(old(Value()), w) else old(Value())
    {
      if !hasFlags || !up || queue.Avail() < 1 {
        return false;
      }
      queue := B.Buf(queue.rpos, queue.bytes + [w]);
      return true;
    }

    method PushPtt()
      modifies this
      ensures Value() == Push(old(Value()))
    {
      var held := HeldBits();
      hide Held, Merged;
      wflag := Merged(wflag, held);
      if up {
        var _ := SendIn(wflag);
      }
    }

    /** The radio that the channel keys now. */
    method PttMask(c: Channel) returns (mask: flags)
      requires c != NoPtt
      ensures mask == Keyed(Value(), c)
    {
      match c {
        case Ptt1 => return PTT_R1;
        case Ptt2 => return PTT_R2;
        case PttFocus => return if focusR2 then PTT_R2 else PTT_R1;
      }
    }

    method ProcessPtt(i: nat, bytes: seq<int>)
      requires i < |producers|
      modifies this
      ensures Value() == Data(old(Value()), i, bytes)
    {
      var p := producers[i];
      if !up || p.channel == NoPtt {
        return;
      }
      ghost var was := producers;
      ghost var on := Keyed(Value(), p.channel);
      NoneValid(p.mask, on, bytes);
      NoByte(p.mask, on, bytes);
      hide AnyValid, MaskAfter, Push, Keyed;
      var push := false;
      for k := 0 to |bytes|
        invariant push <==> AnyValid(bytes[..k])
        invariant |producers| == |was| && producers == was[i := producers[i]]
        invariant producers[i] == p.(mask := MaskAfter(p.mask, on, bytes[..k]))
        invariant Value() == old(Value()).(producers := producers) && up
      {
        OneMoreByte(p.mask, on, bytes, k);
        if bytes[k] == ON || bytes[k] == OFF {
          var mask := PttMask(p.channel);
          producers := producers[i := p.(mask := if bytes[k] == ON then mask else 0)];
          push := true;
        }
      }
      assert bytes[..|bytes|] == bytes;
      if push {
        PushPtt();
      } else {
        assert producers == was;
      }
    }

    method RemoveProducer(i: nat)
      requires i < |producers|
      modifies this
      ensures Value() == Remove(old(Value()), i)
    {
      var held := producers[i].mask;
      producers := producers[..i] + producers[i + 1..];
      // It still keyed a radio.
      if held != 0 {
        PushPtt();
      }
    }

    method DropPtt()
      modifies `producers, `wflag
      ensures Value() == Dropped(old(Value()))
    {
      for i := 0 to |producers|
        invariant |producers| == |old(producers)|
        invariant forall k | 0 <= k < |producers| ::
          producers[k] == if k < i then old(producers)[k].(mask := 0) else old(producers)[k]
        invariant wflag == old(wflag)
      {
        producers := producers[i := producers[i].(mask := 0)];
      }
      wflag := RestOf(wflag);
    }

    method SetKeyerFd(isUp: bool, same: bool)
      modifies this
      ensures Value() == SetKeyer(old(Value()), isUp, same)
    {
      hide Dropped;
      if same {
        return;
      }
      if up {
        DropPtt();
      }
      up := isUp;
      // The next keyer does not understand the rest of a frame.
      if begun && out != [] {
        out := out[1..];
      }
      begun, keyer := false, 0;
    }

    method Pack(n: nat)
      modifies `out, `queue
      ensures Value() == Packed(old(Value()), n)
    {
      var k := Min(n, |queue.bytes|);
      out, queue := out + queue.bytes[..k], B.Advance(queue, k);
    }

    method Consume(k: nat, more: bool)
      modifies `out, `begun, `keyer
      ensures Value() == Written(old(Value()), k, more)
    {
      var m := Min(k, |out|);
      if m > 0 {
        keyer := out[m - 1];
      }
      begun := m < |out| && (more || (m == 0 && begun));
      out := out[m..];
    }

    /** n flags bytes are packed into frames, and data is written. */
    method KeyerOut(n: nat, w: Write)
      modifies this
      ensures Value() == WriteOut(old(Value()), n, w)
    {
      hide Packed, Written, SetKeyer;
      if !up {
        return;
      }
      Pack(n);
      match w {
        case Wrote(k, more) => Consume(k, more);
        case Failed => SetKeyerFd(false, false);
      }
    }
  }

  lemma NoByte(mask: flags, on: flags, bytes: seq<int>)
    ensures MaskAfter(mask, on, bytes[..0]) == mask && !AnyValid(bytes[..0])
  {
  }

  lemma OneMoreByte(mask: flags, on: flags, bytes: seq<int>, k: nat)
    requires k < |bytes|
    ensures var valid := bytes[k] == ON || bytes[k] == OFF;
            && (AnyValid(bytes[..k + 1]) <==> AnyValid(bytes[..k]) || valid)
            && MaskAfter(mask, on, bytes[..k + 1])
                 == if !valid then MaskAfter(mask, on, bytes[..k]) else if bytes[k] == ON then on else 0
  {
    assert bytes[..k + 1][..k] == bytes[..k];
    assert bytes[..k + 1][k] == bytes[k];
    assert forall j | 0 <= j < k :: bytes[..k + 1][j] == bytes[..k][j];
  }

  lemma {:induction false} NoneValid(mask: flags, on: flags, bytes: seq<int>)
    ensures !AnyValid(bytes) ==> MaskAfter(mask, on, bytes) == mask
    decreases |bytes|
  {
    if bytes != [] && !AnyValid(bytes) {
      var n := |bytes| - 1;
      assert bytes[n] != ON && bytes[n] != OFF;
      assert forall i | 0 <= i < n :: bytes[..n][i] == bytes[i];
      NoneValid(mask, on, bytes[..n]);
    }
  }
}
