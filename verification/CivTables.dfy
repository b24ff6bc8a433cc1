/** CI-V frame fields and the state updates they carry, src/cat_civ.c. */
module CivTables {
  import opened Cat
  import opened CatState
  import opened PackedBcd
  import opened CivFramer
  import opened Wrappers

  const OK: byte := 0xfb
  const NG: byte := 0xfa
  const BCAST: byte := 0x00

  /** Preamble, both addresses, command, data, end. */
  type frame = f: seq<byte> | IsFrame(f) witness [PRE, PRE, 0, 0, 0, EOM]

  function To(f: frame): byte { f[2] }

  function From(f: frame): byte { f[3] }

  function CmdOf(f: frame): byte { f[4] }

  function Data(f: frame): seq<byte> { f[5..|f| - 1] }

  /** Frequency in Hz, least significant digits first; it must fit 32 bits. */
  function DecFreq(freqLen: nat, p: seq<byte>): (hz: Option<nat>)
    ensures hz.Some? ==> 0 < hz.value < 0x1_0000_0000
  {
    if |p| != freqLen then None
    else
      var v := Bcd(Reverse(p));
      if v.None? || v.value == 0 || v.value >= 0x1_0000_0000 then None else v
  }

  function DecMode(b: byte): Option<Mode> {
    match b
    case 0x00 => Some(LSB)
    case 0x01 => Some(USB)
    case 0x02 => Some(AM)
    case 0x03 => Some(CW)
    case 0x04 => Some(RTTY)
    case 0x05 => Some(FM)
    case 0x06 => Some(WFM)
    case 0x07 => Some(CWR)
    case 0x08 => Some(RTTYR)
    case _ =>
      if b == 0x11 || b == 0x14 || b == 0x15 then Some(AMS)
      else if b == 0x12 then Some(PSK)
      else if b == 0x13 then Some(PSKR)
      else if 0x16 <= b <= 0x19 || 0x20 <= b <= 0x23 then Some(OtherMode)
      else None
  }

  function ApplyFreq(freqLen: nat, s: State, slot: Slot, p: seq<byte>, t: nat): (State, Applied) {
    match DecFreq(freqLen, p)
    case None => (s, Invalid)
    case Some(hz) => (SetFreq(s, slot, hz, t), Updated)
  }

  function ApplyMode(s: State, slot: Slot, p: seq<byte>, t: nat): (State, Applied) {
    if |p| < 1 || |p| > 2 || DecMode(p[0]).None? then (s, Invalid)
    else (SetMode(s, slot, DecMode(p[0]).value, t), Updated)
  }

  function SlotByte(b: byte): Slot {
    if b == 0 then Sel else Unsel
  }

  function Apply25(freqLen: nat, s: State, p: seq<byte>, t: nat): (State, Applied) {
    if |p| < 1 || p[0] > 1 then (s, Invalid) else ApplyFreq(freqLen, s, SlotByte(p[0]), p[1..], t)
  }

  /** With no third byte the data flag is cleared. */
  function Apply26(s: State, p: seq<byte>, t: nat): (State, Applied) {
    if |p| < 2 || |p| > 4 || p[0] > 1 || DecMode(p[1]).None? then (s, Invalid)
    else if |p| >= 3 && p[2] > 3 then (s, Invalid)
    else
      var slot := SlotByte(p[0]);
      (SetData(SetMode(s, slot, DecMode(p[1]).value, t), slot, |p| >= 3 && p[2] != 0, t), Updated)
  }

  function Apply1a06(s: State, p: seq<byte>, t: nat): (State, Applied) {
    if |p| < 2 || |p| > 3 || p[1] > 3 then (s, Invalid) else (SetData(s, Sel, p[1] != 0, t), Updated)
  }

  function Apply0f(s: State, p: seq<byte>, t: nat): (State, Applied) {
    if |p| != 1 then (s, Invalid)
    else if p[0] <= 1 then (SetSplit(s, p[0] == 1, t), Updated)
    else (s, if 0x10 <= p[0] <= 0x12 then Nothing else Invalid)
  }

  function Apply07(s: State, p: seq<byte>, t: nat): (State, Applied) {
    if |p| != 1 then (s, Invalid)
    else if p[0] == 0x00 then (SelectVfo(s, A, t), Updated)
    else if p[0] == 0x01 then (SelectVfo(s, B, t), Updated)
    else if p[0] == 0xa0 then (Equalize(s), Updated)
    else if p[0] == 0xb0 then (Exchange(s), Updated)
    else (s, Nothing)
  }

  /** Commands that a reply and a set share. */
  function ApplyShared(freqLen: nat, s: State, f: frame, t: nat): (State, Applied) {
    var c, p := CmdOf(f), Data(f);
    if c == 0x0f then Apply0f(s, p, t)
    else if c == 0x25 then Apply25(freqLen, s, p, t)
    else if c == 0x26 then Apply26(s, p, t)
    else if c == 0x1a && |p| >= 1 && p[0] == 0x06 then Apply1a06(s, p, t)
    else (s, Nothing)
  }

  /** Reply to a query. */
  function ApplyReply(freqLen: nat, s: State, f: frame, t: nat): (State, Applied) {
    if CmdOf(f) == 0x03 then ApplyFreq(freqLen, s, Sel, Data(f), t)
    else if CmdOf(f) == 0x04 then ApplyMode(s, Sel, Data(f), t)
    else ApplyShared(freqLen, s, f, t)
  }

  /** Transceive broadcast. */
  function ApplyUnsolicited(freqLen: nat, s: State, f: frame, t: nat): (State, Applied) {
    if CmdOf(f) == 0x00 then ApplyFreq(freqLen, s, Sel, Data(f), t)
    else if CmdOf(f) == 0x01 then ApplyMode(s, Sel, Data(f), t)
    else (s, Nothing)
  }

  /** What an acknowledged set says about the radio. */
  function ApplySet(freqLen: nat, s: State, f: frame, t: nat): (State, Applied) {
    if CmdOf(f) == 0x05 then ApplyFreq(freqLen, s, Sel, Data(f), t)
    else if CmdOf(f) == 0x06 then ApplyMode(s, Sel, Data(f), t)
    else if CmdOf(f) == 0x07 then Apply07(s, Data(f), t)
    else ApplyShared(freqLen, s, f, t)
  }

  /** Frames that are reported as bad or carry nothing change nothing. */
  lemma OnlyUpdatesChange(freqLen: nat, s: State, f: frame, t: nat)
    ensures ApplyReply(freqLen, s, f, t).1 != Updated ==> ApplyReply(freqLen, s, f, t).0 == s
    ensures ApplyUnsolicited(freqLen, s, f, t).1 != Updated ==> ApplyUnsolicited(freqLen, s, f, t).0 == s
    ensures ApplySet(freqLen, s, f, t).1 != Updated ==> ApplySet(freqLen, s, f, t).0 == s
  {
    hide DecFreq, DecMode;
  }

  /** These commands carry a sub command. */
  predicate HasSub(c: byte) {
    c in [0x13, 0x14, 0x15, 0x16, 0x19, 0x1a, 0x1b, 0x1c, 0x1e, 0x21, 0x25, 0x26, 0x27]
  }

  datatype Purpose = Query | Set | Unknown

  function PurposeOf(f: frame): Purpose {
    var c, n := CmdOf(f), |Data(f)|;
    if c == 0x03 || c == 0x04 || c == 0x0f then if n == 0 then Query else Set
    else if c == 0x05 || c == 0x06 || c == 0x07 then Set
    else if c == 0x25 || c == 0x26 then if n == 1 then Query else Set
    else if c == 0x1a && n >= 1 && Data(f)[0] == 0x06 then if n == 1 then Query else Set
    else Unknown
  }

  /** The reply's sub command is the query's. */
  predicate SameSub(q: frame, r: frame) {
    HasSub(CmdOf(r)) ==> |Data(q)| >= 1 && |Data(r)| >= 1 && Data(q)[0] == Data(r)[0]
  }

  /** q may be the query that r replies to. */
  predicate Answers(q: frame, r: frame) {
    From(q) == To(r) && CmdOf(q) == CmdOf(r) && SameSub(q, r) && PurposeOf(q) != Set
  }

  /** An acknowledge (ok) or rejection for ctrl can belong to q; queries are not acknowledged. */
  predicate Acknowledges(q: frame, ctrl: byte, ok: bool) {
    From(q) == ctrl && !(ok && PurposeOf(q) == Query)
  }
}
