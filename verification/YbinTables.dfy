/** The tables of src/cat_ybin.c: how long answers are, and what they and the commands say. */
module YbinTables {
  import opened Cat
  import opened CatState
  import opened PackedBcd
  import opened Wrappers

  const CMD_LEN := 5
  const MAX_FRAME := 80
  const LEN_MASK := 0x7fff
  const HOLD_MS := 100

  type command = c: seq<byte> | |c| == CMD_LEN witness [0, 0, 0, 0, 0]

  datatype Model =
    | FT757GX2 | FT817 | FT857 | FT897 | FT847 | FT840 | FT890 | FT900 | FT920 | FT990 | FT1000 | FT1000MP

  datatype Family = Fam757 | Fam817 | Fam847 | Fam900 | Fam920 | Fam990 | Fam1000 | FamMP

  function Fam(m: Model): Family {
    match m
    case FT757GX2 => Fam757
    case FT817 => Fam817
    case FT857 => Fam817
    case FT897 => Fam817
    case FT847 => Fam847
    case FT840 => Fam900
    case FT890 => Fam900
    case FT900 => Fam900
    case FT920 => Fam920
    case FT990 => Fam990
    case FT1000 => Fam1000
    case FT1000MP => FamMP
  }

  /** How many bytes a full status dump has, 0 where no table says. */
  function DumpLen(m: Model): nat {
    match m
    case FT840 => 649
    case FT890 => 649
    case FT900 => 1941
    case FT990 => 1508
    case FT1000 => 1636
    case FT1000MP => 1863
    case _ => 0
  }

  function HoldMs(m: Model): nat {
    if m == FT757GX2 then 150 else HOLD_MS
  }

  /** n bytes are expected, none if 0; guess: fewer may come. */
  datatype Length = Length(n: nat, guess: bool)

  /** 0x10 status data of the families with records, by the parameter u = 1..4. */
  function StatusLen(f: Family, u: byte): nat
    requires 1 <= u <= 4
  {
    if u == 1 then 1
    else match f
      case Fam900 => if u == 3 then 18 else 19
      case Fam920 => if u == 4 then 14 else 28
      case Fam990 => if u == 4 then 16 else 32
      case _ => if u == 3 then 32 else 16
  }

  function AnswerLen(m: Model, c: command): (r: Length)
    ensures r.n <= LEN_MASK
  {
    var f, op, u := Fam(m), c[4], c[3];
    if f == Fam757 then
      Length(if op == 0x10 then if u == 1 then 1 else 75 else if op == 0x0e then 75 else 0, false)
    else if f == Fam817 then
      Length(if op == 0x03 then 5 else if op == 0xbb || op == 0xbd then 2 else if op == 0xff then 0 else 1, false)
    else if f == Fam847 then
      Length(if op == 0x03 || op == 0x13 || op == 0x23 then 5 else if op == 0xe7 || op == 0xf7 then 1 else 0, false)
    else if op == 0x10 then
      if u > 4 then Length(0, false)
      else if u == 0 then Length(if DumpLen(m) == 0 then LEN_MASK else DumpLen(m), true)
      else Length(StatusLen(f, u), false)
    else if op == 0xfa then
      if f == FamMP then Length(if HasBit(u, 1) then 6 else 5, false)
      else if f == Fam920 then Length(8, u != 1)
      else Length(5, false)
    else Length(if op == 0xf7 && f != Fam920 then 5 else 0, false)
  }

  predicate HasPacing(m: Model) {
    Fam(m) != Fam817 && Fam(m) != Fam847
  }

  /** The one byte of an FT-817 that answers a command which is no query. */
  predicate IsAck(m: Model, c: command) {
    Fam(m) == Fam817 && c[4] !in [0x03, 0xbb, 0xbd, 0xe7, 0xf7]
  }

  // ----- Field decoding -----

  function Pow256(n: nat): nat {
    if n == 0 then 1 else 256 * Pow256(n - 1)
  }

  function BigEndian(p: seq<byte>): (r: nat)
    ensures r < Pow256(|p|)
  {
    if p == [] then 0 else BigEndian(p[..|p| - 1]) * 256 + p[|p| - 1]
  }

  function Mode817(c: byte): Mode {
    match c % 128
    case 0x00 => LSB
    case 0x01 => USB
    case 0x02 => CW
    case 0x03 => CWR
    case 0x04 => AM
    case 0x06 => WFM
    case 0x08 => FM
    case 0x0a => PKTUSB
    case 0x0c => PKTFM
    case _ => NoMode
  }

  /** The parameter of opcode 0x0c, FT-1000 and FT-990 families. */
  function ModeSet1000(c: byte): Mode {
    match c % 128
    case 0x00 => LSB
    case 0x01 => USB
    case 0x02 => CW
    case 0x03 => CWR
    case 0x04 => AM
    case 0x05 => AMS
    case 0x06 => FM
    case 0x07 => FM
    case 0x08 => RTTY
    case 0x09 => RTTYR
    case 0x0a => PKTLSB
    case 0x0b => PKTFM
    case _ => NoMode
  }

  function ModeSet920(c: byte): Mode {
    match c % 128
    case 0x00 => LSB
    case 0x01 => USB
    case 0x02 => CW
    case 0x03 => CWR
    case 0x04 => AM
    case 0x05 => AM
    case 0x06 => FM
    case 0x07 => FM
    case 0x08 => PKTLSB
    case 0x0a => PKTUSB
    case 0x0b => PKTFM
    case _ => NoMode
  }

  function ModeSet900(c: byte): Mode {
    match c
    case 0x00 => LSB
    case 0x01 => USB
    case 0x02 => CW
    case 0x03 => CW
    case 0x04 => AM
    case 0x05 => AM
    case 0x06 => FM
    case _ => NoMode
  }

  function Mode757(c: byte): Mode {
    match c
    case 0x00 => LSB
    case 0x01 => USB
    case 0x02 => CW
    case 0x03 => CW
    case 0x04 => AM
    case 0x05 => FM
    case _ => NoMode
  }

  /** Mode of a status record: its mode byte and its filter byte. */
  function RecMode(f: Family, m: byte, filter: byte): Mode {
    var alt := HasBit(filter, 128);
    if f == Fam757 then Mode757(m)
    else if f == Fam920 then
      var upper := HasBit(m, 64);
      var k := m % 8;
      if k == 0 then if upper then USB else LSB
      else if k == 1 then if upper then CW else CWR
      else if upper then NoMode
      else if k == 2 then AM else if k == 3 then FM else if k == 4 then PKTLSB
      else if k == 5 then PKTUSB else if k == 6 then PKTFM else NoMode
    else
      match m % 8
      case 0 => LSB
      case 1 => USB
      case 2 => if alt && f == FamMP then CWR else CW
      case 3 => if alt && f == FamMP then AMS else AM
      case 4 => FM
      case 5 => if f == Fam900 then NoMode else if alt then RTTYR else RTTY
      case 6 => if f == Fam900 then NoMode else if alt then PKTFM else PKTLSB
      case _ => NoMode
  }

  // ----- Status records -----

  /** The VFO a record or command speaks of. */
  datatype Target = Selected | Named(v: Ab)

  /** Offsets into the answer: fo frequency, mo mode, fl filter relative to mo. */
  datatype Rec = Rec(target: Target, fo: nat, mo: nat, fl: nat)

  function FreqWidth(f: Family): nat {
    match f
    case Fam757 => 4
    case Fam920 => 4
    case FamMP => 4
    case _ => 3
  }

  /** One past the last byte a record is read from. */
  function RecEnd(f: Family, r: Rec): nat {
    if r.fo + FreqWidth(f) > r.mo + r.fl + 1 then r.fo + FreqWidth(f) else r.mo + r.fl + 1
  }

  /** The records in the complete answer to a command, in the order they are read. */
  function RecordsOf(f: Family, c: command): seq<Rec> {
    var op, u := c[4], c[3];
    if f == Fam817 || f == Fam847 then []
    else if f == Fam757 then
      if op == 0x0e || (op == 0x10 && u != 1) then
        [Rec(Selected, 5, 9, 0), Rec(Named(A), 10, 14, 0), Rec(Named(B), 15, 19, 0)]
      else []
    else if op != 0x10 || (u != 2 && u != 3) then []
    else if f == Fam900 then
      if u == 2 then [Rec(Selected, 2, 7, 2)] else [Rec(Named(A), 1, 6, 2), Rec(Named(B), 10, 15, 2)]
    else if f == Fam920 then [Rec(Named(A), 1, 7, 1), Rec(Named(B), 15, 21, 1)]
    else if u == 2 then [Rec(Selected, 1, 7, 1)]
    else [Rec(Named(A), 1, 7, 1), Rec(Named(B), 17, 23, 1)]
  }

  /** Every offset read from an answer lies inside the length the table gives it. */
  lemma RecordsLieInside(m: Model, c: command)
    ensures forall r <- RecordsOf(Fam(m), c) :: RecEnd(Fam(m), r) <= AnswerLen(m, c).n <= MAX_FRAME
    ensures RecordsOf(Fam(m), c) != [] ==> !AnswerLen(m, c).guess
  {
  }

  /** The frequency field at fo in Hz, None if its digits are invalid. */
  function RecHz(f: Family, a: seq<byte>, fo: nat): Option<nat>
    requires fo + FreqWidth(f) <= |a|
  {
    if f == Fam757 then
      match Bcd(Reverse(a[fo..fo + 4]))
      case None => None
      case Some(v) => Some(U32(v * 10))
    else if f == Fam920 then Some(BigEndian(a[fo..fo + 4]))
    else if f == FamMP then Some(U32(BigEndian(a[fo..fo + 4]) * 10 / 16))
    else Some(U32(BigEndian(a[fo..fo + 3]) * 10))
  }

  lemma FieldBounds(p: seq<byte>)
    ensures |p| == 4 ==> Pow100(|p|) == 1_0000_0000 && Pow256(|p|) == 0x1_0000_0000
    ensures |p| == 3 ==> Pow256(|p|) == 0x100_0000
  {
    assert Pow100(4) == 1_0000_0000 && Pow256(4) == 0x1_0000_0000 && Pow256(3) == 0x100_0000;
  }

  /** The frequency that a field writes, in plain numbers. */
  function FieldHz(f: Family, field: seq<byte>): Option<nat>
    requires |field| == FreqWidth(f)
  {
    if f == Fam757 then
      match Bcd(Reverse(field))
      case None => None
      case Some(v) => Some(10 * v)
    else if f == Fam920 then Some(BigEndian(field))
    else if f == FamMP then Some(BigEndian(field) * 10 / 16)
    else Some(10 * BigEndian(field))
  }

  /** No frequency of a record wraps in its 32 bits: the field's value is the frequency. */
  lemma FrequenciesFit(f: Family, a: seq<byte>, fo: nat)
    requires fo + FreqWidth(f) <= |a|
    ensures RecHz(f, a, fo) == FieldHz(f, a[fo..fo + FreqWidth(f)])
    ensures RecHz(f, a, fo).Some? ==> RecHz(f, a, fo).value < 0x1_0000_0000
  {
    var field := a[fo..fo + FreqWidth(f)];
    FieldBounds(field);
    FieldBounds(Reverse(field));
    hide Bcd, BigEndian, Reverse, Pow100, Pow256, U32;
    if f == Fam757 {
      if Bcd(Reverse(field)).Some? {
        NoWrap(Bcd(Reverse(field)).value * 10);
      }
    } else if f == FamMP {
      NoWrap(BigEndian(field) * 10 / 16);
    } else if f != Fam920 {
      NoWrap(BigEndian(field) * 10);
    }
  }

  lemma NoWrap(x: nat)
    requires x < 0x1_0000_0000
    ensures U32(x) == x
  {
  }

  // ----- State updates -----

  function TargetSlot(s: State, v: Target): Slot {
    match v
    case Selected => Sel
    case Named(ab) => SlotOf(s, ab)
  }

  /** A mode code leaves no doubt about the data flag. */
  function TellMode(s: State, v: Target, m: Mode, t: nat): State {
    var slot := TargetSlot(s, v);
    var s1 := SetMode(s, slot, m, t);
    if WithData(m, true) != m then SetData(s1, slot, false, t) else s1
  }

  lemma ToldModeReadsBack(s: State, v: Target, m: Mode, t: nat)
    ensures m != NoMode ==> ModeOf(TellMode(s, v, m, t), TargetSlot(s, v)) == m
  {
  }

  function RecApply(f: Family, s: State, a: seq<byte>, r: Rec, t: nat): (State, Applied)
    requires RecEnd(f, r) <= |a|
  {
    match RecHz(f, a, r.fo)
    case None => (s, Invalid)
    case Some(hz) =>
      var mode := RecMode(f, a[r.mo], a[r.mo + r.fl]);
      if hz == 0 || mode == NoMode then (s, Invalid)
      else (TellMode(SetFreq(s, TargetSlot(s, r.target), hz, t), r.target, mode, t), Updated)
  }

  function RecsApply(f: Family, s: State, a: seq<byte>, rs: seq<Rec>, t: nat): (State, Applied)
    requires forall r <- rs :: RecEnd(f, r) <= |a|
    decreases |rs|
  {
    if rs == [] then (s, Updated)
    else
      var (s1, r) := RecApply(f, s, a, rs[0], t);
      if r == Invalid then (s1, Invalid) else RecsApply(f, s1, a, rs[1..], t)
  }

  /** EEPROM bytes of the FT-817 family that hold the selected VFO and split. */
  function ApplyEeprom(m: Model, s: State, address: nat, v: byte, t: nat): (State, Applied) {
    if Fam(m) != Fam817 then (s, Nothing)
    else if address == (if m == FT817 then 0x55 else 0x68) then
      (SelectVfo(s, if HasBit(v, 1) then B else A, t), Updated)
    else if address == (if m == FT817 then 0x7a else 0x8d) then
      (SetSplit(s, HasBit(v, 128), t), Updated)
    else (s, Nothing)
  }

  /** The flag byte that the 0xfa answer starts with. */
  function ApplyFlags(f: Family, s: State, v: byte, t: nat): (State, Applied) {
    match f
    case FamMP => (SetSplit(SelectVfo(s, if HasBit(v, 16) then B else A, t), HasBit(v, 1), t), Updated)
    case Fam990 => (SetSplit(SelectVfo(s, if HasBit(v, 2) then B else A, t), HasBit(v, 1), t), Updated)
    case Fam1000 => (SetSplit(s, HasBit(v, 1), t), Updated)
    case Fam920 =>
      (SetSplit(SelectVfo(s, if HasBit(v, 2) then B else A, t), HasBit(v, 2) != HasBit(v, 1), t), Updated)
    case Fam900 =>
      var s1 := if HasBit(v, 128) then SelectVfo(s, if HasBit(v, 64) then B else A, t) else s;
      (SetSplit(s1, HasBit(v, 4), t), Updated)
    case _ => (s, Nothing)
  }

  /** A complete answer of exactly the length its command's entry gives. */
  function ApplyAnswer(m: Model, s: State, c: command, a: seq<byte>, t: nat): (State, Applied)
    requires |a| == AnswerLen(m, c).n > 0
  {
    var f, op := Fam(m), c[4];
    if f == Fam817 || f == Fam847 then
      if op == 0xbb && |a| == 2 then ApplyEeprom(m, s, 256 * c[0] as int + c[1], a[0], t)
      else if op != 0x03 || |a| != 5 then (s, Nothing)
      else
        var mode := Mode817(a[4]);
        match Bcd(a[..4])
        case None => (s, Invalid)
        case Some(hz) =>
          if hz == 0 || mode == NoMode || (f == Fam847 && a[4] % 128 > 0x08) then (s, Invalid)
          else (TellMode(SetFreq(s, Sel, U32(hz * 10), t), Selected, mode, t), Updated)
    else if f != Fam757 && op == 0xfa then ApplyFlags(f, s, a[0], t)
    else
      var rs := RecordsOf(f, c);
      RecordsLieInside(m, c);
      if rs == [] then (s, Nothing)
      else
        // In memory mode the flags name no VFO.
        var s1 := if f == Fam757 && !HasBit(a[0], 16)
                  then SelectVfo(s, if HasBit(a[0], 8) then B else A, t) else s;
        RecsApply(f, s1, a, rs, t)
  }

  /** What a command that goes to the radio says about it. */
  function ApplyCommand(m: Model, s: State, c: command, t: nat): (State, Applied) {
    var f, op, u := Fam(m), c[4], c[3];
    if f == Fam817 || f == Fam847 then
      if op == 0x01 then
        match Bcd(c[..4])
        case None => (s, Invalid)
        case Some(hz) =>
          if hz == 0 then (s, Invalid) else (SetFreq(s, Sel, U32(hz * 10), t), Updated)
      else if op == 0x07 then
        var mode := Mode817(c[0]);
        if mode == NoMode then (s, Invalid) else (TellMode(s, Selected, mode, t), Updated)
      else if f == Fam847 then (s, Nothing)
      else if op == 0x81 then (SelectVfo(s, Other(s.ab.val), t), Updated)
      else if op == 0x02 || op == 0x82 then (SetSplit(s, op == 0x02, t), Updated)
      else (s, Nothing)
    else if op == 0x0a || op == 0x8a then
      if op == 0x8a && f != FamMP && f != Fam920 && f != Fam1000 then (s, Nothing)
      else
        match Bcd(Reverse(c[..4]))
        case None => (s, Invalid)
        case Some(hz) =>
          if hz == 0 then (s, Invalid)
          else
            var v := if op == 0x8a then Named(B) else if f == FamMP || f == Fam920 then Named(A) else Selected;
            (SetFreq(s, TargetSlot(s, v), U32(hz * 10), t), Updated)
    else if op == 0x0c then
      var mode := if f == Fam757 then Mode757(u) else if f == Fam900 then ModeSet900(u)
                  else if f == Fam920 then ModeSet920(u) else ModeSet1000(u);
      var v := if f == Fam757 || f == Fam900 then Selected
               else if u >= 128 then Named(B)
               else if f == Fam920 || f == FamMP then Named(A) else Selected;
      if mode == NoMode then (s, Invalid) else (TellMode(s, v, mode, t), Updated)
    else if op == 0x05 then
      if u > 1 then (s, Nothing) else (SelectVfo(s, if u == 1 then B else A, t), Updated)
    else (s, Nothing)
  }

  // ----- What the state ends up with -----

  /** A frequency in tens of Hz written with eight BCD digits. */
  lemma TensFit(p: seq<byte>)
    requires |p| == 4 && Bcd(p).Some?
    ensures U32(Bcd(p).value * 10) == 10 * Bcd(p).value < 0x1_0000_0000
  {
    FieldBounds(p);
    hide Bcd;
  }

  /** A record sets its VFO's frequency to what its field writes, and no other frequency. */
  lemma RecordTellsFrequency(f: Family, s: State, a: seq<byte>, r: Rec, t: nat)
    requires RecEnd(f, r) <= |a|
    ensures var (s', u) := RecApply(f, s, a, r, t);
            && s'.ab == s.ab
            && (u == Updated ==>
                && FieldHz(f, a[r.fo..r.fo + FreqWidth(f)]) == Some(FreqOf(Get(s', TargetSlot(s, r.target))))
                && FreqOf(Get(s', TargetSlot(s, r.target))) < 0x1_0000_0000
                && forall k | k != TargetSlot(s, r.target) :: FreqOf(Get(s', k)) == FreqOf(Get(s, k)))
  {
    FrequenciesFit(f, a, r.fo);
    hide RecHz, RecMode, FieldHz;
  }

  /** The frequency that record r of the answer a told is what its VFO has. */
  predicate Told(f: Family, s: State, a: seq<byte>, r: Rec) {
    && RecEnd(f, r) <= |a|
    && FieldHz(f, a[r.fo..r.fo + FreqWidth(f)]) == Some(FreqOf(Get(s, TargetSlot(s, r.target))))
    && FreqOf(Get(s, TargetSlot(s, r.target))) < 0x1_0000_0000
  }

  /** No later record tells the VFO of record i. */
  predicate Decides(s: State, rs: seq<Rec>, i: nat)
    requires i < |rs|
  {
    forall j | i < j < |rs| :: TargetSlot(s, rs[j].target) != TargetSlot(s, rs[i].target)
  }

  predicate Untold(s: State, rs: seq<Rec>, k: Slot) {
    forall j | 0 <= j < |rs| :: TargetSlot(s, rs[j].target) != k
  }

  lemma {:induction false} RecordsTell(f: Family, s: State, a: seq<byte>, rs: seq<Rec>, t: nat)
    requires forall i | 0 <= i < |rs| :: RecEnd(f, rs[i]) <= |a|
    ensures var (s', u) := RecsApply(f, s, a, rs, t);
            && s'.ab == s.ab
            && (u == Updated ==>
                && (forall i | 0 <= i < |rs| && Decides(s, rs, i) :: Told(f, s', a, rs[i]))
                && (forall k | Untold(s, rs, k) :: FreqOf(Get(s', k)) == FreqOf(Get(s, k))))
    decreases |rs|
  {
    hide RecApply, FieldHz, Decides, Untold, TargetSlot, FreqOf;
    if rs != [] {
      RecordTellsFrequency(f, s, a, rs[0], t);
      RecordIsUpdated(f, s, a, rs[0], t);
      var s1 := RecApply(f, s, a, rs[0], t).0;
      var (s', u) := RecsApply(f, s, a, rs, t);
      assert forall i | 0 <= i < |rs[1..]| :: rs[1..][i] == rs[i + 1];
      RecordsTell(f, s1, a, rs[1..], t);
      if u == Updated {
        forall i | 0 <= i < |rs| && Decides(s, rs, i)
          ensures Told(f, s', a, rs[i])
        {
          RestDecides(s, s1, rs, i);
        }
        forall k | Untold(s, rs, k)
          ensures FreqOf(Get(s', k)) == FreqOf(Get(s, k))
        {
          RestUntold(s, s1, rs, k);
        }
      }
    }
  }

  lemma RestDecides(s: State, s1: State, rs: seq<Rec>, i: nat)
    requires i < |rs| && Decides(s, rs, i) && s1.ab == s.ab
    ensures i > 0 ==> Decides(s1, rs[1..], i - 1)
    ensures i == 0 ==> Untold(s1, rs[1..], TargetSlot(s, rs[0].target))
    ensures forall s': State | s'.ab == s.ab :: TargetSlot(s', rs[i].target) == TargetSlot(s, rs[i].target)
  {
  }

  lemma RestUntold(s: State, s1: State, rs: seq<Rec>, k: Slot)
    requires rs != [] && Untold(s, rs, k) && s1.ab == s.ab
    ensures Untold(s1, rs[1..], k) && TargetSlot(s, rs[0].target) != k
  {
    assert TargetSlot(s, rs[0].target) != k;
  }

  lemma RecordIsUpdated(f: Family, s: State, a: seq<byte>, r: Rec, t: nat)
    requires RecEnd(f, r) <= |a|
    ensures RecApply(f, s, a, r, t).1 != Nothing
  {
  }

  lemma DecidesAlike(s: State, s': State, rs: seq<Rec>)
    requires s'.ab == s.ab
    ensures forall i | 0 <= i < |rs| :: Decides(s', rs, i) == Decides(s, rs, i)
  {
  }

  /**
   * For every model, command and answer: when the state was updated, each frequency the answer
   * tells is what its VFO ends up with (the last one, where two records tell the same VFO), as
   * plain numbers that fit 32 bits.
   */
  lemma AnswerTellsFrequency(m: Model, s: State, c: command, a: seq<byte>, t: nat)
    requires |a| == AnswerLen(m, c).n > 0
    ensures var (s', u) := ApplyAnswer(m, s, c, a, t);
            var f, rs := Fam(m), RecordsOf(Fam(m), c);
            u == Updated ==>
              && ((f == Fam817 || f == Fam847) && c[4] == 0x03 ==>
                  |a| == 5 && Bcd(a[..4]).Some? && FreqOf(s'.sel) == 10 * Bcd(a[..4]).value < 0x1_0000_0000)
              && (rs != [] && c[4] != 0xfa ==>
                  forall i | 0 <= i < |rs| && Decides(s', rs, i) :: Told(f, s', a, rs[i]))
  {
    var f, rs := Fam(m), RecordsOf(Fam(m), c);
    if f == Fam817 || f == Fam847 {
      if c[4] == 0x03 && |a| == 5 && Bcd(a[..4]).Some? {
        TensFit(a[..4]);
        hide U32, Bcd, Mode817;
      }
    } else if rs != [] {
      RecordsLieInside(m, c);
      var s1 := if f == Fam757 && !HasBit(a[0], 16)
                then SelectVfo(s, if HasBit(a[0], 8) then B else A, t) else s;
      assert forall i | 0 <= i < |rs| :: rs[i] in rs;
      RecordsTell(f, s1, a, rs, t);
      DecidesAlike(s1, RecsApply(f, s1, a, rs, t).0, rs);
      hide RecordsOf, RecsApply, Told, Decides, AnswerLen, ApplyFlags;
    }
  }

  /** The frequency a client sets is taken over as it is written, ten Hz a unit, with no wrap. */
  lemma CommandTellsFrequency(m: Model, s: State, c: command, t: nat)
    ensures var (s', u) := ApplyCommand(m, s, c, t);
            var f, op := Fam(m), c[4];
            var old817 := f == Fam817 || f == Fam847;
            u == Updated ==>
              && (old817 && op == 0x01 ==>
                  Bcd(c[..4]).Some? && FreqOf(s'.sel) == 10 * Bcd(c[..4]).value < 0x1_0000_0000)
              && (!old817 && (op == 0x0a || op == 0x8a) ==>
                  var v := if op == 0x8a then Named(B) else if f == FamMP || f == Fam920 then Named(A) else Selected;
                  && Bcd(Reverse(c[..4])).Some?
                  && FreqOf(Get(s', TargetSlot(s', v))) == 10 * Bcd(Reverse(c[..4])).value < 0x1_0000_0000)
  {
    var op := c[4];
    if op == 0x01 && Bcd(c[..4]).Some? {
      TensFit(c[..4]);
    }
    if (op == 0x0a || op == 0x8a) && Bcd(Reverse(c[..4])).Some? {
      TensFit(Reverse(c[..4]));
    }
    hide U32, Bcd, Reverse;
  }

  /** What mhuxd asks each model. */
  function OwnQuery(m: Model): command {
    match Fam(m)
    case Fam757 => [0, 0, 0, 0, 0x10]
    case Fam817 => [0, 0, 0, 0, 0x03]
    case Fam847 => [0, 0, 0, 0, 0x03]
    case _ => [0, 0, 0, 2, 0x10]
  }

  /** The query suits every model: the answer has a known length and the records that are read. */
  lemma OwnQueryIsAnswered(m: Model)
    ensures var l := AnswerLen(m, OwnQuery(m));
            0 < l.n <= MAX_FRAME && !l.guess
    ensures Fam(m) == Fam817 || Fam(m) == Fam847 || RecordsOf(Fam(m), OwnQuery(m)) != []
  {
  }
}
