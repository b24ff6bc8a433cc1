/** Fields of the ASCII CAT commands and the state updates they carry, src/cat_ascii.c. */
module AsciiTables {
  import opened Cat
  import opened CatState
  import opened CatStateVfos
  import opened Wrappers

  datatype Dialect = Kenwood | Elecraft | Yaesu | Flex

  /** noData: the data flag is not kept apart from the mode. */
  datatype Cfg = Cfg(dialect: Dialect, noData: bool)

  /** What an Elecraft VFO last told with MD and DT; 0 stands for nothing yet. */
  datatype Codes = Codes(md: byte, dt: byte)

  const UNKNOWN := Codes(0, 0)

  /** The shared state and what the decoder remembers of the radio; tx: the transmitting VFO. */
  datatype Tracked = Tracked(st: State, tx: Option<Ab>, a: Codes, b: Codes)

  type text = seq<byte>

  // ----- Fields -----

  predicate Named(s: text, x: char, y: char) {
    |s| >= 2 && s[0] as char == x && s[1] as char == y
  }

  predicate NamedZz(s: text, x: char, y: char) {
    |s| >= 4 && Named(s, 'Z', 'Z') && s[2] as char == x && s[3] as char == y
  }

  predicate IsDigit(b: byte) {
    '0' <= b as char <= '9'
  }

  predicate AllDigits(p: text) {
    forall i | 0 <= i < |p| :: IsDigit(p[i])
  }

  /** The decimal number that digits write. */
  function Number(p: text): nat
    requires AllDigits(p)
  {
    if p == [] then 0 else Number(p[..|p| - 1]) * 10 + (p[|p| - 1] - 0x30)
  }

  /** A frequency in Hz: 8 to 11 digits, not zero, and it fits 32 bits. */
  function FreqField(p: text): (hz: Option<nat>)
    ensures hz.Some? ==> 0 < hz.value < 0x1_0000_0000
  {
    if 8 <= |p| <= 11 && AllDigits(p) && 0 < Number(p) < 0x1_0000_0000 then Some(Number(p)) else None
  }

  function BoolField(b: byte): Option<bool> {
    if b as char == '0' then Some(false) else if b as char == '1' then Some(true) else None
  }

  /** What a mode code says; data is None where the flag travels separately. */
  datatype Told = Told(mode: Mode, data: Option<bool>)

  /** dataCodes: data modes are told apart by the code itself. */
  function ModeKenwood(noData: bool, dataCodes: bool, b: byte): Option<Told> {
    var data := if noData || dataCodes then Some(false) else None;
    match b as char
    case '1' => Some(Told(LSB, data))
    case '2' => Some(Told(USB, data))
    case '3' => Some(Told(CW, data))
    case '4' => Some(Told(FM, data))
    case '5' => Some(Told(AM, data))
    case '6' => Some(Told(RTTY, data))
    case '7' => Some(Told(CWR, data))
    case '9' => Some(Told(RTTYR, data))
    case 'A' => Some(Told(PSK, Some(false)))
    case 'B' => Some(Told(PSKR, Some(false)))
    case 'C' | 'G' | 'K' => Some(Told(PKTLSB, Some(true)))
    case 'D' | 'H' | 'L' => Some(Told(PKTUSB, Some(true)))
    case 'E' | 'I' | 'M' => Some(Told(PKTFM, Some(true)))
    case 'F' | 'J' | 'N' => Some(Told(PKTAM, Some(true)))
    case _ => None
  }

  function ModeFlex(b: byte): Option<Told> {
    match b as char
    case '1' => Some(Told(LSB, Some(false)))
    case '2' => Some(Told(USB, Some(false)))
    case '3' => Some(Told(CW, Some(false)))
    case '4' => Some(Told(FM, Some(false)))
    case '5' => Some(Told(AM, Some(false)))
    case '6' => Some(Told(PKTLSB, Some(true)))
    case '7' => Some(Told(CWR, Some(false)))
    case '9' => Some(Told(PKTUSB, Some(true)))
    case _ => None
  }

  /** PowerSDR: one or two digits. */
  function ModeZz(p: text): Option<Told> {
    if !(1 <= |p| <= 2 && AllDigits(p)) then None
    else
      match Number(p)
      case 0 => Some(Told(LSB, Some(false)))
      case 1 => Some(Told(USB, Some(false)))
      case 3 => Some(Told(CWR, Some(false)))
      case 4 => Some(Told(CW, Some(false)))
      case 5 => Some(Told(FM, Some(false)))
      case 6 => Some(Told(AM, Some(false)))
      case 7 => Some(Told(PKTUSB, Some(true)))
      case 9 => Some(Told(PKTLSB, Some(true)))
      case 10 => Some(Told(AMS, Some(false)))
      case 2 => Some(Told(OtherMode, Some(false)))
      case 8 => Some(Told(OtherMode, Some(false)))
      case 11 => Some(Told(OtherMode, Some(false)))
      case _ => None
  }

  function ModeYaesu(b: byte): Option<Told> {
    match b as char
    case '1' => Some(Told(LSB, Some(false)))
    case '2' => Some(Told(USB, Some(false)))
    case '3' => Some(Told(CW, Some(false)))
    case '4' => Some(Told(FM, Some(false)))
    case '5' => Some(Told(AM, Some(false)))
    case '6' => Some(Told(RTTY, Some(false)))
    case '7' => Some(Told(CWR, Some(false)))
    case '8' => Some(Told(PKTLSB, Some(true)))
    case '9' => Some(Told(RTTYR, Some(false)))
    case 'A' => Some(Told(PKTFM, Some(true)))
    case 'B' => Some(Told(FM, Some(false)))
    case 'C' => Some(Told(PKTUSB, Some(true)))
    case 'D' => Some(Told(AM, Some(false)))
    case 'E' => Some(Told(OtherMode, Some(false)))
    case 'F' => Some(Told(PKTFM, Some(true)))
    case _ => None
  }

  /** The K3's DATA and DATA-REV with the sub mode; DATA A while that is unknown. */
  function K3DataMode(c: Codes): Mode {
    match c.dt as char
    case '1' => PKTLSB
    case '2' => if c.md as char == '9' then RTTYR else RTTY
    case _ => PKTUSB
  }

  predicate IsK3Code(b: byte) {
    '1' <= b as char <= '9' && b as char != '8'
  }

  // ----- State updates, VFOs addressed by name -----

  function SetModeTold(st: State, slot: Slot, m: Told, t: nat): State {
    var s1 := SetMode(st, slot, m.mode, t);
    if m.data == Some(false) && WithData(m.mode, true) != m.mode then SetData(s1, slot, false, t) else s1
  }

  function SetVfoFreq(v: Tracked, ab: Ab, hz: nat, t: nat): Tracked {
    v.(st := SetFreq(v.st, SlotOf(v.st, ab), hz, t))
  }

  function UpdateSplit(v: Tracked, t: nat): Tracked {
    if v.tx.Some? then v.(st := SetSplit(v.st, v.tx.value != v.st.ab.val, t)) else v
  }

  /** Split reported as such: the transmitting VFO follows from it. */
  function TellSplit(v: Tracked, split: bool, t: nat): Tracked {
    v.(st := SetSplit(v.st, split, t), tx := Some(if split then Other(v.st.ab.val) else v.st.ab.val))
  }

  function SelectRx(v: Tracked, ab: Ab, t: nat): Tracked {
    UpdateSplit(v.(st := SelectVfo(v.st, ab, t)), t)
  }

  function CodesOf(v: Tracked, ab: Ab): Codes {
    if ab == A then v.a else v.b
  }

  function WithCodes(v: Tracked, ab: Ab, c: Codes): Tracked {
    if ab == A then v.(a := c) else v.(b := c)
  }

  function K3Apply(v: Tracked, ab: Ab, t: nat): Tracked {
    var c := CodesOf(v, ab);
    if c.md == 0 then v
    else if c.md as char == '6' || c.md as char == '9' then
      v.(st := SetModeTold(v.st, SlotOf(v.st, ab), Told(K3DataMode(c), Some(true)), t))
    else
      match ModeKenwood(false, false, c.md)
      case None => v
      case Some(m) => v.(st := SetModeTold(v.st, SlotOf(v.st, ab), Told(m.mode, Some(false)), t))
  }

  /** The mode code of a dialect other than Elecraft. */
  function ModeCode(cfg: Cfg, dataCodes: bool, b: byte): Option<Told> {
    match cfg.dialect
    case Flex => ModeFlex(b)
    case Yaesu => ModeYaesu(b)
    case _ => ModeKenwood(cfg.noData, dataCodes, b)
  }

  predicate IsModeCode(cfg: Cfg, dataCodes: bool, b: byte) {
    if cfg.dialect == Elecraft then IsK3Code(b) else ModeCode(cfg, dataCodes, b).Some?
  }

  function ApplyModeCode(cfg: Cfg, v: Tracked, ab: Ab, b: byte, dataCodes: bool, t: nat): (Tracked, Applied) {
    if !IsModeCode(cfg, dataCodes, b) then (v, Invalid)
    else if cfg.dialect == Elecraft then
      (K3Apply(WithCodes(v, ab, CodesOf(v, ab).(md := b)), ab, t), Updated)
    else
      (v.(st := SetModeTold(v.st, SlotOf(v.st, ab), ModeCode(cfg, dataCodes, b).value, t)), Updated)
  }

  // ----- Commands: the frame without its semicolon -----

  function VfoDigit(b: byte): Ab {
    if b as char == '0' then A else B
  }

  predicate IsVfoDigit(b: byte) {
    b as char == '0' || b as char == '1'
  }

  function CmdFreq(v: Tracked, ab: Ab, p: text, t: nat): (Tracked, Applied) {
    if p == [] then (v, Nothing)
    else
      match FreqField(p)
      case None => (v, Invalid)
      case Some(hz) => (SetVfoFreq(v, ab, hz, t), Updated)
  }

  const IF_LEN_KENWOOD := 37

  /** The IF answer has its length, its frequency, its flags and its VFO. */
  predicate IfFits(s: text) {
    && |s| == IF_LEN_KENWOOD && FreqField(s[2..13]).Some?
    && BoolField(s[28]).Some? && BoolField(s[32]).Some? && '0' <= s[30] as char <= '2'
  }

  /** The answer is about the other VFO: the radio transmits, and split is on. */
  predicate IfShowsTx(s: text)
    requires IfFits(s)
  {
    BoolField(s[28]).value && BoolField(s[32]).value
  }

  function IfSelect(v: Tracked, s: text, t: nat): Tracked
    requires IfFits(s)
  {
    if s[30] as char == '2' then v else v.(st := SelectVfo(v.st, VfoDigit(s[30]), t))
  }

  function CmdIfKenwood(cfg: Cfg, v: Tracked, s: text, t: nat): (Tracked, Applied) {
    if |s| == 2 then (v, Nothing)
    else if !IfFits(s) then (v, Invalid)
    else if IfShowsTx(s) then (TellSplit(v, BoolField(s[32]).value, t), Updated)
    else
      var v1 := IfSelect(v, s, t);
      var v2 := SetVfoFreq(v1, v1.st.ab.val, FreqField(s[2..13]).value, t);
      var (v3, r) := ApplyModeCode(cfg, v2, v2.st.ab.val, s[29], false, t);
      if r == Invalid then (v3, Invalid) else (TellSplit(v3, BoolField(s[32]).value, t), Updated)
  }

  function YaesuFreqLen(n: nat): Option<nat> {
    if n == 26 || n == 29 then Some(8) else if n == 27 || n == 40 then Some(9) else None
  }

  function CmdIfYaesu(cfg: Cfg, v: Tracked, ab: Ab, s: text, t: nat): (Tracked, Applied) {
    if |s| == 2 then (v, Nothing)
    else
      match YaesuFreqLen(|s|)
      case None => (v, Invalid)
      case Some(w) =>
        match FreqField(s[5..5 + w])
        case None => (v, Invalid)
        case Some(hz) => ApplyModeCode(cfg, SetVfoFreq(v, ab, hz, t), ab, s[5 + w + 7], false, t)
  }

  function CmdMode(cfg: Cfg, v: Tracked, s: text, t: nat): (Tracked, Applied)
    requires |s| >= 2
  {
    if cfg.dialect == Yaesu then CmdVfoMode(cfg, v, s, false, t)
    else if cfg.dialect == Elecraft && |s| >= 3 && s[2] as char == '$' then
      if |s| == 3 then (v, Nothing)
      else if |s| == 4 then ApplyModeCode(cfg, v, B, s[3], false, t)
      else (v, Invalid)
    else if |s| == 2 then (v, Nothing)
    else if |s| == 3 then ApplyModeCode(cfg, v, v.st.ab.val, s[2], false, t)
    else (v, Invalid)
  }

  /** Mode of a VFO given by a digit: Yaesu MD, TS-990 OM. */
  function CmdVfoMode(cfg: Cfg, v: Tracked, s: text, dataCodes: bool, t: nat): (Tracked, Applied)
    requires |s| >= 2
  {
    if |s| == 3 || |s| == 2 then (v, Nothing)
    else if |s| != 4 || !IsVfoDigit(s[2]) then (v, Invalid)
    else ApplyModeCode(cfg, v, VfoDigit(s[2]), s[3], dataCodes, t)
  }

  /** DA and DT: for a Kenwood the selected slot's data flag, for an Elecraft the sub mode of a VFO. */
  function CmdData(cfg: Cfg, v: Tracked, s: text, t: nat): (Tracked, Applied)
    requires |s| >= 2
  {
    if cfg.dialect == Elecraft then
      var vfoB := |s| >= 3 && s[2] as char == '$';
      var p := if vfoB then 3 else 2;
      var ab := if vfoB then B else v.st.ab.val;
      if s[1] as char != 'T' || |s| == p then (v, Nothing)
      else if |s| != p + 1 || !('0' <= s[p] as char <= '3') then (v, Invalid)
      else (K3Apply(WithCodes(v, ab, CodesOf(v, ab).(dt := s[p])), ab, t), Updated)
    else if cfg.dialect != Kenwood || |s| == 2 then (v, Nothing)
    else if |s| != 3 || BoolField(s[2]).None? then (v, Invalid)
    else (v.(st := SetData(v.st, Sel, BoolField(s[2]).value, t)), Updated)
  }

  /** FR and VS select the receiving VFO, FT the transmitting one. */
  function CmdVfo(v: Tracked, s: text, t: nat): (Tracked, Applied)
    requires |s| >= 2
  {
    if |s| == 2 then (v, Nothing)
    else if |s| != 3 || !('0' <= s[2] as char <= '3') then (v, Invalid)
    else if !IsVfoDigit(s[2]) then (v, Nothing)
    else if Named(s, 'F', 'T') then (UpdateSplit(v.(tx := Some(VfoDigit(s[2]))), t), Updated)
    else (SelectRx(v, VfoDigit(s[2]), t), Updated)
  }

  function CmdSplit(v: Tracked, b: byte, t: nat): (Tracked, Applied) {
    if !('0' <= b as char <= '2') then (v, Invalid) else (TellSplit(v, b as char != '0', t), Updated)
  }

  /** TS-890 SF: frequency and mode of a VFO. */
  function CmdSf(cfg: Cfg, v: Tracked, s: text, t: nat): (Tracked, Applied)
    requires |s| >= 2
  {
    if |s| == 3 || |s| == 2 then (v, Nothing)
    else if |s| != 15 || !IsVfoDigit(s[2]) || FreqField(s[3..14]).None? then (v, Invalid)
    else
      var ab := VfoDigit(s[2]);
      ApplyModeCode(cfg, SetVfoFreq(v, ab, FreqField(s[3..14]).value, t), ab, s[14], true, t)
  }

  function CmdZz(v: Tracked, s: text, t: nat): (Tracked, Applied)
    requires |s| >= 4
  {
    if |s| == 4 then (v, Nothing)
    else if NamedZz(s, 'F', 'A') || NamedZz(s, 'F', 'B') then
      CmdFreq(v, if s[3] as char == 'A' then A else B, s[4..], t)
    else if NamedZz(s, 'M', 'D') || NamedZz(s, 'M', 'E') then
      var ab := if s[3] as char == 'D' then A else B;
      match ModeZz(s[4..])
      case None => (v, Invalid)
      case Some(m) => (v.(st := SetModeTold(v.st, SlotOf(v.st, ab), m, t)), Updated)
    else if NamedZz(s, 'S', 'P') then
      if |s| == 5 then CmdSplit(v, s[4], t) else (v, Invalid)
    else (v, Nothing)
  }

  /** Frames that count whoever sends them; all others only from the radio. */
  predicate IsSettable(cfg: Cfg, s: text) {
    || Named(s, 'F', 'A') || Named(s, 'F', 'B') || Named(s, 'M', 'D') || Named(s, 'D', 'A') || Named(s, 'D', 'T')
    || (cfg.dialect == Flex && |s| >= 4 && Named(s, 'Z', 'Z'))
  }

  function ApplySettable(cfg: Cfg, v: Tracked, s: text, fromHost: bool, t: nat): (Tracked, Applied)
    requires IsSettable(cfg, s)
  {
    if Named(s, 'F', 'A') || Named(s, 'F', 'B') then CmdFreq(v, if s[1] as char == 'A' then A else B, s[2..], t)
    else if Named(s, 'M', 'D') then CmdMode(cfg, v, s, t)
    else if Named(s, 'D', 'A') || Named(s, 'D', 'T') then CmdData(cfg, v, s, t)
    else if fromHost && NamedZz(s, 'S', 'P') then (v, Nothing)
    else CmdZz(v, s, t)
  }

  /** What only the radio tells: VFO selection and split, and whole status answers. */
  function ApplyAnswer(cfg: Cfg, v: Tracked, s: text, t: nat): (Tracked, Applied)
    requires |s| >= 2
  {
    var yaesu := cfg.dialect == Yaesu;
    if Named(s, 'I', 'F') then if yaesu then CmdIfYaesu(cfg, v, A, s, t) else CmdIfKenwood(cfg, v, s, t)
    else if yaesu && Named(s, 'O', 'I') then CmdIfYaesu(cfg, v, B, s, t)
    else if Named(s, 'F', 'T') || (!yaesu && Named(s, 'F', 'R')) || (yaesu && Named(s, 'V', 'S')) then CmdVfo(v, s, t)
    else if yaesu && Named(s, 'S', 'T') then
      if |s| == 2 then (v, Nothing) else if |s| == 3 then CmdSplit(v, s[2], t) else (v, Invalid)
    else if cfg.dialect == Kenwood && Named(s, 'O', 'M') then CmdVfoMode(cfg, v, s, true, t)
    else if cfg.dialect == Kenwood && Named(s, 'S', 'F') then CmdSf(cfg, v, s, t)
    else (v, Nothing)
  }

  /** fromHost: the frame comes from a client or from mhuxd. */
  function ApplyFrame(cfg: Cfg, v: Tracked, s: text, fromHost: bool, t: nat): (Tracked, Applied) {
    if |s| < 2 then (v, Nothing)
    else if IsSettable(cfg, s) then ApplySettable(cfg, v, s, fromHost, t)
    else if fromHost then (v, Nothing)
    else ApplyAnswer(cfg, v, s, t)
  }
}
