/** The two slots simulate a radio with VFO A, VFO B and a selection. */
module CatStateVfos {
  import opened Cat
  import opened CatState

  /** The radio as its operator sees it: selecting moves nothing. */
  datatype Rig = Rig(a: Vfo, b: Vfo, sel: Ab)

  function Contents(r: Rig, v: Ab): Vfo {
    if v == A then r.a else r.b
  }

  function Store(r: Rig, v: Ab, c: Vfo): Rig {
    if v == A then r.(a := c) else r.(b := c)
  }

  /** Settings addressed to a VFO by name, as the radio's answers address them. */
  datatype Op =
    | Freq(v: Ab, hz: nat, t: nat)
    | Mode(v: Ab, m: Mode, t: nat)
    | Data(v: Ab, on: bool, t: nat)
    | Select(v: Ab, t: nat)
    | ExchangeAb
    | EqualizeAb

  function RigStep(r: Rig, op: Op): Rig {
    match op
    case Freq(v, hz, t) => Store(r, v, VfoFreq(Contents(r, v), hz, t))
    case Mode(v, m, t) => Store(r, v, VfoMode(Contents(r, v), m, t))
    case Data(v, on, t) => Store(r, v, VfoData(Contents(r, v), on, t))
    case Select(v, _) => r.(sel := v)
    case ExchangeAb => r.(a := r.b, b := r.a)
    case EqualizeAb => Store(r, Other(r.sel), Contents(r, r.sel))
  }

  function StateStep(s: State, op: Op): State {
    match op
    case Freq(v, hz, t) => SetFreq(s, SlotOf(s, v), hz, t)
    case Mode(v, m, t) => SetMode(s, SlotOf(s, v), m, t)
    case Data(v, on, t) => SetData(s, SlotOf(s, v), on, t)
    case Select(v, t) => SelectVfo(s, v, t)
    case ExchangeAb => Exchange(s)
    case EqualizeAb => Equalize(s)
  }

  /** The radio that a state with a known selection describes. */
  function Abstract(s: State): Rig {
    if s.ab.val == A then Rig(s.sel, s.unsel, A) else Rig(s.unsel, s.sel, B)
  }

  function RigRun(r: Rig, ops: seq<Op>): Rig
    decreases |ops|
  {
    if ops == [] then r else RigRun(RigStep(r, ops[0]), ops[1..])
  }

  function StateRun(s: State, ops: seq<Op>): State
    decreases |ops|
  {
    if ops == [] then s else StateRun(StateStep(s, ops[0]), ops[1..])
  }

  /** Once the selection is known it stays known, and the slots follow the real VFOs for ever. */
  lemma {:induction false} SlotsRefineVfos(s: State, ops: seq<Op>)
    requires s.ab.valid
    ensures StateRun(s, ops).ab.valid
    ensures Abstract(StateRun(s, ops)) == RigRun(Abstract(s), ops)
    decreases |ops|
  {
    if ops != [] {
      SlotsRefineVfos(StateStep(s, ops[0]), ops[1..]);
    }
  }

  /** Selecting never changes what a VFO holds, however often it is done. */
  lemma {:induction false} SelectingKeepsContents(r: Rig, ops: seq<Op>)
    requires forall op <- ops :: op.Select?
    ensures RigRun(r, ops).a == r.a && RigRun(r, ops).b == r.b
    ensures RigRun(r, ops).sel == if ops == [] then r.sel else ops[|ops| - 1].v
    decreases |ops|
  {
    if ops != [] {
      assert ops[0] in ops;
      SelectingKeepsContents(RigStep(r, ops[0]), ops[1..]);
    }
  }

  /** The first selection of an unknown radio makes it known, at the price of everything known. */
  lemma FirstSelectionForgets(s: State, v: Ab, t: nat)
    requires !s.ab.valid
    ensures var s' := SelectVfo(s, v, t);
            && s'.ab == Item(v, t, true)
            && RxFreq(s') == 0 && FreqOf(s'.unsel) == 0
            && ModeOf(s', Sel) == NoMode && ModeOf(s', Unsel) == NoMode
  {
  }

  /** Whether the transmitter is on the VFO that does not receive. */
  predicate SplitTells(s: State, tx: Ab) {
    s.ab.valid && s.split.valid && s.split.val == (tx != s.ab.val)
  }

  lemma TxFreqIsTheTxVfos(s: State, tx: Ab)
    requires SplitTells(s, tx)
    ensures TxFreq(s) == FreqOf(Contents(Abstract(s), tx))
    ensures RxFreq(s) == FreqOf(Contents(Abstract(s), Abstract(s).sel))
  {
  }

  /**
   * The mode read back is the mode set, except for one case: a base mode without data flag,
   * set again while its data flag is on, keeps the flag.
   */
  lemma ModeReadsBack(s: State, slot: Slot, m: Mode, t: nat)
    requires m != NoMode
    ensures var v := Get(s, slot);
            ModeOf(SetMode(s, slot, m, t), slot) == m
            <==> WithoutData(m).1 || WithData(m, true) == m ||
                 !(v.mode.valid && v.mode.val == m && v.data.valid && v.data.val)
  {
  }
}
