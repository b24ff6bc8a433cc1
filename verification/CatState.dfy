/** The normalized radio state of src/cat_state.c, as values and as the struct updated in place. */
module CatState {
  import opened Cat

  datatype Mode =
    | NoMode | LSB | USB | CW | CWR | RTTY | RTTYR | AM | AMS | FM | WFM
    | PKTLSB | PKTUSB | PKTAM | PKTFM | FAX | PSK | PSKR | OtherMode

  datatype Ab = A | B

  datatype Slot = Sel | Unsel

  datatype Item<T> = Item(val: T, t: nat, valid: bool)

  datatype Vfo = Vfo(freq: Item<nat>, mode: Item<Mode>, data: Item<bool>)

  datatype State = State(sel: Vfo, unsel: Vfo, split: Item<bool>, ab: Item<Ab>)

  const NO_VFO := Vfo(Item(0, 0, false), Item(NoMode, 0, false), Item(false, 0, false))
  const INITIAL := State(NO_VFO, NO_VFO, Item(false, 0, false), Item(A, 0, false))

  function Other(v: Ab): Ab {
    if v == A then B else A
  }

  function WithData(base: Mode, data: bool): Mode {
    if !data then base
    else match base
      case LSB => PKTLSB
      case USB => PKTUSB
      case AM => PKTAM
      case FM => PKTFM
      case _ => base
  }

  function WithoutData(m: Mode): (r: (Mode, bool))
    ensures WithData(r.0, r.1) == m
  {
    match m
    case PKTLSB => (LSB, true)
    case PKTUSB => (USB, true)
    case PKTAM => (AM, true)
    case PKTFM => (FM, true)
    case _ => (m, false)
  }

  function Get(s: State, slot: Slot): Vfo {
    if slot == Sel then s.sel else s.unsel
  }

  function Put(s: State, slot: Slot, v: Vfo): State {
    if slot == Sel then s.(sel := v) else s.(unsel := v)
  }

  function Invalidate<T>(it: Item<T>): Item<T> {
    it.(valid := false)
  }

  function InvalidVfo(v: Vfo): Vfo {
    Vfo(Invalidate(v.freq), Invalidate(v.mode), Invalidate(v.data))
  }

  /** What one setter does to the VFO it addresses. */
  function VfoFreq(v: Vfo, hz: nat, t: nat): Vfo {
    v.(freq := Item(hz, t, true))
  }

  function VfoMode(v: Vfo, m: Mode, t: nat): Vfo {
    if m == NoMode then v
    else
      var (base, data) := WithoutData(m);
      var kept := if !v.mode.valid || v.mode.val != base then Invalidate(v.data) else v.data;
      v.(mode := Item(base, t, true), data := if data then Item(true, t, true) else kept)
  }

  function VfoData(v: Vfo, data: bool, t: nat): Vfo {
    v.(data := Item(data, t, true))
  }

  function SetFreq(s: State, slot: Slot, hz: nat, t: nat): State {
    Put(s, slot, VfoFreq(Get(s, slot), hz, t))
  }

  function SetMode(s: State, slot: Slot, m: Mode, t: nat): State {
    Put(s, slot, VfoMode(Get(s, slot), m, t))
  }

  function SetData(s: State, slot: Slot, data: bool, t: nat): State {
    Put(s, slot, VfoData(Get(s, slot), data, t))
  }

  function SetSplit(s: State, split: bool, t: nat): State {
    s.(split := Item(split, t, true))
  }

  function Exchange(s: State): State {
    s.(sel := s.unsel, unsel := s.sel)
  }

  function Equalize(s: State): State {
    s.(unsel := s.sel)
  }

  function SelectVfo(s: State, v: Ab, t: nat): State {
    var s1 := if s.ab.valid
              then if s.ab.val != v then Exchange(s) else s
              else s.(sel := InvalidVfo(s.sel), unsel := InvalidVfo(s.unsel));
    s1.(ab := Item(v, t, true))
  }

  function VfoModeOf(v: Vfo): Mode {
    if !v.mode.valid then NoMode else WithData(v.mode.val, v.data.valid && v.data.val)
  }

  function ModeOf(s: State, slot: Slot): Mode {
    VfoModeOf(Get(s, slot))
  }

  function FreqOf(v: Vfo): nat {
    if v.freq.valid then v.freq.val else 0
  }

  function RxFreq(s: State): nat {
    FreqOf(s.sel)
  }

  function TxFreq(s: State): nat {
    if s.split.valid && s.split.val then FreqOf(s.unsel) else RxFreq(s)
  }

  /** The slot that holds VFO v. */
  function SlotOf(s: State, v: Ab): Slot {
    if v == s.ab.val then Sel else Unsel
  }

  /** struct cat_state: every setter updates the fields in place. */
  class RadioState {
    var sel: Vfo
    var unsel: Vfo
    var split: Item<bool>
    var ab: Item<Ab>

    function Value(): State
      reads this
    {
      State(sel, unsel, split, ab)
    }

    constructor ()
      ensures Value() == INITIAL
    {
      sel, unsel, split, ab := NO_VFO, NO_VFO, Item(false, 0, false), Item(A, 0, false);
    }

    method Freq(slot: Slot, hz: nat, t: nat)
      modifies this
      ensures Value() == SetFreq(old(Value()), slot, hz, t)
    {
      if slot == Sel {
        sel := sel.(freq := Item(hz, t, true));
      } else {
        unsel := unsel.(freq := Item(hz, t, true));
      }
    }

    method Mode(slot: Slot, m: Mode, t: nat)
      modifies this
      ensures Value() == SetMode(old(Value()), slot, m, t)
    {
      if m == NoMode {
        return;
      }
      var v := if slot == Sel then sel else unsel;
      var (base, data) := WithoutData(m);
      // A new base mode says nothing about the flag.
      if !v.mode.valid || v.mode.val != base {
        v := v.(data := v.data.(valid := false));
      }
      v := v.(mode := Item(base, t, true));
      if data {
        v := v.(data := Item(true, t, true));
      }
      if slot == Sel {
        sel := v;
      } else {
        unsel := v;
      }
    }

    method Data(slot: Slot, data: bool, t: nat)
      modifies this
      ensures Value() == SetData(old(Value()), slot, data, t)
    {
      if slot == Sel {
        sel := sel.(data := Item(data, t, true));
      } else {
        unsel := unsel.(data := Item(data, t, true));
      }
    }

    method Split(on: bool, t: nat)
      modifies this
      ensures Value() == SetSplit(old(Value()), on, t)
    {
      split := Item(on, t, true);
    }

    method SwapVfos()
      modifies this
      ensures Value() == Exchange(old(Value()))
    {
      sel, unsel := unsel, sel;
    }

    method EqualizeVfos()
      modifies this
      ensures Value() == Equalize(old(Value()))
    {
      unsel := sel;
    }

    method Select(v: Ab, t: nat)
      modifies this
      ensures Value() == SelectVfo(old(Value()), v, t)
    {
      if ab.valid {
        if ab.val != v {
          SwapVfos();
        }
      } else {
        sel := InvalidVfo(sel);
        unsel := InvalidVfo(unsel);
      }
      ab := Item(v, t, true);
    }
  }
}
