/** The transmitting VFO, split and the selection fit together. */
module AsciiSplit {
  import opened Cat
  import opened CatState
  import opened CatStateVfos
  import opened AsciiNumbers
  import opened AsciiTables
  import opened Wrappers

  /** While the transmitting VFO is known, split tells whether it is the one that receives. */
  predicate SplitKnown(v: Tracked) {
    v.tx.Some? ==> SplitTells(v.st, v.tx.value)
  }

  /**
   * The frame that tears them apart: an IF answer with a good layout that selects the other VFO,
   * but has a mode code that is none, while the transmitting VFO is known.
   */
  predicate Tears(cfg: Cfg, v: Tracked, s: text) {
    && cfg.dialect != Yaesu && Named(s, 'I', 'F') && IfFits(s) && !IfShowsTx(s)
    && IsVfoDigit(s[30]) && VfoDigit(s[30]) != v.st.ab.val
    && !IsModeCode(cfg, false, s[29]) && v.tx.Some?
  }

  /** Selection, split and transmitting VFO are the same in both. */
  predicate SameVfos(v: Tracked, w: Tracked) {
    v.st.ab == w.st.ab && v.st.split == w.st.split && v.tx == w.tx
  }

  lemma ModeCodeLeavesVfos(cfg: Cfg, v: Tracked, ab: Ab, b: byte, dataCodes: bool, t: nat)
    ensures var (w, r) := ApplyModeCode(cfg, v, ab, b, dataCodes, t);
            SameVfos(v, w) && (r == Invalid <==> !IsModeCode(cfg, dataCodes, b)) && (r == Invalid ==> w == v)
  {
    hide ModeKenwood, ModeFlex, ModeYaesu;
  }

  lemma SettableLeavesVfos(cfg: Cfg, v: Tracked, s: text, t: nat)
    requires IsSettable(cfg, s)
    ensures SameVfos(v, ApplySettable(cfg, v, s, true, t).0)
    ensures !NamedZz(s, 'S', 'P') ==> SameVfos(v, ApplySettable(cfg, v, s, false, t).0)
  {
    hide ModeKenwood, ModeFlex, ModeYaesu, ApplyModeCode, FreqField;
    forall ab, b, d {
      ModeCodeLeavesVfos(cfg, v, ab, b, d, t);
    }
  }

  /** Clients' and mhuxd's own frames never touch the selection or split. */
  lemma HostFramesLeaveVfos(cfg: Cfg, v: Tracked, s: text, t: nat)
    ensures SameVfos(v, ApplyFrame(cfg, v, s, true, t).0)
  {
    hide ApplySettable;
    if |s| >= 2 && IsSettable(cfg, s) {
      SettableLeavesVfos(cfg, v, s, t);
    }
  }

  lemma SettableKeeps(cfg: Cfg, v: Tracked, s: text, t: nat)
    requires IsSettable(cfg, s) && v.st.ab.valid && SplitKnown(v)
    ensures var w := ApplySettable(cfg, v, s, false, t).0;
            w.st.ab.valid && SplitKnown(w)
  {
    SettableLeavesVfos(cfg, v, s, t);
    hide CmdMode, CmdData, CmdFreq;
    if NamedZz(s, 'S', 'P') {
      assert ApplySettable(cfg, v, s, false, t) == CmdZz(v, s, t);
    }
  }

  lemma IfKenwood(cfg: Cfg, v: Tracked, s: text, t: nat)
    requires cfg.dialect != Yaesu && Named(s, 'I', 'F') && v.st.ab.valid && SplitKnown(v)
    ensures var (w, r) := CmdIfKenwood(cfg, v, s, t);
            && w.st.ab.valid
            && (SplitKnown(w) <==> !Tears(cfg, v, s))
            && (Tears(cfg, v, s) ==> r == Invalid)
  {
    hide ApplyModeCode, FreqField;
    if IfFits(s) && !IfShowsTx(s) {
      var v1 := IfSelect(v, s, t);
      var v2 := SetVfoFreq(v1, v1.st.ab.val, FreqField(s[2..13]).value, t);
      ModeCodeLeavesVfos(cfg, v2, v2.st.ab.val, s[29], false, t);
    }
  }

  lemma AnswerKeeps(cfg: Cfg, v: Tracked, s: text, t: nat)
    requires |s| >= 2 && v.st.ab.valid && SplitKnown(v)
    ensures var (w, r) := ApplyAnswer(cfg, v, s, t);
            && w.st.ab.valid
            && (SplitKnown(w) <==> !Tears(cfg, v, s))
            && (Tears(cfg, v, s) ==> r == Invalid)
  {
    hide ApplyModeCode, FreqField;
    if cfg.dialect != Yaesu && Named(s, 'I', 'F') {
      IfKenwood(cfg, v, s, t);
    } else {
      forall ab, b, d, w {
        ModeCodeLeavesVfos(cfg, w, ab, b, d, t);
      }
    }
  }

  /**
   * Every frame keeps split telling whether the transmitting VFO is the one that receives, if
   * and only if it does not tear them apart, and every frame that does is reported BAD.
   */
  lemma FramesKeepSplit(cfg: Cfg, v: Tracked, s: text, fromHost: bool, t: nat)
    requires v.st.ab.valid && SplitKnown(v)
    ensures var (w, r) := ApplyFrame(cfg, v, s, fromHost, t);
            && w.st.ab.valid
            && (SplitKnown(w) <==> fromHost || !Tears(cfg, v, s))
            && (!fromHost && Tears(cfg, v, s) ==> r == Invalid)
  {
    if fromHost {
      HostFramesLeaveVfos(cfg, v, s, t);
    } else if |s| >= 2 {
      hide ApplySettable, ApplyAnswer, IfFits, IfShowsTx, IsModeCode;
      if IsSettable(cfg, s) {
        SettableKeeps(cfg, v, s, t);
      } else {
        AnswerKeeps(cfg, v, s, t);
      }
    }
  }

  /** An IF answer of 37 characters: 14.2 MHz, receiving, mode code 0, VFO B, no split. */
  function TornIf(): text {
    [0x49, 0x46] + Digits(14200000, 11) + seq(15, _ => 0x20)
    + [0x30, 0x30, 0x31, 0x20, 0x30, 0x20, 0x20, 0x20, 0x20]
  }

  /** The failing case is real: VFO A transmits and receives, and the radio shows VFO B in mode 0. */
  lemma SplitCanBeTorn(t: nat)
    ensures var cfg := Cfg(Kenwood, false);
            var st := INITIAL.(ab := Item(A, 0, true), split := Item(false, 0, true));
            var v := Tracked(st, Some(A), UNKNOWN, UNKNOWN);
            && SplitKnown(v)
            && ApplyFrame(cfg, v, TornIf(), false, t).1 == Invalid
            && !SplitKnown(ApplyFrame(cfg, v, TornIf(), false, t).0)
  {
    var cfg := Cfg(Kenwood, false);
    var v := Tracked(INITIAL.(ab := Item(A, 0, true), split := Item(false, 0, true)), Some(A), UNKNOWN, UNKNOWN);
    TornIfFits();
    hide FreqField, TornIf, ApplyFrame, IfFits;
    FramesKeepSplit(cfg, v, TornIf(), false, t);
  }

  lemma TornIfFits()
    ensures var s := TornIf();
            Named(s, 'I', 'F') && IfFits(s) && !IfShowsTx(s) && s[29] as char == '0' && s[30] as char == '1'
  {
    hide Digits, FreqField, AllDigits;
    TornIfReads();
    assert TornIf()[2..13] == Digits(14200000, 11);
  }

  lemma TornIfReads()
    ensures FreqField(Digits(14200000, 11)) == Some(14200000)
  {
    assert Pow10(11) == 100000000000;
    hide Digits;
    FreqFieldIsExact(Digits(14200000, 11), 14200000);
    hide FreqField, Pow10, AllDigits;
  }

  /** A frequency answer sets the VFO it names, whichever is selected, and leaves the other alone. */
  lemma FrequencyGoesToTheNamedVfo(cfg: Cfg, v: Tracked, s: text, fromHost: bool, t: nat)
    requires Named(s, 'F', 'A') || Named(s, 'F', 'B')
    ensures var (w, r) := ApplyFrame(cfg, v, s, fromHost, t);
            var ab := if s[1] as char == 'A' then A else B;
            && (r == Updated <==> FreqField(s[2..]).Some?)
            && Contents(Abstract(w.st), Other(ab)) == Contents(Abstract(v.st), Other(ab))
            && (r == Updated ==> FreqOf(Contents(Abstract(w.st), ab)) == FreqField(s[2..]).value)
            && (r != Updated ==> w == v)
            && SameVfos(v, w)
  {
    hide AllDigits;
  }

  /** Receiving on another VFO moves no contents, and split follows the transmitting VFO. */
  lemma SelectionMovesNothing(cfg: Cfg, v: Tracked, s: text, t: nat)
    requires |s| == 3 && IsVfoDigit(s[2]) && v.st.ab.valid
    requires if cfg.dialect == Yaesu then Named(s, 'V', 'S') else Named(s, 'F', 'R')
    ensures var (w, r) := ApplyFrame(cfg, v, s, false, t);
            && r == Updated
            && Abstract(w.st) == Abstract(v.st).(sel := VfoDigit(s[2]))
            && w.tx == v.tx && (v.tx.Some? ==> SplitTells(w.st, v.tx.value))
  {
  }
}
