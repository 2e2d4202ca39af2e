// The Zynaptik expansion: CV inputs turned into MIDI, and MIDI turned
// into CV outputs and gate outputs.
//
// A CV or gate output listens for the MIDI events whose 16-bit word
// `status << 8 | data1`, masked with the output's mask, equals its
// template.  A gate drives the level of a switch pin on the Zynaptik
// MCP23017; the writes to those pins are returned as a sequence.  The
// voltages themselves (the ADC reading scaled to a 16-bit value, the
// note-on CV value, the DAC refresh) are floating point and come in as
// parameters or are left out.
module Zynaptik {
  import opened CTypes
  import opened Limits
  import opened MidiCodec
  import opened Zyncoder

  const MAX_NUM_ZYNCVINS: nat := 4
  const MAX_NUM_ZYNCVOUTS: nat := 4
  const MAX_NUM_ZYNGATEOUTS: nat := 36

  /** The masks the setups use: note on and off of a channel, a whole status byte, a controller, a note. */
  const CVGATE_MASK: uint16 := 0xEF00
  const STATUS_MASK: uint16 := 0xFF00
  const CTRL_MASK: uint16 := 0xFF7F
  const GATE_MASK: uint16 := 0xEF7F

  /** One entry of `zyncvins`. */
  datatype CvIn = CvIn(enabled: bool, midiEvt: int, midiChan: byte, midiNum: byte, midiVal: uint16)

  /** One entry of `zyncvouts`; `temp` and `mask` are `midi_event_temp` and `midi_event_mask`. */
  datatype CvOut = CvOut(
    enabled: bool, midiEvt: int, midiChan: byte, midiNum: byte,
    note: seq<byte>, temp: uint16, mask: uint16, val: uint16)

  /** One entry of `zyngateouts`. */
  datatype GateOut = GateOut(enabled: bool, midiEvt: int, midiChan: byte, midiNum: byte, temp: uint16, mask: uint16)

  const ZeroCvIn := CvIn(false, 0, 0, 0, 0)
  const ZeroCvOut := CvOut(false, 0, 0, 0, seq(128, _ => 0), 0, 0, 0)
  const ZeroGateOut := GateOut(false, 0, 0, 0, 0, 0)

  /** A call of write_pin_zynmcp23017. */
  datatype PinWrite = PinWrite(pin: uint16, level: byte)

  // ---------------------------------------------------------------------
  // CV inputs
  // ---------------------------------------------------------------------

  /** The record setup_zynaptik_cvin stores. */
  function CvInConfigured(midiEvt: int, chan: byte, num: byte): (c: CvIn)
    ensures c.enabled && c.midiVal == 0 && c.midiChan < 16 && c.midiNum < 128
  {
    CvIn(true, midiEvt, chan % 16, num % 128, 0)
  }

  /**
   * zynaptik_cvin_to_midi for a 16-bit reading: a pitch-bend input always
   * sends the reading halved; any other input sends the reading's high
   * byte only when it differs from the last one sent, as a controller
   * change (to the router and the UI) or as channel pressure.
   */
  function CvInStep(c: CvIn, val: uint16): (r: (CvIn, seq<Emitted>))
    ensures r.0 == c.(midiVal := r.0.midiVal)
    ensures |r.1| <= 2
    ensures c.midiEvt != PITCH_BEND ==> r.0.midiVal == val / 256
    ensures c.midiEvt != PITCH_BEND && val / 256 == c.midiVal ==> r.1 == []
  {
    if c.midiEvt == PITCH_BEND then
      var v := val / 2;
      (c.(midiVal := v), [ToRouter(PitchBendBytes(c.midiChan, v))])
    else
      var v := val / 256;
      if v == c.midiVal then (c, [])
      else if c.midiEvt == CTRL_CHANGE then
        (c.(midiVal := v), CtrlChangeSent(c.midiChan, c.midiNum, v))
      else if c.midiEvt == CHAN_PRESS then
        (c.(midiVal := v), [ToRouter(ChanPressBytes(c.midiChan, v))])
      else
        (c.(midiVal := v), [])
  }

  /** Reading the same voltage twice sends a controller or pressure value once. */
  lemma CvInSendsChangesOnly(c: CvIn, val: uint16)
    requires c.midiEvt != PITCH_BEND
    ensures CvInStep(CvInStep(c, val).0, val).1 == []
    ensures CvInStep(c, val).1 != [] <==> val / 256 != c.midiVal && (c.midiEvt == CTRL_CHANGE || c.midiEvt == CHAN_PRESS)
  {
  }

  /**
   * A pitch-bend input sends every reading; for the readings the poll
   * loop produces (0..32767) the bend a receiver decodes is the reading
   * halved.
   */
  lemma CvInPitchBendCarries(c: CvIn, val: uint16)
    requires c.midiEvt == PITCH_BEND && val < 0x8000
    ensures |CvInStep(c, val).1| == 1 && CvInStep(c, val).1[0].ToRouter?
    ensures var b := CvInStep(c, val).1[0].bytes;
      b[0] == StatusByte(PITCH_BEND, c.midiChan) && PitchBendValue(b[1], b[2]) == val / 2
    ensures CvInStep(c, val).0.midiVal == val / 2
  {
    PitchBendRoundTrip(c.midiChan, val / 2);
  }

  /** A controller input tells the router and the UI the same channel, controller and value. */
  lemma CvInControllerMirrorsUi(c: CvIn, val: uint16)
    requires c.midiEvt == CTRL_CHANGE && val / 256 != c.midiVal
    ensures var out := CvInStep(c, val).1;
      |out| == 2 && out[0].ToRouter? && out[1].ToUi? &&
      WordBytes(out[1].word) == [0xFF] + out[0].bytes &&
      out[0].bytes == [StatusByte(CTRL_CHANGE, c.midiChan), c.midiNum, val / 256]
  {
    UiWordRoundTrip(StatusByte(CTRL_CHANGE, c.midiChan), c.midiNum, val / 256);
  }

  // ---------------------------------------------------------------------
  // Event matching
  // ---------------------------------------------------------------------

  /** `buffer[0] << 8 | buffer[1]`. */
  function EventWord(b0: byte, b1: byte): uint16 {
    256 * b0 + b1
  }

  /** `midi_event_temp == (ev_data & midi_event_mask)`. */
  predicate Matches(temp: uint16, mask: uint16, b0: byte, b1: byte) {
    temp == BitAnd(EventWord(b0, b1), mask)
  }

  /**
   * `((kind & 0xF) << 12) | ((chan & 0xF) << 8) | (num & 0x7F)`: the
   * fields do not overlap, so the `|` is a sum.
   */
  function Template(kind: nat, chan: byte, num: byte): uint16 {
    0x1000 * (kind % 16) + 0x100 * (chan % 16) + num % 128
  }

  /** A 16-bit mask works on the status byte and on the data byte separately. */
  lemma WordMask(b0: byte, b1: byte, h: byte, l: byte)
    ensures BitAnd(EventWord(b0, b1), 256 * h + l) == 256 * BitAnd(b0, h) + BitAnd(b1, l)
  {
    Pow2Values();
    BitAndShift(b0, b1, h, l, 8);
  }

  /** `b & 0xFF` keeps the whole byte. */
  lemma AllEightBits(b: byte)
    ensures BitAnd(b, 0xFF) == b
  {
    Pow2Values();
    BitAndOnes(b, 8);
  }

  /** `b & 0x7F` keeps the seven data bits. */
  lemma {:induction false} LowSevenBits(b: byte)
    ensures BitAnd(b, 0x7F) == b % 128
  {
    Pow2Values();
    BitAndShift(b / 128, b % 128, 0, 0x7F, 7);
    BitAndZero(b / 128);
    BitAndOnes(b % 128, 7);
  }

  /** `b & 0xEF` clears bit 4, the bit that tells note-on from note-off. */
  lemma {:induction false} ClearBitFour(b: byte)
    ensures BitAnd(b, 0xEF) == 32 * (b / 16 / 2) + b % 16
  {
    var hi, lo := b / 16, b % 16;
    assert b == 16 * hi + lo;
    assert hi == 2 * (hi / 2) + hi % 2;
    Pow2Values();
    BitAndShift(hi, lo, 0xE, 0xF, 4);
    assert BitAnd(b, 0xEF) == 16 * BitAnd(hi, 0xE) + BitAnd(lo, 0xF);
    BitAndOnes(lo, 4);
    BitAndShift(hi / 2, hi % 2, 7, 0, 1);
    assert BitAnd(hi, 0xE) == 2 * BitAnd(hi / 2, 7) + BitAnd(hi % 2, 0);
    BitAndOnes(hi / 2, 3);
    BitAndZero(hi % 2);
  }

  /** A CV/gate template matches note-off and note-on on its channel, whatever the note. */
  lemma CvGateMatchesNotes(chan: byte, b0: byte, b1: byte)
    ensures Matches(Template(NOTE_OFF, chan, 0), CVGATE_MASK, b0, b1)
      <==> b0 == StatusByte(NOTE_OFF, chan) || b0 == StatusByte(NOTE_ON, chan)
  {
    var x := 32 * (b0 / 16 / 2) + b0 % 16;
    assert BitAnd(EventWord(b0, b1), CVGATE_MASK) == 256 * x + 0 by {
      WordMask(b0, b1, 0xEF, 0);
      ClearBitFour(b0);
      BitAndZero(b1);
    }
    assert Template(NOTE_OFF, chan, 0) == 256 * (0x80 + chan % 16) + 0;
    WordFields(x, 0, 0x80 + chan % 16, 0);
    assert x == 0x80 + chan % 16 <==> b0 / 16 / 2 == 4 && b0 % 16 == chan % 16;
  }

  /** A whole-status template matches exactly one status byte, whatever the data. */
  lemma StatusMatches(kind: int, chan: byte, b0: byte, b1: byte)
    requires NOTE_OFF <= kind <= PITCH_BEND
    ensures Matches(Template(kind, chan, 0), STATUS_MASK, b0, b1) <==> b0 == StatusByte(kind, chan)
  {
    assert BitAnd(EventWord(b0, b1), STATUS_MASK) == 256 * b0 + 0 by {
      WordMask(b0, b1, 0xFF, 0);
      AllEightBits(b0);
      BitAndZero(b1);
    }
    assert Template(kind, chan, 0) == 256 * StatusByte(kind, chan) + 0 by {
      assert kind % 16 == kind;
      assert 0x1000 * kind + 0x100 * (chan % 16) == 256 * (16 * kind + chan % 16);
    }
    WordFields(b0, 0, StatusByte(kind, chan), 0);
  }

  /** A controller template matches one controller on one channel. */
  lemma CtrlMatches(chan: byte, num: byte, b0: byte, b1: byte)
    ensures Matches(Template(CTRL_CHANGE, chan, num), CTRL_MASK, b0, b1)
      <==> b0 == StatusByte(CTRL_CHANGE, chan) && b1 % 128 == num % 128
  {
    assert BitAnd(EventWord(b0, b1), CTRL_MASK) == 256 * b0 + b1 % 128 by {
      WordMask(b0, b1, 0xFF, 0x7F);
      AllEightBits(b0);
      LowSevenBits(b1);
    }
    assert Template(CTRL_CHANGE, chan, num) == 256 * StatusByte(CTRL_CHANGE, chan) + num % 128 by {
      assert CTRL_CHANGE % 16 == CTRL_CHANGE;
      assert 0x1000 * CTRL_CHANGE + 0x100 * (chan % 16) == 256 * (16 * CTRL_CHANGE + chan % 16);
    }
    WordFields(b0, b1 % 128, StatusByte(CTRL_CHANGE, chan), num % 128);
  }

  /** A gate template matches note-off and note-on of one note on one channel. */
  lemma GateMatchesNote(chan: byte, num: byte, b0: byte, b1: byte)
    ensures Matches(Template(NOTE_OFF, chan, num), GATE_MASK, b0, b1)
      <==> (b0 == StatusByte(NOTE_OFF, chan) || b0 == StatusByte(NOTE_ON, chan)) && b1 % 128 == num % 128
  {
    var x := 32 * (b0 / 16 / 2) + b0 % 16;
    assert BitAnd(EventWord(b0, b1), GATE_MASK) == 256 * x + b1 % 128 by {
      WordMask(b0, b1, 0xEF, 0x7F);
      ClearBitFour(b0);
      LowSevenBits(b1);
    }
    assert Template(NOTE_OFF, chan, num) == 256 * (0x80 + chan % 16) + num % 128;
    WordFields(x, b1 % 128, 0x80 + chan % 16, num % 128);
    assert x == 0x80 + chan % 16 <==> b0 / 16 / 2 == 4 && b0 % 16 == chan % 16;
  }

  /** A 16-bit word has one high byte and one low byte. */
  lemma WordFields(x: nat, y: nat, x2: nat, y2: nat)
    requires y < 256 && y2 < 256
    ensures 256 * x + y == 256 * x2 + y2 <==> x == x2 && y == y2
  {
  }

  // ---------------------------------------------------------------------
  // Gates
  // ---------------------------------------------------------------------

  /**
   * What an event does to the gate of a switch: nothing, open it, close
   * it, or (for a CV/gate output) close it if open and open it again.
   */
  datatype Gate = GateKeep | GateOpen | GateClose | GateRetrigger

  /** `~off_state` stored in an 8-bit status and passed as an 8-bit level. */
  function OnLevel(offState: byte): (r: byte)
    ensures r != offState
  {
    255 - offState
  }

  /** A gate's effect on its switch, and the pin writes it makes. */
  function ApplyGate(sw: Switch, g: Gate): (r: (Switch, seq<PinWrite>))
    ensures r.0 == sw.(status := r.0.status)
    ensures g == GateKeep ==> r == (sw, [])
    ensures g == GateClose ==> r.0.status == sw.offState && r.1 == [PinWrite(sw.pin, sw.offState)]
    ensures g == GateOpen ==> r.0.status == OnLevel(sw.offState) && r.1 == [PinWrite(sw.pin, OnLevel(sw.offState))]
    ensures g == GateRetrigger ==> (|r.1| == 2 <==> sw.status != sw.offState) && 1 <= |r.1| <= 2
    ensures g == GateRetrigger ==> r.0.status == OnLevel(sw.offState) && r.1[|r.1| - 1] == PinWrite(sw.pin, OnLevel(sw.offState))
    ensures g == GateRetrigger && |r.1| == 2 ==> r.1[0] == PinWrite(sw.pin, sw.offState)
  {
    match g
    case GateKeep => (sw, [])
    case GateClose => (sw.(status := sw.offState), [PinWrite(sw.pin, sw.offState)])
    case GateOpen => (sw.(status := OnLevel(sw.offState)), [PinWrite(sw.pin, OnLevel(sw.offState))])
    case GateRetrigger =>
      var release := if sw.status != sw.offState then [PinWrite(sw.pin, sw.offState)] else [];
      (sw.(status := OnLevel(sw.offState)), release + [PinWrite(sw.pin, OnLevel(sw.offState))])
  }

  predicate TargetsFit(sws: seq<Switch>, gs: seq<(nat, Gate)>) {
    forall k :: 0 <= k < |gs| ==> gs[k].0 < |sws|
  }

  /** Gates applied in order to the switch table: the table afterwards and every pin write. */
  function ApplyGates(sws: seq<Switch>, gs: seq<(nat, Gate)>): (r: (seq<Switch>, seq<PinWrite>))
    requires TargetsFit(sws, gs)
    ensures |r.0| == |sws|
  {
    if gs == [] then (sws, [])
    else
      var p := ApplyGates(sws, gs[..|gs| - 1]);
      var j := gs[|gs| - 1].0;
      var u := ApplyGate(p.0[j], gs[|gs| - 1].1);
      (p.0[j := u.0], p.1 + u.1)
  }

  /** One more gate applies after the others; a kept gate is no gate at all. */
  lemma ApplyGatesSnoc(sws: seq<Switch>, gs: seq<(nat, Gate)>, j: nat, g: Gate)
    requires TargetsFit(sws, gs) && j < |sws|
    ensures TargetsFit(sws, gs + [(j, g)])
    ensures var p := ApplyGates(sws, gs);
      var u := ApplyGate(p.0[j], g);
      ApplyGates(sws, gs + [(j, g)]) == (p.0[j := u.0], p.1 + u.1)
  {
    assert (gs + [(j, g)])[..|gs|] == gs;
  }

  /** A loop step that drives one more gate keeps the table and the writes equal to the gates applied so far. */
  lemma GateStep(sws: seq<Switch>, before: seq<(nat, Gate)>, after: seq<(nat, Gate)>, j: nat, g: Gate,
                 cur: seq<Switch>, writes: seq<PinWrite>, next: seq<Switch>, w: seq<PinWrite>)
    requires TargetsFit(sws, before) && j < |sws| && after == before + [(j, g)]
    requires (cur, writes) == ApplyGates(sws, before)
    requires next == cur[j := ApplyGate(cur[j], g).0] && w == ApplyGate(cur[j], g).1
    ensures TargetsFit(sws, after) && (next, writes + w) == ApplyGates(sws, after)
  {
    ApplyGatesSnoc(sws, before, j, g);
  }

  /** Gates applied in two runs are the gates of both applied in one. */
  lemma {:induction false} ApplyGatesAppend(sws: seq<Switch>, gs: seq<(nat, Gate)>, hs: seq<(nat, Gate)>)
    requires TargetsFit(sws, gs) && TargetsFit(sws, hs)
    ensures TargetsFit(sws, gs + hs)
    ensures var p := ApplyGates(sws, gs);
      var q := ApplyGates(p.0, hs);
      ApplyGates(sws, gs + hs) == (q.0, p.1 + q.1)
  {
    if hs == [] {
      assert gs + hs == gs;
      var p := ApplyGates(sws, gs);
      assert ApplyGates(p.0, hs) == (p.0, []);
      assert p.1 + [] == p.1;
    } else {
      var h := hs[..|hs| - 1];
      var j, g := hs[|hs| - 1].0, hs[|hs| - 1].1;
      assert hs == h + [(j, g)] && j < |sws|;
      assert TargetsFit(sws, h) by {
        assert forall m :: 0 <= m < |h| ==> h[m] == hs[m];
      }
      ApplyGatesAppend(sws, gs, h);
      var p := ApplyGates(sws, gs);
      var q := ApplyGates(p.0, h);
      var u := ApplyGate(q.0[j], g);
      ApplyGatesSnoc(sws, gs + h, j, g);
      ApplyGatesSnoc(p.0, h, j, g);
      ConcatAssoc(gs, h, [(j, g)]);
      ConcatAssoc(p.1, q.1, u.1);
    }
  }

  /** Applying gates changes nothing but the statuses of the switches they name. */
  lemma {:induction false} ApplyGatesTouchesTargets(sws: seq<Switch>, gs: seq<(nat, Gate)>, j: nat)
    requires TargetsFit(sws, gs) && j < |sws|
    ensures ApplyGates(sws, gs).0[j] == sws[j].(status := ApplyGates(sws, gs).0[j].status)
    ensures (forall k :: 0 <= k < |gs| ==> gs[k].0 != j) ==> ApplyGates(sws, gs).0[j] == sws[j]
  {
    if gs != [] {
      ApplyGatesTouchesTargets(sws, gs[..|gs| - 1], j);
    }
  }

  /** After closing gates only, every switch named is at its off level. */
  lemma {:induction false} ClosedGatesAreOff(sws: seq<Switch>, gs: seq<(nat, Gate)>, k: nat)
    requires TargetsFit(sws, gs)
    requires forall m :: 0 <= m < |gs| ==> gs[m].1 == GateClose
    requires k < |gs|
    ensures ApplyGates(sws, gs).0[gs[k].0].status == sws[gs[k].0].offState
    ensures |ApplyGates(sws, gs).1| == |gs|
  {
    var p := gs[..|gs| - 1];
    var j := gs[k].0;
    ApplyGatesTouchesTargets(sws, p, j);
    if k < |gs| - 1 {
      ClosedGatesAreOff(sws, p, k);
    } else if p != [] {
      ClosedGatesAreOff(sws, p, 0);
    }
  }

  /** A switch some gate closes is at its off level once only closing gates are applied. */
  lemma ClosedTargetIsOff(sws: seq<Switch>, gs: seq<(nat, Gate)>, j: nat, i: nat)
    requires TargetsFit(sws, gs)
    requires forall m :: 0 <= m < |gs| ==> gs[m].1 == GateClose
    requires i < |gs| && gs[i].0 == j
    ensures j < |sws| && ApplyGates(sws, gs).0[j].status == sws[j].offState
    ensures |ApplyGates(sws, gs).1| == |gs|
  {
    ClosedGatesAreOff(sws, gs, i);
  }

  // ---------------------------------------------------------------------
  // CV outputs
  // ---------------------------------------------------------------------

  /**
   * zynaptik_setup_cvout: a CV/gate output listens for note on and off
   * on its channel, a pitch-bend or pressure output for its status byte,
   * a controller output for its controller; the slot is cleared and
   * enabled.  Any other kind leaves the slot as it was.
   */
  function CvOutConfigured(c: CvOut, midiEvt: int, chan: byte, num: byte): (r: CvOut)
    ensures midiEvt !in {CVGATE_OUT_EVENT, PITCH_BEND, CHAN_PRESS, CTRL_CHANGE} ==> r == c
    ensures midiEvt in {CVGATE_OUT_EVENT, PITCH_BEND, CHAN_PRESS, CTRL_CHANGE} ==>
      r.enabled && r.val == 0 && r.note == seq(128, _ => 0) && r.midiChan == chan % 16 && r.midiNum == num % 128
  {
    var c' :=
      if midiEvt == CVGATE_OUT_EVENT then c.(mask := CVGATE_MASK, temp := Template(NOTE_OFF, chan, 0))
      else if midiEvt == PITCH_BEND || midiEvt == CHAN_PRESS then c.(mask := STATUS_MASK, temp := Template(midiEvt, chan, 0))
      else if midiEvt == CTRL_CHANGE then c.(mask := CTRL_MASK, temp := Template(midiEvt, chan, num))
      else c;
    if midiEvt !in {CVGATE_OUT_EVENT, PITCH_BEND, CHAN_PRESS, CTRL_CHANGE} then c
    else c'.(midiEvt := midiEvt, midiChan := chan % 16, midiNum := num % 128, note := seq(128, _ => 0), val := 0, enabled := true)
  }

  /** The events a configured CV output listens for, by kind. */
  lemma CvOutListensFor(c: CvOut, midiEvt: int, chan: byte, num: byte, b0: byte, b1: byte)
    requires midiEvt in {CVGATE_OUT_EVENT, PITCH_BEND, CHAN_PRESS, CTRL_CHANGE}
    ensures var r := CvOutConfigured(c, midiEvt, chan, num);
      Matches(r.temp, r.mask, b0, b1) <==>
        if midiEvt == CVGATE_OUT_EVENT then b0 == StatusByte(NOTE_OFF, chan) || b0 == StatusByte(NOTE_ON, chan)
        else if midiEvt == CTRL_CHANGE then b0 == StatusByte(CTRL_CHANGE, chan) && b1 % 128 == num % 128
        else b0 == StatusByte(midiEvt, chan)
  {
    if midiEvt == CVGATE_OUT_EVENT {
      CvGateMatchesNotes(chan, b0, b1);
    } else if midiEvt == CTRL_CHANGE {
      CtrlMatches(chan, num, b0, b1);
    } else {
      StatusMatches(midiEvt, chan, b0, b1);
    }
  }

  /**
   * The CV slot setup_zynswitch_midi sets up for a CV/gate switch, as
   * written: the switch's `midi_num`, unchecked.
   */
  function SwitchCvSlotAsWritten(num: byte): nat {
    num as nat
  }

  /** A switch's note number can name a CV slot past the four-slot table. */
  lemma SwitchCvSlotAsWrittenPastTable()
    ensures exists num: byte :: SwitchCvSlotAsWritten(num) >= MAX_NUM_ZYNCVOUTS
  {
    assert SwitchCvSlotAsWritten(MAX_NUM_ZYNCVOUTS as byte) >= MAX_NUM_ZYNCVOUTS;
  }

  /**
   * The CV output a switch sets up as a CV/gate output drives that
   * switch's gate: it retriggers on a note-on with velocity on its
   * channel and closes on the note-off or the note-on with velocity 0.
   */
  lemma SwitchCvGateDrivesSwitch(c: CvOut, chan: byte, i: byte, b: seq<byte>, noteCv: uint16)
    requires i < MAX_NUM_ZYNSWITCHES && |b| >= 3 && b[1] < 128 && b[2] < 128
    requires b[0] == StatusByte(NOTE_ON, chan) || b[0] == StatusByte(NOTE_OFF, chan)
    ensures CvOutGates([CvOutConfigured(c, CVGATE_OUT_EVENT, chan, i)], b, noteCv)
      == [(i as nat, if b[0] == StatusByte(NOTE_ON, chan) && b[2] > 0 then GateRetrigger else GateClose)]
  {
    var r := CvOutConfigured(c, CVGATE_OUT_EVENT, chan, i);
    CvOutListensFor(c, CVGATE_OUT_EVENT, chan, i, b[0], b[1]);
    StatusByteFields(NOTE_ON, chan);
    StatusByteFields(NOTE_OFF, chan);
    CvOutReacts(r, b, noteCv);
    assert [r][..0] == [];
    assert r.midiNum as nat == i as nat;
  }

  /** The CV value zynaptik_midi_to_cvout computes for channel pressure, as written: from the third byte. */
  function ChanPressCvAsWritten(b: seq<byte>): uint16
    requires |b| >= 3
  {
    128 * (b[2] as int)
  }

  /**
   * Channel pressure is a two-byte message, so `buffer[2]` of the JACK
   * event is the byte after it, whose value is unspecified.  With a 0
   * there (here the zero the router's three-byte record carries) the CV
   * as written is 0 whatever the pressure.
   */
  lemma ChanPressAsWrittenIgnoresPressure(chan: byte, v: byte)
    ensures ChanPressCvAsWritten(ChanPressBytes(chan, v)) == 0
  {
  }

  /**
   * One CV output's answer to an event: its new record, and what it does
   * to the gate of switch `midiNum`.  Channel pressure takes its value
   * from the pressure byte (see ChanPressCvAsWritten); `noteCv` is the
   * floating-point CV a note-on sets.
   */
  function CvOutAction(c: CvOut, b: seq<byte>, noteCv: uint16): (r: (CvOut, Gate))
    requires |b| >= 3
    ensures r.0 == c.(val := r.0.val)
    ensures r.1 != GateKeep ==> b[0] / 16 in {NOTE_OFF, NOTE_ON}
  {
    var t := b[0] / 16;
    if t < NOTE_OFF || t > PITCH_BEND || !c.enabled || !Matches(c.temp, c.mask, b[0], b[1]) then (c, GateKeep)
    else if t == NOTE_ON && b[2] > 0 then (c.(val := noteCv), GateRetrigger)
    else if t == NOTE_OFF || t == NOTE_ON then (c, GateClose)
    else if t == PITCH_BEND then (c.(val := ReceivedPitchBend(b[1], b[2])), GateKeep)
    else if t == CTRL_CHANGE then (c.(val := 128 * (b[2] as int)), GateKeep)
    else if t == CHAN_PRESS then (c.(val := 128 * (b[1] as int)), GateKeep)
    else (c, GateKeep)
  }

  /** What a listening CV output does, by event: notes drive the gate, the others set the CV from the message's value. */
  lemma CvOutReacts(c: CvOut, b: seq<byte>, noteCv: uint16)
    requires |b| >= 3 && c.enabled && Matches(c.temp, c.mask, b[0], b[1]) && b[1] < 128 && b[2] < 128
    ensures b[0] / 16 == NOTE_ON && b[2] > 0 ==> CvOutAction(c, b, noteCv) == (c.(val := noteCv), GateRetrigger)
    ensures b[0] / 16 == NOTE_OFF || (b[0] / 16 == NOTE_ON && b[2] == 0) ==> CvOutAction(c, b, noteCv) == (c, GateClose)
    ensures b[0] / 16 == PITCH_BEND ==> CvOutAction(c, b, noteCv).0.val == PitchBendValue(b[1], b[2])
    ensures b[0] / 16 == CTRL_CHANGE ==> CvOutAction(c, b, noteCv).0.val / 128 == b[2]
    ensures b[0] / 16 == CHAN_PRESS ==> CvOutAction(c, b, noteCv).0.val / 128 == b[1]
  {
  }

  /** The pressure a router message carries comes out as the CV, unlike ChanPressCvAsWritten. */
  lemma ChanPressSetsCv(c: CvOut, chan: byte, v: byte, noteCv: uint16)
    requires c.enabled && Matches(c.temp, c.mask, StatusByte(CHAN_PRESS, chan), v)
    ensures CvOutAction(c, ChanPressBytes(chan, v), noteCv).0.val == 128 * v
  {
  }

  /** The gate effects of the CV outputs, in slot order, each with the switch it drives. */
  function CvOutGates(cvs: seq<CvOut>, b: seq<byte>, noteCv: uint16): (gs: seq<(nat, Gate)>)
    requires |b| >= 3
    ensures |gs| <= |cvs|
    ensures forall k :: 0 <= k < |gs| ==> gs[k].1 != GateKeep
  {
    if cvs == [] then []
    else
      var c := cvs[|cvs| - 1];
      var g := CvOutAction(c, b, noteCv).1;
      CvOutGates(cvs[..|cvs| - 1], b, noteCv) + (if g == GateKeep then [] else [(c.midiNum as nat, g)])
  }

  /** The switches the CV outputs drive for this event exist. */
  predicate GateTargetsExist(cvs: seq<CvOut>, b: seq<byte>, noteCv: uint16)
    requires |b| >= 3
  {
    forall k :: 0 <= k < |cvs| && CvOutAction(cvs[k], b, noteCv).1 != GateKeep ==> cvs[k].midiNum < MAX_NUM_ZYNSWITCHES
  }

  /** Output `i`'s answer extends the gates applied so far by its own gate, if it has one. */
  lemma CvOutGateStep(sws: seq<Switch>, cvs: seq<CvOut>, i: nat, b: seq<byte>, noteCv: uint16,
                      cur: seq<Switch>, writes: seq<PinWrite>, next: seq<Switch>, w: seq<PinWrite>)
    requires |b| >= 3 && i < |cvs| && |sws| == MAX_NUM_ZYNSWITCHES && GateTargetsExist(cvs, b, noteCv)
    requires TargetsFit(sws, CvOutGates(cvs[..i], b, noteCv))
    requires (cur, writes) == ApplyGates(sws, CvOutGates(cvs[..i], b, noteCv))
    requires var g := CvOutAction(cvs[i], b, noteCv).1;
      && (g == GateKeep ==> next == cur && w == [])
      && (g != GateKeep ==> var u := ApplyGate(cur[cvs[i].midiNum], g); next == cur[cvs[i].midiNum := u.0] && w == u.1)
    ensures TargetsFit(sws, CvOutGates(cvs[..i + 1], b, noteCv))
    ensures (next, writes + w) == ApplyGates(sws, CvOutGates(cvs[..i + 1], b, noteCv))
  {
    var before := CvOutGates(cvs[..i], b, noteCv);
    var after := CvOutGates(cvs[..i + 1], b, noteCv);
    var g := CvOutAction(cvs[i], b, noteCv).1;
    CvOutGatesSnoc(cvs, i, b, noteCv);
    if g != GateKeep {
      var j := cvs[i].midiNum as nat;
      assert j < MAX_NUM_ZYNSWITCHES;
      assert after == before + [(j, g)];
      var u := ApplyGate(cur[j], g);
      assert next == cur[j := u.0] && w == u.1;
      GateStep(sws, before, after, j, g, cur, writes, next, w);
    } else {
      assert after == before && next == cur && w == [];
      assert writes + w == writes;
    }
  }

  /** The gates of the first i + 1 outputs are those of the first i and output i's own, if it has one. */
  lemma CvOutGatesSnoc(cvs: seq<CvOut>, i: nat, b: seq<byte>, noteCv: uint16)
    requires |b| >= 3 && i < |cvs|
    ensures var g := CvOutAction(cvs[i], b, noteCv).1;
      CvOutGates(cvs[..i + 1], b, noteCv)
        == CvOutGates(cvs[..i], b, noteCv) + (if g == GateKeep then [] else [(cvs[i].midiNum as nat, g)])
  {
    assert cvs[..i + 1][..i] == cvs[..i];
    assert cvs[..i + 1][i] == cvs[i];
  }

  lemma {:induction false} CvOutGatesFit(cvs: seq<CvOut>, b: seq<byte>, noteCv: uint16, sws: seq<Switch>)
    requires |b| >= 3 && GateTargetsExist(cvs, b, noteCv) && |sws| == MAX_NUM_ZYNSWITCHES
    ensures TargetsFit(sws, CvOutGates(cvs, b, noteCv))
  {
    if cvs != [] {
      CvOutGatesFit(cvs[..|cvs| - 1], b, noteCv, sws);
    }
  }

  /** Only note events reach the gates. */
  lemma {:induction false} CvOutGatesOfOtherEvents(cvs: seq<CvOut>, b: seq<byte>, noteCv: uint16)
    requires |b| >= 3 && b[0] / 16 !in {NOTE_OFF, NOTE_ON}
    ensures CvOutGates(cvs, b, noteCv) == []
  {
    if cvs != [] {
      CvOutGatesOfOtherEvents(cvs[..|cvs| - 1], b, noteCv);
    }
  }

  // ---------------------------------------------------------------------
  // Gate outputs
  // ---------------------------------------------------------------------

  /** zynaptik_setup_gateout: a gate output listens for one note on one channel; any other kind is ignored. */
  function GateOutConfigured(g: GateOut, midiEvt: int, chan: byte, num: byte): (r: GateOut)
    ensures midiEvt != GATE_OUT_EVENT ==> r == g
    ensures midiEvt == GATE_OUT_EVENT ==> r.enabled && r.midiChan == chan % 16 && r.midiNum == num % 128
  {
    if midiEvt != GATE_OUT_EVENT then g
    else GateOut(true, midiEvt, chan % 16, num % 128, Template(NOTE_OFF, chan, num), GATE_MASK)
  }

  /** What an event does to the gate of a gate output. */
  function GateOutAction(g: GateOut, b: seq<byte>): Gate
    requires |b| >= 3
  {
    var t := b[0] / 16;
    if t < NOTE_OFF || t > NOTE_ON || !g.enabled || !Matches(g.temp, g.mask, b[0], b[1]) then GateKeep
    else if t == NOTE_ON && b[2] > 0 then GateOpen
    else GateClose
  }

  /**
   * A configured gate output opens on a note-on with velocity of its
   * channel and note, closes on the note-off or the note-on with velocity
   * 0, and ignores every other message.
   */
  lemma GateOutFollowsNote(g: GateOut, chan: byte, num: byte, b: seq<byte>)
    requires |b| >= 3
    ensures var r := GateOutConfigured(g, GATE_OUT_EVENT, chan, num);
      var mine := b[1] % 128 == num % 128;
      && (b[0] == StatusByte(NOTE_ON, chan) && mine && b[2] > 0 <==> GateOutAction(r, b) == GateOpen)
      && ((b[0] == StatusByte(NOTE_OFF, chan) || (b[0] == StatusByte(NOTE_ON, chan) && b[2] == 0)) && mine <==>
            GateOutAction(r, b) == GateClose)
  {
    GateMatchesNote(chan, num, b[0], b[1]);
  }

  /** The gate effects of gate outputs `from..` in slot order; gate output k drives switch k. */
  function GateOutGates(gos: seq<GateOut>, b: seq<byte>): (gs: seq<(nat, Gate)>)
    requires |b| >= 3
    ensures forall k :: 0 <= k < |gs| ==> gs[k].0 < |gos| && gs[k].1 != GateKeep
  {
    if gos == [] then []
    else
      var k := |gos| - 1;
      var g := GateOutAction(gos[k], b);
      GateOutGates(gos[..k], b) + (if g == GateKeep then [] else [(k as nat, g)])
  }

  /** The gates zynaptik_all_gates_off closes: the CV/gate outputs' switches, then the gate outputs'. */
  function CvGatesOff(cvs: seq<CvOut>): (gs: seq<(nat, Gate)>)
    ensures forall k :: 0 <= k < |gs| ==> gs[k].1 == GateClose
  {
    if cvs == [] then []
    else
      var c := cvs[|cvs| - 1];
      CvGatesOff(cvs[..|cvs| - 1]) + (if c.enabled && c.mask == CVGATE_MASK then [(c.midiNum as nat, GateClose)] else [])
  }

  function GateOutsOff(gos: seq<GateOut>): (gs: seq<(nat, Gate)>)
    ensures forall k :: 0 <= k < |gs| ==> gs[k].0 < |gos| && gs[k].1 == GateClose
  {
    if gos == [] then []
    else
      var k := |gos| - 1;
      GateOutsOff(gos[..k]) + (if gos[k].enabled && gos[k].mask == GATE_MASK then [(k as nat, GateClose)] else [])
  }

  /** Every enabled CV/gate output drives an existing switch. */
  predicate CvGatesExist(cvs: seq<CvOut>) {
    forall k :: 0 <= k < |cvs| && cvs[k].enabled && cvs[k].mask == CVGATE_MASK ==> cvs[k].midiNum < MAX_NUM_ZYNSWITCHES
  }

  lemma {:induction false} CvGatesOffFit(cvs: seq<CvOut>, sws: seq<Switch>)
    requires CvGatesExist(cvs) && |sws| == MAX_NUM_ZYNSWITCHES
    ensures TargetsFit(sws, CvGatesOff(cvs))
  {
    if cvs != [] {
      CvGatesOffFit(cvs[..|cvs| - 1], sws);
    }
  }

  /** A gate output that is enabled with a gate mask has its switch closed by all_gates_off. */
  lemma {:induction false} GateOutsOffCovers(gos: seq<GateOut>, k: nat)
    requires k < |gos| && gos[k].enabled && gos[k].mask == GATE_MASK
    ensures (k, GateClose) in GateOutsOff(gos)
  {
    if k < |gos| - 1 {
      GateOutsOffCovers(gos[..|gos| - 1], k);
      assert gos[..|gos| - 1][k] == gos[k];
    }
  }

  /**
   * After zynaptik_all_gates_off, every switch a gate output drives is at
   * its off level, and the pins were written once per gate closed.
   */
  lemma AllGatesOffCloses(sws: seq<Switch>, cvs: seq<CvOut>, gos: seq<GateOut>, k: nat)
    requires CvGatesExist(cvs) && |sws| == MAX_NUM_ZYNSWITCHES && |gos| <= MAX_NUM_ZYNSWITCHES
    requires k < |gos| && gos[k].enabled && gos[k].mask == GATE_MASK
    ensures TargetsFit(sws, CvGatesOff(cvs) + GateOutsOff(gos))
    ensures ApplyGates(sws, CvGatesOff(cvs) + GateOutsOff(gos)).0[k].status == sws[k].offState
    ensures |ApplyGates(sws, CvGatesOff(cvs) + GateOutsOff(gos)).1| == |CvGatesOff(cvs)| + |GateOutsOff(gos)|
  {
    var a, g := CvGatesOff(cvs), GateOutsOff(gos);
    CvGatesOffFit(cvs, sws);
    ClosedGatesConcat(sws, a, g);
    GateOutsOffCovers(gos, k);
    var m :| 0 <= m < |g| && g[m] == (k, GateClose);
    assert (a + g)[|a| + m] == (k, GateClose);
    ClosedTargetIsOff(sws, a + g, k, |a| + m);
  }

  /** Two lists of closing gates that fit the switch table make one. */
  lemma ClosedGatesConcat(sws: seq<Switch>, a: seq<(nat, Gate)>, g: seq<(nat, Gate)>)
    requires TargetsFit(sws, a) && forall m :: 0 <= m < |a| ==> a[m].1 == GateClose
    requires forall m :: 0 <= m < |g| ==> g[m].0 < |sws| && g[m].1 == GateClose
    ensures TargetsFit(sws, a + g) && forall m :: 0 <= m < |a + g| ==> (a + g)[m].1 == GateClose
  {
    forall m | 0 <= m < |a + g|
      ensures (a + g)[m].0 < |sws| && (a + g)[m].1 == GateClose
    {
      if m < |a| {
        assert (a + g)[m] == a[m];
      } else {
        assert (a + g)[m] == g[m - |a|];
      }
    }
  }

  // ---------------------------------------------------------------------
  // The tables
  // ---------------------------------------------------------------------

  class Zynaptik {
    /** `zyncvins` */
    var cvins: array<CvIn>
    /** `zyncvouts` */
    var cvouts: array<CvOut>
    /** `zyngateouts` */
    var gateouts: array<GateOut>

    ghost predicate Valid()
      reads this
    {
      cvins.Length == MAX_NUM_ZYNCVINS && cvouts.Length == MAX_NUM_ZYNCVOUTS && gateouts.Length == MAX_NUM_ZYNGATEOUTS
    }

    constructor ()
      ensures Valid() && fresh(cvins) && fresh(cvouts) && fresh(gateouts)
      ensures forall i :: 0 <= i < MAX_NUM_ZYNCVINS ==> cvins[i] == ZeroCvIn
      ensures forall i :: 0 <= i < MAX_NUM_ZYNCVOUTS ==> cvouts[i] == ZeroCvOut
      ensures forall i :: 0 <= i < MAX_NUM_ZYNGATEOUTS ==> gateouts[i] == ZeroGateOut
    {
      cvins := new CvIn[MAX_NUM_ZYNCVINS](_ => ZeroCvIn);
      cvouts := new CvOut[MAX_NUM_ZYNCVOUTS](_ => ZeroCvOut);
      gateouts := new GateOut[MAX_NUM_ZYNGATEOUTS](_ => ZeroGateOut);
    }

    /** The table part of init_zynaptik: every input and output disabled. */
    method Reset()
      requires Valid()
      modifies cvins, cvouts, gateouts
      ensures Valid()
      ensures forall i :: 0 <= i < MAX_NUM_ZYNCVINS ==> cvins[i] == old(cvins[i]).(enabled := false)
      ensures forall i :: 0 <= i < MAX_NUM_ZYNCVOUTS ==> cvouts[i] == old(cvouts[i]).(enabled := false)
      ensures forall i :: 0 <= i < MAX_NUM_ZYNGATEOUTS ==> gateouts[i] == old(gateouts[i]).(enabled := false)
    {
      for i := 0 to MAX_NUM_ZYNCVINS
        modifies cvins
        invariant forall k :: 0 <= k < i ==> cvins[k] == old(cvins[k]).(enabled := false)
        invariant forall k :: i <= k < MAX_NUM_ZYNCVINS ==> cvins[k] == old(cvins[k])
      {
        cvins[i] := cvins[i].(enabled := false);
      }
      for i := 0 to MAX_NUM_ZYNCVOUTS
        modifies cvouts
        invariant forall k :: 0 <= k < i ==> cvouts[k] == old(cvouts[k]).(enabled := false)
        invariant forall k :: i <= k < MAX_NUM_ZYNCVOUTS ==> cvouts[k] == old(cvouts[k])
      {
        cvouts[i] := cvouts[i].(enabled := false);
      }
      for i := 0 to MAX_NUM_ZYNGATEOUTS
        modifies gateouts
        invariant forall k :: 0 <= k < i ==> gateouts[k] == old(gateouts[k]).(enabled := false)
        invariant forall k :: i <= k < MAX_NUM_ZYNGATEOUTS ==> gateouts[k] == old(gateouts[k])
      {
        gateouts[i] := gateouts[i].(enabled := false);
      }
    }

    /** setup_zynaptik_cvin */
    method SetupCvIn(i: byte, midiEvt: int, chan: byte, num: byte)
      requires Valid() && i < MAX_NUM_ZYNCVINS
      modifies cvins
      ensures Valid()
      ensures cvins[..] == old(cvins[..])[i := CvInConfigured(midiEvt, chan, num)]
    {
      cvins[i] := cvins[i].(midiEvt := midiEvt, midiChan := chan % 16, midiNum := num % 128, midiVal := 0, enabled := true);
    }

    /** zynaptik_disable_cvin */
    method DisableCvIn(i: byte)
      requires Valid() && i < MAX_NUM_ZYNCVINS
      modifies cvins
      ensures Valid()
      ensures cvins[..] == old(cvins[..])[i := old(cvins[i]).(enabled := false)]
    {
      cvins[i] := cvins[i].(enabled := false);
    }

    /** zynaptik_cvin_to_midi: the messages sent, and the input's new last value. */
    method CvInToMidi(i: byte, val: uint16) returns (out: seq<Emitted>)
      requires Valid() && i < MAX_NUM_ZYNCVINS
      modifies cvins
      ensures Valid()
      ensures var r := CvInStep(old(cvins[i]), val); cvins[..] == old(cvins[..])[i := r.0] && out == r.1
    {
      var c := cvins[i];
      if c.midiEvt == PITCH_BEND {
        var v := val / 2;
        out := [ToRouter(PitchBendBytes(c.midiChan, v))];
        cvins[i] := c.(midiVal := v);
        return;
      }
      var v := val / 256;
      if v == c.midiVal {
        return [];
      }
      if c.midiEvt == CTRL_CHANGE {
        out := [ToRouter(CtrlChangeBytes(c.midiChan, c.midiNum, v))];
        out := out + [ToUi(UiCtrlChange(c.midiChan, c.midiNum, v))];
      } else if c.midiEvt == CHAN_PRESS {
        out := [ToRouter(ChanPressBytes(c.midiChan, v))];
      } else {
        out := [];
      }
      cvins[i] := c.(midiVal := v);
    }

    /** zynaptik_setup_cvout */
    method SetupCvOut(i: byte, midiEvt: int, chan: byte, num: byte)
      requires Valid() && i < MAX_NUM_ZYNCVOUTS
      modifies cvouts
      ensures Valid()
      ensures cvouts[..] == old(cvouts[..])[i := CvOutConfigured(old(cvouts[i]), midiEvt, chan, num)]
    {
      if midiEvt == CVGATE_OUT_EVENT {
        cvouts[i] := cvouts[i].(mask := CVGATE_MASK, temp := Template(NOTE_OFF, chan, 0));
      } else if midiEvt == PITCH_BEND || midiEvt == CHAN_PRESS {
        cvouts[i] := cvouts[i].(mask := STATUS_MASK, temp := Template(midiEvt, chan, 0));
      } else if midiEvt == CTRL_CHANGE {
        cvouts[i] := cvouts[i].(mask := CTRL_MASK, temp := Template(midiEvt, chan, num));
      } else {
        return;
      }
      cvouts[i] := cvouts[i].(midiEvt := midiEvt, midiChan := chan % 16, midiNum := num % 128);
      cvouts[i] := cvouts[i].(note := seq(128, _ => 0), val := 0, enabled := true);
    }

    /** zynaptik_disable_cvout */
    method DisableCvOut(i: byte)
      requires Valid() && i < MAX_NUM_ZYNCVOUTS
      modifies cvouts
      ensures Valid()
      ensures cvouts[..] == old(cvouts[..])[i := old(cvouts[i]).(val := 0, enabled := false)]
    {
      cvouts[i] := cvouts[i].(val := 0, enabled := false);
    }

    /**
     * zynaptik_midi_to_cvout on the event bytes `b`: every listening CV
     * output takes its new value, and the CV/gate outputs drive their
     * switches' gates, in slot order.
     */
    method MidiToCvout(b: seq<byte>, noteCv: uint16, inputs: Inputs) returns (writes: seq<PinWrite>)
      requires Valid() && inputs.Valid() && |b| >= 3
      requires GateTargetsExist(cvouts[..], b, noteCv)
      modifies cvouts, inputs.switches
      ensures Valid() && inputs.Valid()
      ensures forall k :: 0 <= k < MAX_NUM_ZYNCVOUTS ==> cvouts[k] == CvOutAction(old(cvouts[k]), b, noteCv).0
      ensures TargetsFit(old(inputs.switches[..]), CvOutGates(old(cvouts[..]), b, noteCv))
      ensures (inputs.switches[..], writes) == ApplyGates(old(inputs.switches[..]), CvOutGates(old(cvouts[..]), b, noteCv))
    {
      ghost var cvs := cvouts[..];
      ghost var sws := inputs.switches[..];
      CvOutGatesFit(cvs, b, noteCv, sws);
      var t := b[0] / 16;
      if t < NOTE_OFF || t > PITCH_BEND {
        CvOutGatesOfOtherEvents(cvs, b, noteCv);
        return [];
      }
      writes := [];
      for i := 0 to MAX_NUM_ZYNCVOUTS
        invariant forall k :: 0 <= k < i ==> cvouts[k] == CvOutAction(cvs[k], b, noteCv).0
        invariant forall k :: i <= k < MAX_NUM_ZYNCVOUTS ==> cvouts[k] == cvs[k]
        invariant TargetsFit(sws, CvOutGates(cvs[..i], b, noteCv))
        invariant (inputs.switches[..], writes) == ApplyGates(sws, CvOutGates(cvs[..i], b, noteCv))
      {
        writes := AdvanceCvOut(i, b, t, noteCv, inputs, cvs, sws, writes);
      }
      assert cvs[..MAX_NUM_ZYNCVOUTS] == cvs;
    }

    /** The loop of zynaptik_midi_to_cvout taken one slot further: output `i` answers, its gate joins the run. */
    method AdvanceCvOut(i: nat, b: seq<byte>, t: int, noteCv: uint16, inputs: Inputs,
                        ghost cvs: seq<CvOut>, ghost sws: seq<Switch>, writes: seq<PinWrite>) returns (writes': seq<PinWrite>)
      requires Valid() && inputs.Valid() && |b| >= 3 && i < MAX_NUM_ZYNCVOUTS
      requires t == b[0] / 16 && NOTE_OFF <= t <= PITCH_BEND
      requires |cvs| == MAX_NUM_ZYNCVOUTS && |sws| == MAX_NUM_ZYNSWITCHES && GateTargetsExist(cvs, b, noteCv)
      requires forall k :: 0 <= k < i ==> cvouts[k] == CvOutAction(cvs[k], b, noteCv).0
      requires forall k :: i <= k < MAX_NUM_ZYNCVOUTS ==> cvouts[k] == cvs[k]
      requires TargetsFit(sws, CvOutGates(cvs[..i], b, noteCv))
      requires (inputs.switches[..], writes) == ApplyGates(sws, CvOutGates(cvs[..i], b, noteCv))
      modifies cvouts, inputs.switches
      ensures Valid() && inputs.Valid()
      ensures forall k :: 0 <= k < i + 1 ==> cvouts[k] == CvOutAction(cvs[k], b, noteCv).0
      ensures forall k :: i + 1 <= k < MAX_NUM_ZYNCVOUTS ==> cvouts[k] == cvs[k]
      ensures TargetsFit(sws, CvOutGates(cvs[..i + 1], b, noteCv))
      ensures (inputs.switches[..], writes') == ApplyGates(sws, CvOutGates(cvs[..i + 1], b, noteCv))
    {
      ghost var cur := inputs.switches[..];
      var w := RespondCvOut(i, b, t, noteCv, inputs);
      CvOutGateStep(sws, cvs, i, b, noteCv, cur, writes, inputs.switches[..], w);
      writes' := writes + w;
    }

    /** One pass of zynaptik_midi_to_cvout's loop: CV output `i` answers event `b` of kind `t`. */
    method RespondCvOut(i: nat, b: seq<byte>, t: int, noteCv: uint16, inputs: Inputs) returns (w: seq<PinWrite>)
      requires Valid() && inputs.Valid() && |b| >= 3 && i < MAX_NUM_ZYNCVOUTS
      requires t == b[0] / 16 && NOTE_OFF <= t <= PITCH_BEND
      requires CvOutAction(cvouts[i], b, noteCv).1 != GateKeep ==> cvouts[i].midiNum < MAX_NUM_ZYNSWITCHES
      modifies cvouts, inputs.switches
      ensures Valid() && inputs.Valid()
      ensures var a := CvOutAction(old(cvouts[i]), b, noteCv);
        && cvouts[..] == old(cvouts[..])[i := a.0]
        && (a.1 == GateKeep ==> inputs.switches[..] == old(inputs.switches[..]) && w == [])
        && (a.1 != GateKeep ==>
              var u := ApplyGate(old(inputs.switches[cvouts[i].midiNum]), a.1);
              inputs.switches[..] == old(inputs.switches[..])[cvouts[i].midiNum := u.0] && w == u.1)
    {
      var c := cvouts[i];
      w := [];
      if !c.enabled || c.temp != BitAnd(EventWord(b[0], b[1]), c.mask) {
        return;
      }
      if t == NOTE_ON && b[2] > 0 {
        cvouts[i] := c.(val := noteCv);
        w := DriveGate(inputs, c.midiNum, GateRetrigger);
      } else if t == NOTE_OFF || t == NOTE_ON {
        w := DriveGate(inputs, c.midiNum, GateClose);
      } else if t == PITCH_BEND {
        cvouts[i] := c.(val := ReceivedPitchBend(b[1], b[2]));
      } else if t == CTRL_CHANGE {
        cvouts[i] := c.(val := 128 * (b[2] as int));
      } else if t == CHAN_PRESS {
        cvouts[i] := c.(val := 128 * (b[1] as int));
      }
    }

    /** zynaptik_setup_gateout */
    method SetupGateOut(i: byte, midiEvt: int, chan: byte, num: byte)
      requires Valid() && i < MAX_NUM_ZYNGATEOUTS
      modifies gateouts
      ensures Valid()
      ensures gateouts[..] == old(gateouts[..])[i := GateOutConfigured(old(gateouts[i]), midiEvt, chan, num)]
    {
      if midiEvt == GATE_OUT_EVENT {
        gateouts[i] := gateouts[i].(mask := GATE_MASK, temp := Template(NOTE_OFF, chan, num));
      } else {
        return;
      }
      gateouts[i] := gateouts[i].(midiEvt := midiEvt, midiChan := chan % 16, midiNum := num % 128, enabled := true);
    }

    /** zynaptik_disable_gateout */
    method DisableGateOut(i: byte)
      requires Valid() && i < MAX_NUM_ZYNGATEOUTS
      modifies gateouts
      ensures Valid()
      ensures gateouts[..] == old(gateouts[..])[i := old(gateouts[i]).(enabled := false)]
    {
      gateouts[i] := gateouts[i].(enabled := false);
    }

    /**
     * setup_zynswitch_midi in a build with ZYNAPTIK_CONFIG: switch i is
     * bound to the message as Inputs.SetupSwitchMidi binds it; for a
     * CV/gate or gate output the switch pin is driven to its off level
     * (returned as a pin write) and the output is set up: CV slot `num`
     * gating switch i, or gate output i on note `num`.  A CV slot past the
     * table is not set up (see SwitchCvSlotAsWritten for the code as
     * written).
     */
    method SetupSwitchMidi(inputs: Inputs, i: byte, kind: int, chan: byte, num: byte, val: byte)
      returns (r: int, writes: seq<PinWrite>)
      requires Valid() && inputs.Valid()
      modifies inputs.switches, cvouts, gateouts
      ensures Valid() && inputs.Valid()
      ensures i >= MAX_NUM_ZYNSWITCHES ==>
        && r == 0 && writes == [] && inputs.switches[..] == old(inputs.switches[..])
        && cvouts[..] == old(cvouts[..]) && gateouts[..] == old(gateouts[..])
      ensures i < MAX_NUM_ZYNSWITCHES ==>
        var sw := old(inputs.switches[i]);
        && r == 1
        && inputs.switches[..] == old(inputs.switches[..])[i := sw.(midiEvent := MidiEvent(kind, chan, num, val))]
        && writes == (if kind == CVGATE_OUT_EVENT || kind == GATE_OUT_EVENT then [PinWrite(sw.pin, sw.offState)] else [])
        && cvouts[..] == (if kind == CVGATE_OUT_EVENT && num < MAX_NUM_ZYNCVOUTS
                          then old(cvouts[..])[num := CvOutConfigured(old(cvouts[num]), kind, chan, i)]
                          else old(cvouts[..]))
        && gateouts[..] == (if kind == GATE_OUT_EVENT
                            then old(gateouts[..])[i := GateOutConfigured(old(gateouts[i]), kind, chan, num)]
                            else old(gateouts[..]))
    {
      r := inputs.SetupSwitchMidi(i, kind, chan, num, val);
      writes := [];
      if r == 0 {
        return;
      }
      var sw := inputs.switches[i];
      if kind == CVGATE_OUT_EVENT {
        writes := [PinWrite(sw.pin, sw.offState)];
        if num < MAX_NUM_ZYNCVOUTS {
          SetupCvOut(num, kind, chan, i);
        }
      } else if kind == GATE_OUT_EVENT {
        writes := [PinWrite(sw.pin, sw.offState)];
        SetupGateOut(i, kind, chan, num);
      }
    }

    /** zynaptik_midi_to_gateout on the event bytes `b`: the gate outputs drive their switches, in slot order. */
    method MidiToGateout(b: seq<byte>, inputs: Inputs) returns (writes: seq<PinWrite>)
      requires Valid() && inputs.Valid() && |b| >= 3
      modifies inputs.switches
      ensures inputs.Valid()
      ensures TargetsFit(old(inputs.switches[..]), GateOutGates(gateouts[..], b))
      ensures (inputs.switches[..], writes) == ApplyGates(old(inputs.switches[..]), GateOutGates(gateouts[..], b))
    {
      ghost var sws := inputs.switches[..];
      var t := b[0] / 16;
      if t < NOTE_OFF || t > NOTE_ON {
        GateOutGatesOfOtherEvents(gateouts[..], b);
        return [];
      }
      writes := [];
      for i := 0 to MAX_NUM_ZYNGATEOUTS
        invariant TargetsFit(sws, GateOutGates(gateouts[..i], b))
        invariant (inputs.switches[..], writes) == ApplyGates(sws, GateOutGates(gateouts[..i], b))
      {
        assert gateouts[..i + 1][..i] == gateouts[..i];
        ghost var before := GateOutGates(gateouts[..i], b);
        var go := gateouts[i];
        if !go.enabled || go.temp != BitAnd(EventWord(b[0], b[1]), go.mask) {
          assert GateOutGates(gateouts[..i + 1], b) == before;
          continue;
        }
        var g := if t == NOTE_ON && b[2] > 0 then GateOpen else GateClose;
        assert GateOutAction(go, b) == g;
        ghost var cur := inputs.switches[..];
        var w := DriveGate(inputs, i, g);
        GateStep(sws, before, GateOutGates(gateouts[..i + 1], b), i, g, cur, writes, inputs.switches[..], w);
        writes := writes + w;
      }
      assert gateouts[..MAX_NUM_ZYNGATEOUTS] == gateouts[..];
    }

    /** zynaptik_all_gates_off: every CV/gate output's switch and every gate output's switch closed. */
    method AllGatesOff(inputs: Inputs) returns (writes: seq<PinWrite>)
      requires Valid() && inputs.Valid() && CvGatesExist(cvouts[..])
      modifies inputs.switches
      ensures inputs.Valid()
      ensures TargetsFit(old(inputs.switches[..]), CvGatesOff(cvouts[..]) + GateOutsOff(gateouts[..]))
      ensures (inputs.switches[..], writes) == ApplyGates(old(inputs.switches[..]), CvGatesOff(cvouts[..]) + GateOutsOff(gateouts[..]))
    {
      ghost var sws := inputs.switches[..];
      var w1 := CloseCvGates(inputs);
      ghost var mid := inputs.switches[..];
      var w2 := CloseGateOuts(inputs);
      writes := w1 + w2;
      ApplyGatesAppend(sws, CvGatesOff(cvouts[..]), GateOutsOff(gateouts[..]));
    }

    /** The first loop of zynaptik_all_gates_off. */
    method CloseCvGates(inputs: Inputs) returns (writes: seq<PinWrite>)
      requires Valid() && inputs.Valid() && CvGatesExist(cvouts[..])
      modifies inputs.switches
      ensures inputs.Valid()
      ensures TargetsFit(old(inputs.switches[..]), CvGatesOff(cvouts[..]))
      ensures (inputs.switches[..], writes) == ApplyGates(old(inputs.switches[..]), CvGatesOff(cvouts[..]))
    {
      ghost var sws := inputs.switches[..];
      writes := [];
      for i := 0 to MAX_NUM_ZYNCVOUTS
        invariant TargetsFit(sws, CvGatesOff(cvouts[..i]))
        invariant (inputs.switches[..], writes) == ApplyGates(sws, CvGatesOff(cvouts[..i]))
      {
        assert cvouts[..i + 1][..i] == cvouts[..i];
        CvGatesOffFit(cvouts[..i + 1], sws);
        ghost var before := CvGatesOff(cvouts[..i]);
        if !cvouts[i].enabled || cvouts[i].mask != CVGATE_MASK {
          assert CvGatesOff(cvouts[..i + 1]) == before;
          continue;
        }
        ghost var cur := inputs.switches[..];
        var w := DriveGate(inputs, cvouts[i].midiNum, GateClose);
        GateStep(sws, before, CvGatesOff(cvouts[..i + 1]), cvouts[i].midiNum, GateClose, cur, writes, inputs.switches[..], w);
        writes := writes + w;
      }
      assert cvouts[..MAX_NUM_ZYNCVOUTS] == cvouts[..];
    }

    /** The second loop of zynaptik_all_gates_off. */
    method CloseGateOuts(inputs: Inputs) returns (writes: seq<PinWrite>)
      requires Valid() && inputs.Valid()
      modifies inputs.switches
      ensures inputs.Valid()
      ensures TargetsFit(old(inputs.switches[..]), GateOutsOff(gateouts[..]))
      ensures (inputs.switches[..], writes) == ApplyGates(old(inputs.switches[..]), GateOutsOff(gateouts[..]))
    {
      ghost var sws := inputs.switches[..];
      writes := [];
      for i := 0 to MAX_NUM_ZYNGATEOUTS
        invariant TargetsFit(sws, GateOutsOff(gateouts[..i]))
        invariant (inputs.switches[..], writes) == ApplyGates(sws, GateOutsOff(gateouts[..i]))
      {
        assert gateouts[..i + 1][..i] == gateouts[..i];
        ghost var before := GateOutsOff(gateouts[..i]);
        if !gateouts[i].enabled || gateouts[i].mask != GATE_MASK {
          assert GateOutsOff(gateouts[..i + 1]) == before;
          continue;
        }
        ghost var cur := inputs.switches[..];
        var w := DriveGate(inputs, i, GateClose);
        GateStep(sws, before, GateOutsOff(gateouts[..i + 1]), i, GateClose, cur, writes, inputs.switches[..], w);
        writes := writes + w;
      }
      assert gateouts[..MAX_NUM_ZYNGATEOUTS] == gateouts[..];
    }
  }

  /** Only note events reach the gate outputs. */
  lemma {:induction false} GateOutGatesOfOtherEvents(gos: seq<GateOut>, b: seq<byte>)
    requires |b| >= 3 && (b[0] / 16 < NOTE_OFF || b[0] / 16 > NOTE_ON)
    ensures GateOutGates(gos, b) == []
  {
    if gos != [] {
      GateOutGatesOfOtherEvents(gos[..|gos| - 1], b);
    }
  }

  /** One gate driven on switch `j`: the write_pin_zynmcp23017 calls and the status updates. */
  method DriveGate(inputs: Inputs, j: nat, g: Gate) returns (w: seq<PinWrite>)
    requires inputs.Valid() && j < MAX_NUM_ZYNSWITCHES
    modifies inputs.switches
    ensures inputs.Valid()
    ensures var u := ApplyGate(old(inputs.switches[j]), g);
      inputs.switches[..] == old(inputs.switches[..])[j := u.0] && w == u.1
  {
    var sw := inputs.switches[j];
    w := [];
    match g {
      case GateKeep =>
      case GateClose =>
        w := [PinWrite(sw.pin, sw.offState)];
        inputs.switches[j] := sw.(status := sw.offState);
      case GateOpen =>
        w := [PinWrite(sw.pin, OnLevel(sw.offState))];
        inputs.switches[j] := sw.(status := OnLevel(sw.offState));
      case GateRetrigger =>
        if sw.status != sw.offState {
          w := [PinWrite(sw.pin, sw.offState)];
          inputs.switches[j] := sw.(status := sw.offState);
        }
        w := w + [PinWrite(sw.pin, OnLevel(sw.offState))];
        inputs.switches[j] := sw.(status := OnLevel(sw.offState));
    }
  }
}
