// The push switches and rotary encoders ("zynswitches" and "zyncoders"):
// switch debouncing and the MIDI a switch sends, quadrature decoding of
// the encoders, and the glue that feeds both from native GPIO pins (here
// the wiringPi emulator) and from MCP23017 expanders.
module Zyncoder {
  import opened CTypes
  import opened Limits
  import opened Tables
  import opened MidiCodec
  import WiringPiEmu
  import Mcp23017

  // ---------------------------------------------------------------------
  // Switches
  // ---------------------------------------------------------------------

  /** The message a switch is bound to (`midi_event_t`). */
  datatype MidiEvent = MidiEvent(kind: int, chan: byte, num: byte, val: byte)

  /**
   * One entry of `zynswitches`.  `tsus` is the time stamp of the pending
   * press in microseconds (0 when there is none), `dtus` the duration of
   * the last completed press not yet read.
   */
  datatype Switch = Switch(
    enabled: bool, pin: uint16, offState: byte, status: byte, push: bool,
    tsus: nat, dtus: uint32, midiEvent: MidiEvent, lastCvgateNote: int32)

  /** An entry as zero-initialised static storage holds it. */
  const ZeroSwitch := Switch(false, 0, 0, 0, false, 0, 0, MidiEvent(0, 0, 0, 0), 0)

  predicate SwitchEnabled(s: Switch) {
    s.enabled
  }

  /** A completed press not yet read, or a press still held. */
  predicate SwitchPending(s: Switch) {
    s.dtus > 0 || s.tsus > 0
  }

  /**
   * What a switch update learns from outside the switch table: the
   * monotonic clock in microseconds, the value the router last saw for a
   * channel and controller (`midi_filter.last_ctrl_val`), and the note a
   * CV input reads, from the ADC and the CV scaling (Zynaptik builds).
   */
  datatype Env = Env(now: nat, lastCtrlVal: (byte, byte) -> byte, cvinNote: byte -> int)

  /** Status changes closer than this to the press are contact bounce. */
  const DEBOUNCE_US: nat := 1000

  /**
   * The debouncing part of update_zynswitch: the new record, and whether
   * the switch then sends its MIDI.  A change within DEBOUNCE_US of a
   * pending press is stored but ends the update.
   */
  function SwitchStep(s: Switch, status: byte, now: nat): (r: (Switch, bool))
    ensures r.0 == s.(status := r.0.status, push := r.0.push, tsus := r.0.tsus, dtus := r.0.dtus)
    ensures status == s.status ==> r == (s, false)
    ensures r.0.status == status
  {
    if status == s.status then (s, false)
    else
      var s1 := s.(status := status);
      if s.tsus > 0 then
        var dtus := ToUint32(now - s.tsus);
        if dtus < DEBOUNCE_US then (s1, false)
        else if status == s.offState then (s1.(tsus := 0, dtus := dtus), true)
        else (s1, true)
      else if status != s.offState then (s1.(push := true, tsus := now), true)
      else (s1, true)
  }

  /** A press from rest is recorded, with its time stamp, and announced. */
  lemma SwitchPressFromRest(s: Switch, status: byte, now: nat)
    requires status != s.status && status != s.offState && s.tsus == 0
    ensures SwitchStep(s, status, now) == (s.(status := status, push := true, tsus := now), true)
  {
  }

  /** A release at least DEBOUNCE_US after the press stores the press duration and ends the press. */
  lemma SwitchReleaseStoresDuration(s: Switch, now: nat)
    requires s.status != s.offState && s.tsus > 0 && s.tsus + DEBOUNCE_US <= now < s.tsus + 0x1_0000_0000
    ensures SwitchStep(s, s.offState, now) == (s.(status := s.offState, tsus := 0, dtus := now - s.tsus), true)
  {
  }

  /** A change within DEBOUNCE_US of the press keeps the press pending and sends nothing. */
  lemma SwitchBounceIsQuiet(s: Switch, status: byte, now: nat)
    requires status != s.status && s.tsus > 0 && s.tsus <= now < s.tsus + DEBOUNCE_US
    ensures SwitchStep(s, status, now) == (s.(status := status), false)
  {
  }

  /** The note a CV/gate input plays, held to the MIDI note range. */
  function ClampNote(n: int): (r: byte)
    ensures 0 <= r <= 127
    ensures 0 <= n <= 127 ==> r == n
  {
    if n > 127 then 127 else if n < 0 then 0 else n
  }

  /** A message queued on the router's internal input, and the same message on the UI queue. */
  function CtrlChangeSent(chan: byte, num: byte, val: byte): seq<Emitted> {
    [ToRouter(CtrlChangeBytes(chan, num, val)), ToUi(UiCtrlChange(chan, num, val))]
  }

  function NoteOnSent(chan: byte, num: byte, val: byte): seq<Emitted> {
    [ToRouter(NoteOnBytes(chan, num, val)), ToUi(UiNoteOn(chan, num, val))]
  }

  function NoteOffSent(chan: byte, num: byte, val: byte): seq<Emitted> {
    [ToRouter(NoteOffBytes(chan, num, val)), ToUi(UiNoteOff(chan, num, val))]
  }

  function ProgChangeSent(chan: byte, num: byte): seq<Emitted> {
    [ToRouter(ProgChangeBytes(chan, num)), ToUi(UiProgChange(chan, num))]
  }

  /** The system real-time kinds a switch can send. */
  predicate IsRealTime(kind: int) {
    kind == TIME_CLOCK || kind == TRANSPORT_START || kind == TRANSPORT_CONTINUE || kind == TRANSPORT_STOP
  }

  /**
   * send_zynswitch_midi (Zynaptik build): the messages a switch sends for
   * its new status, and the record with the note a CV/gate input played.
   */
  function SendSwitchMidi(s: Switch, env: Env): (r: (Switch, seq<Emitted>))
    ensures r.0 == s.(lastCvgateNote := r.0.lastCvgateNote)
  {
    var e := s.midiEvent;
    var pressed := s.status != s.offState;
    if e.kind == CTRL_CHANGE then
      (s, CtrlChangeSent(e.chan, e.num, if pressed then e.val else 0))
    else if e.kind == CTRL_SWITCH_EVENT then
      if pressed then (s, CtrlChangeSent(e.chan, e.num, if env.lastCtrlVal(e.chan, e.num) >= 64 then 0 else 127))
      else (s, [])
    else if e.kind == NOTE_ON then
      if pressed then (s, NoteOnSent(e.chan, e.num, e.val)) else (s, NoteOffSent(e.chan, e.num, 0))
    else if e.kind == CVGATE_IN_EVENT && e.num < 4 then
      if pressed then
        var note := ClampNote(env.cvinNote(e.num));
        (s.(lastCvgateNote := note), NoteOnSent(e.chan, note, e.val))
      else (s, NoteOffSent(e.chan, ToUint8(s.lastCvgateNote), 0))
    else if e.kind == PROG_CHANGE then
      if pressed then (s, ProgChangeSent(e.chan, e.num)) else (s, [])
    else if IsRealTime(e.kind) then
      (s, [ToRouter([ToUint8(e.kind), 0, 0]), ToUi(ToUint32(e.kind * 0x1_0000))])
    else (s, [])
  }

  /**
   * The router and UI messages agree: nothing, or one three-byte message
   * followed by the UI word carrying the same bytes, marked 0xFF for a
   * channel message.
   */
  predicate Mirrored(out: seq<Emitted>) {
    && (|out| == 0 || |out| == 2)
    && (|out| == 2 ==>
          && out[0].ToRouter? && out[1].ToUi? && |out[0].bytes| == 3
          && WordBytes(out[1].word)[1..] == out[0].bytes
          && (WordBytes(out[1].word)[0] == 0xFF <==> 0x80 <= out[0].bytes[0] < 0xF0))
  }

  /** A channel message and its UI word are mirrored. */
  lemma ChannelSentMirrored(kind: int, chan: byte, num: byte, val: byte)
    requires NOTE_OFF <= kind <= PITCH_BEND
    ensures Mirrored([ToRouter([StatusByte(kind, chan), num, val]), ToUi(UiWord(StatusByte(kind, chan), num, val))])
  {
    StatusByteFields(kind, chan);
    UiWordRoundTrip(StatusByte(kind, chan), num, val);
  }

  /** Every switch message reaches the router and the UI alike. */
  lemma SwitchMidiMirrorsUi(s: Switch, env: Env)
    ensures Mirrored(SendSwitchMidi(s, env).1)
  {
    var e := s.midiEvent;
    var pressed := s.status != s.offState;
    if e.kind == CTRL_CHANGE {
      ChannelSentMirrored(CTRL_CHANGE, e.chan, e.num, if pressed then e.val else 0);
    } else if e.kind == CTRL_SWITCH_EVENT {
      ChannelSentMirrored(CTRL_CHANGE, e.chan, e.num, if env.lastCtrlVal(e.chan, e.num) >= 64 then 0 else 127);
    } else if e.kind == NOTE_ON {
      ChannelSentMirrored(NOTE_ON, e.chan, e.num, e.val);
      ChannelSentMirrored(NOTE_OFF, e.chan, e.num, 0);
    } else if e.kind == CVGATE_IN_EVENT && e.num < 4 {
      ChannelSentMirrored(NOTE_ON, e.chan, ClampNote(env.cvinNote(e.num)), e.val);
      ChannelSentMirrored(NOTE_OFF, e.chan, ToUint8(s.lastCvgateNote), 0);
    } else if e.kind == PROG_CHANGE {
      ChannelSentMirrored(PROG_CHANGE, e.chan, e.num, 0);
    } else if IsRealTime(e.kind) {
      var out := SendSwitchMidi(s, env).1;
      WordBytesOf(out[1].word, 0, e.kind, 0, 0);
    }
  }

  /**
   * Every message a switch queues is complete: the router frames it back
   * as itself, with the length its status byte calls for.
   */
  lemma SwitchMidiFramesBack(s: Switch, env: Env, rest: seq<byte>, lastFrame: uint32)
    requires |SendSwitchMidi(s, env).1| > 0
    ensures var m := SendSwitchMidi(s, env).1[0].bytes;
      && |m| == 3
      && FrameEvent(m + rest, lastFrame) == (JackEvent(TableILength(m[0]), lastFrame, m), rest)
  {
    SwitchMidiMirrorsUi(s, env);
    var m := SendSwitchMidi(s, env).1[0].bytes;
    if 0x80 <= m[0] < 0xF0 {
      FrameChannelMessage(m, rest, lastFrame);
    } else {
      assert (m + rest)[..3] == m;
      assert (m + rest)[3..] == rest;
    }
  }

  /**
   * What each binding sends to the router: a controller its value on press
   * and 0 on release; a toggle 127 when the controller's last value is
   * below 64 and 0 otherwise, on press only; a note its note-on on press
   * and a note-off of velocity 0 on release; a program change on press
   * only.
   */
  lemma SwitchMidiByKind(s: Switch, env: Env)
    ensures var e := s.midiEvent;
      var pressed := s.status != s.offState;
      var out := SendSwitchMidi(s, env).1;
      && (e.kind == CTRL_CHANGE ==>
            |out| == 2 && out[0] == ToRouter(CtrlChangeBytes(e.chan, e.num, if pressed then e.val else 0)))
      && (e.kind == CTRL_SWITCH_EVENT ==>
            (pressed <==> |out| == 2)
            && (pressed ==> out[0] == ToRouter(CtrlChangeBytes(e.chan, e.num, if env.lastCtrlVal(e.chan, e.num) < 64 then 127 else 0))))
      && (e.kind == NOTE_ON ==>
            |out| == 2 && out[0] == ToRouter(if pressed then NoteOnBytes(e.chan, e.num, e.val) else NoteOffBytes(e.chan, e.num, 0)))
      && (e.kind == PROG_CHANGE ==>
            (pressed <==> |out| == 2) && (pressed ==> out[0] == ToRouter(ProgChangeBytes(e.chan, e.num))))
  {
  }

  /** update_zynswitch: debounce, then send the switch's MIDI unless the update ended early. */
  function SwitchUpdate(s: Switch, status: byte, env: Env): (Switch, seq<Emitted>) {
    var (s1, send) := SwitchStep(s, status, env.now);
    if send then SendSwitchMidi(s1, env) else (s1, [])
  }

  /** `return -1` from a function whose result is `unsigned int`. */
  const NO_DTUS: uint32 := 0xFFFF_FFFF

  /**
   * get_zynswitch_dtus: the stored press duration, read once; else the
   * time a press has been held, once it exceeds `longDtus` (which also
   * ends that press); else NO_DTUS.
   */
  function SwitchDtusRead(s: Switch, longDtus: uint32, now: nat): (r: (Switch, uint32))
    ensures s.dtus > 0 ==> r == (s.(dtus := 0), s.dtus)
    ensures s.dtus == 0 && s.tsus > 0 && ToUint32(now - s.tsus) > longDtus ==> r == (s.(tsus := 0), ToUint32(now - s.tsus))
    ensures s.dtus == 0 && !(s.tsus > 0 && ToUint32(now - s.tsus) > longDtus) ==> r == (s, NO_DTUS)
  {
    if s.dtus > 0 then (s.(dtus := 0), s.dtus)
    else if s.tsus > 0 then
      var dtus := ToUint32(now - s.tsus);
      if dtus > longDtus then (s.(tsus := 0), dtus) else (s, NO_DTUS)
    else (s, NO_DTUS)
  }

  /** get_zynswitch for a valid index: a pending press is reported first, as 0. */
  function SwitchRead(s: Switch, longDtus: uint32, now: nat): (r: (Switch, uint32))
    ensures s.push ==> r == (s.(push := false), 0)
    ensures !s.push ==> r == SwitchDtusRead(s, longDtus, now)
  {
    if s.push then (s.(push := false), 0) else SwitchDtusRead(s, longDtus, now)
  }

  /**
   * A press and a release of a switch at rest are read back as the press,
   * then its duration, then nothing.
   */
  lemma PressReleaseReadBack(s: Switch, level: byte, t0: nat, t1: nat, longDtus: uint32, now: nat)
    requires s.status == s.offState && s.tsus == 0 && s.dtus == 0 && !s.push
    requires level != s.offState && 0 < t0 && t0 + DEBOUNCE_US <= t1 < t0 + 0x1_0000_0000
    ensures var released := SwitchStep(SwitchStep(s, level, t0).0, s.offState, t1).0;
      var first := SwitchRead(released, longDtus, now);
      var second := SwitchRead(first.0, longDtus, now);
      && first.1 == 0
      && second.1 == t1 - t0
      && SwitchRead(second.0, longDtus, now).1 == NO_DTUS
  {
    var pressed := SwitchStep(s, level, t0).0;
    SwitchPressFromRest(s, level, t0);
    SwitchReleaseStoresDuration(pressed, t1);
  }

  /**
   * A press held past the long-press threshold reads back as the press,
   * then the time it has been held, after which the press is ended: a
   * later reading and a later release report no duration.
   */
  lemma HeldPressReadBack(s: Switch, level: byte, t0: nat, longDtus: uint32, now: nat, t1: nat, later: nat)
    requires s.status == s.offState && s.tsus == 0 && s.dtus == 0 && !s.push
    requires level != s.offState && 0 < t0 && t0 + longDtus < now < t0 + 0x1_0000_0000
    ensures var pressed := SwitchStep(s, level, t0).0;
      var first := SwitchRead(pressed, longDtus, now);
      var second := SwitchRead(first.0, longDtus, now);
      && first.1 == 0
      && second.1 == now - t0
      && second.0.status == level && second.0.tsus == 0
      && SwitchRead(second.0, longDtus, later).1 == NO_DTUS
      && SwitchRead(SwitchStep(second.0, s.offState, t1).0, longDtus, later).1 == NO_DTUS
  {
    var pressed := SwitchStep(s, level, t0).0;
    SwitchPressFromRest(s, level, t0);
    assert ToUint32(now - t0) == now - t0;
  }

  // ---------------------------------------------------------------------
  // Encoders
  // ---------------------------------------------------------------------

  /**
   * One entry of `zyncoders`.  The short history holds the last two pin
   * states, the long history the last two valid transitions; `tsms` is the
   * time of the last detent in milliseconds.
   */
  datatype Encoder = Encoder(
    enabled: bool, pinA: uint16, pinB: uint16, step: int32, value: int32, zpotI: int8,
    shortHistory: byte, longHistory: byte, tsms: nat)

  const ZeroEncoder := Encoder(false, 0, 0, 0, 0, 0, 0, 0, 0)

  predicate EncoderEnabled(e: Encoder) {
    e.enabled
  }

  /** `valid_quadrant_states`, indexed by previous state * 4 + current state. */
  const ValidQuadrantStates: seq<byte> := [0, 1, 1, 0, 1, 0, 0, 1, 1, 0, 0, 1, 0, 1, 1, 0]

  /** The two pins as a 2-bit state: bit 1 set while the A pin reads low, bit 0 for the B pin. */
  function Quadrant(msb: byte, lsb: byte): (q: nat)
    ensures q < 4
  {
    (if msb == 0 then 2 else 0) + (if lsb == 0 then 1 else 0)
  }

  /** Exactly one of the two pins differs between states a and b. */
  predicate OnePinChanged(a: nat, b: nat) {
    (a / 2 % 2 != b / 2 % 2) != (a % 2 != b % 2)
  }

  /** The table accepts exactly the transitions in which a single pin changed (a Gray-code step). */
  lemma ValidQuadrantIsOnePinChange(h: nat)
    requires h < 16
    ensures ValidQuadrantStates[h] == 1 <==> OnePinChanged(h / 4, h % 4)
    ensures ValidQuadrantStates[h] <= 1
  {
    var a, b := h / 4, h % 4;
    assert h == 4 * a + b && a < 4;
    if a == 0 {
      assert ValidQuadrantStates[h] == [0, 1, 1, 0][b];
    } else if a == 1 {
      assert ValidQuadrantStates[h] == [1, 0, 0, 1][b];
    } else if a == 2 {
      assert ValidQuadrantStates[h] == [1, 0, 0, 1][b];
    } else {
      assert ValidQuadrantStates[h] == [0, 1, 1, 0][b];
    }
  }

  /** The last valid transitions at a clockwise and at a counter-clockwise rest detent. */
  const DETENT_CW: byte := 0xD4
  const DETENT_CCW: byte := 0xE8

  /** A call to `zynpot_cb` with the pot index and the accumulated value. */
  datatype PotCall = PotCall(zpot: int8, value: int32)

  /**
   * Rotation acceleration of a step-0 encoder: a detent `dtms`
   * milliseconds after the previous one counts `(40 - dtms) / 10 + 1`
   * times when that is under 40 ms.
   */
  function Acceleration(dtms: int64): int {
    if dtms < 40 then (40 - dtms) / 10 + 1 else 1
  }

  lemma AccelerationBounds(dtms: int64)
    requires dtms >= 0
    ensures 1 <= Acceleration(dtms) <= 5
    ensures Acceleration(dtms) == 1 <==> dtms > 30
  {
  }

  /**
   * update_zyncoder with pin readings `msb` (A) and `lsb` (B) at time
   * `now` (microseconds), and `callback` telling whether `zynpot_cb` is
   * set: the new record and the callback made.  Both histories are 8-bit
   * shift registers; `x <<= n; x |= y` with y below 2^n is written as
   * `2^n * x + y` modulo 256.
   */
  function EncoderStep(e: Encoder, msb: byte, lsb: byte, now: nat, callback: bool): (r: (Encoder, Option<PotCall>))
    ensures r.0 == e.(shortHistory := r.0.shortHistory, longHistory := r.0.longHistory, value := r.0.value, tsms := r.0.tsms)
    ensures r.0.shortHistory < 16
    ensures r.0.shortHistory / 4 == e.shortHistory % 4 && r.0.shortHistory % 4 == Quadrant(msb, lsb)
  {
    var sh := 4 * (e.shortHistory % 4) + Quadrant(msb, lsb);
    if ValidQuadrantStates[sh] == 0 then (e.(shortHistory := sh), None)
    else
      var lh := 16 * (e.longHistory % 16) + sh;
      var e1 := e.(shortHistory := sh, longHistory := lh);
      if lh != DETENT_CW && lh != DETENT_CCW then (e1, None)
      else
        var e2 := if e.step != 0 then e1 else e1.(tsms := now / 1000);
        var v := ToInt32(e.value + DetentDelta(e, lh == DETENT_CW, now));
        if callback then (e2.(value := 0), Some(PotCall(e.zpotI, v))) else (e2.(value := v), None)
  }

  /**
   * The `dval` of a detent: 1 clockwise, -1 counter-clockwise, scaled by
   * the step, or for step 0 by the acceleration since the last detent;
   * `dval` is an `int8_t`.
   */
  function DetentDelta(e: Encoder, cw: bool, now: nat): int8 {
    var dval: int8 := if cw then 1 else -1;
    ToInt8(dval * DetentScale(e, now))
  }

  /** The step of an encoder with one, else the acceleration since its last detent. */
  function DetentScale(e: Encoder, now: nat): int {
    if e.step != 0 then e.step else Acceleration(ToInt64(now / 1000 - e.tsms))
  }

  lemma DetentDeltaOfStepOne(e: Encoder, cw: bool, now: nat)
    requires e.step == 1
    ensures DetentDelta(e, cw, now) == if cw then 1 else -1
  {
    assert DetentScale(e, now) == 1;
    var dval: int8 := if cw then 1 else -1;
    assert dval * 1 == dval;
    ToInt8Keeps(dval);
  }

  lemma DetentDeltaOfStepZero(e: Encoder, cw: bool, now: nat)
    requires e.step == 0
    ensures var k := Acceleration(ToInt64(now / 1000 - e.tsms));
      k >= 1 && (k <= 127 ==> DetentDelta(e, cw, now) == if cw then k else -k)
  {
    var k := Acceleration(ToInt64(now / 1000 - e.tsms));
    assert DetentScale(e, now) == k;
    if k <= 127 {
      var dval: int8 := if cw then 1 else -1;
      assert dval * k == if cw then k else -k;
      ToInt8Keeps(if cw then k else -k);
    }
  }

  /** A transition the table rejects changes the short history alone, and calls nothing. */
  lemma EncoderRejectsInvalidTransition(e: Encoder, msb: byte, lsb: byte, now: nat, callback: bool)
    requires ValidQuadrantStates[4 * (e.shortHistory % 4) + Quadrant(msb, lsb)] == 0
    ensures var r := EncoderStep(e, msb, lsb, now, callback);
      r == (e.(shortHistory := r.0.shortHistory), None)
  {
  }

  /** Reading the same state twice in a row is never a transition. */
  lemma RepeatedReadingIsRejected(e: Encoder, msb: byte, lsb: byte)
    requires e.shortHistory % 4 == Quadrant(msb, lsb)
    ensures ValidQuadrantStates[4 * (e.shortHistory % 4) + Quadrant(msb, lsb)] == 0
  {
    ValidQuadrantIsOnePinChange(4 * (e.shortHistory % 4) + Quadrant(msb, lsb));
  }

  /** The value moves, or the callback runs, only at a rest detent reached by a valid transition. */
  lemma EncoderMovesOnlyAtDetent(e: Encoder, msb: byte, lsb: byte, now: nat, callback: bool)
    ensures var r := EncoderStep(e, msb, lsb, now, callback);
      r.0.value != e.value || r.1.Some? ==>
        && ValidQuadrantStates[r.0.shortHistory] == 1
        && r.0.longHistory / 16 == e.longHistory % 16 && r.0.longHistory % 16 == r.0.shortHistory
        && (r.0.longHistory == DETENT_CW || r.0.longHistory == DETENT_CCW)
  {
  }

  /**
   * At a detent an encoder of step 1 moves by one, up at DETENT_CW and
   * down at DETENT_CCW; with a callback the new value goes to the pot's
   * callback and the encoder's value restarts at 0.
   */
  lemma EncoderDetentOfStepOne(e: Encoder, msb: byte, lsb: byte, now: nat, callback: bool)
    requires e.step == 1
    ensures var r := EncoderStep(e, msb, lsb, now, callback);
      var moved := if r.0.longHistory == DETENT_CW then ToInt32(e.value + 1) else ToInt32(e.value - 1);
      ValidQuadrantStates[r.0.shortHistory] == 1 && (r.0.longHistory == DETENT_CW || r.0.longHistory == DETENT_CCW) ==>
        && r.0.tsms == e.tsms
        && (callback ==> r.0.value == 0 && r.1 == Some(PotCall(e.zpotI, moved)))
        && (!callback ==> r.0.value == moved && r.1.None?)
  {
    DetentDeltaOfStepOne(e, true, now);
    DetentDeltaOfStepOne(e, false, now);
  }

  /**
   * A step-0 encoder records the detent's time and moves by the
   * acceleration factor, in the detent's direction.
   */
  lemma EncoderDetentOfStepZero(e: Encoder, msb: byte, lsb: byte, now: nat)
    requires e.step == 0
    ensures var r := EncoderStep(e, msb, lsb, now, false);
      var k := Acceleration(ToInt64(now / 1000 - e.tsms));
      ValidQuadrantStates[r.0.shortHistory] == 1 && (r.0.longHistory == DETENT_CW || r.0.longHistory == DETENT_CCW) ==>
        && r.0.tsms == now / 1000
        && (k <= 127 ==> r.0.value == ToInt32(e.value + (if r.0.longHistory == DETENT_CW then k else -k)))
  {
    DetentDeltaOfStepZero(e, true, now);
    DetentDeltaOfStepZero(e, false, now);
  }

  /** Four readings in a row, each as update_zyncoder sees it. */
  function EncoderRun(e: Encoder, readings: seq<(byte, byte)>, now: nat): (r: Encoder)
    decreases |readings|
  {
    if readings == [] then e
    else EncoderRun(EncoderStep(e, readings[0].0, readings[0].1, now, false).0, readings[1..], now)
  }

  /** One clockwise detent from rest (pin A falls first, then B; both rise back) adds one step. */
  lemma {:induction false} ClockwiseDetentAddsOne(e: Encoder, now: nat)
    requires e.shortHistory % 4 == 0 && e.step == 1
    ensures EncoderRun(e, [(0, 1), (0, 0), (1, 0), (1, 1)], now).value == ToInt32(e.value + 1)
  {
    var e1 := EncoderStep(e, 0, 1, now, false).0;
    assert e1.shortHistory == 2 && e1.longHistory % 16 == 2 && e1.value == e.value;
    var e2 := EncoderStep(e1, 0, 0, now, false).0;
    assert e2.shortHistory == 0xB && e2.longHistory == 0x2B && e2.value == e.value;
    var e3 := EncoderStep(e2, 1, 0, now, false).0;
    assert e3.shortHistory == 0xD && e3.longHistory == 0xBD && e3.value == e.value && e3.step == 1;
    DetentDeltaOfStepOne(e3, true, now);
    assert EncoderStep(e3, 1, 1, now, false).0.value == ToInt32(e.value + 1);
    assert EncoderRun(e, [(0, 1), (0, 0), (1, 0), (1, 1)], now) == EncoderRun(e1, [(0, 0), (1, 0), (1, 1)], now);
    assert EncoderRun(e1, [(0, 0), (1, 0), (1, 1)], now) == EncoderRun(e2, [(1, 0), (1, 1)], now);
    assert EncoderRun(e2, [(1, 0), (1, 1)], now) == EncoderRun(e3, [(1, 1)], now);
  }

  /** One counter-clockwise detent from rest (pin B falls first) takes one step away. */
  lemma {:induction false} CounterClockwiseDetentTakesOne(e: Encoder, now: nat)
    requires e.shortHistory % 4 == 0 && e.step == 1
    ensures EncoderRun(e, [(1, 0), (0, 0), (0, 1), (1, 1)], now).value == ToInt32(e.value - 1)
  {
    var e1 := EncoderStep(e, 1, 0, now, false).0;
    assert e1.shortHistory == 1 && e1.longHistory % 16 == 1 && e1.value == e.value;
    var e2 := EncoderStep(e1, 0, 0, now, false).0;
    assert e2.shortHistory == 7 && e2.longHistory == 0x17 && e2.value == e.value;
    var e3 := EncoderStep(e2, 0, 1, now, false).0;
    assert e3.shortHistory == 0xE && e3.longHistory == 0x7E && e3.value == e.value && e3.step == 1;
    DetentDeltaOfStepOne(e3, false, now);
    assert EncoderStep(e3, 1, 1, now, false).0.value == ToInt32(e.value - 1);
    assert EncoderRun(e, [(1, 0), (0, 0), (0, 1), (1, 1)], now) == EncoderRun(e1, [(0, 0), (0, 1), (1, 1)], now);
    assert EncoderRun(e1, [(0, 0), (0, 1), (1, 1)], now) == EncoderRun(e2, [(0, 1), (1, 1)], now);
    assert EncoderRun(e2, [(0, 1), (1, 1)], now) == EncoderRun(e3, [(1, 1)], now);
  }

  // ---------------------------------------------------------------------
  // Setting up switches and encoders
  // ---------------------------------------------------------------------

  /** Which expander the firmware was built for: MCP23008 pins are polled, MCP23017 pins interrupt. */
  datatype ExpanderBuild = Mcp23008Build | Mcp23017Build

  /** Native GPIO pins are numbered below this; expander pins from it on. */
  const EXPANDER_PIN_BASE: nat := 100

  /** `off_state` as setup_zynswitch stores it: 1 for any non-zero argument. */
  function OffLevel(offState: byte): (r: byte)
    ensures r <= 1 && (r == 0 <==> offState == 0)
  {
    if offState != 0 then 1 else 0
  }

  /** A switch record with its press state cleared and the switch disabled, as setup_zynswitch starts. */
  function SwitchCleared(s: Switch): Switch {
    s.(enabled := false, push := false, tsus := 0, dtus := 0, status := 0)
  }

  /** The record of a switch set up on `pin`, before its first reading. */
  function SwitchConfigured(s: Switch, pin: uint16, offState: byte): Switch {
    SwitchCleared(s).(offState := OffLevel(offState), enabled := true, pin := pin)
  }

  /** A native pin as setup_zynswitch leaves it: input, pulled to the rest level, interrupting on both edges. */
  function SwitchPinConfigured(p: WiringPiEmu.Pin, i: nat, offState: byte): WiringPiEmu.Pin {
    p.(mode := WiringPiEmu.INPUT, pud := if offState != 0 then WiringPiEmu.PUD_UP else WiringPiEmu.PUD_DOWN,
       status := OffLevel(offState), isrMode := WiringPiEmu.INT_EDGE_BOTH, isr := Some(WiringPiEmu.SwitchIsr(i)))
  }

  /** The emulated pins after `pin` is set up for switch i; a pin the emulation does not have changes nothing. */
  function WithSwitchPin(g: seq<WiringPiEmu.Pin>, pin: nat, i: nat, offState: byte): (r: seq<WiringPiEmu.Pin>)
    requires |g| == WiringPiEmu.GPIO_MAX
    ensures |r| == WiringPiEmu.GPIO_MAX
  {
    if pin < WiringPiEmu.GPIO_MAX then g[pin := SwitchPinConfigured(g[pin], i, offState)] else g
  }

  /** A switch pin just set up reads its off level: the pull sets the pin to it. */
  lemma SwitchPinReadsOffLevel(g: seq<WiringPiEmu.Pin>, pin: nat, i: nat, offState: byte)
    requires |g| == WiringPiEmu.GPIO_MAX
    ensures ReadLevel(WithSwitchPin(g, pin, i, offState), pin) == SetupLevel(pin, offState)
  {
    if pin < WiringPiEmu.GPIO_MAX {
      assert WithSwitchPin(g, pin, i, offState)[pin].status == OffLevel(offState);
    }
  }

  /** `(uint8_t)digitalRead(pin)` on the emulated pin table. */
  function ReadLevel(g: seq<WiringPiEmu.Pin>, pin: nat): byte
    requires |g| == WiringPiEmu.GPIO_MAX
  {
    if pin < WiringPiEmu.GPIO_MAX then ToUint8(ToInt32(g[pin].status)) else 0
  }

  /**
   * The first reading of a switch on a native pin sees the level its pull
   * just set; a pin the emulation does not have reads 0.
   */
  function SetupLevel(pin: nat, offState: byte): (r: byte)
    ensures pin < WiringPiEmu.GPIO_MAX ==> r == OffLevel(offState)
  {
    if pin < WiringPiEmu.GPIO_MAX then OffLevel(offState) else 0
  }

  /**
   * A switch set up on an emulated pin ends at rest: its status is its off
   * level and no press is pending.
   */
  lemma NativeSwitchStartsAtRest(s: Switch, pin: uint16, offState: byte, env: Env)
    requires 0 < pin < WiringPiEmu.GPIO_MAX
    ensures var r := SwitchUpdate(SwitchConfigured(s, pin, offState), SetupLevel(pin, offState), env).0;
      && r.enabled && r.pin == pin && r.offState == OffLevel(offState)
      && r.status == r.offState && !r.push && r.tsus == 0 && r.dtus == 0
  {
  }

  /** An encoder record as setup_zyncoder starts: disabled, step 1, value and histories cleared. */
  function EncoderCleared(e: Encoder): Encoder {
    e.(enabled := false, step := 1, value := 0, tsms := 0, shortHistory := 0, longHistory := 0)
  }

  function EncoderConfigured(e: Encoder, pinA: uint16, pinB: uint16): Encoder {
    EncoderCleared(e).(pinA := pinA, pinB := pinB, enabled := true)
  }

  /** A native encoder pin as setup_zyncoder leaves it: input, pulled up, interrupting on both edges. */
  function EncoderPinConfigured(p: WiringPiEmu.Pin, i: nat): WiringPiEmu.Pin {
    p.(mode := WiringPiEmu.INPUT, pud := WiringPiEmu.PUD_UP, status := 1,
       isrMode := WiringPiEmu.INT_EDGE_BOTH, isr := Some(WiringPiEmu.EncoderIsr(i)))
  }

  /** The emulated pins after `pin` is set up for encoder i; a pin the emulation does not have changes nothing. */
  function WithEncoderPin(g: seq<WiringPiEmu.Pin>, pin: nat, i: nat): (r: seq<WiringPiEmu.Pin>)
    requires |g| == WiringPiEmu.GPIO_MAX
    ensures |r| == WiringPiEmu.GPIO_MAX
  {
    if pin < WiringPiEmu.GPIO_MAX then g[pin := EncoderPinConfigured(g[pin], i)] else g
  }

  /**
   * Once both pins of an encoder are set up, exactly those two emulated
   * pins are configured for it, and each reads high.
   */
  lemma EncoderPinsConfigured(g: seq<WiringPiEmu.Pin>, pinA: nat, pinB: nat, i: nat)
    requires |g| == WiringPiEmu.GPIO_MAX
    ensures var g2 := WithEncoderPin(WithEncoderPin(g, pinA, i), pinB, i);
      && (forall p :: 0 <= p < WiringPiEmu.GPIO_MAX ==>
            g2[p] == if p == pinA || p == pinB then EncoderPinConfigured(g[p], i) else g[p])
      && ReadLevel(g2, pinA) == PulledUpLevel(pinA) && ReadLevel(g2, pinB) == PulledUpLevel(pinB)
  {
    var g2 := WithEncoderPin(WithEncoderPin(g, pinA, i), pinB, i);
    if pinA < WiringPiEmu.GPIO_MAX {
      assert g2[pinA].status == 1;
    }
    if pinB < WiringPiEmu.GPIO_MAX {
      assert g2[pinB].status == 1;
    }
  }

  /** The level an encoder pin reads right after its pull-up is set. */
  function PulledUpLevel(pin: nat): byte {
    if pin < WiringPiEmu.GPIO_MAX then 1 else 0
  }

  /**
   * An encoder set up on two emulated pins starts at rest: both pins read
   * high, which is no transition, so nothing moves and no callback runs.
   */
  lemma NativeEncoderStartsAtRest(e: Encoder, pinA: uint16, pinB: uint16, now: nat, callback: bool)
    requires pinA < WiringPiEmu.GPIO_MAX && pinB < WiringPiEmu.GPIO_MAX
    ensures var r := EncoderStep(EncoderConfigured(e, pinA, pinB), PulledUpLevel(pinA), PulledUpLevel(pinB), now, callback);
      && r.1.None?
      && r.0 == EncoderConfigured(e, pinA, pinB)
      && r.0.enabled && r.0.step == 1 && r.0.value == 0 && r.0.shortHistory == 0 && r.0.longHistory == 0
  {
  }

  /**
   * `uint8_t j = pin2index_zynmcp23017(pin)`: the chip index as
   * setup_zynswitch and setup_zyncoder store it.
   */
  function ExpanderIndexAsWritten(index: int): byte {
    ToUint8(index)
  }

  /**
   * The `j >= 0` test on that stored index passes for a pin no chip serves:
   * -1 becomes 255, far past the chip table, which the code then reads.
   */
  lemma ExpanderIndexAsWrittenAdmitsMissingChip(cs: seq<Mcp23017.Chip>, pin: int)
    requires Mcp23017.ChipIndex(cs, pin) == -1
    ensures ExpanderIndexAsWritten(Mcp23017.ChipIndex(cs, pin)) >= 0
    ensures ExpanderIndexAsWritten(Mcp23017.ChipIndex(cs, pin)) >= Mcp23017.MAX_NUM_MCP23017
  {
  }

  /** The guard of zyncoder_rbpi_ISR as written: against the switch table's size. */
  predicate EncoderIsrGuardAsWritten(i: nat) {
    i < MAX_NUM_ZYNSWITCHES
  }

  /** The guard admits indices past the four-entry encoder table. */
  lemma EncoderIsrGuardAsWrittenAdmitsMissingEncoder()
    ensures exists i: nat :: EncoderIsrGuardAsWritten(i) && i >= MAX_NUM_ZYNCODERS
  {
    assert EncoderIsrGuardAsWritten(MAX_NUM_ZYNCODERS);
  }

  /** `zynswitch_rbpi_ISRs` holds interrupt routines for the first eight switches only. */
  const NUM_RBPI_SWITCH_ISRS: nat := 8

  /**
   * `zynswitch_rbpi_ISRs[i]` as setup_zynswitch hands it to wiringPiISR for
   * a native pin: the routine of switch i, and nothing past the eight-entry
   * table, where the C reads beyond the array.
   */
  function RbpiSwitchIsrAsWritten(i: nat): Option<WiringPiEmu.Isr> {
    if i < NUM_RBPI_SWITCH_ISRS then Some(WiringPiEmu.SwitchIsr(i)) else None
  }

  /** setup_zynswitch accepts every switch index for a native pin, past the routine table. */
  lemma RbpiSwitchIsrAsWrittenMissesHighSwitches()
    ensures exists i: nat :: i < MAX_NUM_ZYNSWITCHES && RbpiSwitchIsrAsWritten(i).None?
  {
    assert RbpiSwitchIsrAsWritten(NUM_RBPI_SWITCH_ISRS).None?;
  }

  /** The routine the model registers for a native switch pin is that switch's own, for every switch. */
  lemma SwitchPinRoutesToItsSwitch(g: seq<WiringPiEmu.Pin>, pin: nat, i: nat, offState: byte)
    requires |g| == WiringPiEmu.GPIO_MAX && pin < WiringPiEmu.GPIO_MAX
    ensures WithSwitchPin(g, pin, i, offState)[pin].isr == Some(WiringPiEmu.SwitchIsr(i))
    ensures i < NUM_RBPI_SWITCH_ISRS ==> WithSwitchPin(g, pin, i, offState)[pin].isr == RbpiSwitchIsrAsWritten(i)
  {
  }

  // ---------------------------------------------------------------------
  // Applying expander interrupts
  // ---------------------------------------------------------------------

  /** The switch and encoder tables, and what their updates have sent, as values. */
  datatype InputsState = InputsState(switches: seq<Switch>, encoders: seq<Encoder>, sent: seq<Emitted>, potCalls: seq<PotCall>)

  predicate StateFits(st: InputsState) {
    |st.switches| == MAX_NUM_ZYNSWITCHES && |st.encoders| == MAX_NUM_ZYNCODERS
  }

  function CallsOf(c: Option<PotCall>): seq<PotCall> {
    if c.Some? then [c.value] else []
  }

  /** One update of an expander interrupt: update_zynswitch or update_zyncoder on the named entry. */
  function ApplyOne(st: InputsState, u: Mcp23017.Dispatch, env: Env, callback: bool): (r: InputsState)
    requires StateFits(st) && Mcp23017.DispatchFits(u)
    ensures StateFits(r)
  {
    match u
    case SwitchUpdate(k, level) =>
      var (s, out) := SwitchUpdate(st.switches[k], level, env);
      st.(switches := st.switches[k := s], sent := st.sent + out)
    case EncoderUpdate(k, a, b) =>
      var (e, call) := EncoderStep(st.encoders[k], a, b, env.now, callback);
      st.(encoders := st.encoders[k := e], potCalls := st.potCalls + CallsOf(call))
  }

  predicate AllFit(d: seq<Mcp23017.Dispatch>) {
    forall u :: u in d ==> Mcp23017.DispatchFits(u)
  }

  /** A sequence of updates applied in order. */
  function Applied(st: InputsState, d: seq<Mcp23017.Dispatch>, env: Env, callback: bool): (r: InputsState)
    requires StateFits(st) && AllFit(d)
    ensures StateFits(r)
  {
    if d == [] then st
    else ApplyOne(Applied(st, d[..|d| - 1], env, callback), d[|d| - 1], env, callback)
  }

  /** The switches a sequence of updates names. */
  function UpdatedSwitches(d: seq<Mcp23017.Dispatch>): set<nat> {
    set n | 0 <= n < |d| && d[n].SwitchUpdate? :: d[n].switch
  }

  /** Applying updates leaves every switch and encoder they do not name as it was. */
  lemma {:induction false} AppliedKeepsOthers(st: InputsState, d: seq<Mcp23017.Dispatch>, env: Env, callback: bool)
    requires StateFits(st) && AllFit(d)
    ensures forall k :: 0 <= k < MAX_NUM_ZYNSWITCHES && k !in UpdatedSwitches(d) ==>
      Applied(st, d, env, callback).switches[k] == st.switches[k]
    ensures forall k :: 0 <= k < MAX_NUM_ZYNCODERS && k !in Mcp23017.UpdatedEncoders(d) ==>
      Applied(st, d, env, callback).encoders[k] == st.encoders[k]
  {
    if d != [] {
      var init := d[..|d| - 1];
      assert forall u :: u in init ==> u in d;
      AppliedKeepsOthers(st, init, env, callback);
      var last := d[|d| - 1];
      if last.SwitchUpdate? {
        assert last.switch in UpdatedSwitches(d);
      } else {
        assert last.encoder in Mcp23017.UpdatedEncoders(d);
      }
    }
  }

  /** The updates zynmcp23017_ISR makes for a bank of chip c whose register reads `reg`. */
  function ChipUpdates(c: Mcp23017.Chip, bank: byte, reg: byte, swPins: seq<int>, encPins: seq<(int, int)>): (d: seq<Mcp23017.Dispatch>)
    requires Mcp23017.WellFormed(c) && bank <= 1 && |swPins| == MAX_NUM_ZYNSWITCHES && |encPins| == MAX_NUM_ZYNCODERS
    ensures AllFit(d)
  {
    var offset := if bank == 0 then 0 else 8;
    var prev := if bank == 0 then Mcp23017.LowByte(c.lastState) else Mcp23017.HighByte(c.lastState);
    Mcp23017.ScanFits(c, offset, reg, BitXor(reg, prev), 0, swPins, encPins);
    Mcp23017.Scan(c, offset, reg, BitXor(reg, prev), 0, swPins, encPins)
  }

  /** The switch pins the table holds, as the interrupt handler looks them up. */
  function SwitchPins(s: seq<Switch>): (r: seq<int>)
    ensures |r| == |s| && forall k :: 0 <= k < |s| ==> r[k] == s[k].pin
  {
    seq(|s|, k requires 0 <= k < |s| => s[k].pin)
  }

  /** The encoder pin pairs the table holds. */
  function EncoderPins(e: seq<Encoder>): (r: seq<(int, int)>)
    ensures |r| == |e| && forall k :: 0 <= k < |e| ==> r[k] == (e[k].pinA as int, e[k].pinB as int)
  {
    seq(|e|, k requires 0 <= k < |e| => (e[k].pinA as int, e[k].pinB as int))
  }

  /**
   * The pinMode, pullUpDnControl and wiringPiISR calls setup_zyncoder makes
   * for one native encoder pin.  The source interleaves the calls for the
   * two pins; calls on different pins touch different entries, so the
   * order between pins does not matter.
   */
  method ConfigureEncoderPin(gpio: WiringPiEmu.GpioEmu, pin: uint16, i: nat)
    requires gpio.Valid()
    modifies gpio.gpio
    ensures gpio.Valid()
    ensures gpio.gpio[..] == WithEncoderPin(old(gpio.gpio[..]), pin, i)
  {
    gpio.PinMode(pin, WiringPiEmu.INPUT);
    gpio.PullUpDnControl(pin, WiringPiEmu.PUD_UP);
    var _ := gpio.WiringPiIsr(pin, WiringPiEmu.INT_EDGE_BOTH, Some(WiringPiEmu.EncoderIsr(i)));
  }

  /**
   * The chip an expander encoder's two pins share, when both lie in the
   * same bank of the first enabled chip serving each; -1 otherwise.
   */
  function EncoderChip(cs: seq<Mcp23017.Chip>, pinA: int, pinB: int): (j: int)
    ensures j == -1 || (0 <= j < |cs| && Mcp23017.Covers(cs[j], pinA) && Mcp23017.Covers(cs[j], pinB))
  {
    Mcp23017.ChipIndexIsFirstCovering(cs, pinA);
    Mcp23017.ChipIndexIsFirstCovering(cs, pinB);
    var j := Mcp23017.ChipIndex(cs, pinA);
    if j >= 0 && j == Mcp23017.ChipIndex(cs, pinB) && ((pinA - cs[j].basePin < 8) == (pinB - cs[j].basePin < 8)) then j
    else -1
  }

  /**
   * The first update of an expander encoder on chip `c`: the record
   * cleared and configured for the two pins, stepped with the levels the
   * bank register gives them.
   */
  function ExpanderEncoderStart(e0: Encoder, c: Mcp23017.Chip, pinA: uint16, pinB: uint16, readA: byte, readB: byte,
                                now: nat, callback: bool): (Encoder, Option<PotCall>)
    requires Mcp23017.Covers(c, pinA) && Mcp23017.Covers(c, pinB)
  {
    EncoderStep(EncoderConfigured(e0, pinA, pinB),
                Mcp23017.LevelIn(readA, pinA - c.basePin), Mcp23017.LevelIn(readB, pinB - c.basePin), now, callback)
  }

  /**
   * The chip look-ups of the MCP23017 branch of setup_zyncoder: the chip
   * of each pin, refused unless it is one chip and one bank.
   */
  method LookUpEncoderChip(mcp: Mcp23017.Mcp23017Table, pinA: uint16, pinB: uint16) returns (j: int)
    requires mcp.Valid()
    ensures j == EncoderChip(mcp.chips[..], pinA, pinB)
    ensures j >= 0 ==>
              j < Mcp23017.MAX_NUM_MCP23017
              && Mcp23017.ChipIndex(mcp.chips[..], pinA) == j && Mcp23017.ChipIndex(mcp.chips[..], pinB) == j
  {
    j := mcp.Pin2Index(pinA);
    var k := mcp.Pin2Index(pinB);
    if j < 0 || k < 0 || j != k {
      return -1;
    }
    var bitA := pinA - mcp.chips[j].basePin;
    var bitB := pinB - mcp.chips[k].basePin;
    if (bitA < 8) != (bitB < 8) {
      return -1;
    }
  }

  /** The chip after both encoder pins are bound to encoder i and then read, A first. */
  function EncoderChipBound(c: Mcp23017.Chip, pinA: int, pinB: int, i: nat, readA: byte, readB: byte): Mcp23017.Chip
    requires Mcp23017.WellFormed(c) && Mcp23017.Covers(c, pinA) && Mcp23017.Covers(c, pinB) && i < MAX_NUM_ZYNCODERS
  {
    var bitA := pinA - c.basePin;
    var bitB := pinB - c.basePin;
    var bound := Mcp23017.WithAction(Mcp23017.WithAction(c, bitA, Mcp23017.EncoderAction, i), bitB, Mcp23017.EncoderAction, i);
    Mcp23017.AfterRead(Mcp23017.AfterRead(bound, bitA, readA), bitB, readB)
  }

  /**
   * The pin-action and read calls of the MCP23017 branch of
   * setup_zyncoder: both pins bound to encoder i, then read through the
   * bank register, which reads `readA` and then `readB`.
   */
  method BindExpanderEncoder(mcp: Mcp23017.Mcp23017Table, j: int, pinA: uint16, pinB: uint16, i: byte, readA: byte, readB: byte)
    returns (levelA: int, levelB: int)
    requires mcp.Valid() && i < MAX_NUM_ZYNCODERS && j >= 0
    requires Mcp23017.ChipIndex(mcp.chips[..], pinA) == j && Mcp23017.ChipIndex(mcp.chips[..], pinB) == j
    modifies mcp.chips
    ensures mcp.Valid()
    ensures var c := old(mcp.chips[j]);
      && Mcp23017.Covers(c, pinA) && Mcp23017.Covers(c, pinB)
      && mcp.chips[..] == old(mcp.chips[..])[j := EncoderChipBound(c, pinA, pinB, i, readA, readB)]
      && levelA == Mcp23017.LevelIn(readA, pinA - c.basePin) && levelB == Mcp23017.LevelIn(readB, pinB - c.basePin)
  {
    Mcp23017.ChipIndexIsFirstCovering(mcp.chips[..], pinA);
    Mcp23017.ChipIndexIsFirstCovering(mcp.chips[..], pinB);
    ghost var cs := mcp.chips[..];
    ghost var c := mcp.chips[j];
    var bitA := pinA - mcp.chips[j].basePin;
    var bitB := pinB - mcp.chips[j].basePin;
    ghost var c1 := Mcp23017.WithAction(c, bitA, Mcp23017.EncoderAction, i);
    ghost var c2 := Mcp23017.WithAction(c1, bitB, Mcp23017.EncoderAction, i);
    ghost var c3 := Mcp23017.AfterRead(c2, bitA, readA);
    var _ := mcp.SetupPinAction(pinA, Mcp23017.EncoderAction, i);
    assert mcp.chips[..] == cs[j := c1];
    var _ := mcp.SetupPinAction(pinB, Mcp23017.EncoderAction, i);
    assert mcp.chips[..] == cs[j := c2];
    // zyncoder_update_zynmcp23017
    levelA := mcp.ReadPin(pinA, readA);
    assert mcp.chips[..] == cs[j := c3];
    levelB := mcp.ReadPin(pinB, readB);
  }

  // ---------------------------------------------------------------------
  // The tables
  // ---------------------------------------------------------------------

  class Inputs {
    /** `zynswitches` */
    var switches: array<Switch>
    /** `zyncoders` */
    var encoders: array<Encoder>
    /** The MIDI the switches have queued, to the router and to the UI, oldest first. */
    var sent: seq<Emitted>
    /** The calls made to `zynpot_cb`, oldest first. */
    var potCalls: seq<PotCall>

    ghost predicate Valid()
      reads this
    {
      switches.Length == MAX_NUM_ZYNSWITCHES && encoders.Length == MAX_NUM_ZYNCODERS
    }

    /** The tables and what they have sent, as a value. */
    function State(): (st: InputsState)
      requires Valid()
      reads this, switches, encoders
      ensures StateFits(st)
    {
      InputsState(switches[..], encoders[..], sent, potCalls)
    }

    constructor ()
      ensures Valid() && fresh(switches) && fresh(encoders) && sent == [] && potCalls == []
      ensures forall i :: 0 <= i < MAX_NUM_ZYNSWITCHES ==> switches[i] == ZeroSwitch
      ensures forall i :: 0 <= i < MAX_NUM_ZYNCODERS ==> encoders[i] == ZeroEncoder
    {
      switches := new Switch[MAX_NUM_ZYNSWITCHES](_ => ZeroSwitch);
      encoders := new Encoder[MAX_NUM_ZYNCODERS](_ => ZeroEncoder);
      sent := [];
      potCalls := [];
    }

    /** reset_zynswitches: every switch disabled, unbound from MIDI, with no CV/gate note. */
    method ResetSwitches()
      requires Valid()
      modifies switches
      ensures Valid()
      ensures forall i :: 0 <= i < MAX_NUM_ZYNSWITCHES ==>
        switches[i] == old(switches[i]).(enabled := false, midiEvent := old(switches[i]).midiEvent.(kind := NONE_EVENT),
                                         lastCvgateNote := -1)
    {
      for i := 0 to MAX_NUM_ZYNSWITCHES
        invariant forall k :: 0 <= k < i ==>
          switches[k] == old(switches[k]).(enabled := false, midiEvent := old(switches[k]).midiEvent.(kind := NONE_EVENT),
                                           lastCvgateNote := -1)
        invariant forall k :: i <= k < MAX_NUM_ZYNSWITCHES ==> switches[k] == old(switches[k])
      {
        switches[i] := switches[i].(enabled := false, midiEvent := switches[i].midiEvent.(kind := NONE_EVENT),
                                    lastCvgateNote := -1);
      }
    }

    /** get_num_zynswitches: the number of enabled switches; 0 exactly when none is. */
    method GetNumSwitches() returns (n: int)
      requires Valid()
      ensures n == CountWhere(switches[..], SwitchEnabled)
      ensures n == 0 <==> forall k :: 0 <= k < MAX_NUM_ZYNSWITCHES ==> !switches[k].enabled
    {
      n := 0;
      for i := 0 to MAX_NUM_ZYNSWITCHES
        invariant n == CountWhere(switches[..i], SwitchEnabled)
      {
        CountWhereStep(switches[..], i, SwitchEnabled);
        if switches[i].enabled {
          n := n + 1;
        }
      }
      assert switches[..MAX_NUM_ZYNSWITCHES] == switches[..];
      CountWhereZero(switches[..], SwitchEnabled);
    }

    /** get_last_zynswitch_index: the highest enabled index, 0 when none is. */
    method GetLastSwitchIndex() returns (li: int)
      requires Valid()
      ensures 0 <= li < MAX_NUM_ZYNSWITCHES
      ensures li > 0 ==> switches[li].enabled
      ensures forall k :: li < k < MAX_NUM_ZYNSWITCHES ==> !switches[k].enabled
    {
      li := 0;
      for i := 0 to MAX_NUM_ZYNSWITCHES
        invariant 0 <= li < MAX_NUM_ZYNSWITCHES
        invariant li > 0 ==> switches[li].enabled
        invariant forall k :: li < k < i ==> !switches[k].enabled
      {
        if switches[i].enabled {
          li := i;
        }
      }
    }

    /** update_zynswitch; the index is not checked, its callers pass a valid one. */
    method UpdateSwitch(i: byte, status: byte, env: Env)
      requires Valid() && i < MAX_NUM_ZYNSWITCHES
      modifies this`sent, switches
      ensures Valid()
      ensures var su := SwitchUpdate(old(switches[i]), status, env);
        switches[..] == old(switches[..])[i := su.0] && sent == old(sent) + su.1
    {
      var (s, out) := SwitchUpdate(switches[i], status, env);
      switches[i] := s;
      sent := sent + out;
    }

    /**
     * setup_zynswitch.  Native pins (below 100) are served by the emulated
     * pin table: the switch reads its pin right away.  Expander pins are
     * taken as they are in an MCP23008 build; in an MCP23017 build the pin
     * is bound to the switch in the chip's action table and read at once,
     * the chip's bank register reading `read`.  A pin no chip serves is
     * refused (see ExpanderIndexAsWritten for the code as written).  A
     * native pin gets switch i's own interrupt routine for every switch,
     * where the source has routines for switches 0 to 7 only (see
     * RbpiSwitchIsrAsWritten).
     */
    method SetupSwitch(i: byte, pin: uint16, offState: byte, build: ExpanderBuild, env: Env,
                       gpio: WiringPiEmu.GpioEmu, mcp: Mcp23017.Mcp23017Table, read: byte) returns (r: int)
      requires Valid() && gpio.Valid() && mcp.Valid()
      modifies this`sent, switches, gpio.gpio, mcp.chips
      ensures Valid() && gpio.Valid() && mcp.Valid()
      ensures encoders == old(encoders) && potCalls == old(potCalls)
      ensures i >= MAX_NUM_ZYNSWITCHES ==>
        && r == 0 && switches[..] == old(switches[..]) && sent == old(sent)
        && gpio.gpio[..] == old(gpio.gpio[..]) && mcp.chips[..] == old(mcp.chips[..])
      ensures i < MAX_NUM_ZYNSWITCHES && pin == 0 ==>
        && r == 1 && switches[..] == old(switches[..])[i := SwitchCleared(old(switches[i]))] && sent == old(sent)
        && gpio.gpio[..] == old(gpio.gpio[..]) && mcp.chips[..] == old(mcp.chips[..])
      ensures i < MAX_NUM_ZYNSWITCHES && 0 < pin < EXPANDER_PIN_BASE ==>
        var su := SwitchUpdate(SwitchConfigured(old(switches[i]), pin, offState), SetupLevel(pin, offState), env);
        && r == 1 && switches[..] == old(switches[..])[i := su.0] && sent == old(sent) + su.1
        && gpio.gpio[..] == WithSwitchPin(old(gpio.gpio[..]), pin, i, offState)
        && mcp.chips[..] == old(mcp.chips[..])
      ensures i < MAX_NUM_ZYNSWITCHES && pin >= EXPANDER_PIN_BASE && build == Mcp23008Build ==>
        && r == 1 && switches[..] == old(switches[..])[i := SwitchConfigured(old(switches[i]), pin, offState)]
        && sent == old(sent) && gpio.gpio[..] == old(gpio.gpio[..]) && mcp.chips[..] == old(mcp.chips[..])
      ensures i < MAX_NUM_ZYNSWITCHES && pin >= EXPANDER_PIN_BASE && build == Mcp23017Build ==>
        var j := Mcp23017.ChipIndex(old(mcp.chips[..]), pin);
        && gpio.gpio[..] == old(gpio.gpio[..])
        && (j == -1 ==>
              && r == 0 && switches[..] == old(switches[..])[i := SwitchCleared(old(switches[i])).(offState := OffLevel(offState))]
              && sent == old(sent) && mcp.chips[..] == old(mcp.chips[..]))
        && (j >= 0 ==>
              var c := old(mcp.chips[j]);
              var bit := pin - c.basePin;
              && 0 <= bit < 16
              && var su := SwitchUpdate(SwitchConfigured(old(switches[i]), pin, offState), Mcp23017.LevelIn(read, bit), env);
              && r == 1 && switches[..] == old(switches[..])[i := su.0] && sent == old(sent) + su.1
              && mcp.chips[..] == old(mcp.chips[..])[j := Mcp23017.AfterRead(Mcp23017.WithAction(c, bit, Mcp23017.SwitchAction, i), bit, read)])
    {
      if i >= MAX_NUM_ZYNSWITCHES {
        return 0;
      }
      switches[i] := SwitchCleared(switches[i]);
      if pin == 0 {
        return 1;
      }
      if pin < EXPANDER_PIN_BASE {
        SetupNativeSwitch(i, pin, offState, env, gpio);
        return 1;
      }
      // pinMode and pullUpDnControl change nothing here: the emulated table
      // has no pin at or above EXPANDER_PIN_BASE.
      switches[i] := switches[i].(offState := OffLevel(offState));
      if build == Mcp23008Build {
        switches[i] := switches[i].(pin := pin, enabled := true);
        return 1;
      }
      r := SetupExpanderSwitch(i, pin, env, mcp, read);
    }

    /** The native branch of setup_zynswitch, after the record is cleared. */
    method SetupNativeSwitch(i: byte, pin: uint16, offState: byte, env: Env, gpio: WiringPiEmu.GpioEmu)
      requires Valid() && gpio.Valid() && i < MAX_NUM_ZYNSWITCHES
      modifies this`sent, switches, gpio.gpio
      ensures Valid() && gpio.Valid()
      ensures var su := SwitchUpdate(old(switches[i]).(offState := OffLevel(offState), enabled := true, pin := pin),
                                           SetupLevel(pin, offState), env);
        switches[..] == old(switches[..])[i := su.0] && sent == old(sent) + su.1
      ensures gpio.gpio[..] == WithSwitchPin(old(gpio.gpio[..]), pin, i, offState)
    {
      ghost var sws := switches[..];
      ghost var configured := switches[i].(offState := OffLevel(offState), enabled := true, pin := pin);
      ghost var pins := WithSwitchPin(gpio.gpio[..], pin, i, offState);
      SwitchPinReadsOffLevel(gpio.gpio[..], pin, i, offState);
      gpio.PinMode(pin, WiringPiEmu.INPUT);
      if offState != 0 {
        gpio.PullUpDnControl(pin, WiringPiEmu.PUD_UP);
      } else {
        gpio.PullUpDnControl(pin, WiringPiEmu.PUD_DOWN);
      }
      switches[i] := switches[i].(offState := OffLevel(offState));
      switches[i] := switches[i].(enabled := true, pin := pin);
      var _ := gpio.WiringPiIsr(pin, WiringPiEmu.INT_EDGE_BOTH, Some(WiringPiEmu.SwitchIsr(i)));
      assert gpio.gpio[..] == pins;
      assert switches[..] == sws[i := configured];
      ghost var su := SwitchUpdate(configured, SetupLevel(pin, offState), env);
      SwitchIsr(i, env, gpio);
      UpdateTwice(sws, i, configured, su.0);
    }

    /**
     * The MCP23017 branch of setup_zynswitch, with the chip index held as
     * an `int`: the pin is bound to the switch, then read through its
     * bank register, which reads `read`.
     */
    method SetupExpanderSwitch(i: byte, pin: uint16, env: Env, mcp: Mcp23017.Mcp23017Table, read: byte) returns (r: int)
      requires Valid() && mcp.Valid() && i < MAX_NUM_ZYNSWITCHES
      modifies this`sent, switches, mcp.chips
      ensures Valid() && mcp.Valid()
      ensures var j := Mcp23017.ChipIndex(old(mcp.chips[..]), pin);
        && (j == -1 ==> r == 0 && switches[..] == old(switches[..]) && sent == old(sent) && mcp.chips[..] == old(mcp.chips[..]))
        && (j >= 0 ==>
              var c := old(mcp.chips[j]);
              var bit := pin - c.basePin;
              && 0 <= bit < 16
              && var su := SwitchUpdate(old(switches[i]).(pin := pin, enabled := true), Mcp23017.LevelIn(read, bit), env);
              && r == 1 && switches[..] == old(switches[..])[i := su.0] && sent == old(sent) + su.1
              && mcp.chips[..] == old(mcp.chips[..])[j := Mcp23017.AfterRead(Mcp23017.WithAction(c, bit, Mcp23017.SwitchAction, i), bit, read)])
    {
      var j := mcp.Pin2Index(pin);
      if j < 0 {
        return 0;
      }
      var bit := pin - mcp.chips[j].basePin;
      switches[i] := switches[i].(pin := pin, enabled := true);
      var _ := mcp.SetupPinAction(pin, Mcp23017.SwitchAction, i);
      // zynswitch_update_zynmcp23017
      var level := mcp.ReadPin(pin, read);
      UpdateSwitch(i, level, env);
      return 1;
    }

    /** zynswitch_rbpi_ISR: an enabled switch reads its native pin and updates. */
    method SwitchIsr(i: nat, env: Env, gpio: WiringPiEmu.GpioEmu)
      requires Valid() && gpio.Valid()
      modifies this`sent, switches
      ensures Valid()
      ensures !(i < MAX_NUM_ZYNSWITCHES && old(switches[i]).enabled) ==> switches[..] == old(switches[..]) && sent == old(sent)
      ensures i < MAX_NUM_ZYNSWITCHES && old(switches[i]).enabled ==>
        var su := SwitchUpdate(old(switches[i]), ReadLevel(gpio.gpio[..], old(switches[i]).pin), env);
        switches[..] == old(switches[..])[i := su.0] && sent == old(sent) + su.1
    {
      if i >= MAX_NUM_ZYNSWITCHES {
        return;
      }
      if !switches[i].enabled {
        return;
      }
      var level := gpio.DigitalRead(switches[i].pin);
      UpdateSwitch(i, ToUint8(level), env);
    }

    /**
     * setup_zynswitch_midi in a build without ZYNAPTIK_CONFIG: binds the
     * switch to a message.  Zynaptik.Zynaptik.SetupSwitchMidi adds the
     * CV/gate output set-up of the other build.
     */
    method SetupSwitchMidi(i: byte, kind: int, chan: byte, num: byte, val: byte) returns (r: int)
      requires Valid()
      modifies switches
      ensures Valid()
      ensures i >= MAX_NUM_ZYNSWITCHES ==> r == 0 && switches[..] == old(switches[..])
      ensures i < MAX_NUM_ZYNSWITCHES ==>
        r == 1 && switches[..] == old(switches[..])[i := old(switches[i]).(midiEvent := MidiEvent(kind, chan, num, val))]
    {
      if i >= MAX_NUM_ZYNSWITCHES {
        return 0;
      }
      switches[i] := switches[i].(midiEvent := MidiEvent(kind, chan, num, val));
      return 1;
    }

    /** get_zynswitch: 0 for an invalid index; otherwise the pending press, else the duration read once. */
    method GetSwitch(i: byte, longDtus: uint32, now: nat) returns (r: uint32)
      requires Valid()
      modifies switches
      ensures Valid()
      ensures i >= MAX_NUM_ZYNSWITCHES ==> r == 0 && switches[..] == old(switches[..])
      ensures i < MAX_NUM_ZYNSWITCHES ==>
        var sv := SwitchRead(old(switches[i]), longDtus, now);
        r == sv.1 && switches[..] == old(switches[..])[i := sv.0]
    {
      if i >= MAX_NUM_ZYNSWITCHES {
        return 0;
      }
      var (s, v) := SwitchRead(switches[i], longDtus, now);
      switches[i] := s;
      r := v;
    }

    /** get_next_pending_zynswitch: the first switch from i on with a press pending or unread, else -1. */
    method GetNextPendingSwitch(i: byte) returns (r: int)
      requires Valid()
      ensures r == -1 <==> forall k :: i <= k < MAX_NUM_ZYNSWITCHES ==> !SwitchPending(switches[k])
      ensures r != -1 ==>
        && i <= r < MAX_NUM_ZYNSWITCHES && SwitchPending(switches[r])
        && forall k :: i <= k < r ==> !SwitchPending(switches[k])
    {
      var j: int := i;
      while j < MAX_NUM_ZYNSWITCHES
        invariant i <= j && (j > MAX_NUM_ZYNSWITCHES ==> j == i)
        invariant forall k :: i <= k < j ==> !SwitchPending(switches[k])
      {
        if switches[j].dtus > 0 || switches[j].tsus > 0 {
          return j;
        }
        j := j + 1;
      }
      return -1;
    }

    /** reset_zyncoders: every encoder disabled and unlinked from its pot, value and histories cleared. */
    method ResetEncoders()
      requires Valid()
      modifies encoders
      ensures Valid()
      ensures forall i :: 0 <= i < MAX_NUM_ZYNCODERS ==>
        encoders[i] == old(encoders[i]).(enabled := false, value := 0, zpotI := -1, shortHistory := 0, longHistory := 0, tsms := 0)
    {
      for i := 0 to MAX_NUM_ZYNCODERS
        invariant forall k :: 0 <= k < i ==>
          encoders[k] == old(encoders[k]).(enabled := false, value := 0, zpotI := -1, shortHistory := 0, longHistory := 0, tsms := 0)
        invariant forall k :: i <= k < MAX_NUM_ZYNCODERS ==> encoders[k] == old(encoders[k])
      {
        encoders[i] := encoders[i].(enabled := false, value := 0, zpotI := -1, shortHistory := 0, longHistory := 0, tsms := 0);
      }
    }

    /** get_num_zyncoders: the number of enabled encoders. */
    method GetNumEncoders() returns (n: int)
      requires Valid()
      ensures n == CountWhere(encoders[..], EncoderEnabled)
      ensures n == 0 <==> forall k :: 0 <= k < MAX_NUM_ZYNCODERS ==> !encoders[k].enabled
    {
      n := 0;
      for i := 0 to MAX_NUM_ZYNCODERS
        invariant n == CountWhere(encoders[..i], EncoderEnabled)
      {
        CountWhereStep(encoders[..], i, EncoderEnabled);
        if encoders[i].enabled {
          n := n + 1;
        }
      }
      assert encoders[..MAX_NUM_ZYNCODERS] == encoders[..];
      CountWhereZero(encoders[..], EncoderEnabled);
    }

    /**
     * update_zyncoder with pin readings `msb` (A) and `lsb` (B) at time
     * `now`; `callback` tells whether `zynpot_cb` is set.  The index is not
     * checked.
     */
    method UpdateEncoder(i: byte, msb: byte, lsb: byte, now: nat, callback: bool)
      requires Valid() && i < MAX_NUM_ZYNCODERS
      modifies this`potCalls, encoders
      ensures Valid()
      ensures var eu := EncoderStep(old(encoders[i]), msb, lsb, now, callback);
        encoders[..] == old(encoders[..])[i := eu.0] && potCalls == old(potCalls) + CallsOf(eu.1)
    {
      var (e, call) := EncoderStep(encoders[i], msb, lsb, now, callback);
      encoders[i] := e;
      potCalls := potCalls + CallsOf(call);
    }

    /**
     * setup_zyncoder.  Two distinct native pins are served by the emulated
     * pin table; two expander pins must, in an MCP23017 build, belong to
     * the same chip and the same bank, and are then read at once, the
     * bank register reading `readA` and then `readB`.  An MCP23008 build
     * has no expander encoders.
     */
    method SetupEncoder(i: byte, pinA: uint16, pinB: uint16, build: ExpanderBuild, now: nat, callback: bool,
                        gpio: WiringPiEmu.GpioEmu, mcp: Mcp23017.Mcp23017Table, readA: byte, readB: byte) returns (r: int)
      requires Valid() && gpio.Valid() && mcp.Valid()
      modifies this`potCalls, encoders, gpio.gpio, mcp.chips
      ensures Valid() && gpio.Valid() && mcp.Valid()
      ensures switches == old(switches) && sent == old(sent)
      ensures r == 0 ==> potCalls == old(potCalls) && gpio.gpio[..] == old(gpio.gpio[..]) && mcp.chips[..] == old(mcp.chips[..])
      ensures i >= MAX_NUM_ZYNCODERS ==> r == 0 && encoders[..] == old(encoders[..])
      ensures i < MAX_NUM_ZYNCODERS && r == 0 ==> encoders[..] == old(encoders[..])[i := EncoderCleared(old(encoders[i]))]
      ensures i < MAX_NUM_ZYNCODERS && (pinA == pinB || (pinA < EXPANDER_PIN_BASE) != (pinB < EXPANDER_PIN_BASE)) ==> r == 0
      ensures i < MAX_NUM_ZYNCODERS && pinA != pinB && pinA < EXPANDER_PIN_BASE && pinB < EXPANDER_PIN_BASE ==>
        var eu := EncoderStep(EncoderConfigured(old(encoders[i]), pinA, pinB), PulledUpLevel(pinA), PulledUpLevel(pinB), now, callback);
        && r == 1 && encoders[..] == old(encoders[..])[i := eu.0] && potCalls == old(potCalls) + CallsOf(eu.1)
        && mcp.chips[..] == old(mcp.chips[..])
        && gpio.gpio[..] == WithEncoderPin(WithEncoderPin(old(gpio.gpio[..]), pinA, i), pinB, i)
      ensures i < MAX_NUM_ZYNCODERS && pinA >= EXPANDER_PIN_BASE && pinB >= EXPANDER_PIN_BASE && build == Mcp23008Build ==> r == 0
      ensures i < MAX_NUM_ZYNCODERS && pinA != pinB && pinA >= EXPANDER_PIN_BASE && pinB >= EXPANDER_PIN_BASE && build == Mcp23017Build ==>
        var j := EncoderChip(old(mcp.chips[..]), pinA, pinB);
        && (j == -1 ==> r == 0)
        && (j >= 0 ==>
              var c := old(mcp.chips[j]);
              var eu := EncoderStep(EncoderConfigured(old(encoders[i]), pinA, pinB),
                                    Mcp23017.LevelIn(readA, pinA - c.basePin), Mcp23017.LevelIn(readB, pinB - c.basePin), now, callback);
              && r == 1 && encoders[..] == old(encoders[..])[i := eu.0] && potCalls == old(potCalls) + CallsOf(eu.1)
              && gpio.gpio[..] == old(gpio.gpio[..])
              && mcp.chips[..] == old(mcp.chips[..])[j := EncoderChipBound(c, pinA, pinB, i, readA, readB)])
    {
      if i >= MAX_NUM_ZYNCODERS {
        return 0;
      }
      encoders[i] := EncoderCleared(encoders[i]);
      if pinA == pinB {
        return 0;
      }
      if pinA < EXPANDER_PIN_BASE && pinB < EXPANDER_PIN_BASE {
        SetupNativeEncoder(i, pinA, pinB, now, callback, gpio);
        return 1;
      } else if pinA >= EXPANDER_PIN_BASE && pinB >= EXPANDER_PIN_BASE {
        if build == Mcp23008Build {
          return 0;
        }
        r := SetupExpanderEncoder(i, pinA, pinB, now, callback, mcp, readA, readB, old(encoders[i]), old(encoders[..]));
      } else {
        return 0;
      }
    }

    /** The native branch of setup_zyncoder, after the record is cleared. */
    method SetupNativeEncoder(i: byte, pinA: uint16, pinB: uint16, now: nat, callback: bool, gpio: WiringPiEmu.GpioEmu)
      requires Valid() && gpio.Valid() && i < MAX_NUM_ZYNCODERS && pinA != pinB
      modifies this`potCalls, encoders, gpio.gpio
      ensures Valid() && gpio.Valid()
      ensures var eu := EncoderStep(old(encoders[i]).(pinA := pinA, pinB := pinB, enabled := true),
                                    PulledUpLevel(pinA), PulledUpLevel(pinB), now, callback);
        encoders[..] == old(encoders[..])[i := eu.0] && potCalls == old(potCalls) + CallsOf(eu.1)
      ensures gpio.gpio[..] == WithEncoderPin(WithEncoderPin(old(gpio.gpio[..]), pinA, i), pinB, i)
    {
      EncoderPinsConfigured(gpio.gpio[..], pinA, pinB, i);
      ConfigureEncoderPin(gpio, pinA, i);
      ConfigureEncoderPin(gpio, pinB, i);
      encoders[i] := encoders[i].(pinA := pinA, pinB := pinB, enabled := true);
      EncoderIsr(i, now, callback, gpio);
    }

    /**
     * The MCP23017 branch of setup_zyncoder, after the record is cleared,
     * with the chip indices held as `int` (see ExpanderIndexAsWritten).
     */
    method SetupExpanderEncoder(i: byte, pinA: uint16, pinB: uint16, now: nat, callback: bool,
                                mcp: Mcp23017.Mcp23017Table, readA: byte, readB: byte,
                                ghost e0: Encoder, ghost es0: seq<Encoder>) returns (r: int)
      requires Valid() && mcp.Valid() && i < MAX_NUM_ZYNCODERS && pinA != pinB
      requires |es0| == MAX_NUM_ZYNCODERS && encoders[..] == es0[i := EncoderCleared(e0)]
      modifies this`potCalls, encoders, mcp.chips
      ensures Valid() && mcp.Valid()
      ensures var j := EncoderChip(old(mcp.chips[..]), pinA, pinB);
        && (j == -1 ==> r == 0 && potCalls == old(potCalls) && encoders[..] == old(encoders[..]) && mcp.chips[..] == old(mcp.chips[..]))
        && (j >= 0 ==>
              var c := old(mcp.chips[j]);
              var eu := ExpanderEncoderStart(e0, c, pinA, pinB, readA, readB, now, callback);
              && r == 1 && encoders[..] == es0[i := eu.0] && potCalls == old(potCalls) + CallsOf(eu.1)
              && mcp.chips[..] == old(mcp.chips[..])[j := EncoderChipBound(c, pinA, pinB, i, readA, readB)])
    {
      ghost var cs := mcp.chips[..];
      var j := LookUpEncoderChip(mcp, pinA, pinB);
      if j < 0 {
        return 0;
      }
      ghost var eu := StartExpanderEncoder(i, j, pinA, pinB, now, callback, mcp, readA, readB, mcp.chips[j], e0, encoders[..]);
      UpdateTwice(es0, i, EncoderCleared(e0), eu.0);
      return 1;
    }

    /** The encoder's pins on chip `j` are bound and read once, as setup_zyncoder does after its checks. */
    method StartExpanderEncoder(i: byte, j: int, pinA: uint16, pinB: uint16, now: nat, callback: bool,
                                mcp: Mcp23017.Mcp23017Table, readA: byte, readB: byte,
                                ghost c: Mcp23017.Chip, ghost e0: Encoder, ghost es: seq<Encoder>)
      returns (ghost eu: (Encoder, Option<PotCall>))
      requires Valid() && mcp.Valid() && i < MAX_NUM_ZYNCODERS && j >= 0
      requires Mcp23017.ChipIndex(mcp.chips[..], pinA) == j && Mcp23017.ChipIndex(mcp.chips[..], pinB) == j
      requires j < Mcp23017.MAX_NUM_MCP23017 && mcp.chips[j] == c && encoders[..] == es && encoders[i] == EncoderCleared(e0)
      modifies this`potCalls, encoders, mcp.chips
      ensures Valid() && mcp.Valid()
      ensures Mcp23017.Covers(c, pinA) && Mcp23017.Covers(c, pinB)
      ensures eu == ExpanderEncoderStart(e0, c, pinA, pinB, readA, readB, now, callback)
      ensures encoders[..] == es[i := eu.0] && potCalls == old(potCalls) + CallsOf(eu.1)
      ensures mcp.chips[..] == old(mcp.chips[..])[j := EncoderChipBound(c, pinA, pinB, i, readA, readB)]
    {
      ghost var configured := EncoderConfigured(e0, pinA, pinB);
      encoders[i] := encoders[i].(pinA := pinA, pinB := pinB, enabled := true);
      assert encoders[..] == es[i := configured];
      var levelA, levelB := BindExpanderEncoder(mcp, j, pinA, pinB, i, readA, readB);
      eu := ExpanderEncoderStart(e0, c, pinA, pinB, readA, readB, now, callback);
      assert eu == EncoderStep(encoders[i], levelA, levelB, now, callback);
      UpdateEncoder(i, levelA, levelB, now, callback);
      UpdateTwice(es, i, configured, eu.0);
    }

    /**
     * zyncoder_rbpi_ISR with the guard against the encoder table's size
     * (see EncoderIsrGuardAsWritten): an enabled encoder reads its two
     * native pins and updates.
     */
    method EncoderIsr(i: nat, now: nat, callback: bool, gpio: WiringPiEmu.GpioEmu)
      requires Valid() && gpio.Valid()
      modifies this`potCalls, encoders
      ensures Valid()
      ensures !(i < MAX_NUM_ZYNCODERS && old(encoders[i]).enabled) ==> encoders[..] == old(encoders[..]) && potCalls == old(potCalls)
      ensures i < MAX_NUM_ZYNCODERS && old(encoders[i]).enabled ==>
        var e := old(encoders[i]);
        var eu := EncoderStep(e, ReadLevel(gpio.gpio[..], e.pinA), ReadLevel(gpio.gpio[..], e.pinB), now, callback);
        encoders[..] == old(encoders[..])[i := eu.0] && potCalls == old(potCalls) + CallsOf(eu.1)
    {
      if i >= MAX_NUM_ZYNCODERS {
        return;
      }
      if !encoders[i].enabled {
        return;
      }
      var a := gpio.DigitalRead(encoders[i].pinA);
      var b := gpio.DigitalRead(encoders[i].pinB);
      UpdateEncoder(i, ToUint8(a), ToUint8(b), now, callback);
    }

    /**
     * setup_behaviour_zyncoder: an enabled encoder gets step 0 (accelerated)
     * or 1, and its value and histories are cleared.  `ok` is false for an
     * invalid or disabled encoder.
     */
    method SetupBehaviourEncoder(i: byte, step: int32) returns (ok: bool)
      requires Valid()
      modifies encoders
      ensures Valid()
      ensures ok <==> i < MAX_NUM_ZYNCODERS && old(encoders[i]).enabled
      ensures !ok ==> encoders[..] == old(encoders[..])
      ensures ok ==> encoders[..] == old(encoders[..])[i := old(encoders[i]).(
        step := if step == 0 then 0 else 1, value := 0, tsms := 0, shortHistory := 0, longHistory := 0)]
    {
      if i >= MAX_NUM_ZYNCODERS || !encoders[i].enabled {
        return false;
      }
      encoders[i] := encoders[i].(step := if step == 0 then 0 else 1, value := 0, tsms := 0, shortHistory := 0, longHistory := 0);
      return true;
    }

    /** get_value_zyncoder: the accumulated value, read once; 0 for an invalid or disabled encoder. */
    method GetValueEncoder(i: byte) returns (r: int32)
      requires Valid()
      modifies encoders
      ensures Valid()
      ensures !(i < MAX_NUM_ZYNCODERS && old(encoders[i]).enabled) ==> r == 0 && encoders[..] == old(encoders[..])
      ensures i < MAX_NUM_ZYNCODERS && old(encoders[i]).enabled ==>
        r == old(encoders[i]).value && encoders[..] == old(encoders[..])[i := old(encoders[i]).(value := 0)]
    {
      if i >= MAX_NUM_ZYNCODERS || !encoders[i].enabled {
        return 0;
      }
      r := encoders[i].value;
      if r != 0 {
        encoders[i] := encoders[i].(value := 0);
      }
    }

    /** The update loop of zynmcp23017_ISR: each switch or encoder update, in order. */
    method ApplyDispatches(d: seq<Mcp23017.Dispatch>, env: Env, callback: bool)
      requires Valid() && AllFit(d)
      modifies this`sent, this`potCalls, switches, encoders
      ensures Valid()
      ensures State() == Applied(old(State()), d, env, callback)
    {
      ghost var st0 := State();
      for n := 0 to |d|
        invariant Valid()
        invariant State() == Applied(st0, d[..n], env, callback)
      {
        assert d[..n + 1][..n] == d[..n];
        assert d[n] in d;
        match d[n]
        case SwitchUpdate(k, level) =>
          UpdateSwitch(k, level, env);
        case EncoderUpdate(k, a, b) =>
          UpdateEncoder(k, a, b, env.now, callback);
      }
      assert d[..|d|] == d;
    }

    /**
     * zynmcp23017_ISR for chip i and bank `bank`, the bank's register
     * reading `reg`: the chip's updates, applied to the switches and
     * encoders in order.
     */
    method Mcp23017Isr(mcp: Mcp23017.Mcp23017Table, i: byte, bank: byte, reg: byte, env: Env, callback: bool)
      requires Valid() && mcp.Valid()
      modifies this`sent, this`potCalls, switches, encoders, mcp.chips
      ensures Valid() && mcp.Valid()
      ensures !(i < Mcp23017.MAX_NUM_MCP23017 && old(mcp.chips[i]).enabled && bank <= 1) ==>
        State() == old(State()) && mcp.chips[..] == old(mcp.chips[..])
      ensures i < Mcp23017.MAX_NUM_MCP23017 && old(mcp.chips[i]).enabled && bank <= 1 ==>
        var c := old(mcp.chips[i]);
        && mcp.chips[..] == old(mcp.chips[..])[i := c.(lastState := if bank == 0 then Mcp23017.MergeBankA(c.lastState, reg)
                                                                     else Mcp23017.MergeBankB(c.lastState, reg))]
        && State() == Applied(old(State()), ChipUpdates(c, bank, reg, SwitchPins(old(switches[..])), EncoderPins(old(encoders[..]))),
                              env, callback)
    {
      var swPins := SwitchPins(switches[..]);
      var encPins := EncoderPins(encoders[..]);
      ghost var c := mcp.chips[if i < Mcp23017.MAX_NUM_MCP23017 then i else 0];
      var d := mcp.Isr(i, bank, reg, swPins, encPins);
      if i < Mcp23017.MAX_NUM_MCP23017 && c.enabled && bank <= 1 {
        assert d == ChipUpdates(c, bank, reg, swPins, encPins);
      }
      ApplyDispatches(d, env, callback);
    }
  }
}
