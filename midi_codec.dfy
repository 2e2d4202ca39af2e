// The byte layouts zynmidirouter.c writes and reads: three-byte channel
// messages for the router's ring buffers, 32-bit words for the UI queue,
// and the framing that cuts a ring buffer's bytes back into events.
module MidiCodec {
  import opened CTypes

  // Channel message kinds (the high nibble of the status byte) and the
  // router-internal pseudo codes of `midi_event_type_enum`.
  const SWAP_EVENT := -3
  const IGNORE_EVENT := -2
  const THRU_EVENT := -1
  const NONE_EVENT := 0
  const NOTE_OFF := 0x8
  const NOTE_ON := 0x9
  const KEY_PRESS := 0xA
  const CTRL_CHANGE := 0xB
  const PROG_CHANGE := 0xC
  const CHAN_PRESS := 0xD
  const PITCH_BEND := 0xE
  // Pseudo codes used by switches and the CV/gate expansion; their
  // values are not fixed by any header in this model, only their distinctness.
  const CTRL_SWITCH_EVENT := 0x10
  const CVGATE_IN_EVENT := -4
  const GATE_OUT_EVENT := -5
  const CVGATE_OUT_EVENT := -6
  // System real-time status bytes used as switch events.
  const TIME_CLOCK := 0xF8
  const TRANSPORT_START := 0xFA
  const TRANSPORT_CONTINUE := 0xFB
  const TRANSPORT_STOP := 0xFC
  const SYSTEM_EXCLUSIVE := 0xF0
  const END_OF_EXCLUSIVE := 0xF7

  /** `kind << 4 | (chan & 0x0F)`, written in the source as `0x80 + (chan & 0x0F)` and alike. */
  function StatusByte(kind: int, chan: byte): byte
    requires NOTE_OFF <= kind <= PITCH_BEND
  {
    16 * kind + chan % 16
  }

  /** The message kind and channel are recovered from a status byte. */
  lemma StatusByteFields(kind: int, chan: byte)
    requires NOTE_OFF <= kind <= PITCH_BEND
    ensures 0x80 <= StatusByte(kind, chan) < 0xF0
    ensures StatusByte(kind, chan) / 16 == kind && StatusByte(kind, chan) % 16 == chan % 16
  {
  }

  // The three bytes each zmip_send_* / zmop_send_* function queues.
  function NoteOffBytes(chan: byte, note: byte, vel: byte): seq<byte> { [StatusByte(NOTE_OFF, chan), note, vel] }
  function NoteOnBytes(chan: byte, note: byte, vel: byte): seq<byte> { [StatusByte(NOTE_ON, chan), note, vel] }
  function CtrlChangeBytes(chan: byte, ctrl: byte, val: byte): seq<byte> { [StatusByte(CTRL_CHANGE, chan), ctrl, val] }
  function ProgChangeBytes(chan: byte, prgm: byte): seq<byte> { [StatusByte(PROG_CHANGE, chan), prgm, 0] }
  function ChanPressBytes(chan: byte, val: byte): seq<byte> { [StatusByte(CHAN_PRESS, chan), val, 0] }
  function PitchBendBytes(chan: byte, pb: uint16): seq<byte> { [StatusByte(PITCH_BEND, chan), pb % 128, (pb / 128) % 128] }

  /** The 14-bit value a receiver assembles from a pitch-bend message, `(msb << 7) | lsb`. */
  function PitchBendValue(lsb: byte, msb: byte): nat {
    128 * msb + lsb
  }

  /** Pitch bend travels as two 7-bit data bytes that carry the low 14 bits of the value. */
  lemma {:induction false} PitchBendRoundTrip(chan: byte, pb: uint16)
    ensures PitchBendBytes(chan, pb)[1] < 128 && PitchBendBytes(chan, pb)[2] < 128
    ensures PitchBendValue(PitchBendBytes(chan, pb)[1], PitchBendBytes(chan, pb)[2]) == pb % 0x4000
  {
    var q := pb / 128;
    assert pb == 128 * q + pb % 128;
    assert q == 128 * (q / 128) + q % 128;
    assert pb == 0x4000 * (q / 128) + (128 * (q % 128) + pb % 128);
  }

  /**
   * `(buffer[2] << 7) | buffer[1]`, the word a receiver of a pitch-bend
   * message assembles, as a 16-bit value; for 7-bit data bytes it is the
   * 14-bit pitch-bend value.
   */
  function ReceivedPitchBend(lsb: byte, msb: byte): (v: uint16)
    ensures lsb < 128 ==> v == PitchBendValue(lsb, msb)
  {
    Pow2Values();
    BitOrNarrow(128 * msb, lsb, 15);
    if lsb < 128 then BitOrShift(msb, lsb, 7); BitOr(128 * msb, lsb) else BitOr(128 * msb, lsb)
  }

  /** A 14-bit value splits into data bytes and back unchanged. */
  lemma PitchBendValueSplit(v: nat)
    requires v < 0x4000
    ensures v / 128 < 128 && (v / 128) % 128 == v / 128
    ensures PitchBendValue(v % 128, v / 128) == v
  {
  }

  /** Every message an encoder produces is a status byte and two data bytes or padding. */
  lemma EncodersFormChannelMessages(chan: byte, a: byte, b: byte, pb: uint16)
    ensures 0x80 <= NoteOffBytes(chan, a, b)[0] < 0x90 && 0x90 <= NoteOnBytes(chan, a, b)[0] < 0xA0
    ensures 0xB0 <= CtrlChangeBytes(chan, a, b)[0] < 0xC0 && 0xC0 <= ProgChangeBytes(chan, a)[0] < 0xD0
    ensures 0xD0 <= ChanPressBytes(chan, a)[0] < 0xE0 && 0xE0 <= PitchBendBytes(chan, pb)[0] < 0xF0
  {
  }

  /**
   * What a controller emits: a message queued on the router's internal
   * input (`zmip_send_*` on ZMIP_FAKE_INT), or a word put on the UI queue
   * (`write_zynmidi*`).
   */
  datatype Emitted = ToRouter(bytes: seq<byte>) | ToUi(word: uint32)

  // The 32-bit words write_zynmidi_* put on the UI queue:
  // 0xFF, the status byte, the first and the second data byte, high to low.
  function UiWord(status: byte, num: byte, val: byte): uint32 {
    0xFF00_0000 + 0x1_0000 * status + 0x100 * num + val
  }
  function UiNoteOn(chan: byte, num: byte, val: byte): uint32 { UiWord(StatusByte(NOTE_ON, chan), num, val) }
  function UiNoteOff(chan: byte, num: byte, val: byte): uint32 { UiWord(StatusByte(NOTE_OFF, chan), num, val) }
  function UiCtrlChange(chan: byte, num: byte, val: byte): uint32 { UiWord(StatusByte(CTRL_CHANGE, chan), num, val) }
  function UiProgChange(chan: byte, num: byte): uint32 { UiWord(StatusByte(PROG_CHANGE, chan), num, 0) }

  /** The four bytes of a UI word, most significant first. */
  function WordBytes(w: uint32): (b: seq<byte>)
    ensures |b| == 4
  {
    [w / 0x100_0000, (w / 0x1_0000) % 0x100, (w / 0x100) % 0x100, w % 0x100]
  }

  /** A UI word unpacks to its marker byte, its status byte and its two data bytes. */
  lemma {:induction false} UiWordRoundTrip(status: byte, num: byte, val: byte)
    ensures WordBytes(UiWord(status, num, val)) == [0xFF, status, num, val]
  {
    WordBytesOf(UiWord(status, num, val), 0xFF, status, num, val);
  }

  /** A word built from four bytes, most significant first, unpacks to them. */
  lemma WordBytesOf(w: uint32, a: byte, b: byte, c: byte, e: byte)
    requires w == 0x100_0000 * a + 0x1_0000 * b + 0x100 * c + e
    ensures WordBytes(w) == [a, b, c, e]
  {
    var w1, w2 := 0x1_0000 * a + 0x100 * b + c, 0x100 * a + b;
    ByteSplit(w, w1, e);
    ByteSplit(w1, w2, c);
    ByteSplit(w2, a, b);
    assert w / 0x1_0000 == w2;
    assert w / 0x100_0000 == a;
  }

  /** The low byte of x and the rest, when x is written as 256 q + r. */
  lemma ByteSplit(x: nat, q: nat, r: nat)
    requires x == 0x100 * q + r && r < 0x100
    ensures x / 0x100 == q && x % 0x100 == r
  {
  }

  // ---------------------------------------------------------------------
  // Framing of ring-buffer bytes into events
  // ---------------------------------------------------------------------

  /** The time stamp that marks an event to be ignored. */
  const IGNORE_TIME: uint32 := 0xFFFF_FFFF

  /** A `jack_midi_event_t` as the router fills it from a ring buffer. */
  datatype JackEvent = JackEvent(size: nat, time: uint32, bytes: seq<byte>)

  /** Message length by status byte, as MIDI 1.0 Table I gives it (undefined codes count one byte). */
  function TableILength(status: byte): nat
    requires status >= 0x80 && status != SYSTEM_EXCLUSIVE
  {
    if status < 0xC0 then 3
    else if status < 0xE0 then 2
    else if status < 0xF0 then 3
    else if status == 0xF1 || status == 0xF3 then 2
    else if status == 0xF2 then 3
    else 1
  }

  /** The size switch of populate_midi_event_from_rb as the source writes it. */
  function EventSizeAsWritten(status: byte): nat {
    if status in {0xF4, 0xF5, 0xF7, 0xF9} then 1
    else if status == 0xF2 then 3
    else if status in {0xF1, 0xF3} then 2
    else if status in {0xF6, 0xF8, 0xFA, 0xFB, 0xFC, 0xFD} then 1
    else if status / 16 in {0x8, 0x9, 0xA, 0xB, 0xE} then 3
    else if status / 16 in {0xC, 0xD} then 2
    else 3
  }

  /** Active Sensing and System Reset come out three bytes long where Table I says one. */
  lemma EventSizeAsWrittenMissesActiveSenseAndReset()
    ensures EventSizeAsWritten(0xFE) == 3 && TableILength(0xFE) == 1
    ensures EventSizeAsWritten(0xFF) == 3 && TableILength(0xFF) == 1
  {
  }

  /** The size rule with Active Sensing and System Reset given their one byte. */
  function EventSize(status: byte): nat {
    if status == 0xFE || status == 0xFF then 1 else EventSizeAsWritten(status)
  }

  /** Every status byte other than SysEx gets the length Table I gives it. */
  lemma EventSizeMatchesTableI(status: byte)
    requires status >= 0x80 && status != SYSTEM_EXCLUSIVE
    ensures EventSize(status) == TableILength(status)
  {
  }

  /** Apart from 0xFE and 0xFF the as-written rule already agrees with Table I. */
  lemma EventSizeAsWrittenElsewhereAgrees(status: byte)
    requires status >= 0x80 && status != SYSTEM_EXCLUSIVE && status != 0xFE && status != 0xFF
    ensures EventSizeAsWritten(status) == TableILength(status)
  {
  }

  /** Index of the first end-of-exclusive byte at or after `from`, if any. */
  function FindEnd(rb: seq<byte>, from: nat): (k: Option<nat>)
    decreases |rb| - from
    ensures k.Some? ==> from <= k.value < |rb| && rb[k.value] == END_OF_EXCLUSIVE
    ensures k.Some? ==> forall j :: from <= j < k.value ==> rb[j] != END_OF_EXCLUSIVE
    ensures k.None? ==> forall j :: from <= j < |rb| ==> rb[j] != END_OF_EXCLUSIVE
  {
    if from >= |rb| then None
    else if rb[from] == END_OF_EXCLUSIVE then Some(from)
    else FindEnd(rb, from + 1)
  }

  /**
   * Where the source looks for the end of a SysEx: only among the bytes read
   * after the first three.
   */
  function SysExEndAsWritten(rb: seq<byte>): Option<nat> {
    FindEnd(rb, 3)
  }

  /** A three-byte SysEx is complete at its third byte; the as-written scan never sees it. */
  lemma SysExEndAsWrittenMissesShortMessage()
    ensures SysExEndAsWritten([0xF0, 0x7D, 0xF7]).None?
    ensures SysExEndAsWritten([0xF0, 0x7D, 0xF7, 0x90, 0x3C, 0x64]).None?
  {
  }

  /** The end search starting at the third byte, the first that can close a SysEx with its ID byte. */
  function SysExEnd(rb: seq<byte>): Option<nat> {
    FindEnd(rb, 2)
  }

  /**
   * populate_midi_event_from_rb as a function of the ring buffer's bytes:
   * the event and the bytes left behind.  An incomplete read leaves the
   * event ignored.
   */
  function FrameEvent(rb: seq<byte>, lastFrame: uint32): (JackEvent, seq<byte>) {
    if |rb| < 3 then (JackEvent(3, IGNORE_TIME, []), rb)
    else if rb[0] == SYSTEM_EXCLUSIVE then
      match SysExEnd(rb)
      case Some(k) => (JackEvent(k + 1, lastFrame, rb[..k + 1]), rb[k + 1..])
      case None => (JackEvent(|rb|, IGNORE_TIME, rb), [])
    else (JackEvent(EventSize(rb[0]), lastFrame, rb[..3]), rb[3..])
  }

  /** Framing never loses or invents a byte: what an event takes plus what is left is the buffer. */
  lemma FrameEventKeepsBytes(rb: seq<byte>, lastFrame: uint32)
    requires |rb| >= 3
    ensures FrameEvent(rb, lastFrame).0.bytes + FrameEvent(rb, lastFrame).1 == rb
    ensures |FrameEvent(rb, lastFrame).1| < |rb|
  {
    var (ev, rest) := FrameEvent(rb, lastFrame);
    if rb[0] == SYSTEM_EXCLUSIVE && SysExEnd(rb).Some? {
      var k := SysExEnd(rb).value;
      assert rb[..k + 1] + rb[k + 1..] == rb;
    } else if rb[0] != SYSTEM_EXCLUSIVE {
      assert rb[..3] + rb[3..] == rb;
    }
  }

  /** A complete SysEx frames as one event that ends at its first end-of-exclusive byte. */
  lemma {:induction false} FrameSysEx(body: seq<byte>, rest: seq<byte>, lastFrame: uint32)
    requires |body| >= 1 && forall j :: 0 <= j < |body| ==> body[j] < 0x80
    ensures var m := [SYSTEM_EXCLUSIVE] + body + [END_OF_EXCLUSIVE];
      FrameEvent(m + rest, lastFrame) == (JackEvent(|m|, lastFrame, m), rest)
  {
    var m := [SYSTEM_EXCLUSIVE] + body + [END_OF_EXCLUSIVE];
    var rb := m + rest;
    assert rb[|m| - 1] == END_OF_EXCLUSIVE;
    assert forall j :: 2 <= j < |m| - 1 ==> rb[j] == body[j - 1];
    FindEndAt(rb, 2, |m| - 1);
    assert rb[..|m|] == m;
    assert rb[|m|..] == rest;
  }

  lemma {:induction false} FindEndAt(rb: seq<byte>, from: nat, k: nat)
    requires from <= k < |rb| && rb[k] == END_OF_EXCLUSIVE
    requires forall j :: from <= j < k ==> rb[j] != END_OF_EXCLUSIVE
    ensures FindEnd(rb, from) == Some(k)
    decreases k - from
  {
    if from < k {
      FindEndAt(rb, from + 1, k);
    }
  }

  /** A queued channel message frames back as itself, with the length its status byte calls for. */
  lemma FrameChannelMessage(m: seq<byte>, rest: seq<byte>, lastFrame: uint32)
    requires |m| == 3 && 0x80 <= m[0] < 0xF0
    ensures FrameEvent(m + rest, lastFrame) == (JackEvent(TableILength(m[0]), lastFrame, m), rest)
  {
    assert (m + rest)[..3] == m;
    assert (m + rest)[3..] == rest;
    EventSizeMatchesTableI(m[0]);
  }

  /** The events a reader takes from a buffer until fewer than three bytes remain. */
  function Drain(rb: seq<byte>, lastFrame: uint32): seq<JackEvent>
    decreases |rb|
  {
    if |rb| < 3 then []
    else
      FrameEventKeepsBytes(rb, lastFrame);
      [FrameEvent(rb, lastFrame).0] + Drain(FrameEvent(rb, lastFrame).1, lastFrame)
  }

  /** The event a queued channel message arrives as. */
  function ArrivedAs(m: seq<byte>, lastFrame: uint32): JackEvent
    requires |m| == 3 && 0x80 <= m[0] < 0xF0
  {
    JackEvent(TableILength(m[0]), lastFrame, m)
  }

  function Concat(ms: seq<seq<byte>>): seq<byte> {
    if ms == [] then [] else ms[0] + Concat(ms[1..])
  }

  /** Queued channel messages come out of the buffer one by one, in order, unchanged. */
  lemma {:induction false} DrainChannelMessages(ms: seq<seq<byte>>, lastFrame: uint32)
    requires forall i :: 0 <= i < |ms| ==> |ms[i]| == 3 && 0x80 <= ms[i][0] < 0xF0
    ensures |Drain(Concat(ms), lastFrame)| == |ms|
    ensures forall i :: 0 <= i < |ms| ==> Drain(Concat(ms), lastFrame)[i] == ArrivedAs(ms[i], lastFrame)
  {
    if ms != [] {
      FrameChannelMessage(ms[0], Concat(ms[1..]), lastFrame);
      DrainChannelMessages(ms[1..], lastFrame);
      assert |Concat(ms)| >= 3;
      var d := Drain(Concat(ms), lastFrame);
      assert d == [ArrivedAs(ms[0], lastFrame)] + Drain(Concat(ms[1..]), lastFrame);
      forall i | 0 <= i < |ms| ensures d[i] == ArrivedAs(ms[i], lastFrame) {
        if i > 0 {
          assert ms[1..][i - 1] == ms[i];
        }
      }
    }
  }
}
