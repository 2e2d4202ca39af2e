// The ports of the MIDI router (zynmidirouter.c): the records kept for
// each input port (zmip) and output port (zmop), their flag words, the
// direct-send ring buffers, and the rules zmop_push_event applies to an
// event on its way out of an output port: note range and transpose,
// channel translation, and fine tuning by pitch bend.
module MidiRouter {
  import opened CTypes
  import opened MidiCodec

  // Port numbering: chain outputs first, then the internal outputs, then
  // the devices; device inputs first, then the internal inputs.
  // zynmidirouter.h in this tree is older than zynmidirouter.c, so these
  // values follow the layout the .c file indexes by; no proof depends on
  // them beyond ZMOP_CTRL <= MAX_NUM_ZMOPS.
  const NUM_ZMOP_CHAINS := 16
  const ZMOP_CH0 := 0
  const ZMOP_MOD := ZMOP_CH0 + NUM_ZMOP_CHAINS
  const ZMOP_STEP := ZMOP_MOD + 1
  const ZMOP_CTRL := ZMOP_STEP + 1
  const ZMOP_DEV0 := ZMOP_CTRL + 1
  const NUM_ZMOP_DEVS := 16
  const MAX_NUM_ZMOPS := ZMOP_DEV0 + NUM_ZMOP_DEVS

  const ZMIP_DEV0 := 0
  const NUM_ZMIP_DEVS := 16
  const ZMIP_SEQ := ZMIP_DEV0 + NUM_ZMIP_DEVS
  const ZMIP_STEP := ZMIP_SEQ + 1
  const ZMIP_CTRL := ZMIP_STEP + 1
  const ZMIP_FAKE_INT := ZMIP_CTRL + 1
  const ZMIP_FAKE_UI := ZMIP_FAKE_INT + 1
  const MAX_NUM_ZMIPS := ZMIP_FAKE_UI + 1

  /** A ring buffer of JACK_MIDI_BUFFER_SIZE (4096) bytes, of which JACK keeps one free. */
  const RB_CAPACITY := 4095

  // ---------------------------------------------------------------------
  // Flag words
  // ---------------------------------------------------------------------

  /** The output-port flags FLAG_ZMOP_*. */
  datatype ZmopFlag = DropPc | DropCc | DropSys | DropSysEx | DropNote | Tuning | NoteRange | ChanTransfilter | DirectOut

  /** The bit each output-port flag occupies in the port's flag word. */
  function ZmopBit(f: ZmopFlag): (n: nat)
    ensures n < 9
  {
    match f
    case DropPc => 0
    case DropCc => 1
    case DropSys => 2
    case DropSysEx => 3
    case DropNote => 4
    case Tuning => 5
    case NoteRange => 6
    case ChanTransfilter => 7
    case DirectOut => 8
  }

  /** The input-port flags FLAG_ZMIP_*. */
  datatype ZmipFlag = Ui | DirectIn | Filter | ActiveChain | CcAutoMode

  function ZmipBit(f: ZmipFlag): (n: nat)
    ensures n < 5
  {
    match f
    case Ui => 0
    case DirectIn => 1
    case Filter => 2
    case ActiveChain => 3
    case CcAutoMode => 4
  }

  /** Bit n of a flag word is set. */
  predicate FlagOn(flags: uint32, n: nat) {
    BitRead(flags, n) == 1
  }

  /** `(flags & mask) == mask`: every flag of the mask is set. */
  predicate HasFlags(flags: uint32, mask: nat) {
    BitAnd(flags, mask) == mask
  }

  /**
   * `flags |= 1 << n` when `on`, `flags &= ~(1 << n)` otherwise: bit n
   * takes the new setting and every other bit keeps its own.
   */
  function WithFlag(flags: uint32, n: nat, on: bool): (r: uint32)
    requires n < 32
    ensures FlagOn(r, n) == on
    ensures forall m :: m != n ==> BitRead(r, m) == BitRead(flags, m)
  {
    Pow2Word();
    BitOpsStayNarrow(flags, flags, 32, n);
    var r := if on then BitSet(flags, n) else BitClear(flags, n);
    WithFlagBits(flags, n, on, r);
    r
  }

  lemma WithFlagBits(flags: nat, n: nat, on: bool, r: nat)
    requires r == if on then BitSet(flags, n) else BitClear(flags, n)
    ensures forall m :: BitRead(r, m) == if m == n then (if on then 1 else 0) else BitRead(flags, m)
  {
    forall m
      ensures BitRead(r, m) == if m == n then (if on then 1 else 0) else BitRead(flags, m)
    {
      if on {
        BitSetBits(flags, n, m);
      } else {
        BitClearBits(flags, n, m);
      }
    }
  }

  /**
   * For a single flag, the has-flags test `(flags & F) == F` and the
   * getters' test `(flags & F) > 0` both read the flag's own bit.
   */
  lemma {:induction false} SingleFlagTests(flags: uint32, n: nat)
    ensures HasFlags(flags, Pow2(n)) <==> FlagOn(flags, n)
    ensures BitAnd(flags, Pow2(n)) > 0 <==> FlagOn(flags, n)
  {
    BitAndPow2(flags, n);
  }

  /** `flags & F` for a single flag F is F itself when the flag is set, and 0 otherwise. */
  lemma MaskedFlag(flags: uint32, n: nat)
    ensures BitAnd(flags, Pow2(n)) == if FlagOn(flags, n) then Pow2(n) else 0
  {
    BitAndPow2(flags, n);
    if BitRead(flags, n) == 1 {
      assert Pow2(n) * BitRead(flags, n) == Pow2(n);
    } else {
      assert Pow2(n) * BitRead(flags, n) == 0;
    }
  }

  // ---------------------------------------------------------------------
  // Port records
  // ---------------------------------------------------------------------

  /**
   * `struct zmop_st` without its JACK handles: the flag word, the channel
   * map, the routes from each input port, note range and transpose, the
   * per-note state, the last pitch bend per channel and the CC routes.
   */
  datatype Zmop = Zmop(
    flags: uint32,
    midiChan: int32,
    midiChans: seq<int32>,
    routeFromZmips: seq<int32>,
    noteLow: byte,
    noteHigh: byte,
    transposeOctave: int8,
    transposeSemitone: int8,
    noteState: seq<byte>,
    noteTranspose: seq<int8>,
    lastPbVal: seq<uint16>,
    ccRoute: seq<byte>,
    hasRing: bool)

  /** The array sizes of `struct zmop_st`. */
  predicate ZmopShaped(z: Zmop) {
    |z.midiChans| == 16 && |z.routeFromZmips| == MAX_NUM_ZMIPS && |z.noteState| == 128
    && |z.noteTranspose| == 128 && |z.lastPbVal| == 16 && |z.ccRoute| == 128
  }

  /** An output port as static storage holds it before zmop_init: all zero. */
  function ZeroZmop(): (z: Zmop)
    ensures ZmopShaped(z)
  {
    Zmop(0, 0, seq(16, _ => 0), seq(MAX_NUM_ZMIPS, _ => 0), 0, 0, 0, 0,
         seq(128, _ => 0), seq(128, _ => 0), seq(16, _ => 0), seq(128, _ => 0), false)
  }

  /**
   * `struct zmip_st` without its JACK handles and CC-mode tables: the flag
   * word, whether it owns a direct-send ring buffer, the bytes queued in
   * it, and the time of its pending event.
   */
  datatype Zmip = Zmip(flags: uint32, hasRing: bool, rb: seq<byte>, eventTime: uint32)

  function ZeroZmip(): Zmip {
    Zmip(0, false, [], 0)
  }

  // ---------------------------------------------------------------------
  // Tuning
  // ---------------------------------------------------------------------

  /** get_tuned_pitchbend: the bend moved by the tuning offset from centre (8192), clamped to 14 bits. */
  function TunedPitchbend(tuning: int, pb: int): (r: int)
    ensures 0 <= r < 0x4000
  {
    var tpb := tuning + pb - 8192;
    if tpb < 0 then 0 else if tpb > 16383 then 16383 else tpb
  }

  /** Tuning 8192 is no offset: every 14-bit bend passes unchanged. */
  lemma TunedPitchbendCentre(pb: int)
    requires 0 <= pb < 0x4000
    ensures TunedPitchbend(8192, pb) == pb
  {
  }

  /** Within the 14-bit range the tuned bend is the bend shifted by `tuning - 8192`, else the nearest end. */
  lemma TunedPitchbendShifts(tuning: int, pb: int)
    ensures 0 <= tuning + pb - 8192 < 0x4000 ==> TunedPitchbend(tuning, pb) == pb + (tuning - 8192)
    ensures tuning + pb - 8192 < 0 ==> TunedPitchbend(tuning, pb) == 0
    ensures tuning + pb - 8192 >= 0x4000 ==> TunedPitchbend(tuning, pb) == 0x3FFF
  {
  }

  /** A higher bend never tunes lower, and a higher tuning never bends lower. */
  lemma TunedPitchbendMonotone(t1: int, t2: int, p1: int, p2: int)
    requires t1 <= t2 && p1 <= p2
    ensures TunedPitchbend(t1, p1) <= TunedPitchbend(t2, p2)
  {
  }

  // ---------------------------------------------------------------------
  // zmop_push_event
  // ---------------------------------------------------------------------

  /** The message kind, `buffer[0] >> 4`. */
  function Kind(b: seq<byte>): nat
    requires |b| >= 1
  {
    b[0] / 16
  }

  /** The channel, `buffer[0] & 0x0F`. */
  function Chan(b: seq<byte>): (c: nat)
    requires |b| >= 1
    ensures c < 16
  {
    b[0] % 16
  }

  /** Note range and transpose apply to this event on this port. */
  predicate NoteRangeApplies(z: Zmop, b: seq<byte>) {
    |b| >= 1 && FlagOn(z.flags, ZmopBit(NoteRange)) && (Kind(b) == NOTE_OFF || Kind(b) == NOTE_ON)
  }

  /** Pitch-bend tuning applies on this port with this global tuning. */
  predicate TuningApplies(z: Zmop, tuning: int) {
    FlagOn(z.flags, ZmopBit(Tuning)) && tuning >= 0
  }

  /**
   * What zmop_push_event reads of an event: its status byte; its note
   * number, which indexes a 128-entry table, where note range applies;
   * and both data bytes of a pitch bend that is retuned.
   */
  predicate PushAccepts(z: Zmop, tuning: int, b: seq<byte>) {
    ZmopShaped(z) && |b| >= 1
    && (NoteRangeApplies(z, b) ==> |b| >= 2 && b[1] < 128)
    && (TuningApplies(z, tuning) && Kind(b) == PITCH_BEND ==> |b| >= 3)
  }

  /** The transpose a note-on takes: octaves, semitones and the global transpose, stored as an int8. */
  function NoteOnOffset(z: Zmop, globalTranspose: int8): int8 {
    ToInt8(12 * z.transposeOctave + z.transposeSemitone + globalTranspose)
  }

  /** The transpose a note event is moved by: a note-off reuses the one stored at its note-on. */
  function NoteOffset(z: Zmop, globalTranspose: int8, b: seq<byte>): int8
    requires ZmopShaped(z) && |b| >= 2 && b[1] < 128
  {
    if Kind(b) == NOTE_OFF then z.noteTranspose[b[1]] else NoteOnOffset(z, globalTranspose)
  }

  /** The port after the note stage and, unless the event is dropped, the event's bytes. */
  datatype NoteResult = NoteResult(zmop: Zmop, bytes: Option<seq<byte>>)

  /**
   * The note stage: a note-on outside [note_low, note_high] is dropped; a
   * note-on stores its transpose; a note whose transposed number leaves
   * 0..127 is dropped; otherwise the note number is transposed.
   */
  function NoteStage(z: Zmop, globalTranspose: int8, b: seq<byte>): (r: NoteResult)
    requires PushAccepts(z, -1, b)
    ensures ZmopShaped(r.zmop) && r.zmop.flags == z.flags && r.zmop.midiChans == z.midiChans && r.zmop.lastPbVal == z.lastPbVal
    ensures r.bytes.Some? ==> |r.bytes.value| == |b| && forall i :: 0 <= i < |b| && i != 1 ==> r.bytes.value[i] == b[i]
  {
    if !NoteRangeApplies(z, b) then NoteResult(z, Some(b))
    else if Kind(b) == NOTE_ON && (b[1] < z.noteLow || b[1] > z.noteHigh) then NoteResult(z, None)
    else
      var offset := NoteOffset(z, globalTranspose, b);
      var z1 := if Kind(b) == NOTE_OFF then z else z.(noteTranspose := z.noteTranspose[b[1] := offset]);
      var note := b[1] + offset;
      if note < 0 || note > 0x7F then NoteResult(z1, None)
      else NoteResult(z1, Some(b[1 := note]))
  }

  /** Channel translation: a channel message moves to the channel the port maps its channel to. */
  function ChanStage(z: Zmop, b: seq<byte>): (r: seq<byte>)
    requires ZmopShaped(z) && |b| >= 1
    ensures |r| == |b| && Kind(r) == Kind(b) && r[1..] == b[1..]
  {
    if FlagOn(z.flags, ZmopBit(ChanTransfilter)) && NOTE_OFF <= Kind(b) <= PITCH_BEND
    then b[0 := 16 * Kind(b) + z.midiChans[Chan(b)] % 16]
    else b
  }

  /** The port, the event's bytes and the extra pitch-bend message after the tuning stage. */
  datatype TuneResult = TuneResult(zmop: Zmop, bytes: seq<byte>, extra: Option<seq<byte>>)

  /**
   * Fine tuning: a note-on is followed by a pitch bend carrying the
   * channel's last bend, tuned; a pitch bend is stored as the channel's
   * last bend and retuned in place.
   */
  function TuneStage(z: Zmop, tuning: int, b: seq<byte>): (r: TuneResult)
    requires ZmopShaped(z) && |b| >= 1
    requires TuningApplies(z, tuning) && Kind(b) == PITCH_BEND ==> |b| >= 3
    ensures ZmopShaped(r.zmop) && |r.bytes| == |b| && r.bytes[0] == b[0]
  {
    if !TuningApplies(z, tuning) then TuneResult(z, b, None)
    else if Kind(b) == NOTE_ON then
      var pb := TunedPitchbend(tuning, z.lastPbVal[Chan(b)]);
      TuneResult(z, b, Some([16 * PITCH_BEND + Chan(b), pb % 128, (pb / 128) % 128]))
    else if Kind(b) == PITCH_BEND then
      var raw := ReceivedPitchBend(b[1], b[2]);
      var pb := TunedPitchbend(tuning, raw);
      TuneResult(z.(lastPbVal := z.lastPbVal[Chan(b) := raw]), b[1 := pb % 128][2 := (pb / 128) % 128], None)
    else TuneResult(z, b, None)
  }

  /** The port, the events written to its output, and the event's bytes as the caller sees them after the call. */
  datatype Pushed = Pushed(zmop: Zmop, out: seq<JackEvent>, bytes: seq<byte>)

  /**
   * zmop_push_event for one event: the note stage, channel translation and
   * tuning in turn; the event is written out, followed by the tuning
   * pitch bend if there is one (written with the event's size); finally
   * the note number is put back in the caller's bytes.
   */
  function Push(z: Zmop, globalTranspose: int8, tuning: int, time: uint32, b: seq<byte>): (p: Pushed)
    requires PushAccepts(z, tuning, b)
    ensures ZmopShaped(p.zmop) && |p.bytes| == |b|
  {
    var n := NoteStage(z, globalTranspose, b);
    if n.bytes.None? then Pushed(n.zmop, [], b)
    else
      var c := ChanStage(n.zmop, n.bytes.value);
      var t := TuneStage(n.zmop, tuning, c);
      var out := [JackEvent(|b|, time, t.bytes)] + (if t.extra.Some? then [JackEvent(|b|, time, t.extra.value)] else []);
      Pushed(t.zmop, out, if NoteRangeApplies(z, b) then t.bytes[1 := b[1]] else t.bytes)
  }

  /** With note range on, a note-on outside [note_low, note_high] is dropped and changes nothing. */
  lemma PushDropsNoteOnOutsideRange(z: Zmop, globalTranspose: int8, tuning: int, time: uint32, b: seq<byte>)
    requires PushAccepts(z, tuning, b) && NoteRangeApplies(z, b) && Kind(b) == NOTE_ON
    requires b[1] < z.noteLow || b[1] > z.noteHigh
    ensures Push(z, globalTranspose, tuning, time, b) == Pushed(z, [], b)
  {
  }

  /** A note that transposes outside 0..127 is dropped; nothing is written and the caller's bytes are untouched. */
  lemma PushDropsTransposedOutsideRange(z: Zmop, globalTranspose: int8, tuning: int, time: uint32, b: seq<byte>)
    requires PushAccepts(z, tuning, b) && NoteRangeApplies(z, b)
    requires b[1] + NoteOffset(z, globalTranspose, b) < 0 || b[1] + NoteOffset(z, globalTranspose, b) > 127
    ensures Push(z, globalTranspose, tuning, time, b).out == []
    ensures Push(z, globalTranspose, tuning, time, b).bytes == b
  {
  }

  /**
   * A note inside the range whose transposed number stays in 0..127 goes
   * out transposed, the transpose is recorded for the note, and the
   * caller gets its note number back.
   */
  lemma PushSendsTransposedNote(z: Zmop, globalTranspose: int8, tuning: int, time: uint32, b: seq<byte>)
    requires PushAccepts(z, tuning, b) && NoteRangeApplies(z, b)
    requires Kind(b) == NOTE_ON ==> z.noteLow <= b[1] <= z.noteHigh
    requires 0 <= b[1] + NoteOffset(z, globalTranspose, b) < 128
    ensures var p := Push(z, globalTranspose, tuning, time, b);
      |p.out| >= 1 && p.out[0].bytes[1] == b[1] + NoteOffset(z, globalTranspose, b)
      && p.zmop.noteTranspose[b[1]] == NoteOffset(z, globalTranspose, b)
      && p.bytes[1] == b[1]
  {
  }

  /**
   * A note-off goes out on the same transposed note as its note-on did,
   * however the port's or the global transpose changed in between, as
   * long as the recorded transpose for that note was kept.
   */
  lemma {:induction false} PushNoteOffMatchesNoteOn(
      z: Zmop, globalTranspose: int8, tuning: int, time: uint32, on: seq<byte>,
      z2: Zmop, globalTranspose2: int8, tuning2: int, time2: uint32, off: seq<byte>)
    requires PushAccepts(z, tuning, on) && NoteRangeApplies(z, on) && Kind(on) == NOTE_ON
    requires Push(z, globalTranspose, tuning, time, on).out != []
    requires PushAccepts(z2, tuning2, off) && NoteRangeApplies(z2, off) && Kind(off) == NOTE_OFF && off[1] == on[1]
    requires z2.noteTranspose[on[1]] == Push(z, globalTranspose, tuning, time, on).zmop.noteTranspose[on[1]]
    ensures Push(z2, globalTranspose2, tuning2, time2, off).out != []
    ensures Push(z2, globalTranspose2, tuning2, time2, off).out[0].bytes[1] == Push(z, globalTranspose, tuning, time, on).out[0].bytes[1]
  {
    var offset := NoteOnOffset(z, globalTranspose);
    assert z.noteLow <= on[1] <= z.noteHigh && 0 <= on[1] + offset < 128 by {
      if !(z.noteLow <= on[1] <= z.noteHigh) {
        PushDropsNoteOnOutsideRange(z, globalTranspose, tuning, time, on);
      } else if !(0 <= on[1] + offset < 128) {
        PushDropsTransposedOutsideRange(z, globalTranspose, tuning, time, on);
      }
    }
    PushSendsTransposedNote(z, globalTranspose, tuning, time, on);
    assert NoteOffset(z2, globalTranspose2, off) == offset;
    PushSendsTransposedNote(z2, globalTranspose2, tuning2, time2, off);
  }

  /** With channel translation on, a channel message goes out on the channel the port maps its channel to. */
  lemma PushTranslatesChannel(z: Zmop, globalTranspose: int8, tuning: int, time: uint32, b: seq<byte>)
    requires PushAccepts(z, tuning, b) && FlagOn(z.flags, ZmopBit(ChanTransfilter)) && NOTE_OFF <= Kind(b) <= PITCH_BEND
    ensures var p := Push(z, globalTranspose, tuning, time, b);
      p.out != [] ==> p.out[0].bytes[0] == 16 * Kind(b) + z.midiChans[Chan(b)] % 16 && p.bytes[0] == p.out[0].bytes[0]
  {
  }

  /**
   * An event passes through unchanged, alone, and leaves the port as it
   * was, when no stage applies: on a port without note range, channel
   * translation or active tuning, and for every system message.
   */
  lemma PushPassesThrough(z: Zmop, globalTranspose: int8, tuning: int, time: uint32, b: seq<byte>)
    requires PushAccepts(z, tuning, b)
    requires Kind(b) > PITCH_BEND
      || (!FlagOn(z.flags, ZmopBit(NoteRange)) && !FlagOn(z.flags, ZmopBit(ChanTransfilter)) && !TuningApplies(z, tuning))
    ensures Push(z, globalTranspose, tuning, time, b) == Pushed(z, [JackEvent(|b|, time, b)], b)
  {
  }

  /**
   * With tuning active, a note-on that is sent is followed by a pitch
   * bend on its outgoing channel carrying that channel's last bend,
   * tuned, with the note-on's time.
   */
  lemma PushTunesNoteOn(z: Zmop, globalTranspose: int8, tuning: int, time: uint32, b: seq<byte>)
    requires PushAccepts(z, tuning, b) && TuningApplies(z, tuning) && Kind(b) == NOTE_ON
    requires Push(z, globalTranspose, tuning, time, b).out != []
    ensures var p := Push(z, globalTranspose, tuning, time, b);
      var c := Chan(p.out[0].bytes);
      |p.out| == 2 && p.out[1].time == time && |p.out[1].bytes| == 3
      && p.out[1].bytes[0] == StatusByte(PITCH_BEND, c)
      && PitchBendValue(p.out[1].bytes[1], p.out[1].bytes[2]) == TunedPitchbend(tuning, z.lastPbVal[c])
  {
    var n := NoteStage(z, globalTranspose, b);
    assert n.bytes.Some?;
    var c := ChanStage(n.zmop, n.bytes.value);
    assert Kind(c) == NOTE_ON by {
      assert n.bytes.value[0] == b[0];
    }
    assert TuningApplies(n.zmop, tuning);
    var pb := TunedPitchbend(tuning, z.lastPbVal[Chan(c)]);
    var t := TuneStage(n.zmop, tuning, c);
    assert t.bytes == c && t.extra == Some([16 * PITCH_BEND + Chan(c), pb % 128, (pb / 128) % 128]);
    var p := Push(z, globalTranspose, tuning, time, b);
    assert p.out == [JackEvent(|b|, time, c), JackEvent(|b|, time, t.extra.value)];
    TunedNoteOnPair(p.out, c, |b|, time, pb);
  }

  /** A note-on followed by the bend bytes TuneStage builds is a pitch bend on the note-on's channel. */
  lemma TunedNoteOnPair(out: seq<JackEvent>, c: seq<byte>, size: nat, time: uint32, pb: nat)
    requires |c| >= 1 && pb < 0x4000
    requires out == [JackEvent(size, time, c), JackEvent(size, time, [16 * PITCH_BEND + Chan(c), pb % 128, (pb / 128) % 128])]
    ensures |out| == 2 && out[1].time == time && |out[1].bytes| == 3
    ensures out[1].bytes[0] == StatusByte(PITCH_BEND, Chan(out[0].bytes))
    ensures PitchBendValue(out[1].bytes[1], out[1].bytes[2]) == pb
  {
    PitchBendValueSplit(pb);
  }

  /**
   * With tuning active, a pitch bend is recorded as its channel's last
   * bend and goes out retuned; the retuned data bytes stay in the
   * caller's buffer.
   */
  lemma PushTunesPitchBend(z: Zmop, globalTranspose: int8, tuning: int, time: uint32, b: seq<byte>)
    requires PushAccepts(z, tuning, b) && TuningApplies(z, tuning) && Kind(b) == PITCH_BEND
    requires b[1] < 128 && b[2] < 128
    ensures var p := Push(z, globalTranspose, tuning, time, b);
      var c := Chan(p.out[0].bytes);
      |p.out| == 1 && p.zmop.lastPbVal[c] == PitchBendValue(b[1], b[2])
      && PitchBendValue(p.out[0].bytes[1], p.out[0].bytes[2]) == TunedPitchbend(tuning, PitchBendValue(b[1], b[2]))
      && p.bytes == p.out[0].bytes
  {
    var c := ChanStage(z, b);
    PitchBendPushStages(z, globalTranspose, tuning, time, b);
    TuneStageRetunes(z, tuning, c);
  }

  /** A pitch bend passes the note stage untouched and goes out as the one event the tuning stage leaves. */
  lemma PitchBendPushStages(z: Zmop, globalTranspose: int8, tuning: int, time: uint32, b: seq<byte>)
    requires PushAccepts(z, tuning, b) && TuningApplies(z, tuning) && Kind(b) == PITCH_BEND
    ensures var c := ChanStage(z, b);
      var t := TuneStage(z, tuning, c);
      && |c| >= 3 && Kind(c) == PITCH_BEND && c[1] == b[1] && c[2] == b[2]
      && Push(z, globalTranspose, tuning, time, b) == Pushed(t.zmop, [JackEvent(|b|, time, t.bytes)], t.bytes)
  {
    var n := NoteStage(z, globalTranspose, b);
    assert !NoteRangeApplies(z, b) && n == NoteResult(z, Some(b));
    var c := ChanStage(z, b);
    assert c[1] == b[1] && c[2] == b[2] by {
      assert c[1..][0] == b[1..][0] && c[1..][1] == b[1..][1];
    }
    assert TuneStage(z, tuning, c).extra.None?;
  }

  /** The tuning stage records a pitch bend as its channel's last bend and rewrites its data bytes to the tuned value. */
  lemma TuneStageRetunes(z: Zmop, tuning: int, c: seq<byte>)
    requires ZmopShaped(z) && |c| >= 3 && TuningApplies(z, tuning) && Kind(c) == PITCH_BEND
    requires c[1] < 128 && c[2] < 128
    ensures var t := TuneStage(z, tuning, c);
      && Chan(t.bytes) == Chan(c) && t.zmop.lastPbVal[Chan(c)] == PitchBendValue(c[1], c[2])
      && PitchBendValue(t.bytes[1], t.bytes[2]) == TunedPitchbend(tuning, PitchBendValue(c[1], c[2]))
  {
    var raw := ReceivedPitchBend(c[1], c[2]);
    var pb := TunedPitchbend(tuning, raw);
    var t := TuneStage(z, tuning, c);
    PitchBendValueSplit(pb);
    assert t.bytes == c[1 := pb % 128][2 := pb / 128];
    assert t.bytes[0] == c[0] && t.bytes[1] == pb % 128 && t.bytes[2] == pb / 128;
  }

  // ---------------------------------------------------------------------
  // Direct-send ring buffers
  // ---------------------------------------------------------------------

  /**
   * write_rb_midi_event: the whole message is queued if the buffer has
   * room for it, else nothing is; 1 or 0 says which.
   */
  function RingWrite(rb: seq<byte>, m: seq<byte>): (r: (seq<byte>, int))
    ensures r.1 == 1 <==> |rb| + |m| <= RB_CAPACITY
    ensures r.1 == 1 ==> r.0 == rb + m
    ensures r.1 != 1 ==> r.1 == 0 && r.0 == rb
  {
    if RB_CAPACITY - |rb| >= |m| then (rb + m, 1) else (rb, 0)
  }

  /** Messages queued one by one, stopping at the first that does not fit: the buffer and 1, or 0 on that failure. */
  function RingWriteAll(rb: seq<byte>, ms: seq<seq<byte>>): (seq<byte>, int)
    decreases |ms|
  {
    if ms == [] then (rb, 1)
    else
      var (rb1, ok) := RingWrite(rb, ms[0]);
      if ok == 0 then (rb1, 0) else RingWriteAll(rb1, ms[1..])
  }

  /** With room for all of them, every message is queued, in order, and the result is 1. */
  lemma {:induction false} RingWriteAllFits(rb: seq<byte>, ms: seq<seq<byte>>)
    requires |rb| + |Concat(ms)| <= RB_CAPACITY
    ensures RingWriteAll(rb, ms) == (rb + Concat(ms), 1)
    decreases |ms|
  {
    if ms != [] {
      assert Concat(ms) == ms[0] + Concat(ms[1..]);
      assert RingWrite(rb, ms[0]) == (rb + ms[0], 1);
      assert RingWriteAll(rb, ms) == RingWriteAll(rb + ms[0], ms[1..]);
      RingWriteAllFits(rb + ms[0], ms[1..]);
      assert rb + ms[0] + Concat(ms[1..]) == rb + Concat(ms);
    } else {
      assert rb + Concat(ms) == rb;
    }
  }

  /** Whatever the outcome, what is queued is the old contents followed by a prefix of the messages. */
  lemma {:induction false} RingWriteAllPrefix(rb: seq<byte>, ms: seq<seq<byte>>)
    ensures exists k :: 0 <= k <= |ms| && RingWriteAll(rb, ms).0 == rb + Concat(ms[..k])
    ensures RingWriteAll(rb, ms).1 == 1 ==> RingWriteAll(rb, ms).0 == rb + Concat(ms)
    decreases |ms|
  {
    if ms == [] {
      assert ms[..0] == [];
      assert rb + Concat(ms[..0]) == rb;
    } else if RingWrite(rb, ms[0]).1 == 0 {
      assert ms[..0] == [];
      assert rb + Concat(ms[..0]) == rb;
    } else {
      RingWriteAllPrefix(rb + ms[0], ms[1..]);
      var k :| 0 <= k <= |ms[1..]| && RingWriteAll(rb + ms[0], ms[1..]).0 == rb + ms[0] + Concat(ms[1..][..k]);
      assert ms[..k + 1][0] == ms[0] && ms[..k + 1][1..] == ms[1..][..k];
      assert Concat(ms[..k + 1]) == ms[0] + Concat(ms[1..][..k]);
      assert RingWriteAll(rb, ms).0 == rb + Concat(ms[..k + 1]);
      assert Concat(ms) == ms[0] + Concat(ms[1..]);
    }
  }

  /** Queueing one more message: the first is tried on its own, the rest only if it fitted. */
  lemma RingWriteAllCons(rb: seq<byte>, m: seq<byte>, rest: seq<seq<byte>>)
    ensures RingWriteAll(rb, [m] + rest)
            == if RingWrite(rb, m).1 == 0 then (rb, 0) else RingWriteAll(rb + m, rest)
  {
    assert ([m] + rest)[0] == m && ([m] + rest)[1..] == rest;
  }

  /** Queueing two runs of messages: the second is tried only if the whole first one fitted. */
  lemma {:induction false} RingWriteAllAppend(rb: seq<byte>, a: seq<seq<byte>>, b: seq<seq<byte>>)
    ensures RingWriteAll(rb, a + b)
            == if RingWriteAll(rb, a).1 == 0 then RingWriteAll(rb, a) else RingWriteAll(RingWriteAll(rb, a).0, b)
    decreases |a|
  {
    if a == [] {
      assert a + b == b;
    } else {
      assert a + b == [a[0]] + (a[1..] + b);
      assert a == [a[0]] + a[1..];
      RingWriteAllCons(rb, a[0], a[1..] + b);
      RingWriteAllCons(rb, a[0], a[1..]);
      if RingWrite(rb, a[0]).1 != 0 {
        RingWriteAllAppend(rb + a[0], a[1..], b);
      }
    }
  }

  /**
   * zmip_send_midi_event on the table of input ports: a valid port's
   * ring buffer takes the message or, when full, nothing; every other
   * port is untouched; the result says whether it was queued.
   */
  function ZmipSend(zs: seq<Zmip>, iz: int, m: seq<byte>): (r: (seq<Zmip>, int))
    ensures |r.0| == |zs| && (r.1 == 0 || r.1 == 1)
    ensures forall i :: 0 <= i < |zs| && i != iz ==> r.0[i] == zs[i]
    ensures 0 <= iz < |zs| ==> r.0[iz].flags == zs[iz].flags && r.0[iz].hasRing == zs[iz].hasRing
    ensures 0 <= iz < |zs| && r.1 == 1 ==> r.0[iz].rb == zs[iz].rb + m
    ensures r.1 == 0 ==> r.0 == zs
    ensures r.1 == 1 <==> 0 <= iz < |zs| && |zs[iz].rb| + |m| <= RB_CAPACITY
  {
    if 0 <= iz < |zs| then
      var w := RingWrite(zs[iz].rb, m);
      if w.1 == 1 then (zs[iz := zs[iz].(rb := w.0)], 1) else (zs, 0)
    else (zs, 0)
  }

  /**
   * The output port zmop_init leaves: the given flags with channel
   * translation added, no channel (all -1), full note range, no
   * transpose, no sounding notes, centred pitch bends, no CC or input
   * routes, and a ring buffer when DIRECTOUT is set.
   */
  function InitialZmop(flags: uint32): (z: Zmop)
    ensures ZmopShaped(z)
  {
    Zmop(WithFlag(flags, ZmopBit(ChanTransfilter), true), -1, seq(16, _ => -1), seq(MAX_NUM_ZMIPS, _ => 0),
         0, 127, 0, 0, seq(128, _ => 0), seq(128, _ => 0), seq(16, _ => 8192), seq(128, _ => 0),
         FlagOn(flags, ZmopBit(DirectOut)))
  }

  /** A port fresh from zmop_init, with no global transpose, sends every note on its own number. */
  lemma InitialZmopKeepsNotes(flags: uint32, tuning: int, time: uint32, b: seq<byte>)
    requires PushAccepts(InitialZmop(flags), tuning, b) && NoteRangeApplies(InitialZmop(flags), b)
    ensures Push(InitialZmop(flags), 0, tuning, time, b).out != []
    ensures Push(InitialZmop(flags), 0, tuning, time, b).out[0].bytes[1] == b[1]
  {
    var z := InitialZmop(flags);
    assert NoteOnOffset(z, 0) == 0;
    PushSendsTransposedNote(z, 0, tuning, time, b);
  }

  /** The channel zmip_send_all_notes_off uses for a port: its MIDI channel, or 0 if it has none. */
  function OffChan(midiChan: int32): (c: byte)
    ensures midiChan < 0 ==> c == 0
    ensures midiChan >= 0 ==> c == midiChan % 16
  {
    if midiChan < 0 then 0 else midiChan % 16
  }

  /** The note-offs for the port's sounding notes from `from` up, in note order. */
  function PortNoteOffs(z: Zmop, chan: byte, from: nat): (ms: seq<seq<byte>>)
    requires ZmopShaped(z)
    decreases 128 - from
    ensures forall i :: 0 <= i < |ms| ==>
      (|ms[i]| == 3 && ms[i][0] == StatusByte(NOTE_OFF, chan) && from <= ms[i][1] < 128 && z.noteState[ms[i][1]] > 0 && ms[i][2] == 0)
    ensures forall i, j :: 0 <= i < j < |ms| ==> ms[i][1] < ms[j][1]
  {
    if from >= 128 then []
    else (if z.noteState[from] > 0 then [NoteOffBytes(chan, from, 0)] else []) + PortNoteOffs(z, chan, from + 1)
  }

  /** Every sounding note of the port, from `from` up, gets its note-off. */
  lemma {:induction false} PortNoteOffsCover(z: Zmop, chan: byte, from: nat, note: nat)
    requires ZmopShaped(z) && from <= note < 128 && z.noteState[note] > 0
    ensures NoteOffBytes(chan, note, 0) in PortNoteOffs(z, chan, from)
    decreases note - from
  {
    if from < note {
      PortNoteOffsCover(z, chan, from + 1, note);
    }
  }

  /** The note-offs zmip_send_all_notes_off queues for ports `from` up to (not including) `upto`. */
  function PortsNoteOffs(zs: seq<Zmop>, from: nat, upto: nat): seq<seq<byte>>
    requires upto <= |zs| && forall i :: 0 <= i < |zs| ==> ZmopShaped(zs[i])
    decreases upto - from
  {
    if from >= upto then []
    else PortNoteOffs(zs[from], OffChan(zs[from].midiChan), 0) + PortsNoteOffs(zs, from + 1, upto)
  }

  /** The route rows of the first `n` output ports, one after another. */
  function RouteRows(zs: seq<Zmop>, n: nat): (r: seq<int32>)
    requires n <= |zs| && forall i :: 0 <= i < |zs| ==> ZmopShaped(zs[i])
    ensures |r| == n * MAX_NUM_ZMIPS
  {
    if n == 0 then [] else RouteRows(zs, n - 1) + zs[n - 1].routeFromZmips
  }

  /** Row `k` of the concatenation is port `k`'s route entries. */
  lemma {:induction false} RouteRowsRow(zs: seq<Zmop>, n: nat, k: nat)
    requires n <= |zs| && forall i :: 0 <= i < |zs| ==> ZmopShaped(zs[i])
    requires k < n
    ensures RouteRows(zs, n)[k * MAX_NUM_ZMIPS .. (k + 1) * MAX_NUM_ZMIPS] == zs[k].routeFromZmips
  {
    var p := RouteRows(zs, n - 1);
    assert RouteRows(zs, n) == p + zs[n - 1].routeFromZmips;
    if k < n - 1 {
      RouteRowsRow(zs, n - 1, k);
      assert (p + zs[n - 1].routeFromZmips)[k * MAX_NUM_ZMIPS .. (k + 1) * MAX_NUM_ZMIPS] == p[k * MAX_NUM_ZMIPS .. (k + 1) * MAX_NUM_ZMIPS];
    }
  }

  /**
   * Queueing the note-offs of ports `from` on: those of port `from` first,
   * then, if all of them fitted, those of the later ports.
   */
  lemma PortsNoteOffsStep(rb: seq<byte>, zs: seq<Zmop>, from: nat)
    requires from < ZMOP_CTRL <= |zs| && forall i :: 0 <= i < |zs| ==> ZmopShaped(zs[i])
    ensures var w := RingWriteAll(rb, PortNoteOffs(zs[from], OffChan(zs[from].midiChan), 0));
      RingWriteAll(rb, PortsNoteOffs(zs, from, ZMOP_CTRL))
      == if w.1 == 0 then w else RingWriteAll(w.0, PortsNoteOffs(zs, from + 1, ZMOP_CTRL))
  {
    RingWriteAllAppend(rb, PortNoteOffs(zs[from], OffChan(zs[from].midiChan), 0), PortsNoteOffs(zs, from + 1, ZMOP_CTRL));
  }

  /**
   * The channel zmip_send_all_notes_off_chain uses, as written: the port's
   * channel is stored in an unsigned byte first, so the test for a
   * negative channel that follows never holds and the byte is used as is.
   */
  function ChainOffChanAsWritten(midiChan: int32): byte {
    ToUint8(midiChan)
  }

  /**
   * A port with no MIDI channel (-1) gets its chain note-offs on channel
   * 15 (status 0x8F) as written, where the all-ports variant uses channel 0.
   */
  lemma ChainOffChanAsWrittenMissesNoChannel()
    ensures StatusByte(NOTE_OFF, ChainOffChanAsWritten(-1)) == 0x8F
    ensures StatusByte(NOTE_OFF, OffChan(-1)) == 0x80
  {
    assert ToUint8(-1) == 0xFF;
  }
}
