// The router's state as zynmidirouter.c keeps it in globals: the settings
// shared by every port and the two port tables, `zmips` (inputs) and
// `zmops` (outputs), which the port functions update in place.  Also here:
// the event path out of an output port, the direct-send functions that
// queue messages on an input port's ring buffer, and the framing of the
// bytes read back from such a buffer.
module RouterPorts {
  import opened CTypes
  import opened MidiCodec
  import opened MidiRouter

  /** `n` copies of `v`, built as the source's fill loops build them. */
  method Fill<T>(n: nat, v: T) returns (s: seq<T>)
    ensures s == seq(n, _ => v)
  {
    s := [];
    for i := 0 to n
      invariant s == seq(i, _ => v)
    {
      s := s + [v];
    }
  }

  /** The first `n` entries of `src`, copied one by one as the source's copy loops do. */
  method CopyPrefix<T>(src: seq<T>, n: nat) returns (s: seq<T>)
    requires n <= |src|
    ensures s == src[..n]
  {
    s := [];
    for i := 0 to n
      invariant s == src[..i]
    {
      s := s + [src[i]];
    }
  }

  /**
   * The inner loop of zmip_send_all_notes_off(_chain): a note-off on
   * `chan` for every sounding note of the port, in note order, each
   * written to the ring buffer; the first that does not fit stops it
   * with 0.
   */
  method QueueNoteOffs(rb0: seq<byte>, z: Zmop, chan: byte) returns (rb: seq<byte>, r: int)
    requires ZmopShaped(z)
    ensures (rb, r) == RingWriteAll(rb0, PortNoteOffs(z, chan, 0))
  {
    rb := rb0;
    for note := 0 to 128
      invariant RingWriteAll(rb0, PortNoteOffs(z, chan, 0)) == RingWriteAll(rb, PortNoteOffs(z, chan, note))
    {
      var rest := PortNoteOffs(z, chan, note + 1);
      if z.noteState[note] > 0 {
        var m: seq<byte> := [0x80 + chan % 16, note as byte, 0];
        assert m == NoteOffBytes(chan, note as byte, 0);
        assert PortNoteOffs(z, chan, note) == [m] + rest;
        RingWriteAllCons(rb, m, rest);
        var w := RingWrite(rb, m);
        if w.1 == 0 {
          return rb, 0;
        }
        rb := w.0;
      } else {
        assert PortNoteOffs(z, chan, note) == [] + rest == rest;
      }
    }
    return rb, 1;
  }

  /**
   * One pass of the port loop of zmip_send_all_notes_off, and the whole
   * of zmip_send_all_notes_off_chain once corrected: the note-offs of
   * port `izmop` on its channel, or 0 when it has none.  Queueing the
   * note-offs of ports `izmop` on comes to this, then (if it all fitted)
   * the note-offs of the later ports.
   */
  method QueuePortNoteOffs(rb: seq<byte>, zs: seq<Zmop>, izmop: nat) returns (rb1: seq<byte>, ok: int)
    requires izmop < ZMOP_CTRL <= |zs| && forall i :: 0 <= i < |zs| ==> ZmopShaped(zs[i])
    ensures (rb1, ok) == RingWriteAll(rb, PortNoteOffs(zs[izmop], OffChan(zs[izmop].midiChan), 0))
    ensures RingWriteAll(rb, PortsNoteOffs(zs, izmop, ZMOP_CTRL))
            == if ok == 0 then (rb1, 0) else RingWriteAll(rb1, PortsNoteOffs(zs, izmop + 1, ZMOP_CTRL))
  {
    var chan := zs[izmop].midiChan;
    if chan < 0 {
      chan := 0;
    }
    rb1, ok := QueueNoteOffs(rb, zs[izmop], (chan % 16) as byte);
    PortsNoteOffsStep(rb, zs, izmop);
  }

  /**
   * The port loop of zmip_send_all_notes_off: the note-offs of every
   * chain port (below ZMOP_CTRL) in port order; the first that does not
   * fit stops it with 0.
   */
  method QueueAllNoteOffs(rb0: seq<byte>, zs: seq<Zmop>) returns (rb: seq<byte>, r: int)
    requires ZMOP_CTRL <= |zs| && forall i :: 0 <= i < |zs| ==> ZmopShaped(zs[i])
    ensures (rb, r) == RingWriteAll(rb0, PortsNoteOffs(zs, 0, ZMOP_CTRL))
  {
    rb := rb0;
    for izmop := 0 to ZMOP_CTRL
      invariant RingWriteAll(rb0, PortsNoteOffs(zs, 0, ZMOP_CTRL)) == RingWriteAll(rb, PortsNoteOffs(zs, izmop, ZMOP_CTRL))
    {
      var rb1, ok := QueuePortNoteOffs(rb, zs, izmop);
      if ok == 0 {
        return rb1, 0;
      }
      rb := rb1;
    }
    return rb, 1;
  }

  /**
   * populate_midi_event_from_rb, with the two corrections of the model
   * (see MidiCodec.FrameEvent): one event is taken from the front of the
   * ring-buffer bytes.  Fewer than three bytes stay queued and give an
   * ignored event; a SysEx takes bytes up to its end-of-exclusive, or all
   * of them, ignored, when there is none; any other event takes three
   * bytes and is sized by its status byte.
   */
  method PopulateEventFromRb(rb0: seq<byte>, lastFrame: uint32) returns (ev: JackEvent, rb: seq<byte>)
    ensures (ev, rb) == FrameEvent(rb0, lastFrame)
  {
    rb := rb0;
    if |rb| < 3 {
      return JackEvent(3, IGNORE_TIME, []), rb;
    }
    var buffer := rb[..3];
    rb := rb[3..];
    if buffer[0] == SYSTEM_EXCLUSIVE {
      // A SysEx of three bytes already ends here.
      if buffer[2] == END_OF_EXCLUSIVE {
        FindEndAt(rb0, 2, 2);
        return JackEvent(3, lastFrame, buffer), rb;
      }
      var size := 3;
      var complete := false;
      while |rb| >= 1 && !complete
        invariant 3 <= size <= |rb0| && buffer == rb0[..size] && rb == rb0[size..]
        invariant complete ==> FindEnd(rb0, 2) == Some(size - 1)
        invariant !complete ==> forall j :: 2 <= j < size ==> rb0[j] != END_OF_EXCLUSIVE
        decreases |rb|, !complete
      {
        buffer := buffer + [rb[0]];
        rb := rb[1..];
        size := size + 1;
        if buffer[size - 1] == END_OF_EXCLUSIVE {
          FindEndAt(rb0, 2, size - 1);
          complete := true;
        }
      }
      if complete {
        return JackEvent(size, lastFrame, buffer), rb;
      }
      assert rb == [] && size == |rb0| && buffer == rb0;
      assert FindEnd(rb0, 2).None?;
      return JackEvent(size, IGNORE_TIME, buffer), rb;
    }
    return JackEvent(EventSize(buffer[0]), lastFrame, buffer), rb;
  }

  /**
   * The note-range and transpose stage of zmop_push_event on the event's
   * bytes: the port after it, whether the event goes on, and the raw note
   * number to put back afterwards (-1 when the stage does not apply).  A
   * dropped event's bytes are left as they were.
   */
  method NoteRangeInPlace(z0: Zmop, globalTranspose: int8, ev: array<byte>) returns (z: Zmop, ok: bool, eventNum: int)
    requires PushAccepts(z0, -1, ev[..])
    modifies ev
    ensures var n := NoteStage(z0, globalTranspose, old(ev[..]));
      z == n.zmop && ok == n.bytes.Some? && ev[..] == (if ok then n.bytes.value else old(ev[..]))
    ensures eventNum == if NoteRangeApplies(z0, old(ev[..])) then old(ev[1]) as int else -1
  {
    z := z0;
    var kind := ev[0] / 16;
    eventNum := -1;
    if FlagOn(z.flags, ZmopBit(NoteRange)) && (kind == NOTE_OFF || kind == NOTE_ON) {
      eventNum := ev[1] as int;
      var offset: int8;
      if kind == NOTE_OFF {
        // the transpose the note-on was sent with
        offset := z.noteTranspose[eventNum];
      } else {
        if eventNum < z.noteLow as int || eventNum > z.noteHigh as int {
          return z, false, eventNum;
        }
        offset := ToInt8(z.transposeOctave * 12 + z.transposeSemitone + globalTranspose);
        z := z.(noteTranspose := z.noteTranspose[eventNum := offset]);
      }
      var note := eventNum + offset;
      if note > 0x7F || note < 0 {
        return z, false, eventNum;
      }
      ev[1] := note as byte;
    }
    ok := true;
  }

  /** Channel translation in place: a channel message's low nibble replaced by the port's mapping. */
  method TranslateChannelInPlace(z: Zmop, ev: array<byte>)
    requires ZmopShaped(z) && ev.Length >= 1
    modifies ev
    ensures ev[..] == ChanStage(z, old(ev[..]))
  {
    var kind := ev[0] / 16;
    if FlagOn(z.flags, ZmopBit(ChanTransfilter)) && NOTE_OFF <= kind <= PITCH_BEND {
      var chan := z.midiChans[ev[0] % 16] % 16;
      ev[0] := 16 * kind + chan;
    }
  }

  /**
   * Fine tuning in place: the port after it and the extra pitch-bend
   * event to write after the event (none, or one with the event's size).
   */
  method TuneInPlace(z0: Zmop, tuning: int, time: uint32, ev: array<byte>) returns (z: Zmop, extra: seq<JackEvent>)
    requires ZmopShaped(z0) && ev.Length >= 1
    requires TuningApplies(z0, tuning) && ev[0] / 16 == PITCH_BEND ==> ev.Length >= 3
    modifies ev
    ensures var t := TuneStage(z0, tuning, old(ev[..]));
      z == t.zmop && ev[..] == t.bytes
      && extra == if t.extra.Some? then [JackEvent(ev.Length, time, t.extra.value)] else []
  {
    z := z0;
    extra := [];
    var kind := ev[0] / 16;
    var chan := ev[0] % 16;
    if FlagOn(z.flags, ZmopBit(Tuning)) && tuning >= 0 {
      if kind == NOTE_ON {
        var pb := TunedPitchbend(tuning, z.lastPbVal[chan]);
        extra := [JackEvent(ev.Length, time, [16 * PITCH_BEND + chan, pb % 128, (pb / 128) % 128])];
      } else if kind == PITCH_BEND {
        var raw := ReceivedPitchBend(ev[1], ev[2]);
        z := z.(lastPbVal := z.lastPbVal[chan := raw]);
        var pb := TunedPitchbend(tuning, raw);
        ev[1] := pb % 128;
        ev[2] := (pb / 128) % 128;
      }
    }
  }

  class Router {
    /** `active_chain` */
    var activeChain: int32
    /** `active_midi_chan` */
    var activeMidiChan: int32
    /** `tuning_pitchbend` */
    var tuningPitchbend: int32
    /** `midi_master_chan` */
    var midiMasterChan: int32
    /** `midi_system_events` */
    var midiSystemEvents: int32
    /** `midi_learning_mode` */
    var midiLearningMode: int32
    /** `global_transpose` */
    var globalTranspose: int8
    /** `zmips[MAX_NUM_ZMIPS]` */
    var zmips: array<Zmip>
    /** `zmops[MAX_NUM_ZMOPS]` */
    var zmops: array<Zmop>

    ghost predicate Valid()
      reads this, zmops
    {
      zmips.Length == MAX_NUM_ZMIPS && zmops.Length == MAX_NUM_ZMOPS
      && forall i :: 0 <= i < zmops.Length ==> ZmopShaped(zmops[i])
    }

    /** The globals as init_zynmidirouter leaves them, and the port tables still zero. */
    constructor ()
      ensures Valid() && fresh(zmips) && fresh(zmops)
      ensures activeChain == -1 && activeMidiChan == 0 && tuningPitchbend == -1 && midiMasterChan == -1
      ensures midiSystemEvents == 1 && midiLearningMode == 0 && globalTranspose == 0
      ensures forall i :: 0 <= i < MAX_NUM_ZMIPS ==> zmips[i] == ZeroZmip()
      ensures forall i :: 0 <= i < MAX_NUM_ZMOPS ==> zmops[i] == ZeroZmop()
    {
      activeChain := -1;
      activeMidiChan := 0;
      tuningPitchbend := -1;
      midiMasterChan := -1;
      midiSystemEvents := 1;
      midiLearningMode := 0;
      globalTranspose := 0;
      zmips := new Zmip[MAX_NUM_ZMIPS](_ => ZeroZmip());
      zmops := new Zmop[MAX_NUM_ZMOPS](_ => ZeroZmop());
    }

    // -----------------------------------------------------------------
    // Globals
    // -----------------------------------------------------------------

    /** set_active_chain: a chain index or -1 (none) is taken; anything else leaves it. */
    method SetActiveChain(iz: int)
      modifies this`activeChain
      ensures activeChain == if -1 <= iz < NUM_ZMOP_CHAINS then iz else old(activeChain)
    {
      if -1 <= iz < NUM_ZMOP_CHAINS {
        activeChain := iz;
      }
    }

    /** set_midi_master_chan: a channel 0..15 or -1 (none) is taken; anything else leaves it. */
    method SetMidiMasterChan(chan: int)
      modifies this`midiMasterChan
      ensures midiMasterChan == if -1 <= chan < 16 then chan else old(midiMasterChan)
    {
      if -1 <= chan < 16 {
        midiMasterChan := chan;
      }
    }

    /** set_global_transpose: stores the transpose and returns it. */
    method SetGlobalTranspose(t: int8) returns (r: int)
      modifies this`globalTranspose
      ensures globalTranspose == t && r == t
    {
      globalTranspose := t;
      return globalTranspose;
    }

    /** get_tuned_pitchbend with the current tuning: a 14-bit bend, the centre one when the tuning is 8192. */
    method GetTunedPitchbend(pb: int) returns (r: int)
      ensures r == TunedPitchbend(tuningPitchbend, pb)
      ensures 0 <= r < 0x4000
      ensures tuningPitchbend == 8192 && 0 <= pb < 0x4000 ==> r == pb
    {
      var tpb := tuningPitchbend + pb - 8192;
      if tpb < 0 {
        tpb := 0;
      } else if tpb > 16383 {
        tpb := 16383;
      }
      return tpb;
    }

    // -----------------------------------------------------------------
    // Input ports
    // -----------------------------------------------------------------

    /**
     * zmip_init: a valid port gets the flags, an empty direct-send ring
     * buffer exactly when DIRECTIN is set, and no pending event; 1, or 0
     * for a bad index.
     */
    method ZmipInit(iz: int, flags: uint32) returns (r: int)
      requires Valid()
      modifies zmips
      ensures Valid()
      ensures r == if 0 <= iz < MAX_NUM_ZMIPS then 1 else 0
      ensures zmips[..] == if 0 <= iz < MAX_NUM_ZMIPS
                           then old(zmips[..])[iz := Zmip(flags, FlagOn(flags, ZmipBit(DirectIn)), [], IGNORE_TIME)]
                           else old(zmips[..])
    {
      if iz < 0 || iz >= MAX_NUM_ZMIPS {
        return 0;
      }
      zmips[iz] := Zmip(flags, FlagOn(flags, ZmipBit(DirectIn)), [], IGNORE_TIME);
      return 1;
    }

    /** zmip_set_flags */
    method ZmipSetFlags(iz: int, flags: uint32) returns (r: int)
      requires Valid()
      modifies zmips
      ensures Valid()
      ensures r == if 0 <= iz < MAX_NUM_ZMIPS then 1 else 0
      ensures zmips[..] == if 0 <= iz < MAX_NUM_ZMIPS then old(zmips[..])[iz := old(zmips[iz]).(flags := flags)] else old(zmips[..])
    {
      if iz < 0 || iz >= MAX_NUM_ZMIPS {
        return 0;
      }
      zmips[iz] := zmips[iz].(flags := flags);
      return 1;
    }

    /** zmip_get_flags: the flag word, 0 for a bad index. */
    method ZmipGetFlags(iz: int) returns (r: uint32)
      requires Valid()
      ensures r == if 0 <= iz < MAX_NUM_ZMIPS then zmips[iz].flags else 0
    {
      if iz < 0 || iz >= MAX_NUM_ZMIPS {
        return 0;
      }
      return zmips[iz].flags;
    }

    /** zmip_has_flags: 1 when every bit of the mask is set, 0 otherwise or for a bad index. */
    method ZmipHasFlags(iz: int, mask: uint32) returns (r: int)
      requires Valid()
      ensures r == if 0 <= iz < MAX_NUM_ZMIPS && HasFlags(zmips[iz].flags, mask) then 1 else 0
    {
      if iz < 0 || iz >= MAX_NUM_ZMIPS {
        return 0;
      }
      return if BitAnd(zmips[iz].flags, mask) == mask then 1 else 0;
    }

    /**
     * zmip_set_flag_cc_auto_mode and zmip_set_flag_active_chain: one bit
     * set or cleared, the rest of the flag word kept.  The active-chain
     * setter indexes `ZMIP_DEV0 + iz`, the same port as ZMIP_DEV0 is 0.
     */
    method ZmipSetFlag(iz: int, f: ZmipFlag, flag: byte) returns (r: int)
      requires Valid()
      modifies zmips
      ensures Valid()
      ensures r == if 0 <= iz < MAX_NUM_ZMIPS then 1 else 0
      ensures zmips[..] == if 0 <= iz < MAX_NUM_ZMIPS
                           then old(zmips[..])[iz := old(zmips[iz]).(flags := WithFlag(old(zmips[iz]).flags, ZmipBit(f), flag != 0))]
                           else old(zmips[..])
      ensures 0 <= iz < MAX_NUM_ZMIPS ==> (FlagOn(zmips[iz].flags, ZmipBit(f)) <==> flag != 0)
    {
      if iz < 0 || iz >= MAX_NUM_ZMIPS {
        return 0;
      }
      zmips[ZMIP_DEV0 + iz] := zmips[ZMIP_DEV0 + iz].(flags := WithFlag(zmips[ZMIP_DEV0 + iz].flags, ZmipBit(f), flag != 0));
      return 1;
    }

    /** zmip_get_flag_cc_auto_mode: 1 when the bit is set, else 0 (also for a bad index). */
    method ZmipGetFlagCcAutoMode(iz: int) returns (r: int)
      requires Valid()
      ensures r == if 0 <= iz < MAX_NUM_ZMIPS && FlagOn(zmips[iz].flags, ZmipBit(CcAutoMode)) then 1 else 0
    {
      if iz < 0 || iz >= MAX_NUM_ZMIPS {
        return 0;
      }
      SingleFlagTests(zmips[iz].flags, ZmipBit(CcAutoMode));
      return if BitAnd(zmips[iz].flags, Pow2(ZmipBit(CcAutoMode))) > 0 then 1 else 0;
    }

    /**
     * zmip_get_flag_active_chain: the masked flag word itself, so a set
     * bit reads as the flag's own mask, not 1; 0 when clear or for a bad
     * index.
     */
    method ZmipGetFlagActiveChain(iz: int) returns (r: int)
      requires Valid()
      ensures r == if 0 <= iz < MAX_NUM_ZMIPS && FlagOn(zmips[iz].flags, ZmipBit(ActiveChain)) then Pow2(ZmipBit(ActiveChain)) else 0
    {
      if iz < 0 || iz >= MAX_NUM_ZMIPS {
        return 0;
      }
      var flags := zmips[ZMIP_DEV0 + iz].flags;
      MaskedFlag(flags, ZmipBit(ActiveChain));
      return BitAnd(flags, Pow2(ZmipBit(ActiveChain)));
    }

    /**
     * zmip_set_route_chains: the input port's route entry set to `route`
     * on every chain output port (below ZMOP_CTRL); the other ports and
     * the other entries are kept.
     */
    method ZmipSetRouteChains(iz: int, route: int32) returns (r: int)
      requires Valid()
      modifies zmops
      ensures Valid()
      ensures r == if 0 <= iz < MAX_NUM_ZMIPS then 1 else 0
      ensures forall i :: 0 <= i < MAX_NUM_ZMOPS ==>
        zmops[i] == if 0 <= iz < MAX_NUM_ZMIPS && i < ZMOP_CTRL
                    then old(zmops[i]).(routeFromZmips := old(zmops[i]).routeFromZmips[iz := route])
                    else old(zmops[i])
    {
      if iz < 0 || iz >= MAX_NUM_ZMIPS {
        return 0;
      }
      for i := 0 to ZMOP_CTRL
        invariant Valid()
        invariant forall k :: 0 <= k < MAX_NUM_ZMOPS ==>
          zmops[k] == if k < i then old(zmops[k]).(routeFromZmips := old(zmops[k]).routeFromZmips[iz := route]) else old(zmops[k])
      {
        // Both indices are valid here, so zmop_set_route_from cannot fail.
        var ok := ZmopSetRouteFrom(i, iz, route);
      }
      return 1;
    }

    // -----------------------------------------------------------------
    // Output ports
    // -----------------------------------------------------------------

    /**
     * zmop_init: a valid port is reset to MidiRouter.InitialZmop(flags);
     * 1, or 0 for a bad index.
     */
    method ZmopInit(iz: int, flags: uint32) returns (r: int)
      requires Valid()
      modifies zmops
      ensures Valid()
      ensures r == if 0 <= iz < MAX_NUM_ZMOPS then 1 else 0
      ensures zmops[..] == if 0 <= iz < MAX_NUM_ZMOPS then old(zmops[..])[iz := InitialZmop(flags)] else old(zmops[..])
    {
      if iz < 0 || iz >= MAX_NUM_ZMOPS {
        return 0;
      }
      var pbs := Fill(16, 8192 as uint16);
      var ccs := Fill(128, 0 as byte);
      zmops[iz] := Zmop(flags, zmops[iz].midiChan, zmops[iz].midiChans, zmops[iz].routeFromZmips, 0, 127, 0, 0,
                        seq(128, _ => 0), seq(128, _ => 0), pbs, ccs, FlagOn(flags, ZmopBit(DirectOut)));
      var ok := ZmopResetMidiChans(iz);
      var routes := Fill(MAX_NUM_ZMIPS, 0 as int32);
      zmops[iz] := zmops[iz].(routeFromZmips := routes);
      assert pbs == seq(16, _ => 8192) && ccs == seq(128, _ => 0) && routes == seq(MAX_NUM_ZMIPS, _ => 0);
      assert zmops[iz] == InitialZmop(flags);
      return 1;
    }

    /** zmop_set_flags */
    method ZmopSetFlags(iz: int, flags: uint32) returns (r: int)
      requires Valid()
      modifies zmops
      ensures Valid()
      ensures r == if 0 <= iz < MAX_NUM_ZMOPS then 1 else 0
      ensures zmops[..] == if 0 <= iz < MAX_NUM_ZMOPS then old(zmops[..])[iz := old(zmops[iz]).(flags := flags)] else old(zmops[..])
    {
      if iz < 0 || iz >= MAX_NUM_ZMOPS {
        return 0;
      }
      zmops[iz] := zmops[iz].(flags := flags);
      return 1;
    }

    /** zmop_get_flags: the flag word, 0 for a bad index. */
    method ZmopGetFlags(iz: int) returns (r: uint32)
      requires Valid()
      ensures r == if 0 <= iz < MAX_NUM_ZMOPS then zmops[iz].flags else 0
    {
      if iz < 0 || iz >= MAX_NUM_ZMOPS {
        return 0;
      }
      return zmops[iz].flags;
    }

    /** zmop_has_flags: 1 when every bit of the mask is set, 0 otherwise or for a bad index. */
    method ZmopHasFlags(iz: int, mask: uint32) returns (r: int)
      requires Valid()
      ensures r == if 0 <= iz < MAX_NUM_ZMOPS && HasFlags(zmops[iz].flags, mask) then 1 else 0
    {
      if iz < 0 || iz >= MAX_NUM_ZMOPS {
        return 0;
      }
      return if BitAnd(zmops[iz].flags, mask) == mask then 1 else 0;
    }

    /**
     * zmop_set_flag_droppc, _dropcc, _dropsys, _dropsysex, _dropnote,
     * _tuning and _chan_transfilter: one bit set or cleared, the rest of
     * the flag word and of the port kept.
     */
    method ZmopSetFlag(iz: int, f: ZmopFlag, flag: byte) returns (r: int)
      requires Valid()
      modifies zmops
      ensures Valid()
      ensures r == if 0 <= iz < MAX_NUM_ZMOPS then 1 else 0
      ensures zmops[..] == if 0 <= iz < MAX_NUM_ZMOPS
                           then old(zmops[..])[iz := old(zmops[iz]).(flags := WithFlag(old(zmops[iz]).flags, ZmopBit(f), flag != 0))]
                           else old(zmops[..])
      ensures 0 <= iz < MAX_NUM_ZMOPS ==> (FlagOn(zmops[iz].flags, ZmopBit(f)) <==> flag != 0)
    {
      if iz < 0 || iz >= MAX_NUM_ZMOPS {
        return 0;
      }
      zmops[iz] := zmops[iz].(flags := WithFlag(zmops[iz].flags, ZmopBit(f), flag != 0));
      return 1;
    }

    /** The matching zmop_get_flag_* getters: 1 when the bit is set, else 0 (also for a bad index). */
    method ZmopGetFlag(iz: int, f: ZmopFlag) returns (r: int)
      requires Valid()
      ensures r == if 0 <= iz < MAX_NUM_ZMOPS && FlagOn(zmops[iz].flags, ZmopBit(f)) then 1 else 0
    {
      if iz < 0 || iz >= MAX_NUM_ZMOPS {
        return 0;
      }
      SingleFlagTests(zmops[iz].flags, ZmopBit(f));
      return if BitAnd(zmops[iz].flags, Pow2(ZmopBit(f))) > 0 then 1 else 0;
    }

    /** zmop_reset_midi_chans: every channel dropped (-1), no channel, translation on. */
    method ZmopResetMidiChans(iz: int) returns (r: int)
      requires Valid()
      modifies zmops
      ensures Valid()
      ensures r == if 0 <= iz < MAX_NUM_ZMOPS then 1 else 0
      ensures zmops[..] == if 0 <= iz < MAX_NUM_ZMOPS
                           then old(zmops[..])[iz := old(zmops[iz]).(midiChans := seq(16, _ => -1), midiChan := -1,
                                                                   flags := WithFlag(old(zmops[iz]).flags, ZmopBit(ChanTransfilter), true))]
                           else old(zmops[..])
    {
      if iz < 0 || iz >= MAX_NUM_ZMOPS {
        return 0;
      }
      var chans := Fill(16, -1 as int32);
      assert chans == seq(16, _ => -1);
      zmops[iz] := zmops[iz].(midiChans := chans, midiChan := -1);
      r := ZmopSetFlag(iz, ChanTransfilter, 1);
    }

    /**
     * zmop_set_midi_chan: the port listens on one channel only, passed on
     * unchanged; the others are dropped; translation on.  0 for a bad
     * port or channel.
     */
    method ZmopSetMidiChan(iz: int, chan: int32) returns (r: int)
      requires Valid()
      modifies zmops
      ensures Valid()
      ensures r == if 0 <= iz < MAX_NUM_ZMOPS && 0 <= chan < 16 then 1 else 0
      ensures zmops[..] == if r == 1
                           then old(zmops[..])[iz := old(zmops[iz]).(midiChans := seq(16, i => if i == chan as int then chan else -1), midiChan := chan,
                                                                   flags := WithFlag(old(zmops[iz]).flags, ZmopBit(ChanTransfilter), true))]
                           else old(zmops[..])
    {
      r := ZmopSetMidiChanTrans(iz, chan, chan);
    }

    /**
     * zmop_set_midi_chan_trans: the port listens on one channel only and
     * moves it to `trans`; the others are dropped; translation on.  0 for
     * a bad port or channel.
     */
    method ZmopSetMidiChanTrans(iz: int, chan: int32, trans: int32) returns (r: int)
      requires Valid()
      modifies zmops
      ensures Valid()
      ensures r == if 0 <= iz < MAX_NUM_ZMOPS && 0 <= chan < 16 && 0 <= trans < 16 then 1 else 0
      ensures zmops[..] == if r == 1
                           then old(zmops[..])[iz := old(zmops[iz]).(midiChans := seq(16, i => if i == chan as int then trans else -1), midiChan := chan,
                                                                   flags := WithFlag(old(zmops[iz]).flags, ZmopBit(ChanTransfilter), true))]
                           else old(zmops[..])
    {
      if iz < 0 || iz >= MAX_NUM_ZMOPS || chan < 0 || chan >= 16 || trans < 0 || trans >= 16 {
        return 0;
      }
      var chans := Fill(16, -1 as int32);
      assert chans[chan := trans] == seq(16, i => if i == chan as int then trans else -1);
      zmops[iz] := zmops[iz].(midiChans := chans[chan := trans], midiChan := chan);
      r := ZmopSetFlag(iz, ChanTransfilter, 1);
    }

    /** zmop_set_midi_chan_all: every channel passed on unchanged, no channel, translation off. */
    method ZmopSetMidiChanAll(iz: int) returns (r: int)
      requires Valid()
      modifies zmops
      ensures Valid()
      ensures r == if 0 <= iz < MAX_NUM_ZMOPS then 1 else 0
      ensures zmops[..] == if 0 <= iz < MAX_NUM_ZMOPS
                           then old(zmops[..])[iz := old(zmops[iz]).(midiChans := seq(16, i requires 0 <= i < 16 => i as int32), midiChan := -1,
                                                                   flags := WithFlag(old(zmops[iz]).flags, ZmopBit(ChanTransfilter), false))]
                           else old(zmops[..])
    {
      if iz < 0 || iz >= MAX_NUM_ZMOPS {
        return 0;
      }
      var chans: seq<int32> := [];
      for i := 0 to 16
        invariant chans == seq(i, k requires 0 <= k < i => k as int32)
      {
        chans := chans + [i as int32];
      }
      assert chans == seq(16, i requires 0 <= i < 16 => i as int32);
      zmops[iz] := zmops[iz].(midiChans := chans, midiChan := -1);
      r := ZmopSetFlag(iz, ChanTransfilter, 0);
    }

    /** zmop_set_midi_chan_all_trans: every channel mapped to `chan`, stored as given; no channel, translation off. */
    method ZmopSetMidiChanAllTrans(iz: int, chan: int32) returns (r: int)
      requires Valid()
      modifies zmops
      ensures Valid()
      ensures r == if 0 <= iz < MAX_NUM_ZMOPS then 1 else 0
      ensures zmops[..] == if 0 <= iz < MAX_NUM_ZMOPS
                           then old(zmops[..])[iz := old(zmops[iz]).(midiChans := seq(16, _ => chan), midiChan := -1,
                                                                   flags := WithFlag(old(zmops[iz]).flags, ZmopBit(ChanTransfilter), false))]
                           else old(zmops[..])
    {
      if iz < 0 || iz >= MAX_NUM_ZMOPS {
        return 0;
      }
      var chans := Fill(16, chan);
      assert chans == seq(16, _ => chan);
      zmops[iz] := zmops[iz].(midiChans := chans, midiChan := -1);
      r := ZmopSetFlag(iz, ChanTransfilter, 0);
    }

    /**
     * zmop_set_midi_chan_to: one channel's mapping; a target outside
     * -1..15 is stored as -1 (dropped).  0 for a bad port or channel.
     */
    method ZmopSetMidiChanTo(iz: int, from: int, to: int32) returns (r: int)
      requires Valid()
      modifies zmops
      ensures Valid()
      ensures r == if 0 <= iz < MAX_NUM_ZMOPS && 0 <= from < 16 then 1 else 0
      ensures zmops[..] == if r == 1
                           then old(zmops[..])[iz := old(zmops[iz]).(midiChans := old(zmops[iz]).midiChans[from := if -1 <= to < 16 then to else -1])]
                           else old(zmops[..])
      ensures r == 1 ==> -1 <= zmops[iz].midiChans[from] < 16
    {
      if iz < 0 || iz >= MAX_NUM_ZMOPS || from < 0 || from >= 16 {
        return 0;
      }
      var target := to;
      if target < -1 || target >= 16 {
        target := -1;
      }
      zmops[iz] := zmops[iz].(midiChans := zmops[iz].midiChans[from := target]);
      return 1;
    }

    /** zmop_get_midi_chan_to: a channel's mapping; -1 for a bad port, 0 for a bad channel. */
    method ZmopGetMidiChanTo(iz: int, from: int) returns (r: int)
      requires Valid()
      ensures !(0 <= iz < MAX_NUM_ZMOPS) ==> r == -1
      ensures 0 <= iz < MAX_NUM_ZMOPS ==> r == if 0 <= from < 16 then zmops[iz].midiChans[from] as int else 0
    {
      if iz < 0 || iz >= MAX_NUM_ZMOPS {
        return -1;
      }
      if from < 0 || from >= 16 {
        return 0;
      }
      return zmops[iz].midiChans[from];
    }

    /** zmop_get_midi_chan_info: the sixteen channel mappings and 1; -1 and nothing copied for a bad port. */
    method ZmopGetMidiChanInfo(iz: int) returns (r: int, chans: seq<int32>)
      requires Valid()
      ensures r == (if 0 <= iz < MAX_NUM_ZMOPS then 1 else -1)
      ensures chans == if r == 1 then zmops[iz].midiChans else []
    {
      if iz < 0 || iz >= MAX_NUM_ZMOPS {
        return -1, [];
      }
      return 1, zmops[iz].midiChans;
    }

    /** zmop_reset_routes_from: the port takes input from no input port. */
    method ZmopResetRoutesFrom(iz: int) returns (r: int)
      requires Valid()
      modifies zmops
      ensures Valid()
      ensures r == if 0 <= iz < MAX_NUM_ZMOPS then 1 else 0
      ensures zmops[..] == if 0 <= iz < MAX_NUM_ZMOPS
                           then old(zmops[..])[iz := old(zmops[iz]).(routeFromZmips := seq(MAX_NUM_ZMIPS, _ => 0))]
                           else old(zmops[..])
    {
      if iz < 0 || iz >= MAX_NUM_ZMOPS {
        return 0;
      }
      var routes := Fill(MAX_NUM_ZMIPS, 0 as int32);
      assert routes == seq(MAX_NUM_ZMIPS, _ => 0);
      zmops[iz] := zmops[iz].(routeFromZmips := routes);
      return 1;
    }

    /** zmop_set_route_from: one route entry; 0 for a bad output or input index. */
    method ZmopSetRouteFrom(izmop: int, izmip: int, route: int32) returns (r: int)
      requires Valid()
      modifies zmops
      ensures Valid()
      ensures r == if 0 <= izmop < MAX_NUM_ZMOPS && 0 <= izmip < MAX_NUM_ZMIPS then 1 else 0
      ensures zmops[..] == if r == 1
                           then old(zmops[..])[izmop := old(zmops[izmop]).(routeFromZmips := old(zmops[izmop]).routeFromZmips[izmip := route])]
                           else old(zmops[..])
    {
      if izmop < 0 || izmop >= MAX_NUM_ZMOPS || izmip < 0 || izmip >= MAX_NUM_ZMIPS {
        return 0;
      }
      zmops[izmop] := zmops[izmop].(routeFromZmips := zmops[izmop].routeFromZmips[izmip := route]);
      return 1;
    }

    /** zmop_get_route_from: one route entry; -1 for a bad output or input index. */
    method ZmopGetRouteFrom(izmop: int, izmip: int) returns (r: int)
      requires Valid()
      ensures r == if 0 <= izmop < MAX_NUM_ZMOPS && 0 <= izmip < MAX_NUM_ZMIPS
                   then zmops[izmop].routeFromZmips[izmip] as int else -1
    {
      if izmop < 0 || izmop >= MAX_NUM_ZMOPS || izmip < 0 || izmip >= MAX_NUM_ZMIPS {
        return -1;
      }
      return zmops[izmop].routeFromZmips[izmip];
    }

    /** zmop_get_routes_info: the port's route entries and 1; -1 and nothing copied for a bad port. */
    method ZmopGetRoutesInfo(izmop: int) returns (r: int, routes: seq<int32>)
      requires Valid()
      ensures r == (if 0 <= izmop < MAX_NUM_ZMOPS then 1 else -1)
      ensures routes == if r == 1 then zmops[izmop].routeFromZmips else []
    {
      if izmop < 0 || izmop >= MAX_NUM_ZMOPS {
        return -1, [];
      }
      return 1, zmops[izmop].routeFromZmips;
    }

    /**
     * zmop_get_routes_info_all: the route rows of the first
     * MAX_NUM_ZMIPS output ports, one after another (the loop is bounded
     * by the number of input ports, so the later output ports are not
     * copied).
     */
    method ZmopGetRoutesInfoAll() returns (r: int, buffer: seq<int32>)
      requires Valid()
      ensures r == 1 && buffer == RouteRows(zmops[..], MAX_NUM_ZMIPS)
      ensures forall k :: 0 <= k < MAX_NUM_ZMIPS ==>
        buffer[k * MAX_NUM_ZMIPS .. (k + 1) * MAX_NUM_ZMIPS] == zmops[k].routeFromZmips
    {
      buffer := [];
      for iz := 0 to MAX_NUM_ZMIPS
        invariant buffer == RouteRows(zmops[..], iz)
      {
        buffer := buffer + zmops[iz].routeFromZmips;
      }
      forall k | 0 <= k < MAX_NUM_ZMIPS
        ensures buffer[k * MAX_NUM_ZMIPS .. (k + 1) * MAX_NUM_ZMIPS] == zmops[k].routeFromZmips
      {
        RouteRowsRow(zmops[..], MAX_NUM_ZMIPS, k);
      }
      return 1, buffer;
    }

    /** zmop_set_note_low */
    method ZmopSetNoteLow(iz: int, nlow: byte) returns (r: int)
      requires Valid()
      modifies zmops
      ensures Valid()
      ensures r == if 0 <= iz < MAX_NUM_ZMOPS then 1 else 0
      ensures zmops[..] == if 0 <= iz < MAX_NUM_ZMOPS then old(zmops[..])[iz := old(zmops[iz]).(noteLow := nlow)] else old(zmops[..])
    {
      if iz < 0 || iz >= MAX_NUM_ZMOPS {
        return 0;
      }
      zmops[iz] := zmops[iz].(noteLow := nlow);
      return 1;
    }

    /** zmop_set_note_high */
    method ZmopSetNoteHigh(iz: int, nhigh: byte) returns (r: int)
      requires Valid()
      modifies zmops
      ensures Valid()
      ensures r == if 0 <= iz < MAX_NUM_ZMOPS then 1 else 0
      ensures zmops[..] == if 0 <= iz < MAX_NUM_ZMOPS then old(zmops[..])[iz := old(zmops[iz]).(noteHigh := nhigh)] else old(zmops[..])
    {
      if iz < 0 || iz >= MAX_NUM_ZMOPS {
        return 0;
      }
      zmops[iz] := zmops[iz].(noteHigh := nhigh);
      return 1;
    }

    /** zmop_set_transpose_octave */
    method ZmopSetTransposeOctave(iz: int, octave: int8) returns (r: int)
      requires Valid()
      modifies zmops
      ensures Valid()
      ensures r == if 0 <= iz < MAX_NUM_ZMOPS then 1 else 0
      ensures zmops[..] == if 0 <= iz < MAX_NUM_ZMOPS then old(zmops[..])[iz := old(zmops[iz]).(transposeOctave := octave)] else old(zmops[..])
    {
      if iz < 0 || iz >= MAX_NUM_ZMOPS {
        return 0;
      }
      zmops[iz] := zmops[iz].(transposeOctave := octave);
      return 1;
    }

    /** zmop_set_transpose_semitone */
    method ZmopSetTransposeSemitone(iz: int, semitone: int8) returns (r: int)
      requires Valid()
      modifies zmops
      ensures Valid()
      ensures r == if 0 <= iz < MAX_NUM_ZMOPS then 1 else 0
      ensures zmops[..] == if 0 <= iz < MAX_NUM_ZMOPS then old(zmops[..])[iz := old(zmops[iz]).(transposeSemitone := semitone)] else old(zmops[..])
    {
      if iz < 0 || iz >= MAX_NUM_ZMOPS {
        return 0;
      }
      zmops[iz] := zmops[iz].(transposeSemitone := semitone);
      return 1;
    }

    /** zmop_get_note_low: 0 for a bad index. */
    method ZmopGetNoteLow(iz: int) returns (r: byte)
      requires Valid()
      ensures r == if 0 <= iz < MAX_NUM_ZMOPS then zmops[iz].noteLow else 0
    {
      if iz < 0 || iz >= MAX_NUM_ZMOPS {
        return 0;
      }
      return zmops[iz].noteLow;
    }

    /** zmop_get_note_high: 127 for a bad index, the top of the full range. */
    method ZmopGetNoteHigh(iz: int) returns (r: byte)
      requires Valid()
      ensures r == if 0 <= iz < MAX_NUM_ZMOPS then zmops[iz].noteHigh else 127
    {
      if iz < 0 || iz >= MAX_NUM_ZMOPS {
        return 127;
      }
      return zmops[iz].noteHigh;
    }

    /** zmop_get_transpose_octave: 0 for a bad index. */
    method ZmopGetTransposeOctave(iz: int) returns (r: int8)
      requires Valid()
      ensures r == if 0 <= iz < MAX_NUM_ZMOPS then zmops[iz].transposeOctave else 0
    {
      if iz < 0 || iz >= MAX_NUM_ZMOPS {
        return 0;
      }
      return zmops[iz].transposeOctave;
    }

    /** zmop_get_transpose_semitone: 0 for a bad index. */
    method ZmopGetTransposeSemitone(iz: int) returns (r: int8)
      requires Valid()
      ensures r == if 0 <= iz < MAX_NUM_ZMOPS then zmops[iz].transposeSemitone else 0
    {
      if iz < 0 || iz >= MAX_NUM_ZMOPS {
        return 0;
      }
      return zmops[iz].transposeSemitone;
    }

    /** zmop_set_note_range_transpose: note range and transpose together. */
    method ZmopSetNoteRangeTranspose(iz: int, nlow: byte, nhigh: byte, octave: int8, semitone: int8) returns (r: int)
      requires Valid()
      modifies zmops
      ensures Valid()
      ensures r == if 0 <= iz < MAX_NUM_ZMOPS then 1 else 0
      ensures zmops[..] == if 0 <= iz < MAX_NUM_ZMOPS
                           then old(zmops[..])[iz := old(zmops[iz]).(noteLow := nlow, noteHigh := nhigh, transposeOctave := octave, transposeSemitone := semitone)]
                           else old(zmops[..])
    {
      if iz < 0 || iz >= MAX_NUM_ZMOPS {
        return 0;
      }
      zmops[iz] := zmops[iz].(noteLow := nlow, noteHigh := nhigh, transposeOctave := octave, transposeSemitone := semitone);
      return 1;
    }

    /** zmop_reset_note_range_transpose: full range 0..127, no transpose. */
    method ZmopResetNoteRangeTranspose(iz: int) returns (r: int)
      requires Valid()
      modifies zmops
      ensures Valid()
      ensures r == if 0 <= iz < MAX_NUM_ZMOPS then 1 else 0
      ensures zmops[..] == if 0 <= iz < MAX_NUM_ZMOPS
                           then old(zmops[..])[iz := old(zmops[iz]).(noteLow := 0, noteHigh := 127, transposeOctave := 0, transposeSemitone := 0)]
                           else old(zmops[..])
    {
      r := ZmopSetNoteRangeTranspose(iz, 0, 127, 0, 0);
    }

    /** zmop_reset_cc_route: no controller routed. */
    method ZmopResetCcRoute(iz: int) returns (r: int)
      requires Valid()
      modifies zmops
      ensures Valid()
      ensures r == if 0 <= iz < MAX_NUM_ZMOPS then 1 else 0
      ensures zmops[..] == if 0 <= iz < MAX_NUM_ZMOPS then old(zmops[..])[iz := old(zmops[iz]).(ccRoute := seq(128, _ => 0))] else old(zmops[..])
    {
      if iz < 0 || iz >= MAX_NUM_ZMOPS {
        return 0;
      }
      var ccs := Fill(128, 0 as byte);
      assert ccs == seq(128, _ => 0);
      zmops[iz] := zmops[iz].(ccRoute := ccs);
      return 1;
    }

    /** zmop_set_cc_route: the 128 entries copied from the caller's table, which must hold that many. */
    method ZmopSetCcRoute(iz: int, ccRoute: seq<byte>) returns (r: int)
      requires Valid() && |ccRoute| >= 128
      modifies zmops
      ensures Valid()
      ensures r == if 0 <= iz < MAX_NUM_ZMOPS then 1 else 0
      ensures zmops[..] == if 0 <= iz < MAX_NUM_ZMOPS then old(zmops[..])[iz := old(zmops[iz]).(ccRoute := ccRoute[..128])] else old(zmops[..])
    {
      if iz < 0 || iz >= MAX_NUM_ZMOPS {
        return 0;
      }
      var ccs := CopyPrefix(ccRoute, 128);
      zmops[iz] := zmops[iz].(ccRoute := ccs);
      return 1;
    }

    /** zmop_get_cc_route: the port's 128 entries and 1; 0 and nothing copied for a bad index. */
    method ZmopGetCcRoute(iz: int) returns (r: int, ccRoute: seq<byte>)
      requires Valid()
      ensures r == (if 0 <= iz < MAX_NUM_ZMOPS then 1 else 0)
      ensures ccRoute == if r == 1 then zmops[iz].ccRoute else []
    {
      if iz < 0 || iz >= MAX_NUM_ZMOPS {
        return 0, [];
      }
      ccRoute := CopyPrefix(zmops[iz].ccRoute, 128);
      return 1, ccRoute;
    }

    // -----------------------------------------------------------------
    // Event output
    // -----------------------------------------------------------------

    /**
     * zmop_push_event: the event in `ev` is passed through the port's
     * note range and transpose, channel translation and fine tuning and
     * written out, as MidiRouter.Push describes; the port's
     * `noteTranspose` (the transpose a note-on went out with) and
     * `lastPbVal` (each channel's last raw pitch bend) are updated in
     * place, and the caller's bytes keep the
     * tuned and translated values, with the note number put back.  No
     * port (NULL) does nothing.
     */
    method PushEvent(izmop: Option<nat>, time: uint32, ev: array<byte>) returns (out: seq<JackEvent>)
      requires Valid()
      requires izmop.Some? ==> izmop.value < MAX_NUM_ZMOPS && PushAccepts(zmops[izmop.value], tuningPitchbend, ev[..])
      modifies zmops, ev
      ensures Valid()
      ensures izmop.None? ==> out == [] && zmops[..] == old(zmops[..]) && ev[..] == old(ev[..])
      ensures izmop.Some? ==>
        var p := Push(old(zmops[izmop.value]), globalTranspose, tuningPitchbend, time, old(ev[..]));
        out == p.out && ev[..] == p.bytes && zmops[..] == old(zmops[..])[izmop.value := p.zmop]
    {
      if izmop.None? {
        return [];
      }
      var iz := izmop.value;
      var z, ok, eventNum := NoteRangeInPlace(zmops[iz], globalTranspose, ev);
      if !ok {
        zmops[iz] := z;
        return [];
      }
      TranslateChannelInPlace(z, ev);
      var extra;
      z, extra := TuneInPlace(z, tuningPitchbend, time, ev);
      out := [JackEvent(ev.Length, time, ev[..])] + extra;
      if eventNum >= 0 {
        // the original note put back
        ev[1] := eventNum as byte;
      }
      zmops[iz] := z;
    }

    // -----------------------------------------------------------------
    // Direct send to an input port's ring buffer
    // -----------------------------------------------------------------

    /**
     * zmip_send_midi_event: the message is queued whole on the port's
     * ring buffer, or not at all when it is full; 0 for a bad index.  The
     * source dereferences the port's ring buffer unchecked, so a valid
     * port must own one.
     */
    method ZmipSendMidiEvent(iz: byte, m: seq<byte>) returns (r: int)
      requires Valid() && (iz < MAX_NUM_ZMIPS ==> zmips[iz].hasRing)
      modifies zmips
      ensures Valid()
      ensures (zmips[..], r) == ZmipSend(old(zmips[..]), iz as int, m)
    {
      if iz >= MAX_NUM_ZMIPS {
        return 0;
      }
      var w := RingWrite(zmips[iz].rb, m);
      if w.1 == 1 {
        zmips[iz] := zmips[iz].(rb := w.0);
      }
      return w.1;
    }

    /** zmip_send_note_off */
    method ZmipSendNoteOff(iz: byte, chan: byte, note: byte, vel: byte) returns (r: int)
      requires Valid() && (iz < MAX_NUM_ZMIPS ==> zmips[iz].hasRing)
      modifies zmips
      ensures Valid()
      ensures (zmips[..], r) == ZmipSend(old(zmips[..]), iz as int, NoteOffBytes(chan, note, vel))
    {
      r := ZmipSendMidiEvent(iz, [0x80 + chan % 16, note, vel]);
    }

    /** zmip_send_note_on */
    method ZmipSendNoteOn(iz: byte, chan: byte, note: byte, vel: byte) returns (r: int)
      requires Valid() && (iz < MAX_NUM_ZMIPS ==> zmips[iz].hasRing)
      modifies zmips
      ensures Valid()
      ensures (zmips[..], r) == ZmipSend(old(zmips[..]), iz as int, NoteOnBytes(chan, note, vel))
    {
      r := ZmipSendMidiEvent(iz, [0x90 + chan % 16, note, vel]);
    }

    /** zmip_send_ccontrol_change */
    method ZmipSendCcontrolChange(iz: byte, chan: byte, ctrl: byte, val: byte) returns (r: int)
      requires Valid() && (iz < MAX_NUM_ZMIPS ==> zmips[iz].hasRing)
      modifies zmips
      ensures Valid()
      ensures (zmips[..], r) == ZmipSend(old(zmips[..]), iz as int, CtrlChangeBytes(chan, ctrl, val))
    {
      r := ZmipSendMidiEvent(iz, [0xB0 + chan % 16, ctrl, val]);
    }

    /** zmip_send_master_ccontrol_change: a controller change on the master channel, or 0 when there is none. */
    method ZmipSendMasterCcontrolChange(iz: byte, ctrl: byte, val: byte) returns (r: int)
      requires Valid() && (iz < MAX_NUM_ZMIPS ==> zmips[iz].hasRing)
      modifies zmips
      ensures Valid()
      ensures midiMasterChan < 0 ==> r == 0 && zmips[..] == old(zmips[..])
      ensures midiMasterChan >= 0 ==>
        (zmips[..], r) == ZmipSend(old(zmips[..]), iz as int, CtrlChangeBytes(ToUint8(midiMasterChan), ctrl, val))
    {
      if midiMasterChan >= 0 {
        r := ZmipSendCcontrolChange(iz, ToUint8(midiMasterChan), ctrl, val);
        return;
      }
      return 0;
    }

    /** zmip_send_program_change: three bytes, the last 0. */
    method ZmipSendProgramChange(iz: byte, chan: byte, program: byte) returns (r: int)
      requires Valid() && (iz < MAX_NUM_ZMIPS ==> zmips[iz].hasRing)
      modifies zmips
      ensures Valid()
      ensures (zmips[..], r) == ZmipSend(old(zmips[..]), iz as int, ProgChangeBytes(chan, program))
    {
      r := ZmipSendMidiEvent(iz, [0xC0 + chan % 16, program, 0]);
    }

    /** zmip_send_chan_press: three bytes, the last 0. */
    method ZmipSendChanPress(iz: byte, chan: byte, val: byte) returns (r: int)
      requires Valid() && (iz < MAX_NUM_ZMIPS ==> zmips[iz].hasRing)
      modifies zmips
      ensures Valid()
      ensures (zmips[..], r) == ZmipSend(old(zmips[..]), iz as int, ChanPressBytes(chan, val))
    {
      r := ZmipSendMidiEvent(iz, [0xD0 + chan % 16, val, 0]);
    }

    /** zmip_send_pitchbend_change: the bend's low and high seven bits. */
    method ZmipSendPitchbendChange(iz: byte, chan: byte, pb: uint16) returns (r: int)
      requires Valid() && (iz < MAX_NUM_ZMIPS ==> zmips[iz].hasRing)
      modifies zmips
      ensures Valid()
      ensures (zmips[..], r) == ZmipSend(old(zmips[..]), iz as int, PitchBendBytes(chan, pb))
    {
      r := ZmipSendMidiEvent(iz, [0xE0 + chan % 16, pb % 128, (pb / 128) % 128]);
    }

    /**
     * zmip_send_all_notes_off: for every chain port, a note-off on its
     * channel (0 when it has none) for each of its sounding notes, all
     * queued on one input port; the first that does not fit stops it with
     * 0, the ones before it staying queued.
     */
    method ZmipSendAllNotesOff(iz: byte) returns (r: int)
      requires Valid() && (iz < MAX_NUM_ZMIPS ==> zmips[iz].hasRing)
      modifies zmips
      ensures Valid()
      ensures iz >= MAX_NUM_ZMIPS ==> r == 0 && zmips[..] == old(zmips[..])
      ensures iz < MAX_NUM_ZMIPS ==>
        var w := RingWriteAll(old(zmips[iz].rb), PortsNoteOffs(zmops[..], 0, ZMOP_CTRL));
        r == w.1 && zmips[..] == old(zmips[..])[iz := old(zmips[iz]).(rb := w.0)]
    {
      if iz >= MAX_NUM_ZMIPS {
        return 0;
      }
      var rb, ok := QueueAllNoteOffs(zmips[iz].rb, zmops[..]);
      zmips[iz] := zmips[iz].(rb := rb);
      return ok;
    }

    /**
     * zmip_send_all_notes_off_chain, corrected: the note-offs of one
     * chain port's sounding notes on its channel, 0 when it has none
     * (as written, a port without a channel gets channel 15; see
     * MidiRouter.ChainOffChanAsWritten).  0 for a bad input port or a
     * port at or past ZMOP_CTRL.
     */
    method ZmipSendAllNotesOffChain(iz: byte, izmop: byte) returns (r: int)
      requires Valid() && (iz < MAX_NUM_ZMIPS ==> zmips[iz].hasRing)
      modifies zmips
      ensures Valid()
      ensures !(iz < MAX_NUM_ZMIPS && izmop < ZMOP_CTRL) ==> r == 0 && zmips[..] == old(zmips[..])
      ensures iz < MAX_NUM_ZMIPS && izmop < ZMOP_CTRL ==>
        var w := RingWriteAll(old(zmips[iz].rb), PortNoteOffs(zmops[izmop], OffChan(zmops[izmop].midiChan), 0));
        r == w.1 && zmips[..] == old(zmips[..])[iz := old(zmips[iz]).(rb := w.0)]
    {
      if iz >= MAX_NUM_ZMIPS || izmop >= ZMOP_CTRL {
        return 0;
      }
      var rb, ok := QueuePortNoteOffs(zmips[iz].rb, zmops[..], izmop as nat);
      zmips[iz] := zmips[iz].(rb := rb);
      return ok;
    }
  }
}
