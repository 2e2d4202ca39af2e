# zyncore in Dafny

A verified model of the control core of Zynthian's zyncore library: the
C code that turns push switches, rotary encoders, I/O-expander pins and
Zynaptik CV/gate signals into MIDI, and that routes MIDI between the
router's input ports (zmips) and output ports (zmops).

One Dafny module per C file of the core, plus three shared ones:

| module | file | models |
|---|---|---|
| `CTypes` | ctypes.dfy | C integer widths, the wrap-around of narrowing assignments, bit operations on non-negative values |
| `Limits`, `Tables` | limits.dfy, tables.dfy | table sizes of the input layer; counting over a table |
| `WiringPiEmu` | wiring_pi_emu.dfy | wiringPiEmu.c: the 15-pin GPIO emulation and its signal decoder (class `GpioEmu`) |
| `GpiodCallback` | gpiod_callback.dfy | gpiod_callback.c: the wiringPi/BCM pin maps and the callback table (class `CallbackTable`) |
| `Lm4811` | lm4811.dfy | lm4811.c: the volume stepper; pin writes are an output log (class `Amp`) |
| `Mcp23017` | mcp23017.dfy | zynmcp23017.c: the expander table, pin actions, bank merge and interrupt scan (class `Mcp23017Table`) |
| `Mcp23008` | mcp23008.dfy | zynmcp23008.c: the polled expander, register bit writes and the switch poll (class `Mcp23008Table`) |
| `Zyncoder` | zyncoder.dfy | zyncoder.c: switch debouncing and switch MIDI, quadrature decoding, set-up on native and expander pins (class `Inputs`) |
| `Zynpot` | zynpot.dfy | zynpot.c: the pot slot table and its dispatch by backend (class `Pots`) |
| `WiringConfig` | wiring_config.dfy | zyncontrol_vx.c: the wiring lists, `parse_envar2intarr` and the set-up selection rules (class `Wiring`) |
| `Zynaptik` | zynaptik.dfy | zynaptik.c: CV inputs, CV and gate outputs, template matching and gate driving (class `Zynaptik`) |
| `MidiCodec` | midi_codec.dfy | the status bytes and encoders of zynmidirouter.c, the UI queue words, ring-buffer framing |
| `MidiFilter` | midi_filter.dfy | the `event_map[8][16][128]` filter of zynmidirouter.c (class `EventMap` over an `array3`) |
| `MidiRouter` | midi_router.dfy | zynmidirouter.c as functions: port records, flags, pitch-bend tuning, `zmop_push_event` stage by stage, ring-buffer writes, note-off lists |
| `RouterPorts` | router_ports.dfy | zynmidirouter.c as state: the globals and the zmip/zmop tables (class `Router`), each setter, getter and send proved against the functions of `MidiRouter` |

The global tables of the C code are arrays held by classes whose methods
update them in place; each method's postcondition gives the whole new
table in terms of the old one. What the code reads from hardware (I2C
register values, the time, pin levels, the ADC) comes in as parameters,
and what it writes to hardware (pin writes, MIDI queued for the router
or the UI, callbacks fired) goes to an output sequence. A JACK ring
buffer is the sequence of its bytes.

Two behaviours of the source are modelled as written, not corrected:
`~off_state` (zynaptik.c:247, 359) stores 0xFE or 0xFF as the "on"
level of a gate, not 0 or 1 (`Zynaptik.OnLevel`);
`zmip_get_flag_active_chain` returns the masked flag word, so a set flag
reads as the flag's own mask rather than 1
(`RouterPorts.Router.ZmipGetFlagActiveChain`).
`setup_behaviour_zyncoder` and `lm4811_init` declare a result they never
return; `Zyncoder.Inputs.SetupBehaviourEncoder` reports only, as a flag,
whether it changed the encoder, `Zynpot.Pots.SetupBehaviour` turns that
flag into the 1 or 0 that `setup_behaviour_zynpot` passes on (in the
source that result is indeterminate), and `lm4811_init` is not modelled.

The C headers zyncoder.h and zynpot.h are not part of this model; the
table sizes (36 switches, 4 encoders, 4 pots) are those of the V5 build.
zynmidirouter.h is older than zynmidirouter.c (it declares 4 input
ports and other struct fields); the model follows the layout the .c file
uses. The port numbering and the flag bit positions in
`MidiRouter.ZmopBit` and `MidiRouter.ZmipBit` are assumptions in that
order. Contracts name a flag by its bit (`ZmipBit(ActiveChain)`) and its
mask (`Pow2` of that bit) and a port by its constant, never by a number.

## Model

| member | source | states |
|---|---|---|
| WiringPiEmu.DecodeSignalFor | wiringPiEmu.c:50-59 | the signal raised for pin p and level v decodes back to (p, v) |
| WiringPiEmu.SignalForDecode | wiringPiEmu.c:50-59 | every offset of the installed band is the signal of the pin and level it decodes to |
| WiringPiEmu.GpioEmu.Setup | wiringPiEmu.c:65-84 | every pin i is back to pin i, input, no pull, setup interrupt mode, no routine, level 0; returns 1 |
| WiringPiEmu.GpioEmu.SignalHandler | wiringPiEmu.c:50-59 | a signal of the band sets the decoded pin's level only and runs its routine once if it has one; any other signal changes nothing |
| WiringPiEmu.GpioEmu.PinMode | wiringPiEmu.c:90-96 | an in-range pin takes the mode; a pin outside the table changes nothing |
| WiringPiEmu.GpioEmu.PullUpDnControl | wiringPiEmu.c:98-106 | the pull is stored and the level becomes 1 exactly for pull-up, 0 otherwise; other pins kept |
| WiringPiEmu.GpioEmu.DigitalWrite | wiringPiEmu.c:108-115 | any in-range pin takes the level whatever its mode; other pins kept |
| WiringPiEmu.GpioEmu.DigitalRead | wiringPiEmu.c:117-123 | the stored level, 0 outside the table; nothing changes |
| WiringPiEmu.GpioEmu.AnalogRead | wiringPiEmu.c:125-131 | always 0, nothing changes |
| WiringPiEmu.GpioEmu.WiringPiIsr | wiringPiEmu.c:133-141 | an in-range pin takes the interrupt mode and routine and 1 is returned; otherwise 0 and no change |
| WiringPiEmu.WriteThenRead | wiringPiEmu.c:108-123 | a level written to a pin is the level read back from it |
| GpiodCallback.UnmappedWiringPiPins | gpiod_callback.c:56-89 | wiringPi pins 17 to 20 are exactly the ones with no GPIO |
| GpiodCallback.Gpio2WpiInvertsWpi2Gpio | gpiod_callback.c:56-121 | every mapped wiringPi pin comes back from its GPIO number |
| GpiodCallback.Wpi2GpioInvertsGpio2Wpi | gpiod_callback.c:56-121 | every GPIO number 0..27 comes back from its wiringPi pin |
| GpiodCallback.Wpi2GpioInjective | gpiod_callback.c:56-89 | no two wiringPi pins share a GPIO |
| GpiodCallback.LinesEmpty | gpiod_callback.c:202-224 | the bulk of lines is empty exactly when no entry holds a line |
| GpiodCallback.ClearedTableHasNoLines | gpiod_callback.c:127-147 | a cleared table has no line to watch |
| GpiodCallback.CallbackTable.InitCallbacks | gpiod_callback.c:127-147 | every entry back to pin -1, no line, no callback |
| GpiodCallback.CallbackTable.RegisterCallback | gpiod_callback.c:149-159 | a missing line returns 0 and changes nothing; otherwise the entry at the line's offset takes pin, line and callback, the rest kept, and 1 |
| GpiodCallback.CallbackTable.UnregisterCallback | gpiod_callback.c:161-170 | the line's entry goes back to no callback and 1; 0 and no change for a missing line |
| GpiodCallback.CallbackTable.StartCallbacks | gpiod_callback.c:202-224 | the bulk is the registered lines in table order; 0 when there are none, else whether the thread started |
| Lm4811.PulsesStep | lm4811.c:66-71 | each pulse steps the volume once in the direction already set, and CLK ends low |
| Lm4811.StepWritesStepBy | lm4811.c:54-72 | the writes of a volume step of n ask for exactly n steps, one rising CLK edge each, and leave CLK low |
| Lm4811.Clamped | lm4811.c:79-87 | the volume settled on is min(v, 15) for non-negative v |
| Lm4811.Amp.VolumeSteps | lm4811.c:54-72 | the writes made are those of StepWrites(n), appended to the log |
| Lm4811.Amp.ResetVolume | lm4811.c:74-77 | fifteen down steps, then volume 0 |
| Lm4811.Amp.SetVolume | lm4811.c:79-87 | returns the clamped volume, stores it, and the writes ask for the difference from the old volume |
| Lm4811.Amp.GetVolume | lm4811.c:89-91 | the current volume |
| Lm4811.GetVolumeMax | lm4811.c:93-95 | 15 |
| Lm4811.Amp.End | lm4811.c:117-120 | the volume is reset to 0 and 1 is returned |
| Lm4811.SetVolumeStepsTo | lm4811.c:79-87 | after a set from cur the pulses ask for exactly the change to the clamped volume; setting the current volume again sends nothing |
| Mcp23008.ChipIndexFromIsFirst | zynmcp23008.c:121-129 | the index found is the lowest enabled chip serving the pin, -1 when none does |
| Mcp23008.WithBit | zynmcp23008.c:137-176 | bit n of the register takes the new value and the other seven bits are kept |
| Mcp23008.WithBitKeeps | zynmcp23008.c:168-176 | writing back the bit a register holds leaves it unchanged |
| Mcp23008.WithBitLastWins | zynmcp23008.c:168-176 | of two writes of the same bit only the second counts |
| Mcp23008.PolledLevel | zynmcp23008.c:223-229 | a pin 0..7 above the base reads its bit of the reading; a pin whose uint8 offset is 8 or more reads 0 |
| Mcp23008.PollSwitch | zynmcp23008.c:231-245 | the new level is stored and the switch MIDI sent; a fall records the time, a rise after a press stores the duration unless it is under 1000 us, which ends the poll |
| Mcp23008.PolledKeepsSkipped | zynmcp23008.c:219-231 | a disabled switch, one below pin 100, or one whose level did not change keeps its record |
| Mcp23008.PolledStopsAtBounce | zynmcp23008.c:235-245 | after a spurious tick every later switch keeps its record and sends nothing |
| Mcp23008.PolledTakesPoll | zynmcp23008.c:219-245 | an enabled expander switch whose level changed, reached before any spurious tick, takes the record PollSwitch gives it |
| Mcp23008.PolledAppends | zynmcp23008.c:219-245 | the poll only appends to the MIDI queue |
| Mcp23008.Mcp23008Table.Reset | zynmcp23008.c:63-69 | every chip disabled and its descriptor zeroed |
| Mcp23008.Mcp23008Table.Setup | zynmcp23008.c:71-110 | the chip entry takes base pin, descriptor and the OLAT output state and is enabled; other chips kept |
| Mcp23008.Mcp23008Table.GetLastIndex | zynmcp23008.c:112-119 | the highest enabled index, -1 when none is |
| Mcp23008.Mcp23008Table.Pin2Index | zynmcp23008.c:121-129 | the lowest enabled chip with base <= pin < base + 8, else -1 |
| Mcp23008.Mcp23008Table.SetPinMode | zynmcp23008.c:137-144 | the IODIR value with the pin's bit cleared for output and set otherwise, other bits kept |
| Mcp23008.Mcp23008Table.SetPullUpDown | zynmcp23008.c:152-160 | the GPPU value with the pin's bit cleared for pull-down and set otherwise, other bits kept |
| Mcp23008.Mcp23008Table.WritePin | zynmcp23008.c:168-176 | only the pin's bit of the output state changes, to val != 0, and the new state is what is written |
| Mcp23008.Mcp23008Table.ReadPin | zynmcp23008.c:184-190 | 1 exactly when the pin's bit is set in the reading |
| Mcp23008.UpdatePolledSwitches | zynmcp23008.c:207-246 | the switch table and the MIDI queue become what PolledFrom computes over all switches |
| Mcp23017.MergeKeepsOtherBank | zynmcp23017.c:236-258 | a bank-A reading replaces the low byte of last_state only, a bank-B reading the high byte only |
| Mcp23017.ChipIndexIsFirstCovering | zynmcp23017.c:189-197 | the chip found is the lowest enabled one whose 16 pins include the pin, -1 when none does |
| Mcp23017.ChipIndexKept | zynmcp23017.c:199-234 | changing a chip's pin actions keeps every pin's chip |
| Mcp23017.ScanSwitchComplete | zynmcp23017.c:315-338 | every changed switch pin of the bank gets exactly its update with the pin's new level |
| Mcp23017.ScanEncoderComplete | zynmcp23017.c:315-338 | every changed encoder pin leads to an update of its encoder |
| Mcp23017.ScanEncodersOnce | zynmcp23017.c:325-333 | no encoder is updated twice in one interrupt |
| Mcp23017.ScanFits | zynmcp23017.c:315-338 | the scan names only switches and encoders the tables have |
| Mcp23017.BankSwitchUpdates | zynmcp23017.c:296-338 | a switch update is in a bank's scan exactly when a switch pin where reg ^ last differs asks for it, with the pin's new level, and no switch is updated twice: one update per changed switch pin |
| Mcp23017.ScanSwitchesOnce | zynmcp23017.c:306-338 | no switch is updated twice by one scan, since each switch owns one pin and each bank position is visited once |
| Mcp23017.BankEncoderUpdates | zynmcp23017.c:296-338 | a bank interrupt updates exactly the encoders with a changed pin in the bank, each once |
| Mcp23017.Mcp23017Table.Reset | zynmcp23017.c:65-71 | every chip disabled and its descriptor zeroed |
| Mcp23017.Mcp23017Table.Setup | zynmcp23017.c:73-178 | on an open device the chip becomes Configured: all 16 pin actions none, last_state = (GPIOB << 8) + GPIOA, enabled; 1 exactly when both interrupt lines were also obtained |
| Mcp23017.Mcp23017Table.GetLastIndex | zynmcp23017.c:180-187 | the highest enabled index, 0 when none is |
| Mcp23017.Mcp23017Table.Pin2Index | zynmcp23017.c:189-197 | the lowest enabled chip serving the pin, else -1 |
| Mcp23017.Mcp23017Table.SetupPinAction | zynmcp23017.c:199-216 | only the pin's entry of its chip changes; 0 and no change for a pin no chip serves |
| Mcp23017.Mcp23017Table.ResetPinAction | zynmcp23017.c:218-234 | the pin's entry goes back to none/0; 0 and no change for a pin no chip serves |
| Mcp23017.Mcp23017Table.ReadPin | zynmcp23017.c:236-258 | the pin's level in its bank's reading, which becomes that bank's last state; -1 for a pin no chip serves |
| Mcp23017.Mcp23017Table.Isr | zynmcp23017.c:281-339 | a valid enabled chip and bank 0 or 1 stores the reading as the bank's last state and returns the scan of reg ^ last; otherwise nothing changes |
| Mcp23017.ScanBank | zynmcp23017.c:315-338 | the while loop over the change mask returns the updates Scan defines |
| MidiCodec.StatusByteFields | zynmidirouter.c:1713-1766 | kind and channel come back out of every status byte the encoders build |
| MidiCodec.EncodersFormChannelMessages | zynmidirouter.c:1713-1766 | every encoded message is a status byte followed by two data bytes below 0x80 |
| MidiCodec.PitchBendRoundTrip | zynmidirouter.c:1760-1766 | the two 7-bit data bytes of a bend carry its low 14 bits |
| MidiCodec.ReceivedPitchBend | zynmidirouter.c:1640 | the word a receiver assembles is the 14-bit bend for 7-bit data bytes |
| MidiCodec.PitchBendValueSplit | zynmidirouter.c:1760-1766 | a 14-bit value splits into data bytes and back unchanged |
| MidiCodec.UiWordRoundTrip | zynmidirouter.c:2027-2045 | a UI queue word unpacks to 0xFF, the status byte and the two data bytes |
| MidiCodec.EventSizeAsWrittenMissesActiveSenseAndReset | zynmidirouter.c:1162-1186 | as written 0xFE and 0xFF come out three bytes long |
| MidiCodec.EventSizeMatchesTableI | zynmidirouter.c:1162-1198 | every status byte other than SysEx gets the length Table I of the MIDI 1.0 Detailed Specification gives it |
| MidiCodec.EventSizeAsWrittenElsewhereAgrees | zynmidirouter.c:1162-1198 | apart from 0xFE and 0xFF the written size switch agrees with Table I |
| MidiCodec.SysExEndAsWrittenMissesShortMessage | zynmidirouter.c:1149-1157 | as written a three-byte SysEx ending in 0xF7 is never found complete |
| MidiCodec.FrameEventKeepsBytes | zynmidirouter.c:1142-1202 | the bytes an event takes followed by those left are the buffer |
| MidiCodec.FrameSysEx | zynmidirouter.c:1149-1157 | a complete SysEx frames as one event ending at its first 0xF7 |
| MidiCodec.FrameChannelMessage | zynmidirouter.c:1186-1198 | a queued channel message frames back as itself with the length its status calls for |
| MidiCodec.DrainChannelMessages | zynmidirouter.c:1142-1202 | queued channel messages come out one by one, in order, unchanged |
| MidiFilter.KindIndex | zynmidirouter.c:223-231 | the table row is below 8, and is kind - 8 for the channel kinds |
| MidiFilter.ChannelKindsHaveOwnRows | zynmidirouter.c:223-231 | two channel kinds share a row exactly when they are equal |
| MidiFilter.OtherKindsShareRows | zynmidirouter.c:207-221 | validation lets kinds -2 and 0 through, into the rows of PITCH_BEND and NOTE_OFF |
| MidiFilter.EventMap.Lookup | zynmidirouter.c:250-255 | an entry exactly for a valid event |
| MidiFilter.EventMap.constructor | zynmidirouter.c:97-110 | every entry passes its event through as itself |
| MidiFilter.EventMap.Reset | zynmidirouter.c:275-286 | every entry [t][c][n] is pass-through on channel c, number n |
| MidiFilter.EventMap.SetEventMap | zynmidirouter.c:223-237 | with both events valid a lookup of from gives to, and only that entry changes; otherwise nothing changes |
| MidiFilter.EventMap.IgnoreEvent | zynmidirouter.c:239-248 | a valid event's entry becomes IGNORE_EVENT keeping channel and number; nothing else changes |
| MidiFilter.EventMap.GetEventMap | zynmidirouter.c:250-260 | the entry of a valid event, none for an invalid one |
| MidiFilter.EventMap.DelEventMap | zynmidirouter.c:262-273 | a valid event's entry goes back to pass-through; nothing else changes |
| MidiFilter.EventMap.SetCcMap | zynmidirouter.c:290-292 | a valid controller maps to the target controller and channel; nothing else changes |
| MidiFilter.EventMap.IgnoreCc | zynmidirouter.c:294-296 | a valid controller entry becomes ignored; nothing else changes |
| MidiFilter.EventMap.GetCcMap | zynmidirouter.c:299-302 | the number the controller is mapped to |
| MidiFilter.EventMap.DelCcMap | zynmidirouter.c:304-306 | a valid controller entry back to pass-through; nothing else changes |
| MidiFilter.EventMap.ResetCcMap | zynmidirouter.c:308-315 | every controller entry back to pass-through; the other rows kept |
| MidiRouter.WithFlag | zynmidirouter.c:590-601 | bit n takes the new setting and every other bit keeps its own |
| MidiRouter.SingleFlagTests | zynmidirouter.c:582-609 | for one flag, the has-flags test and the getters' test both read that flag's bit |
| MidiRouter.TunedPitchbendCentre | zynmidirouter.c:164-171 | tuning 8192 leaves every 14-bit bend unchanged |
| MidiRouter.TunedPitchbendShifts | zynmidirouter.c:164-171 | the tuned bend is pb + tuning - 8192 clamped to 0..16383 |
| MidiRouter.TunedPitchbendMonotone | zynmidirouter.c:164-171 | a higher bend or a higher tuning never gives a lower tuned bend |
| MidiRouter.NoteStage | zynmidirouter.c:1590-1614 | only the note bookkeeping of the port changes, and a passed event differs from the input only in its note byte |
| MidiRouter.ChanStage | zynmidirouter.c:1617-1620 | the event keeps its length, its kind and its data bytes |
| MidiRouter.TuneStage | zynmidirouter.c:1626-1650 | the event keeps its length and status byte |
| MidiRouter.PushDropsNoteOnOutsideRange | zynmidirouter.c:1602-1603 | a note-on outside [note_low, note_high] is dropped and changes nothing |
| MidiRouter.PushDropsTransposedOutsideRange | zynmidirouter.c:1610-1612 | a note transposed outside 0..127 is dropped; nothing is written and the caller's bytes are untouched |
| MidiRouter.PushSendsTransposedNote | zynmidirouter.c:1590-1614 | a note in range goes out transposed, its transpose is recorded, and the caller's note number is restored |
| MidiRouter.PushNoteOffMatchesNoteOn | zynmidirouter.c:1596-1598 | a note-off goes out on the same transposed note as its note-on, whatever transposes changed in between |
| MidiRouter.PushTranslatesChannel | zynmidirouter.c:1617-1620 | with translation on a channel message goes out on the channel the port maps its channel to |
| MidiRouter.PushPassesThrough | zynmidirouter.c:1582-1664 | with no stage applying, the event goes out unchanged and alone and the port is unchanged |
| MidiRouter.PushTunesNoteOn | zynmidirouter.c:1627-1637 | a tuned note-on is followed by a pitch bend carrying that channel's last bend, tuned |
| MidiRouter.PushTunesPitchBend | zynmidirouter.c:1638-1649 | a pitch bend is recorded as the channel's last bend and goes out retuned |
| MidiRouter.RingWrite | zynmidirouter.c:1688-1699 | the whole message is queued and 1 returned when it fits, else nothing and 0 |
| MidiRouter.RingWriteAllFits | zynmidirouter.c:1688-1699 | with room for all, every message is queued in order and the result is 1 |
| MidiRouter.RingWriteAllPrefix | zynmidirouter.c:1688-1699 | whatever the outcome, the queue is the old contents followed by a prefix of the messages |
| MidiRouter.RingWriteAllAppend | zynmidirouter.c:1768-1788 | queueing two runs: the second is tried only when the whole first fitted |
| MidiRouter.ZmipSend | zynmidirouter.c:1705-1711 | a valid port's buffer takes the whole message or nothing, 1 exactly when it fitted; other ports untouched |
| MidiRouter.InitialZmopKeepsNotes | zynmidirouter.c:481-540 | a port fresh from zmop_init, with no global transpose, sends every note on its own number |
| MidiRouter.OffChan | zynmidirouter.c:1775-1777 | 0 for a port without a channel, else the channel modulo 16 |
| MidiRouter.PortNoteOffs | zynmidirouter.c:1779-1786 | every message is a 3-byte note-off on the channel, with velocity 0, for a sounding note; note numbers strictly increase, so each note appears once and in note order |
| MidiRouter.PortNoteOffsCover | zynmidirouter.c:1779-1786 | every sounding note of the port gets its note-off in the list |
| MidiRouter.RouteRowsRow | zynmidirouter.c:902-909 | row k of the copied rows is output port k's route entries |
| MidiRouter.PortsNoteOffsStep | zynmidirouter.c:1772-1787 | the note-offs of ports from.. are those of port from, then those of the later ports if all fitted |
| MidiRouter.ChainOffChanAsWrittenMissesNoChannel | zynmidirouter.c:1800-1803 | as written, a port without a channel gets its chain note-offs on channel 15 |
| RouterPorts.QueueNoteOffs | zynmidirouter.c:1779-1786 | the buffer and result are those of queueing the port's note-offs in note order |
| RouterPorts.QueuePortNoteOffs | zynmidirouter.c:1772-1787 | queues one port's note-offs, and that is the first step of queueing the note-offs of all later ports |
| RouterPorts.QueueAllNoteOffs | zynmidirouter.c:1768-1788 | the buffer and result are those of queueing every chain port's note-offs in port order |
| RouterPorts.PopulateEventFromRb | zynmidirouter.c:1142-1202 | the event and the bytes left are FrameEvent of the buffer: fewer than 3 bytes give an ignored event, a SysEx runs to its first 0xF7 |
| RouterPorts.NoteRangeInPlace | zynmidirouter.c:1590-1614 | the port, the go-on flag and the bytes are those NoteStage defines; a dropped event's bytes are kept |
| RouterPorts.TranslateChannelInPlace | zynmidirouter.c:1617-1620 | the bytes become ChanStage of the old bytes |
| RouterPorts.TuneInPlace | zynmidirouter.c:1626-1650 | the port, the extra event and the bytes are those TuneStage defines |
| RouterPorts.Router.constructor | zynmidirouter.c:63-85 | no active chain, channel 0, no master channel, no learning, system events on, no transpose |
| RouterPorts.Router.SetActiveChain | zynmidirouter.c:120-128 | a chain index or -1 is stored; anything else leaves it |
| RouterPorts.Router.SetMidiMasterChan | zynmidirouter.c:173-179 | a channel 0..15 or -1 is stored; anything else leaves it |
| RouterPorts.Router.SetGlobalTranspose | zynmidirouter.c:913-916 | stores the transpose and returns it |
| RouterPorts.Router.GetTunedPitchbend | zynmidirouter.c:164-171 | a 14-bit bend, equal to the input when the tuning is centred |
| RouterPorts.Router.ZmipInit | zynmidirouter.c:321-364 | a valid port gets the flags, a ring buffer exactly when DIRECTIN is set, and no pending event; 0 for a bad index |
| RouterPorts.Router.ZmipSetFlags | zynmidirouter.c:399-406 | the flag word replaced on a valid port; 0 and no change for a bad index |
| RouterPorts.Router.ZmipGetFlags | zynmidirouter.c:408-414 | the flag word, 0 for a bad index |
| RouterPorts.Router.ZmipHasFlags | zynmidirouter.c:416-422 | 1 exactly when every bit of the mask is set |
| RouterPorts.Router.ZmipSetFlag | zynmidirouter.c:424-455 | one bit set or cleared, the rest of the word and the other ports kept |
| RouterPorts.Router.ZmipGetFlagCcAutoMode | zynmidirouter.c:436-442 | 1 exactly when the bit is set |
| RouterPorts.Router.ZmipGetFlagActiveChain | zynmidirouter.c:457-463 | the flag's own mask `Pow2(ZmipBit(ActiveChain))` when the bit is set (the masked word, not 1), 0 when it is clear or for a bad index |
| RouterPorts.Router.ZmipSetRouteChains | zynmidirouter.c:466-475 | the input port's entry set on every output port below ZMOP_CTRL (the chain ports, ZMOP_MOD and ZMOP_STEP), everything else kept |
| RouterPorts.Router.ZmopInit | zynmidirouter.c:481-540 | a valid port becomes InitialZmop(flags), the others kept; 0 for a bad index |
| RouterPorts.Router.ZmopSetFlags | zynmidirouter.c:565-572 | the flag word replaced on a valid port |
| RouterPorts.Router.ZmopGetFlags | zynmidirouter.c:574-580 | the flag word, 0 for a bad index |
| RouterPorts.Router.ZmopHasFlags | zynmidirouter.c:582-588 | 1 exactly when every bit of the mask is set |
| RouterPorts.Router.ZmopSetFlag | zynmidirouter.c:590-722 | exactly one flag bit set or cleared, the rest of the port kept; 0 and no change for a bad index |
| RouterPorts.Router.ZmopGetFlag | zynmidirouter.c:603-730 | 1 exactly when the flag's bit is set, 0 otherwise or for a bad index |
| RouterPorts.Router.ZmopResetMidiChans | zynmidirouter.c:734-746 | every channel dropped (-1), no channel, translation on |
| RouterPorts.Router.ZmopSetMidiChan | zynmidirouter.c:748-765 | every mapping -1 except chan -> chan, midi_chan = chan, translation on; 0 for bad arguments |
| RouterPorts.Router.ZmopSetMidiChanTrans | zynmidirouter.c:767-788 | every mapping -1 except chan -> trans, translation on |
| RouterPorts.Router.ZmopSetMidiChanAll | zynmidirouter.c:790-802 | the identity mapping, no channel, translation off |
| RouterPorts.Router.ZmopSetMidiChanAllTrans | zynmidirouter.c:804-816 | every channel mapped to chan, no channel, translation off |
| RouterPorts.Router.ZmopSetMidiChanTo | zynmidirouter.c:818-832 | one mapping stored, -1 for a target outside -1..15 |
| RouterPorts.Router.ZmopGetMidiChanTo | zynmidirouter.c:834-844 | the mapping; -1 for a bad port, 0 for a bad channel |
| RouterPorts.Router.ZmopGetMidiChanInfo | zynmidirouter.c:846-853 | the sixteen mappings and 1; -1 for a bad port |
| RouterPorts.Router.ZmopResetRoutesFrom | zynmidirouter.c:857-866 | the port takes input from no input port |
| RouterPorts.Router.ZmopSetRouteFrom | zynmidirouter.c:868-879 | one route entry stored; 0 for a bad index |
| RouterPorts.Router.ZmopGetRouteFrom | zynmidirouter.c:881-891 | the route entry; -1 for a bad index |
| RouterPorts.Router.ZmopGetRoutesInfo | zynmidirouter.c:893-900 | the port's route entries and 1; -1 for a bad port |
| RouterPorts.Router.ZmopGetRoutesInfoAll | zynmidirouter.c:902-909 | the route rows of the first MAX_NUM_ZMIPS output ports, row k being port k's entries |
| RouterPorts.Router.ZmopSetNoteLow | zynmidirouter.c:922-929 | note_low stored on a valid port, nothing else changes |
| RouterPorts.Router.ZmopSetNoteHigh | zynmidirouter.c:931-938 | note_high stored on a valid port, nothing else changes |
| RouterPorts.Router.ZmopSetTransposeOctave | zynmidirouter.c:940-947 | the octave transpose stored on a valid port |
| RouterPorts.Router.ZmopSetTransposeSemitone | zynmidirouter.c:949-956 | the semitone transpose stored on a valid port |
| RouterPorts.Router.ZmopGetNoteLow | zynmidirouter.c:958-964 | note_low, 0 for a bad index |
| RouterPorts.Router.ZmopGetNoteHigh | zynmidirouter.c:966-972 | note_high, 127 for a bad index |
| RouterPorts.Router.ZmopGetTransposeOctave | zynmidirouter.c:974-980 | the octave transpose, 0 for a bad index |
| RouterPorts.Router.ZmopGetTransposeSemitone | zynmidirouter.c:982-988 | the semitone transpose, 0 for a bad index |
| RouterPorts.Router.ZmopSetNoteRangeTranspose | zynmidirouter.c:990-1000 | range and transpose stored together |
| RouterPorts.Router.ZmopResetNoteRangeTranspose | zynmidirouter.c:1002-1012 | full range 0..127 and no transpose |
| RouterPorts.Router.ZmopResetCcRoute | zynmidirouter.c:1016-1025 | no controller routed |
| RouterPorts.Router.ZmopSetCcRoute | zynmidirouter.c:1027-1036 | the 128 entries copied from the caller's table |
| RouterPorts.Router.ZmopGetCcRoute | zynmidirouter.c:1038-1047 | the port's 128 entries and 1; 0 for a bad index |
| RouterPorts.Router.PushEvent | zynmidirouter.c:1582-1664 | the written events, the caller's bytes and the port are those Push defines for the old port and bytes |
| RouterPorts.Router.ZmipSendMidiEvent | zynmidirouter.c:1705-1711 | the ports and result are ZmipSend of the message |
| RouterPorts.Router.ZmipSendNoteOff | zynmidirouter.c:1713-1719 | ZmipSend of the note-off bytes |
| RouterPorts.Router.ZmipSendNoteOn | zynmidirouter.c:1721-1727 | ZmipSend of the note-on bytes |
| RouterPorts.Router.ZmipSendCcontrolChange | zynmidirouter.c:1729-1735 | ZmipSend of the controller-change bytes |
| RouterPorts.Router.ZmipSendMasterCcontrolChange | zynmidirouter.c:1737-1742 | 0 without a master channel, else ZmipSend of a controller change on it |
| RouterPorts.Router.ZmipSendProgramChange | zynmidirouter.c:1744-1750 | ZmipSend of the program-change bytes |
| RouterPorts.Router.ZmipSendChanPress | zynmidirouter.c:1752-1758 | ZmipSend of the channel-pressure bytes |
| RouterPorts.Router.ZmipSendPitchbendChange | zynmidirouter.c:1760-1766 | ZmipSend of the bend's low and high seven bits |
| RouterPorts.Router.ZmipSendAllNotesOff | zynmidirouter.c:1768-1788 | the port's buffer gets every chain port's note-offs in order, stopping at the first that does not fit |
| RouterPorts.Router.ZmipSendAllNotesOffChain | zynmidirouter.c:1790-1812 | one chain port's note-offs on its channel, 0 without one; 0 for a bad index |
| WiringConfig.TokensAreCommaFree | zyncontrol_vx.c:128-135 | no token is empty and none holds a comma |
| WiringConfig.TokensOfJoin | zyncontrol_vx.c:128-135 | tokenising a comma-joined list gives the list back |
| WiringConfig.AtoiOfNumeral | zyncontrol_vx.c:131 | atoi reads back every decimal numeral |
| WiringConfig.RemapAsWrittenLeavesTable | zyncontrol_vx.c:132 | values a configuration can hold make the remapping read outside the 32-entry table |
| WiringConfig.StoredPin | zyncontrol_vx.c:131-133 | an expander pin is stored as given, a wiringPi pin as its GPIO, anything else as -1 |
| WiringConfig.ParsesWrittenList | zyncontrol_vx.c:120-137 | a written-out list parses to each number's pin in order |
| WiringConfig.Wiring.Reset | zyncontrol_vx.c:111-118 | every switch pin and every encoder pin is -1 |
| WiringConfig.Wiring.InitSwitchCalls | zyncontrol_vx.c:150-161 | the switches set up are exactly those with a non-negative pin, in order, with off state 1 |
| WiringConfig.Wiring.InitPotCalls | zyncontrol_vx.c:167-180 | the encoders set up are exactly those with both pins non-negative, in order |
| WiringConfig.ParsedEntries | zyncontrol_vx.c:120-137 | an unset variable changes nothing; otherwise entries below both the limit and the token count hold the tokens' pins and the rest are kept |
| WiringConfig.ParsedWrittenList | zyncontrol_vx.c:120-137 | parsing a written-out list of pins stores the first limit of them |
| WiringConfig.ParseEnvar2IntArr | zyncontrol_vx.c:120-137 | the list becomes Parsed of the value, the limit and the old list |
| WiringConfig.ParsedTail | zyncontrol_vx.c:129-135 | past the limit or the last token the list is kept |
| WiringConfig.SwitchCallsSelect | zyncontrol_vx.c:155-160 | a switch is set up exactly when its pin is non-negative, once, with that pin, in index order |
| WiringConfig.EncoderCallsSelect | zyncontrol_vx.c:173-179 | an encoder is set up exactly when both pins are non-negative, once, with those pins, in index order |
| Zynaptik.CvInConfigured | zynaptik.c:91-97 | the record stores chan & 0xF and num & 0x7F, value 0, enabled |
| Zynaptik.CvInStep | zynaptik.c:123-145 | only the last value changes; at most two messages; a non-bend input stores val >> 8 and sends nothing when that is unchanged |
| Zynaptik.CvInSendsChangesOnly | zynaptik.c:131-144 | reading the same voltage twice sends a controller or pressure value once |
| Zynaptik.CvInPitchBendCarries | zynaptik.c:124-130 | a pitch-bend input sends every reading, and a receiver decodes the reading halved |
| Zynaptik.CvInControllerMirrorsUi | zynaptik.c:131-139 | the router and the UI get the same channel, controller and value |
| Zynaptik.CvGateMatchesNotes | zynaptik.c:193-196 | a CV/gate template matches note-off and note-on on its channel, whatever the note |
| Zynaptik.StatusMatches | zynaptik.c:193-199 | a whole-status template matches exactly one status byte |
| Zynaptik.CtrlMatches | zynaptik.c:199-203 | a controller template matches one controller on one channel |
| Zynaptik.GateMatchesNote | zynaptik.c:328-329 | a gate template matches note-off and note-on of one note on one channel |
| Zynaptik.ApplyGatesTouchesTargets | zynaptik.c:344-385 | applying gates changes only the statuses of the switches they name |
| Zynaptik.ClosedGatesAreOff | zynaptik.c:370-385 | after closing gates every switch named is at its off level |
| Zynaptik.CvOutConfigured | zynaptik.c:188-210 | masks 0xEF00, 0xFF00 and 0xFF7F with the matching templates; other kinds leave the slot |
| Zynaptik.CvOutListensFor | zynaptik.c:222-232 | which events a configured CV output listens for, by kind |
| Zynaptik.ChanPressAsWrittenIgnoresPressure | zynaptik.c:265-269 | as written the CV of a channel pressure comes from the byte after the two-byte message; with a 0 there it is 0 whatever the pressure |
| Zynaptik.CvOutAction | zynaptik.c:222-271 | only the CV value changes, and only note events touch the gate |
| Zynaptik.CvOutReacts | zynaptik.c:233-269 | note-on with velocity retriggers the gate, note-off or velocity 0 closes it, a bend sets (b2 << 7) or b1, a controller b2 << 7, a pressure b1 << 7 |
| Zynaptik.ChanPressSetsCv | zynaptik.c:265-269 | the corrected CV carries the pressure value the message holds |
| Zynaptik.CvOutGatesOfOtherEvents | zynaptik.c:222-271 | only note events reach the gates |
| Zynaptik.GateOutConfigured | zynaptik.c:326-338 | a gate output listens for one note on one channel; other kinds are ignored |
| Zynaptik.GateOutFollowsNote | zynaptik.c:349-366 | the gate opens on a note-on with velocity and closes on the note-off or a zero-velocity note-on |
| Zynaptik.GateOutsOffCovers | zynaptik.c:377-384 | an enabled gate output with a gate mask has its switch closed |
| Zynaptik.AllGatesOffCloses | zynaptik.c:370-385 | afterwards every switch a gate drives is at its off level |
| Zynaptik.GateOutGatesOfOtherEvents | zynaptik.c:344-368 | only note events reach the gate outputs |
| Zynaptik.Zynaptik.Reset | zynaptik.c:393-434 | every input and output disabled |
| Zynaptik.Zynaptik.SetupCvIn | zynaptik.c:91-97 | the input becomes CvInConfigured, the rest kept |
| Zynaptik.Zynaptik.DisableCvIn | zynaptik.c:99-101 | the input disabled, the rest kept |
| Zynaptik.Zynaptik.CvInToMidi | zynaptik.c:123-145 | the messages and the new last value are CvInStep's |
| Zynaptik.Zynaptik.SetupCvOut | zynaptik.c:188-210 | the output becomes CvOutConfigured, the rest kept |
| Zynaptik.Zynaptik.DisableCvOut | zynaptik.c:212-215 | the output disabled, the rest kept |
| Zynaptik.Zynaptik.MidiToCvout | zynaptik.c:222-271 | every listening output takes CvOutAction's record, and the switches and pin writes are the gates applied in slot order |
| Zynaptik.Zynaptik.SetupGateOut | zynaptik.c:326-338 | the gate output becomes GateOutConfigured, the rest kept |
| Zynaptik.Zynaptik.SetupSwitchMidi | zyncoder.c:212-241 | with ZYNAPTIK_CONFIG: the switch is bound to the message; a CV/gate or gate output drives the switch pin to its off level and sets up CV slot `num` (when inside the table) or gate output i |
| Zynaptik.SwitchCvSlotAsWrittenPastTable | zyncoder.c:228-232 | as written a switch's note number can name a CV slot past the table |
| Zynaptik.SwitchCvGateDrivesSwitch | zyncoder.c:228-232 | the CV slot a switch sets up gates that switch: retrigger on a note-on with velocity, close on the note-off |
| Zynaptik.Zynaptik.DisableGateOut | zynaptik.c:340-342 | the gate output disabled, the rest kept |
| Zynaptik.Zynaptik.MidiToGateout | zynaptik.c:344-368 | the switches and pin writes are the gate outputs' gates applied in slot order |
| Zynaptik.Zynaptik.AllGatesOff | zynaptik.c:370-385 | the switches and pin writes are the closing of every CV/gate and gate output switch |
| Zyncoder.SwitchStep | zyncoder.c:115-149 | only status and press fields change; an unchanged level changes nothing and sends nothing; the status becomes the new level |
| Zyncoder.SwitchPressFromRest | zyncoder.c:124-129 | a press from rest records push and its time, and sends |
| Zyncoder.SwitchReleaseStoresDuration | zyncoder.c:130-147 | a release at least 1000 us after the press stores the duration and ends the press |
| Zyncoder.SwitchBounceIsQuiet | zyncoder.c:130-147 | a change within 1000 us keeps the press pending and sends nothing |
| Zyncoder.ClampNote | zyncoder.c:282-370 | a CV/gate note is held to 0..127 and a note already in range is kept |
| Zyncoder.SwitchMidiByKind | zyncoder.c:282-370 | a CC sends its value on press and 0 on release, a toggle 127 or 0 against the last value on press only, a note on/off(0), a program change on press only |
| Zyncoder.SwitchMidiMirrorsUi | zyncoder.c:282-370 | every switch message reaches the router and the UI alike |
| Zyncoder.SwitchMidiFramesBack | zyncoder.c:282-370 | every message a switch queues frames back as itself |
| Zyncoder.SwitchDtusRead | zyncoder.c:243-259 | a stored duration is returned and cleared; else, for a press held longer than the threshold, the held time `now - tsus` (as uint32) is returned and the press start cleared; else NO_DTUS with no change |
| Zyncoder.SwitchRead | zyncoder.c:261-272 | a pending push is reported first as 0 and cleared, else the duration, read once |
| Zyncoder.PressReleaseReadBack | zyncoder.c:115-272 | a press and a release read back as the press, then its duration, then nothing |
| Zyncoder.HeldPressReadBack | zyncoder.c:115-272 | a press held past the threshold reads back as the press, then its held time; the press is then ended, so neither a later read nor the release reports a duration |
| Zyncoder.ValidQuadrantIsOnePinChange | zyncoder.c:82 | the table accepts exactly the transitions in which one pin changed |
| Zyncoder.AccelerationBounds | zyncoder.c:434-437 | the acceleration factor is 1 to 5, and 1 exactly when more than 30 ms passed |
| Zyncoder.EncoderStep | zyncoder.c:397-448 | only histories, value and time change; the new short history is the old low two bits followed by the new 2-bit pin state |
| Zyncoder.DetentDeltaOfStepOne | zyncoder.c:426-431 | a step-1 detent moves by +1 clockwise and -1 counter-clockwise |
| Zyncoder.DetentDeltaOfStepZero | zyncoder.c:432-439 | a step-0 detent moves by the acceleration in the detent's direction |
| Zyncoder.EncoderRejectsInvalidTransition | zyncoder.c:410 | a rejected transition changes the short history alone and calls nothing |
| Zyncoder.RepeatedReadingIsRejected | zyncoder.c:82 | reading the same state twice is never a transition |
| Zyncoder.EncoderMovesOnlyAtDetent | zyncoder.c:410-425 | the value moves or the callback runs only at a rest detent reached by a valid transition |
| Zyncoder.EncoderDetentOfStepOne | zyncoder.c:426-447 | a step-1 encoder moves by one at a detent; with a callback the value is handed over and cleared |
| Zyncoder.EncoderDetentOfStepZero | zyncoder.c:432-447 | a step-0 encoder records the detent time and moves by the acceleration factor |
| Zyncoder.ClockwiseDetentAddsOne | zyncoder.c:397-448 | one clockwise detent from rest adds one step |
| Zyncoder.CounterClockwiseDetentTakesOne | zyncoder.c:397-448 | one counter-clockwise detent from rest takes one step |
| Zyncoder.OffLevel | zyncoder.c:151-210 | the stored off state is 1 for any non-zero argument |
| Zyncoder.SwitchPinReadsOffLevel | zyncoder.c:151-210 | a switch pin just set up reads its off level |
| Zyncoder.NativeSwitchStartsAtRest | zyncoder.c:151-210 | a switch set up on an emulated pin is at its off level with no press pending |
| Zyncoder.EncoderPinsConfigured | zyncoder.c:450-533 | exactly the two emulated pins are configured for the encoder, each reading high |
| Zyncoder.NativeEncoderStartsAtRest | zyncoder.c:450-533 | an encoder on two emulated pins starts at rest with no transition |
| Zyncoder.ExpanderIndexAsWrittenAdmitsMissingChip | zyncoder.c:187-188 | as written the j >= 0 test passes for a pin no chip serves |
| Zyncoder.EncoderIsrGuardAsWrittenAdmitsMissingEncoder | zyncoder.c:595-600 | as written the guard admits indices past the encoder table |
| Zyncoder.RbpiSwitchIsrAsWrittenMissesHighSwitches | zyncoder.c:583-592 | as written there is no interrupt routine for some switch index setup_zynswitch accepts for a native pin |
| Zyncoder.SwitchPinRoutesToItsSwitch | zyncoder.c:174-179 | a native switch pin is given its own switch's routine, for every switch; for switches 0 to 7 it is the routine the source's table holds |
| Zyncoder.AppliedKeepsOthers | zynmcp23017.c:260-277 | applying updates leaves every switch and encoder they do not name as it was |
| Zyncoder.EncoderChip | zyncoder.c:483-485 | -1, or a chip that serves both pins |
| Zyncoder.Inputs.ResetSwitches | zyncoder.c:88-95 | every switch disabled and unbound from MIDI |
| Zyncoder.Inputs.GetNumSwitches | zyncoder.c:97-104 | the number of enabled switches, 0 exactly when none is |
| Zyncoder.Inputs.GetLastSwitchIndex | zyncoder.c:106-113 | the highest enabled index, 0 when none is |
| Zyncoder.Inputs.UpdateSwitch | zyncoder.c:115-149 | the switch's record and the queues are SwitchUpdate's, every other switch kept |
| Zyncoder.Inputs.SetupSwitch | zyncoder.c:151-210 | a native pin is configured, given its switch's interrupt routine (corrected for switches from 8 on) and read; an expander pin is bound on its chip; 0 for a bad index |
| Zyncoder.Inputs.SetupExpanderSwitch | zyncoder.c:184-198 | the pin bound on its chip and read once; corrected to refuse a pin no chip serves |
| Zyncoder.Inputs.SwitchIsr | zyncoder.c:568-573 | an enabled switch reads its native pin and updates; otherwise nothing changes |
| Zyncoder.Inputs.SetupSwitchMidi | zyncoder.c:212-241 | without ZYNAPTIK_CONFIG: the switch is bound to the message (which SwitchMidiByKind then sends), the rest kept; 0 for a bad index |
| Zyncoder.Inputs.GetSwitch | zyncoder.c:261-272 | 0 for a bad index; otherwise SwitchRead's value and record |
| Zyncoder.Inputs.GetNextPendingSwitch | zyncoder.c:274-280 | the least switch from i on with a press pending or unread, else -1 |
| Zyncoder.Inputs.ResetEncoders | zyncoder.c:376-386 | every encoder disabled, unlinked, cleared |
| Zyncoder.Inputs.GetNumEncoders | zyncoder.c:388-395 | the number of enabled encoders |
| Zyncoder.Inputs.UpdateEncoder | zyncoder.c:397-448 | the encoder's record is EncoderStep's, the others kept |
| Zyncoder.Inputs.SetupEncoder | zyncoder.c:450-533 | 0 and disabled for equal or mixed pins; otherwise configured, step 1 |
| Zyncoder.Inputs.SetupExpanderEncoder | zyncoder.c:481-521 | both pins bound on their shared chip; corrected to refuse pins no chip serves |
| Zyncoder.Inputs.EncoderIsr | zyncoder.c:595-600 | an enabled encoder reads both pins and updates; corrected guard against the encoder table |
| Zyncoder.Inputs.SetupBehaviourEncoder | zyncoder.c:535-549 | an enabled encoder gets step 0 or 1 and cleared histories |
| Zyncoder.Inputs.GetValueEncoder | zyncoder.c:551-561 | the accumulated value, read once; 0 for a bad or disabled encoder |
| Zyncoder.Inputs.ApplyDispatches | zynmcp23017.c:315-338 | the switches and encoders become Applied of the updates |
| Zyncoder.Inputs.Mcp23017Isr | zynmcp23017.c:281-339 | the chip's bank scan is taken and its updates applied in order |
| Zynpot.SetupIndexAsWrittenAdmitsPastEnd | zynpot.c:71 | as written the guard lets through the index one past the last slot |
| Zynpot.SlotAfterSetup | zynpot.c:75-90 | the slot takes type and index; a known type binds its backend and links the device, any other keeps both |
| Zynpot.UnknownKindAsWrittenCallsNull | zynpot.c:94-108 | as written a never-bound slot set up with an unknown type passes the guard and is called through a NULL pointer |
| Zynpot.Pots.Reset | zynpot.c:48-55 | every slot unused and unlinked, no callback, count 0 |
| Zynpot.Pots.GetNum | zynpot.c:57-64 | the number of slots in use, 0 exactly when none is |
| Zynpot.Pots.SetupCallback | zynpot.c:66-68 | the callback is stored |
| Zynpot.Pots.SetupZynpot | zynpot.c:70-92 | 1 exactly when the corrected guard accepts i; the slot takes type and index and an encoder slot links its encoder back; no change on 0 |
| Zynpot.Pots.SetupBehaviour | zynpot.c:94-100 | 0 for a bad or unused slot or one with no backend (corrected), otherwise the backend's behaviour set-up |
| Zynpot.Pots.GetValue | zynpot.c:102-108 | 0 for a bad or unused slot or one with no backend (corrected), otherwise the backend's value |

## Left out

- JACK itself: `init_jack_midi`, `jack_process`, the connection and buffer-size callbacks, and event delivery to JACK output buffers. A JACK ring buffer is its byte sequence with a fixed capacity; `zmop_push_event` returns the events it writes.
- `set_tuning_freq` (zynmidirouter.c:143-158) computes the tuning bend with floating-point `log`; the tuning bend is a plain value in the model.
- The `ui_send_*`, `zmop_send_*`, `ctrlfb_send_*` and `dev_send_*` functions and `write_zynmidi`/`read_zynmidi`: they queue the same encoder bytes and UI words as the modelled `zmip_send_*` and `write_zynmidi_*` encoders, on other buffers.
- The zmip controller-mode tables, `event_count`, `n_connections` and the per-port JACK buffers: only `jack_process` reads them.
- The SysEx loop of `populate_midi_event_from_rb` does not check the 4096-byte event buffer; the model's event holds any length.
- MidiRouter.Push: the tuning pitch bend after a note-on is written with the size of the note-on, as in the source; the model records that size beside the three bend bytes and does not model what JACK writes for a size other than 3.
- `zmop_get_routes_info_all` copies only the first MAX_NUM_ZMIPS output ports, because its loop is bounded by the number of input ports; modelled as written.
- Plain global getters (`get_active_chain`, `get_midi_learning_mode` and similar) that return one variable.
- Threads and polling loops: `gpiod_callbacks_thread`, `poll_zynswitches`, `zynaptik_poll_cvins`; their point is concurrency. The gpiod line requests and the thread start are parameters of `StartCallbacks`.
- The asynchronous delivery of signals in the GPIO emulation; the handler is an ordinary method. `mcp23008Setup`, `ads1115Setup` and `wiringPiFindNode` return constants and are not modelled.
- I2C register programming in `setup_zynmcp23017` and `setup_zynmcp23008`, the MCP4728/ADS1115 calls and the configuration branches of `init_zynaptik`; register readings are parameters.
- Floating-point CV scaling in zynaptik.c (`k_cvin`, `k_cvout`, the note-on CV), `zynaptik_set_cvout`, `zynaptik_refresh_cvouts` and `usleep`; the note-on CV is the parameter `noteCv`.
- `clock_gettime`: the time is a parameter.
- `lm4811_init`: gpiod line requests, then a volume reset and a set to 10, with no result on success; the reset and the set are modelled on their own.
- zynmcp23008.c's `zynmcp23008_read_pins` and `poll_zynswitches`: a register read and the polling thread; the read is the `rdata` parameter of `UpdatePolledSwitches`.
- zyncontrol_vx.c's `get_wiring_config` and `init_zyncontrol` only call the modelled parse, reset and init functions with fixed names and board-dependent compile-time branches.
- The RV112 pot backend: its value and behaviour set-up are parameters of `Zynpot.Pots.GetValue` and `SetupBehaviour`.
- Zynpot.Pots.SetupBehaviour: the 1 it returns for an enabled encoder stands for a result the source leaves indeterminate, because setup_behaviour_zyncoder (zyncoder.c:535-549) returns nothing.
- MidiFilter.EventMap.GetCcMap: requires a valid channel and controller, because the source dereferences the lookup unchecked (NULL for an invalid one).
- RouterPorts.Router.ZmipSendMidiEvent: requires the port to own a ring buffer (the source dereferences a NULL ring buffer otherwise); the same holds for the other `zmip_send_*` methods.
- RouterPorts.Router.ZmopSetCcRoute: requires the caller's table to hold 128 entries, as the source copies 128 unchecked.
- RouterPorts.Router.PushEvent: requires a note byte below 128 when the note stage applies and three bytes for a tuned pitch bend; the source reads them unchecked and indexes `note_transpose` by the raw note byte.
- WiringPiEmu.GpioEmu.SignalHandler: requires the signal to be one of the 2 * GPIO_MAX signals installed; the source checks only the whole real-time range and would index past the pin table.
- WiringConfig.ParseEnvar2IntArr: requires the value to fit the 128-byte copy and the limit to fit the result list, as the source copies and writes unchecked.
- Zynaptik.Zynaptik.MidiToCvout: requires that a CV/gate output's note names an existing switch (the source indexes the switch table unchecked); `AllGatesOff` likewise.
- Zynpot.Pots.SetupZynpot: requires an encoder index within the encoder table for an encoder backend, as the source writes to it unchecked.
- Zyncoder.Inputs.UpdateSwitch: requires a valid index, as the source's callers pass one and it does not check.
- Mcp23017.Mcp23017Table.SetupPinAction: requires the number to name an entry of the table the action updates, because the interrupt handler indexes that table unchecked.
- Mcp23008.Mcp23008Table.WritePin: requires a valid chip index, as the source indexes the table unchecked; so do `SetPinMode`, `SetPullUpDown`, `ReadPin` and `UpdatePolledSwitches`.
- Zynaptik.Zynaptik.SetupSwitchMidi: `pinMode(pin, OUTPUT)` on the switch pin is left out, like the other expander register programming; the off-level write is returned as a pin write.
- Zynaptik.Zynaptik.SetupCvIn: requires a valid slot index, as the source does not check it; so do the other set-up, disable and CV-input methods of `Zynaptik`.

## Findings

| source | as written | input that shows it | evidently intended | confidence | as-written member | corrected member |
|---|---|---|---|---|---|---|
| zynpot.c:71 | the guard refuses only indices above MAX_NUM_ZYNPOTS (also zynpot.c:95) | i = 4 writes the slot one past the 4-slot table | refuse i >= MAX_NUM_ZYNPOTS, as get_value_zynpot does | not executed | Zynpot.SetupIndexAsWrittenAdmitsPastEnd | Zynpot.Pots.SetupZynpot |
| zyncoder.c:187-188 | the chip index is stored in a uint8_t, so the test for a non-negative index always passes | a switch on pin 200 when no chip serves it: -1 becomes 255 and chip 255 is indexed | give up (return 0) when no chip serves the pin | not executed | Zyncoder.ExpanderIndexAsWrittenAdmitsMissingChip | Zyncoder.Inputs.SetupExpanderSwitch |
| zyncoder.c:483-485 | the same unsigned test on both encoder pins | an encoder on pins 200 and 201 with no chip: both indices read 255 and pass | give up when no chip serves the pins | not executed | Zyncoder.ExpanderIndexAsWrittenAdmitsMissingChip | Zyncoder.Inputs.SetupExpanderEncoder |
| zyncoder.c:596 | the encoder interrupt checks its index against the switch table size (36) | index 4 passes and reads past the 4-entry encoder table | check against MAX_NUM_ZYNCODERS | not executed | Zyncoder.EncoderIsrGuardAsWrittenAdmitsMissingEncoder | Zyncoder.Inputs.EncoderIsr |
| zyncoder.c:178 | a native switch pin gets `zynswitch_rbpi_ISRs[i]` for any index below 36, but the table (zyncoder.c:583) has 8 entries | a switch 8 on native pin 5: the routine pointer is read past the table | one interrupt routine per switch | not executed | Zyncoder.RbpiSwitchIsrAsWrittenMissesHighSwitches | Zyncoder.Inputs.SetupSwitch |
| zynpot.c:107 | a slot in use whose type bound no backend is called through its NULL `get_value` pointer | setup_zynpot(0, 7, 0) on a fresh table, then get_value_zynpot(0) | answer 0, as for an unused slot | not executed | Zynpot.UnknownKindAsWrittenCallsNull | Zynpot.Pots.GetValue |
| zynpot.c:99 | the same through the NULL `setup_behaviour` pointer | setup_zynpot(0, 7, 0) on a fresh table, then setup_behaviour_zynpot(0, 1) | answer 0, as for an unused slot | not executed | Zynpot.UnknownKindAsWrittenCallsNull | Zynpot.Pots.SetupBehaviour |
| zyncoder.c:231 | the CV slot set up for a CV/gate switch is its `midi_num`, which zynaptik_setup_cvout (zynaptik.c:188-209) writes unchecked | setup_zynswitch_midi(0, CVGATE_OUT_EVENT, 0, 4, 0) writes slot 4 of the 4-slot CV table | set up no CV output for a slot past the table | not executed | Zynaptik.SwitchCvSlotAsWrittenPastTable | Zynaptik.Zynaptik.SetupSwitchMidi |
| zynmidirouter.c:1162-1186 | 0xFE and 0xFF match no case and keep the size 3 | 0xFE queued before a note-on: the Active Sensing event takes the note-on's first two bytes | one byte, as Table I of the MIDI 1.0 Detailed Specification says | not executed | MidiCodec.EventSizeAsWrittenMissesActiveSenseAndReset | MidiCodec.EventSize |
| zynmidirouter.c:1149-1157 | the end of a SysEx is looked for only among the bytes read after the first three | F0 7D F7 followed by a note-on: the SysEx runs on through the note-on | also accept 0xF7 as the third byte | not executed | MidiCodec.SysExEndAsWrittenMissesShortMessage | RouterPorts.PopulateEventFromRb |
| zynaptik.c:265-266 | a channel-pressure CV is taken from `buffer[2]`, the byte after this two-byte JACK event, whose value is unspecified | D0 40 (pressure 64) followed by a 0 byte sets the CV to 0 | take the pressure from the second byte | not executed | Zynaptik.ChanPressAsWrittenIgnoresPressure | Zynaptik.ChanPressSetsCv |
| zyncontrol_vx.c:132 | every value below 100 is looked up in the 32-entry wpi2gpio table | a list entry of 40, or of -1, reads outside the table | remap wiringPi pins 0..31 only and store no pin (-1) for other values below 100 | not executed | WiringConfig.RemapAsWrittenLeavesTable | WiringConfig.StoredPin |
| zynmidirouter.c:1801-1802 | the port's channel is stored in a uint8_t, so the test for "no channel" never holds | a chain port without a channel (-1) gets its note-offs with status 0x8F, on channel 16 | channel 0, as zmip_send_all_notes_off uses | not executed | MidiRouter.ChainOffChanAsWrittenMissesNoChannel | RouterPorts.Router.ZmipSendAllNotesOffChain |
