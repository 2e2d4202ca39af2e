// The MCP23008 8-pin I2C port expanders of the legacy boards: the chip
// table, the read-modify-write of the direction, pull-up and output
// registers, pin reads, and the polling of the switches wired to them.
//
// The I2C bus is outside the model: a register reading is a parameter and
// a register write is the value a method returns.
module Mcp23008 {
  import opened CTypes
  import opened Limits
  import opened MidiCodec
  import opened Zyncoder

  const MAX_NUM_MCP23008: nat := 4

  /** `PIN_MODE_OUTPUT`; any other mode is input. */
  const PIN_MODE_OUTPUT: byte := 0
  /** `PIN_PUD_DOWN`; any other pull is up. */
  const PIN_PUD_DOWN: byte := 0

  /** Switches on pins from here on are polled on the expander. */
  const POLLED_PIN_BASE: nat := 100

  /** One entry of `zynmcp23008s`. */
  datatype Chip = Chip(enabled: bool, fd: int32, basePin: uint16, i2cAddress: byte, outputState: byte)

  const ZeroChip := Chip(false, 0, 0, 0, 0)

  /** The chip serves the pin. */
  predicate Covers(c: Chip, pin: int) {
    c.enabled && c.basePin <= pin < c.basePin + 8
  }

  /** The first chip from `from` on that serves the pin, -1 if none does. */
  function ChipIndexFrom(cs: seq<Chip>, pin: int, from: nat): (r: int)
    ensures r == -1 || from <= r < |cs|
    decreases |cs| - from
  {
    if from >= |cs| then -1
    else if Covers(cs[from], pin) then from
    else ChipIndexFrom(cs, pin, from + 1)
  }

  function ChipIndex(cs: seq<Chip>, pin: int): int {
    ChipIndexFrom(cs, pin, 0)
  }

  lemma {:induction false} ChipIndexFromIsFirst(cs: seq<Chip>, pin: int, from: nat)
    ensures var r := ChipIndexFrom(cs, pin, from);
      && (r == -1 <==> forall k :: from <= k < |cs| ==> !Covers(cs[k], pin))
      && (r >= 0 ==> Covers(cs[r], pin) && forall k :: from <= k < r ==> !Covers(cs[k], pin))
    decreases |cs| - from
  {
    if from < |cs| && !Covers(cs[from], pin) {
      ChipIndexFromIsFirst(cs, pin, from + 1);
    }
  }

  /**
   * The bit of a pin in its chip's 8-bit registers, `(pin - base_pin) & 7`.
   * The difference is taken in `int`, where `& 7` of a negative value is
   * its remainder modulo 8.
   */
  function PinBit(c: Chip, pin: uint16): (b: nat)
    ensures b < 8
    ensures Covers(c, pin) ==> b == pin - c.basePin
  {
    (pin - c.basePin) % 8
  }

  /** r is x with bit n set to v and every other one of its 8 bits kept. */
  predicate BitWritten(x: byte, r: int, n: nat, v: nat) {
    0 <= r < 0x100 && forall m :: 0 <= m < 8 ==> BitRead(r, m) == if m == n then v else BitRead(x, m)
  }

  /** `bitvalue ? x | mask : x & ~mask` on an 8-bit register, mask `1 << n`. */
  function WithBit(x: byte, n: nat, on: bool): (r: byte)
    requires n < 8
    ensures BitWritten(x, r, n, if on then 1 else 0)
  {
    assert Pow2(8) == 0x100;
    BitOpsStayNarrow(x, x, 8, n);
    forall m | 0 <= m < 8
      ensures BitRead(BitSet(x, n), m) == if m == n then 1 else BitRead(x, m)
      ensures BitRead(BitClear(x, n), m) == if m == n then 0 else BitRead(x, m)
    {
      BitSetBits(x, n, m);
      BitClearBits(x, n, m);
    }
    if on then BitSet(x, n) else BitClear(x, n)
  }

  /** Bits 0..7 determine a byte. */
  lemma {:induction false} BitsDetermineByte(x: nat, y: nat, n: nat)
    requires x < Pow2(n) && y < Pow2(n)
    requires forall m :: 0 <= m < n ==> BitRead(x, m) == BitRead(y, m)
    ensures x == y
  {
    if n > 0 {
      assert BitRead(x, 0) == BitRead(y, 0);
      forall m | 0 <= m < n - 1 ensures BitRead(x / 2, m) == BitRead(y / 2, m) {
        assert BitRead(x, m + 1) == BitRead(y, m + 1);
      }
      BitsDetermineByte(x / 2, y / 2, n - 1);
    }
  }

  /** Writing back the bit a register already holds leaves it as it was. */
  lemma WithBitKeeps(x: byte, n: nat, on: bool)
    requires n < 8 && BitRead(x, n) == (if on then 1 else 0)
    ensures WithBit(x, n, on) == x
  {
    assert Pow2(8) == 0x100;
    BitsDetermineByte(WithBit(x, n, on), x, 8);
  }

  /** Writing bit n twice keeps only the second write. */
  lemma WithBitLastWins(x: byte, n: nat, a: bool, b: bool)
    requires n < 8
    ensures WithBit(WithBit(x, n, a), n, b) == WithBit(x, n, b)
  {
    assert Pow2(8) == 0x100;
    BitsDetermineByte(WithBit(WithBit(x, n, a), n, b), WithBit(x, n, b), 8);
  }

  /**
   * The level a polled switch reads: bit `(uint8_t)(pin - base_pin)` of
   * the GPIO register, or 0 when that is not one of its 8 bits.
   */
  function PolledLevel(pin: uint16, basePin: uint16, rdata: byte): (r: byte)
    ensures r <= 1
    ensures basePin <= pin < basePin + 8 ==> r == BitRead(rdata, pin - basePin)
    ensures !(0 <= ToUint8(pin - basePin) < 8) ==> r == 0
  {
    var bit := ToUint8(pin - basePin);
    if bit < 8 then BitRead(rdata, bit) else 0
  }

  /**
   * One polled switch whose level changed: its new status, the MIDI it
   * sends, and whether the poll ends here.  A rise to 1 ends a pending
   * press: the press is forgotten, and its duration is stored unless it
   * is shorter than DEBOUNCE_US, in which case the poll returns.  A fall
   * to 0 starts a press.  The press flag is never set.
   */
  function PollSwitch(s: Switch, status: byte, env: Env): (r: (Switch, seq<Emitted>, bool))
    ensures r.0.status == status && r.0.push == s.push && r.0.enabled == s.enabled && r.0.pin == s.pin
    ensures r.1 == SendSwitchMidi(s.(status := status), env).1
    ensures r.2 <==> status == 1 && s.tsus > 0 && ToUint32(env.now - s.tsus) < DEBOUNCE_US
    ensures status != 1 ==> r.0.tsus == env.now && r.0.dtus == s.dtus
    ensures status == 1 && s.tsus == 0 ==> r.0.tsus == 0 && r.0.dtus == s.dtus
    ensures status == 1 && s.tsus > 0 ==>
      r.0.tsus == 0 && r.0.dtus == if r.2 then s.dtus else ToUint32(env.now - s.tsus)
  {
    var sm := SendSwitchMidi(s.(status := status), env);
    var s1 := sm.0;
    if status == 1 then
      if s1.tsus > 0 then
        var dtus := ToUint32(env.now - s1.tsus);
        if dtus < DEBOUNCE_US then (s1.(tsus := 0), sm.1, true)
        else (s1.(tsus := 0, dtus := dtus), sm.1, false)
      else (s1, sm.1, false)
    else (s1.(tsus := env.now), sm.1, false)
  }

  /** The switch is left to the poll: enabled and on an expander pin. */
  predicate Polled(s: Switch) {
    s.enabled && s.pin >= POLLED_PIN_BASE
  }

  /**
   * update_polled_zynswitches from switch j on: the switch table and the
   * MIDI queue (appended to `acc`) after the walk, which stops early at a
   * spurious tick.
   */
  function PolledFrom(sw: seq<Switch>, j: nat, basePin: uint16, rdata: byte, env: Env, acc: seq<Emitted>)
    : (r: (seq<Switch>, seq<Emitted>))
    ensures |r.0| == |sw|
    decreases |sw| - j
  {
    if j >= |sw| then (sw, acc)
    else if !Polled(sw[j]) then PolledFrom(sw, j + 1, basePin, rdata, env, acc)
    else
      var status := PolledLevel(sw[j].pin, basePin, rdata);
      if status == sw[j].status then PolledFrom(sw, j + 1, basePin, rdata, env, acc)
      else
        var p := PollSwitch(sw[j], status, env);
        if p.2 then (sw[j := p.0], acc + p.1)
        else PolledFrom(sw[j := p.0], j + 1, basePin, rdata, env, acc + p.1)
  }

  /** A switch before j, or one the poll skips (not polled, or its level unchanged), keeps its record. */
  lemma {:induction false} PolledKeepsSkipped(sw: seq<Switch>, j: nat, basePin: uint16, rdata: byte, env: Env,
                                              acc: seq<Emitted>, k: nat)
    requires k < |sw|
    requires k < j || !Polled(sw[k]) || PolledLevel(sw[k].pin, basePin, rdata) == sw[k].status
    ensures PolledFrom(sw, j, basePin, rdata, env, acc).0[k] == sw[k]
    decreases |sw| - j
  {
    if j < |sw| && Polled(sw[j]) {
      var status := PolledLevel(sw[j].pin, basePin, rdata);
      if status == sw[j].status {
        PolledKeepsSkipped(sw, j + 1, basePin, rdata, env, acc, k);
      } else {
        var p := PollSwitch(sw[j], status, env);
        if !p.2 {
          PolledKeepsSkipped(sw[j := p.0], j + 1, basePin, rdata, env, acc + p.1, k);
        }
      }
    } else if j < |sw| {
      PolledKeepsSkipped(sw, j + 1, basePin, rdata, env, acc, k);
    }
  }

  /** A polled switch whose level changed, and whose update ends the poll. */
  predicate BouncesAt(sw: seq<Switch>, k: nat, basePin: uint16, rdata: byte, env: Env)
    requires k < |sw|
  {
    var status := PolledLevel(sw[k].pin, basePin, rdata);
    Polled(sw[k]) && status != sw[k].status && PollSwitch(sw[k], status, env).2
  }

  /** Once a switch bounces, every switch after it keeps its record and sends nothing. */
  lemma {:induction false} PolledStopsAtBounce(sw: seq<Switch>, j: nat, basePin: uint16, rdata: byte, env: Env,
                                               acc: seq<Emitted>, k: nat)
    requires j <= k < |sw| && BouncesAt(sw, k, basePin, rdata, env)
    ensures var r := PolledFrom(sw, j, basePin, rdata, env, acc);
      forall m :: k < m < |sw| ==> r.0[m] == sw[m]
    decreases |sw| - j
  {
    if Polled(sw[j]) {
      var status := PolledLevel(sw[j].pin, basePin, rdata);
      if status == sw[j].status {
        PolledStopsAtBounce(sw, j + 1, basePin, rdata, env, acc, k);
      } else {
        var p := PollSwitch(sw[j], status, env);
        if !p.2 {
          assert j < k;
          PolledStopsAtBounce(sw[j := p.0], j + 1, basePin, rdata, env, acc + p.1, k);
        }
      }
    } else {
      PolledStopsAtBounce(sw, j + 1, basePin, rdata, env, acc, k);
    }
  }

  /** No polled switch from j up to k ends the poll. */
  predicate NoBounceBetween(sw: seq<Switch>, j: nat, k: nat, basePin: uint16, rdata: byte, env: Env)
    requires k <= |sw|
  {
    forall m :: j <= m < k ==> !BouncesAt(sw, m, basePin, rdata, env)
  }

  /**
   * A polled switch whose level changed, reached before any bounce, takes
   * the record PollSwitch gives it: the other direction of
   * PolledKeepsSkipped.
   */
  lemma {:induction false} PolledTakesPoll(sw: seq<Switch>, j: nat, basePin: uint16, rdata: byte, env: Env,
                                           acc: seq<Emitted>, k: nat)
    requires j <= k < |sw| && Polled(sw[k]) && PolledLevel(sw[k].pin, basePin, rdata) != sw[k].status
    requires NoBounceBetween(sw, j, k, basePin, rdata, env)
    ensures PolledFrom(sw, j, basePin, rdata, env, acc).0[k] == PollSwitch(sw[k], PolledLevel(sw[k].pin, basePin, rdata), env).0
    decreases |sw| - j
  {
    var status := PolledLevel(sw[j].pin, basePin, rdata);
    if j == k {
      var p := PollSwitch(sw[k], status, env);
      if !p.2 {
        PolledKeepsSkipped(sw[k := p.0], k + 1, basePin, rdata, env, acc + p.1, k);
      }
    } else if !Polled(sw[j]) || status == sw[j].status {
      PolledTakesPoll(sw, j + 1, basePin, rdata, env, acc, k);
    } else {
      var p := PollSwitch(sw[j], status, env);
      assert !BouncesAt(sw, j, basePin, rdata, env);
      var sw' := sw[j := p.0];
      forall m | j + 1 <= m < k
        ensures !BouncesAt(sw', m, basePin, rdata, env)
      {
        assert sw'[m] == sw[m];
        assert !BouncesAt(sw, m, basePin, rdata, env);
      }
      PolledTakesPoll(sw', j + 1, basePin, rdata, env, acc + p.1, k);
    }
  }

  /** The poll only appends to the MIDI queue. */
  lemma {:induction false} PolledAppends(sw: seq<Switch>, j: nat, basePin: uint16, rdata: byte, env: Env, acc: seq<Emitted>)
    ensures var r := PolledFrom(sw, j, basePin, rdata, env, acc);
      |acc| <= |r.1| && r.1[..|acc|] == acc
    decreases |sw| - j
  {
    if j < |sw| {
      if !Polled(sw[j]) || PolledLevel(sw[j].pin, basePin, rdata) == sw[j].status {
        PolledAppends(sw, j + 1, basePin, rdata, env, acc);
      } else {
        var p := PollSwitch(sw[j], PolledLevel(sw[j].pin, basePin, rdata), env);
        if !p.2 {
          PolledAppends(sw[j := p.0], j + 1, basePin, rdata, env, acc + p.1);
          assert (acc + p.1)[..|acc|] == acc;
        }
      }
    }
  }

  class Mcp23008Table {
    /** `zynmcp23008s` */
    var chips: array<Chip>

    ghost predicate Valid()
      reads this
    {
      chips.Length == MAX_NUM_MCP23008
    }

    constructor ()
      ensures Valid() && fresh(chips)
      ensures forall i :: 0 <= i < MAX_NUM_MCP23008 ==> chips[i] == ZeroChip
    {
      chips := new Chip[MAX_NUM_MCP23008](_ => ZeroChip);
    }

    /** reset_zynmcp23008s: every chip disabled, its descriptor zeroed; the rest of each entry kept. */
    method Reset()
      requires Valid()
      modifies chips
      ensures Valid()
      ensures forall i :: 0 <= i < MAX_NUM_MCP23008 ==> chips[i] == old(chips[i]).(fd := 0, enabled := false)
    {
      for i := 0 to MAX_NUM_MCP23008
        invariant forall k :: 0 <= k < i ==> chips[k] == old(chips[k]).(fd := 0, enabled := false)
        invariant forall k :: i <= k < MAX_NUM_MCP23008 ==> chips[k] == old(chips[k])
      {
        chips[i] := chips[i].(fd := 0, enabled := false);
      }
    }

    /**
     * The data-structure part of setup_zynmcp23008.  `fd` is what
     * wiringPiI2CSetup returns and `olat` the OLAT reading, which becomes
     * the output state.
     */
    method Setup(i: byte, basePin: uint16, i2cAddress: byte, fd: int32, olat: byte) returns (r: int)
      requires Valid()
      modifies chips
      ensures Valid()
      ensures r == if i < MAX_NUM_MCP23008 && fd >= 0 then 1 else 0
      ensures chips[..] == if r == 1 then old(chips[..])[i := Chip(true, fd, basePin, i2cAddress, olat)] else old(chips[..])
    {
      if i >= MAX_NUM_MCP23008 {
        return 0;
      }
      if fd < 0 {
        return 0;
      }
      chips[i] := Chip(true, fd, basePin, i2cAddress, olat);
      return 1;
    }

    /**
     * zynmcp23008_get_last_index: the highest enabled index, -1 when none
     * is (the `uint8_t` 255 the loop starts from, returned as `int8_t`).
     */
    method GetLastIndex() returns (li: int)
      requires Valid()
      ensures -1 <= li < MAX_NUM_MCP23008
      ensures li == -1 <==> forall k :: 0 <= k < MAX_NUM_MCP23008 ==> !chips[k].enabled
      ensures li >= 0 ==> chips[li].enabled
      ensures forall k :: li < k < MAX_NUM_MCP23008 ==> !chips[k].enabled
    {
      var u: byte := ToUint8(-1);
      for i := 0 to MAX_NUM_MCP23008
        invariant u == 255 || u < i
        invariant u != 255 ==> chips[u].enabled
        invariant forall k :: (if u == 255 then 0 else u + 1) <= k < i ==> !chips[k].enabled
      {
        if chips[i].enabled {
          u := i;
        }
      }
      li := ToInt8(u);
    }

    /** zynmcp23008_pin2index */
    method Pin2Index(pin: uint16) returns (r: int)
      requires Valid()
      ensures r == ChipIndex(chips[..], pin)
      ensures -1 <= r < MAX_NUM_MCP23008
      ensures r == -1 <==> forall k :: 0 <= k < MAX_NUM_MCP23008 ==> !Covers(chips[k], pin)
      ensures r >= 0 ==> Covers(chips[r], pin) && forall k :: 0 <= k < r ==> !Covers(chips[k], pin)
    {
      ChipIndexFromIsFirst(chips[..], pin, 0);
      for i := 0 to MAX_NUM_MCP23008
        invariant ChipIndexFrom(chips[..], pin, i) == ChipIndex(chips[..], pin)
      {
        if chips[i].enabled {
          if pin >= chips[i].basePin && pin < chips[i].basePin + 8 {
            return i;
          }
        }
      }
      return -1;
    }

    /**
     * zynmcp23008_set_pin_mode: the IODIR value written back, given the
     * value read.  The pin's bit is cleared for output and set for any
     * other mode; the other pins keep their direction.
     */
    method SetPinMode(i: byte, pin: uint16, mode: byte, iodir: byte) returns (written: byte)
      requires Valid() && i < MAX_NUM_MCP23008
      ensures BitWritten(iodir, written, PinBit(chips[i], pin), if mode == PIN_MODE_OUTPUT then 0 else 1)
    {
      var bit := PinBit(chips[i], pin);
      written := WithBit(iodir, bit, mode != PIN_MODE_OUTPUT);
    }

    /**
     * zynmcp23008_set_pull_up_down: the GPPU value written back, given the
     * value read.  The pin's bit is cleared for a pull-down and set for
     * any other pull; the other pins keep theirs.
     */
    method SetPullUpDown(i: byte, pin: uint16, mode: byte, gppu: byte) returns (written: byte)
      requires Valid() && i < MAX_NUM_MCP23008
      ensures BitWritten(gppu, written, PinBit(chips[i], pin), if mode == PIN_PUD_DOWN then 0 else 1)
    {
      var bit := PinBit(chips[i], pin);
      written := WithBit(gppu, bit, mode != PIN_PUD_DOWN);
    }

    /**
     * zynmcp23008_write_pin: the pin's bit of the output state becomes
     * `val != 0`, the other pins keep their output, and the new output
     * state is what is written to the GPIO register.
     */
    method WritePin(i: byte, pin: uint16, val: byte) returns (written: byte)
      requires Valid() && i < MAX_NUM_MCP23008
      modifies chips
      ensures Valid()
      ensures BitWritten(old(chips[i]).outputState, written, PinBit(old(chips[i]), pin), if val == 0 then 0 else 1)
      ensures chips[..] == old(chips[..])[i := old(chips[i]).(outputState := written)]
    {
      var bit := PinBit(chips[i], pin);
      written := WithBit(chips[i].outputState, bit, val != 0);
      chips[i] := chips[i].(outputState := written);
    }

    /** zynmcp23008_read_pin: 1 exactly when the pin's bit is set in the GPIO reading. */
    method ReadPin(i: byte, pin: uint16, gpio: byte) returns (r: byte)
      requires Valid() && i < MAX_NUM_MCP23008
      ensures r == BitRead(gpio, PinBit(chips[i], pin))
      ensures r == 1 || r == 0
    {
      var bit := PinBit(chips[i], pin);
      r := BitRead(gpio, bit);
    }
  }

  /**
   * The body of update_polled_zynswitches for one switch whose level
   * changed: its new record, the MIDI it sends, and whether the poll
   * returns here.
   */
  method PollChangedSwitch(s: Switch, status: byte, env: Env) returns (s1: Switch, out: seq<Emitted>, stop: bool)
    ensures (s1, out, stop) == PollSwitch(s, status, env)
  {
    s1, out := SendSwitchMidi(s.(status := status), env).0, SendSwitchMidi(s.(status := status), env).1;
    stop := false;
    if status == 1 {
      if s1.tsus > 0 {
        var dtus := ToUint32(env.now - s1.tsus);
        s1 := s1.(tsus := 0);
        if dtus < DEBOUNCE_US {
          stop := true;
          return;
        }
        s1 := s1.(dtus := dtus);
      }
    } else {
      s1 := s1.(tsus := env.now);
    }
  }

  /**
   * update_polled_zynswitches on chip i, given the GPIO reading `rdata`:
   * the switch table and the MIDI queue become what PolledFrom computes.
   */
  method UpdatePolledSwitches(mcp: Mcp23008Table, i: int, rdata: byte, env: Env, inputs: Inputs)
    requires mcp.Valid() && inputs.Valid() && 0 <= i < MAX_NUM_MCP23008
    modifies inputs.switches, inputs`sent
    ensures var r := PolledFrom(old(inputs.switches[..]), 0, mcp.chips[i].basePin, rdata, env, old(inputs.sent));
      inputs.switches[..] == r.0 && inputs.sent == r.1
  {
    var basePin := mcp.chips[i].basePin;
    var j := 0;
    while j < MAX_NUM_ZYNSWITCHES
      invariant 0 <= j <= MAX_NUM_ZYNSWITCHES
      invariant PolledFrom(inputs.switches[..], j, basePin, rdata, env, inputs.sent)
             == PolledFrom(old(inputs.switches[..]), 0, basePin, rdata, env, old(inputs.sent))
    {
      ghost var sw := inputs.switches[..];
      var s := inputs.switches[j];
      if !s.enabled || s.pin < 100 {
        j := j + 1;
        continue;
      }
      var bit := ToUint8(s.pin - basePin);
      var status: byte;
      if bit < 8 {
        status := BitRead(rdata, bit);
      } else {
        status := 0;
      }
      assert status == PolledLevel(s.pin, basePin, rdata);
      if status == s.status {
        j := j + 1;
        continue;
      }
      var s1, out, stop := PollChangedSwitch(s, status, env);
      inputs.sent := inputs.sent + out;
      inputs.switches[j] := s1;
      assert inputs.switches[..] == sw[j := s1];
      if stop {
        return;
      }
      j := j + 1;
    }
  }
}
