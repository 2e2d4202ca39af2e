// The MCP23017 16-pin I2C port expanders: the chip table, the per-pin
// action table that tells the interrupt handler which switch or encoder a
// pin belongs to, pin reads, and the bank interrupt handler.
//
// The handler only computes here: it returns the switch and encoder updates
// it would make, in order, and the Zyncoder module applies them.  The
// updates never touch the chip table, so computing them first and
// applying them afterwards is the same as interleaving the two.
module Mcp23017 {
  import opened CTypes
  import opened Limits
  import opened GpiodCallback

  const MAX_NUM_MCP23017: nat := 4

  datatype PinAction = NoAction | SwitchAction | EncoderAction

  /** One entry of `zynmcp23017s`.  `lastState` holds bank A in its low byte, bank B in its high byte. */
  datatype Chip = Chip(
    enabled: bool,
    fd: int32,
    basePin: uint16,
    i2cAddress: byte,
    intAPin: byte,
    intBPin: byte,
    lastState: uint16,
    pinAction: seq<PinAction>,
    pinActionNum: seq<uint16>)

  /** A chip entry as zero-initialised static storage holds it. */
  const ZeroChip := Chip(false, 0, 0, 0, 0, 0, 0, seq(16, _ => NoAction), seq(16, _ => 0))

  /** An action number names an entry of the table the action updates. */
  predicate ActionFits(a: PinAction, num: int) {
    && (a == SwitchAction ==> num < MAX_NUM_ZYNSWITCHES)
    && (a == EncoderAction ==> num < MAX_NUM_ZYNCODERS)
  }

  predicate WellFormed(c: Chip) {
    && |c.pinAction| == 16
    && |c.pinActionNum| == 16
    && forall p :: 0 <= p < 16 ==> ActionFits(c.pinAction[p], c.pinActionNum[p])
  }

  /** The chip serves the pin. */
  predicate Covers(c: Chip, pin: int) {
    c.enabled && c.basePin <= pin < c.basePin + 16
  }

  function LowByte(x: uint16): byte { x % 0x100 }
  function HighByte(x: uint16): byte { x / 0x100 }

  /** `(s & 0xFF00) | a` */
  function MergeBankA(s: uint16, a: byte): uint16 { HighByte(s) * 0x100 + a }
  /** `(s & 0x00FF) | (b << 8)` */
  function MergeBankB(s: uint16, b: byte): uint16 { b * 0x100 + LowByte(s) }

  /** Storing one bank's reading keeps the other bank's last state. */
  lemma MergeKeepsOtherBank(s: uint16, v: byte)
    ensures LowByte(MergeBankA(s, v)) == v && HighByte(MergeBankA(s, v)) == HighByte(s)
    ensures HighByte(MergeBankB(s, v)) == v && LowByte(MergeBankB(s, v)) == LowByte(s)
  {
  }

  /** The index of the first enabled chip at or after `from` that serves `pin`, or -1. */
  function ChipIndexFrom(cs: seq<Chip>, pin: int, from: nat): (r: int)
    ensures r == -1 || from <= r < |cs|
    decreases |cs| - from
  {
    if from >= |cs| then -1
    else if Covers(cs[from], pin) then from
    else ChipIndexFrom(cs, pin, from + 1)
  }

  function ChipIndex(cs: seq<Chip>, pin: int): int {
    ChipIndexFrom(cs, pin, 0)
  }

  lemma {:induction false} ChipIndexFromIsFirst(cs: seq<Chip>, pin: int, from: nat)
    requires from <= |cs|
    ensures var r := ChipIndexFrom(cs, pin, from);
      && (r == -1 <==> forall k :: from <= k < |cs| ==> !Covers(cs[k], pin))
      && (r >= 0 ==> Covers(cs[r], pin) && forall k :: from <= k < r ==> !Covers(cs[k], pin))
    decreases |cs| - from
  {
    if from < |cs| && !Covers(cs[from], pin) {
      ChipIndexFromIsFirst(cs, pin, from + 1);
    }
  }

  /** `pin2index_zynmcp23017` finds the first enabled chip whose 16 pins include `pin`. */
  lemma ChipIndexIsFirstCovering(cs: seq<Chip>, pin: int)
    ensures var r := ChipIndex(cs, pin);
      && (r == -1 <==> forall k :: 0 <= k < |cs| ==> !Covers(cs[k], pin))
      && (r >= 0 ==> r < |cs| && Covers(cs[r], pin) && forall k :: 0 <= k < r ==> !Covers(cs[k], pin))
  {
    ChipIndexFromIsFirst(cs, pin, 0);
  }

  /** Replacing a chip entry by one with the same enablement and base pin keeps every pin's chip. */
  lemma {:induction false} ChipIndexFromKept(cs: seq<Chip>, i: nat, c: Chip, pin: int, from: nat)
    requires i < |cs| && c.enabled == cs[i].enabled && c.basePin == cs[i].basePin
    ensures ChipIndexFrom(cs[i := c], pin, from) == ChipIndexFrom(cs, pin, from)
    decreases |cs| - from
  {
    if from < |cs| {
      ChipIndexFromKept(cs, i, c, pin, from + 1);
    }
  }

  /** Replacing a chip entry by one with the same enablement and base pin keeps every pin's chip. */
  lemma ChipIndexKept(cs: seq<Chip>, i: nat, c: Chip)
    requires i < |cs| && c.enabled == cs[i].enabled && c.basePin == cs[i].basePin
    ensures forall p :: ChipIndex(cs[i := c], p) == ChipIndex(cs, p)
  {
    forall p {
      ChipIndexFromKept(cs, i, c, p, 0);
    }
  }

  /** The callback table after registering `cb` on `line`, as gpiod_line_register_callback leaves it. */
  function Registered(t: seq<CallbackEntry>, line: Line, cb: LineCallback): seq<CallbackEntry>
    requires line.offset < |t|
  {
    t[line.offset := CallbackEntry(line.offset, Some(line), Some(cb))]
  }

  /*
   * The interrupt scan.  `r` is what is left of `rdiff` after `j` shifts;
   * `swPins` and `encPins` are the pins the switch and encoder tables hold.
   */

  /** `bit_a = pin - (base_pin + pin_offset)`, stored in a `uint8_t`. */
  function BankPosition(pin: int, c: Chip, offset: nat): byte {
    ToUint8(pin - (c.basePin + offset))
  }

  lemma BankPositionOfPin(c: Chip, offset: nat, q: nat)
    requires q < 8
    ensures BankPosition(c.basePin + offset + q, c, offset) == q
  {
  }

  /** A chip pin other than bank position `pos` is not at that bank position. */
  lemma BankPositionOther(c: Chip, offset: nat, pin: int, pos: nat)
    requires offset <= 8 && pos < 8 && c.basePin <= pin < c.basePin + 16 && pin != c.basePin + offset + pos
    ensures BankPosition(pin, c, offset) != pos
  {
  }

  /** `rdiff &= ~(1 << p') >> j` with p = p' - j: bit p cleared when p is a position of rdiff. */
  function ClearShifted(r: nat, p: int): (x: nat)
    ensures x <= r
  {
    if p < 0 then r else BitClearBits(r, p, 0); BitClear(r, p)
  }

  /** Both bits of an encoder cleared from rdiff (each only when it is a position of rdiff). */
  function ClearPair(r: nat, a: int, b: int): (x: nat)
    ensures x <= r
  {
    ClearShifted(ClearShifted(r, a), b)
  }

  lemma ClearPairBits(r: nat, a: int, b: int, q: nat)
    ensures BitRead(ClearPair(r, a, b), q) == if q == a || q == b then 0 else BitRead(r, q)
  {
    if a >= 0 { BitClearBits(r, a, q); }
    if b >= 0 { BitClearBits(ClearShifted(r, a), b, q); }
  }

  datatype Dispatch =
    | SwitchUpdate(switch: nat, status: byte)
    | EncoderUpdate(encoder: nat, msb: byte, lsb: byte)

  predicate ScanArgs(c: Chip, offset: nat, swPins: seq<int>, encPins: seq<(int, int)>) {
    WellFormed(c) && offset <= 8 && |swPins| == MAX_NUM_ZYNSWITCHES && |encPins| == MAX_NUM_ZYNCODERS
  }

  /** The updates the `while (rdiff != 0)` loop of zynmcp23017_ISR makes, from position j on. */
  function Scan(c: Chip, offset: nat, reg: byte, r: nat, j: nat, swPins: seq<int>, encPins: seq<(int, int)>)
    : seq<Dispatch>
    requires ScanArgs(c, offset, swPins, encPins)
    decreases 8 - j
  {
    if r == 0 || j >= 8 then []
    else
      ScanStep(c, offset, reg, r, j, swPins, encPins)
        + Scan(c, offset, reg, ScanRest(c, offset, r, j, swPins, encPins), j + 1, swPins, encPins)
  }

  /** The update one loop iteration makes: none unless bit 0 of what is left of rdiff is set. */
  function ScanStep(c: Chip, offset: nat, reg: byte, r: nat, j: nat, swPins: seq<int>, encPins: seq<(int, int)>)
    : (u: seq<Dispatch>)
    requires ScanArgs(c, offset, swPins, encPins) && j < 8
    ensures |u| <= 1
  {
    var p := j + offset;
    var k := c.pinActionNum[p];
    if r % 2 == 1 && c.pinAction[p] == SwitchAction then
      [SwitchUpdate(k, BitRead(reg, BankPosition(swPins[k], c, offset)))]
    else if r % 2 == 1 && c.pinAction[p] == EncoderAction then
      [EncoderUpdate(k, BitRead(reg, BankPosition(encPins[k].0, c, offset)),
                        BitRead(reg, BankPosition(encPins[k].1, c, offset)))]
    else []
  }

  /** What one loop iteration leaves of rdiff: the encoder's other bit cleared, then shifted. */
  function ScanRest(c: Chip, offset: nat, r: nat, j: nat, swPins: seq<int>, encPins: seq<(int, int)>): nat
    requires ScanArgs(c, offset, swPins, encPins) && j < 8
  {
    var p := j + offset;
    var k := c.pinActionNum[p];
    if r % 2 == 1 && c.pinAction[p] == EncoderAction then
      ClearPair(r, BankPosition(encPins[k].0, c, offset) - j, BankPosition(encPins[k].1, c, offset) - j) / 2
    else r / 2
  }

  /** Every bit of the rest was set one position higher before. */
  lemma ScanRestBits(c: Chip, offset: nat, r: nat, j: nat, swPins: seq<int>, encPins: seq<(int, int)>, q: nat)
    requires ScanArgs(c, offset, swPins, encPins) && j < 8
    ensures BitRead(ScanRest(c, offset, r, j, swPins, encPins), q) == 1 ==> BitRead(r, q + 1) == 1
  {
    var p := j + offset;
    var k := c.pinActionNum[p];
    if r % 2 == 1 && c.pinAction[p] == EncoderAction {
      var a := BankPosition(encPins[k].0, c, offset) - j;
      var b := BankPosition(encPins[k].1, c, offset) - j;
      ClearPairBits(r, a, b, q + 1);
    }
  }

  /** The switch update came from a changed pin at position j + q of the bank that a switch owns. */
  predicate SwitchSource(c: Chip, offset: nat, reg: byte, r: nat, j: nat, swPins: seq<int>, q: nat, u: Dispatch)
    requires WellFormed(c) && offset <= 8 && |swPins| == MAX_NUM_ZYNSWITCHES
  {
    && j + q < 8
    && BitRead(r, q) == 1
    && c.pinAction[j + q + offset] == SwitchAction
    && u == SwitchUpdate(c.pinActionNum[j + q + offset],
                         BitRead(reg, BankPosition(swPins[c.pinActionNum[j + q + offset]], c, offset)))
  }

  lemma {:induction false} ScanSwitchSound(c: Chip, offset: nat, reg: byte, r: nat, j: nat,
                                           swPins: seq<int>, encPins: seq<(int, int)>, n: nat)
    requires ScanArgs(c, offset, swPins, encPins)
    requires n < |Scan(c, offset, reg, r, j, swPins, encPins)|
    requires Scan(c, offset, reg, r, j, swPins, encPins)[n].SwitchUpdate?
    ensures exists q :: SwitchSource(c, offset, reg, r, j, swPins, q, Scan(c, offset, reg, r, j, swPins, encPins)[n])
    decreases 8 - j
  {
    var s := Scan(c, offset, reg, r, j, swPins, encPins);
    var head := ScanStep(c, offset, reg, r, j, swPins, encPins);
    var rest := ScanRest(c, offset, r, j, swPins, encPins);
    var tail := Scan(c, offset, reg, rest, j + 1, swPins, encPins);
    ScanUnfold(c, offset, reg, r, j, swPins, encPins, head, rest);
    if n < |head| {
      assert s[n] == head[0];
      assert r % 2 == 1 && c.pinAction[j + offset] == SwitchAction;
      assert SwitchSource(c, offset, reg, r, j, swPins, 0, s[n]);
    } else {
      var m := n - |head|;
      assert s[n] == tail[m];
      ScanSwitchSound(c, offset, reg, rest, j + 1, swPins, encPins, m);
      var q: nat :| SwitchSource(c, offset, reg, rest, j + 1, swPins, q, tail[m]);
      ScanRestBits(c, offset, r, j, swPins, encPins, q);
      assert SwitchSource(c, offset, reg, r, j, swPins, q + 1, s[n]);
    }
  }

  /** The encoder `k` owns the chip pin `pin`. */
  predicate EncoderAt(c: Chip, pin: int, k: nat)
    requires WellFormed(c)
  {
    c.basePin <= pin < c.basePin + 16
    && c.pinAction[pin - c.basePin] == EncoderAction && c.pinActionNum[pin - c.basePin] == k
  }

  /**
   * The action table agrees with the switch and encoder tables, as
   * setup_zynswitch and setup_zyncoder leave them: a switch pin's action
   * names a switch on that pin, and an encoder pin's action names an
   * encoder one of whose two pins it is, both on this chip.
   */
  predicate TablesAgree(c: Chip, swPins: seq<int>, encPins: seq<(int, int)>)
    requires WellFormed(c) && |swPins| == MAX_NUM_ZYNSWITCHES && |encPins| == MAX_NUM_ZYNCODERS
  {
    forall p :: 0 <= p < 16 ==> PinAgrees(c, swPins, encPins, p)
  }

  predicate PinAgrees(c: Chip, swPins: seq<int>, encPins: seq<(int, int)>, p: nat)
    requires WellFormed(c) && |swPins| == MAX_NUM_ZYNSWITCHES && |encPins| == MAX_NUM_ZYNCODERS && p < 16
  {
    && (c.pinAction[p] == SwitchAction ==> swPins[c.pinActionNum[p]] == c.basePin + p)
    && (c.pinAction[p] == EncoderAction ==>
          var pins := encPins[c.pinActionNum[p]];
          && EncoderAt(c, pins.0, c.pinActionNum[p])
          && EncoderAt(c, pins.1, c.pinActionNum[p])
          && (c.basePin + p == pins.0 || c.basePin + p == pins.1))
  }

  /** A position's bit survives the iteration at j unless that iteration handled the same encoder. */
  lemma ScanRestKeeps(c: Chip, offset: nat, r: nat, j: nat, swPins: seq<int>, encPins: seq<(int, int)>, q: nat)
    requires ScanArgs(c, offset, swPins, encPins) && TablesAgree(c, swPins, encPins)
    requires 1 <= q && j + q < 8 && BitRead(r, q) == 1
    requires !(r % 2 == 1 && c.pinAction[j + offset] == EncoderAction && c.pinAction[j + q + offset] == EncoderAction
               && c.pinActionNum[j + offset] == c.pinActionNum[j + q + offset])
    ensures BitRead(ScanRest(c, offset, r, j, swPins, encPins), q - 1) == 1
  {
    var p := j + offset;
    var k := c.pinActionNum[p];
    if r % 2 == 1 && c.pinAction[p] == EncoderAction {
      var pins := encPins[k];
      var a := BankPosition(pins.0, c, offset) - j;
      var b := BankPosition(pins.1, c, offset) - j;
      assert PinAgrees(c, swPins, encPins, p);
      BankPositionOther(c, offset, pins.0, j + q);
      BankPositionOther(c, offset, pins.1, j + q);
      ClearPairBits(r, a, b, q);
    }
  }

  /** The step at a changed switch position updates that switch with the position's new level. */
  lemma SwitchStepAt(c: Chip, offset: nat, reg: byte, r: nat, j: nat, swPins: seq<int>, encPins: seq<(int, int)>)
    requires ScanArgs(c, offset, swPins, encPins) && j < 8 && r % 2 == 1
    requires c.pinAction[j + offset] == SwitchAction && PinAgrees(c, swPins, encPins, j + offset)
    ensures ScanStep(c, offset, reg, r, j, swPins, encPins) == [SwitchUpdate(c.pinActionNum[j + offset], BitRead(reg, j))]
  {
    BankPositionOfPin(c, offset, j);
    assert swPins[c.pinActionNum[j + offset]] == c.basePin + offset + j;
  }

  /** Every changed switch pin of the scanned positions gets its update, with the pin's new level. */
  lemma {:induction false} ScanSwitchComplete(c: Chip, offset: nat, reg: byte, r: nat, j: nat,
                                              swPins: seq<int>, encPins: seq<(int, int)>, pos: nat)
    requires ScanArgs(c, offset, swPins, encPins) && TablesAgree(c, swPins, encPins)
    requires j <= pos < 8 && BitRead(r, pos - j) == 1 && c.pinAction[pos + offset] == SwitchAction
    ensures SwitchUpdate(c.pinActionNum[pos + offset], BitRead(reg, pos)) in Scan(c, offset, reg, r, j, swPins, encPins)
    decreases pos - j
  {
    var u := SwitchUpdate(c.pinActionNum[pos + offset], BitRead(reg, pos));
    if pos == j {
      SwitchFoundHere(c, offset, reg, r, j, swPins, encPins);
    } else {
      var rest := ScanRest(c, offset, r, j, swPins, encPins);
      ScanRestKeepsPos(c, offset, r, j, swPins, encPins, pos);
      ScanSwitchComplete(c, offset, reg, rest, j + 1, swPins, encPins, pos);
      FoundInTail(c, offset, reg, r, j, swPins, encPins, pos, u);
    }
  }

  /** A changed switch position at the head of the scan gets its update. */
  lemma SwitchFoundHere(c: Chip, offset: nat, reg: byte, r: nat, j: nat, swPins: seq<int>, encPins: seq<(int, int)>)
    requires ScanArgs(c, offset, swPins, encPins) && TablesAgree(c, swPins, encPins)
    requires j < 8 && BitRead(r, 0) == 1 && c.pinAction[j + offset] == SwitchAction
    ensures SwitchUpdate(c.pinActionNum[j + offset], BitRead(reg, j)) in Scan(c, offset, reg, r, j, swPins, encPins)
  {
    var head := ScanStep(c, offset, reg, r, j, swPins, encPins);
    var rest := ScanRest(c, offset, r, j, swPins, encPins);
    assert r % 2 == 1 && PinAgrees(c, swPins, encPins, j + offset);
    SwitchStepAt(c, offset, reg, r, j, swPins, encPins);
    ScanUnfold(c, offset, reg, r, j, swPins, encPins, head, rest);
    assert Scan(c, offset, reg, r, j, swPins, encPins)[0] == head[0];
  }

  /** What the rest of the scan holds, the scan holds. */
  lemma FoundInTail(c: Chip, offset: nat, reg: byte, r: nat, j: nat, swPins: seq<int>, encPins: seq<(int, int)>,
                    pos: nat, u: Dispatch)
    requires ScanArgs(c, offset, swPins, encPins) && j <= pos < 8 && BitRead(r, pos - j) == 1
    requires u in Scan(c, offset, reg, ScanRest(c, offset, r, j, swPins, encPins), j + 1, swPins, encPins)
    ensures u in Scan(c, offset, reg, r, j, swPins, encPins)
  {
    BitReadZero(pos - j);
    var head := ScanStep(c, offset, reg, r, j, swPins, encPins);
    var rest := ScanRest(c, offset, r, j, swPins, encPins);
    ScanUnfold(c, offset, reg, r, j, swPins, encPins, head, rest);
  }

  /** ScanRestKeeps at an absolute position. */
  lemma ScanRestKeepsPos(c: Chip, offset: nat, r: nat, j: nat, swPins: seq<int>, encPins: seq<(int, int)>, pos: nat)
    requires ScanArgs(c, offset, swPins, encPins) && TablesAgree(c, swPins, encPins)
    requires j < pos < 8 && BitRead(r, pos - j) == 1
    requires !(r % 2 == 1 && c.pinAction[j + offset] == EncoderAction && c.pinAction[pos + offset] == EncoderAction
               && c.pinActionNum[j + offset] == c.pinActionNum[pos + offset])
    ensures BitRead(ScanRest(c, offset, r, j, swPins, encPins), pos - (j + 1)) == 1
  {
    var q := pos - j;
    assert j + q + offset == pos + offset && q - 1 == pos - (j + 1);
    ScanRestKeeps(c, offset, r, j, swPins, encPins, q);
  }

  /** An update names an entry of the table it changes. */
  predicate DispatchFits(u: Dispatch) {
    match u
    case SwitchUpdate(k, _) => k < MAX_NUM_ZYNSWITCHES
    case EncoderUpdate(k, _, _) => k < MAX_NUM_ZYNCODERS
  }

  /** The scan names only switches and encoders the tables have, because the action table holds only such numbers. */
  lemma {:induction false} ScanFits(c: Chip, offset: nat, reg: byte, r: nat, j: nat, swPins: seq<int>, encPins: seq<(int, int)>)
    requires ScanArgs(c, offset, swPins, encPins)
    ensures forall u :: u in Scan(c, offset, reg, r, j, swPins, encPins) ==> DispatchFits(u)
    decreases 8 - j
  {
    if r != 0 && j < 8 {
      ScanFits(c, offset, reg, ScanRest(c, offset, r, j, swPins, encPins), j + 1, swPins, encPins);
      assert ActionFits(c.pinAction[j + offset], c.pinActionNum[j + offset]);
    }
  }

  /** The encoders a sequence of updates touches. */
  function UpdatedEncoders(s: seq<Dispatch>): set<nat> {
    set n | 0 <= n < |s| && s[n].EncoderUpdate? :: s[n].encoder
  }

  /** No encoder is updated twice. */
  predicate EncodersOnce(s: seq<Dispatch>) {
    forall n, m :: 0 <= n < m < |s| && s[n].EncoderUpdate? && s[m].EncoderUpdate? ==> s[n].encoder != s[m].encoder
  }

  lemma UpdatedEncodersConcat(a: seq<Dispatch>, b: seq<Dispatch>)
    ensures UpdatedEncoders(a + b) == UpdatedEncoders(a) + UpdatedEncoders(b)
  {
    forall x | x in UpdatedEncoders(a) ensures x in UpdatedEncoders(a + b) {
      var n :| 0 <= n < |a| && a[n].EncoderUpdate? && a[n].encoder == x;
      assert (a + b)[n] == a[n];
    }
    forall x | x in UpdatedEncoders(a + b) ensures x in UpdatedEncoders(a) + UpdatedEncoders(b) {
      var n :| 0 <= n < |a + b| && (a + b)[n].EncoderUpdate? && (a + b)[n].encoder == x;
      if n >= |a| {
        assert b[n - |a|] == (a + b)[n];
      }
    }
    forall x | x in UpdatedEncoders(b) ensures x in UpdatedEncoders(a + b) {
      var n :| 0 <= n < |b| && b[n].EncoderUpdate? && b[n].encoder == x;
      assert (a + b)[|a| + n] == b[n];
    }
  }

  /** A step in front of a scan keeps every encoder once if its own encoder is not in the scan. */
  lemma EncodersOnceCons(head: seq<Dispatch>, tail: seq<Dispatch>)
    requires |head| <= 1 && EncodersOnce(tail)
    requires |head| == 1 && head[0].EncoderUpdate? ==> head[0].encoder !in UpdatedEncoders(tail)
    ensures EncodersOnce(head + tail)
  {
    var s := head + tail;
    forall n, m | 0 <= n < m < |s| && s[n].EncoderUpdate? && s[m].EncoderUpdate?
      ensures s[n].encoder != s[m].encoder
    {
      assert s[m] == tail[m - |head|];
      if n >= |head| {
        assert s[n] == tail[n - |head|];
      } else {
        assert s[m].encoder in UpdatedEncoders(tail);
      }
    }
  }

  /** The step at a changed encoder position updates that encoder. */
  lemma EncoderStepAt(c: Chip, offset: nat, reg: byte, r: nat, j: nat, swPins: seq<int>, encPins: seq<(int, int)>)
    requires ScanArgs(c, offset, swPins, encPins) && j < 8 && r % 2 == 1 && c.pinAction[j + offset] == EncoderAction
    ensures UpdatedEncoders(ScanStep(c, offset, reg, r, j, swPins, encPins)) == {c.pinActionNum[j + offset]}
  {
    var u := ScanStep(c, offset, reg, r, j, swPins, encPins);
    assert u[0].EncoderUpdate? && u[0].encoder == c.pinActionNum[j + offset];
  }

  /** Every changed encoder pin of the scanned positions leads to an update of its encoder. */
  lemma {:induction false} ScanEncoderComplete(c: Chip, offset: nat, reg: byte, r: nat, j: nat,
                                               swPins: seq<int>, encPins: seq<(int, int)>, pos: nat)
    requires ScanArgs(c, offset, swPins, encPins) && TablesAgree(c, swPins, encPins)
    requires j <= pos < 8 && BitRead(r, pos - j) == 1 && c.pinAction[pos + offset] == EncoderAction
    ensures c.pinActionNum[pos + offset] in UpdatedEncoders(Scan(c, offset, reg, r, j, swPins, encPins))
    decreases pos - j
  {
    var k := c.pinActionNum[pos + offset];
    if pos == j || (r % 2 == 1 && c.pinAction[j + offset] == EncoderAction && c.pinActionNum[j + offset] == k) {
      EncoderFoundHere(c, offset, reg, r, j, swPins, encPins, pos);
    } else {
      var rest := ScanRest(c, offset, r, j, swPins, encPins);
      ScanRestKeepsPos(c, offset, r, j, swPins, encPins, pos);
      ScanEncoderComplete(c, offset, reg, rest, j + 1, swPins, encPins, pos);
      EncoderInTail(c, offset, reg, r, j, swPins, encPins, pos, k);
    }
  }

  /** An encoder position changed at the head of the scan gets its encoder updated. */
  lemma EncoderFoundHere(c: Chip, offset: nat, reg: byte, r: nat, j: nat, swPins: seq<int>, encPins: seq<(int, int)>, pos: nat)
    requires ScanArgs(c, offset, swPins, encPins) && j <= pos < 8 && BitRead(r, pos - j) == 1
    requires c.pinAction[pos + offset] == EncoderAction
    requires pos == j || (r % 2 == 1 && c.pinAction[j + offset] == EncoderAction && c.pinActionNum[j + offset] == c.pinActionNum[pos + offset])
    ensures c.pinActionNum[pos + offset] in UpdatedEncoders(Scan(c, offset, reg, r, j, swPins, encPins))
  {
    BitReadZero(pos - j);
    var head := ScanStep(c, offset, reg, r, j, swPins, encPins);
    var rest := ScanRest(c, offset, r, j, swPins, encPins);
    var tail := Scan(c, offset, reg, rest, j + 1, swPins, encPins);
    ScanUnfold(c, offset, reg, r, j, swPins, encPins, head, rest);
    UpdatedEncodersConcat(head, tail);
    assert r % 2 == 1;
    EncoderStepAt(c, offset, reg, r, j, swPins, encPins);
  }

  /** An encoder the rest of the scan updates, the scan updates. */
  lemma EncoderInTail(c: Chip, offset: nat, reg: byte, r: nat, j: nat, swPins: seq<int>, encPins: seq<(int, int)>,
                      pos: nat, k: nat)
    requires ScanArgs(c, offset, swPins, encPins) && j <= pos < 8 && BitRead(r, pos - j) == 1
    requires k in UpdatedEncoders(Scan(c, offset, reg, ScanRest(c, offset, r, j, swPins, encPins), j + 1, swPins, encPins))
    ensures k in UpdatedEncoders(Scan(c, offset, reg, r, j, swPins, encPins))
  {
    BitReadZero(pos - j);
    var head := ScanStep(c, offset, reg, r, j, swPins, encPins);
    var rest := ScanRest(c, offset, r, j, swPins, encPins);
    var tail := Scan(c, offset, reg, rest, j + 1, swPins, encPins);
    ScanUnfold(c, offset, reg, r, j, swPins, encPins, head, rest);
    UpdatedEncodersConcat(head, tail);
  }

  /** No position left to scan that belongs to encoder k still has its bit set. */
  predicate NoPendingEncoder(c: Chip, offset: nat, r: nat, j: nat, k: nat)
    requires WellFormed(c) && offset <= 8
  {
    forall q: nat :: j + q < 8 && c.pinAction[j + q + offset] == EncoderAction && c.pinActionNum[j + q + offset] == k
      ==> BitRead(r, q) == 0
  }

  lemma {:induction false} NoPendingEncoderNoUpdate(c: Chip, offset: nat, reg: byte, r: nat, j: nat,
                                                    swPins: seq<int>, encPins: seq<(int, int)>, k: nat)
    requires ScanArgs(c, offset, swPins, encPins) && NoPendingEncoder(c, offset, r, j, k)
    ensures k !in UpdatedEncoders(Scan(c, offset, reg, r, j, swPins, encPins))
    decreases 8 - j
  {
    if r != 0 && j < 8 {
      var head := ScanStep(c, offset, reg, r, j, swPins, encPins);
      var rest := ScanRest(c, offset, r, j, swPins, encPins);
      var tail := Scan(c, offset, reg, rest, j + 1, swPins, encPins);
      assert Scan(c, offset, reg, r, j, swPins, encPins) == head + tail;
      UpdatedEncodersConcat(head, tail);
      forall q: nat | j + 1 + q < 8 && c.pinAction[j + 1 + q + offset] == EncoderAction
                      && c.pinActionNum[j + 1 + q + offset] == k
        ensures BitRead(rest, q) == 0
      {
        ScanRestBits(c, offset, r, j, swPins, encPins, q);
        assert BitRead(r, q + 1) == 0;
      }
      NoPendingEncoderNoUpdate(c, offset, reg, rest, j + 1, swPins, encPins, k);
      assert BitRead(r, 0) == r % 2;
      assert k !in UpdatedEncoders(head);
    }
  }

  /** The scan after handling encoder k at position j has no pending bit of k left. */
  lemma HandledEncoderNotPending(c: Chip, offset: nat, r: nat, j: nat, swPins: seq<int>, encPins: seq<(int, int)>)
    requires ScanArgs(c, offset, swPins, encPins) && TablesAgree(c, swPins, encPins)
    requires j < 8 && r % 2 == 1 && c.pinAction[j + offset] == EncoderAction
    ensures NoPendingEncoder(c, offset, ScanRest(c, offset, r, j, swPins, encPins), j + 1, c.pinActionNum[j + offset])
  {
    var k := c.pinActionNum[j + offset];
    var pins := encPins[k];
    var a := BankPosition(pins.0, c, offset) - j;
    var b := BankPosition(pins.1, c, offset) - j;
    var rest := ScanRest(c, offset, r, j, swPins, encPins);
    forall q: nat | j + 1 + q < 8 && c.pinAction[j + 1 + q + offset] == EncoderAction
                    && c.pinActionNum[j + 1 + q + offset] == k
      ensures BitRead(rest, q) == 0
    {
      assert PinAgrees(c, swPins, encPins, j + 1 + q + offset);
      BankPositionOfPin(c, offset, j + 1 + q);
      assert c.basePin + offset + (j + 1 + q) == pins.0 || c.basePin + offset + (j + 1 + q) == pins.1;
      assert a == q + 1 || b == q + 1;
      ClearPairBits(r, a, b, q + 1);
    }
  }

  /** "Avoid processing same zyncoder twice": no encoder is updated twice by one scan. */
  lemma {:induction false} ScanEncodersOnce(c: Chip, offset: nat, reg: byte, r: nat, j: nat,
                                            swPins: seq<int>, encPins: seq<(int, int)>)
    requires ScanArgs(c, offset, swPins, encPins) && TablesAgree(c, swPins, encPins)
    ensures EncodersOnce(Scan(c, offset, reg, r, j, swPins, encPins))
    decreases 8 - j
  {
    if r != 0 && j < 8 {
      var head := ScanStep(c, offset, reg, r, j, swPins, encPins);
      var rest := ScanRest(c, offset, r, j, swPins, encPins);
      var tail := Scan(c, offset, reg, rest, j + 1, swPins, encPins);
      assert Scan(c, offset, reg, r, j, swPins, encPins) == head + tail;
      ScanEncodersOnce(c, offset, reg, rest, j + 1, swPins, encPins);
      if r % 2 == 1 && c.pinAction[j + offset] == EncoderAction {
        HandledEncoderNotPending(c, offset, r, j, swPins, encPins);
        NoPendingEncoderNoUpdate(c, offset, reg, rest, j + 1, swPins, encPins, c.pinActionNum[j + offset]);
      }
      EncodersOnceCons(head, tail);
    }
  }

  /** No switch is updated twice. */
  predicate SwitchesOnce(s: seq<Dispatch>) {
    forall n, m :: 0 <= n < m < |s| && s[n].SwitchUpdate? && s[m].SwitchUpdate? ==> s[n].switch != s[m].switch
  }

  /** A switch the scan from position j updates is wired to a bank pin at position j or later. */
  lemma ScanSwitchPinFrom(c: Chip, offset: nat, reg: byte, r: nat, j: nat,
                          swPins: seq<int>, encPins: seq<(int, int)>, n: nat)
    requires ScanArgs(c, offset, swPins, encPins) && TablesAgree(c, swPins, encPins)
    requires n < |Scan(c, offset, reg, r, j, swPins, encPins)|
    requires Scan(c, offset, reg, r, j, swPins, encPins)[n].SwitchUpdate?
    ensures var k := Scan(c, offset, reg, r, j, swPins, encPins)[n].switch;
      k < |swPins| && swPins[k] >= c.basePin + offset + j
  {
    ScanSwitchSound(c, offset, reg, r, j, swPins, encPins, n);
    var q: nat :| SwitchSource(c, offset, reg, r, j, swPins, q, Scan(c, offset, reg, r, j, swPins, encPins)[n]);
    SwitchPinAt(c, swPins, encPins, j + q + offset);
  }

  /** Each switch owns one pin and each position is scanned once, so no switch is updated twice by one scan. */
  lemma {:induction false} ScanSwitchesOnce(c: Chip, offset: nat, reg: byte, r: nat, j: nat,
                                            swPins: seq<int>, encPins: seq<(int, int)>)
    requires ScanArgs(c, offset, swPins, encPins) && TablesAgree(c, swPins, encPins)
    ensures SwitchesOnce(Scan(c, offset, reg, r, j, swPins, encPins))
    decreases 8 - j
  {
    if r != 0 && j < 8 {
      var head := ScanStep(c, offset, reg, r, j, swPins, encPins);
      var rest := ScanRest(c, offset, r, j, swPins, encPins);
      var tail := Scan(c, offset, reg, rest, j + 1, swPins, encPins);
      ScanUnfold(c, offset, reg, r, j, swPins, encPins, head, rest);
      ScanSwitchesOnce(c, offset, reg, rest, j + 1, swPins, encPins);
      HeadSwitchNotInTail(c, offset, reg, r, j, swPins, encPins, head, tail);
      SwitchesOnceCons(head, tail);
    }
  }

  /** The switch the step at position j updates is wired to position j, so the rest of the scan does not update it. */
  lemma HeadSwitchNotInTail(c: Chip, offset: nat, reg: byte, r: nat, j: nat, swPins: seq<int>, encPins: seq<(int, int)>,
                            head: seq<Dispatch>, tail: seq<Dispatch>)
    requires ScanArgs(c, offset, swPins, encPins) && TablesAgree(c, swPins, encPins) && j < 8
    requires head == ScanStep(c, offset, reg, r, j, swPins, encPins)
    requires tail == Scan(c, offset, reg, ScanRest(c, offset, r, j, swPins, encPins), j + 1, swPins, encPins)
    ensures |head| == 1 && head[0].SwitchUpdate? ==>
      forall m :: 0 <= m < |tail| && tail[m].SwitchUpdate? ==> tail[m].switch != head[0].switch
  {
    if |head| == 1 && head[0].SwitchUpdate? {
      assert r % 2 == 1 && c.pinAction[j + offset] == SwitchAction;
      SwitchPinAt(c, swPins, encPins, j + offset);
      var rest := ScanRest(c, offset, r, j, swPins, encPins);
      forall m | 0 <= m < |tail| && tail[m].SwitchUpdate?
        ensures tail[m].switch != head[0].switch
      {
        ScanSwitchPinFrom(c, offset, reg, rest, j + 1, swPins, encPins, m);
      }
    }
  }

  /** A step in front of a scan keeps every switch once if its own switch is not updated in the scan. */
  lemma SwitchesOnceCons(head: seq<Dispatch>, tail: seq<Dispatch>)
    requires |head| <= 1 && SwitchesOnce(tail)
    requires |head| == 1 && head[0].SwitchUpdate? ==>
      forall m :: 0 <= m < |tail| && tail[m].SwitchUpdate? ==> tail[m].switch != head[0].switch
    ensures SwitchesOnce(head + tail)
  {
    var s := head + tail;
    forall n, m | 0 <= n < m < |s| && s[n].SwitchUpdate? && s[m].SwitchUpdate?
      ensures s[n].switch != s[m].switch
    {
      assert s[m] == tail[m - |head|];
      if n >= |head| {
        assert s[n] == tail[n - |head|];
      }
    }
  }

  /** Every encoder update comes from a changed pin of that encoder among the scanned positions. */
  predicate EncoderSource(c: Chip, offset: nat, r: nat, j: nat, q: nat, k: nat)
    requires WellFormed(c) && offset <= 8
  {
    j + q < 8 && BitRead(r, q) == 1
    && c.pinAction[j + q + offset] == EncoderAction && c.pinActionNum[j + q + offset] == k
  }

  lemma {:induction false} ScanEncoderSound(c: Chip, offset: nat, reg: byte, r: nat, j: nat,
                                            swPins: seq<int>, encPins: seq<(int, int)>, k: nat)
    requires ScanArgs(c, offset, swPins, encPins)
    requires k in UpdatedEncoders(Scan(c, offset, reg, r, j, swPins, encPins))
    ensures exists q :: EncoderSource(c, offset, r, j, q, k)
    decreases 8 - j
  {
    var head := ScanStep(c, offset, reg, r, j, swPins, encPins);
    var rest := ScanRest(c, offset, r, j, swPins, encPins);
    var tail := Scan(c, offset, reg, rest, j + 1, swPins, encPins);
    assert Scan(c, offset, reg, r, j, swPins, encPins) == head + tail;
    UpdatedEncodersConcat(head, tail);
    if k in UpdatedEncoders(head) {
      assert EncoderSource(c, offset, r, j, 0, k);
    } else {
      ScanEncoderSound(c, offset, reg, rest, j + 1, swPins, encPins, k);
      var q: nat :| EncoderSource(c, offset, rest, j + 1, q, k);
      ScanRestBits(c, offset, r, j, swPins, encPins, q);
      assert EncoderSource(c, offset, r, j, q + 1, k);
    }
  }

  /** Bank position q of the bank changed, and a switch owns it: the update for it carries the new level. */
  predicate ChangedSwitch(c: Chip, offset: nat, reg: byte, prev: byte, q: nat, u: Dispatch)
    requires WellFormed(c) && offset <= 8
  {
    q < 8 && BitRead(reg, q) != BitRead(prev, q) && c.pinAction[q + offset] == SwitchAction
    && u == SwitchUpdate(c.pinActionNum[q + offset], BitRead(reg, q))
  }

  /** Bank position q of the bank changed, and encoder k owns it. */
  predicate ChangedEncoderPin(c: Chip, offset: nat, reg: byte, prev: byte, q: nat, k: nat)
    requires WellFormed(c) && offset <= 8
  {
    q < 8 && BitRead(reg, q) != BitRead(prev, q)
    && c.pinAction[q + offset] == EncoderAction && c.pinActionNum[q + offset] == k
  }

  lemma BankSwitchUpdateSound(c: Chip, offset: nat, reg: byte, prev: byte, swPins: seq<int>, encPins: seq<(int, int)>,
                              u: Dispatch)
    requires ScanArgs(c, offset, swPins, encPins) && TablesAgree(c, swPins, encPins)
    requires u in Scan(c, offset, reg, BitXor(reg, prev), 0, swPins, encPins) && u.SwitchUpdate?
    ensures exists q :: ChangedSwitch(c, offset, reg, prev, q, u)
  {
    var r := BitXor(reg, prev);
    var s := Scan(c, offset, reg, r, 0, swPins, encPins);
    var n :| 0 <= n < |s| && s[n] == u;
    ScanSwitchSound(c, offset, reg, r, 0, swPins, encPins, n);
    var q: nat :| SwitchSource(c, offset, reg, r, 0, swPins, q, u);
    SourceIsChangedSwitch(c, offset, reg, prev, swPins, encPins, q, u);
    assert ChangedSwitch(c, offset, reg, prev, q, u);
  }

  /** A switch update the scan makes for position q of the differences is a changed switch pin of the bank. */
  lemma SourceIsChangedSwitch(c: Chip, offset: nat, reg: byte, prev: byte, swPins: seq<int>, encPins: seq<(int, int)>,
                              q: nat, u: Dispatch)
    requires ScanArgs(c, offset, swPins, encPins) && TablesAgree(c, swPins, encPins)
    requires SwitchSource(c, offset, reg, BitXor(reg, prev), 0, swPins, q, u)
    ensures ChangedSwitch(c, offset, reg, prev, q, u)
  {
    BitXorBits(reg, prev, q);
    var k := c.pinActionNum[q + offset];
    SwitchPinAt(c, swPins, encPins, q + offset);
    BankPositionOfPin(c, offset, q);
    assert BankPosition(swPins[k], c, offset) == q;
    assert u == SwitchUpdate(k, BitRead(reg, q));
  }

  /** Under agreeing tables, the switch that owns chip pin p is wired to that pin. */
  lemma SwitchPinAt(c: Chip, swPins: seq<int>, encPins: seq<(int, int)>, p: nat)
    requires WellFormed(c) && |swPins| == MAX_NUM_ZYNSWITCHES && |encPins| == MAX_NUM_ZYNCODERS
    requires TablesAgree(c, swPins, encPins) && p < 16 && c.pinAction[p] == SwitchAction
    ensures c.pinActionNum[p] < |swPins| && swPins[c.pinActionNum[p]] == c.basePin + p
  {
    assert PinAgrees(c, swPins, encPins, p);
  }

  /**
   * The switch updates of a bank interrupt whose reading is `reg` and whose
   * last state was `prev` are exactly one per changed switch pin, carrying
   * the pin's new level.
   */
  lemma BankSwitchUpdates(c: Chip, offset: nat, reg: byte, prev: byte, swPins: seq<int>, encPins: seq<(int, int)>, u: Dispatch)
    requires ScanArgs(c, offset, swPins, encPins) && TablesAgree(c, swPins, encPins)
    requires u.SwitchUpdate?
    ensures u in Scan(c, offset, reg, BitXor(reg, prev), 0, swPins, encPins)
      <==> exists q :: ChangedSwitch(c, offset, reg, prev, q, u)
    ensures SwitchesOnce(Scan(c, offset, reg, BitXor(reg, prev), 0, swPins, encPins))
  {
    ScanSwitchesOnce(c, offset, reg, BitXor(reg, prev), 0, swPins, encPins);
    if u in Scan(c, offset, reg, BitXor(reg, prev), 0, swPins, encPins) {
      BankSwitchUpdateSound(c, offset, reg, prev, swPins, encPins, u);
    }
    if exists q :: ChangedSwitch(c, offset, reg, prev, q, u) {
      var q: nat :| ChangedSwitch(c, offset, reg, prev, q, u);
      BankSwitchUpdateComplete(c, offset, reg, prev, swPins, encPins, u, q);
    }
  }

  lemma BankSwitchUpdateComplete(c: Chip, offset: nat, reg: byte, prev: byte, swPins: seq<int>, encPins: seq<(int, int)>,
                                 u: Dispatch, q: nat)
    requires ScanArgs(c, offset, swPins, encPins) && TablesAgree(c, swPins, encPins)
    requires ChangedSwitch(c, offset, reg, prev, q, u)
    ensures u in Scan(c, offset, reg, BitXor(reg, prev), 0, swPins, encPins)
  {
    BitXorBits(reg, prev, q);
    ScanSwitchComplete(c, offset, reg, BitXor(reg, prev), 0, swPins, encPins, q);
  }

  lemma BankEncoderUpdateSound(c: Chip, offset: nat, reg: byte, prev: byte, swPins: seq<int>, encPins: seq<(int, int)>,
                               k: nat)
    requires ScanArgs(c, offset, swPins, encPins)
    requires k in UpdatedEncoders(Scan(c, offset, reg, BitXor(reg, prev), 0, swPins, encPins))
    ensures exists q :: ChangedEncoderPin(c, offset, reg, prev, q, k)
  {
    var r := BitXor(reg, prev);
    ScanEncoderSound(c, offset, reg, r, 0, swPins, encPins, k);
    var q: nat :| EncoderSource(c, offset, r, 0, q, k);
    BitXorBits(reg, prev, q);
    assert ChangedEncoderPin(c, offset, reg, prev, q, k);
  }

  lemma BankEncoderUpdateComplete(c: Chip, offset: nat, reg: byte, prev: byte, swPins: seq<int>, encPins: seq<(int, int)>,
                                  k: nat, q: nat)
    requires ScanArgs(c, offset, swPins, encPins) && TablesAgree(c, swPins, encPins)
    requires ChangedEncoderPin(c, offset, reg, prev, q, k)
    ensures k in UpdatedEncoders(Scan(c, offset, reg, BitXor(reg, prev), 0, swPins, encPins))
  {
    BitXorBits(reg, prev, q);
    ScanEncoderComplete(c, offset, reg, BitXor(reg, prev), 0, swPins, encPins, q);
  }

  /**
   * A bank interrupt updates exactly the encoders one of whose pins in the
   * bank changed, and each of them once.
   */
  lemma BankEncoderUpdates(c: Chip, offset: nat, reg: byte, prev: byte, swPins: seq<int>, encPins: seq<(int, int)>, k: nat)
    requires ScanArgs(c, offset, swPins, encPins) && TablesAgree(c, swPins, encPins)
    ensures k in UpdatedEncoders(Scan(c, offset, reg, BitXor(reg, prev), 0, swPins, encPins))
      <==> exists q :: ChangedEncoderPin(c, offset, reg, prev, q, k)
    ensures EncodersOnce(Scan(c, offset, reg, BitXor(reg, prev), 0, swPins, encPins))
  {
    if k in UpdatedEncoders(Scan(c, offset, reg, BitXor(reg, prev), 0, swPins, encPins)) {
      BankEncoderUpdateSound(c, offset, reg, prev, swPins, encPins, k);
    }
    if exists q :: ChangedEncoderPin(c, offset, reg, prev, q, k) {
      var q: nat :| ChangedEncoderPin(c, offset, reg, prev, q, k);
      BankEncoderUpdateComplete(c, offset, reg, prev, swPins, encPins, k, q);
    }
    ScanEncodersOnce(c, offset, reg, BitXor(reg, prev), 0, swPins, encPins);
  }

  /** A read of the bank holding position `bit`: the reading becomes that bank's last state. */
  function AfterRead(c: Chip, bit: nat, read: byte): (c': Chip)
    ensures bit < 8 ==> LowByte(c'.lastState) == read && HighByte(c'.lastState) == HighByte(c.lastState)
    ensures bit >= 8 ==> HighByte(c'.lastState) == read && LowByte(c'.lastState) == LowByte(c.lastState)
    ensures c' == c.(lastState := c'.lastState)
  {
    MergeKeepsOtherBank(c.lastState, read);
    if bit < 8 then c.(lastState := MergeBankA(c.lastState, read)) else c.(lastState := MergeBankB(c.lastState, read))
  }

  /** The level of position `bit` (0..15) in a reading of its bank. */
  function LevelIn(read: byte, bit: nat): (b: nat)
    ensures b <= 1
  {
    if bit < 8 then BitRead(read, bit) else BitRead(read, bit - 8)
  }

  /** The chip as setup_zynmcp23017 leaves it once the I2C device is open. */
  function Configured(fd: int32, basePin: uint16, i2cAddress: byte, intAPin: byte, intBPin: byte, regA: byte, regB: byte)
    : (c: Chip)
    ensures WellFormed(c) && c.enabled
    ensures LowByte(c.lastState) == regA && HighByte(c.lastState) == regB
  {
    Chip(true, fd, basePin, i2cAddress, intAPin, intBPin, regB * 0x100 + regA,
         seq(16, _ => NoAction), seq(16, _ => 0))
  }

  /** The pin's action entry replaced. */
  function WithAction(c: Chip, j: int, a: PinAction, num: uint16): (c': Chip)
    requires WellFormed(c) && 0 <= j < 16 && ActionFits(a, num)
    ensures WellFormed(c')
  {
    c.(pinAction := c.pinAction[j := a], pinActionNum := c.pinActionNum[j := num])
  }

  /**
   * The callback table after setup_zynmcp23017's line requests: the INTA
   * line is registered if it exists and its edge request succeeds, and only
   * then is the INTB line tried.
   */
  function LinesAfterSetup(t: seq<CallbackEntry>, lineA: Option<Line>, requestA: bool, isrA: LineCallback,
                           lineB: Option<Line>, requestB: bool, isrB: LineCallback): seq<CallbackEntry>
    requires lineA.Some? ==> lineA.value.offset < |t|
    requires lineB.Some? ==> lineB.value.offset < |t|
  {
    if lineA.None? || !requestA then t
    else
      var t1 := Registered(t, lineA.value, isrA);
      if lineB.None? || !requestB then t1 else Registered(t1, lineB.value, isrB)
  }

  class Mcp23017Table {
    /** `zynmcp23017s` */
    var chips: array<Chip>

    ghost predicate Valid()
      reads this, chips
    {
      chips.Length == MAX_NUM_MCP23017 && forall i :: 0 <= i < MAX_NUM_MCP23017 ==> WellFormed(chips[i])
    }

    constructor ()
      ensures Valid() && fresh(chips)
      ensures forall i :: 0 <= i < MAX_NUM_MCP23017 ==> chips[i] == ZeroChip
    {
      chips := new Chip[MAX_NUM_MCP23017](_ => ZeroChip);
    }

    /** reset_zynmcp23017s: every chip disabled, its descriptor zeroed; the rest of each entry kept. */
    method Reset()
      requires Valid()
      modifies chips
      ensures Valid()
      ensures forall i :: 0 <= i < MAX_NUM_MCP23017 ==> chips[i] == old(chips[i]).(fd := 0, enabled := false)
    {
      for i := 0 to MAX_NUM_MCP23017
        invariant forall k :: 0 <= k < i ==> chips[k] == old(chips[k]).(fd := 0, enabled := false)
        invariant forall k :: i <= k < MAX_NUM_MCP23017 ==> chips[k] == old(chips[k])
      {
        chips[i] := chips[i].(fd := 0, enabled := false);
      }
    }

    /**
     * setup_zynmcp23017.  `fd` is what wiringPiI2CSetup returns, `regA` and
     * `regB` the GPIOA and GPIOB readings, `lineA`/`lineB` what
     * gpiod_chip_get_line returns for the interrupt pins and
     * `requestA`/`requestB` whether their edge-event requests succeed.  A
     * failed line request leaves the chip enabled and reports 0.
     */
    method Setup(i: byte, basePin: uint16, i2cAddress: byte, intAPin: byte, intBPin: byte,
                 isrA: LineCallback, isrB: LineCallback, fd: int32, regA: byte, regB: byte,
                 lineA: Option<Line>, requestA: bool, lineB: Option<Line>, requestB: bool,
                 cbs: CallbackTable) returns (r: int)
      requires Valid()
      requires lineA.Some? ==> lineA.value.offset < cbs.entries.Length
      requires lineB.Some? ==> lineB.value.offset < cbs.entries.Length
      modifies chips, cbs.entries
      ensures Valid()
      ensures r == if i < MAX_NUM_MCP23017 && fd >= 0 && lineA.Some? && requestA && lineB.Some? && requestB then 1 else 0
      ensures chips[..] == if i < MAX_NUM_MCP23017 && fd >= 0
        then old(chips[..])[i := Configured(fd, basePin, i2cAddress, intAPin, intBPin, regA, regB)]
        else old(chips[..])
      ensures cbs.entries[..] == if i < MAX_NUM_MCP23017 && fd >= 0
        then LinesAfterSetup(old(cbs.entries[..]), lineA, requestA, isrA, lineB, requestB, isrB)
        else old(cbs.entries[..])
    {
      if i >= MAX_NUM_MCP23017 {
        return 0;
      }
      if fd < 0 {
        return 0;
      }
      chips[i] := Configured(fd, basePin, i2cAddress, intAPin, intBPin, regA, regB);
      if lineA.Some? {
        if requestA {
          var _ := cbs.RegisterCallback(lineA, isrA);
        } else {
          return 0;
        }
      } else {
        return 0;
      }
      if lineB.Some? {
        if requestB {
          var _ := cbs.RegisterCallback(lineB, isrB);
        } else {
          return 0;
        }
      } else {
        return 0;
      }
      return 1;
    }

    /** get_last_zynmcp23017_index: the highest enabled index, 0 when none is. */
    method GetLastIndex() returns (li: int)
      requires Valid()
      ensures 0 <= li < MAX_NUM_MCP23017
      ensures li > 0 ==> chips[li].enabled
      ensures forall k :: li < k < MAX_NUM_MCP23017 ==> !chips[k].enabled
    {
      li := 0;
      for i := 0 to MAX_NUM_MCP23017
        invariant 0 <= li < MAX_NUM_MCP23017
        invariant li > 0 ==> chips[li].enabled
        invariant forall k :: li < k < i ==> !chips[k].enabled
      {
        if chips[i].enabled {
          li := i;
        }
      }
    }

    /** pin2index_zynmcp23017 */
    method Pin2Index(pin: uint16) returns (r: int)
      requires Valid()
      ensures r == ChipIndex(chips[..], pin)
      ensures -1 <= r < MAX_NUM_MCP23017
      ensures r == -1 <==> forall k :: 0 <= k < MAX_NUM_MCP23017 ==> !Covers(chips[k], pin)
      ensures r >= 0 ==> Covers(chips[r], pin) && forall k :: 0 <= k < r ==> !Covers(chips[k], pin)
    {
      ChipIndexIsFirstCovering(chips[..], pin);
      for i := 0 to MAX_NUM_MCP23017
        invariant ChipIndexFrom(chips[..], pin, i) == ChipIndex(chips[..], pin)
      {
        if chips[i].enabled {
          if pin >= chips[i].basePin && pin < chips[i].basePin + 16 {
            return i;
          }
        }
      }
      return -1;
    }

    /**
     * setup_pin_action_zynmcp23017.  The number must name an entry of the
     * table the action updates, since the interrupt handler indexes that
     * table with it.  The chip found serves the pin, so the position is
     * always in 0..15 and the "out of range" branch never runs.
     */
    method SetupPinAction(pin: uint16, action: PinAction, num: uint16) returns (r: int)
      requires Valid() && ActionFits(action, num)
      modifies chips
      ensures Valid()
      ensures forall p :: ChipIndex(chips[..], p) == ChipIndex(old(chips[..]), p)
      ensures var i := ChipIndex(old(chips[..]), pin);
        && (i == -1 ==> r == 0 && chips[..] == old(chips[..]))
        && (i >= 0 ==>
              && 0 <= pin - old(chips[i]).basePin < 16
              && r == 1
              && chips[..] == old(chips[..])[i := WithAction(old(chips[i]), pin - old(chips[i]).basePin, action, num)])
    {
      var i := Pin2Index(pin);
      if i < 0 {
        return 0;
      }
      var j := pin - chips[i].basePin;
      ChipIndexKept(chips[..], i, WithAction(chips[i], j, action, num));
      chips[i] := WithAction(chips[i], j, action, num);
      return 1;
    }

    /** reset_pin_action_zynmcp23017 */
    method ResetPinAction(pin: uint16) returns (r: int)
      requires Valid()
      modifies chips
      ensures Valid()
      ensures forall p :: ChipIndex(chips[..], p) == ChipIndex(old(chips[..]), p)
      ensures var i := ChipIndex(old(chips[..]), pin);
        && (i == -1 ==> r == 0 && chips[..] == old(chips[..]))
        && (i >= 0 ==>
              && 0 <= pin - old(chips[i]).basePin < 16
              && r == 1
              && chips[..] == old(chips[..])[i := WithAction(old(chips[i]), pin - old(chips[i]).basePin, NoAction, 0)])
    {
      var i := Pin2Index(pin);
      if i < 0 {
        return 0;
      }
      var j := pin - chips[i].basePin;
      ChipIndexKept(chips[..], i, WithAction(chips[i], j, NoAction, 0));
      chips[i] := WithAction(chips[i], j, NoAction, 0);
      return 1;
    }

    /**
     * read_pin_zynmcp23017.  `read` is what the GPIO register of the pin's
     * bank returns; the reading also becomes that bank's last state.
     */
    method ReadPin(pin: uint16, read: byte) returns (r: int)
      requires Valid()
      modifies chips
      ensures Valid()
      ensures forall p :: ChipIndex(chips[..], p) == ChipIndex(old(chips[..]), p)
      ensures var i := ChipIndex(old(chips[..]), pin);
        && (i == -1 ==> r == -1 && chips[..] == old(chips[..]))
        && (i >= 0 ==>
              var c := old(chips[i]);
              var bit := pin - c.basePin;
              && 0 <= bit < 16
              && r == LevelIn(read, bit)
              && chips[..] == old(chips[..])[i := AfterRead(c, bit, read)])
    {
      var i := Pin2Index(pin);
      if i >= 0 {
        var bit := pin - chips[i].basePin;
        if bit < 8 {
          ChipIndexKept(chips[..], i, chips[i].(lastState := MergeBankA(chips[i].lastState, read)));
          chips[i] := chips[i].(lastState := MergeBankA(chips[i].lastState, read));
          return BitRead(read, bit);
        } else {
          ChipIndexKept(chips[..], i, chips[i].(lastState := MergeBankB(chips[i].lastState, read)));
          chips[i] := chips[i].(lastState := MergeBankB(chips[i].lastState, read));
          return BitRead(read, bit - 8);
        }
      }
      return -1;
    }

    /**
     * zynmcp23017_ISR for chip i and bank `bank` (0 = A, 1 = B), when the
     * bank's GPIO register reads `reg`: the returned updates are those of
     * the scan over the bank's change mask, and the reading becomes the
     * bank's last state.  `swPins` and `encPins` are the pins the switch and
     * encoder tables hold.
     */
    method Isr(i: byte, bank: byte, reg: byte, swPins: seq<int>, encPins: seq<(int, int)>) returns (d: seq<Dispatch>)
      requires Valid() && |swPins| == MAX_NUM_ZYNSWITCHES && |encPins| == MAX_NUM_ZYNCODERS
      modifies chips
      ensures Valid()
      ensures !(i < MAX_NUM_MCP23017 && old(chips[i]).enabled && bank <= 1) ==> d == [] && chips[..] == old(chips[..])
      ensures i < MAX_NUM_MCP23017 && old(chips[i]).enabled && bank == 0 ==>
        var c := old(chips[i]);
        && chips[..] == old(chips[..])[i := c.(lastState := MergeBankA(c.lastState, reg))]
        && d == Scan(c, 0, reg, BitXor(reg, LowByte(c.lastState)), 0, swPins, encPins)
      ensures i < MAX_NUM_MCP23017 && old(chips[i]).enabled && bank == 1 ==>
        var c := old(chips[i]);
        && chips[..] == old(chips[..])[i := c.(lastState := MergeBankB(c.lastState, reg))]
        && d == Scan(c, 8, reg, BitXor(reg, HighByte(c.lastState)), 0, swPins, encPins)
    {
      if i >= MAX_NUM_MCP23017 {
        return [];
      }
      var c := chips[i];
      if !c.enabled {
        return [];
      }
      var offset: nat;
      var rdiff: nat;
      if bank == 0 {
        offset := 0;
        rdiff := BitXor(reg, LowByte(c.lastState));
        chips[i] := c.(lastState := MergeBankA(c.lastState, reg));
      } else if bank == 1 {
        offset := 8;
        rdiff := BitXor(reg, HighByte(c.lastState));
        chips[i] := c.(lastState := MergeBankB(c.lastState, reg));
      } else {
        return [];
      }
      BitXorNarrow(reg, if bank == 0 then LowByte(c.lastState) else HighByte(c.lastState), 8);
      d := ScanBank(c, offset, reg, rdiff, swPins, encPins);
    }
  }

  /** The `while (rdiff != 0)` loop of zynmcp23017_ISR over one bank's change mask. */
  method ScanBank(c: Chip, offset: nat, reg: byte, rdiff0: nat, swPins: seq<int>, encPins: seq<(int, int)>)
    returns (d: seq<Dispatch>)
    requires ScanArgs(c, offset, swPins, encPins) && rdiff0 < Pow2(8)
    ensures d == Scan(c, offset, reg, rdiff0, 0, swPins, encPins)
  {
    var rdiff: nat := rdiff0;
    ghost var full := Scan(c, offset, reg, rdiff0, 0, swPins, encPins);
    d := [];
    var j: nat := 0;
    assert MaskBound(0) == Pow2(8);
    while rdiff != 0
      invariant j <= 8 && rdiff < MaskBound(j)
      invariant d + Scan(c, offset, reg, rdiff, j, swPins, encPins) == full
      decreases 8 - j
    {
      assert j < 8 by {
        MaskLeftBound(rdiff, j);
      }
      var u, cleared := ScanPosition(c, offset, reg, rdiff, j, swPins, encPins);
      ScanAdvance(c, offset, reg, rdiff, j, swPins, encPins, d, u, cleared, full);
      d := d + u;
      rdiff := cleared / 2;
      j := j + 1;
    }
  }

  /** One iteration of ScanBank keeps its invariant. */
  lemma ScanAdvance(c: Chip, offset: nat, reg: byte, r: nat, j: nat, swPins: seq<int>, encPins: seq<(int, int)>,
                    d: seq<Dispatch>, u: seq<Dispatch>, cleared: nat, full: seq<Dispatch>)
    requires ScanArgs(c, offset, swPins, encPins) && r != 0 && j < 8 && r < MaskBound(j)
    requires d + Scan(c, offset, reg, r, j, swPins, encPins) == full
    requires u == ScanStep(c, offset, reg, r, j, swPins, encPins)
    requires cleared / 2 == ScanRest(c, offset, r, j, swPins, encPins) && cleared <= r
    ensures (d + u) + Scan(c, offset, reg, cleared / 2, j + 1, swPins, encPins) == full
    ensures cleared / 2 < MaskBound(j + 1)
  {
    MaskLeftBound(cleared, j);
    ScanUnfold(c, offset, reg, r, j, swPins, encPins, u, cleared / 2);
    ConcatAssoc(d, u, Scan(c, offset, reg, cleared / 2, j + 1, swPins, encPins));
  }

  /** Scan with one more iteration written out. */
  lemma ScanUnfold(c: Chip, offset: nat, reg: byte, r: nat, j: nat, swPins: seq<int>, encPins: seq<(int, int)>,
                   u: seq<Dispatch>, rest: nat)
    requires ScanArgs(c, offset, swPins, encPins) && r != 0 && j < 8
    requires u == ScanStep(c, offset, reg, r, j, swPins, encPins) && rest == ScanRest(c, offset, r, j, swPins, encPins)
    ensures Scan(c, offset, reg, r, j, swPins, encPins) == u + Scan(c, offset, reg, rest, j + 1, swPins, encPins)
  {
  }

  /** What is left of an 8-bit mask after j shifts is below 2 to the power 8 - j. */
  function MaskBound(j: nat): nat
    requires j <= 8
  {
    [0x100, 0x80, 0x40, 0x20, 0x10, 8, 4, 2, 1][j]
  }

  /** What is left of an 8-bit mask after j shifts has 8 - j bits; none once all 8 are done. */
  lemma MaskLeftBound(r: nat, j: nat)
    requires j <= 8 && r < MaskBound(j)
    ensures j == 8 ==> r == 0
    ensures j < 8 ==> r / 2 < MaskBound(j + 1)
  {
    if j < 8 {
      assert MaskBound(j) == 2 * MaskBound(j + 1);
    }
  }

  /** One iteration's `switch` on the pin action of a changed position, before the shift. */
  method ScanPosition(c: Chip, offset: nat, reg: byte, rdiff: nat, j: nat, swPins: seq<int>, encPins: seq<(int, int)>)
    returns (u: seq<Dispatch>, cleared: nat)
    requires ScanArgs(c, offset, swPins, encPins) && j < 8
    ensures u == ScanStep(c, offset, reg, rdiff, j, swPins, encPins)
    ensures cleared / 2 == ScanRest(c, offset, rdiff, j, swPins, encPins) && cleared <= rdiff
  {
    u := [];
    cleared := rdiff;
    if rdiff % 2 == 1 {
      var k := c.pinActionNum[j + offset];
      match c.pinAction[j + offset]
      case SwitchAction =>
        var bitA := BankPosition(swPins[k], c, offset);
        u := [SwitchUpdate(k, BitRead(reg, bitA))];
      case EncoderAction =>
        var bitA := BankPosition(encPins[k].0, c, offset);
        var bitB := BankPosition(encPins[k].1, c, offset);
        u := [EncoderUpdate(k, BitRead(reg, bitA), BitRead(reg, bitB))];
        cleared := ClearPair(rdiff, bitA - j, bitB - j);
      case NoAction =>
    }
  }
}
