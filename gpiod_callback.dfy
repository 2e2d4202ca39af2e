// Pin numbering tables and the table of GPIO line callbacks served by the
// libgpiod event thread.
module GpiodCallback {
  import opened CTypes

  /** wiringPi pin number => Broadcom GPIO number; -1 where the pin has no GPIO. */
  const Wpi2Gpio: seq<int> := [
    17, 18, 27, 22, 23, 24, 25, 4, 2, 3, 8, 7, 10, 9, 11, 14,
    15, -1, -1, -1, -1, 5, 6, 13, 19, 26, 12, 16, 20, 21, 0, 1]

  /** Broadcom GPIO number => wiringPi pin number. */
  const Gpio2Wpi: seq<int> := [
    30, 31, 8, 9, 7, 21, 22, 11, 10, 13, 12, 14, 26, 23, 15, 16,
    27, 0, 1, 24, 28, 29, 3, 4, 5, 6, 25, 2]

  /** The wiringPi pins 17 to 20 are the only ones without a GPIO. */
  lemma {:induction false} UnmappedWiringPiPins(w: nat)
    requires w < |Wpi2Gpio|
    ensures Wpi2Gpio[w] == -1 <==> 17 <= w <= 20
    ensures Wpi2Gpio[w] != -1 ==> 0 <= Wpi2Gpio[w] < |Gpio2Wpi|
  {
  }

  /** Every mapped wiringPi pin comes back from its GPIO number. */
  lemma {:induction false} Gpio2WpiInvertsWpi2Gpio(w: nat)
    requires w < |Wpi2Gpio| && Wpi2Gpio[w] >= 0
    ensures Wpi2Gpio[w] < |Gpio2Wpi| && Gpio2Wpi[Wpi2Gpio[w]] == w
  {
    if w < 8 {
    } else if w < 16 {
    } else if w < 24 {
    } else {
    }
  }

  /** Every GPIO number comes back from its wiringPi pin. */
  lemma {:induction false} Wpi2GpioInvertsGpio2Wpi(g: nat)
    requires g < |Gpio2Wpi|
    ensures 0 <= Gpio2Wpi[g] < |Wpi2Gpio| && Wpi2Gpio[Gpio2Wpi[g]] == g
  {
  }

  /** Two wiringPi pins never share a GPIO. */
  lemma Wpi2GpioInjective(w1: nat, w2: nat)
    requires w1 < |Wpi2Gpio| && w2 < |Wpi2Gpio| && Wpi2Gpio[w1] >= 0
    requires Wpi2Gpio[w1] == Wpi2Gpio[w2]
    ensures w1 == w2
  {
    Gpio2WpiInvertsWpi2Gpio(w1);
    Gpio2WpiInvertsWpi2Gpio(w2);
  }

  /** A GPIO line (`struct gpiod_line`), known by its offset on the chip. */
  datatype Line = Line(offset: nat)

  /** The routines registered on GPIO lines: the MCP23017 bank interrupt handlers. */
  datatype LineCallback = BankIsr(chip: nat, bank: nat)

  datatype CallbackEntry = CallbackEntry(pin: int, line: Option<Line>, callback: Option<LineCallback>)

  const NoCallback := CallbackEntry(-1, None, None)

  /** The lines of a table, in table order. */
  function Lines(s: seq<CallbackEntry>): seq<Line> {
    if s == [] then []
    else (if s[0].line.Some? then [s[0].line.value] else []) + Lines(s[1..])
  }

  lemma {:induction false} LinesAppend(s: seq<CallbackEntry>, e: CallbackEntry)
    ensures Lines(s + [e]) == Lines(s) + (if e.line.Some? then [e.line.value] else [])
  {
    if s == [] {
      assert s + [e] == [e];
    } else {
      var t := s + [e];
      assert t[0] == s[0];
      assert t[1..] == s[1..] + [e];
      LinesAppend(s[1..], e);
      assert Lines(t) == (if s[0].line.Some? then [s[0].line.value] else []) + Lines(s[1..] + [e]);
    }
  }

  /** A table has lines to watch exactly when some entry holds one. */
  lemma {:induction false} LinesEmpty(s: seq<CallbackEntry>)
    ensures Lines(s) == [] <==> forall k :: 0 <= k < |s| ==> s[k].line.None?
  {
    if s != [] {
      LinesEmpty(s[1..]);
      assert forall k :: 1 <= k < |s| ==> s[k] == s[1..][k - 1];
    }
  }

  /** The lines of a table on which nothing has been registered since it was cleared. */
  lemma {:induction false} ClearedTableHasNoLines(n: nat)
    ensures Lines(seq(n, _ => NoCallback)) == []
  {
    LinesEmpty(seq(n, _ => NoCallback));
  }

  class CallbackTable {
    /** `rpi_gpiod_callbacks`, one entry per GPIO line offset. */
    var entries: array<CallbackEntry>

    constructor (numGpioPins: nat)
      ensures fresh(entries) && entries.Length == numGpioPins
      ensures forall i :: 0 <= i < numGpioPins ==> entries[i] == CallbackEntry(0, None, None)
    {
      entries := new CallbackEntry[numGpioPins](_ => CallbackEntry(0, None, None));
    }

    /** The table-clearing part of gpiod_init_callbacks. */
    method InitCallbacks()
      modifies entries
      ensures entries[..] == seq(entries.Length, _ => NoCallback)
    {
      for i := 0 to entries.Length
        invariant forall k :: 0 <= k < i ==> entries[k] == NoCallback
      {
        entries[i] := NoCallback;
      }
    }

    /** A missing line registers nothing; otherwise the entry at the line's offset takes the callback. */
    method RegisterCallback(line: Option<Line>, callback: LineCallback) returns (r: int)
      requires line.Some? ==> line.value.offset < entries.Length
      modifies entries
      ensures r == if line.Some? then 1 else 0
      ensures entries[..] == if line.None? then old(entries[..])
        else old(entries[..])[line.value.offset := CallbackEntry(line.value.offset, line, Some(callback))]
    {
      if line.Some? {
        var pin := line.value.offset;
        entries[pin] := CallbackEntry(pin, line, Some(callback));
        return 1;
      }
      return 0;
    }

    method UnregisterCallback(line: Option<Line>) returns (r: int)
      requires line.Some? ==> line.value.offset < entries.Length
      modifies entries
      ensures r == if line.Some? then 1 else 0
      ensures entries[..] == if line.None? then old(entries[..])
        else old(entries[..])[line.value.offset := NoCallback]
    {
      if line.Some? {
        entries[line.value.offset] := NoCallback;
        return 1;
      }
      return 0;
    }

    /**
     * gpiod_start_callbacks: collect the registered lines into the bulk the
     * event thread waits on; with none there is no thread.  Whether
     * pthread_create succeeds is the parameter `threadCreated`.
     */
    method StartCallbacks(threadCreated: bool) returns (r: int, bulk: seq<Line>)
      ensures bulk == Lines(entries[..])
      ensures r == 1 <==> threadCreated && exists k :: 0 <= k < entries.Length && entries[k].line.Some?
      ensures r == 0 || r == 1
    {
      bulk := [];
      var count := 0;
      for i := 0 to entries.Length
        invariant bulk == Lines(entries[..i])
        invariant count == |bulk|
      {
        assert entries[..i + 1] == entries[..i] + [entries[i]];
        LinesAppend(entries[..i], entries[i]);
        if entries[i].line.Some? {
          bulk := bulk + [entries[i].line.value];
          count := count + 1;
        }
      }
      assert entries[..entries.Length] == entries[..];
      LinesEmpty(entries[..]);
      if count > 0 {
        r := if threadCreated then 1 else 0;
      } else {
        r := 0;
      }
    }
  }
}
