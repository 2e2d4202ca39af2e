// The wiringPi emulation used when the firmware runs without GPIO
// hardware: a table of GPIO_MAX pins whose levels are driven from outside
// by POSIX real-time signals.
module WiringPiEmu {
  import opened CTypes

  const GPIO_MAX: nat := 15

  // pin modes, pull controls and interrupt edges (wiringPiEmu.h)
  const INPUT := 0
  const OUTPUT := 1
  const PWM_OUTPUT := 2
  const GPIO_CLOCK := 3
  const PUD_OFF := 0
  const PUD_DOWN := 1
  const PUD_UP := 2
  const INT_EDGE_SETUP := 0
  const INT_EDGE_FALLING := 1
  const INT_EDGE_RISING := 2
  const INT_EDGE_BOTH := 3

  // The real-time signal band as glibc on Linux reports it.
  const SIGRTMIN := 34
  const SIGRTMAX := 64

  /** The interrupt routines zyncoder.c hands to wiringPiISR. */
  datatype Isr = SwitchIsr(switch: nat) | EncoderIsr(encoder: nat)

  /** One entry of the emulated GPIO table. */
  datatype Pin = Pin(pin: int, mode: int, pud: int, isrMode: int, isr: Option<Isr>, status: uint32)

  /** A table entry as zero-initialised static storage holds it. */
  const ZeroPin := Pin(0, 0, 0, 0, None, 0)

  /** A table entry as wiringPiSetup leaves it. */
  function ResetPin(i: nat): Pin {
    Pin(i, INPUT, PUD_OFF, INT_EDGE_SETUP, None, 0)
  }

  /** The signal a driver raises to put `level` (0 or 1) on `pin`. */
  function SignalFor(pin: nat, level: nat): int {
    SIGRTMIN + 2 * pin + level
  }

  /** The pin and level the handler decodes from an in-band signal offset. */
  function DecodeSignal(offset: nat): (pl: (nat, nat))
    ensures pl.1 <= 1
  {
    (offset / 2, offset % 2)
  }

  /** Decoding recovers the pin and level of the signal raised for them. */
  lemma DecodeSignalFor(pin: nat, level: nat)
    requires level <= 1
    ensures DecodeSignal(SignalFor(pin, level) - SIGRTMIN) == (pin, level)
  {
  }

  /** Every signal of the handled band is the signal for the pin and level it decodes to. */
  lemma SignalForDecode(signo: int)
    requires SIGRTMIN <= signo < SIGRTMIN + 2 * GPIO_MAX
    ensures DecodeSignal(signo - SIGRTMIN).0 < GPIO_MAX
    ensures SignalFor(DecodeSignal(signo - SIGRTMIN).0, DecodeSignal(signo - SIGRTMIN).1) == signo
  {
  }

  class GpioEmu {
    var gpio: array<Pin>
    /** The interrupt routines the signal handler has called, oldest first. */
    var fired: seq<Isr>

    ghost predicate Valid()
      reads this
    {
      gpio.Length == GPIO_MAX
    }

    constructor ()
      ensures Valid() && fresh(gpio) && fired == []
      ensures forall i :: 0 <= i < GPIO_MAX ==> gpio[i] == ZeroPin
    {
      gpio := new Pin[GPIO_MAX](_ => ZeroPin);
      fired := [];
    }

    /** wiringPiSetup: every pin back to input, no pull, no routine, level 0. */
    method Setup() returns (r: int)
      requires Valid()
      modifies gpio
      ensures Valid() && r == 1
      ensures forall i :: 0 <= i < GPIO_MAX ==> gpio[i] == ResetPin(i)
    {
      for i := 0 to GPIO_MAX
        invariant forall k :: 0 <= k < i ==> gpio[k] == ResetPin(k)
      {
        gpio[i] := ResetPin(i);
      }
      r := 1;
    }

    /** The handler for the real-time signal band: set a level, then run the pin's routine. */
    method SignalHandler(signo: int)
      requires Valid()
      requires SIGRTMIN <= signo <= SIGRTMAX ==> signo < SIGRTMIN + 2 * GPIO_MAX
      modifies this`fired, gpio
      ensures Valid()
      ensures !(SIGRTMIN <= signo <= SIGRTMAX) ==> gpio[..] == old(gpio[..]) && fired == old(fired)
      ensures SIGRTMIN <= signo <= SIGRTMAX ==>
        var (p, level) := DecodeSignal(signo - SIGRTMIN);
        && p < GPIO_MAX
        && gpio[..] == old(gpio[..])[p := old(gpio[p]).(status := level)]
        && fired == old(fired) + (if gpio[p].isr.Some? then [gpio[p].isr.value] else [])
    {
      if SIGRTMIN <= signo <= SIGRTMAX {
        var offset := signo - SIGRTMIN;
        var level := offset % 2;
        var p := offset / 2;
        gpio[p] := gpio[p].(status := level);
        if gpio[p].isr.Some? {
          fired := fired + [gpio[p].isr.value];
        }
      }
    }

    method PinMode(pin: nat, mode: int)
      requires Valid()
      modifies gpio
      ensures Valid()
      ensures gpio[..] == if pin < GPIO_MAX then old(gpio[..])[pin := old(gpio[pin]).(mode := mode)] else old(gpio[..])
    {
      if pin < GPIO_MAX {
        gpio[pin] := gpio[pin].(mode := mode);
      }
    }

    /** Selecting a pull also sets the idle level: 1 for pull-up, 0 otherwise. */
    method PullUpDnControl(pin: nat, pud: int)
      requires Valid()
      modifies gpio
      ensures Valid()
      ensures gpio[..] == if pin < GPIO_MAX
        then old(gpio[..])[pin := old(gpio[pin]).(pud := pud, status := if pud == PUD_UP then 1 else 0)]
        else old(gpio[..])
    {
      if pin < GPIO_MAX {
        gpio[pin] := gpio[pin].(pud := pud, status := if pud == PUD_UP then 1 else 0);
      }
    }

    /** The mode check is disabled in the source: any pin may be written. */
    method DigitalWrite(pin: nat, value: int32)
      requires Valid()
      modifies gpio
      ensures Valid()
      ensures gpio[..] == if pin < GPIO_MAX then old(gpio[..])[pin := old(gpio[pin]).(status := ToUint32(value))] else old(gpio[..])
    {
      if pin < GPIO_MAX {
        gpio[pin] := gpio[pin].(status := ToUint32(value));
      }
    }

    /** The stored level as an `int`; 0 for a pin outside the table. */
    method DigitalRead(pin: nat) returns (r: int32)
      requires Valid()
      ensures pin >= GPIO_MAX ==> r == 0
      ensures pin < GPIO_MAX ==> ToUint32(r) == gpio[pin].status && r == ToInt32(gpio[pin].status)
    {
      if pin >= GPIO_MAX {
        r := 0;
      } else {
        r := ToInt32(gpio[pin].status);
      }
    }

    /** The emulation has no analog inputs. */
    method AnalogRead(pin: nat) returns (r: int)
      ensures r == 0
    {
      r := 0;
    }

    method WiringPiIsr(pin: nat, mode: int, f: Option<Isr>) returns (r: int)
      requires Valid()
      modifies gpio
      ensures Valid()
      ensures r == if pin < GPIO_MAX then 1 else 0
      ensures gpio[..] == if pin < GPIO_MAX then old(gpio[..])[pin := old(gpio[pin]).(isrMode := mode, isr := f)] else old(gpio[..])
    {
      if pin >= GPIO_MAX {
        return 0;
      }
      gpio[pin] := gpio[pin].(isrMode := mode, isr := f);
      r := 1;
    }
  }

  /** A value written to a pin is the value read back from it. */
  method WriteThenRead(emu: GpioEmu, pin: nat, value: int32) returns (r: int32)
    requires emu.Valid() && pin < GPIO_MAX
    modifies emu.gpio
    ensures r == value
  {
    emu.DigitalWrite(pin, value);
    r := emu.DigitalRead(pin);
    SignedUnsignedRoundTrip(value);
    SignedUnsignedRoundTrip(r);
  }
}
