// The LM4811 headphone amplifier's volume, stepped with pulses on its CLK
// line while its VOL line gives the direction (1 up, 0 down).
//
// The two output lines are the amplifier's only input, so the model
// records every value written to them, in order; the delays between the
// writes are left out.
module Lm4811 {
  import opened CTypes

  const AMP_MAX_VOL: byte := 15

  /** One value set on one of the two lines. */
  datatype LineWrite = Vol(v: byte) | Clk(v: byte)

  /** n clock pulses, each CLK high then low. */
  function Pulses(n: nat): (ws: seq<LineWrite>)
    ensures |ws| == 2 * n
  {
    if n == 0 then [] else Pulses(n - 1) + [Clk(1), Clk(0)]
  }

  /** What lm4811_volume_steps(n) writes: nothing for 0, else the direction and then |n| pulses. */
  function StepWrites(n: int): seq<LineWrite> {
    if n == 0 then []
    else if n > 0 then [Vol(1)] + Pulses(n)
    else [Vol(0)] + Pulses(-n)
  }

  /** The direction the VOL line gives after the writes, `up` before any. */
  function Direction(ws: seq<LineWrite>, up: bool): bool {
    if ws == [] then up
    else if ws[|ws| - 1].Vol? then ws[|ws| - 1].v != 0
    else Direction(ws[..|ws| - 1], up)
  }

  /**
   * The volume change the writes ask the amplifier for: one step per
   * rising CLK edge, up or down as the VOL line says at that moment.
   */
  function NetSteps(ws: seq<LineWrite>, up: bool): int {
    if ws == [] then 0
    else
      var prev := ws[..|ws| - 1];
      NetSteps(prev, up) + (if ws[|ws| - 1] == Clk(1) then (if Direction(prev, up) then 1 else -1) else 0)
  }

  /** The last level written to CLK, `low` before any. */
  function ClkLevel(ws: seq<LineWrite>, low: byte): byte {
    if ws == [] then low
    else if ws[|ws| - 1].Clk? then ws[|ws| - 1].v
    else ClkLevel(ws[..|ws| - 1], low)
  }

  /** One more write: a rising CLK edge steps once in the current direction, a VOL write sets the direction. */
  lemma AppendWrite(x: seq<LineWrite>, w: LineWrite, up: bool)
    ensures NetSteps(x + [w], up) == NetSteps(x, up) + (if w == Clk(1) then (if Direction(x, up) then 1 else -1) else 0)
    ensures Direction(x + [w], up) == if w.Vol? then w.v != 0 else Direction(x, up)
    ensures ClkLevel(x + [w], 0) == if w.Clk? then w.v else ClkLevel(x, 0)
  {
    assert (x + [w])[..|x|] == x;
  }

  /** Pulses after any writes step the volume once each, in the direction already set, and leave CLK low. */
  lemma {:induction false} PulsesStep(p: seq<LineWrite>, k: nat, up: bool)
    ensures NetSteps(p + Pulses(k), up) == NetSteps(p, up) + (if Direction(p, up) then k as int else -(k as int))
    ensures Direction(p + Pulses(k), up) == Direction(p, up)
    ensures k > 0 ==> ClkLevel(p + Pulses(k), 0) == 0
  {
    if k > 0 {
      PulsesStep(p, k - 1, up);
      var x := p + Pulses(k - 1);
      var y := x + [Clk(1)];
      assert p + Pulses(k) == y + [Clk(0)];
      AppendWrite(x, Clk(1), up);
      AppendWrite(y, Clk(0), up);
    } else {
      assert p + Pulses(k) == p;
    }
  }

  /**
   * The writes of lm4811_volume_steps(n) ask for exactly n steps, whatever
   * came before, and leave CLK low; there is one rising edge per step.
   */
  lemma StepWritesStepBy(p: seq<LineWrite>, n: int, up: bool)
    ensures NetSteps(p + StepWrites(n), up) == NetSteps(p, up) + n
    ensures n != 0 ==> ClkLevel(p + StepWrites(n), 0) == 0 && |StepWrites(n)| == 1 + 2 * (if n > 0 then n else -n)
    ensures n == 0 ==> p + StepWrites(n) == p
  {
    if n != 0 {
      var d := [Vol(if n > 0 then 1 else 0)];
      var k := if n > 0 then n else -n;
      assert StepWrites(n) == d + Pulses(k);
      assert p + StepWrites(n) == (p + d) + Pulses(k);
      assert (p + d)[..|p|] == p;
      assert Direction(p + d, up) == (n > 0);
      assert NetSteps(p + d, up) == NetSteps(p, up);
      PulsesStep(p + d, k, up);
    } else {
      assert p + [] == p;
    }
  }

  /** The volume lm4811_set_volume settles on. */
  function Clamped(vol: byte): (r: byte)
    ensures r <= AMP_MAX_VOL
    ensures vol <= AMP_MAX_VOL ==> r == vol
    ensures vol > AMP_MAX_VOL ==> r == AMP_MAX_VOL
  {
    if vol > AMP_MAX_VOL then AMP_MAX_VOL else vol
  }

  class Amp {
    /** `current_volume` */
    var currentVolume: byte
    /** Every value set on the VOL and CLK lines, oldest first. */
    var writes: seq<LineWrite>

    constructor ()
      ensures currentVolume == 0 && writes == []
    {
      currentVolume := 0;
      writes := [];
    }

    /** lm4811_volume_steps */
    method VolumeSteps(n: int)
      modifies this`writes
      ensures writes == old(writes) + StepWrites(n)
    {
      if n == 0 {
        assert StepWrites(n) == [];
        return;
      }
      var dir: byte := 1;
      var count: nat;
      if n > 0 {
        count := n;
      } else {
        dir := 0;
        count := -n;
      }
      writes := writes + [Vol(dir)];
      ghost var start := writes;
      for i := 0 to count
        invariant writes == start + Pulses(i)
      {
        // CLK high, then low
        writes := writes + [Clk(1), Clk(0)];
        assert writes == start + Pulses(i + 1) by {
          assert Pulses(i + 1) == Pulses(i) + [Clk(1), Clk(0)];
        }
      }
      assert StepWrites(n) == [Vol(dir)] + Pulses(count);
    }

    /** lm4811_reset_volume: fifteen steps down, whatever the volume was, then volume 0. */
    method ResetVolume()
      modifies this`writes, this`currentVolume
      ensures writes == old(writes) + StepWrites(-(AMP_MAX_VOL as int))
      ensures currentVolume == 0
    {
      VolumeSteps(-(AMP_MAX_VOL as int));
      currentVolume := 0;
    }

    /**
     * lm4811_set_volume: the volume is clamped to AMP_MAX_VOL, the
     * amplifier is stepped by the difference from the current volume, and
     * the new volume is returned.
     */
    method SetVolume(vol: byte) returns (r: byte)
      modifies this`writes, this`currentVolume
      ensures r == Clamped(vol) && currentVolume == r
      ensures writes == old(writes) + StepWrites(r - old(currentVolume))
    {
      var v := vol;
      if v > AMP_MAX_VOL {
        v := AMP_MAX_VOL;
      }
      var nSteps := v - currentVolume;
      if nSteps != 0 {
        VolumeSteps(nSteps);
        currentVolume := v;
      } else {
        assert StepWrites(nSteps) == [];
      }
      return currentVolume;
    }

    /** lm4811_get_volume */
    method GetVolume() returns (r: byte)
      ensures r == currentVolume
    {
      return currentVolume;
    }

    /** lm4811_end: the volume reset, then 1. */
    method End() returns (r: int)
      modifies this`writes, this`currentVolume
      ensures writes == old(writes) + StepWrites(-(AMP_MAX_VOL as int)) && currentVolume == 0
      ensures r == 1
    {
      ResetVolume();
      return 1;
    }
  }

  /** lm4811_get_volume_max */
  function GetVolumeMax(): (r: byte)
    ensures r == AMP_MAX_VOL
  {
    AMP_MAX_VOL
  }

  /**
   * After the volume is set from `cur`, the pulses sent since ask the
   * amplifier for exactly the change to the clamped volume; setting the
   * current volume again sends nothing.
   */
  lemma SetVolumeStepsTo(p: seq<LineWrite>, cur: byte, vol: byte, up: bool)
    ensures NetSteps(p + StepWrites(Clamped(vol) - cur), up) == NetSteps(p, up) + Clamped(vol) - cur
    ensures Clamped(vol) == cur ==> p + StepWrites(Clamped(vol) - cur) == p
  {
    StepWritesStepBy(p, Clamped(vol) - cur, up);
  }
}
