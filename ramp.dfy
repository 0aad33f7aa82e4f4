/** The volume ramp arithmetic of the control process: one up step and
    one down step, each taken from the base volume captured at startup
    and the current volume.

    The C code computes `base_volume * 1.26` in `double` and stores the
    updated volume back into a `long`.  Here the product is the exact
    rational base * 126/100 (a Dafny real literal such as 1.26 is exact),
    and the store is truncation toward zero, as C's conversion from
    floating point to an integer type does. */
module Ramp {

  /** Power ratio of a +1.0 dB gain: the ceiling is GAIN times the base volume. */
  const GAIN: real := 1.26

  /** The volume ceiling, `base_volume * 1.26`. */
  function Ceiling(base: int): real {
    base as real * GAIN
  }

  /** The floor that a down step can never reach or cross from a volume in
      (base, ceiling]: base - 0.013 * base - 1. */
  function Lower(base: int): real {
    base as real - 0.013 * base as real - 1.0
  }

  /** Conversion of a floating-point value to `long`: the integer part,
      rounding toward zero. */
  function Trunc(x: real): (r: int)
    ensures 0.0 <= x ==> r as real <= x < r as real + 1.0
    ensures x < 0.0 ==> r as real - 1.0 < x <= r as real
  {
    if 0.0 <= x then x.Floor else -((-x).Floor)
  }

  /** The guard of `volume_fader_up`: the current volume is below the ceiling. */
  predicate UpGuard(base: int, current: int) {
    (current as real) < Ceiling(base)
  }

  /** The guard of `volume_fader_down`: the current volume is above the base. */
  predicate DownGuard(base: int, current: int) {
    current > base
  }

  /** The volume after one up step.  The step adds a tenth of the distance
      to the ceiling; it never lowers the volume and, from a non-negative
      volume below the ceiling, never reaches the ceiling. */
  function UpStep(base: int, current: int): (r: int)
    ensures !UpGuard(base, current) ==> r == current
    ensures current <= r
    ensures 0 <= current && UpGuard(base, current) ==> (r as real) < Ceiling(base)
  {
    if UpGuard(base, current) then
      Trunc(current as real + (Ceiling(base) - current as real) / 10.0)
    else
      current
  }

  /** The volume after one down step.  The step subtracts a twentieth of the
      (signed) distance to the ceiling.  From a volume in (base, ceiling] it
      never raises the volume, lowers it strictly unless the volume sits
      exactly on the ceiling, and stays above Lower(base), which lies below
      the base: the step can overshoot the base.  Above the ceiling the
      subtracted term is negative: the step never lowers a non-negative
      volume there, and raises it once it is at least 20 above the ceiling
      (a smaller rise is cancelled by truncation). */
  function DownStep(base: int, current: int): (r: int)
    ensures !DownGuard(base, current) ==> r == current
    ensures (current as real) <= Ceiling(base) ==> r <= current
    ensures DownGuard(base, current) && (current as real) < Ceiling(base) ==> r < current
    ensures DownGuard(base, current) && (current as real) <= Ceiling(base) ==> Lower(base) < r as real
    ensures 0 <= current && Ceiling(base) < current as real ==> current <= r
    ensures 0 <= current && Ceiling(base) + 20.0 <= current as real ==> current < r
  {
    if DownGuard(base, current) then
      Trunc(current as real - (Ceiling(base) - current as real) / 20.0)
    else
      current
  }

  /** From a non-negative volume, an up step leaves the volume where it is
      exactly when the volume is less than 10 below the ceiling: once the
      remaining gap is under 10, truncation cancels the step and repeated
      up steps stall short of the ceiling. */
  lemma UpStallsIff(base: int, current: int)
    requires 0 <= current
    ensures UpStep(base, current) == current <==> Ceiling(base) - current as real < 10.0
  {
  }

  /** At or below the ceiling, a down step is a fixed point exactly when the
      volume is at most the base or exactly on the ceiling. */
  lemma DownFixedIff(base: int, current: int)
    requires (current as real) <= Ceiling(base)
    ensures DownStep(base, current) == current <==>
            current <= base || current as real == Ceiling(base)
  {
  }

  /** Overshoot: one down step from base + 1 lands strictly below the base
      exactly when the base is at least 81 (a non-negative base). */
  lemma DownOvershootsIff(base: int)
    requires 0 <= base
    ensures DownStep(base, base + 1) < base <==> 81 <= base
  {
  }
}
