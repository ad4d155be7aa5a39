/**
 * Swift's numeric conversions used by the core, written out over exact reals.
 * `Double` values are modelled as `real`; rounding of floating-point
 * arithmetic is not modelled.
 */
module SwiftNumerics {

  /** `Int(x)` for a `Double` x: rounds toward zero (Dafny's `Floor` rounds down). */
  function Trunc(x: real): (r: int)
    ensures 0.0 <= x ==> r as real <= x < r as real + 1.0
    ensures x < 0.0 ==> r as real - 1.0 < x <= r as real
  {
    if 0.0 <= x then x.Floor else -((-x).Floor)
  }

  /** Truncation of a value strictly between -1 and 1 is zero. */
  lemma TruncOfFractionIsZero(x: real)
    requires -1.0 < x < 1.0
    ensures Trunc(x) == 0
  {
  }
}
