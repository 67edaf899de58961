/** Result types for the error returns of the service. */
module Wrappers {

  datatype Option<+T> = None | Some(value: T)

  datatype Result<+T, +E> = Success(value: T) | Failure(error: E)

  datatype Outcome<+E> = Pass | Fail(error: E)
}

/** The 64-bit signed integers the service computes durations with. */
module MachineInts {

  const MIN_INT64: int := -0x8000_0000_0000_0000
  const MAX_INT64: int := 0x7fff_ffff_ffff_ffff
  const TWO_TO_THE_64: int := 0x1_0000_0000_0000_0000

  predicate IsInt64(x: int) {
    MIN_INT64 <= x <= MAX_INT64
  }

  /** Two's complement wrap-around: the only 64-bit value congruent to `x`. */
  function Wrap64(x: int): (w: int)
    ensures IsInt64(w)
    ensures IsInt64(x) ==> w == x
    ensures exists k: int :: x == w + k * TWO_TO_THE_64
  {
    var low := x % TWO_TO_THE_64;
    assert x == low + (x / TWO_TO_THE_64) * TWO_TO_THE_64;
    if low <= MAX_INT64 then low
    else
      assert x == low - TWO_TO_THE_64 + (x / TWO_TO_THE_64 + 1) * TWO_TO_THE_64;
      low - TWO_TO_THE_64
  }

  /** Wrapping loses the value exactly when it does not fit. */
  lemma WrapIsExactIffInRange(x: int)
    ensures Wrap64(x) == x <==> IsInt64(x)
  {
  }

  /** Wrapping takes off a multiple of 2^64. */
  lemma WrapIs(x: int, k: int, w: int)
    requires IsInt64(w) && x == w + k * TWO_TO_THE_64
    ensures Wrap64(x) == w
  {
    var j :| x == Wrap64(x) + j * TWO_TO_THE_64;
    assert (j - k) * TWO_TO_THE_64 == w - Wrap64(x);
  }
}
