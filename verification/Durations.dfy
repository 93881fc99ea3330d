/** Times and durations as Go has them: a difference of two times saturates. */
module Durations {
  /** Nanoseconds since the zero time. */
  type Time = nat

  const MAX_DURATION := 0x7fff_ffff_ffff_ffff
  const MIN_DURATION := -0x8000_0000_0000_0000

  function Sub(t: Time, u: Time): int {
    if t - u > MAX_DURATION then MAX_DURATION else if t - u < MIN_DURATION then MIN_DURATION else t - u
  }
}
