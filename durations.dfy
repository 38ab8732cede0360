/** Go's time.Duration: a signed 64-bit count of nanoseconds. */
module Durations {

  newtype Duration = x: int | -0x8000_0000_0000_0000 <= x < 0x8000_0000_0000_0000

  /** time.Second */
  const Second: Duration := 1_000_000_000
}
