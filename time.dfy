/** Go's `time.Duration`: a count of nanoseconds. */
module Time {

  /** Go's `time.Duration` is an int64; conversions here never approach its bounds. */
  type Duration = int

  const Nanosecond: Duration := 1
  const Second: Duration := 1_000_000_000 * Nanosecond
}
