/** Lengths of time, in microseconds. */
module Units {
  const SECOND: int := 1_000_000
  const MINUTE: int := 60 * SECOND
  const HOUR: int := 60 * MINUTE
  const DAY: int := 24 * HOUR
}
