/** Lengths of time in microseconds, the unit of every instant in this project. */
module Durations {

  const MINUTE: int := 60 * 1_000_000
  const HOUR: int := 60 * MINUTE
  const DAY: int := 24 * HOUR
}
