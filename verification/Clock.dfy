/** Instants and durations are integers counting nanoseconds, as in Go's time package. */
module Clock {
  type Time = int
  type Duration = int

  const SECOND: Duration := 1_000_000_000
  const MINUTE: Duration := 60 * SECOND

  lemma Nanoseconds()
    ensures SECOND == 1_000_000_000 && MINUTE == 60_000_000_000
  {
  }
}
