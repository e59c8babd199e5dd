/** One clock for everything: an instant, or a duration, is a whole number of nanoseconds. */
module Clock {
  const SECOND: int := 1_000_000_000

  /** Time.Unix: the whole second an instant falls in, rounded down. */
  function Unix(t: int): int {
    t / SECOND
  }

  // The part of an instant that Unix drops.
  function Fraction(t: int): int {
    t % SECOND
  }

  /** int64(d.Seconds()): whole seconds, rounded toward zero. */
  function WholeSeconds(d: int): int {
    if d >= 0 then d / SECOND else -((-d) / SECOND)
  }
}
