/**
 Instants as the program's time library has them: a wall reading and, for an instant
 read from the clock in this process, a monotonic reading as well. Two instants that
 both carry a monotonic reading are compared and subtracted by it alone.
 */
module WallClock {
  import opened Options

  const SECOND := 1_000_000_000
  const MINUTE := 60 * SECOND
  const HOUR := 60 * MINUTE

  datatype Instant = Instant(wall: int, mono: Option<int>)

  function Sub(a: Instant, b: Instant): int {
    if a.mono.Some? && b.mono.Some? then a.mono.value - b.mono.value else a.wall - b.wall
  }

  predicate IsAfter(a: Instant, b: Instant) {
    Sub(a, b) > 0
  }

  function Add(t: Instant, d: int): Instant {
    Instant(t.wall + d, if t.mono.Some? then Some(t.mono.value + d) else None)
  }

  function Stripped(t: Instant): Instant {
    t.(mono := None)
  }

  /** How far the wall clock is ahead of the monotonic clock. */
  function Offset(t: Instant): int
    requires t.mono.Some?
  {
    t.wall - t.mono.value
  }
}
