/** The bounded search for the latest activation of a schedule. */
module ScheduleSearch {
  import opened Options
  import opened WallClock

  /** The next activation after a wall-clock time, if any. */
  type Schedule = int -> Option<int>

  const FUEL := 100_000
  const CATCH_UP_WINDOW := 48 * HOUR

  /** `next` finds the least activation after its argument; activations are a minute or more apart. */
  ghost predicate Follows(next: Schedule, active: int -> bool) {
    && (forall t :: next(t).None? ==> forall a | a > t :: !active(a))
    && (forall t :: next(t).Some? ==>
          && next(t).value > t && active(next(t).value)
          && forall a | t < a < next(t).value :: !active(a))
    && (forall a, b | a < b && active(a) && active(b) :: b - a >= MINUTE)
  }

  /** `last` is the greatest activation in the window that ends at `now`, none exactly if there is none. */
  ghost predicate IsLatest(active: int -> bool, now: int, lookback: int, last: Option<int>) {
    if last.None? then forall a | now - lookback - SECOND < a <= now :: !active(a)
    else
      && now - lookback - SECOND < last.value <= now && active(last.value)
      && forall a | last.value < a <= now :: !active(a)
  }

  /** The search never runs out of fuel: a minute per activation covers any window this short. */
  method PreviousOccurrence(next: Schedule, ghost active: int -> bool, now: int, lookback: int)
    returns (last: Option<int>)
    requires Follows(next, active)
    requires 0 <= lookback && lookback + SECOND <= (FUEL - 1) * MINUTE
    ensures IsLatest(active, now, lookback, last)
  {
    var start := now - lookback - SECOND;
    last := None;
    var n := next(start);
    var i := 0;
    while i < FUEL && n.Some? && n.value <= now
      invariant 0 <= i <= FUEL
      invariant last.None? <==> i == 0
      invariant n == next(if last.None? then start else last.value)
      invariant last.Some? ==>
        && start < last.value <= now && active(last.value)
        && last.value >= start + 1 + (i - 1) * MINUTE
    {
      if last.Some? { Apart(next, active, last.value, n.value); }
      last := n;
      n := next(n.value);
      i := i + 1;
    }
    if i == FUEL { assert false; }
  }

  lemma Apart(next: Schedule, active: int -> bool, a: int, b: int)
    requires Follows(next, active) && a < b && active(a) && active(b)
    ensures b >= a + MINUTE
  {
  }
}
