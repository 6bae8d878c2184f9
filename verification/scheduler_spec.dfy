/**
 The hibernation scheduler as functions on its fields. Each function is one section
 that the program runs under its lock; `ok` is what the clock validator answered there
 and `now` a reading of the clock.
 */
module SchedulerSpec {
  import opened Options
  import opened WallClock

  const COOLDOWN := 15 * MINUTE
  const SLACK := 2 * MINUTE
  const JUMP_THRESHOLD := 60 * SECOND
  const TWO_TO_32 := 0x1_0000_0000

  // ----- The clock guard -----

  /** A wall reading validated from outside, with the boot time of that moment. */
  datatype Mark = Mark(wall: int, boot: int)

  /** Whether the wall clock has kept pace with boot time since the mark. */
  predicate ClockValid(mark: Option<Mark>, wall: int, boot: int) {
    mark.Some? && wall + SLACK >= mark.value.wall + (boot - mark.value.boot)
  }

  /** How much time the wall clock has lost against boot time since the mark. */
  function Lost(mark: Mark, wall: int, boot: int): int {
    (boot - mark.boot) - (wall - mark.wall)
  }

  // ----- Wake durations -----

  /** Whole seconds until the target, within the cap if there is one; 0 if the target has passed. */
  function PendingWakeSeconds(target: Instant, now: Instant, cap: nat): nat {
    if !IsAfter(target, now) then 0
    else
      var secs := Sub(target, now) / SECOND;
      if cap > 0 && secs > cap then cap
      else if secs == 0 then 1
      else secs % TWO_TO_32
  }

  function ImmediateSeconds(duration: int, cap: nat): nat
    requires duration > 0
  {
    var secs := duration / SECOND % TWO_TO_32;
    var atLeastOne := if secs == 0 then 1 else secs;
    if cap > 0 && atLeastOne > cap then cap else atLeastOne
  }

  // ----- The scheduler's fields -----

  /** A deferred wake target; `serial` numbers the armings and is kept for the proofs only. */
  datatype Armed = Armed(target: Instant, serial: nat)

  datatype Fields = Fields(
    enabled: bool,
    timeSynced: bool,
    standby: bool,
    duration: int,
    cron: string,
    pending: Option<Armed>,
    lastFired: Option<Instant>,
    suppressUntil: Option<Instant>,
    lastWall: Instant,
    lastMono: Instant,
    started: Instant,
    armings: nat)

  function Arm(s: Fields, target: Instant): Fields {
    s.(pending := Some(Armed(target, s.armings)), armings := s.armings + 1)
  }

  predicate Suppressed(s: Fields, now: Instant) {
    s.suppressUntil.Some? && IsAfter(s.suppressUntil.value, now)
  }

  predicate Cooling(s: Fields, now: Instant) {
    s.lastFired.Some? && Sub(now, s.lastFired.value) < COOLDOWN
  }

  predicate Accepts(s: Fields, ok: bool, now: Instant) {
    s.enabled && s.timeSynced && s.duration > 0 && ok && !Suppressed(s, now) && !Cooling(s, now)
  }

  /** A cron tick: refused, or recorded and deferred until stand-by, or recorded and dispatched at once. */
  function Fire(s: Fields, ok: bool, now: Instant): (Fields, bool) {
    if !Accepts(s, ok, now) then (s, false)
    else if s.standby then (s.(lastFired := Some(now), pending := None), true)
    else (Arm(s.(lastFired := Some(now)), Add(now, s.duration)), false)
  }

  /** A vehicle report; on entering stand-by a pending target is taken, kept or dropped. */
  function Vehicle(s: Fields, standby: bool, ok: bool): (Fields, Option<Armed>) {
    var s1 := s.(standby := standby);
    if !standby || s.standby || s.pending.None? then (s1, None)
    else if !s.enabled || !s.timeSynced then (s1.(pending := None), None)
    else if !ok then (s1, None)
    else (s1.(pending := None), s.pending)
  }

  /** The retry after a clock correction. */
  function Dispatch(s: Fields, ok: bool): (Fields, Option<Armed>) {
    if !s.enabled || !s.timeSynced || !s.standby || s.pending.None? || !ok then (s, None)
    else (s.(pending := None), s.pending)
  }

  // ----- Catching up -----

  predicate MayCatchUp(s: Fields, ok: bool, now: Instant) {
    s.enabled && s.timeSynced && s.cron != "" && s.duration > 0 && !Suppressed(s, now) && ok
  }

  /** What catching up intends once it has searched: `seconds` is none for a deferral. */
  datatype Plan = Plan(now: Instant, target: Instant, cron: string, seconds: Option<nat>)

  /** The search's result weighed against a copy of the fields taken earlier; the lock is not held. */
  function Weigh(copy: Fields, prev: Option<int>, now: Instant, cap: nat): Option<Plan> {
    if prev.None? || prev.value <= copy.started.wall then None
    else if copy.lastFired.Some? && prev.value <= copy.lastFired.value.wall then None
    else
      var target := Instant(prev.value + copy.duration, None);
      if target.wall <= now.wall then None
      else if !copy.standby then Some(Plan(now, target, copy.cron, None))
      else
        var secs := PendingWakeSeconds(target, now, cap);
        if secs == 0 then None else Some(Plan(now, target, copy.cron, Some(secs)))
  }

  function Commit(s: Fields, p: Plan): Fields {
    if p.seconds.Some? then s.(lastFired := Some(p.now), pending := None)
    else if !s.enabled || !s.timeSynced || s.cron != p.cron then s
    else Arm(s, p.target)
  }

  // ----- Clock steps -----

  /** The wall clock's drift against the monotonic clock since the last look. */
  function Jump(s: Fields, wallNow: Instant, monoNow: Instant): int {
    Sub(Stripped(wallNow), Stripped(s.lastWall)) - Sub(monoNow, s.lastMono)
  }

  /**
   What the monitor makes of a jump: nothing, a step back, which drops a target now past,
   or a step forward, which also has missed occurrences and a kept target looked at again.
   */
  datatype ClockStep = NoStep | StepBack | StepForward

  function SeenStep(jump: int): ClockStep {
    if jump > JUMP_THRESHOLD then StepForward else if jump < -JUMP_THRESHOLD then StepBack else NoStep
  }

  function Look(s: Fields, wallNow: Instant, monoNow: Instant): Fields {
    s.(lastWall := Stripped(wallNow), lastMono := monoNow)
  }

  /** Drops a pending target the step has put in the past; `seen` is the target read before. */
  function DropPast(s: Fields, seen: Option<Armed>, now: Instant): Fields {
    if seen.Some? && IsAfter(now, seen.value.target) && s.pending.Some? && !IsAfter(s.pending.value.target, now)
    then s.(pending := None) else s
  }

  /** The same at the first time sync, where the target read before is not compared again. */
  function DropAfterSync(s: Fields, seen: Option<Armed>, now: Instant): Fields {
    if seen.Some? && IsAfter(now, seen.value.target) then s.(pending := None) else s
  }

  // ----- What the durations mean -----

  /** The wake comes within a second after the target, on the clock the two instants share, and no earlier than the cap forces. */
  lemma PendingSecondsFit(target: Instant, now: Instant, cap: nat)
    requires 0 < cap < TWO_TO_32
    ensures PendingWakeSeconds(target, now, cap) == 0 <==> !IsAfter(target, now)
    ensures PendingWakeSeconds(target, now, cap) <= cap
    ensures IsAfter(target, now) ==> PendingWakeSeconds(target, now, cap) * SECOND < Sub(target, now) + SECOND
    ensures IsAfter(target, now) && Sub(target, now) < (cap + 1) * SECOND ==>
      PendingWakeSeconds(target, now, cap) * SECOND > Sub(target, now) - SECOND
  {
    if IsAfter(target, now) {
      var secs := Sub(target, now) / SECOND;
      assert secs * SECOND <= Sub(target, now) < (secs + 1) * SECOND;
    }
  }

  /**
   A target with no monotonic reading is met on the wall clock. One armed from a clock
   reading keeps that reading, and is met on the wall clock only up to what the wall clock
   has moved against the monotonic clock since it was armed.
   */
  lemma WallDeadline(target: Instant, now: Instant, cap: nat)
    requires 0 < cap < TWO_TO_32 && now.mono.Some? && IsAfter(target, now)
    requires Sub(target, now) < (cap + 1) * SECOND
    ensures var drift := if target.mono.Some? then Offset(now) - Offset(target) else 0;
      var wakes := now.wall + PendingWakeSeconds(target, now, cap) * SECOND;
      -SECOND < wakes - target.wall - drift < SECOND
  {
    PendingSecondsFit(target, now, cap);
  }

  /** So a deferred cron tick misses its wall-clock wake-by time whenever the wall clock was stepped in between. */
  lemma DeferredTickMissesStep(armed: Instant, duration: int, step: int, elapsed: int)
    requires armed.mono.Some? && 0 <= elapsed < duration && step >= 2 * SECOND
    requires duration < TWO_TO_32 / 2 * SECOND
    ensures var now := Instant(armed.wall + elapsed + step, Some(armed.mono.value + elapsed));
      var target := Add(armed, duration);
      now.wall + PendingWakeSeconds(target, now, TWO_TO_32 - 1) * SECOND > target.wall + step - SECOND
  {
    var now := Instant(armed.wall + elapsed + step, Some(armed.mono.value + elapsed));
    WallDeadline(Add(armed, duration), now, TWO_TO_32 - 1);
  }

  /** The seconds of an immediate dispatch, for durations the counter can hold. */
  lemma ImmediateSecondsFit(duration: int, cap: nat)
    requires 0 < duration < TWO_TO_32 * SECOND && 0 < cap
    ensures 1 <= ImmediateSeconds(duration, cap) <= cap
    ensures ImmediateSeconds(duration, cap) * SECOND < duration + SECOND
    ensures duration < (cap + 1) * SECOND ==> ImmediateSeconds(duration, cap) * SECOND > duration - SECOND
  {
    var secs := duration / SECOND;
    assert secs * SECOND <= duration < (secs + 1) * SECOND;
    assert secs < TWO_TO_32;
  }

  /** The jump the monitor acts on is the change of the wall clock's offset, whatever readings it was handed. */
  lemma JumpIsOffsetChange(s: Fields, wallNow: Instant, monoNow: Instant)
    requires s.lastMono.mono.Some? && monoNow.mono.Some?
    ensures Jump(s, wallNow, monoNow) ==
      (wallNow.wall - monoNow.mono.value) - (s.lastWall.wall - s.lastMono.mono.value)
  {
  }
}
