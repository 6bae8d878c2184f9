/**
 The scheduler and the clock guard as the program's objects. Each method is one section
 under the lock and is proved to take the fields where the specification says. What the
 clock validator answers, clock readings and the cap are parameters.
 */
module Scheduler {
  import opened Options
  import opened WallClock
  import Spec = SchedulerSpec

  class ClockGuard {
    var trusted: bool
    var wall: int
    var boot: int

    function View(): Option<Spec.Mark>
      reads this
    {
      if trusted then Some(Spec.Mark(wall, boot)) else None
    }

    constructor ()
      ensures View() == None
    {
      trusted, wall, boot := false, 0, 0;
    }

    method MarkValidated(now: Instant, bootElapsed: int)
      modifies this
      ensures View() == Some(Spec.Mark(now.wall, bootElapsed))
    {
      trusted := true;
      wall := Stripped(now).wall;
      boot := bootElapsed;
    }

    /** Accepts exactly a clock that has lost at most the slack against boot time since the mark. */
    method Valid(now: Instant, bootElapsed: int) returns (ok: bool)
      ensures ok <==> View().Some? && Spec.Lost(View().value, now.wall, bootElapsed) <= Spec.SLACK
      ensures ok <==> Spec.ClockValid(View(), now.wall, bootElapsed)
    {
      if !trusted { return false; }
      var expected := wall + (bootElapsed - boot);
      return !(now.wall + Spec.SLACK < expected);
    }
  }

  class Scheduler {
    var enabled: bool
    var timeSynced: bool
    var standby: bool
    var duration: int
    var cron: string
    var pendingWake: Option<Spec.Armed>
    var lastFired: Option<Instant>
    var suppressUntil: Option<Instant>
    var lastWall: Instant
    var lastMono: Instant
    var started: Instant
    /** Number of targets armed so far; kept for the proofs only. */
    var armings: nat

    function View(): Spec.Fields
      reads this
    {
      Spec.Fields(enabled, timeSynced, standby, duration, cron, pendingWake, lastFired, suppressUntil,
                  lastWall, lastMono, started, armings)
    }

    constructor (now: Instant)
      ensures View() == Spec.Fields(false, false, false, 0, "", None, None, None, Stripped(now), now, Stripped(now), 0)
    {
      enabled, timeSynced, standby, duration, cron := false, false, false, 0, "";
      pendingWake, lastFired, suppressUntil := None, None, None;
      lastWall, lastMono, started, armings := Stripped(now), now, Stripped(now), 0;
    }

    method SetEnabled(on: bool)
      modifies this
      ensures View() == old(View()).(enabled := on)
    {
      enabled := on;
    }

    method SetCron(expr: string)
      modifies this
      ensures View() == old(View()).(cron := expr)
    {
      cron := expr;
    }

    method SetDuration(d: int)
      modifies this
      ensures View() == old(View()).(duration := d)
    {
      duration := d;
    }

    method SuppressFiresUntil(t: Instant)
      modifies this
      ensures View() == old(View()).(suppressUntil := Some(t))
    {
      suppressUntil := Some(t);
    }

    method Arm(target: Instant)
      modifies this
      ensures View() == Spec.Arm(old(View()), target)
    {
      pendingWake := Some(Spec.Armed(target, armings));
      armings := armings + 1;
    }

    /** A cron tick; true asks for a dispatch of the full duration once the lock is free. */
    method Fire(ok: bool, now: Instant) returns (dispatch: bool)
      modifies this
      ensures (View(), dispatch) == Spec.Fire(old(View()), ok, now)
    {
      if !enabled || !timeSynced || duration <= 0 { return false; }
      if !ok { return false; }
      if suppressUntil.Some? && IsAfter(suppressUntil.value, now) { return false; }
      if lastFired.Some? && Sub(now, lastFired.value) < Spec.COOLDOWN { return false; }
      lastFired := Some(now);
      var target := Add(now, duration);
      if standby {
        pendingWake := None;
        return true;
      }
      Arm(target);
      return false;
    }

    /** A vehicle report; a target that is returned has been taken and belongs to the caller alone. */
    method OnVehicleStateChanged(nowStandby: bool, ok: bool) returns (taken: Option<Spec.Armed>)
      modifies this
      ensures (View(), taken) == Spec.Vehicle(old(View()), nowStandby, ok)
    {
      var prev := standby;
      standby := nowStandby;
      taken := None;
      if nowStandby && !prev && pendingWake.Some? {
        if !enabled || !timeSynced {
          pendingWake := None;
        } else if ok {
          taken := pendingWake;
          pendingWake := None;
        }
      }
    }

    method DispatchPending(ok: bool) returns (taken: Option<Spec.Armed>)
      modifies this
      ensures (View(), taken) == Spec.Dispatch(old(View()), ok)
    {
      if !enabled || !timeSynced || !standby || pendingWake.None? || !ok { return None; }
      taken := pendingWake;
      pendingWake := None;
    }

    /** The first section of catching up: whether to go on, and a copy of the fields to search with. */
    method BeginCatchUp(ok: bool, now: Instant) returns (copy: Option<Spec.Fields>)
      ensures copy == if Spec.MayCatchUp(View(), ok, now) then Some(View()) else None
    {
      if !enabled || !timeSynced || cron == "" || duration <= 0
         || (suppressUntil.Some? && IsAfter(suppressUntil.value, now)) || !ok {
        return None;
      }
      return Some(View());
    }

    /** Between the sections, without the lock: weigh what the search found. */
    static method WeighMissed(copy: Spec.Fields, prev: Option<int>, now: Instant, cap: nat)
      returns (plan: Option<Spec.Plan>)
      ensures plan == Spec.Weigh(copy, prev, now, cap)
    {
      if prev.None? || prev.value <= copy.started.wall { return None; }
      if copy.lastFired.Some? && prev.value <= copy.lastFired.value.wall { return None; }
      var target := Add(Instant(prev.value, None), copy.duration);
      if !IsAfter(target, now) { return None; }
      if copy.standby {
        var secs := Spec.PendingWakeSeconds(target, now, cap);
        if secs == 0 { return None; }
        return Some(Spec.Plan(now, target, copy.cron, Some(secs)));
      }
      return Some(Spec.Plan(now, target, copy.cron, None));
    }

    /** The second section. An immediate dispatch is not checked again; a deferral is. */
    method CommitCatchUp(p: Spec.Plan)
      modifies this
      ensures View() == Spec.Commit(old(View()), p)
    {
      if p.seconds.Some? {
        lastFired := Some(p.now);
        pendingWake := None;
        return;
      }
      if !enabled || !timeSynced || cron != p.cron { return; }
      Arm(p.target);
    }

    /** Records the clocks and says whether the wall clock was stepped since it last did. */
    method LookAtClocks(wallNow: Instant, monoNow: Instant) returns (step: Spec.ClockStep)
      modifies this
      ensures View() == Spec.Look(old(View()), wallNow, monoNow)
      ensures step == Spec.SeenStep(Spec.Jump(old(View()), wallNow, monoNow))
    {
      var wallElapsed := Sub(Stripped(wallNow), Stripped(lastWall));
      var monoElapsed := Sub(monoNow, lastMono);
      lastWall := Stripped(wallNow);
      lastMono := monoNow;
      var jump := wallElapsed - monoElapsed;
      if -Spec.JUMP_THRESHOLD <= jump <= Spec.JUMP_THRESHOLD { return Spec.NoStep; }
      return if jump > Spec.JUMP_THRESHOLD then Spec.StepForward else Spec.StepBack;
    }

    method DropPast(seen: Option<Spec.Armed>, now: Instant)
      modifies this
      ensures View() == Spec.DropPast(old(View()), seen, now)
    {
      if seen.Some? && IsAfter(now, seen.value.target) {
        if pendingWake.Some? && !IsAfter(pendingWake.value.target, now) { pendingWake := None; }
      }
    }

    /** The latch: only the first true has an effect. */
    method SetTimeSynced(synced: bool) returns (first: bool, seen: Option<Spec.Armed>)
      modifies this
      ensures View() == old(View()).(timeSynced := old(timeSynced) || synced)
      ensures first <==> synced && !old(timeSynced)
      ensures seen == if first then old(pendingWake) else None
    {
      if !synced { return false, None; }
      if timeSynced { return false, None; }
      timeSynced := true;
      return true, pendingWake;
    }

    method DropAfterSync(seen: Option<Spec.Armed>, now: Instant)
      modifies this
      ensures View() == Spec.DropAfterSync(old(View()), seen, now)
    {
      if seen.Some? && IsAfter(now, seen.value.target) { pendingWake := None; }
    }
  }
}
