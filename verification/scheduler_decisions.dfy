/**
 The scheduler's sections on raw readings: exactly when a cron tick is accepted and what it
 leaves, when a deferred target is taken, kept or dropped, and what a clock step does. And
 in whole runs: what armed the target of every dispatch, and that a deferred tick is met.
 */
module SchedulerDecisions {
  import opened Options
  import opened WallClock
  import opened ScheduleSearch
  import opened SchedulerSpec
  import opened SchedulerRuns

  // ----- A cron tick -----

  /** Time from `b` to `a`: on the monotonic clock if both were read from it, else on the wall clock. */
  function Between(b: Instant, a: Instant): int {
    if a.mono.Some? && b.mono.Some? then a.mono.value - b.mono.value else a.wall - b.wall
  }

  /**
   Exactly when a tick is accepted, and exactly what it leaves: the time is recorded, and
   the target, the tick plus the configured duration on both clocks, is armed until stand-by
   or, in stand-by, dispatched at once instead of any older one.
   */
  lemma TickExactly(s: Fields, ok: bool, now: Instant)
    ensures var (s', dispatch) := Fire(s, ok, now);
      var accepted := && s.enabled && s.timeSynced && s.duration > 0 && ok
                      && (s.suppressUntil.Some? ==> Between(now, s.suppressUntil.value) <= 0)
                      && (s.lastFired.Some? ==> Between(s.lastFired.value, now) >= 15 * MINUTE);
      && (!accepted ==> s' == s && !dispatch)
      && (accepted && s.standby ==> dispatch && s' == s.(lastFired := Some(now), pending := None))
      && (accepted && !s.standby ==>
            && !dispatch && s' == s.(lastFired := Some(now), pending := s'.pending, armings := s.armings + 1)
            && s'.pending.Some? && s'.pending.value.serial == s.armings
            && s'.pending.value.target.wall == now.wall + s.duration
            && (now.mono.Some? ==> s'.pending.value.target.mono == Some(now.mono.value + s.duration))
            && (now.mono.None? ==> s'.pending.value.target.mono.None?))
  {
  }

  // ----- Stand-by and the retry -----

  /**
   What a vehicle report does to a deferred target: on entering stand-by it is taken if the
   gate is open, kept if only the clock is not valid, and dropped if the schedule is off or
   time was never synced. Any other report leaves it.
   */
  lemma ReportExactly(s: Fields, standby: bool, ok: bool)
    ensures var (s', taken) := Vehicle(s, standby, ok);
      var entering := standby && !s.standby && s.pending.Some?;
      && s' == s.(standby := standby, pending := s'.pending)
      && (taken.Some? <==> entering && s.enabled && s.timeSynced && ok) && (taken.Some? ==> taken == s.pending)
      && s'.pending == (if taken.Some? || (entering && !(s.enabled && s.timeSynced)) then None else s.pending)
  {
  }

  lemma RetryExactly(s: Fields, ok: bool)
    ensures var (s', taken) := Dispatch(s, ok);
      && taken == (if s.enabled && s.timeSynced && s.standby && ok then s.pending else None)
      && s' == (if taken.Some? then s.(pending := None) else s)
  {
  }

  // ----- Catching up -----

  lemma CatchUpStartsExactly(s: Fields, ok: bool, now: Instant)
    ensures MayCatchUp(s, ok, now) <==>
      && s.enabled && s.timeSynced && s.cron != "" && s.duration > 0 && ok
      && (s.suppressUntil.Some? ==> Between(now, s.suppressUntil.value) <= 0)
  {
  }

  /**
   The plan is due at the occurrence plus the duration, on the wall clock alone; at once in
   stand-by, deferred otherwise.
   */
  lemma PlanExactly(copy: Fields, prev: Option<int>, now: Instant, cap: nat)
    requires Weigh(copy, prev, now, cap).Some?
    ensures var p := Weigh(copy, prev, now, cap).value;
      && prev.Some? && p.target == Instant(prev.value + copy.duration, None) && p.now == now && p.cron == copy.cron
      && (p.seconds.Some? <==> copy.standby) && p.target.wall > now.wall
  {
  }

  /** Dispatching drops any older target, unchecked; deferring asks again whether the same schedule is still on. */
  lemma CommitExactly(s: Fields, p: Plan)
    ensures var s' := Commit(s, p);
      if p.seconds.Some? then s' == s.(lastFired := Some(p.now), pending := None)
      else if s.enabled && s.timeSynced && s.cron == p.cron
        then s' == s.(pending := Some(Armed(p.target, s.armings)), armings := s.armings + 1)
      else s' == s
  {
  }

  // ----- Clock steps -----

  /** A clock step drops the deferred target exactly if it is in the past by the reading that saw the step. */
  lemma StepDropsExactly(s: Fields, now: Instant)
    ensures var s' := DropPast(s, s.pending, now);
      s' == if s.pending.Some? && Between(s.pending.value.target, now) > 0 then s.(pending := None) else s
  {
  }

  /** If the target has been replaced since it was looked at, only a replacement not in the future is dropped. */
  lemma StaleDropExactly(s: Fields, seen: Option<Armed>, now: Instant)
    ensures var s' := DropPast(s, seen, now);
      var drops := && seen.Some? && Between(seen.value.target, now) > 0
                   && s.pending.Some? && Between(s.pending.value.target, now) >= 0;
      s' == if drops then s.(pending := None) else s
  {
  }

  /** The first time sync drops a target only if the one looked at is past; by then there is none. */
  lemma SyncDropsExactly(s: Fields, seen: Option<Armed>, now: Instant)
    ensures DropAfterSync(s, seen, now) ==
      if seen.Some? && Between(seen.value.target, now) > 0 then s.(pending := None) else s
  {
  }

  /**
   A step is seen exactly if the wall clock's offset to the monotonic clock has changed by over
   a minute since the last look.
   */
  lemma StepIsSeenExactly(s: Fields, wallNow: Instant, monoNow: Instant)
    requires s.lastMono.mono.Some? && monoNow.mono.Some?
    ensures var change := (wallNow.wall - monoNow.mono.value) - (s.lastWall.wall - s.lastMono.mono.value);
      && (SeenStep(Jump(s, wallNow, monoNow)) == StepForward <==> change > 60 * SECOND)
      && (SeenStep(Jump(s, wallNow, monoNow)) == StepBack <==> change < -60 * SECOND)
  {
    JumpIsOffsetChange(s, wallNow, monoNow);
  }

  /** A look at the clocks becomes the reference for the next, the wall clock without its monotonic part. */
  lemma LookExactly(s: Fields, wallNow: Instant, monoNow: Instant)
    ensures Look(s, wallNow, monoNow) == s.(lastWall := Instant(wallNow.wall, None), lastMono := monoNow)
  {
  }

  /** The clock is trusted exactly while it has lost at most 2 minutes against boot time since the mark. */
  lemma ClockIsValidExactly(mark: Option<Mark>, wall: int, boot: int)
    ensures ClockValid(mark, wall, boot) <==>
      mark.Some? && (boot - mark.value.boot) - (wall - mark.value.wall) <= 2 * MINUTE
  {
  }

  // ----- What armed a target -----

  /**
   The input arms the target under the next number: a tick outside stand-by, or a deferred
   catch-up of the same schedule.
   */
  predicate Arms(s: System, x: Input, armed: Armed) {
    && armed.serial == s.fields.armings
    && match x
       case CronTick(now, _, _) =>
         && !s.fields.standby && now.mono.Some?
         && armed.target == Instant(now.wall + s.fields.duration, Some(now.mono.value + s.fields.duration))
       case Finish(id, _, _) =>
         && id in s.jobs && s.jobs[id].CommitPlan? && s.jobs[id].plan.seconds.None?
         && s.fields.cron == s.jobs[id].plan.cron && armed.target == s.jobs[id].plan.target
       case _ => false
  }

  predicate DispatchedAs(d: Dispatched, armed: Armed) {
    d.basis.OfTarget? && d.basis.target == armed.target && d.basis.serial == Some(armed.serial)
  }

  /** The armed target is pending, on its way to be dispatched, or dispatched. */
  ghost predicate Holds(s: System, armed: Armed) {
    || s.fields.pending == Some(armed)
    || (exists k :: k in s.jobs && s.jobs[k].DispatchTarget? && s.jobs[k].armed == armed)
    || (exists d :: d in s.dispatched && DispatchedAs(d, armed))
  }

  lemma TickTraces(s: System, now: Instant, p: Probe, a: int, armed: Armed)
    requires Fresh(s, now) && Holds(OnTick(s, now, p), armed)
    ensures Holds(s, armed) || Arms(s, CronTick(now, p, a), armed)
  {
    TickExactly(s.fields, Ok(s, p), now);
    hide ClockValid;
  }

  lemma DispatchTraces(s: System, r: (Fields, Option<Armed>), cap: nat, g: Gate, armed: Armed)
    requires r.1.Some? ==> r.1 == s.fields.pending
    requires r.0.pending == s.fields.pending || r.0.pending.None?
    requires Holds(BeginDispatch(s, r, cap, g), armed)
    ensures Holds(s, armed)
  {
  }

  lemma BeginTraces(s: System, j: Job, armed: Armed)
    requires !j.DispatchTarget? && Holds(Begin(s, j), armed)
    ensures Holds(s, armed)
  {
  }

  lemma FinishTraces(s: System, id: nat, now: Instant, cap: nat, armed: Armed)
    requires id in s.jobs && Fresh(s, now) && Holds(OnFinish(s, id, now, cap), armed)
    ensures Holds(s, armed) || Arms(s, Finish(id, now, cap), armed)
  {
    var s' := OnFinish(s, id, now, cap);
    if exists d :: d in s'.dispatched && DispatchedAs(d, armed) {
      var d :| d in s'.dispatched && DispatchedAs(d, armed);
      if d !in s.dispatched {
        assert s.jobs[id].DispatchTarget? && s.jobs[id].armed == armed;
      }
    }
    hide PendingWakeSeconds, ImmediateSeconds;
  }

  lemma StepTraces(s: System, x: Input, armed: Armed)
    requires Timely(s, x) && Holds(Apply(s, x), armed)
    ensures Holds(s, armed) || Arms(s, x, armed)
  {
    hide Holds, OnTick, OnFinish, OnSearch, BeginDispatch, ClockValid, Arms, Begin;
    match x
    case CronTick(now, p, a) => TickTraces(s, now, p, a, armed);
    case VehicleReport(standby, p, cap) =>
      ReportExactly(s.fields, standby, Ok(s, p));
      DispatchTraces(s, Vehicle(s.fields, standby, Ok(s, p)), cap, GateOf(s, p), armed);
    case Retry(p, cap) =>
      RetryExactly(s.fields, Ok(s, p));
      DispatchTraces(s, Dispatch(s.fields, Ok(s, p)), cap, GateOf(s, p), armed);
    case BeginCatchUp(now, p, cap) =>
      if MayCatchUp(s.fields, Ok(s, p), now) { BeginTraces(Tock(s, now), CatchUp(s.fields, cap, GateOf(s, p)), armed); }
      FieldsTrace(s, Tock(s, now), armed);
    case Search(id, now, prev) => if id in s.jobs { SearchTraces(s, id, now, prev, armed); }
    case Finish(id, now, cap) => if id in s.jobs { FinishTraces(s, id, now, cap, armed); }
    case _ => FieldsTrace(s, Apply(s, x), armed);
  }

  /** Anything that only moves fields, and arms nothing. */
  lemma FieldsTrace(s: System, s': System, armed: Armed)
    requires s'.jobs == s.jobs && s'.dispatched == s.dispatched
    requires s'.fields.pending == s.fields.pending || s'.fields.pending.None?
    ensures Holds(s', armed) ==> Holds(s, armed)
  {
  }

  lemma SearchTraces(s: System, id: nat, now: Instant, prev: Option<int>, armed: Armed)
    requires id in s.jobs && Fresh(s, now) && Holds(OnSearch(s, id, now, prev), armed)
    ensures Holds(s, armed)
  {
    hide Weigh;
  }

  /** Input `k` of the run armed the target. */
  ghost predicate ArmedAt(s: System, xs: seq<Input>, k: nat, armed: Armed) {
    k < |xs| && Legal(s, xs[..k]) && Arms(After(s, xs[..k]), xs[k], armed)
  }

  lemma {:induction false} Split(s: System, xs: seq<Input>, ys: seq<Input>)
    requires Legal(s, xs + ys)
    ensures Legal(s, xs) && Legal(After(s, xs), ys) && After(s, xs + ys) == After(After(s, xs), ys)
    decreases |xs|
  {
    hide Apply, Timely, OnSchedule;
    if xs == [] {
      assert xs + ys == ys;
    } else {
      assert (xs + ys)[1..] == xs[1..] + ys;
      Split(Apply(s, xs[0]), xs[1..], ys);
    }
  }

  lemma LastInput(s: System, x: Input)
    requires Legal(s, [x])
    ensures Possible(s, x) && After(s, [x]) == Apply(s, x)
  {
    hide Apply, Timely, OnSchedule;
    assert After(Apply(s, x), [x][1..]) == Apply(s, x);
  }

  /**
   Every target a run of the scheduler ever has pending, under way or dispatched was armed
   by one of its inputs: a tick outside stand-by, for the tick plus the duration then
   configured on both clocks, or a deferred catch-up of the schedule then in force.
   */
  lemma {:induction false} TargetsAreArmed(s: System, xs: seq<Input>, armed: Armed)
    requires Initial(s) && Legal(s, xs) && Holds(After(s, xs), armed)
    ensures exists k: nat :: ArmedAt(s, xs, k, armed)
    decreases |xs|
  {
    if xs != [] {
      var init, last := xs[..|xs| - 1], xs[|xs| - 1];
      assert xs == init + [last];
      Split(s, init, [last]);
      var before := After(s, init);
      LastInput(before, last);
      StepTraces(before, last, armed);
      hide Initial, After, Legal, Apply, Holds, Arms;
      if Holds(before, armed) {
        TargetsAreArmed(s, init, armed);
        var k: nat :| ArmedAt(s, init, k, armed);
        assert init[..k] == xs[..k];
        assert ArmedAt(s, xs, k, armed);
      } else {
        assert xs[..|init|] == init;
        assert ArmedAt(s, xs, |init|, armed);
      }
    }
  }

  /**
   A deferred tick is met: accepted outside stand-by, still pending when stand-by is entered
   with the gate open, and dispatched from the job that starts. Before the tick plus the
   configured duration, on the monotonic clock, one wake duration goes out: at least a
   second, and within a second of what is left, or the cap.
   */
  lemma DeferredTickIsMet(s0: System, now: Instant, p: Probe, s2: System, q: Probe, cap: nat, s4: System,
                          later: Instant, c: nat)
    requires Fresh(s0, now) && OnTick(s0, now, p).fires != s0.fires && !s0.fields.standby
    requires s2.fields.pending == OnTick(s0, now, p).fields.pending && !s2.fields.standby
    requires s2.fields.enabled && s2.fields.timeSynced && ClockValid(s2.mark, q.wall, q.boot)
    requires s2.started in s4.jobs && s4.jobs[s2.started] == Apply(s2, VehicleReport(true, q, cap)).jobs[s2.started]
    requires Fresh(s4, later) && later.mono.value < now.mono.value + s0.fields.duration && 0 < cap < TWO_TO_32
    ensures var left := now.mono.value + s0.fields.duration - later.mono.value;
      var n := Apply(s4, Finish(s2.started, later, c));
      && |n.dispatched| == |s4.dispatched| + 1
      && var d := n.dispatched[|s4.dispatched|];
      && 1 <= d.seconds <= cap && d.seconds * SECOND < left + SECOND
      && (left < (cap + 1) * SECOND ==> d.seconds * SECOND > left - SECOND)
  {
    TickExactly(s0.fields, Ok(s0, p), now);
    var armed := OnTick(s0, now, p).fields.pending.value;
    ReportExactly(s2.fields, true, Ok(s2, q));
    PendingSecondsFit(armed.target, later, cap);
    hide ClockValid, PendingWakeSeconds, OnTick, Fire, Vehicle;
    assert s4.jobs[s2.started] == DispatchTarget(armed, cap, GateOf(s2, q));
  }

  /**
   An accepted tick in stand-by is dispatched by the job it starts, for the duration configured
   at the tick, or the cap.
   */
  lemma ImmediateTickIsMet(s0: System, now: Instant, p: Probe, s1: System, later: Instant, cap: nat)
    requires Fresh(s0, now) && OnTick(s0, now, p).fires != s0.fires && s0.fields.standby
    requires s0.started in s1.jobs && s1.jobs[s0.started] == OnTick(s0, now, p).jobs[s0.started]
    requires Fresh(s1, later) && s0.fields.duration < TWO_TO_32 * SECOND && 0 < cap
    ensures var n := Apply(s1, Finish(s0.started, later, cap));
      && |n.dispatched| == |s1.dispatched| + 1
      && var d := n.dispatched[|s1.dispatched|];
      && 1 <= d.seconds <= cap && d.seconds * SECOND < s0.fields.duration + SECOND
      && (s0.fields.duration < (cap + 1) * SECOND ==> d.seconds * SECOND > s0.fields.duration - SECOND)
  {
    TickExactly(s0.fields, Ok(s0, p), now);
    ImmediateSecondsFit(s0.fields.duration, cap);
    hide ClockValid, ImmediateSeconds, Fire;
    assert s1.jobs[s0.started] == DispatchNow(s0.fields.duration, GateOf(s0, p));
  }

  /**
   A missed occurrence found in stand-by is dispatched by the job that follows its search,
   within a second of what was left at the search until the occurrence plus the duration,
   or the cap; the time recorded as the last fire is that of the search.
   */
  lemma MissedOccurrenceIsMet(s0: System, id: nat, now: Instant, prev: int, s1: System, later: Instant, c: nat)
    requires id in s0.jobs && s0.jobs[id].CatchUp? && s0.jobs[id].copy.standby && Fresh(s0, now)
    requires Missed(s0.jobs[id].copy, prev, now) && 0 < s0.jobs[id].cap < TWO_TO_32
    requires s0.started in s1.jobs && s1.jobs[s0.started] == OnSearch(s0, id, now, Some(prev)).jobs[s0.started]
    requires Fresh(s1, later)
    ensures var copy, cap := s0.jobs[id].copy, s0.jobs[id].cap;
      var left := prev + copy.duration - now.wall;
      var n := Apply(s1, Finish(s0.started, later, c));
      && n.fields == s1.fields.(lastFired := Some(now), pending := None)
      && |n.dispatched| == |s1.dispatched| + 1
      && var d := n.dispatched[|s1.dispatched|];
      && 1 <= d.seconds <= cap && d.seconds * SECOND < left + SECOND
      && (left < (cap + 1) * SECOND ==> d.seconds * SECOND > left - SECOND)
  {
    var copy, cap := s0.jobs[id].copy, s0.jobs[id].cap;
    PendingSecondsFit(Instant(prev + copy.duration, None), now, cap);
    PlanExactly(copy, Some(prev), now, cap);
    hide ClockValid, PendingWakeSeconds;
  }
}
