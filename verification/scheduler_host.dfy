/**
 The scheduler object with its clock guard and the dispatches that are on their way. It
 is proved to follow `SchedulerRuns.Apply`, so what is proved of runs holds of these objects.
 */
module SchedulerHost {
  import opened Options
  import opened WallClock
  import Spec = SchedulerSpec
  import opened SchedulerRuns
  import S = Scheduler

  class Host {
    const scheduler: S.Scheduler
    const guard: S.ClockGuard
    var clock: int
    var jobs: map<nat, Job>
    var started: nat
    var fires: seq<Recorded>
    var dispatched: seq<Dispatched>
    ghost const calendar: Calendar

    ghost function View(): System
      reads this, scheduler, guard
    {
      System(scheduler.View(), guard.View(), clock, jobs, started, fires, dispatched, calendar)
    }

    constructor (now: Instant, ghost times: Calendar)
      requires now.mono.Some?
      ensures fresh(scheduler) && fresh(guard)
      ensures Initial(View()) && View().clock == now.mono.value && View().calendar == times
    {
      scheduler := new S.Scheduler(now);
      guard := new S.ClockGuard();
      clock, jobs, started, fires, dispatched := now.mono.value, map[], 0, [], [];
      calendar := times;
    }

    method Validate(p: Probe) returns (ok: bool)
      ensures ok <==> Ok(View(), p)
    {
      ok := guard.Valid(Instant(p.wall, None), p.boot);
    }

    function GateNow(p: Probe): Gate
      reads this, scheduler, guard
      ensures GateNow(p) == GateOf(View(), p)
    {
      Gate(scheduler.enabled, scheduler.timeSynced, guard.View(), p.wall, p.boot)
    }

    method BeginJob(j: Job)
      modifies this`jobs, this`started
      ensures View() == Begin(old(View()), j)
    {
      jobs := jobs[started := j];
      started := started + 1;
    }

    method Tick(now: Instant, p: Probe)
      requires Fresh(View(), now)
      modifies this, scheduler
      ensures View() == OnTick(old(View()), now, p)
    {
      hide Spec.Fire, Spec.Accepts;
      var gate := GateNow(p);
      var duration := scheduler.duration;
      ghost var v := View();
      FiresIfAccepted(v.fields, Ok(v, p), now);
      var ok := Validate(p);
      var before := scheduler.View();
      var dispatch := scheduler.Fire(ok, now);
      clock := now.mono.value;
      if Spec.Accepts(before, ok, now) { fires := fires + [Recorded(true, clock)]; }
      if dispatch { BeginJob(DispatchNow(duration, gate)); }
    }

    method Taken(taken: Option<Spec.Armed>, cap: nat, gate: Gate)
      modifies this`jobs, this`started
      ensures View() == if taken.None? then old(View()) else Begin(old(View()), DispatchTarget(taken.value, cap, gate))
    {
      if taken.Some? { BeginJob(DispatchTarget(taken.value, cap, gate)); }
    }

    method Report(standby: bool, p: Probe, cap: nat)
      modifies this, scheduler
      ensures var v := old(View());
        View() == BeginDispatch(v, Spec.Vehicle(v.fields, standby, Ok(v, p)), cap, GateOf(v, p))
    {
      hide Spec.Vehicle, Begin;
      var gate := GateNow(p);
      var ok := Validate(p);
      var taken := scheduler.OnVehicleStateChanged(standby, ok);
      Taken(taken, cap, gate);
    }

    method RetryPending(p: Probe, cap: nat)
      modifies this, scheduler
      ensures var v := old(View());
        View() == BeginDispatch(v, Spec.Dispatch(v.fields, Ok(v, p)), cap, GateOf(v, p))
    {
      hide Spec.Dispatch, Begin;
      var gate := GateNow(p);
      var ok := Validate(p);
      var taken := scheduler.DispatchPending(ok);
      Taken(taken, cap, gate);
    }

    method BeginSearch(now: Instant, p: Probe, cap: nat)
      requires Fresh(View(), now)
      modifies this
      ensures View() == Apply(old(View()), Input.BeginCatchUp(now, p, cap))
    {
      hide Spec.MayCatchUp;
      var gate := GateNow(p);
      var ok := Validate(p);
      var copy := scheduler.BeginCatchUp(ok, now);
      clock := now.mono.value;
      if copy.Some? { BeginJob(CatchUp(copy.value, cap, gate)); }
    }

    /** The unlocked end of a job. */
    method FinishJob(id: nat, now: Instant, cap: nat)
      requires id in jobs && Fresh(View(), now)
      modifies this, scheduler
      ensures View() == OnFinish(old(View()), id, now, cap)
    {
      hide Spec.PendingWakeSeconds, Spec.ImmediateSeconds, Spec.Commit;
      var j := jobs[id];
      if j.CatchUp? { return; }
      clock, jobs := now.mono.value, jobs - {id};
      match j {
        case CatchUp(_, _, _) =>
        case DispatchNow(duration, g) =>
          if duration > 0 {
            var secs := Spec.ImmediateSeconds(duration, cap);
            dispatched := dispatched + [Dispatched(secs, cap, OfDuration(duration), g)];
          }
        case DispatchTarget(armed, cap0, g) =>
          var secs := Spec.PendingWakeSeconds(armed.target, now, cap0);
          if secs != 0 {
            dispatched := dispatched + [Dispatched(secs, cap0, OfTarget(armed.target, now, Some(armed.serial)), g)];
          }
        case CommitPlan(plan, cap0, g) =>
          scheduler.CommitCatchUp(plan);
          fires := AfterCommit(fires, plan);
          if plan.seconds.Some? {
            dispatched := dispatched + [Dispatched(plan.seconds.value, cap0, OfTarget(plan.target, plan.now, None), g)];
          }
      }
    }

    /** The unlocked middle of catching up. */
    method SearchJob(id: nat, now: Instant, prev: Option<int>)
      requires id in jobs && Fresh(View(), now)
      modifies this
      ensures View() == OnSearch(old(View()), id, now, prev)
    {
      hide Spec.Weigh;
      var j := jobs[id];
      if !j.CatchUp? { return; }
      clock, jobs := now.mono.value, jobs - {id};
      var plan := S.Scheduler.WeighMissed(j.copy, prev, now, j.cap);
      if plan.Some? { BeginJob(CommitPlan(plan.value, j.cap, j.gate)); }
    }

    method Do(x: Input)
      requires Timely(View(), x)
      modifies this, scheduler, guard
      ensures View() == Apply(old(View()), x)
    {
      hide OnTick, OnFinish, OnSearch, Begin, BeginDispatch, Spec.Vehicle, Spec.Dispatch, Spec.MayCatchUp, Spec.Look;
      hide Spec.DropPast, Spec.DropAfterSync, Spec.Jump;
      match x {
        case SetEnabled(on) => scheduler.SetEnabled(on);
        case SetCron(expr) => scheduler.SetCron(expr);
        case SetDuration(d) => scheduler.SetDuration(d);
        case Suppress(t) => scheduler.SuppressFiresUntil(t);
        case SetSynced =>
          var _, _ := scheduler.SetTimeSynced(true);
        case MarkClock(m) => guard.MarkValidated(Instant(m.wall, None), m.boot);
        case LookAtClocks(wallNow, monoNow) =>
          var _ := scheduler.LookAtClocks(wallNow, monoNow);
        case DropAtJump(seen, at) => scheduler.DropPast(seen, at);
        case DropAtSync(seen, at) => scheduler.DropAfterSync(seen, at);
        case CronTick(now, p, _) => Tick(now, p);
        case VehicleReport(standby, p, cap) => Report(standby, p, cap);
        case Retry(p, cap) => RetryPending(p, cap);
        case BeginCatchUp(now, p, cap) => BeginSearch(now, p, cap);
        case Search(id, now, prev) => if id in jobs { SearchJob(id, now, prev); }
        case Finish(id, now, cap) => if id in jobs { FinishJob(id, now, cap); }
      }
    }

    /** Everything proved of the scheduler's runs is proved of this loop; from the start, so are its gates and durations. */
    method Run(xs: seq<Input>)
      requires Legal(View(), xs)
      modifies this, scheduler, guard
      ensures View() == After(old(View()), xs)
      ensures Initial(old(View())) ==> forall d | d in dispatched :: SecondsFit(d)
    {
      hide Apply, Timely, OnSchedule, Initial;
      ghost var s := View();
      for k := 0 to |xs|
        invariant Legal(View(), xs[k..]) && After(s, xs) == After(View(), xs[k..])
      {
        assert xs[k..][0] == xs[k] && xs[k..][1..] == xs[k + 1..];
        Do(xs[k]);
      }
      if Initial(s) {
        StartIsSound(s);
        RunIsSound(s, xs);
      }
    }
  }

  lemma FiresIfAccepted(f: Spec.Fields, ok: bool, now: Instant)
    ensures !Spec.Accepts(f, ok, now) ==> Spec.Fire(f, ok, now) == (f, false)
  {
  }
}
