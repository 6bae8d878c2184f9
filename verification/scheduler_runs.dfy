/**
 Whole runs of the hibernation scheduler. The program drops its lock between deciding
 and dispatching, so every decision becomes a job and any other section may run before
 the job is done.
 */
module SchedulerRuns {
  import opened Options
  import opened WallClock
  import opened ScheduleSearch
  import opened SchedulerSpec

  /** What a gate check saw. */
  datatype Gate = Gate(enabled: bool, synced: bool, mark: Option<Mark>, wall: int, boot: int)

  predicate Open(g: Gate) {
    g.enabled && g.synced && ClockValid(g.mark, g.wall, g.boot)
  }

  datatype Job =
    | DispatchNow(duration: int, gate: Gate)
    | DispatchTarget(armed: Armed, cap: nat, gate: Gate)
    | CatchUp(copy: Fields, cap: nat, gate: Gate)
    | CommitPlan(plan: Plan, cap: nat, gate: Gate)

  /** A wake duration handed to the power manager, and what it was computed from. */
  datatype Basis =
    | OfDuration(duration: int)
    | OfTarget(target: Instant, now: Instant, serial: Option<nat>)

  datatype Dispatched = Dispatched(seconds: nat, cap: nat, basis: Basis, gate: Gate)

  /** A recorded fire: an accepted cron tick, or an immediate catch-up; `at` is the monotonic time it was decided at. */
  datatype Recorded = Recorded(tick: bool, at: int)

  /** Which wall-clock times a cron expression names. */
  type Calendar = (string, int) -> bool

  datatype System = System(
    fields: Fields,
    mark: Option<Mark>,
    clock: int,               // the latest monotonic reading
    jobs: map<nat, Job>,
    started: nat,             // jobs started so far
    fires: seq<Recorded>,     // in the order they were recorded
    dispatched: seq<Dispatched>,
    calendar: Calendar)

  /** A reading of the wall clock and of boot time by the clock validator. */
  datatype Probe = Probe(wall: int, boot: int)

  datatype Input =
    | SetEnabled(enabled: bool)
    | SetCron(cron: string)
    | SetDuration(duration: int)
    | Suppress(until: Instant)
    | SetSynced
    | MarkClock(newMark: Mark)
    | LookAtClocks(wallNow: Instant, monoNow: Instant)
    | DropAtJump(seen: Option<Armed>, at: Instant)
    | DropAtSync(seen: Option<Armed>, at: Instant)
    | CronTick(now: Instant, probe: Probe, activation: int)
    | VehicleReport(standby: bool, probe: Probe, cap: nat)
    | Retry(probe: Probe, cap: nat)
    | BeginCatchUp(now: Instant, probe: Probe, cap: nat)
    | Search(id: nat, now: Instant, prev: Option<int>)
    | Finish(id: nat, now: Instant, cap: nat)

  predicate Fresh(s: System, now: Instant) {
    now.mono.Some? && now.mono.value >= s.clock
  }

  /** Readings of the monotonic clock do not go back. */
  predicate Timely(s: System, x: Input) {
    match x
    case CronTick(now, _, _) => Fresh(s, now)
    case BeginCatchUp(now, _, _) => Fresh(s, now)
    case Search(_, now, _) => Fresh(s, now)
    case Finish(_, now, _) => Fresh(s, now)
    case _ => true
  }

  /** The schedules that `SetCron` lets through: occurrences at least a cooldown apart. */
  ghost predicate Spaced(calendar: Calendar, cron: string) {
    cron == "" || forall a, b | a < b && calendar(cron, a) && calendar(cron, b) :: b - a >= COOLDOWN
  }

  /** Ticks belong to occurrences of the schedule, and searches find its latest one. */
  ghost predicate OnSchedule(s: System, x: Input) {
    match x
    case SetCron(c) => Spaced(s.calendar, c)
    case CronTick(now, _, a) => s.fields.cron != "" && s.calendar(s.fields.cron, a) && a <= now.wall
    case Search(id, now, prev) =>
      id in s.jobs && s.jobs[id].CatchUp? ==>
        IsLatest(t => s.calendar(s.jobs[id].copy.cron, t), now.wall, CATCH_UP_WINDOW, prev)
    case _ => true
  }

  ghost predicate Possible(s: System, x: Input) {
    Timely(s, x) && OnSchedule(s, x)
  }

  function GateOf(s: System, p: Probe): Gate {
    Gate(s.fields.enabled, s.fields.timeSynced, s.mark, p.wall, p.boot)
  }

  predicate Ok(s: System, p: Probe) {
    ClockValid(s.mark, p.wall, p.boot)
  }

  function Begin(s: System, j: Job): System {
    s.(jobs := s.jobs[s.started := j], started := s.started + 1)
  }

  function BeginDispatch(s: System, r: (Fields, Option<Armed>), cap: nat, g: Gate): System {
    var s1 := s.(fields := r.0);
    if r.1.None? then s1 else Begin(s1, DispatchTarget(r.1.value, cap, g))
  }

  function Tock(s: System, now: Instant): System
    requires now.mono.Some?
  {
    s.(clock := now.mono.value)
  }

  function OnTick(s: System, now: Instant, p: Probe): System
    requires Fresh(s, now)
  {
    if !SchedulerSpec.Accepts(s.fields, Ok(s, p), now) then Tock(s, now)
    else
      var r := Fire(s.fields, Ok(s, p), now);
      var s1 := Tock(s, now).(fields := r.0, fires := s.fires + [Recorded(true, now.mono.value)]);
      if r.1 then Begin(s1, DispatchNow(s.fields.duration, GateOf(s, p))) else s1
  }

  /** An immediate catch-up is recorded as of the time it was decided. */
  function AfterCommit(fires: seq<Recorded>, p: Plan): seq<Recorded> {
    if p.seconds.Some? && p.now.mono.Some? then fires + [Recorded(false, p.now.mono.value)] else fires
  }

  function OnFinish(s: System, id: nat, now: Instant, cap: nat): System
    requires id in s.jobs && Fresh(s, now)
  {
    var j := s.jobs[id];
    var s1 := Tock(s, now).(jobs := s.jobs - {id});
    match j
    case CatchUp(_, _, _) => s
    case DispatchNow(duration, g) =>
      if duration <= 0 then s1
      else s1.(dispatched := s.dispatched + [Dispatched(ImmediateSeconds(duration, cap), cap, OfDuration(duration), g)])
    case DispatchTarget(armed, cap0, g) =>
      var secs := PendingWakeSeconds(armed.target, now, cap0);
      if secs == 0 then s1
      else s1.(dispatched := s.dispatched + [Dispatched(secs, cap0, OfTarget(armed.target, now, Some(armed.serial)), g)])
    case CommitPlan(plan, cap0, g) =>
      var s2 := s1.(fields := Commit(s.fields, plan), fires := AfterCommit(s.fires, plan));
      if plan.seconds.None? then s2
      else s2.(dispatched := s.dispatched + [Dispatched(plan.seconds.value, cap0, OfTarget(plan.target, plan.now, None), g)])
  }

  function OnSearch(s: System, id: nat, now: Instant, prev: Option<int>): System
    requires id in s.jobs && Fresh(s, now)
  {
    var j := s.jobs[id];
    if !j.CatchUp? then s
    else
      var s1 := Tock(s, now).(jobs := s.jobs - {id});
      var plan := Weigh(j.copy, prev, now, j.cap);
      if plan.None? then s1 else Begin(s1, CommitPlan(plan.value, j.cap, j.gate))
  }

  function Apply(s: System, x: Input): System
    requires Timely(s, x)
  {
    match x
    case SetEnabled(b) => s.(fields := s.fields.(enabled := b))
    case SetCron(c) => s.(fields := s.fields.(cron := c))
    case SetDuration(d) => s.(fields := s.fields.(duration := d))
    case Suppress(t) => s.(fields := s.fields.(suppressUntil := Some(t)))
    case SetSynced => s.(fields := s.fields.(timeSynced := true))
    case MarkClock(m) => s.(mark := Some(m))
    case LookAtClocks(wallNow, monoNow) => s.(fields := Look(s.fields, wallNow, monoNow))
    case DropAtJump(seen, at) => s.(fields := SchedulerSpec.DropPast(s.fields, seen, at))
    case DropAtSync(seen, at) => s.(fields := SchedulerSpec.DropAfterSync(s.fields, seen, at))
    case CronTick(now, p, _) => OnTick(s, now, p)
    case VehicleReport(standby, p, cap) =>
      BeginDispatch(s, Vehicle(s.fields, standby, Ok(s, p)), cap, GateOf(s, p))
    case Retry(p, cap) => BeginDispatch(s, Dispatch(s.fields, Ok(s, p)), cap, GateOf(s, p))
    case BeginCatchUp(now, p, cap) =>
      if MayCatchUp(s.fields, Ok(s, p), now) then Begin(Tock(s, now), CatchUp(s.fields, cap, GateOf(s, p))) else Tock(s, now)
    case Search(id, now, prev) => if id in s.jobs then OnSearch(s, id, now, prev) else s
    case Finish(id, now, cap) => if id in s.jobs then OnFinish(s, id, now, cap) else s
  }

  ghost predicate Legal(s: System, xs: seq<Input>)
    decreases |xs|
  {
    xs == [] || (Possible(s, xs[0]) && Legal(Apply(s, xs[0]), xs[1..]))
  }

  ghost function After(s: System, xs: seq<Input>): System
    requires Legal(s, xs)
    decreases |xs|
  {
    if xs == [] then s else After(Apply(s, xs[0]), xs[1..])
  }

  ghost predicate Initial(s: System) {
    && s.fields.pending.None? && s.fields.lastFired.None? && !s.fields.timeSynced
    && s.jobs == map[] && s.started == 0 && s.fires == [] && s.dispatched == []
    && Spaced(s.calendar, s.fields.cron)
  }

  // ----- Each armed target is dispatched at most once -----

  function SerialOf(j: Job): Option<nat> {
    if j.DispatchTarget? then Some(j.armed.serial) else None
  }

  function DispatchedSerial(d: Dispatched): Option<nat> {
    if d.basis.OfTarget? then d.basis.serial else None
  }

  ghost predicate SerialsFit(s: System) {
    && (s.fields.pending.Some? ==> s.fields.pending.value.serial < s.fields.armings)
    && (forall k | k in s.jobs :: k < s.started)
    && (forall k | k in s.jobs && SerialOf(s.jobs[k]).Some? ::
          && SerialOf(s.jobs[k]).value < s.fields.armings
          && (s.fields.pending.Some? ==> s.fields.pending.value.serial != SerialOf(s.jobs[k]).value))
    && (forall k, l | k in s.jobs && l in s.jobs && k != l && SerialOf(s.jobs[k]).Some? ::
          SerialOf(s.jobs[k]) != SerialOf(s.jobs[l]))
  }

  ghost predicate DispatchesFit(s: System) {
    && (forall i | 0 <= i < |s.dispatched| && DispatchedSerial(s.dispatched[i]).Some? ::
          && DispatchedSerial(s.dispatched[i]).value < s.fields.armings
          && (s.fields.pending.Some? ==> Some(s.fields.pending.value.serial) != DispatchedSerial(s.dispatched[i]))
          && forall k | k in s.jobs :: SerialOf(s.jobs[k]) != DispatchedSerial(s.dispatched[i]))
    && (forall i, j | 0 <= i < j < |s.dispatched| && DispatchedSerial(s.dispatched[i]).Some? ::
          DispatchedSerial(s.dispatched[i]) != DispatchedSerial(s.dispatched[j]))
  }

  // ----- Gates and durations -----

  predicate JobFits(j: Job) {
    && Open(j.gate)
    && (j.DispatchNow? ==> j.duration > 0)
    && (j.CommitPlan? && j.plan.seconds.Some? ==>
          && j.plan.now.mono.Some?
          && j.plan.seconds.value == PendingWakeSeconds(j.plan.target, j.plan.now, j.cap) > 0)
  }

  predicate SecondsFit(d: Dispatched) {
    && Open(d.gate) && d.seconds >= 1
    && match d.basis
       case OfDuration(duration) => duration > 0 && d.seconds == ImmediateSeconds(duration, d.cap)
       case OfTarget(target, now, _) => d.seconds == PendingWakeSeconds(target, now, d.cap)
  }

  // ----- Cooldown -----

  /** The cooldown runs from the fire recorded last, and no accepted tick came within it. */
  ghost predicate FiresFit(s: System) {
    && (s.fields.lastFired.Some? <==> s.fires != [])
    && (s.fires != [] ==> s.fields.lastFired.value.mono == Some(s.fires[|s.fires| - 1].at))
    && (forall i | 0 < i < |s.fires| && s.fires[i].tick :: s.fires[i].at - s.fires[i - 1].at >= COOLDOWN)
  }

  ghost predicate Sound(s: System) {
    && SerialsFit(s) && DispatchesFit(s) && FiresFit(s)
    && (s.fields.timeSynced || s.fields.pending.None?)
    && (forall k | k in s.jobs :: JobFits(s.jobs[k]))
    && (forall d | d in s.dispatched :: SecondsFit(d))
  }

  // ----- Every reachable system is sound -----

  lemma BeginIsSound(s: System, j: Job)
    requires Sound(s) && JobFits(j) && SerialOf(j).None?
    ensures Sound(Begin(s, j))
  {
    hide SecondsFit, JobFits;
  }

  /** Taking the pending target moves its serial from the field to a job. */
  lemma TakingIsSound(s: System, f: Fields, armed: Armed, cap: nat, g: Gate)
    requires Sound(s) && s.fields.pending == Some(armed) && Open(g)
    requires f == s.fields.(pending := None, standby := f.standby)
    ensures Sound(Begin(s.(fields := f), DispatchTarget(armed, cap, g)))
  {
    hide SecondsFit, Open;
  }

  /** Fields that change neither the pending target nor the cooldown. */
  lemma FieldsAreSound(s: System, f: Fields, clock: int, mark: Option<Mark>)
    requires Sound(s) && f.armings == s.fields.armings && f.lastFired == s.fields.lastFired
    requires s.fields.timeSynced ==> f.timeSynced
    requires f.pending == s.fields.pending || f.pending.None?
    ensures Sound(s.(fields := f, clock := clock, mark := mark))
  {
    hide SecondsFit, JobFits;
  }

  lemma TickIsSound(s: System, now: Instant, p: Probe)
    requires Sound(s) && Fresh(s, now)
    ensures Sound(OnTick(s, now, p))
  {
    hide SecondsFit, ClockValid;
    if SchedulerSpec.Accepts(s.fields, Ok(s, p), now) {
      var r := Fire(s.fields, Ok(s, p), now);
      var s1 := Tock(s, now).(fields := r.0, fires := s.fires + [Recorded(true, now.mono.value)]);
      assert FiresFit(s1);
      assert SerialsFit(s1);
      assert DispatchesFit(s1);
      if r.1 { BeginIsSound(s1, DispatchNow(s.fields.duration, GateOf(s, p))); }
    } else {
      FieldsAreSound(s, s.fields, now.mono.value, s.mark);
    }
  }

  lemma DispatchIsSound(s: System, x: Input)
    requires Sound(s) && (x.VehicleReport? || x.Retry?)
    ensures Sound(Apply(s, x))
  {
    hide Sound, ClockValid;
    var r := if x.VehicleReport? then Vehicle(s.fields, x.standby, Ok(s, x.probe)) else Dispatch(s.fields, Ok(s, x.probe));
    if r.1.Some? {
      TakingIsSound(s, r.0, r.1.value, x.cap, GateOf(s, x.probe));
    } else {
      FieldsAreSound(s, r.0, s.clock, s.mark);
    }
  }

  lemma EndingIsSound(s: System, id: nat, clock: int)
    requires Sound(s)
    ensures Sound(s.(clock := clock, jobs := s.jobs - {id}))
  {
    hide SecondsFit, JobFits;
  }

  lemma SearchIsSound(s: System, id: nat, now: Instant, prev: Option<int>)
    requires Sound(s) && id in s.jobs && Fresh(s, now)
    ensures Sound(OnSearch(s, id, now, prev))
  {
    hide SerialsFit, DispatchesFit, FiresFit, SecondsFit, PendingWakeSeconds, ClockValid;
    var j := s.jobs[id];
    if j.CatchUp? {
      EndingIsSound(s, id, now.mono.value);
      var plan := Weigh(j.copy, prev, now, j.cap);
      if plan.Some? {
        assert JobFits(j);
        BeginIsSound(s.(clock := now.mono.value, jobs := s.jobs - {id}), CommitPlan(plan.value, j.cap, j.gate));
      }
    }
  }

  lemma CommitIsSound(s: System, plan: Plan)
    requires Sound(s) && (plan.seconds.Some? ==> plan.now.mono.Some?)
    ensures Sound(s.(fields := Commit(s.fields, plan), fires := AfterCommit(s.fires, plan)))
  {
    hide SecondsFit, JobFits;
  }

  lemma RecordIsSound(s: System, d: Dispatched)
    requires Sound(s) && SecondsFit(d) && DispatchedSerial(d).None?
    ensures Sound(s.(dispatched := s.dispatched + [d]))
  {
    hide JobFits, SecondsFit;
  }

  lemma TargetIsSound(s: System, id: nat, d: Dispatched)
    requires Sound(s) && id in s.jobs && SerialOf(s.jobs[id]).Some?
    requires SecondsFit(d) && DispatchedSerial(d) == SerialOf(s.jobs[id])
    ensures Sound(s.(jobs := s.jobs - {id}, dispatched := s.dispatched + [d]))
  {
    hide JobFits, SecondsFit;
  }

  lemma FinishIsSound(s: System, id: nat, now: Instant, cap: nat)
    requires Sound(s) && id in s.jobs && Fresh(s, now)
    ensures Sound(OnFinish(s, id, now, cap))
  {
    hide SerialsFit, DispatchesFit, FiresFit, PendingWakeSeconds, ClockValid;
    var j := s.jobs[id];
    assert JobFits(j);
    EndingIsSound(s, id, now.mono.value);
    FieldsAreSound(s, s.fields, now.mono.value, s.mark);
    match j
    case CatchUp(_, _, _) =>
    case DispatchNow(duration, g) =>
      RecordIsSound(s.(clock := now.mono.value, jobs := s.jobs - {id}),
                    Dispatched(ImmediateSeconds(duration, cap), cap, OfDuration(duration), g));
    case DispatchTarget(armed, cap0, g) =>
      var secs := PendingWakeSeconds(armed.target, now, cap0);
      if secs != 0 {
        TargetIsSound(s.(clock := now.mono.value), id,
                      Dispatched(secs, cap0, OfTarget(armed.target, now, Some(armed.serial)), g));
      }
    case CommitPlan(plan, cap0, g) =>
      var s1 := s.(clock := now.mono.value, jobs := s.jobs - {id});
      CommitIsSound(s1, plan);
      if plan.seconds.Some? {
        RecordIsSound(s1.(fields := Commit(s.fields, plan), fires := AfterCommit(s.fires, plan)),
                      Dispatched(plan.seconds.value, cap0, OfTarget(plan.target, plan.now, None), g));
      }
  }

  lemma NextIsSound(s: System, x: Input)
    requires Sound(s) && Timely(s, x)
    ensures Sound(Apply(s, x))
  {
    hide Sound, OnTick, OnSearch, OnFinish, BeginDispatch, ClockValid;
    match x
    case CronTick(now, p, _) => TickIsSound(s, now, p);
    case VehicleReport(_, _, _) => DispatchIsSound(s, x);
    case Retry(_, _) => DispatchIsSound(s, x);
    case BeginCatchUp(now, p, cap) =>
      FieldsAreSound(s, s.fields, now.mono.value, s.mark);
      if MayCatchUp(s.fields, Ok(s, p), now) { BeginIsSound(Tock(s, now), CatchUp(s.fields, cap, GateOf(s, p))); }
    case Search(id, now, prev) => if id in s.jobs { SearchIsSound(s, id, now, prev); }
    case Finish(id, now, cap) => if id in s.jobs { FinishIsSound(s, id, now, cap); }
    case MarkClock(m) => FieldsAreSound(s, s.fields, s.clock, Some(m));
    case _ => FieldsAreSound(s, Apply(s, x).fields, s.clock, s.mark);
  }

  lemma {:induction false} RunIsSound(s: System, xs: seq<Input>)
    requires Sound(s) && Legal(s, xs)
    ensures Sound(After(s, xs))
    decreases |xs|
  {
    hide Sound, Apply, Timely, OnSchedule;
    if xs != [] {
      NextIsSound(s, xs[0]);
      RunIsSound(Apply(s, xs[0]), xs[1..]);
    }
  }

  lemma StartIsSound(s: System)
    requires Initial(s)
    ensures Sound(s)
  {
  }

  // ----- What runs guarantee -----

  /** No armed target is dispatched twice, in any interleaving. */
  lemma TargetsAreDispatchedOnce(s: System, xs: seq<Input>, i: nat, j: nat)
    requires Initial(s) && Legal(s, xs) && i < j < |After(s, xs).dispatched|
    requires DispatchedSerial(After(s, xs).dispatched[i]).Some?
    ensures DispatchedSerial(After(s, xs).dispatched[i]) != DispatchedSerial(After(s, xs).dispatched[j])
  {
    hide Initial, Legal, After, SerialsFit, FiresFit, JobFits, SecondsFit;
    StartIsSound(s);
    RunIsSound(s, xs);
  }

  /** Every dispatch was gated: enabled, synced, and a wall clock that had lost at most the slack since the mark. */
  lemma DispatchesAreGated(s: System, xs: seq<Input>, d: Dispatched)
    requires Initial(s) && Legal(s, xs) && d in After(s, xs).dispatched
    ensures d.gate.enabled && d.gate.synced && d.gate.mark.Some?
    ensures Lost(d.gate.mark.value, d.gate.wall, d.gate.boot) <= SLACK
  {
    hide Initial, Legal, After, SerialsFit, FiresFit, DispatchesFit, JobFits;
    StartIsSound(s);
    RunIsSound(s, xs);
    assert SecondsFit(d);
  }

  /** Every dispatched duration stays within its cap and wakes within a second after its target, or exactly as the cap forces. */
  lemma DispatchesMeetTheirTarget(s: System, xs: seq<Input>, d: Dispatched)
    requires Initial(s) && Legal(s, xs) && d in After(s, xs).dispatched && 0 < d.cap < TWO_TO_32
    ensures 1 <= d.seconds <= d.cap
    ensures d.basis.OfTarget? ==>
      && d.seconds * SECOND < Sub(d.basis.target, d.basis.now) + SECOND
      && (Sub(d.basis.target, d.basis.now) < (d.cap + 1) * SECOND ==>
            d.seconds * SECOND > Sub(d.basis.target, d.basis.now) - SECOND)
    ensures d.basis.OfDuration? && d.basis.duration < TWO_TO_32 * SECOND ==>
      && d.seconds * SECOND < d.basis.duration + SECOND
      && (d.basis.duration < (d.cap + 1) * SECOND ==> d.seconds * SECOND > d.basis.duration - SECOND)
  {
    hide Initial, Legal, After, SerialsFit, FiresFit, DispatchesFit, JobFits, Open, PendingWakeSeconds;
    StartIsSound(s);
    RunIsSound(s, xs);
    assert SecondsFit(d);
    match d.basis
    case OfDuration(duration) => if duration < TWO_TO_32 * SECOND { ImmediateSecondsFit(duration, d.cap); }
    case OfTarget(target, now, _) => PendingSecondsFit(target, now, d.cap);
  }

  // ----- The cooldown -----

  /**
   An accepted tick comes at least a cooldown after the time recorded last. That time need
   not be the latest one: a catch-up is dispatched some time after it is decided, and puts
   its own time over a tick's. Two accepted ticks are a cooldown apart if nothing recorded
   between them was decided before the earlier one.
   */
  lemma TicksKeepTheirDistance(s: System, xs: seq<Input>, i: nat, j: nat)
    requires Initial(s) && Legal(s, xs) && i < j < |After(s, xs).fires|
    requires After(s, xs).fires[i].tick && After(s, xs).fires[j].tick
    ensures var f := After(s, xs).fires;
      && f[j].at - f[j - 1].at >= COOLDOWN
      && ((forall k | i <= k < j :: f[k].at >= f[i].at) ==> f[j].at - f[i].at >= COOLDOWN)
  {
    hide Initial, Legal, After, SerialsFit, DispatchesFit, JobFits, SecondsFit;
    StartIsSound(s);
    RunIsSound(s, xs);
  }

  /** When the last accepted tick came. */
  function LastTick(fires: seq<Recorded>): Option<int> {
    if fires == [] then None
    else if fires[|fires| - 1].tick then Some(fires[|fires| - 1].at)
    else LastTick(fires[..|fires| - 1])
  }

  predicate GateOpen(s: System, now: Instant, p: Probe) {
    s.fields.enabled && s.fields.timeSynced && s.fields.duration > 0 && Ok(s, p) && !Suppressed(s.fields, now)
  }

  /** The tick is accepted less than a cooldown after the last one. */
  predicate TooEarly(s: System, now: Instant, p: Probe)
    requires Fresh(s, now)
  {
    && OnTick(s, now, p).fires != s.fires
    && LastTick(s.fires).Some? && now.mono.value - LastTick(s.fires).value < COOLDOWN
  }

  /**
   Tick by tick, in any reachable system: with the gate open, a tick is accepted too early
   if and only if it comes a cooldown after the fire recorded last and not yet one after
   the tick accepted last.
   */
  lemma CooldownFailsExactly(s: System, xs: seq<Input>, now: Instant, p: Probe)
    requires Initial(s) && Legal(s, xs) && Fresh(After(s, xs), now) && GateOpen(After(s, xs), now, p)
    requires LastTick(After(s, xs).fires).Some?
    ensures var n := After(s, xs);
      && n.fields.lastFired.Some? && n.fields.lastFired.value.mono.Some?
      && (TooEarly(n, now, p) <==>
            n.fields.lastFired.value.mono.value + COOLDOWN <= now.mono.value < LastTick(n.fires).value + COOLDOWN)
  {
    hide Initial, Legal, After, SerialsFit, DispatchesFit, JobFits, SecondsFit, ClockValid;
    StartIsSound(s);
    RunIsSound(s, xs);
  }

  /**
   The exact condition under which the cooldown can fail, on three readings of any reached
   system: with a schedule that may fire, some tick can still come too early exactly if the
   fire recorded last is older than the tick accepted last, and that one's cooldown has not
   passed.
   */
  lemma CooldownCanFail(s: System, xs: seq<Input>)
    requires Initial(s) && Legal(s, xs) && LastTick(After(s, xs).fires).Some?
    requires var f := After(s, xs).fields; f.enabled && f.timeSynced && f.duration > 0 && f.suppressUntil.None?
    requires After(s, xs).mark.Some?
    ensures var n := After(s, xs);
      && n.fields.lastFired.Some? && n.fields.lastFired.value.mono.Some?
      && ((exists now: int, p: Probe :: now >= n.clock && GateOpen(n, At(now), p) && TooEarly(n, At(now), p))
          <==> (n.fields.lastFired.value.mono.value < LastTick(n.fires).value && n.clock < LastTick(n.fires).value + COOLDOWN))
  {
    var n := After(s, xs);
    StartIsSound(s);
    RunIsSound(s, xs);
    LastFireIsTimed(n);
    hide Initial, Legal, After, TooEarly, Sound;
    var fired, ticked := n.fields.lastFired.value.mono.value, LastTick(n.fires).value;
    forall now: int, p: Probe | now >= n.clock && GateOpen(n, At(now), p)
      ensures TooEarly(n, At(now), p) <==> fired + COOLDOWN <= now < ticked + COOLDOWN
    {
      CooldownFailsExactly(s, xs, At(now), p);
    }
    if fired < ticked && n.clock < ticked + COOLDOWN {
      var now := if n.clock < fired + COOLDOWN then fired + COOLDOWN else n.clock;
      var p := Probe(n.mark.value.wall, n.mark.value.boot);
      assert GateOpen(n, At(now), p) && TooEarly(n, At(now), p);
    }
  }

  lemma LastFireIsTimed(s: System)
    requires Sound(s) && s.fires != []
    ensures s.fields.lastFired.Some? && s.fields.lastFired.value.mono.Some?
  {
  }

  /** Before the first time sync nothing is ever armed, so the drop that follows the sync finds nothing to drop. */
  lemma NothingIsPendingBeforeSync(s: System, xs: seq<Input>, now: Instant)
    requires Initial(s) && Legal(s, xs) && !After(s, xs).fields.timeSynced
    ensures After(s, xs).fields.pending.None?
    ensures DropAfterSync(After(s, xs).fields, After(s, xs).fields.pending, now) == After(s, xs).fields
  {
    hide Initial, Legal, After, SerialsFit, DispatchesFit, FiresFit, JobFits, SecondsFit;
    StartIsSound(s);
    RunIsSound(s, xs);
  }

  function At(t: int): Instant {
    Instant(t, Some(t))
  }

  // ----- A run that undercuts the cooldown -----

  const QUARTERLY := "*/15 * * * *"

  /** The wall-clock times of `QUARTERLY`. */
  function Quarters(cron: string, t: int): bool {
    cron == QUARTERLY && t % COOLDOWN == 0
  }

  lemma WholeQuarters(t: int)
    requires t % COOLDOWN == 0
    ensures t == COOLDOWN * (t / COOLDOWN)
  {
  }

  lemma QuartersApart(m: int, n: int)
    requires COOLDOWN * m < COOLDOWN * n
    ensures COOLDOWN * n - COOLDOWN * m >= COOLDOWN
  {
    assert m + 1 <= n;
  }

  lemma QuartersAreSpaced()
    ensures Spaced(Quarters, QUARTERLY)
  {
    forall a, b | a < b && Quarters(QUARTERLY, a) && Quarters(QUARTERLY, b) ensures b - a >= COOLDOWN {
      WholeQuarters(a);
      WholeQuarters(b);
      QuartersApart(a / COOLDOWN, b / COOLDOWN);
    }
  }

  /** A search just after a quarter finds that quarter. */
  lemma SearchFindsQuarter(s: System)
    requires s.calendar == Quarters && 0 in s.jobs && s.jobs[0].CatchUp? && s.jobs[0].copy.cron == QUARTERLY
    ensures OnSchedule(s, Search(0, At(COOLDOWN + 1), Some(COOLDOWN)))
  {
    var active := t => s.calendar(s.jobs[0].copy.cron, t);
    assert COOLDOWN % COOLDOWN == 0 && (COOLDOWN + 1) % COOLDOWN == 1;
    assert Quarters(QUARTERLY, COOLDOWN) && !Quarters(QUARTERLY, COOLDOWN + 1);
    assert s.calendar(QUARTERLY, COOLDOWN) == Quarters(QUARTERLY, COOLDOWN);
    assert active(COOLDOWN);
    forall a | COOLDOWN < a <= COOLDOWN + 1 ensures !active(a) {
      assert a == COOLDOWN + 1;
    }
    assert IsLatest(active, COOLDOWN + 1, CATCH_UP_WINDOW, Some(COOLDOWN));
  }

  /**
   The process started a minute after boot and the clock is in step throughout. At the
   quarter, a catch-up of that quarter is decided a nanosecond later, before its own tick
   has been handled.
   */
  lemma DecidedCatchUp() returns (s: System, xs: seq<Input>, decided: System)
    ensures Initial(s) && Legal(s, xs) && After(s, xs) == decided && decided.calendar == Quarters
    ensures decided.fields.enabled && decided.fields.timeSynced && decided.fields.standby && decided.fields.duration == HOUR
    ensures decided.fields.cron == QUARTERLY
    ensures decided.fields.lastFired.None? && decided.fields.suppressUntil.None?
    ensures decided.mark == Some(Mark(0, 0)) && decided.clock == COOLDOWN + 1 && decided.fires == []
    ensures 1 in decided.jobs && decided.started == 2
    ensures decided.jobs[1].CommitPlan? && decided.jobs[1].plan.now == At(COOLDOWN + 1) && decided.jobs[1].plan.seconds.Some?
  {
    hide Legal, After, OnSchedule;
    var f := Fields(true, false, true, HOUR, QUARTERLY, None, None, None, Instant(MINUTE, None), At(MINUTE), Instant(MINUTE, None), 0);
    s := System(f, Some(Mark(0, 0)), MINUTE, map[], 0, [], [], Quarters);
    QuartersAreSpaced();
    xs := [SetSynced, BeginCatchUp(At(COOLDOWN), Probe(COOLDOWN, COOLDOWN), 7200), Search(0, At(COOLDOWN + 1), Some(COOLDOWN))];
    var s1 := Apply(s, xs[0]);
    var s2 := Apply(s1, xs[1]);
    assert s2.jobs[0] == CatchUp(s1.fields, 7200, GateOf(s1, Probe(COOLDOWN, COOLDOWN)));
    SearchFindsQuarter(s2);
    Unscheduled(s, xs[0]);
    Unscheduled(s1, xs[1]);
    decided := Apply(s2, xs[2]);
    hide Apply, Spaced;
    Chain(s, xs, [s, s1, s2, decided]);
  }

  /**
   The tick of that quarter is then accepted, the catch-up is dispatched after it, and the
   tick of the next quarter, handled as promptly as the catch-up was decided, is accepted
   less than a cooldown after the first.
   */
  lemma StaleCatchUpShortensCooldown() returns (s: System, xs: seq<Input>)
    ensures Initial(s) && Legal(s, xs)
    ensures var f := After(s, xs).fires;
      |f| == 3 && f[0].tick && !f[1].tick && f[2].tick && f[2].at - f[0].at < COOLDOWN
  {
    hide Legal, After, Initial;
    var before, decided;
    s, before, decided := DecidedCatchUp();
    var soon, next := COOLDOWN + 2, 2 * COOLDOWN + 1;
    var rest := [CronTick(At(soon), Probe(soon, soon), COOLDOWN), Finish(1, At(COOLDOWN + 3), 7200),
                 CronTick(At(next), Probe(next, next), 2 * COOLDOWN)];
    hide OnTick, OnFinish;
    TickIsTaken(decided, soon);
    var s4 := Apply(decided, rest[0]);
    PlanIsCommitted(s4, COOLDOWN + 3);
    var s5 := Apply(s4, rest[1]);
    TickIsTaken(s5, next);
    var s6 := Apply(s5, rest[2]);
    Chain(decided, rest, [decided, s4, s5, s6]);
    Joined(s, before, rest);
    xs := before + rest;
  }

  lemma Unscheduled(s: System, x: Input)
    requires !x.SetCron? && !x.CronTick? && !x.Search?
    ensures OnSchedule(s, x)
  {
  }

  /** A tick in stand-by with the clock in step and the cooldown over. */
  lemma TickIsTaken(s: System, t: int)
    requires s.clock <= t && s.mark == Some(Mark(0, 0)) && s.fields.standby && s.fields.suppressUntil.None?
    requires s.fields.enabled && s.fields.timeSynced && s.fields.duration > 0 && !Cooling(s.fields, At(t))
    ensures var n := OnTick(s, At(t), Probe(t, t));
      && n.fires == s.fires + [Recorded(true, t)] && n.clock == t && n.mark == s.mark && n.calendar == s.calendar
      && n.fields == s.fields.(lastFired := Some(At(t)), pending := None)
      && (forall k | k in s.jobs && k < s.started :: k in n.jobs && n.jobs[k] == s.jobs[k])
  {
  }

  lemma PlanIsCommitted(s: System, t: int)
    requires s.clock <= t && 1 in s.jobs && s.jobs[1].CommitPlan?
    requires s.jobs[1].plan.seconds.Some? && s.jobs[1].plan.now.mono.Some?
    ensures var n := OnFinish(s, 1, At(t), 7200); var p := s.jobs[1].plan;
      && n.fires == s.fires + [Recorded(false, p.now.mono.value)] && n.clock == t && n.mark == s.mark && n.calendar == s.calendar
      && n.fields == s.fields.(lastFired := Some(p.now), pending := None)
  {
  }

  lemma {:induction false} Joined(s: System, xs: seq<Input>, ys: seq<Input>)
    requires Legal(s, xs) && Legal(After(s, xs), ys)
    ensures Legal(s, xs + ys) && After(s, xs + ys) == After(After(s, xs), ys)
    decreases |xs|
  {
    hide Apply, Timely, OnSchedule;
    if xs == [] {
      assert xs + ys == ys;
    } else {
      Joined(Apply(s, xs[0]), xs[1..], ys);
      assert (xs + ys)[1..] == xs[1..] + ys;
    }
  }

  lemma {:induction false} Chain(s: System, xs: seq<Input>, states: seq<System>)
    requires |states| == |xs| + 1 && states[0] == s
    requires forall k | 0 <= k < |xs| :: Possible(states[k], xs[k]) && states[k + 1] == Apply(states[k], xs[k])
    ensures Legal(s, xs) && After(s, xs) == states[|xs|]
    decreases |xs|
  {
    if xs != [] {
      assert Possible(states[0], xs[0]);
      Chain(states[1], xs[1..], states[1..]);
    }
  }

  // ----- Catching up -----

  predicate Missed(copy: Fields, a: int, now: Instant) {
    && copy.started.wall < a <= now.wall
    && (copy.lastFired.Some? ==> copy.lastFired.value.wall < a)
    && a + copy.duration > now.wall
  }

  /**
   Catching up acts exactly if some occurrence in the window since the start and since the
   last fire still has its wake-by time ahead, and then on the latest such occurrence.
   */
  lemma CatchUpActsOnMissed(copy: Fields, active: int -> bool, prev: Option<int>, now: Instant, cap: nat)
    requires IsLatest(active, now.wall, CATCH_UP_WINDOW, prev) && 0 < cap < TWO_TO_32
    ensures Weigh(copy, prev, now, cap).Some? <==>
      exists a :: active(a) && now.wall - 48 * HOUR - SECOND < a && Missed(copy, a, now)
    ensures Weigh(copy, prev, now, cap).Some? ==>
      var a := Weigh(copy, prev, now, cap).value.target.wall - copy.duration;
      && active(a) && Missed(copy, a, now) && forall b | a < b <= now.wall :: !active(b)
  {
    if prev.Some? && Missed(copy, prev.value, now) {
      PendingSecondsFit(Instant(prev.value + copy.duration, None), now, cap);
    }
  }
}
