/**
 The suspend fence: between a successful Prepare and the Abort or Resume that
 lifts it no makestep starts, across refreshes, failed saves, crashes and
 restarts, provided that no two Prepare calls are outstanding at once.
 */
module ClockFence {
  import opened Options
  import opened ClockTypes
  import opened ClockSpec
  import opened ClockRuns
  import opened ClockFrames

  /** A caller's discipline: Prepare is called only when no other Prepare is between its two phases. */
  predicate Admissible(s: System, step: Step) {
    s.Up? && step.PrepareStartStep? ==> s.ledger.waiting == 0
  }

  predicate Disciplined(boot: string, s: System, steps: seq<Step>)
    decreases |steps|
  {
    steps == [] || (Admissible(s, steps[0]) && Disciplined(boot, Next(boot, s, steps[0]), steps[1..]))
  }

  /** While fenced, memory and file both carry the baseline that Prepare recorded. */
  predicate FenceHolds(boot: string, s: System) {
    && s.ledger.breaches == 0
    && (s.ledger.fenced ==> s.ledger.baseline.preparing && s.ledger.baseline.baselineValid)
    && match s
       case Up(n, l) =>
         && l.waiting <= 1
         && (l.fenced ==>
               && l.waiting == 0 && n.st.fence == n.disk.fence == l.baseline
               && n.disk.generation == n.st.generation == l.seen)
       case Down(disk, l) =>
         l.fenced ==> && disk.Some? && disk.value.bootId == boot
                      && disk.value.fence == l.baseline && disk.value.generation == l.seen
  }

  // ----- The fence theorem -----

  lemma NextKeepsFence(boot: string, s: System, step: Step)
    requires Sound(boot, s) && FenceHolds(boot, s) && Admissible(s, step)
    ensures FenceHolds(boot, Next(boot, s, step))
  {
    hide RecordFits, RecordOk;
    if s.Down? {
      hide CanStart;
    } else {
      var n := s.node;
      match step
      case RefreshStep(i) =>
        RefreshKeeps(n, i);
        hide Refresh, Holds;
      case SubmitStep(i) =>
        SubmitKeeps(n, i);
        hide Submit, Holds;
      case ResumeStep(_, _, _, _) =>
        hide Holds;
      case _ =>
        hide Holds;
    }
  }

  /** The fence theorem. */
  lemma {:induction false} FenceIsKept(boot: string, s: System, steps: seq<Step>)
    requires Sound(boot, s) && FenceHolds(boot, s) && Disciplined(boot, s, steps)
    ensures FenceHolds(boot, Run(boot, s, steps))
    decreases |steps|
  {
    if steps != [] {
      NextKeepsFence(boot, s, steps[0]);
      NextIsSound(boot, s, steps[0]);
      FenceIsKept(boot, Next(boot, s, steps[0]), steps[1..]);
    }
  }

  /** From the first start of a boot: no makestep ever starts inside a fence, or beside an unsettled one. */
  lemma NoMakestepInsideFence(boot: string, s: System, steps: seq<Step>)
    requires boot != "" && Initially(boot, s) && Disciplined(boot, s, steps)
    ensures var l := Run(boot, s, steps).ledger; l.breaches == 0 && l.overlaps == 0
  {
    FenceIsKept(boot, s, steps);
    RunIsSound(boot, s, steps);
    hide Run, RecordOk, RecordFits;
  }

  // ----- From a successful Prepare to the next Abort or Resume -----

  /** An Abort, or a Resume that names the prepared identity. */
  predicate Lifts(s: System, step: Step) {
    s.Up? && (step.AbortStep? || (step.ResumeStep? && ResumeAccepted(s.node, step.bootId, step.generation)))
  }

  /** Any steps at all, crashes and other clients' requests included, but no second Prepare in between and no lift. */
  predicate Undisturbed(boot: string, s: System, steps: seq<Step>)
    decreases |steps|
  {
    steps == [] || (&& Admissible(s, steps[0]) && !Lifts(s, steps[0])
                    && Undisturbed(boot, Next(boot, s, steps[0]), steps[1..]))
  }

  /** A ledger that has counted nothing since, under the same fence and generation. */
  predicate SameWatch(l: Ledger, l': Ledger) {
    && l'.fenced && l'.baseline == l.baseline && l'.seen == l.seen
    && l'.started == l.started && l'.losses == l.losses
  }

  lemma NextStaysFenced(boot: string, s: System, step: Step)
    requires Sound(boot, s) && FenceHolds(boot, s) && s.ledger.fenced && !Lifts(s, step)
    ensures SameWatch(s.ledger, Next(boot, s, step).ledger)
  {
    hide RecordFits, RecordOk;
    if s.Up? {
      hide Holds;
      match step
      case RefreshStep(i) =>
        RefreshKeeps(s.node, i);
        hide Refresh;
      case SubmitStep(i) =>
        SubmitKeeps(s.node, i);
        hide Submit;
      case _ =>
    }
  }

  lemma {:induction false} StaysFenced(boot: string, s: System, steps: seq<Step>)
    requires Sound(boot, s) && FenceHolds(boot, s) && s.ledger.fenced && Undisturbed(boot, s, steps)
    ensures var r := Run(boot, s, steps); Sound(boot, r) && FenceHolds(boot, r) && SameWatch(s.ledger, r.ledger)
    decreases |steps|
  {
    hide Sound, FenceHolds, Next, Lifts, Admissible;
    if steps != [] {
      NextStaysFenced(boot, s, steps[0]);
      NextKeepsFence(boot, s, steps[0]);
      NextIsSound(boot, s, steps[0]);
      StaysFenced(boot, Next(boot, s, steps[0]), steps[1..]);
    }
  }

  /** The record a fence rests on: this boot's, with the baseline and generation given, and no command unresolved. */
  predicate Fenced(st: State, boot: string, fence: Fence, generation: nat) {
    st.bootId == boot && st.fence == fence && st.generation == generation && Resolved(st.budget.outcome)
  }

  lemma FencedRecords(boot: string, s: System)
    requires Sound(boot, s) && FenceHolds(boot, s) && s.ledger.fenced
    ensures s.Up? ==>
      && Fenced(s.node.st, boot, s.ledger.baseline, s.ledger.seen) && Fenced(s.node.disk, boot, s.ledger.baseline, s.ledger.seen)
    ensures s.Down? ==> s.disk.Some? && Fenced(s.disk.value, boot, s.ledger.baseline, s.ledger.seen)
  {
    hide RecordFits, Justified, ReloadableAll;
  }

  /**
   From a successful Prepare on, through any steps but an Abort or a Resume under its
   identity: the baseline and the generation it answered under are held in memory and on
   disk, across crashes, no command is unresolved, and no makestep starts.
   */
  lemma PreparedUntilLifted(boot: string, s: System, before: seq<Step>, clock: Option<Clock>, save: SaveResult,
                            after: seq<Step>)
    requires boot != "" && Initially(boot, s) && Disciplined(boot, s, before)
    requires var a := Run(boot, s, before); a.Up? && a.ledger.waiting > 0 && PrepareFinish(a.node, clock, save).1
    requires Undisturbed(boot, Next(boot, Run(boot, s, before), PrepareFinishStep(clock, save)), after)
    ensures var a := Run(boot, s, before);
      var r := Run(boot, Next(boot, a, PrepareFinishStep(clock, save)), after);
      && clock.Some?
      && var fence := Fence(true, true, clock.value.wall, clock.value.boot);
      && r.ledger.started == a.ledger.started
      && (r.Up? ==> Fenced(r.node.st, boot, fence, a.node.st.generation) && Fenced(r.node.disk, boot, fence, a.node.st.generation))
      && (r.Down? ==> r.disk.Some? && Fenced(r.disk.value, boot, fence, a.node.st.generation))
  {
    hide Undisturbed, Disciplined, Fenced;
    var a := Run(boot, s, before);
    FenceIsKept(boot, s, before);
    RunIsSound(boot, s, before);
    var p := Next(boot, a, PrepareFinishStep(clock, save));
    NextKeepsFence(boot, a, PrepareFinishStep(clock, save));
    NextIsSound(boot, a, PrepareFinishStep(clock, save));
    assert p.ledger.fenced && p.ledger.started == a.ledger.started && p.ledger.seen == a.node.st.generation;
    assert clock.Some? && p.ledger.baseline == Fence(true, true, clock.value.wall, clock.value.boot);
    StaysFenced(boot, p, after);
    hide Sound, FenceHolds, Next, PrepareFinish;
    FencedRecords(boot, Run(boot, p, after));
  }

  /**
   A Resume accepted inside the fence measures the loss against the baseline of
   the Prepare that raised it, however often the coordinator restarted meanwhile;
   it opens a recovery episode exactly when CLOCK_BOOTTIME gained more than 2 s on UTC.
   */
  lemma ResumeMeasuresSinceBaseline(boot: string, s: System, steps: seq<Step>, now: Clock)
    requires boot != "" && Initially(boot, s) && Disciplined(boot, s, steps)
    requires var r := Run(boot, s, steps); r.Up? && r.ledger.fenced && r.ledger.baseline.boot <= now.boot
    ensures var r := Run(boot, s, steps);
      var f := r.ledger.baseline;
      var done := Resume(r.node, boot, r.node.st.generation, Some(now), Written);
      && done.ok
      && (done.lossy <==> (now.boot - f.boot) - (now.wall - f.utc) > 2 * SECOND)
      && done.node.st.generation == r.node.st.generation + 1
      && done.node.samples == map[]
      && (done.lossy ==> done.node.st.budget.outcome == Available && !done.node.st.trust.established)
      && (!done.lossy ==> done.node.st.budget == r.node.st.budget && done.node.st.trust == r.node.st.trust)
  {
    FenceIsKept(boot, s, steps);
    RunIsSound(boot, s, steps);
    hide Run, RecordOk, RecordFits;
  }

  // ----- Without the discipline, and with the whole budget spent: two concrete runs -----

  const BOOT := "boot"
  const WALL := 1_700_000_000 * SECOND

  function At(seconds: nat): Option<Clock>
    requires 0 < seconds < 1000
  {
    Some(Clock(WALL, seconds * SECOND))
  }

  /** A refresh at `seconds` after boot, in generation 1, that sees a 10 s residual and whose saves all succeed. */
  function Dispatching(source: Source, seconds: nat): Step
    requires 0 < seconds < 1000
  {
    RefreshStep(RefreshInput(
      1, seconds * SECOND, Some(Tracking(source, source == Ntp, SECOND, 10.0, 0.1, 0.0)), At(seconds),
      Written, Written, Written, Written, Written, At(seconds), Written, true, Written))
  }

  /** A coordinator that will act on a 10 s residual seen at `seconds`. */
  predicate Ready(n: Node, source: Source, seconds: nat) {
    && n.st.generation == 1
    && !n.st.fence.preparing
    && n.st.trust == Trust(false, 0, History(0, NoBasis))
    && n.samples == map[]
    && Resolved(n.st.budget.outcome)
    && (if seconds * SECOND < n.st.budget.deadline then n.st.budget.outcome == Available
        else if source == Ntp then !n.st.budget.lateUsed
        else !n.st.budget.lateHoldoverUsed)
  }

  lemma ReadyRecovers(n: Node, source: Source, seconds: nat)
    requires 0 < seconds < 1000 && (source == Ntp || source == NetworkHoldover) && Ready(n, source, seconds)
    ensures var now := Clock(WALL, seconds * SECOND);
      var t := Tracking(source, source == Ntp, SECOND, 10.0, 0.1, 0.0);
      var i := Dispatching(source, seconds).refresh;
      Refresh(n, i) == Recover(n.(qualityBoot := now.boot, quality := QualityOf(t)), t, i, now, false)
  {
    var now := Clock(WALL, seconds * SECOND);
    var t := Tracking(source, source == Ntp, SECOND, 10.0, 0.1, 0.0);
    var i := Dispatching(source, seconds).refresh;
    var n0 := n.(qualityBoot := now.boot);
    assert Observe(n0.st.trust, n0.samples, i, now.boot) == Some(t);
    assert !Usable(t);
    assert Settle(n0, t, i, now, false) == Recover(n0.(quality := QualityOf(t)), t, i, now, false);
    hide Settle, Recover;
  }

  /** Recovery of a ready coordinator starts a makestep. */
  lemma RecoveryStarts(n: Node, source: Source, seconds: nat)
    requires 0 < seconds < 1000 && (source == Ntp || source == NetworkHoldover) && Ready(n, source, seconds)
    ensures var now := Clock(WALL, seconds * SECOND);
      var t := Tracking(source, source == Ntp, SECOND, 10.0, 0.1, 0.0);
      var r := Recover(n.(qualityBoot := now.boot, quality := QualityOf(t)), t, Dispatching(source, seconds).refresh, now, false);
      && r.called && r.started && !r.settled
      && r.node.inFlight && r.node.st.budget.outcome == InFlight
      && r.node.st == n.st.(budget := r.node.st.budget, dispatch := r.node.st.dispatch)
      && r.node.samples == n.samples
      && r.node.st.budget.deadline <= (if n.st.budget.deadline > seconds * SECOND then n.st.budget.deadline
                                         else (seconds + 90) * SECOND)
      && (r.node.st.budget.lateUsed ==> n.st.budget.lateUsed || source == Ntp)
      && (r.node.st.budget.lateHoldoverUsed ==> n.st.budget.lateHoldoverUsed || source == NetworkHoldover)
  {
    var now := Clock(WALL, seconds * SECOND);
    var t := Tracking(source, source == Ntp, SECOND, 10.0, 0.1, 0.0);
    var n1 := n.(qualityBoot := now.boot, quality := QualityOf(t));
    if OpensLateEpisode(n1, t, now.boot) {
      assert Dispatchable(Persist(LateEpisode(n1, t, now.boot), Written), t, now.boot);
    } else {
      assert Dispatchable(n1, t, now.boot);
    }
  }

  lemma Dispatches(n: Node, l: Ledger, source: Source, seconds: nat)
    requires 0 < seconds < 1000 && (source == Ntp || source == NetworkHoldover) && Ready(n, source, seconds)
    ensures var s := Next(BOOT, Up(n, l), Dispatching(source, seconds));
      && s.Up? && s.node.inFlight && s.node.st.budget.outcome == InFlight
      && s.node.st == n.st.(budget := s.node.st.budget, dispatch := s.node.st.dispatch)
      && s.node.samples == n.samples
      && s.node.st.budget.deadline <= (if n.st.budget.deadline > seconds * SECOND then n.st.budget.deadline
                                         else (seconds + 90) * SECOND)
      && (s.node.st.budget.lateUsed ==> n.st.budget.lateUsed || source == Ntp)
      && (s.node.st.budget.lateHoldoverUsed ==> n.st.budget.lateHoldoverUsed || source == NetworkHoldover)
      && s.ledger == l.(started := l.started + 1, calls := l.calls + 1, unsettled := true,
                        breaches := l.breaches + One(l.fenced), overlaps := l.overlaps + One(l.unsettled))
  {
    hide Refresh, Recover;
    ReadyRecovers(n, source, seconds);
    RecoveryStarts(n, source, seconds);
  }

  const FRESH: System := Down(None, NOTHING)

  function Started(): System {
    Next(BOOT, FRESH, Boot(At(10), true, Written))
  }

  /** Two Prepare calls around one command: A and B wait, the command ends, B succeeds, A times out. */
  const OVERLAPPING_PREPARES: seq<Step> :=
    [PrepareStartStep(Written), AbortStep(Written), PrepareStartStep(Written),
     CommandStep(true, Written), PrepareFinishStep(At(12), Written), PrepareTimeoutStep(Written)]

  /** A waits, is aborted, and B waits. */
  lemma TwoWaiting(n: Node, l: Ledger)
    requires n.inFlight && !n.st.fence.preparing && l.waiting == 0
    ensures var s := Next(BOOT, Next(BOOT, Next(BOOT, Up(n, l), PrepareStartStep(Written)), AbortStep(Written)),
                          PrepareStartStep(Written));
      && s.Up? && s.ledger == l.(waiting := 2, fenced := false)
      && s.node.st == n.st.(fence := s.node.st.fence) && s.node.st.fence.preparing
      && s.node.samples == n.samples && s.node.inFlight
  {
  }

  /** The command ends, B succeeds, A times out. */
  lemma OlderTimesOut(n: Node, l: Ledger)
    requires n.inFlight && n.st.fence.preparing && l.waiting == 2
    ensures var s := Next(BOOT, Next(BOOT, Next(BOOT, Up(n, l), CommandStep(true, Written)),
                                     PrepareFinishStep(At(12), Written)), PrepareTimeoutStep(Written));
      && s.Up?
      && s.ledger == l.(fenced := true, unsettled := false, waiting := 0, baseline := s.ledger.baseline)
      && !s.node.st.fence.preparing
      && s.node.st == n.st.(fence := s.node.st.fence, budget := n.st.budget.(outcome := Completed))
      && s.node.samples == n.samples
  {
  }

  lemma AfterOverlap(n: Node, l: Ledger)
    requires n.inFlight && !n.st.fence.preparing && l.waiting == 0
    ensures var s := Run(BOOT, Up(n, l), OVERLAPPING_PREPARES);
      && s.Up?
      && s.ledger == l.(fenced := true, unsettled := false, waiting := 0, baseline := s.ledger.baseline)
      && !s.node.st.fence.preparing
      && s.node.st == n.st.(fence := s.node.st.fence, budget := n.st.budget.(outcome := Completed))
      && s.node.samples == n.samples
  {
    hide Next;
    TwoWaiting(n, l);
    var s0 := Up(n, l);
    var s1 := Next(BOOT, s0, OVERLAPPING_PREPARES[0]);
    var s2 := Next(BOOT, s1, OVERLAPPING_PREPARES[1]);
    var s3 := Next(BOOT, s2, OVERLAPPING_PREPARES[2]);
    OlderTimesOut(s3.node, s3.ledger);
    var s4 := Next(BOOT, s3, OVERLAPPING_PREPARES[3]);
    var s5 := Next(BOOT, s4, OVERLAPPING_PREPARES[4]);
    var s6 := Next(BOOT, s5, OVERLAPPING_PREPARES[5]);
    assert Run(BOOT, s5, OVERLAPPING_PREPARES[5..]) == s6;
    assert Run(BOOT, s4, OVERLAPPING_PREPARES[4..]) == s6;
    assert Run(BOOT, s3, OVERLAPPING_PREPARES[3..]) == s6;
    assert Run(BOOT, s2, OVERLAPPING_PREPARES[2..]) == s6;
    assert Run(BOOT, s1, OVERLAPPING_PREPARES[1..]) == s6;
  }

  lemma FirstStart()
    ensures var s := Started();
      && s.Up? && s.node.st == InitialState(BOOT, 10 * SECOND)
      && s.node.samples == map[] && s.ledger == NOTHING.(seen := 1)
  {
    assert Reload(map[]) == map[];
  }

  const OPENING: seq<Step> := [Boot(At(10), true, Written), Dispatching(Ntp, 11)]

  lemma Opening()
    ensures Run(BOOT, FRESH, OPENING) == Next(BOOT, Started(), Dispatching(Ntp, 11))
  {
    hide Next;
    RunThen(BOOT, FRESH, [], OPENING[0]);
    assert [] + [OPENING[0]] == [OPENING[0]] && Run(BOOT, FRESH, []) == FRESH;
    RunThen(BOOT, FRESH, [OPENING[0]], OPENING[1]);
    assert [OPENING[0]] + [OPENING[1]] == OPENING;
  }

  const OVERLAPPING_RUN := OPENING + OVERLAPPING_PREPARES + [Dispatching(Ntp, 200)]

  /**
   The discipline is needed: with two Prepare calls outstanding, the older
   call's timeout clears the fence the newer one raised, and a makestep starts inside it.
   */
  lemma OverlappingPreparesBreakFence()
    ensures Run(BOOT, FRESH, OVERLAPPING_RUN).ledger.breaches == 1
  {
    FirstStart();
    Opening();
    var s1 := Started();
    Dispatches(s1.node, s1.ledger, Ntp, 11);
    var s2 := Next(BOOT, s1, Dispatching(Ntp, 11));
    hide Next, Run, Started;
    AfterOverlap(s2.node, s2.ledger);
    var s3 := Run(BOOT, s2, OVERLAPPING_PREPARES);
    Dispatches(s3.node, s3.ledger, Ntp, 200);
    RunJoins(BOOT, FRESH, OPENING, OVERLAPPING_PREPARES);
    RunThen(BOOT, FRESH, OPENING + OVERLAPPING_PREPARES, Dispatching(Ntp, 200));
  }

  const WHOLE_BUDGET := OPENING + [CommandStep(true, Written), Dispatching(NetworkHoldover, 200),
                                   CommandStep(true, Written), Dispatching(Ntp, 400)]

  /** A completed command followed by a second admission. */
  lemma Again(n: Node, l: Ledger, source: Source, seconds: nat)
    requires n.inFlight && (source == Ntp || source == NetworkHoldover) && 0 < seconds < 1000
    requires Ready(n.(st := n.st.WithOutcome(Completed)), source, seconds)
    ensures var s := Next(BOOT, Next(BOOT, Up(n, l), CommandStep(true, Written)), Dispatching(source, seconds));
      && s.Up? && s.node.inFlight
      && s.node.st == n.st.(budget := s.node.st.budget, dispatch := s.node.st.dispatch)
      && s.node.samples == n.samples
      && s.node.st.budget.deadline <= (if n.st.budget.deadline > seconds * SECOND then n.st.budget.deadline
                                       else (seconds + 90) * SECOND)
      && (s.node.st.budget.lateUsed ==> n.st.budget.lateUsed || source == Ntp)
      && s.ledger.started == l.started + 1 && s.ledger.losses == l.losses
  {
    var s := Next(BOOT, Up(n, l), CommandStep(true, Written));
    assert s.node.st == n.st.WithOutcome(Completed);
    Dispatches(s.node, s.ledger, source, seconds);
    hide Next;
  }

  /** The bound of three makesteps without a loss is attained. */
  lemma BudgetIsTight()
    ensures var l := Run(BOOT, FRESH, WHOLE_BUDGET).ledger; l.started == 3 && l.losses == 0
  {
    FirstStart();
    Opening();
    var s1 := Started();
    Dispatches(s1.node, s1.ledger, Ntp, 11);
    hide Next, Run, Started, Dispatching;
    var s2 := Next(BOOT, s1, Dispatching(Ntp, 11));
    Again(s2.node, s2.ledger, NetworkHoldover, 200);
    var s4 := Next(BOOT, Next(BOOT, s2, CommandStep(true, Written)), Dispatching(NetworkHoldover, 200));
    Again(s4.node, s4.ledger, Ntp, 400);
    var a := OPENING + [CommandStep(true, Written)];
    RunThen(BOOT, FRESH, OPENING, CommandStep(true, Written));
    var b := a + [Dispatching(NetworkHoldover, 200)];
    RunThen(BOOT, FRESH, a, Dispatching(NetworkHoldover, 200));
    RunThen(BOOT, FRESH, b, CommandStep(true, Written));
    RunThen(BOOT, FRESH, b + [CommandStep(true, Written)], Dispatching(Ntp, 400));
    assert b + [CommandStep(true, Written)] + [Dispatching(Ntp, 400)] == WHOLE_BUDGET;
  }
}
