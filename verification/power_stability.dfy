/** Hibernation already under way is not disturbed; explicit requests keep their target. */
module PowerStability {
  import opened Options
  import opened PowerTypes
  import opened Inhibitors
  import opened PowerPolicy
  import opened PowerTable
  import opened PowerMachine
  import opened PowerInvariant
  import opened PowerRuns

  predicate Persistent(t: Target) {
    t == Hibernate || t == HibernateManual || t == HibernateTimer
  }

  /** Events that must not disturb a hibernation with target `t`: all but run, explicit, and commands of its rank or higher. */
  predicate Quiet(e: Event, t: Target) {
    match e
    case VehicleStateChanged(v) => v == StandBy
    case ExplicitHibernate(_, _) => false
    case LastDitchCheck => true
    case DefaultStateChanged(_) => true
    case _ => CommandOf(e).Some? ==> CommandOf(e).value.target != Run && Rank(CommandOf(e).value.target) < Rank(t)
  }

  predicate QuietInput(x: Input, t: Target) {
    match x
    case Queue(e) => Quiet(e, t)
    case SetDefault(_) => true
    case Proceed(turn) => forall e | e in turn.arrivals :: Quiet(e, t)
  }

  /** On its way to power-off for `t`, by request and not by the last-ditch trigger, with nothing loud queued. */
  predicate Underway(m: Machine, t: Target) {
    && LowPower(m.state) && !m.data.automatic && m.data.target == t
    && forall e | e in m.queue :: Quiet(e, t)
  }

  lemma QuietFromLowPowerImminent(d: Data, e: Event, row: Row)
    requires row in FromLowPowerImminent(e)
    requires Granted(row, d, e) && !d.automatic && Persistent(d.target) && Quiet(e, d.target)
    ensures (row.action == NoAction || row.action == DisableModem) && LowPower(row.to)
  {
    hide Held, Passes, MayReplace, Rank;
    GuardFacts(d, e);
    if CommandOf(e).Some? { PriorityIsByRank(CommandOf(e).value.target, d.target); }
  }

  lemma QuietFromWaitingInhibitors(d: Data, e: Event, row: Row)
    requires row in FromWaitingInhibitors(e)
    requires Granted(row, d, e) && !d.automatic && Persistent(d.target) && Quiet(e, d.target)
    ensures (row.action == NoAction || row.action == DisableModem) && LowPower(row.to)
  {
    hide Held, Passes, MayReplace, Rank;
    GuardFacts(d, e);
    if CommandOf(e).Some? { PriorityIsByRank(CommandOf(e).value.target, d.target); }
  }

  lemma QuietFromIssuingLowPower(d: Data, e: Event, row: Row)
    requires row in FromIssuingLowPower(e) && !IsWake(e)
    requires Granted(row, d, e) && !d.automatic && Persistent(d.target) && Quiet(e, d.target)
    ensures (row.action == NoAction || row.action == DisableModem) && LowPower(row.to)
  {
    hide Held, Passes, MayReplace, Rank;
    GuardFacts(d, e);
    if CommandOf(e).Some? { PriorityIsByRank(CommandOf(e).value.target, d.target); }
  }

  lemma QuietRow(s: State, d: Data, e: Event, row: Row)
    requires row in Rows(s, e) && LowPower(s) && !(s == IssuingLowPower && IsWake(e))
    requires Granted(row, d, e) && !d.automatic && Persistent(d.target) && Quiet(e, d.target)
    ensures (row.action == NoAction || row.action == DisableModem) && LowPower(row.to)
  {
    hide Held, Passes, Quiet, FromLowPowerImminent, FromWaitingInhibitors, FromIssuingLowPower;
    GuardFacts(d, e);
    if row != CANCEL {
      match s
      case LowPowerImminent => QuietFromLowPowerImminent(d, e, row);
      case WaitingInhibitors => QuietFromWaitingInhibitors(d, e, row);
      case IssuingLowPower => QuietFromIssuingLowPower(d, e, row);
    }
  }

  lemma QuietEntry(s: State, d: Data, e: Event, visit: nat, dryRun: bool, live: Live, i: IssueInput)
    requires !d.automatic && Persistent(d.target)
    ensures forall x | x in Enter(s, d, e, visit, dryRun, live, i).sends :: Quiet(x, d.target)
  {
    hide HasBlocking, HasOnlyModem, StandByNow, LastDitchHolds, MayEnter, WakeTimerConfirmed;
  }

  lemma QuietTurn(m: Machine, t: Target, turn: Turn)
    requires Sound(m) && Persistent(t) && Underway(m, t) && forall e | e in turn.arrivals :: Quiet(e, t)
    ensures Underway(TakeTurn(m, turn), t)
  {
    hide CallSafe, Rows, Enter, Chosen, StaleTimer, Quiet, Held;
    if m.queue != [] && Chosen(m, turn).Some? {
      var e := m.queue[0];
      if IsWake(e) { assert TagFits(m, 0); }
      ChosenIsGranted(m, turn);
      var row := Chosen(m, turn).value;
      QuietRow(m.state, m.data, e, row);
      var i := ActInput(turn.actLive, m.default_, turn.requestId, turn.published, turn.handedOn);
      var a := Act(row.action, m.data, e, i);
      EntryKeepsIntent(row.to, a.data, e, m.visit + 1, m.dryRun, turn.entryLive, turn.issueInput);
      QuietEntry(row.to, a.data, e, m.visit + 1, m.dryRun, turn.entryLive, turn.issueInput);
    }
  }

  /**
   Battery, eligibility, inhibitor, last-ditch, default-state, timeout and wake events,
   stale cancellations and commands of lower rank leave a hibernation on its way: no
   such run changes its target or takes it back to running.
   */
  lemma {:induction false} HibernationIsNotDisturbed(m: Machine, t: Target, xs: seq<Input>)
    requires Sound(m) && Persistent(t) && Underway(m, t) && Legal(m, xs)
    requires forall x | x in xs :: QuietInput(x, t)
    ensures Underway(After(m, xs), t)
    decreases |xs|
  {
    hide Sound, Underway, TakeTurn, Accepts;
    if xs != [] {
      var x := xs[0];
      NextIsSound(m, x);
      assert QuietInput(x, t);
      if x.Proceed? { QuietTurn(m, t, x.turn); } else { QuietArrival(m, t, x); }
      HibernationIsNotDisturbed(Apply(m, x), t, xs[1..]);
    }
  }

  lemma QuietArrival(m: Machine, t: Target, x: Input)
    requires Underway(m, t) && QuietInput(x, t) && !x.Proceed?
    ensures Underway(Apply(m, x), t)
  {
    hide Quiet;
  }

  // ----- Explicit requests -----

  /** An explicit request in progress holds the target it asked for, and a timed one its duration. */
  predicate Pinned(d: Data) {
    d.request.Some? ==>
      var asked := d.request.value.asked;
      && (asked.target == HibernateManual || asked.target == HibernateFor)
      && d.target == asked.target
      && (asked.target == HibernateFor ==> d.wakeSeconds == asked.seconds >= 1)
  }

  lemma CommandKeepsPin(d: Data, e: Event, i: ActInput)
    requires CommandOf(e).Some? && WellFormed(e)
    ensures Pinned(OnPowerCommand(d, CommandOf(e).value, i).data)
  {
    hide ExplicitVehicle, Retargeted;
    RetargetFits(d, CommandOf(e).value, i);
  }

  lemma ReportKeepsPin(d: Data, v: Vehicle, i: ActInput)
    requires Pinned(d)
    ensures Pinned(OnVehicleStateChanged(d, v, i))
  {
    hide EnableModem;
    ModemOnly(ClearAutomatic(d.(vehicle := v, target := i.default_)), i.live);
    ModemOnly(ClearAutomatic(ClearRequest(d).(vehicle := v, target := i.default_)), i.live);
  }

  lemma UpdatePins(d: Data, t: Target)
    requires Pinned(d) && IsValidDefault(t)
    ensures Pinned(OnDefaultStateChanged(d, t)) <==> d.request.None? || t == d.target
  {
  }

  lemma ActionKeepsPin(s: State, d: Data, e: Event, row: Row, i: ActInput)
    requires Ready(s, d, e) && Shape(s, e, row) && Granted(row, d, e) && Pinned(d)
    ensures Pinned(Act(row.action, d, e, i).data) <==>
      !(row.action == DefaultChanged && d.request.Some? && e.default_ != d.target)
  {
    hide OnPowerCommand, OnVehicleStateChanged, OnBattery, OnDefaultStateChanged, Held;
    GuardFacts(d, e);
    if row.action == DefaultChanged { UpdatePins(d, e.default_); }
    if row.action == VehicleChanged { ReportKeepsPin(d, e.vehicle, i); }
    if row.action == BatteryChanged { BatteryKeepsIntent(d, e.slot, e.BatteryBecameActive?, i); }
    if row.action == PowerCommand { CommandKeepsPin(d, e, i); }
  }

  /**
   A turn keeps an explicit request with the target and duration it asked for, or ends it,
   with exactly one exception: a default-state update taken in running replaces the
   target of an open request by any other one, and leaves the request open.
   */
  lemma RequestsPinTheirTarget(m: Machine, t: Turn)
    requires Sound(m) && Pinned(m.data) && m.queue != []
    ensures Pinned(TakeTurn(m, t).data) <==>
      !(&& m.state == Running && m.queue[0].DefaultStateChanged?
        && m.data.request.Some? && m.queue[0].default_ != m.data.target)
  {
    hide QueueFits, CallSafe, Chosen, Rows, Act, Enter, Shape, Ready, StaleTimer, Held;
    var e := m.queue[0];
    if m.state == Running && e.DefaultStateChanged? { DefaultIsTaken(m, t); }
    if Chosen(m, t).Some? {
      ChosenIsGranted(m, t);
      var row := Chosen(m, t).value;
      TableShape(m.state, e, row);
      HeadIsReady(m);
      var i := ActInput(t.actLive, m.default_, t.requestId, t.published, t.handedOn);
      var a := Act(row.action, m.data, e, i);
      ActionKeepsPin(m.state, m.data, e, row, i);
      EntryKeepsIntent(row.to, a.data, e, m.visit + 1, m.dryRun, t.entryLive, t.issueInput);
      DefaultRow(m.state, e, row);
      if row.to == Running { assert TakeTurn(m, t).data == a.data by { RunningEntry(a.data, e, m.visit + 1, m.dryRun, t); } }
    }
  }

  lemma DefaultIsTaken(m: Machine, t: Turn)
    requires m.state == Running && m.queue != [] && m.queue[0].DefaultStateChanged?
    ensures Chosen(m, t).Some?
  {
    assert Enabled(Rows(Running, m.queue[0]), 0, m.data, m.queue[0], t.read);
  }

  lemma DefaultFromRunning(e: Event, row: Row)
    requires row in Rows(Running, e) && e.DefaultStateChanged?
    ensures row.action == DefaultChanged
  {
    assert Rows(Running, e) == FromRunning(e) == [Row(Running, [], DefaultChanged)];
  }

  lemma DefaultRow(s: State, e: Event, row: Row)
    requires row in Rows(s, e)
    ensures row.action == DefaultChanged <==> s == Running && e.DefaultStateChanged?
    ensures row.action == DefaultChanged ==> row.to == Running
  {
    hide Rows;
    TableShape(s, e, row);
    if s == Running && e.DefaultStateChanged? { DefaultFromRunning(e, row); }
  }

  lemma RunningEntry(d: Data, e: Event, visit: nat, dryRun: bool, t: Turn)
    ensures Enter(Running, d, e, visit, dryRun, t.entryLive, t.issueInput).data == d
  {
  }

  /** The one turn that separates a request from its target. */
  predicate Overrides(m: Machine, x: Input) {
    && x.Proceed? && m.state == Running && m.data.request.Some?
    && m.queue != [] && m.queue[0].DefaultStateChanged? && m.queue[0].default_ != m.data.target
  }

  predicate NeverOverrides(m: Machine, xs: seq<Input>)
    decreases |xs|
  {
    xs == [] || (!Overrides(m, xs[0]) && NeverOverrides(Apply(m, xs[0]), xs[1..]))
  }

  /** So in every run without such a turn, an open request holds what it asked for. */
  lemma {:induction false} RequestsStayPinned(m: Machine, xs: seq<Input>)
    requires Sound(m) && Pinned(m.data) && Legal(m, xs) && NeverOverrides(m, xs)
    ensures Pinned(After(m, xs).data)
    decreases |xs|
  {
    hide Sound, Pinned, TakeTurn, PowerInvariant.Accepts;
    if xs != [] {
      var x := xs[0];
      NextIsSound(m, x);
      if x.Proceed? && m.queue != [] {
        RequestsPinTheirTarget(m, x.turn);
      } else {
        IdleKeepsData(m, x);
      }
      RequestsStayPinned(Apply(m, x), xs[1..]);
    }
  }

  lemma IdleKeepsData(m: Machine, x: Input)
    requires !x.Proceed? || m.queue == []
    ensures Apply(m, x).data == m.data
  {
  }
}
