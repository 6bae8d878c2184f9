/**
 Where a pending reboot can meet a vehicle in stand-by, and what follows: only with a
 default state of reboot can a vehicle report change the target it starts from, and only
 then can a low-power sequence hold run, for which there is no command.
 */
module PowerReboot {
  import opened Options
  import opened PowerTypes
  import opened PowerPolicy
  import opened PowerTable
  import opened PowerMachine
  import opened PowerInvariant
  import opened PowerRuns

  /** Neither the default nor any update in flight is reboot. */
  ghost predicate NoRebootDefault(m: Machine) {
    && m.default_ != Reboot && m.data.fallback != Some(Reboot)
    && forall e | e in m.queue :: e != DefaultStateChanged(Reboot)
  }

  predicate OtherDefault(x: Input) {
    match x
    case Queue(e) => e != DefaultStateChanged(Reboot)
    case SetDefault(t) => t != Reboot
    case Proceed(t) => forall e | e in t.arrivals :: e != DefaultStateChanged(Reboot)
  }

  /** A stored reboot waits outside stand-by, and low-power sequences have a command to issue. */
  predicate Orderly(s: State, d: Data, issue: Issue) {
    && (s == Running && d.target == Reboot ==> d.vehicle != StandBy)
    && (LowPower(s) ==> d.target != Run)
    && issue != Unsupported
  }

  /** A reboot that may be entered is not stored: the row before was not enabled. */
  lemma CommandedRebootWaits(m: Machine, t: Turn)
    requires m.state == Running && m.queue != [] && m.queue[0].PowerReboot?
    requires Chosen(m, t).Some? && Chosen(m, t).value.to == Running
    ensures m.data.vehicle != StandBy
  {
    hide BatteryPresent, BatteryActive, RemoteAccessBlocks, LastDitchHolds, MayReplace, CancelsLowPower;
    var e := m.queue[0];
    var rows := Rows(Running, e);
    assert rows == [UPGRADE, STORE] && STORE.guards[0] == HigherPriority && UPGRADE.guards == [HigherPriority, CanEnter];
    var c := Choose(rows, 0, m.data, e, t.read).value;
    assert c == 1 && Passes(HigherPriority, m.data, e, t.read(c, 0)) && !Enabled(rows, 0, m.data, e, t.read);
    var j :| 0 <= j < 2 && !Passes(UPGRADE.guards[j], m.data, e, t.read(0, j));
  }

  /** Nor does a report of stand-by leave it stored. */
  lemma StoredRebootWaits(m: Machine, t: Turn)
    requires m.state == Running && m.queue != [] && m.queue[0].VehicleStateChanged? && m.data.target == Reboot
    requires Chosen(m, t).Some? && Chosen(m, t).value.to == Running
    ensures m.queue[0].vehicle != StandBy
  {
    hide BatteryPresent, BatteryActive, RemoteAccessBlocks, LastDitchHolds, MayReplace, CancelsLowPower;
    var e := m.queue[0];
    var rows := Rows(Running, e);
    var row := Row(LowPowerImminent, [CanEnter, TargetHibernate], VehicleChanged);
    assert rows[1] == row && rows[0].to == PreSuspend;
    var c := Choose(rows, 0, m.data, e, t.read).value;
    assert c == 2 && !Enabled(rows, 1, m.data, e, t.read);
    var j :| 0 <= j < 2 && !Passes(row.guards[j], m.data, e, t.read(1, j));
  }

  /** An action leaves the machine orderly, with no fallback of reboot. */
  predicate LeavesOrder(s: State, a: Acted) {
    Orderly(s, a.data, NotIssuing) && a.data.fallback != Some(Reboot)
  }

  /** What an action may assume when neither the default nor the event at hand is a reboot. */
  predicate InOrder(s: State, d: Data, e: Event, i: ActInput) {
    && Orderly(s, d, NotIssuing) && d.fallback != Some(Reboot)
    && e != DefaultStateChanged(Reboot) && i.default_ != Reboot
  }

  lemma CommandIsOrderly(s: State, d: Data, e: Event, row: Row, i: ActInput)
    requires Ready(s, d, e) && Shape(s, e, row) && Granted(row, d, e) && InOrder(s, d, e, i)
    requires row.action == PowerCommand && !e.PowerReboot?
    ensures LeavesOrder(row.to, Act(row.action, d, e, i))
  {
    CommandFits(d, e, i, OnPowerCommand(d, CommandOf(e).value, i));
    CommandTargets(d, e, i);
    CanEnterFacts(d, e);
    assert row.to != Running ==> CanEnter in row.guards && !e.ExplicitHibernate?;
    hide Granted, Ready, Shape, OnPowerCommand, Held, Provenance, Latched, Untagged;
  }

  lemma BatteryIsOrderly(s: State, d: Data, e: Event, row: Row, i: ActInput)
    requires Ready(s, d, e) && Shape(s, e, row) && Granted(row, d, e) && InOrder(s, d, e, i)
    requires row.action == BatteryChanged
    ensures LeavesOrder(row.to, Act(row.action, d, e, i))
  {
    hide OnBattery, Held, Passes;
    GuardFacts(d, e);
    BatteryKeepsIntent(d, e.slot, e.BatteryBecameActive?, i);
  }

  lemma LastDitchIsOrderly(s: State, d: Data, e: Event, row: Row, i: ActInput)
    requires Ready(s, d, e) && Shape(s, e, row) && Granted(row, d, e) && InOrder(s, d, e, i)
    requires row.action in {LastDitchBegins, LastDitchWake, LastDitchCancelled, LastDitchDefault, LowPowerCancelled}
    ensures LeavesOrder(row.to, Act(row.action, d, e, i))
  {
    hide Held, Passes;
    GuardFacts(d, e);
  }

  lemma OtherIsOrderly(s: State, d: Data, e: Event, row: Row, i: ActInput)
    requires Ready(s, d, e) && Shape(s, e, row) && Granted(row, d, e) && InOrder(s, d, e, i)
    requires row.action in {VehicleLeft, Woke, DefaultChanged, PreparationFailed, DisableModem, NoAction}
    ensures LeavesOrder(row.to, Act(row.action, d, e, i))
  {
    hide Held, Passes;
    GuardFacts(d, e);
  }

  /** Where an action that is neither a stored reboot nor a vehicle report leads. */
  lemma ActionIsOrderly(s: State, d: Data, e: Event, row: Row, i: ActInput)
    requires Ready(s, d, e) && Shape(s, e, row) && Granted(row, d, e) && InOrder(s, d, e, i)
    requires row.action != VehicleChanged && !(row.action == PowerCommand && e.PowerReboot?)
    ensures LeavesOrder(row.to, Act(row.action, d, e, i))
  {
    hide Ready, Shape, Granted, InOrder, LeavesOrder, Act;
    match row.action
    case PowerCommand => CommandIsOrderly(s, d, e, row, i);
    case BatteryChanged => BatteryIsOrderly(s, d, e, row, i);
    case LastDitchBegins => LastDitchIsOrderly(s, d, e, row, i);
    case LastDitchWake => LastDitchIsOrderly(s, d, e, row, i);
    case LastDitchCancelled => LastDitchIsOrderly(s, d, e, row, i);
    case LastDitchDefault => LastDitchIsOrderly(s, d, e, row, i);
    case LowPowerCancelled => LastDitchIsOrderly(s, d, e, row, i);
    case _ => OtherIsOrderly(s, d, e, row, i);
  }

  lemma CommandTargets(d: Data, e: Event, i: ActInput)
    requires CommandOf(e).Some? && WellFormed(e)
    ensures OnPowerCommand(d, CommandOf(e).value, i).data.target in {Run, CommandOf(e).value.target}
    ensures CommandOf(e).value.target == Reboot && !e.DefaultStateChanged? ==> e.PowerReboot?
    ensures !e.ExplicitHibernate? ==> OnPowerCommand(d, CommandOf(e).value, i).data.vehicle == d.vehicle
  {
    hide ExplicitVehicle, Retargeted;
    RetargetFits(d, CommandOf(e).value, i);
    RetargetVehicle(d, CommandOf(e).value, i);
  }

  lemma RetargetVehicle(d: Data, c: Command, i: ActInput)
    ensures Retargeted(d, c, i).vehicle == d.vehicle
  {
  }

  lemma RebootRowIsOrderly(m: Machine, t: Turn, i: ActInput)
    requires Sound(m) && m.queue != [] && m.queue[0].PowerReboot? && Chosen(m, t).Some?
    requires Chosen(m, t).value.action == PowerCommand
    ensures var a := Act(PowerCommand, m.data, m.queue[0], i);
      Orderly(Chosen(m, t).value.to, a.data, NotIssuing) && a.data.fallback != Some(Reboot)
  {
    hide QueueFits, CallSafe, Chosen, OnPowerCommand, Held, Rows;
    var e := m.queue[0];
    var row := Chosen(m, t).value;
    ChosenIsGranted(m, t);
    TableShape(m.state, e, row);
    RebootRows(m.state, row);
    CommandFits(m.data, e, i, OnPowerCommand(m.data, CommandOf(e).value, i));
    CommandTargets(m.data, e, i);
    if row.to == Running { CommandedRebootWaits(m, t); }
  }

  lemma RebootRows(s: State, row: Row)
    requires row in Rows(s, Event.PowerReboot)
    ensures row.to == LowPowerImminent || (s == Running && row.to == Running)
  {
  }

  /** Where a report leaves the target, and where it keeps it. */
  lemma ReportTargets(d: Data, v: Vehicle, i: ActInput)
    ensures var d' := OnVehicleStateChanged(d, v, i);
      && d'.vehicle == v && d'.target in {d.target, Run, i.default_} && d'.fallback in {d.fallback, None}
      && (v == StandBy || (v == ShuttingDown && d.vehicle != StandBy) ==> d'.target == d.target)
  {
    hide EnableModem;
    ModemOnly(ClearAutomatic(d.(vehicle := v, target := i.default_)), i.live);
    ModemOnly(ClearAutomatic(ClearRequest(d).(vehicle := v, target := i.default_)), i.live);
  }

  lemma ReportIsOrderly(m: Machine, t: Turn, i: ActInput)
    requires Sound(m) && m.queue != [] && Chosen(m, t).Some? && Chosen(m, t).value.action == VehicleChanged
    requires Orderly(m.state, m.data, NotIssuing) && m.data.fallback != Some(Reboot) && i.default_ != Reboot
    ensures var a := Act(VehicleChanged, m.data, m.queue[0], i);
      Orderly(Chosen(m, t).value.to, a.data, NotIssuing) && a.data.fallback != Some(Reboot)
  {
    hide Sound, Chosen, Held, Passes, Rows, OnVehicleStateChanged;
    var e := m.queue[0];
    var row := Chosen(m, t).value;
    ChosenIsGranted(m, t);
    TableShape(m.state, e, row);
    CanEnterFacts(m.data, e);
    GuardFacts(m.data, e);
    if row.to == Running && m.data.target == Reboot { StoredRebootWaits(m, t); }
    ReportTargets(m.data, e.vehicle, i);
  }

  lemma TurnIsOrderly(m: Machine, t: Turn)
    requires Sound(m) && NoRebootDefault(m) && Orderly(m.state, m.data, m.issue)
    requires forall e | e in t.arrivals :: e != DefaultStateChanged(Reboot) && Arrives(e, m.visit + 1)
    ensures NoRebootDefault(TakeTurn(m, t)) && Orderly(TakeTurn(m, t).state, TakeTurn(m, t).data, TakeTurn(m, t).issue)
  {
    hide QueueFits, CallSafe, Chosen, Rows, Act, Enter, Shape, Ready, StaleTimer, Granted;
    if m.queue != [] && Chosen(m, t).Some? {
      var e := m.queue[0];
      var row := Chosen(m, t).value;
      ChosenIsGranted(m, t);
      TableShape(m.state, e, row);
      HeadIsReady(m);
      var i := ActInput(t.actLive, m.default_, t.requestId, t.published, t.handedOn);
      var a := Act(row.action, m.data, e, i);
      if row.action == VehicleChanged {
        ReportIsOrderly(m, t, i);
      } else if row.action == PowerCommand && e.PowerReboot? {
        RebootRowIsOrderly(m, t, i);
      } else {
        assert e in m.queue;
        ActionIsOrderly(m.state, m.data, e, row, i);
      }
      ActionFits(m.state, m.data, e, row, i);
      IssuingArrival(m.state, m.data, e, row, i);
      EntryFits(row.to, a.data, e, m.visit + 1, m.dryRun, t.entryLive, t.issueInput);
      EntryKeepsIntent(row.to, a.data, e, m.visit + 1, m.dryRun, t.entryLive, t.issueInput);
      var n := Enter(row.to, a.data, e, m.visit + 1, m.dryRun, t.entryLive, t.issueInput);
      SendsNoDefault(row.to, a, m.visit + 1, n);
      forall x | x in TakeTurn(m, t).queue ensures x != DefaultStateChanged(Reboot) {
        assert x in m.queue || x in a.sends + n.sends || x in t.arrivals;
      }
      assert TakeTurn(m, t).data.fallback != Some(Reboot);
    } else {
      forall x | x in TakeTurn(m, t).queue ensures x in m.queue {
      }
    }
  }

  lemma SendsNoDefault(s: State, a: Acted, visit: nat, n: Entered)
    requires Fits(s, a) && Settled(s, visit, n)
    ensures forall e | e in a.sends + n.sends :: !e.DefaultStateChanged?
  {
    hide CallSafe, Provenance, Latched;
  }

  ghost predicate Quiescent(m: Machine) {
    NoRebootDefault(m) && Orderly(m.state, m.data, m.issue)
  }

  lemma {:induction false} RunIsOrderly(m: Machine, xs: seq<Input>)
    requires Sound(m) && Quiescent(m) && Legal(m, xs) && forall x | x in xs :: OtherDefault(x)
    ensures Quiescent(After(m, xs)) && Sound(After(m, xs))
    decreases |xs|
  {
    hide Sound, TakeTurn, Orderly, Arrives;
    if xs != [] {
      var x := xs[0];
      NextIsSound(m, x);
      assert OtherDefault(x);
      if x.Proceed? { TurnIsOrderly(m, x.turn); }
      RunIsOrderly(Apply(m, x), xs[1..]);
    }
  }

  /**
   Without a default state of reboot, in any run: running never holds a reboot with the
   vehicle in stand-by, so by `NaturalEntryKeepsTarget` a vehicle report that starts a
   low-power sequence keeps its target; no low-power sequence holds run, and no visit to
   issuing-low-power finds its target without a command.
   */
  lemma RebootsWaitOutsideStandby(m: Machine, xs: seq<Input>)
    requires Initial(m) && m.default_ != Reboot && Legal(m, xs) && forall x | x in xs :: OtherDefault(x)
    ensures var n := After(m, xs);
      && (n.state == Running && n.data.target == Reboot ==> n.data.vehicle != StandBy)
      && (LowPower(n.state) ==> n.data.target != Run)
      && n.issue != Unsupported
  {
    StartIsSound(m);
    RunIsOrderly(m, xs);
    hide After, Legal, Sound, Initial;
  }
}
