/** Automatic last-ditch hibernation: what a cancellation gives back. */
module PowerLastDitch {
  import opened Options
  import opened PowerTypes
  import opened PowerPolicy
  import opened PowerTable
  import opened PowerMachine
  import opened PowerInvariant
  import opened PowerRuns

  /** The default-state update a step processes, if it processes one. */
  function Heard(m: Machine, x: Input, latest: Target): Target {
    if x.Proceed? && m.queue != [] && m.queue[0].DefaultStateChanged? then m.queue[0].default_ else latest
  }

  /** The last default-state update processed along a run, or `latest` if there is none. */
  function LastDefault(m: Machine, xs: seq<Input>, latest: Target): Target
    decreases |xs|
  {
    if xs == [] then latest else LastDefault(Apply(m, xs[0]), xs[1..], Heard(m, xs[0], latest))
  }

  predicate StaysAutomatic(m: Machine, xs: seq<Input>)
    decreases |xs|
  {
    m.data.automatic && (xs == [] || StaysAutomatic(Apply(m, xs[0]), xs[1..]))
  }

  /** The turn in which last-ditch hibernation takes over. */
  predicate Begins(m: Machine, t: Turn) {
    && m.queue != [] && Chosen(m, t).Some?
    && (Chosen(m, t).value.action == LastDitchBegins || Chosen(m, t).value.action == LastDitchWake)
  }

  /** A turn in which it is called off: recovery, a setting change, or lost eligibility. */
  predicate CallsOff(m: Machine, t: Turn) {
    && m.queue != [] && Chosen(m, t).Some? && m.data.automatic
    && (Chosen(m, t).value.action == LastDitchCancelled || Chosen(m, t).value.action == LowPowerCancelled)
  }

  /** The target last-ditch hibernation replaces; still the older one if provenance was set before. */
  function Replaced(d: Data): Target {
    if d.automatic && d.fallback.Some? then d.fallback.value else d.target
  }

  lemma DefaultUpdateIsTaken(m: Machine, t: Turn)
    requires Sound(m) && m.queue != [] && m.queue[0].DefaultStateChanged? && m.data.automatic
    ensures Chosen(m, t).Some?
  {
    hide QueueFits, CallSafe, MayEnter, LastDitchHolds, CancelsLowPower;
    var e := m.queue[0];
    var rows := Rows(m.state, e);
    assert Enabled(rows, 0, m.data, e, t.read);
  }

  lemma CommandFollows(s: State, d: Data, e: Event, row: Row, i: ActInput)
    requires Ready(s, d, e) && Shape(s, e, row) && row.action == PowerCommand
    requires Act(row.action, d, e, i).data.automatic
    ensures !e.DefaultStateChanged? && Act(row.action, d, e, i).data.fallback == d.fallback
  {
    hide OnPowerCommand;
    CommandFits(d, e, i, OnPowerCommand(d, CommandOf(e).value, i));
  }

  /** Provenance and fallback end together, or both stay. */
  predicate EndsBoth(d: Data, d': Data) {
    (!d'.automatic && d'.fallback.None?) || (d'.automatic == d.automatic && d'.fallback == d.fallback)
  }

  lemma ReportEndsBoth(d: Data, v: Vehicle, i: ActInput)
    ensures EndsBoth(d, OnVehicleStateChanged(d, v, i)) && EndsBoth(d, OnVehicleLeft(d, v, i))
  {
    hide ShutdownInterrupted;
  }

  lemma CancellationEndsBoth(d: Data, i: ActInput)
    ensures EndsBoth(d, OnLastDitchDisabled(d, i).data) && EndsBoth(d, EnableModem(d, i.live)) && EndsBoth(d, DisabledModem(d, i.live))
  {
  }

  lemma OthersEndBoth(d: Data, slot: Slot, active: bool, request: Option<nat>, i: ActInput)
    ensures EndsBoth(d, OnBattery(d, slot, active, i)) && EndsBoth(d, OnPreparationFailed(d, request))
  {
    BatteryKeepsIntent(d, slot, active, i);
    hide OnBattery;
  }

  /** Any other action ends the fallback together with provenance, or leaves both. */
  lemma OthersFollow(d: Data, e: Event, a: Action, i: ActInput)
    requires a != PowerCommand && d.automatic && Act(a, d, e, i).data.automatic
    requires e.DefaultStateChanged? ==> a == LastDitchDefault || a == DefaultChanged
    ensures Act(a, d, e, i).data.fallback == if e.DefaultStateChanged? then Some(e.default_) else d.fallback
  {
    hide OnPowerCommand, OnVehicleStateChanged, OnVehicleLeft, OnBattery, OnLastDitchDisabled, OnPreparationFailed,
      EnableModem, DisabledModem, VehicleOf;
    match a
    case VehicleChanged => if e.VehicleStateChanged? { ReportEndsBoth(d, e.vehicle, i); }
    case VehicleLeft => ReportEndsBoth(d, VehicleOf(d, e), i);
    case BatteryChanged =>
      if e.BatteryBecameActive? || e.BatteryBecameInactive? { OthersEndBoth(d, e.slot, e.BatteryBecameActive?, None, i); }
    case PreparationFailed =>
      if e.HibernatePreparationFailed? { OthersEndBoth(d, Slot0, false, e.request, i); }
    case _ => CancellationEndsBoth(d, i);
  }

  /** One action that leaves provenance set: only a default-state update moves the fallback. */
  lemma ActionFollows(s: State, d: Data, e: Event, row: Row, i: ActInput)
    requires Ready(s, d, e) && Shape(s, e, row) && d.automatic
    requires Act(row.action, d, e, i).data.automatic
    requires e.DefaultStateChanged? ==> row.action == LastDitchDefault || row.action == DefaultChanged
    ensures Act(row.action, d, e, i).data.fallback == if e.DefaultStateChanged? then Some(e.default_) else d.fallback
  {
    hide Ready, Shape, Act;
    if row.action == PowerCommand { CommandFollows(s, d, e, row, i); } else { OthersFollow(d, e, row.action, i); }
  }

  lemma DefaultRows(s: State, e: Event, row: Row)
    requires row in Rows(s, e) && e.DefaultStateChanged?
    ensures row.action == LastDitchDefault || row.action == DefaultChanged
  {
  }

  lemma StepFollows(m: Machine, x: Input)
    requires Sound(m) && Accepts(m, x) && m.data.automatic && Apply(m, x).data.automatic
    ensures m.data.fallback.Some?
    ensures Apply(m, x).data.fallback == Some(Heard(m, x, m.data.fallback.value))
  {
    hide QueueFits, CallSafe, Chosen, Rows, Act, Enter, Shape, Ready, StaleTimer;
    if x.Proceed? && m.queue != [] {
      var t := x.turn;
      var e := m.queue[0];
      if e.DefaultStateChanged? { DefaultUpdateIsTaken(m, t); }
      if Chosen(m, t).Some? {
        ChosenIsGranted(m, t);
        var row := Chosen(m, t).value;
        TableShape(m.state, e, row);
        HeadIsReady(m);
        if e.DefaultStateChanged? { DefaultRows(m.state, e, row); }
        var i := ActInput(t.actLive, m.default_, t.requestId, t.published, t.handedOn);
        EntryKeepsIntent(row.to, Act(row.action, m.data, e, i).data, e, m.visit + 1, m.dryRun, t.entryLive, t.issueInput);
        ActionFollows(m.state, m.data, e, row, i);
      }
    }
  }

  lemma {:induction false} FallbackFollows(m: Machine, xs: seq<Input>)
    requires Sound(m) && Legal(m, xs) && StaysAutomatic(m, xs)
    ensures m.data.fallback.Some?
    ensures After(m, xs).data.fallback == Some(LastDefault(m, xs, m.data.fallback.value))
    decreases |xs|
  {
    hide QueueFits, CallSafe, Apply, Accepts, Heard;
    if xs != [] {
      NextIsSound(m, xs[0]);
      StepFollows(m, xs[0]);
      FallbackFollows(Apply(m, xs[0]), xs[1..]);
    }
  }

  lemma BeginningReplaces(m: Machine, t: Turn)
    requires Sound(m) && Begins(m, t)
    ensures TakeTurn(m, t).data.fallback == Some(Replaced(m.data))
    ensures TakeTurn(m, t).data.automatic && TakeTurn(m, t).data.target == Hibernate
  {
    hide QueueFits, CallSafe, Chosen, Enter;
    var row := Chosen(m, t).value;
    var e := m.queue[0];
    var i := ActInput(t.actLive, m.default_, t.requestId, t.published, t.handedOn);
    EntryKeepsIntent(row.to, Act(row.action, m.data, e, i).data, e, m.visit + 1, m.dryRun, t.entryLive, t.issueInput);
  }

  lemma CallingOffRestores(m: Machine, u: Turn)
    requires Sound(m) && CallsOff(m, u)
    ensures var m' := TakeTurn(m, u);
      && m.data.fallback.Some? && m'.state == Running && m'.data.target == m.data.fallback.value
      && !m'.data.automatic && m'.data.fallback.None? && m'.data.wakeSeconds == 0 && !m'.data.armed
      && m'.queue == m.queue[1..] + [VehicleStateChanged(Or(u.actLive.vehicle, m.data.vehicle))] + u.arrivals
  {
    hide QueueFits, CallSafe, Chosen, Rows, StaleTimer, Held;
    ChosenIsGranted(m, u);
    TableShape(m.state, m.queue[0], Chosen(m, u).value);
  }

  /**
   Between the turn that begins last-ditch hibernation and the turn that calls it off,
   with provenance set throughout, whatever else happens: the cancellation passes
   through running and restores the last default-state update processed meanwhile, or
   the target that was replaced; the vehicle state is queued for normal evaluation.
   */
  lemma CancellationRestores(m: Machine, t: Turn, xs: seq<Input>, u: Turn)
    requires Sound(m) && Accepts(m, Proceed(t)) && Begins(m, t)
    requires Legal(TakeTurn(m, t), xs) && StaysAutomatic(TakeTurn(m, t), xs)
    requires CallsOff(After(TakeTurn(m, t), xs), u)
    ensures var before := After(TakeTurn(m, t), xs);
      var after := TakeTurn(before, u);
      && after.state == Running && !after.data.automatic && after.data.fallback.None?
      && after.data.target == LastDefault(TakeTurn(m, t), xs, Replaced(m.data))
      && after.queue == before.queue[1..] + [VehicleStateChanged(Or(u.actLive.vehicle, before.data.vehicle))] + u.arrivals
  {
    hide Sound, Accepts, Begins, CallsOff, TakeTurn, Replaced, Or;
    var m1 := TakeTurn(m, t);
    BeginningReplaces(m, t);
    NextIsSound(m, Proceed(t));
    assert Apply(m, Proceed(t)) == m1;
    FallbackFollows(m1, xs);
    RunIsSound(m1, xs);
    CallingOffRestores(After(m1, xs), u);
  }

  /**
   Where provenance outlives its target: a command ends it unless it is an explicit
   hibernation whose preconditions lapsed between its guard and its action. The target
   is then run, and a later trigger still falls back to what was replaced first.
   */
  lemma OnlyRefusalKeepsProvenance(d: Data, e: Event, i: ActInput)
    requires CommandOf(e).Some? && d.automatic
    ensures Act(PowerCommand, d, e, i).data.automatic <==>
      e.ExplicitHibernate? && ExplicitVehicle(e.target, i.live).None?
    ensures Act(PowerCommand, d, e, i).data.automatic ==> Act(PowerCommand, d, e, i).data.target == Run
  {
    hide ExplicitVehicle, Retargeted;
    RetargetFits(d, CommandOf(e).value, i);
  }
}
