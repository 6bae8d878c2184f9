/**
 Whole runs of the power manager: any interleaving of turns, of events queued by
 handlers and timers, and of changes to the default target; the invariant `Sound` of
 every reachable machine; and what the rows, actions and entry actions keep of it.
 */
module PowerInvariant {
  import opened Options
  import opened PowerTypes
  import opened Inhibitors
  import opened PowerPolicy
  import opened PowerTable
  import opened PowerMachine

  // ----- Runs -----

  datatype Input =
    | Queue(event: Event)
    | SetDefault(target: Target)
    | Proceed(turn: Turn)

  /** The visit to issuing-low-power that sent an event, for wakes and late blocks. */
  function Tag(e: Event): Option<nat> {
    match e
    case Wakeup(v) => Some(v)
    case WakeupRtc(v) => Some(v)
    case LateBlockingInhibitor(v) => Some(v)
    case _ => None
  }

  /** What may arrive from outside: well-formed events that the machine does not send itself, and timers of visits so far. */
  predicate Arrives(e: Event, visit: nat) {
    WellFormed(e) && Tag(e).None? && (TimerVisit(e).Some? ==> TimerVisit(e).value <= visit)
  }

  predicate Accepts(m: Machine, x: Input) {
    match x
    case Queue(e) => Arrives(e, m.visit)
    case SetDefault(t) => IsValidDefault(t)
    case Proceed(t) => forall a | a in t.arrivals :: Arrives(a, m.visit + 1)
  }

  function Apply(m: Machine, x: Input): Machine {
    match x
    case Queue(e) => m.(queue := m.queue + [e])
    case SetDefault(t) => m.(default_ := t)
    case Proceed(t) => TakeTurn(m, t)
  }

  predicate Legal(m: Machine, xs: seq<Input>)
    decreases |xs|
  {
    xs == [] || (Accepts(m, xs[0]) && Legal(Apply(m, xs[0]), xs[1..]))
  }

  function After(m: Machine, xs: seq<Input>): Machine
    decreases |xs|
  {
    if xs == [] then m else After(Apply(m, xs[0]), xs[1..])
  }

  lemma {:induction false} Joined(m: Machine, xs: seq<Input>, ys: seq<Input>)
    requires Legal(m, xs) && Legal(After(m, xs), ys)
    ensures Legal(m, xs + ys) && After(m, xs + ys) == After(After(m, xs), ys)
    decreases |xs|
  {
    hide Apply, Accepts;
    if xs == [] {
      assert xs + ys == ys;
    } else {
      Joined(Apply(m, xs[0]), xs[1..], ys);
      assert (xs + ys)[1..] == xs[1..] + ys;
    }
  }

  lemma One(m: Machine, x: Input)
    requires Accepts(m, x)
    ensures Legal(m, [x]) && After(m, [x]) == Apply(m, x)
  {
    hide Apply, Accepts;
    assert After(Apply(m, x), [x][1..]) == Apply(m, x);
  }

  /** One more input at the end of a run. */
  lemma Then(m: Machine, xs: seq<Input>, x: Input)
    requires Legal(m, xs) && Accepts(After(m, xs), x)
    ensures Legal(m, xs + [x]) && After(m, xs + [x]) == Apply(After(m, xs), x)
  {
    hide Legal, After, Apply, Accepts;
    One(After(m, xs), x);
    Joined(m, xs, [x]);
  }

  predicate Initial(m: Machine) {
    && m.state == Running && m.issue == NotIssuing && m.queue == [] && m.calls == []
    && IsValidDefault(m.default_) && m.data.target == m.default_
    && !m.data.automatic && m.data.fallback.None? && m.data.request.None?
    && m.data.wakeSeconds == 0 && !m.data.armed
  }

  // ----- The invariant -----

  predicate LowPower(s: State) {
    s == LowPowerImminent || s == WaitingInhibitors || s == IssuingLowPower
  }

  /** Which targets a state can hold, and where automatic provenance can be set. */
  predicate Provenance(s: State, d: Data) {
    && s != Suspended
    && (s == PreSuspend || s == SuspendImminent ==> d.target == Suspend)
    && (d.automatic ==> (d.target == Hibernate && LowPower(s)) || (d.target == Run && s == Running))
    && (d.fallback.Some? <==> d.automatic)
    && d.fallback != Some(HibernateFor)
  }

  /** A latched acknowledgement echoed exactly the duration now requested. */
  predicate Latched(d: Data) {
    d.armed ==> d.wakeSeconds >= 1 && d.acked == d.wakeSeconds
  }

  predicate Timed(d: Data) {
    d.target == HibernateFor ==> d.wakeSeconds >= 1
  }

  predicate IsWake(e: Event) {
    e.Wakeup? || e.WakeupRtc?
  }

  /** What a visit that awaits `e` knows. */
  predicate AwaitFits(d: Data, visit: nat, e: Event) {
    match e
    case PowerRun => true
    case SuspendCancelled => d.target == Suspend && !d.automatic
    case LastDitchDisabled => d.automatic
    case LateBlockingInhibitor(v) => v == visit
    case Wakeup(v) => v == visit && d.target == Suspend && !d.automatic
    case WakeupRtc(v) => v == visit && d.target == Suspend && !d.automatic
    case _ => false
  }

  predicate IssueFits(s: State, d: Data, visit: nat, issue: Issue) {
    && (s != IssuingLowPower ==> issue == NotIssuing)
    && (Timed(d) || issue == Awaiting(PowerRun))
    && (issue.Awaiting? ==> AwaitFits(d, visit, issue.event))
    && (issue == Refused ==> d.target != Suspend && d.target != Run)
    && (issue == Unsupported ==> d.target == Run)
  }

  /** A queued wake or late block belongs to the current visit or is dropped before it can act. */
  predicate TagFits(m: Machine, i: nat)
    requires i < |m.queue| && Tag(m.queue[i]).Some?
  {
    var e := m.queue[i];
    var v := Tag(e).value;
    && v <= m.visit
    && (v == m.visit ==> m.state == IssuingLowPower && m.issue == Awaiting(e))
    && !(m.state == WaitingInhibitors && (IsWake(e) || !m.data.automatic))
    && (m.state == IssuingLowPower && (IsWake(e) || !m.data.automatic) ==> m.issue == Awaiting(e))
    && (forall j | 0 <= j < i && m.queue[j].SuspendImminentTimeout? :: m.queue[j].visit <= v)
  }

  ghost predicate QueueFits(m: Machine) {
    && (forall e | e in m.queue :: WellFormed(e))
    && (forall e | e in m.queue && TimerVisit(e).Some? :: TimerVisit(e).value <= m.visit)
    && (forall i | 0 <= i < |m.queue| && Tag(m.queue[i]).Some? :: TagFits(m, i))
    && (forall i, j | 0 <= i < j < |m.queue| && Tag(m.queue[i]).Some? :: m.queue[i] != m.queue[j])
  }

  /** No pack, no remote access in use, and the vehicle in stand-by, on one reading. */
  predicate SuspendEligible(d: Data, live: Live) {
    && StandByNow(d, live) && d.vehicle == StandBy
    && !BatteryPresent(live) && !BatteryActive(d, live) && !RemoteAccessBlocks(live)
  }

  /** What every command handed to logind rests on. */
  predicate CallSafe(c: Call) {
    && c.data.target != Run
    && !HasBlocking(c.gate.inhibitors, c.data.target)
    && (c.data.target == Suspend ==>
          && !c.data.automatic && StandByNow(c.data, c.afterQuiesce)
          && SuspendEligible(c.data, c.eligibility) && c.admission.Some?)
    && (c.data.target == HibernateFor ==>
          c.data.wakeSeconds >= 1 && c.data.armed && c.data.acked == c.data.wakeSeconds)
    && (c.data.automatic ==>
          c.data.target == Hibernate && c.last.reserves.enabled && LastDitchHolds(c.last))
  }

  ghost predicate Sound(m: Machine) {
    && Provenance(m.state, m.data) && Latched(m.data) && IsValidDefault(m.default_)
    && IssueFits(m.state, m.data, m.visit, m.issue)
    && (m.issue.Awaiting? ==> m.issue.event in m.queue)
    && QueueFits(m)
    && (forall c | c in m.calls :: CallSafe(c))
  }

  // ----- The row a turn takes -----

  ghost predicate Held(g: Guard, d: Data, e: Event) {
    exists live :: Passes(g, d, e, live)
  }

  ghost predicate Granted(row: Row, d: Data, e: Event) {
    forall g | g in row.guards :: Held(g, d, e)
  }

  lemma ChosenIsGranted(m: Machine, t: Turn)
    requires m.queue != [] && Chosen(m, t).Some?
    ensures !StaleTimer(m, m.queue[0])
    ensures Chosen(m, t).value in Rows(m.state, m.queue[0])
    ensures Granted(Chosen(m, t).value, m.data, m.queue[0])
  {
    hide Rows, Passes;
    var e := m.queue[0];
    var rows := Rows(m.state, e);
    var c := Choose(rows, 0, m.data, e, t.read);
    var row := rows[c.value];
    forall g | g in row.guards ensures Held(g, m.data, e) {
      var j :| 0 <= j < |row.guards| && row.guards[j] == g;
      assert Passes(g, m.data, e, t.read(c.value, j));
    }
  }

  /** What the guards say that does not depend on a reading. */
  lemma GuardFacts(d: Data, e: Event)
    ensures Held(TargetSuspend, d, e) ==> TargetOf(d, e) == Suspend
    ensures Held(TargetHibernate, d, e) ==> IsHibernatePath(TargetOf(d, e))
    ensures Held(Automatic, d, e) ==> d.automatic
    ensures Held(LastDitchApplicable, d, e) ==> d.target == Run || d.target == Suspend
    ensures Held(NotInStandby, d, e) ==> VehicleOf(d, e) != StandBy
    ensures Held(HigherPriority, d, e) ==> MayReplace(TargetOf(d, e), d.target)
    ensures Held(ShouldCancel, d, e) ==> d.automatic || d.target == Suspend
  {
    hide MayEnter, LastDitchHolds, StandByNow, HasBlocking, HasOnlyModem, ExplicitVehicle, MayReplace, TargetOf, VehicleOf;
  }

  lemma CanEnterFacts(d: Data, e: Event)
    ensures Held(CanEnter, d, e) ==>
      && TargetOf(d, e) != Run
      && (VehicleOf(d, e) == StandBy || (TargetOf(d, e) == Reboot && VehicleOf(d, e) == ShuttingDown))
  {
    hide TargetOf, VehicleOf, BatteryPresent, BatteryActive, RemoteAccessBlocks;
    hide HasBlocking, HasOnlyModem, ExplicitVehicle, LastDitchHolds;
  }

  // ----- The shape of the table -----

  /** Where a row leads and what guards it, by its action. */
  predicate Shape(s: State, e: Event, row: Row) {
    match row.action
    case PowerCommand =>
      && CommandOf(e).Some? && !e.DefaultStateChanged?
      && (row.to == Running
          || (!e.ExplicitHibernate? && [HigherPriority, CanEnter] == row.guards
              && (row.to == LowPowerImminent || (row.to == SuspendImminent && e.PowerSuspend?))))
    case VehicleChanged =>
      && s == Running && e.VehicleStateChanged?
      && (row.to == Running
          || (row.to == PreSuspend && [CanEnter, TargetSuspend] == row.guards)
          || (row.to == LowPowerImminent && [CanEnter, TargetHibernate] == row.guards))
    case VehicleLeft => row.to == Running && [NotInStandby] == row.guards
    case BatteryChanged =>
      && (e.BatteryBecameActive? || e.BatteryBecameInactive?)
      && ((row.to == Running && (s == Running || s == PreSuspend || s == SuspendImminent || [TargetSuspend] == row.guards))
          || (row.to == PreSuspend && s == Running && [CanEnter, TargetSuspend] == row.guards))
    case Woke =>
      && s == IssuingLowPower && IsWake(e)
      && (row.to == Running || row.to == LowPowerImminent
          || ((row.to == PreSuspend || row.to == SuspendImminent) && [CanEnter, TargetSuspend] == row.guards))
    case LastDitchBegins =>
      row.to == LowPowerImminent && e.LastDitchCheck? && LastDitchApplicable in row.guards && LastDitchTriggered in row.guards
    case LastDitchWake =>
      row.to == LowPowerImminent && IsWake(e) && LastDitchApplicable in row.guards && LastDitchTriggered in row.guards
    case LastDitchCancelled => row.to == Running && [Automatic] == row.guards
    case LastDitchDefault => row.to == s && LowPower(s) && e.DefaultStateChanged? && [Automatic] == row.guards
    case DefaultChanged => row.to == s == Running && e.DefaultStateChanged?
    case PreparationFailed => row.to == s == Running
    case LowPowerCancelled =>
      row.to == Running && ([ShouldCancel] == row.guards || ([TargetSuspend] == row.guards && e.SuspendCancelled?))
    case DisableModem => row.to == s == WaitingInhibitors
    case NoAction =>
      || (s == PreSuspend && row.to == SuspendImminent)
      || ((s == SuspendImminent || s == LowPowerImminent) && row.to == WaitingInhibitors && e.SuspendImminentTimeout?)
      || (s == IssuingLowPower && row.to == WaitingInhibitors && e.LateBlockingInhibitor?)
      || (s == WaitingInhibitors && row.to == IssuingLowPower && (e.InhibitorsChanged? || e.InhibitorWaitTimeout?))
  }

  lemma RunningShape(e: Event, row: Row)
    requires row in FromRunning(e)
    ensures Shape(Running, e, row)
  {
  }

  lemma PreSuspendShape(e: Event, row: Row)
    requires row in FromPreSuspend(e)
    ensures Shape(PreSuspend, e, row)
  {
  }

  lemma SuspendImminentShape(e: Event, row: Row)
    requires row in FromSuspendImminent(e)
    ensures Shape(SuspendImminent, e, row)
  {
  }

  lemma LowPowerImminentShape(e: Event, row: Row)
    requires row in FromLowPowerImminent(e)
    ensures Shape(LowPowerImminent, e, row)
  {
  }

  lemma WaitingInhibitorsShape(e: Event, row: Row)
    requires row in FromWaitingInhibitors(e)
    ensures Shape(WaitingInhibitors, e, row)
  {
  }

  lemma IssuingLowPowerShape(e: Event, row: Row)
    requires row in FromIssuingLowPower(e)
    ensures Shape(IssuingLowPower, e, row)
  {
  }

  lemma TableShape(s: State, e: Event, row: Row)
    requires row in Rows(s, e)
    ensures Shape(s, e, row)
  {
    hide FromRunning, FromPreSuspend, FromSuspendImminent, FromLowPowerImminent, FromWaitingInhibitors, FromIssuingLowPower;
    if row != CANCEL {
      match s
      case Running => RunningShape(e, row);
      case PreSuspend => PreSuspendShape(e, row);
      case SuspendImminent => SuspendImminentShape(e, row);
      case LowPowerImminent => LowPowerImminentShape(e, row);
      case WaitingInhibitors => WaitingInhibitorsShape(e, row);
      case IssuingLowPower => IssuingLowPowerShape(e, row);
      case Suspended =>
    }
  }

  // ----- Actions keep the invariant -----

  /** What the event at hand tells about the machine that takes it. */
  predicate Ready(s: State, d: Data, e: Event) {
    && Provenance(s, d) && Latched(d) && WellFormed(e)
    && (s != IssuingLowPower || e.LateBlockingInhibitor? ==> Timed(d))
    && (s == IssuingLowPower && IsWake(e) ==> d.target == Suspend && !d.automatic)
  }

  predicate Untagged(sends: seq<Event>) {
    |sends| <= 1 && forall e | e in sends :: Arrives(e, 0) && !e.DefaultStateChanged?
  }

  predicate Fits(s: State, a: Acted) {
    Provenance(s, a.data) && Latched(a.data) && Timed(a.data) && Untagged(a.sends)
  }

  lemma RetargetFits(d: Data, c: Command, i: ActInput)
    ensures var d' := Retargeted(d, c, i);
      && d'.target == c.target && !d'.automatic && d'.fallback.None? && !d'.armed && d'.request.None?
      && d'.wakeSeconds == if c.target == HibernateFor then c.seconds else 0
  {
  }

  /** What a command action leaves, whatever the environment answers. */
  lemma CommandFits(d: Data, e: Event, i: ActInput, a: Acted)
    requires CommandOf(e).Some? && WellFormed(e) && (d.fallback.Some? <==> d.automatic)
    requires a == OnPowerCommand(d, CommandOf(e).value, i)
    ensures Timed(a.data) && Latched(a.data) && Untagged(a.sends)
    ensures !a.data.automatic || (d.automatic && e.ExplicitHibernate? && a.data.target == Run)
    ensures a.data.fallback == if a.data.automatic then d.fallback else None
    ensures !e.ExplicitHibernate? ==> a.data.target == CommandOf(e).value.target && !a.data.automatic
  {
    hide HasBlocking, HasOnlyModem, ExplicitVehicle, Retargeted;
    RetargetFits(d, CommandOf(e).value, i);
  }

  /** A vehicle report keeps the target, or resets it on leaving stand-by or on riding off. */
  lemma ReportFits(d: Data, v: Vehicle, i: ActInput, d': Data)
    requires Provenance(Running, d) && Latched(d) && Timed(d) && IsValidDefault(i.default_)
    requires d' == OnVehicleStateChanged(d, v, i)
    ensures Timed(d') && Latched(d') && d'.vehicle == v
    ensures (d'.automatic ==> d.automatic && d'.target == Run) && d'.fallback == if d'.automatic then d.fallback else None
    ensures v == StandBy ==> d'.target == d.target
  {
    hide ShutdownInterrupted, EnableModem;
    if ShutdownInterrupted(d, v) { assert v != StandBy by { InterruptedElsewhere(d, v); } }
    ModemOnly(ClearAutomatic(ClearRequest(d).(target := i.default_, vehicle := v)), i.live);
    ModemOnly(ClearAutomatic(d.(vehicle := v, target := i.default_)), i.live);
  }

  lemma InterruptedElsewhere(d: Data, v: Vehicle)
    requires ShutdownInterrupted(d, v)
    ensures v != StandBy
  {
  }

  lemma ModemOnly(d: Data, live: Live)
    ensures EnableModem(d, live) == d.(modemDisabled := EnableModem(d, live).modemDisabled)
  {
  }

  lemma VehicleFits(s: State, d: Data, e: Event, row: Row, i: ActInput)
    requires Ready(s, d, e) && Shape(s, e, row) && Granted(row, d, e) && IsValidDefault(i.default_)
    requires row.action == VehicleChanged
    ensures Fits(row.to, Act(row.action, d, e, i))
  {
    hide Passes, Held, OnVehicleStateChanged;
    ReportFits(d, e.vehicle, i, OnVehicleStateChanged(d, e.vehicle, i));
    GuardFacts(d, e);
    CanEnterFacts(d, e);
  }

  lemma LeavingFits(s: State, d: Data, e: Event, row: Row, i: ActInput)
    requires Ready(s, d, e) && Shape(s, e, row) && IsValidDefault(i.default_)
    requires row.action == VehicleLeft
    ensures Fits(row.to, Act(row.action, d, e, i))
  {
    hide Passes, Held;
  }

  lemma LastDitchFits(s: State, d: Data, e: Event, row: Row, i: ActInput)
    requires Ready(s, d, e) && Shape(s, e, row) && Granted(row, d, e) && IsValidDefault(i.default_)
    requires row.action in {LastDitchBegins, LastDitchWake, LastDitchCancelled, LastDitchDefault, LowPowerCancelled}
    ensures Fits(row.to, Act(row.action, d, e, i))
  {
    hide Passes, Held;
    GuardFacts(d, e);
  }

  lemma BatteryKeepsIntent(d: Data, slot: Slot, active: bool, i: ActInput)
    ensures var d' := OnBattery(d, slot, active, i);
      d' == d.(active0 := d'.active0, active1 := d'.active1, modemDisabled := d'.modemDisabled)
  {
  }

  lemma BatteryFits(s: State, d: Data, e: Event, row: Row, i: ActInput)
    requires Ready(s, d, e) && Shape(s, e, row) && Granted(row, d, e)
    requires row.action == BatteryChanged
    ensures Fits(row.to, Act(row.action, d, e, i))
  {
    hide Passes, Held, OnBattery;
    GuardFacts(d, e);
    BatteryKeepsIntent(d, e.slot, e.BatteryBecameActive?, i);
  }

  lemma OtherFits(s: State, d: Data, e: Event, row: Row, i: ActInput)
    requires Ready(s, d, e) && Shape(s, e, row) && Granted(row, d, e) && IsValidDefault(i.default_)
    requires row.action in {Woke, DefaultChanged, PreparationFailed, DisableModem, NoAction}
    ensures Fits(row.to, Act(row.action, d, e, i))
  {
    hide Passes, Held;
    GuardFacts(d, e);
  }

  lemma CommandRowFits(s: State, d: Data, e: Event, row: Row, i: ActInput)
    requires Ready(s, d, e) && Shape(s, e, row)
    requires row.action == PowerCommand
    ensures Fits(row.to, Act(row.action, d, e, i))
  {
    hide OnPowerCommand;
    CommandFits(d, e, i, OnPowerCommand(d, CommandOf(e).value, i));
  }

  lemma ActionFits(s: State, d: Data, e: Event, row: Row, i: ActInput)
    requires Ready(s, d, e) && Shape(s, e, row) && Granted(row, d, e) && IsValidDefault(i.default_)
    ensures Fits(row.to, Act(row.action, d, e, i))
  {
    hide Ready, Shape, Granted, Fits, Act;
    match row.action
    case PowerCommand => CommandRowFits(s, d, e, row, i);
    case VehicleChanged => VehicleFits(s, d, e, row, i);
    case VehicleLeft => LeavingFits(s, d, e, row, i);
    case LastDitchBegins => LastDitchFits(s, d, e, row, i);
    case LastDitchWake => LastDitchFits(s, d, e, row, i);
    case LastDitchCancelled => LastDitchFits(s, d, e, row, i);
    case LastDitchDefault => LastDitchFits(s, d, e, row, i);
    case LowPowerCancelled => LastDitchFits(s, d, e, row, i);
    case BatteryChanged => BatteryFits(s, d, e, row, i);
    case _ => OtherFits(s, d, e, row, i);
  }

  // ----- Entries keep the invariant -----

  /** What is known on entering a state, before its entry action. */
  predicate Arrived(s: State, d: Data, e: Event) {
    && Provenance(s, d) && Latched(d) && Timed(d)
    && (s == IssuingLowPower && !d.automatic ==> CommandOf(e).None? && !e.VehicleStateChanged?)
  }

  predicate Settled(s: State, visit: nat, n: Entered) {
    && Provenance(s, n.data) && Latched(n.data) && IssueFits(s, n.data, visit, n.issue)
    && |n.sends| <= 1
    && (n.issue.Awaiting? ==> n.sends == [n.issue.event])
    && (!n.issue.Awaiting? ==> Untagged(n.sends))
    && forall c | c in n.calls :: CallSafe(c)
  }

  /** Not cancelling means eligible: for a suspend, nothing in the event stands in for the data. */
  lemma NotCancelled(d: Data, e: Event, live: Live)
    requires !CancelsLowPower(d, e, live)
    ensures d.automatic ==> live.reserves.enabled && LastDitchHolds(live)
    ensures !d.automatic && d.target == Suspend && CommandOf(e).None? && !e.VehicleStateChanged? ==> SuspendEligible(d, live)
  {
    hide LastDitchHolds, BatteryPresent, BatteryActive, RemoteAccessBlocks;
  }

  lemma SleepFits(d: Data, e: Event, visit: nat, i: IssueInput)
    requires Arrived(IssuingLowPower, d, e) && d.target == Suspend && !HasBlocking(i.gate.inhibitors, Suspend)
    requires StandByNow(d, i.afterQuiesce) && SuspendEligible(d, i.eligibility) && i.admission.Some?
    ensures Settled(IssuingLowPower, visit, SuspendNow(d, visit, i))
  {
    hide HasBlocking, LastDitchHolds, StandByNow, SuspendEligible;
  }

  lemma SuspendFits(d: Data, e: Event, visit: nat, i: IssueInput)
    requires Arrived(IssuingLowPower, d, e) && d.target == Suspend && !HasBlocking(i.gate.inhibitors, Suspend)
    ensures Settled(IssuingLowPower, visit, IssueSuspend(d, e, visit, i))
  {
    hide HasBlocking, LastDitchHolds, StandByNow, SuspendEligible, SuspendNow, CancelsLowPower;
    if StandByNow(d, i.afterQuiesce) && !CancelsLowPower(d, e, i.eligibility) && i.admission.Some? {
      NotCancelled(d, e, i.eligibility);
      SleepFits(d, e, visit, i);
    }
  }

  lemma PowerOffFits(d: Data, e: Event, visit: nat, i: IssueInput)
    requires Arrived(IssuingLowPower, d, e) && d.target != Suspend && d.target != Run
    requires !HasBlocking(i.gate.inhibitors, d.target)
    requires d.target == HibernateFor ==> d.armed
    ensures Settled(IssuingLowPower, visit, IssuePowerOff(d, e, i))
  {
    hide HasBlocking, LastDitchHolds, StandByNow, SuspendEligible, MayEnter;
    if !CancelsLowPower(d, e, i.last) { NotCancelled(d, e, i.last); }
  }

  lemma IssuingFits(d: Data, e: Event, visit: nat, dryRun: bool, i: IssueInput)
    requires Arrived(IssuingLowPower, d, e)
    requires d.target == HibernateFor ==> d.armed
    ensures Settled(IssuingLowPower, visit, Issuing(d, e, visit, dryRun, i))
  {
    hide HasBlocking, LastDitchHolds, StandByNow, SuspendEligible, MayEnter, IssueSuspend, IssuePowerOff;
    if !dryRun && d.target != Run && !HasBlocking(i.gate.inhibitors, d.target) {
      if d.target == Suspend { SuspendFits(d, e, visit, i); } else { PowerOffFits(d, e, visit, i); }
    }
  }

  lemma IssuingEntryFits(d: Data, e: Event, visit: nat, dryRun: bool, i: IssueInput)
    requires Arrived(IssuingLowPower, d, e)
    ensures Settled(IssuingLowPower, visit, EnterIssuingLowPower(d, e, visit, dryRun, i))
  {
    hide LastDitchHolds, StandByNow, SuspendEligible, MayEnter, Issuing, WakeTimerConfirmed;
    if !CancelsLowPower(d, e, i.first) {
      if d.target == HibernateFor && d.wakeSeconds > 0 && !d.armed {
        if WakeTimerConfirmed(i.acks, d.wakeSeconds) {
          IssuingFits(d.(armed := true, acked := d.wakeSeconds), e, visit, dryRun, i);
        }
      } else {
        IssuingFits(d, e, visit, dryRun, i);
      }
    }
  }

  lemma WaitingEntryFits(d: Data, e: Event, visit: nat, live: Live)
    requires Arrived(WaitingInhibitors, d, e)
    ensures Settled(WaitingInhibitors, visit, EnterWaitingInhibitors(d, e, live))
  {
    hide CancelsLowPower, CallSafe, HasBlocking, HasOnlyModem;
  }

  lemma EntryFits(s: State, d: Data, e: Event, visit: nat, dryRun: bool, live: Live, i: IssueInput)
    requires Arrived(s, d, e)
    ensures Settled(s, visit, Enter(s, d, e, visit, dryRun, live, i))
  {
    hide CallSafe, CancelsLowPower, EnterWaitingInhibitors, EnterIssuingLowPower;
    if s == IssuingLowPower { IssuingEntryFits(d, e, visit, dryRun, i); }
    if s == WaitingInhibitors { WaitingEntryFits(d, e, visit, live); }
  }

  predicate SameIntent(d: Data, d': Data) {
    && d'.target == d.target && d'.automatic == d.automatic && d'.fallback == d.fallback
    && ((d'.request == d.request && d'.wakeSeconds == d.wakeSeconds) || d'.request.None?)
    && d'.vehicle == d.vehicle
  }

  lemma SleepKeepsIntent(d: Data, visit: nat, i: IssueInput)
    ensures SameIntent(d, SuspendNow(d, visit, i).data)
  {
  }

  lemma SuspendKeepsIntent(d: Data, e: Event, visit: nat, i: IssueInput)
    ensures SameIntent(d, IssueSuspend(d, e, visit, i).data)
  {
    hide StandByNow, CancelsLowPower, SuspendNow;
    SleepKeepsIntent(d, visit, i);
  }

  lemma IssuingKeepsIntent(d: Data, e: Event, visit: nat, dryRun: bool, i: IssueInput)
    ensures SameIntent(d, Issuing(d, e, visit, dryRun, i).data)
  {
    hide StandByNow, CancelsLowPower, HasBlocking, IssueSuspend;
    SuspendKeepsIntent(d, e, visit, i);
  }

  lemma IssuingEntryKeepsIntent(d: Data, e: Event, visit: nat, dryRun: bool, i: IssueInput)
    ensures SameIntent(d, EnterIssuingLowPower(d, e, visit, dryRun, i).data)
  {
    hide CancelsLowPower, WakeTimerConfirmed, Issuing;
    IssuingKeepsIntent(d, e, visit, dryRun, i);
    IssuingKeepsIntent(d.(armed := true, acked := d.wakeSeconds), e, visit, dryRun, i);
  }

  /** Entry actions never change the target or its provenance, and can only end a request. */
  lemma EntryKeepsIntent(s: State, d: Data, e: Event, visit: nat, dryRun: bool, live: Live, i: IssueInput)
    ensures SameIntent(d, Enter(s, d, e, visit, dryRun, live, i).data)
  {
    hide CancelsLowPower, HasBlocking, HasOnlyModem, EnterIssuingLowPower;
    IssuingEntryKeepsIntent(d, e, visit, dryRun, i);
  }
}
