/** The ordered transition table: for each state and event, its rows in declaration order. */
module PowerTable {
  import opened Options
  import opened PowerTypes
  import opened PowerPolicy

  datatype Action =
    | NoAction | PowerCommand | VehicleChanged | VehicleLeft | BatteryChanged | Woke
    | LastDitchBegins | LastDitchWake | LastDitchCancelled | LastDitchDefault
    | DefaultChanged | PreparationFailed | LowPowerCancelled | DisableModem

  datatype Row = Row(to: State, guards: seq<Guard>, action: Action)

  const CANCEL := Row(Running, [ShouldCancel], LowPowerCancelled)

  /** Events on which a pending transition is first re-examined. */
  predicate Rechecks(s: State, e: Event) {
    && s in {PreSuspend, SuspendImminent, LowPowerImminent, WaitingInhibitors, IssuingLowPower}
    && (e.PowerEligibilityChanged? || e.PreSuspendTimeout? || e.SuspendImminentTimeout?
        || e.InhibitorsChanged? || e.InhibitorWaitTimeout?)
  }

  const UPGRADE := Row(LowPowerImminent, [HigherPriority, CanEnter], PowerCommand)
  const STORE := Row(Running, [HigherPriority], PowerCommand)
  const TAKE_OVER := Row(Running, [HigherPriority, CanAcceptExplicit], PowerCommand)
  const GIVE_UP := Row(Running, [], PowerCommand)
  const LEFT_STANDBY := Row(Running, [NotInStandby], VehicleLeft)
  const DITCH := Row(LowPowerImminent, [LastDitchTriggered, LastDitchApplicable, HigherPriority, CanEnter], LastDitchBegins)
  const DITCH_OVER := Row(Running, [Automatic], LastDitchCancelled)
  const DITCH_WAKE := Row(LowPowerImminent, [LastDitchTriggered, LastDitchApplicable, CanEnter], LastDitchWake)

  function FromRunning(e: Event): seq<Row> {
    match e
    case PowerSuspend => [Row(SuspendImminent, [HigherPriority, CanEnter], PowerCommand), STORE]
    case PowerHibernate => [UPGRADE, STORE]
    case PowerHibernateManual => [UPGRADE, STORE]
    case PowerHibernateFor(_) => [UPGRADE, STORE]
    case PowerHibernateTimer => [UPGRADE, STORE]
    case PowerReboot => [UPGRADE, STORE]
    case HibernationTimerExpired => [UPGRADE, STORE]
    case PowerRun => [GIVE_UP]
    case HibernatePreparationFailed(_) => [Row(Running, [], PreparationFailed)]
    case DefaultStateChanged(_) => [Row(Running, [], DefaultChanged)]
    case LastDitchCheck => [DITCH]
    case VehicleStateChanged(_) =>
      [Row(PreSuspend, [CanEnter, TargetSuspend], VehicleChanged),
       Row(LowPowerImminent, [CanEnter, TargetHibernate], VehicleChanged),
       Row(Running, [], VehicleChanged)]
    case BatteryBecameInactive(_) =>
      [Row(PreSuspend, [CanEnter, TargetSuspend], BatteryChanged), Row(Running, [], BatteryChanged)]
    case ExplicitHibernate(_, _) => [TAKE_OVER]
    case _ => []
  }

  function FromPreSuspend(e: Event): seq<Row> {
    match e
    case PreSuspendTimeout(_) => [Row(SuspendImminent, [CanEnter], NoAction)]
    case PowerRun => [GIVE_UP]
    case VehicleStateChanged(_) => [LEFT_STANDBY]
    case BatteryBecameActive(_) => [Row(Running, [], BatteryChanged)]
    case PowerHibernate => [UPGRADE]
    case PowerHibernateManual => [UPGRADE]
    case PowerHibernateFor(_) => [UPGRADE]
    case PowerHibernateTimer => [UPGRADE]
    case PowerReboot => [UPGRADE]
    case HibernationTimerExpired => [UPGRADE]
    case LastDitchCheck => [DITCH]
    case ExplicitHibernate(_, _) => [TAKE_OVER]
    case _ => []
  }

  function FromSuspendImminent(e: Event): seq<Row> {
    match e
    case SuspendImminentTimeout(_) => [Row(WaitingInhibitors, [], NoAction)]
    case PowerRun => [GIVE_UP]
    case VehicleStateChanged(_) => [LEFT_STANDBY]
    case BatteryBecameActive(_) => [Row(Running, [], BatteryChanged)]
    case PowerHibernate => [UPGRADE]
    case PowerHibernateManual => [UPGRADE]
    case PowerHibernateFor(_) => [UPGRADE]
    case PowerHibernateTimer => [UPGRADE]
    case PowerReboot => [UPGRADE]
    case HibernationTimerExpired => [UPGRADE]
    case LastDitchCheck => [DITCH]
    case ExplicitHibernate(_, _) => [TAKE_OVER]
    case _ => []
  }

  function FromLowPowerImminent(e: Event): seq<Row> {
    match e
    case SuspendImminentTimeout(_) => [Row(WaitingInhibitors, [], NoAction)]
    case DefaultStateChanged(_) => [Row(LowPowerImminent, [Automatic], LastDitchDefault)]
    case LastDitchDisabled => [DITCH_OVER]
    case PowerRun => [GIVE_UP]
    case VehicleStateChanged(_) => [LEFT_STANDBY]
    case PowerHibernate => [UPGRADE]
    case PowerHibernateManual => [UPGRADE]
    case PowerHibernateFor(_) => [UPGRADE]
    case ExplicitHibernate(_, _) => [TAKE_OVER]
    case _ => []
  }

  function FromWaitingInhibitors(e: Event): seq<Row> {
    match e
    case SuspendCancelled => [Row(Running, [TargetSuspend], LowPowerCancelled)]
    case InhibitorsChanged =>
      [Row(IssuingLowPower, [NoBlocking], NoAction), Row(WaitingInhibitors, [OnlyModem], DisableModem)]
    case InhibitorWaitTimeout(_) => [Row(IssuingLowPower, [PastModemWait], NoAction)]
    case DefaultStateChanged(_) => [Row(WaitingInhibitors, [Automatic], LastDitchDefault)]
    case LastDitchDisabled => [DITCH_OVER]
    case PowerRun => [GIVE_UP]
    case VehicleStateChanged(_) => [LEFT_STANDBY]
    case BatteryBecameActive(_) => [Row(Running, [TargetSuspend], BatteryChanged)]
    case PowerHibernate => [UPGRADE]
    case PowerHibernateManual => [UPGRADE]
    case PowerHibernateFor(_) => [UPGRADE]
    case PowerHibernateTimer => [UPGRADE]
    case PowerReboot => [UPGRADE]
    case HibernationTimerExpired => [UPGRADE]
    case ExplicitHibernate(_, _) => [TAKE_OVER]
    case _ => []
  }

  function FromIssuingLowPower(e: Event): seq<Row> {
    match e
    case SuspendCancelled => [Row(Running, [TargetSuspend], LowPowerCancelled)]
    case LateBlockingInhibitor(_) => [Row(WaitingInhibitors, [], NoAction)]
    case PowerHibernate => [UPGRADE, STORE]
    case PowerHibernateManual => [UPGRADE, STORE]
    case PowerHibernateFor(_) => [UPGRADE, STORE]
    case DefaultStateChanged(_) => [Row(IssuingLowPower, [Automatic], LastDitchDefault)]
    case LastDitchDisabled => [DITCH_OVER]
    case PowerRun => [GIVE_UP]
    case Wakeup(_) =>
      [DITCH_WAKE, Row(PreSuspend, [CanEnter, TargetSuspend], Woke),
       Row(LowPowerImminent, [CanEnter, TargetHibernate], Woke), Row(Running, [], Woke)]
    case WakeupRtc(_) =>
      [DITCH_WAKE, Row(SuspendImminent, [CanEnter, TargetSuspend], Woke),
       Row(LowPowerImminent, [CanEnter, TargetHibernate], Woke), Row(Running, [], Woke)]
    case _ => []
  }

  function Rows(s: State, e: Event): seq<Row> {
    (if Rechecks(s, e) then [CANCEL] else []) +
    match s
    case Running => FromRunning(e)
    case PreSuspend => FromPreSuspend(e)
    case SuspendImminent => FromSuspendImminent(e)
    case LowPowerImminent => FromLowPowerImminent(e)
    case WaitingInhibitors => FromWaitingInhibitors(e)
    case IssuingLowPower => FromIssuingLowPower(e)
    case Suspended => []
  }

  // ----- Choosing a row -----

  /** Readings taken while guards are evaluated, by row and by position within the row. */
  type Readings = (nat, nat) -> Live

  predicate Enabled(rows: seq<Row>, i: nat, d: Data, e: Event, read: Readings)
    requires i < |rows|
  {
    forall j | 0 <= j < |rows[i].guards| :: Passes(rows[i].guards[j], d, e, read(i, j))
  }

  /** The first enabled row at or after `i`. */
  function Choose(rows: seq<Row>, i: nat, d: Data, e: Event, read: Readings): (r: Option<nat>)
    requires i <= |rows|
    ensures r.Some? ==> i <= r.value < |rows| && Enabled(rows, r.value, d, e, read)
    ensures r.Some? ==> forall k | i <= k < r.value :: !Enabled(rows, k, d, e, read)
    ensures r.None? ==> forall k | i <= k < |rows| :: !Enabled(rows, k, d, e, read)
    decreases |rows| - i
  {
    if i == |rows| then None
    else if Enabled(rows, i, d, e, read) then Some(i)
    else Choose(rows, i + 1, d, e, read)
  }
}
