/** States, targets and events of the power manager. */
module PowerTypes {
  import opened Options

  datatype State =
    | Running | PreSuspend | SuspendImminent | LowPowerImminent
    | WaitingInhibitors | IssuingLowPower | Suspended

  datatype Target =
    | Run | Suspend | Hibernate | HibernateManual | HibernateTimer | HibernateFor | Reboot

  datatype Vehicle = StandBy | Parked | ReadyToDrive | ShuttingDown | OtherVehicle

  datatype Slot = Slot0 | Slot1

  predicate IsHibernatePath(t: Target) {
    t == Hibernate || t == HibernateManual || t == HibernateTimer || t == HibernateFor || t == Reboot
  }

  /** Targets `pm.default-state` and the command line accept. */
  predicate IsValidDefault(t: Target) {
    t != HibernateFor
  }

  /**
   Events in the machine's queue. Timeouts, wakes and late blocks carry the number
   of the state visit that armed or sent them; the rest of an event is its payload.
   */
  datatype Event =
    | PowerRun
    | PowerSuspend
    | PowerHibernate
    | PowerHibernateManual
    | PowerHibernateTimer
    | PowerHibernateFor(seconds: nat)
    | PowerReboot
    | ExplicitHibernate(target: Target, duration: nat)
    | HibernatePreparationFailed(request: Option<nat>)
    | VehicleStateChanged(vehicle: Vehicle)
    | BatteryBecameActive(slot: Slot)
    | BatteryBecameInactive(slot: Slot)
    | PowerEligibilityChanged
    | SuspendCancelled
    | InhibitorsChanged
    | LateBlockingInhibitor(visit: nat)
    | InhibitorWaitTimeout(visit: nat)
    | LastDitchCheck
    | LastDitchDisabled
    | DefaultStateChanged(default_: Target)
    | PreSuspendTimeout(visit: nat)
    | SuspendImminentTimeout(visit: nat)
    | HibernationTimerExpired
    | Wakeup(visit: nat)
    | WakeupRtc(visit: nat)

  /** A power command payload; `seconds` is the wake duration of hibernate-for. */
  datatype Command = Command(target: Target, explicit: bool, seconds: nat)

  /** An explicit request in progress; `asked` is the command it came with, kept for the proofs only. */
  datatype Request = Request(id: nat, asked: Command)

  function CommandOf(e: Event): Option<Command> {
    match e
    case PowerRun => Some(Command(Run, false, 0))
    case PowerSuspend => Some(Command(Suspend, false, 0))
    case PowerHibernate => Some(Command(Hibernate, false, 0))
    case PowerHibernateManual => Some(Command(HibernateManual, false, 0))
    case PowerHibernateTimer => Some(Command(HibernateTimer, false, 0))
    case HibernationTimerExpired => Some(Command(HibernateTimer, false, 0))
    case PowerHibernateFor(s) => Some(Command(HibernateFor, false, s))
    case PowerReboot => Some(Command(Reboot, false, 0))
    case ExplicitHibernate(t, s) => Some(Command(t, true, s))
    case LastDitchCheck => Some(Command(Hibernate, false, 0))
    case DefaultStateChanged(t) => Some(Command(t, false, 0))
    case _ => None
  }

  /** What the handlers that feed the queue guarantee of an event. */
  predicate WellFormed(e: Event) {
    match e
    case PowerHibernateFor(s) => s >= 1
    case ExplicitHibernate(t, s) => t == HibernateManual || (t == HibernateFor && s >= 1)
    case DefaultStateChanged(t) => IsValidDefault(t) && t != Run
    case _ => true
  }
}
