/**
 The power manager's data, the live readings its guards take, and the guards
 themselves. Every guard and every entry check re-reads what it needs, so each
 evaluation gets a reading of its own.
 */
module PowerPolicy {
  import opened Options
  import opened PowerTypes
  import opened Inhibitors

  /**
   The state machine's data. `armed` is the latched wake-timer acknowledgement of
   this round; `acked` is auxiliary: the duration that acknowledgement echoed.
   */
  datatype Data = Data(
    request: Option<Request>,
    target: Target,
    vehicle: Vehicle,
    active0: bool,
    active1: bool,
    modemDisabled: bool,
    wakeSeconds: nat,
    automatic: bool,
    fallback: Option<Target>,
    armed: bool,
    acked: nat)

  // ----- The last-ditch condition -----

  const CBB_THRESHOLD := 50
  const AUX_ENTER_MV := 11500
  const AUX_EXIT_MV := 11700

  /** Last-ditch inputs; -1 stands for an unknown charge or voltage. */
  datatype Reserves = Reserves(
    enabled: bool,
    present0: bool, present1: bool, charge0: int, charge1: int,
    cbbPresent: bool, cbbCharge: int,
    auxMv: int, auxLow: bool)

  /** One read of the battery and reserve fields; none where the field is missing or unreadable. */
  datatype ReserveReading = ReserveReading(
    present0: Option<bool>, present1: Option<bool>, charge0: Option<int>, charge1: Option<int>,
    cbbPresent: Option<bool>, cbbCharge: Option<int>, auxMv: Option<int>)

  function Or<T>(o: Option<T>, default_: T): T {
    if o.Some? then o.value else default_
  }

  /** Records an aux voltage; the latch sets below the enter threshold and releases at the exit threshold. */
  function WithAux(r: Reserves, mv: int): Reserves {
    if mv < 0 then r.(auxMv := mv)
    else if r.auxLow then r.(auxMv := mv, auxLow := mv < AUX_EXIT_MV)
    else r.(auxMv := mv, auxLow := mv < AUX_ENTER_MV)
  }

  function Refreshed(r: Reserves, x: ReserveReading): Reserves {
    var r1 := r.(present0 := Or(x.present0, r.present0), present1 := Or(x.present1, r.present1),
                 charge0 := Or(x.charge0, r.charge0), charge1 := Or(x.charge1, r.charge1),
                 cbbPresent := Or(x.cbbPresent, r.cbbPresent), cbbCharge := Or(x.cbbCharge, r.cbbCharge));
    if x.auxMv.Some? then WithAux(r1, x.auxMv.value) else r1
  }

  predicate NoMainBattery(r: Reserves) {
    (!r.present0 || r.charge0 == 0) && (!r.present1 || r.charge1 == 0)
  }

  predicate CbbLow(r: Reserves) {
    r.cbbPresent && 0 <= r.cbbCharge < CBB_THRESHOLD
  }

  /** The condition itself; `inGrace` is the suppression during the first minutes after start. */
  predicate Triggered(r: Reserves, inGrace: bool) {
    r.enabled && NoMainBattery(r) && (CbbLow(r) || r.auxLow) && !inGrace
  }

  function Latch(r: Reserves, readings: seq<int>): Reserves {
    if readings == [] then r
    else WithAux(Latch(r, readings[..|readings| - 1]), readings[|readings| - 1])
  }

  /**
   What the latch remembers: it is set exactly if some known reading fell below
   the enter threshold (or it was set to begin with) and none since reached the exit threshold.
   */
  lemma {:induction false} LatchRemembers(r: Reserves, readings: seq<int>)
    ensures Latch(r, readings).auxLow <==>
      || (r.auxLow && forall j | 0 <= j < |readings| :: readings[j] < AUX_EXIT_MV)
      || (exists i | 0 <= i < |readings| ::
            && 0 <= readings[i] < AUX_ENTER_MV
            && forall j | i < j < |readings| :: readings[j] < AUX_EXIT_MV)
  {
    if readings != [] {
      var a := readings[..|readings| - 1];
      var mv := readings[|readings| - 1];
      LatchRemembers(r, a);
      assert forall j | 0 <= j < |a| :: readings[j] == a[j];
      if Latch(r, a).auxLow && mv < AUX_EXIT_MV {
        if !(r.auxLow && forall j | 0 <= j < |a| :: a[j] < AUX_EXIT_MV) {
          var i :| 0 <= i < |a| && 0 <= a[i] < AUX_ENTER_MV && forall j | i < j < |a| :: a[j] < AUX_EXIT_MV;
          assert 0 <= readings[i] < AUX_ENTER_MV;
        }
      } else if 0 <= mv < AUX_ENTER_MV {
        assert 0 <= readings[|readings| - 1] < AUX_ENTER_MV;
      }
    }
  }

  // ----- Live readings -----

  /** A pack's presence: read now, or the last known value when the read fails. */
  datatype Presence = Presence(read: Option<bool>, cached: bool)

  /** Everything one evaluation of a guard or an entry check may look at. */
  datatype Live = Live(
    vehicle: Option<Vehicle>,
    present0: Presence, present1: Presence,
    active0: Option<bool>, active1: Option<bool>,
    suspendWhenOnline: bool, inRemoteGrace: bool, providers: Option<map<string, string>>,
    reserves: Reserves, reading: ReserveReading, inBootGrace: bool,
    inhibitors: seq<Inhibitor>,
    modemPushed: bool)

  predicate StandByNow(d: Data, live: Live) {
    Or(live.vehicle, d.vehicle) == StandBy
  }

  predicate BatteryPresent(live: Live) {
    Or(live.present0.read, live.present0.cached) || Or(live.present1.read, live.present1.cached)
  }

  predicate BatteryActive(d: Data, live: Live) {
    Or(live.active0, d.active0) || Or(live.active1, d.active1)
  }

  predicate HasConnectedProvider(providers: map<string, string>) {
    exists p | p in providers :: p != "status" && providers[p] == "connected"
  }

  predicate RemoteAccessBlocks(live: Live) {
    && !live.suspendWhenOnline
    && (live.inRemoteGrace || live.providers.None? || HasConnectedProvider(live.providers.value))
  }

  predicate LastDitchHolds(live: Live) {
    Triggered(Refreshed(live.reserves, live.reading), live.inBootGrace)
  }

  // ----- Guards -----

  function TargetOf(d: Data, e: Event): Target {
    var c := CommandOf(e);
    if c.Some? then c.value.target else d.target
  }

  function VehicleOf(d: Data, e: Event): Vehicle {
    if e.VehicleStateChanged? then e.vehicle else d.vehicle
  }

  predicate MayEnter(t: Target, v: Vehicle, d: Data, live: Live) {
    match t
    case Run => false
    case Reboot => v == StandBy || v == ShuttingDown
    case Suspend => v == StandBy && !BatteryPresent(live) && !BatteryActive(d, live) && !RemoteAccessBlocks(live)
    case _ => v == StandBy
  }

  /** Command priorities below `run`: explicit hibernation, hibernate, idle timer, then suspend and reboot. */
  function Rank(t: Target): nat {
    match t
    case HibernateManual => 3
    case HibernateFor => 3
    case Hibernate => 2
    case HibernateTimer => 1
    case _ => 0
  }

  /** The program's case table: which new targets a current target turns away. */
  predicate MayReplace(new_: Target, current: Target) {
    if new_ == Run then true
    else
      match current
      case HibernateManual => !(new_ == Hibernate || new_ == HibernateTimer || new_ == Suspend || new_ == Reboot)
      case HibernateFor => !(new_ == Hibernate || new_ == HibernateTimer || new_ == Suspend || new_ == Reboot)
      case Hibernate => !(new_ == HibernateTimer || new_ == Suspend || new_ == Reboot)
      case HibernateTimer => !(new_ == Suspend || new_ == Reboot)
      case _ => true
  }

  /**
   The table is a total preorder by rank on the targets below run, with `run`
   always admitted and always replaceable.
   */
  lemma PriorityIsByRank(new_: Target, current: Target)
    ensures MayReplace(new_, current) <==> new_ == Run || current == Run || Rank(new_) >= Rank(current)
    ensures new_ != Run && current != Run ==> MayReplace(new_, current) || MayReplace(current, new_)
  {
  }

  /** Where a chain of admitted commands can lower the priority: exactly through run. */
  lemma ReplacementChains(a: Target, b: Target, c: Target)
    requires MayReplace(b, a) && MayReplace(c, b)
    ensures !MayReplace(c, a) <==> b == Run && c != Run && a != Run && Rank(c) < Rank(a)
  {
    PriorityIsByRank(b, a);
    PriorityIsByRank(c, b);
    PriorityIsByRank(c, a);
  }

  datatype Guard =
    | HigherPriority | CanEnter | CanAcceptExplicit | ShouldCancel
    | TargetSuspend | TargetHibernate | LastDitchTriggered | LastDitchApplicable | Automatic
    | NotInStandby | NoBlocking | OnlyModem | PastModemWait

  /** The vehicle state an explicit hibernation starts from, or none if it is refused. */
  function ExplicitVehicle(t: Target, live: Live): Option<Vehicle> {
    if live.vehicle == Some(StandBy) then live.vehicle
    else if live.vehicle == Some(Parked)
            && !(HasBlocking(live.inhibitors, t) && !HasOnlyModem(live.inhibitors, t)) then live.vehicle
    else None
  }

  predicate CancelsLowPower(d: Data, e: Event, live: Live) {
    if d.automatic then !live.reserves.enabled || !LastDitchHolds(live)
    else d.target == Suspend
         && (!StandByNow(d, live) || !MayEnter(TargetOf(d, e), VehicleOf(d, e), d, live))
  }

  predicate Passes(g: Guard, d: Data, e: Event, live: Live) {
    match g
    case HigherPriority => MayReplace(TargetOf(d, e), d.target)
    case CanEnter => MayEnter(TargetOf(d, e), VehicleOf(d, e), d, live)
    case CanAcceptExplicit => ExplicitVehicle(TargetOf(d, e), live).Some?
    case ShouldCancel => CancelsLowPower(d, e, live)
    case TargetSuspend => TargetOf(d, e) == Suspend
    case TargetHibernate => IsHibernatePath(TargetOf(d, e))
    case LastDitchTriggered => LastDitchHolds(live)
    case LastDitchApplicable => d.target == Run || d.target == Suspend
    case Automatic => d.automatic
    case NotInStandby => VehicleOf(d, e) != StandBy
    case NoBlocking => !HasBlocking(live.inhibitors, d.target)
    case OnlyModem => HasOnlyModem(live.inhibitors, d.target) && !d.modemDisabled
    case PastModemWait => !HasBlocking(live.inhibitors, d.target) || HasOnlyModem(live.inhibitors, d.target)
  }
}
