/**
 The transition table read by event instead of by state: what each event does wherever it
 is taken, when all readings of a turn agree. Conditions are the raw ones of
 `PowerDecisions`; the order of the rows, which ones there are and what guards them is
 proved to come to exactly this.
 */
module PowerEvents {
  import opened Options
  import opened PowerTypes
  import opened Inhibitors
  import opened PowerPolicy
  import opened PowerTable
  import opened PowerMachine
  import opened PowerDecisions

  /** Where an event leads and what is done on the way. */
  datatype Lead = Lead(to: State, action: Action)

  /** By rank, with run above and below everything. */
  predicate Outranks(new_: Target, current: Target) {
    new_ == Run || current == Run || Rank(new_) >= Rank(current)
  }

  predicate Enterable(t: Target, v: Vehicle, d: Data, live: Live) {
    && t != Run && (v == StandBy || (v == ShuttingDown && t == Reboot))
    && (t == Suspend ==> ClearToSuspend(d, live))
  }

  predicate OnlyModemBlocks(all: seq<Inhibitor>, t: Target) {
    && !NothingBlocks(all, t)
    && forall i | i in all && (i.kind == Block || (i.kind == SuspendOnly && (t == Run || t == Suspend))) ::
         i.who == MODEM
  }

  predicate TakesExplicit(t: Target, live: Live) {
    || live.vehicle == Some(StandBy)
    || (live.vehicle == Some(Parked) && (NothingBlocks(live.inhibitors, t) || OnlyModemBlocks(live.inhibitors, t)))
  }

  /** A command for a power-off: it starts the sequence, or is stored where that is possible, or is dropped. */
  function PowerOffLead(s: State, t: Target, starts: bool, stores: bool, d: Data, live: Live): Option<Lead> {
    if !Outranks(t, d.target) then None
    else if starts && Enterable(t, d.vehicle, d, live) then Some(Lead(LowPowerImminent, PowerCommand))
    else if stores then Some(Lead(Running, PowerCommand))
    else None
  }

  predicate Pending(s: State) {
    s == PreSuspend || s == SuspendImminent
  }

  predicate UnderWay(s: State) {
    s == LowPowerImminent || s == WaitingInhibitors || s == IssuingLowPower
  }

  /** Last-ditch hibernation applies: low reserves under a suspend or a run. */
  predicate DitchApplies(d: Data, live: Live) {
    ReservesRunOut(live) && (d.target == Run || d.target == Suspend)
  }

  /** What a wake leads to; `again` is where a suspend starts over. */
  function WakeLead(again: State, d: Data, live: Live): Option<Lead> {
    if !Enterable(d.target, d.vehicle, d, live) then Some(Lead(Running, Woke))
    else if DitchApplies(d, live) then Some(Lead(LowPowerImminent, LastDitchWake))
    else Some(Lead(if d.target == Suspend then again else LowPowerImminent, Woke))
  }

  /** What the events that re-examine a sequence do once it is not called off. */
  function GoesOn(s: State, d: Data, e: Event, live: Live): Option<Lead> {
    match e
    case PreSuspendTimeout(_) =>
      if s == PreSuspend && Enterable(d.target, d.vehicle, d, live) then Some(Lead(SuspendImminent, NoAction)) else None
    case SuspendImminentTimeout(_) =>
      if s == SuspendImminent || s == LowPowerImminent then Some(Lead(WaitingInhibitors, NoAction)) else None
    case InhibitorsChanged =>
      if s != WaitingInhibitors then None
      else if NothingBlocks(live.inhibitors, d.target) then Some(Lead(IssuingLowPower, NoAction))
      else if OnlyModemBlocks(live.inhibitors, d.target) && !d.modemDisabled
          then Some(Lead(WaitingInhibitors, DisableModem))
      else None
    case InhibitorWaitTimeout(_) =>
      if s == WaitingInhibitors && (NothingBlocks(live.inhibitors, d.target)
          || OnlyModemBlocks(live.inhibitors, d.target))
      then Some(Lead(IssuingLowPower, NoAction)) else None
    case _ => None
  }

  predicate Reexamines(e: Event) {
    e.PowerEligibilityChanged? || e.PreSuspendTimeout? || e.SuspendImminentTimeout? || e.InhibitorsChanged?
        || e.InhibitorWaitTimeout?
  }

  /** What an event does in state `s`; none if it is dropped. */
  function Leads(s: State, d: Data, e: Event, live: Live): Option<Lead> {
    if s == Suspended then None
    else if Reexamines(e) then
      if s != Running && CalledOff(d, live) then Some(Lead(Running, LowPowerCancelled)) else GoesOn(s, d, e, live)
    else
      match e
      case PowerRun => Some(Lead(Running, PowerCommand))
      case PowerSuspend =>
        if s != Running || !Outranks(Suspend, d.target) then None
        else if Enterable(Suspend, d.vehicle, d, live) then Some(Lead(SuspendImminent, PowerCommand))
        else Some(Lead(Running, PowerCommand))
      case PowerHibernate => PowerOffLead(s, Hibernate, true, s == Running || s == IssuingLowPower, d, live)
      case PowerHibernateManual => PowerOffLead(s, HibernateManual, true, s == Running || s == IssuingLowPower, d, live)
      case PowerHibernateFor(_) => PowerOffLead(s, HibernateFor, true, s == Running || s == IssuingLowPower, d, live)
      case PowerHibernateTimer =>
        PowerOffLead(s, HibernateTimer, s != LowPowerImminent && s != IssuingLowPower, s == Running, d, live)
      case HibernationTimerExpired =>
        PowerOffLead(s, HibernateTimer, s != LowPowerImminent && s != IssuingLowPower, s == Running, d, live)
      case PowerReboot => PowerOffLead(s, Reboot, s != LowPowerImminent && s != IssuingLowPower, s == Running, d, live)
      case ExplicitHibernate(t, _) =>
        if s != IssuingLowPower && Outranks(t, d.target) && TakesExplicit(t, live)
        then Some(Lead(Running, PowerCommand)) else None
      case HibernatePreparationFailed(_) => if s == Running then Some(Lead(Running, PreparationFailed)) else None
      case DefaultStateChanged(_) =>
        if s == Running then Some(Lead(Running, DefaultChanged))
        else if UnderWay(s) && d.automatic then Some(Lead(s, LastDitchDefault)) else None
      case LastDitchCheck =>
        if (s == Running || Pending(s)) && DitchApplies(d, live) && d.vehicle == StandBy
        then Some(Lead(LowPowerImminent, LastDitchBegins)) else None
      case LastDitchDisabled => if UnderWay(s) && d.automatic then Some(Lead(Running, LastDitchCancelled)) else None
      case SuspendCancelled =>
        if (s == WaitingInhibitors || s == IssuingLowPower) && d.target == Suspend
        then Some(Lead(Running, LowPowerCancelled)) else None
      case VehicleStateChanged(v) =>
        if s == Running then
          if !Enterable(d.target, v, d, live) then Some(Lead(Running, VehicleChanged))
          else Some(Lead(if d.target == Suspend then PreSuspend else LowPowerImminent, VehicleChanged))
        else if s != IssuingLowPower && v != StandBy then Some(Lead(Running, VehicleLeft)) else None
      case BatteryBecameActive(_) =>
        if Pending(s) || (s == WaitingInhibitors && d.target == Suspend)
        then Some(Lead(Running, BatteryChanged)) else None
      case BatteryBecameInactive(_) =>
        if s != Running then None
        else if d.target == Suspend && Enterable(Suspend, d.vehicle, d, live)
            then Some(Lead(PreSuspend, BatteryChanged))
        else Some(Lead(Running, BatteryChanged))
      case LateBlockingInhibitor(_) => if s == IssuingLowPower then Some(Lead(WaitingInhibitors, NoAction)) else None
      case Wakeup(_) => if s == IssuingLowPower then WakeLead(PreSuspend, d, live) else None
      case WakeupRtc(_) => if s == IssuingLowPower then WakeLead(SuspendImminent, d, live) else None
      case _ => None
  }

  // ----- The rows, one after the other -----

  predicate AllPass(guards: seq<Guard>, d: Data, e: Event, live: Live) {
    forall j | 0 <= j < |guards| :: Passes(guards[j], d, e, live)
  }

  function FirstOpen(rows: seq<Row>, d: Data, e: Event, live: Live): Option<Row> {
    if rows == [] then None
    else if AllPass(rows[0].guards, d, e, live) then Some(rows[0])
    else FirstOpen(rows[1..], d, e, live)
  }

  lemma {:induction false} FirstOpenIsFirst(rows: seq<Row>, k: nat, d: Data, e: Event, live: Live)
    requires k <= |rows| && forall j | 0 <= j < k :: !AllPass(rows[j].guards, d, e, live)
    ensures FirstOpen(rows, d, e, live) ==
      if k == |rows| then None else if AllPass(rows[k].guards, d, e, live) then Some(rows[k])
          else FirstOpen(rows[k + 1..], d, e, live)
  {
    if k > 0 {
      assert rows[1..][k - 1..] == rows[k..];
      FirstOpenIsFirst(rows[1..], k - 1, d, e, live);
      if k < |rows| { assert rows[1..][k..] == rows[k + 1..]; }
    }
  }

  lemma ChosenIsFirstOpen(m: Machine, t: Turn, live: Live)
    requires m.queue != [] && !StaleTimer(m, m.queue[0]) && forall i: nat, j: nat :: t.read(i, j) == live
    ensures Chosen(m, t) == FirstOpen(Rows(m.state, m.queue[0]), m.data, m.queue[0], live)
  {
    hide Rows, Passes;
    var e := m.queue[0];
    var rows := Rows(m.state, e);
    var c := Choose(rows, 0, m.data, e, t.read);
    var k := if c.None? then |rows| else c.value;
    forall i | 0 <= i < |rows|
      ensures Enabled(rows, i, m.data, e, t.read) <==> AllPass(rows[i].guards, m.data, e, live)
    {
      assert forall j | 0 <= j < |rows[i].guards| :: t.read(i, j) == live;
    }
    FirstOpenIsFirst(rows, k, m.data, e, live);
  }

  /** Up to four guards, written out. */
  predicate FourPass(g: seq<Guard>, d: Data, e: Event, live: Live) {
    && (|g| > 0 ==> Passes(g[0], d, e, live)) && (|g| > 1 ==> Passes(g[1], d, e, live))
    && (|g| > 2 ==> Passes(g[2], d, e, live)) && (|g| > 3 ==> Passes(g[3], d, e, live))
  }

  lemma GuardByGuard(g: seq<Guard>, d: Data, e: Event, live: Live)
    requires |g| <= 4
    ensures AllPass(g, d, e, live) <==> FourPass(g, d, e, live)
  {
    hide Passes;
  }

  /** Up to four rows, written out. */
  lemma RowByRow(rows: seq<Row>, d: Data, e: Event, live: Live)
    requires |rows| <= 4 && forall r | r in rows :: |r.guards| <= 4
    ensures FirstOpen(rows, d, e, live) ==
      if |rows| == 0 then None else if FourPass(rows[0].guards, d, e, live) then Some(rows[0])
      else if |rows| == 1 then None else if FourPass(rows[1].guards, d, e, live) then Some(rows[1])
      else if |rows| == 2 then None else if FourPass(rows[2].guards, d, e, live) then Some(rows[2])
      else if |rows| == 3 then None else if FourPass(rows[3].guards, d, e, live) then Some(rows[3])
      else None
  {
    hide AllPass, FourPass;
    forall k | 0 <= k < |rows| ensures AllPass(rows[k].guards, d, e, live) <==> FourPass(rows[k].guards, d, e, live) {
      assert rows[k] in rows;
      GuardByGuard(rows[k].guards, d, e, live);
    }
    if |rows| > 0 && !AllPass(rows[0].guards, d, e, live) {
      FirstOpenIsFirst(rows, 1, d, e, live);
      if |rows| > 1 && !AllPass(rows[1].guards, d, e, live) {
        FirstOpenIsFirst(rows, 2, d, e, live);
        if |rows| > 2 && !AllPass(rows[2].guards, d, e, live) {
          FirstOpenIsFirst(rows, 3, d, e, live);
          if |rows| > 3 && !AllPass(rows[3].guards, d, e, live) { FirstOpenIsFirst(rows, 4, d, e, live); }
        }
      }
    }
  }

  // ----- The guards on raw readings -----

  lemma EntryGuards(d: Data, e: Event, live: Live)
    ensures Passes(HigherPriority, d, e, live) <==> Outranks(TargetOf(d, e), d.target)
    ensures Passes(CanEnter, d, e, live) <==> Enterable(TargetOf(d, e), VehicleOf(d, e), d, live)
  {
    PriorityIsByRank(TargetOf(d, e), d.target);
    MayEnterExactly(TargetOf(d, e), VehicleOf(d, e), d, live);
    hide TargetOf, VehicleOf, MayReplace, Rank, MayEnter, ClearToSuspend;
  }

  lemma IntentGuards(d: Data, e: Event, live: Live)
    ensures Passes(TargetSuspend, d, e, live) <==> TargetOf(d, e) == Suspend
    ensures Passes(TargetHibernate, d, e, live) <==> TargetOf(d, e) != Suspend && TargetOf(d, e) != Run
    ensures Passes(LastDitchApplicable, d, e, live) <==> d.target == Run || d.target == Suspend
    ensures Passes(Automatic, d, e, live) <==> d.automatic
    ensures Passes(NotInStandby, d, e, live) <==> VehicleOf(d, e) != StandBy
  {
    hide TargetOf, VehicleOf;
  }

  lemma ConditionGuards(d: Data, e: Event, live: Live)
    ensures d.automatic || !Carries(e) ==> (Passes(ShouldCancel, d, e, live) <==> CalledOff(d, live))
    ensures Passes(LastDitchTriggered, d, e, live) <==> ReservesRunOut(live)
  {
    LastDitchExactly(live);
    if d.automatic || !Carries(e) { CancelsExactly(d, e, live); }
    hide LastDitchHolds, CancelsLowPower, CalledOff, ReservesRunOut, Carries;
  }

  lemma BlockersExactly(all: seq<Inhibitor>, t: Target)
    ensures HasBlocking(all, t) <==> !NothingBlocks(all, t)
    ensures HasOnlyModem(all, t) <==> OnlyModemBlocks(all, t)
  {
    BlocksExactly(all, t);
    hide HasBlocking, HasOnlyModem, NothingBlocks;
  }

  lemma InhibitorGuards(d: Data, e: Event, live: Live)
    ensures Passes(CanAcceptExplicit, d, e, live) <==> TakesExplicit(TargetOf(d, e), live)
    ensures Passes(NoBlocking, d, e, live) <==> NothingBlocks(live.inhibitors, d.target)
    ensures Passes(OnlyModem, d, e, live) <==> OnlyModemBlocks(live.inhibitors, d.target) && !d.modemDisabled
    ensures Passes(PastModemWait, d, e, live) <==>
      NothingBlocks(live.inhibitors, d.target) || OnlyModemBlocks(live.inhibitors, d.target)
  {
    BlockersExactly(live.inhibitors, d.target);
    BlockersExactly(live.inhibitors, TargetOf(d, e));
    hide TargetOf, HasBlocking, HasOnlyModem, NothingBlocks, OnlyModemBlocks;
  }

  lemma GuardsExactly(d: Data, e: Event, live: Live)
    ensures Passes(HigherPriority, d, e, live) <==> Outranks(TargetOf(d, e), d.target)
    ensures Passes(CanEnter, d, e, live) <==> Enterable(TargetOf(d, e), VehicleOf(d, e), d, live)
    ensures Passes(CanAcceptExplicit, d, e, live) <==> TakesExplicit(TargetOf(d, e), live)
    ensures d.automatic || !Carries(e) ==> (Passes(ShouldCancel, d, e, live) <==> CalledOff(d, live))
    ensures Passes(TargetSuspend, d, e, live) <==> TargetOf(d, e) == Suspend
    ensures Passes(TargetHibernate, d, e, live) <==> TargetOf(d, e) != Suspend && TargetOf(d, e) != Run
    ensures Passes(LastDitchTriggered, d, e, live) <==> ReservesRunOut(live)
    ensures Passes(LastDitchApplicable, d, e, live) <==> d.target == Run || d.target == Suspend
    ensures Passes(Automatic, d, e, live) <==> d.automatic
    ensures Passes(NotInStandby, d, e, live) <==> VehicleOf(d, e) != StandBy
    ensures Passes(NoBlocking, d, e, live) <==> NothingBlocks(live.inhibitors, d.target)
    ensures Passes(OnlyModem, d, e, live) <==> OnlyModemBlocks(live.inhibitors, d.target) && !d.modemDisabled
    ensures Passes(PastModemWait, d, e, live) <==>
      NothingBlocks(live.inhibitors, d.target) || OnlyModemBlocks(live.inhibitors, d.target)
  {
    EntryGuards(d, e, live);
    IntentGuards(d, e, live);
    ConditionGuards(d, e, live);
    InhibitorGuards(d, e, live);
    hide Passes, Outranks, Enterable, TakesExplicit, CalledOff, ReservesRunOut, NothingBlocks, OnlyModemBlocks,
      TargetOf, VehicleOf;
  }

  predicate Same(row: Option<Row>, lead: Option<Lead>) {
    if row.None? then lead.None? else lead == Some(Lead(row.value.to, row.value.action))
  }

  /** A command for a power-off, with the rows the six states have for it. */
  lemma UpgradeRows(s: State, d: Data, e: Event, live: Live, rows: seq<Row>)
    requires !e.ExplicitHibernate? && CommandOf(e).Some? && CommandOf(e).value.target != Run
        && CommandOf(e).value.target != Suspend
    requires rows == [] || rows == [UPGRADE] || rows == [UPGRADE, STORE]
    ensures Same(FirstOpen(rows, d, e, live),
                 PowerOffLead(s, CommandOf(e).value.target, rows != [], |rows| == 2, d, live))
  {
    RowByRow(rows, d, e, live);
    GuardsExactly(d, e, live);
    hide Passes, AllPass, FirstOpen, Outranks, Enterable;
  }

  /** The rows of a state, without the re-examination in front. */
  function From(s: State, e: Event): seq<Row> {
    match s
    case Running => FromRunning(e)
    case PreSuspend => FromPreSuspend(e)
    case SuspendImminent => FromSuspendImminent(e)
    case LowPowerImminent => FromLowPowerImminent(e)
    case WaitingInhibitors => FromWaitingInhibitors(e)
    case IssuingLowPower => FromIssuingLowPower(e)
    case Suspended => []
  }

  lemma RowsOf(s: State, e: Event)
    ensures Rows(s, e) == (if s != Running && s != Suspended && Reexamines(e) then [CANCEL] else []) + From(s, e)
  {
    hide FromRunning, FromPreSuspend, FromSuspendImminent, FromLowPowerImminent, FromWaitingInhibitors,
      FromIssuingLowPower;
  }

  predicate PowersOff(e: Event) {
    || e.PowerHibernate? || e.PowerHibernateManual? || e.PowerHibernateFor? || e.PowerHibernateTimer?
        || e.HibernationTimerExpired?
    || e.PowerReboot?
  }

  lemma PowerOffByEvent(s: State, d: Data, e: Event, live: Live)
    requires PowersOff(e)
    ensures Same(FirstOpen(From(s, e), d, e, live), Leads(s, d, e, live))
  {
    UpgradeRows(s, d, e, live, From(s, e));
    hide FirstOpen, Outranks, Enterable;
  }

  lemma PreSuspendGoesOn(d: Data, e: Event, live: Live)
    requires Reexamines(e)
    ensures Same(FirstOpen(From(PreSuspend, e), d, e, live), GoesOn(PreSuspend, d, e, live))
  {
    EntryGuards(d, e, live);
    RowByRow(From(PreSuspend, e), d, e, live);
    hide Passes, AllPass, FirstOpen, Outranks, Enterable, TakesExplicit, CalledOff, ReservesRunOut, NothingBlocks,
      OnlyModemBlocks;
  }

  lemma SuspendImminentGoesOn(d: Data, e: Event, live: Live)
    requires Reexamines(e)
    ensures Same(FirstOpen(From(SuspendImminent, e), d, e, live), GoesOn(SuspendImminent, d, e, live))
  {
    EntryGuards(d, e, live);
    RowByRow(From(SuspendImminent, e), d, e, live);
    hide Passes, AllPass, FirstOpen, Outranks, Enterable, TakesExplicit, CalledOff, ReservesRunOut, NothingBlocks,
      OnlyModemBlocks;
  }

  lemma LowPowerImminentGoesOn(d: Data, e: Event, live: Live)
    requires Reexamines(e)
    ensures Same(FirstOpen(From(LowPowerImminent, e), d, e, live), GoesOn(LowPowerImminent, d, e, live))
  {
    EntryGuards(d, e, live);
    RowByRow(From(LowPowerImminent, e), d, e, live);
    hide Passes, AllPass, FirstOpen, Outranks, Enterable, TakesExplicit, CalledOff, ReservesRunOut, NothingBlocks,
      OnlyModemBlocks;
  }

  lemma WaitingGoesOn(d: Data, e: Event, live: Live)
    requires Reexamines(e)
    ensures Same(FirstOpen(From(WaitingInhibitors, e), d, e, live), GoesOn(WaitingInhibitors, d, e, live))
  {
    InhibitorGuards(d, e, live);
    RowByRow(From(WaitingInhibitors, e), d, e, live);
    hide Passes, FirstOpen, TakesExplicit, NothingBlocks, OnlyModemBlocks, TargetOf;
  }

  lemma GoesOnByEvent(s: State, d: Data, e: Event, live: Live)
    requires Reexamines(e) && s != Suspended
    ensures Same(FirstOpen(From(s, e), d, e, live), GoesOn(s, d, e, live))
  {
    hide FirstOpen, NothingBlocks, OnlyModemBlocks, Enterable;
    match s
    case PreSuspend => PreSuspendGoesOn(d, e, live);
    case SuspendImminent => SuspendImminentGoesOn(d, e, live);
    case LowPowerImminent => LowPowerImminentGoesOn(d, e, live);
    case WaitingInhibitors => WaitingGoesOn(d, e, live);
    case _ =>
      RowByRow(From(s, e), d, e, live);
  }

  lemma RunIsNotEntered(t: Target, v: Vehicle, d: Data, live: Live)
    ensures Enterable(t, v, d, live) ==> t != Run
  {
  }

  /** Reports of the vehicle and the batteries. */
  predicate Reports(e: Event) {
    e.VehicleStateChanged? || e.BatteryBecameActive? || e.BatteryBecameInactive?
  }

  lemma ReportWhileRunning(d: Data, e: Event, live: Live)
    requires Reports(e)
    ensures Same(FirstOpen(From(Running, e), d, e, live), Leads(Running, d, e, live))
  {
    EntryGuards(d, e, live);
    IntentGuards(d, e, live);
    RunIsNotEntered(TargetOf(d, e), VehicleOf(d, e), d, live);
    RowByRow(From(Running, e), d, e, live);
    hide Passes, FirstOpen, TakesExplicit, CalledOff, ReservesRunOut, NothingBlocks, OnlyModemBlocks, Enterable;
  }

  lemma RunningByEvent(d: Data, e: Event, live: Live)
    requires !PowersOff(e) && !Reexamines(e) && !Reports(e)
    ensures Same(FirstOpen(From(Running, e), d, e, live), Leads(Running, d, e, live))
  {
    GuardsExactly(d, e, live);
    RowByRow(From(Running, e), d, e, live);
    hide Passes, FirstOpen, TakesExplicit, CalledOff, ReservesRunOut, NothingBlocks, OnlyModemBlocks, ClearToSuspend,
      Rank;
  }

  lemma PreSuspendByEvent(d: Data, e: Event, live: Live)
    requires !PowersOff(e) && !Reexamines(e)
    ensures Same(FirstOpen(From(PreSuspend, e), d, e, live), Leads(PreSuspend, d, e, live))
  {
    GuardsExactly(d, e, live);
    RowByRow(From(PreSuspend, e), d, e, live);
    hide Passes, FirstOpen, TakesExplicit, CalledOff, ReservesRunOut, NothingBlocks, OnlyModemBlocks, ClearToSuspend,
      Rank;
  }

  lemma SuspendImminentByEvent(d: Data, e: Event, live: Live)
    requires !PowersOff(e) && !Reexamines(e)
    ensures Same(FirstOpen(From(SuspendImminent, e), d, e, live), Leads(SuspendImminent, d, e, live))
  {
    GuardsExactly(d, e, live);
    RowByRow(From(SuspendImminent, e), d, e, live);
    hide Passes, FirstOpen, TakesExplicit, CalledOff, ReservesRunOut, NothingBlocks, OnlyModemBlocks, ClearToSuspend,
      Rank;
  }

  lemma LowPowerImminentByEvent(d: Data, e: Event, live: Live)
    requires !PowersOff(e) && !Reexamines(e)
    ensures Same(FirstOpen(From(LowPowerImminent, e), d, e, live), Leads(LowPowerImminent, d, e, live))
  {
    GuardsExactly(d, e, live);
    RowByRow(From(LowPowerImminent, e), d, e, live);
    hide Passes, FirstOpen, TakesExplicit, CalledOff, ReservesRunOut, NothingBlocks, OnlyModemBlocks, ClearToSuspend,
      Rank;
  }

  lemma WaitingByEvent(d: Data, e: Event, live: Live)
    requires !PowersOff(e) && !Reexamines(e)
    ensures Same(FirstOpen(From(WaitingInhibitors, e), d, e, live), Leads(WaitingInhibitors, d, e, live))
  {
    GuardsExactly(d, e, live);
    RowByRow(From(WaitingInhibitors, e), d, e, live);
    hide Passes, FirstOpen, TakesExplicit, CalledOff, ReservesRunOut, NothingBlocks, OnlyModemBlocks, ClearToSuspend,
      Rank;
  }

  /** The rows of a wake; `again` is where a suspend starts over. */
  lemma WakeRows(rows: seq<Row>, again: State, d: Data, e: Event, live: Live)
    requires !Carries(e)
    requires rows == [DITCH_WAKE, Row(again, [CanEnter, TargetSuspend], Woke),
        Row(LowPowerImminent, [CanEnter, TargetHibernate], Woke),
                      Row(Running, [], Woke)]
    ensures Same(FirstOpen(rows, d, e, live), WakeLead(again, d, live))
  {
    assert TargetOf(d, e) == d.target && VehicleOf(d, e) == d.vehicle;
    EntryGuards(d, e, live);
    IntentGuards(d, e, live);
    ConditionGuards(d, e, live);
    RunIsNotEntered(d.target, d.vehicle, d, live);
    RowByRow(rows, d, e, live);
    hide Passes, FirstOpen, CalledOff, ReservesRunOut, Enterable, Outranks, TargetOf, VehicleOf, Carries;
  }

  lemma WakeByEvent(d: Data, e: Event, live: Live)
    requires e.Wakeup? || e.WakeupRtc?
    ensures Same(FirstOpen(From(IssuingLowPower, e), d, e, live), Leads(IssuingLowPower, d, e, live))
  {
    WakeRows(From(IssuingLowPower, e), if e.Wakeup? then PreSuspend else SuspendImminent, d, e, live);
    hide FirstOpen, WakeLead;
  }

  lemma IssuingByEvent(d: Data, e: Event, live: Live)
    requires !PowersOff(e) && !Reexamines(e) && !e.Wakeup? && !e.WakeupRtc?
    ensures Same(FirstOpen(From(IssuingLowPower, e), d, e, live), Leads(IssuingLowPower, d, e, live))
  {
    GuardsExactly(d, e, live);
    RowByRow(From(IssuingLowPower, e), d, e, live);
    hide Passes, FirstOpen, TakesExplicit, CalledOff, ReservesRunOut, NothingBlocks, OnlyModemBlocks, ClearToSuspend,
      Rank;
  }

  /** A timer that an earlier visit armed. */
  predicate LateTimer(m: Machine, e: Event) {
    (e.PreSuspendTimeout? || e.SuspendImminentTimeout? || e.InhibitorWaitTimeout?) && e.visit != m.visit
  }

  lemma StaleExactly(m: Machine, e: Event)
    ensures StaleTimer(m, e) <==> LateTimer(m, e)
  {
  }

  /**
   The whole table by event: with readings that agree throughout a turn, an event at the
   head of the queue is dropped or leads exactly where `Leads` says. A timer of an earlier
   visit is always dropped.
   */
  lemma TableByEvent(m: Machine, t: Turn, live: Live)
    requires m.queue != [] && forall i: nat, j: nat :: t.read(i, j) == live
    ensures LateTimer(m, m.queue[0]) ==> Chosen(m, t).None?
    ensures !LateTimer(m, m.queue[0]) ==> Same(Chosen(m, t), Leads(m.state, m.data, m.queue[0], live))
  {
    var s, d, e := m.state, m.data, m.queue[0];
    StaleExactly(m, e);
    if !LateTimer(m, e) {
      ChosenIsFirstOpen(m, t, live);
      RowsOf(s, e);
      if s == Suspended {
        assert Rows(s, e) == [];
      } else if Reexamines(e) {
        ReexaminedByEvent(s, d, e, live);
      } else {
        assert Rows(s, e) == From(s, e);
        hide Rows, From, Chosen, FirstOpen, Leads;
        if PowersOff(e) { PowerOffByEvent(s, d, e, live); } else { OtherByEvent(s, d, e, live); }
      }
    }
  }

  lemma OtherByEvent(s: State, d: Data, e: Event, live: Live)
    requires s != Suspended && !PowersOff(e) && !Reexamines(e)
    ensures Same(FirstOpen(From(s, e), d, e, live), Leads(s, d, e, live))
  {
    hide FirstOpen, Leads;
    match s
    case Running => if Reports(e) { ReportWhileRunning(d, e, live); } else { RunningByEvent(d, e, live); }
    case PreSuspend => PreSuspendByEvent(d, e, live);
    case SuspendImminent => SuspendImminentByEvent(d, e, live);
    case LowPowerImminent => LowPowerImminentByEvent(d, e, live);
    case WaitingInhibitors => WaitingByEvent(d, e, live);
    case IssuingLowPower =>
      if e.Wakeup? || e.WakeupRtc? { WakeByEvent(d, e, live); } else { IssuingByEvent(d, e, live); }
    case Suspended =>
  }

  lemma CancelFirst(rest: seq<Row>, d: Data, e: Event, live: Live)
    ensures FirstOpen([CANCEL] + rest, d, e, live) ==
      if Passes(ShouldCancel, d, e, live) then Some(CANCEL) else FirstOpen(rest, d, e, live)
  {
    hide Passes;
    GuardByGuard(CANCEL.guards, d, e, live);
    assert ([CANCEL] + rest)[1..] == rest;
  }

  lemma ReexaminedByEvent(s: State, d: Data, e: Event, live: Live)
    requires s != Suspended && Reexamines(e)
    ensures Same(FirstOpen(Rows(s, e), d, e, live), Leads(s, d, e, live))
  {
    RowsOf(s, e);
    GoesOnByEvent(s, d, e, live);
    ConditionGuards(d, e, live);
    hide Rows, From, GoesOn, Passes, CalledOff, FirstOpen;
    if s == Running {
      assert [] + From(s, e) == From(s, e);
    } else {
      CancelFirst(From(s, e), d, e, live);
    }
  }
}
