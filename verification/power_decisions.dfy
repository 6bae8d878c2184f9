/**
 The power manager's conditions on raw readings: when a suspend is clear, when the reserves
 are low, what may be entered and what is cancelled, exactly which entries of
 issuing-low-power hand a command to logind, and what every action leaves. Nothing here is
 stated through a guard of the machine's own.
 */
module PowerDecisions {
  import opened Options
  import opened PowerTypes
  import opened Inhibitors
  import opened PowerPolicy
  import opened PowerTable
  import opened PowerMachine

  // ----- Readings -----

  /** Read now as no, or unreadable and last known as no. */
  predicate ReadsNo(read: Option<bool>, known: bool) {
    read == Some(false) || (read.None? && !known)
  }

  /** The vehicle is read in stand-by, or unreadable and last known there. */
  predicate ReadsStandBy(d: Data, live: Live) {
    live.vehicle == Some(StandBy) || (live.vehicle.None? && d.vehicle == StandBy)
  }

  /** Nothing connected keeps the vehicle reachable, as far as `pm.suspend-when-online` asks for that. */
  predicate Unreachable(live: Live) {
    || live.suspendWhenOnline
    || (&& !live.inRemoteGrace && live.providers.Some?
        && forall p | p in live.providers.value :: p == "status" || live.providers.value[p] != "connected")
  }

  /** What a suspend needs beside stand-by: no pack in either slot, none active, and nobody online who counts. */
  predicate ClearToSuspend(d: Data, live: Live) {
    && ReadsNo(live.present0.read, live.present0.cached) && ReadsNo(live.present1.read, live.present1.cached)
    && ReadsNo(live.active0, d.active0) && ReadsNo(live.active1, d.active1)
    && Unreachable(live)
  }

  lemma ClearExactly(d: Data, live: Live)
    ensures ClearToSuspend(d, live) <==> !BatteryPresent(live) && !BatteryActive(d, live) && !RemoteAccessBlocks(live)
    ensures ReadsStandBy(d, live) <==> StandByNow(d, live)
  {
  }

  /** Exactly which targets may be entered from which vehicle state. */
  lemma MayEnterExactly(t: Target, v: Vehicle, d: Data, live: Live)
    ensures MayEnter(t, v, d, live) <==>
      && t != Run && (v == StandBy || (v == ShuttingDown && t == Reboot))
      && (t == Suspend ==> ClearToSuspend(d, live))
  {
    ClearExactly(d, live);
    hide ClearToSuspend, BatteryPresent, BatteryActive, RemoteAccessBlocks;
  }

  /**
   Nothing of these inhibitors blocks the target: none of kind block, and suspend-only ones
   only beside a hibernation or reboot.
   */
  predicate NothingBlocks(all: seq<Inhibitor>, t: Target) {
    forall i | i in all :: i.kind == Delay || (i.kind == SuspendOnly && t != Run && t != Suspend)
  }

  lemma BlocksExactly(all: seq<Inhibitor>, t: Target)
    ensures HasBlocking(all, t) <==> !NothingBlocks(all, t)
    ensures HasOnlyModem(all, t) <==>
      !NothingBlocks(all, t)
      && forall i | i in all && (i.kind == Block || (i.kind == SuspendOnly && (t == Run || t == Suspend))) ::
         i.who == MODEM
  {
    forall i ensures Blocks(i, t) <==> i.kind == Block || (i.kind == SuspendOnly && (t == Run || t == Suspend)) {
      KindsBlock(i, t);
    }
    hide Blocks;
  }

  // ----- The last-ditch condition -----

  /** A slot gives no charge: no pack, or an empty one. Unreadable fields keep their last value. */
  predicate SlotGivesNothing(presentNow: Option<bool>, present: bool, chargeNow: Option<int>, charge: int) {
    ReadsNo(presentNow, present) || chargeNow == Some(0) || (chargeNow.None? && charge == 0)
  }

  /** The backup battery is there and under half full; a negative charge is an unknown one. */
  predicate BackupLow(r: Reserves, x: ReserveReading) {
    var charge := if x.cbbCharge.Some? then x.cbbCharge.value else r.cbbCharge;
    && (x.cbbPresent == Some(true) || (x.cbbPresent.None? && r.cbbPresent))
    && 0 <= charge < 50
  }

  /** The auxiliary battery has fallen under 11.5 V and not risen to 11.7 V since, this reading included. */
  predicate AuxiliaryLow(r: Reserves, x: ReserveReading) {
    if x.auxMv.None? || x.auxMv.value < 0 then r.auxLow
    else x.auxMv.value < 11500 || (r.auxLow && x.auxMv.value < 11700)
  }

  /**
   Both main slots give nothing and a reserve is low; not with the setting off, nor in the
   first minutes after a start.
   */
  predicate ReservesRunOut(live: Live) {
    var r, x := live.reserves, live.reading;
    && r.enabled && !live.inBootGrace
    && SlotGivesNothing(x.present0, r.present0, x.charge0, r.charge0)
    && SlotGivesNothing(x.present1, r.present1, x.charge1, r.charge1)
    && (BackupLow(r, x) || AuxiliaryLow(r, x))
  }

  lemma LastDitchExactly(live: Live)
    ensures LastDitchHolds(live) <==> ReservesRunOut(live)
  {
  }

  // ----- Cancelling and accepting -----

  /** Events that bring a target or a vehicle state of their own. */
  predicate Carries(e: Event) {
    CommandOf(e).Some? || e.VehicleStateChanged?
  }

  /**
   A low-power sequence under way is called off: automatic hibernation when the reserves no
   longer run out, a suspend when it is no longer clear or the vehicle has left stand-by, and
   nothing else.
   */
  predicate CalledOff(d: Data, live: Live) {
    if d.automatic then !ReservesRunOut(live)
    else d.target == Suspend && !(ReadsStandBy(d, live) && d.vehicle == StandBy && ClearToSuspend(d, live))
  }

  lemma CancelsExactly(d: Data, e: Event, live: Live)
    requires d.automatic || !Carries(e)
    ensures CancelsLowPower(d, e, live) <==> CalledOff(d, live)
  {
    ClearExactly(d, live);
    LastDitchExactly(live);
    MayEnterExactly(Suspend, d.vehicle, d, live);
    OffNeverRunsOut(live);
    hide ClearToSuspend, ReservesRunOut, LastDitchHolds, BatteryPresent, BatteryActive, RemoteAccessBlocks, MayEnter,
      ReadsStandBy,
      StandByNow;
  }

  lemma OffNeverRunsOut(live: Live)
    ensures ReservesRunOut(live) ==> live.reserves.enabled
  {
  }

  /** A user's hibernation is taken in stand-by, or from parked unless something other than the modem blocks it. */
  lemma ExplicitExactly(t: Target, live: Live)
    ensures ExplicitVehicle(t, live).Some? <==>
      || live.vehicle == Some(StandBy)
      || (live.vehicle == Some(Parked)
          && forall i | i in live.inhibitors && i.who != MODEM :: i.kind == Delay
              || (i.kind == SuspendOnly && t != Run && t != Suspend))
    ensures ExplicitVehicle(t, live).Some? ==> ExplicitVehicle(t, live) == live.vehicle
  {
    BlocksExactly(live.inhibitors, t);
    hide HasBlocking, HasOnlyModem;
  }

  // ----- What reaches logind -----

  /** The modem comes back if it was off and the request gets through. */
  predicate ModemBack(d: Data, d': Data, live: Live) {
    d'.modemDisabled <==> d.modemDisabled && !live.modemPushed
  }

  /** Bringing the modem back touches nothing else. */
  lemma OnlyModemBack(d: Data, live: Live)
    ensures var d' := EnableModem(d, live); d' == d.(modemDisabled := d'.modemDisabled) && ModemBack(d, d', live)
  {
  }

  /** A wake duration is asked for and not acknowledged yet. */
  predicate NeedsTimer(d: Data) {
    d.target == HibernateFor && d.wakeSeconds > 0 && !d.armed
  }

  /**
   The vehicle stays in stand-by until the nRF knows, the suspend is still clear then, and the
   coordinator admits it.
   */
  predicate SuspendGoes(d: Data, i: IssueInput) {
    && ReadsStandBy(d, i.announce) && i.quiesced && ReadsStandBy(d, i.afterQuiesce)
    && !CalledOff(d, i.eligibility) && i.admission.Some?
  }

  /** Nothing stops the command of this visit. */
  predicate Goes(d: Data, dryRun: bool, i: IssueInput) {
    && !dryRun && d.target != Run && !CalledOff(d, i.first)
    && (NeedsTimer(d) ==> d.wakeSeconds in i.acks)
    && NothingBlocks(i.gate.inhibitors, d.target)
    && (d.target == Suspend ==> SuspendGoes(d, i))
    && (d.target != Suspend && d.target != Reboot ==> !CalledOff(d, i.last))
  }

  function CancelOf(d: Data): Event {
    if d.automatic then LastDitchDisabled else SuspendCancelled
  }

  /**
   After logind: a wake, with its reason and a fresh view of the batteries, a return to
   running, or the end of the service.
   */
  predicate SleepDoes(d: Data, visit: nat, i: IssueInput, n: Entered) {
    match i.sleep
    case Slept =>
      && n.sends == [if i.wokenByRtc then WakeupRtc(visit) else Wakeup(visit)]
      && n.data == d.(active0 := if i.awake.active0.Some? then i.awake.active0.value else d.active0,
                      active1 := if i.awake.active1.Some? then i.awake.active1.value else d.active1,
                      modemDisabled := false)
    case DidNotSleep => n.sends == [PowerRun] && n.data == d.(modemDisabled := n.data.modemDisabled)
        && ModemBack(d, n.data, i.awake)
    case ServiceStopping => n.sends == [] && n.data == d
  }

  lemma SleepExactly(d: Data, visit: nat, i: IssueInput)
    ensures var n := SuspendNow(d, visit, i);
      SleepDoes(d, visit, i, n) && n.calls
          == [LogindCall(d, i.gate, i.afterQuiesce, i.eligibility, i.admission, i.last)]
  {
  }

  /** What issuing-low-power does for a suspend that nothing blocks. */
  predicate SuspendDoes(d: Data, visit: nat, i: IssueInput, n: Entered) {
    && (n.calls == [] || n.calls == [LogindCall(d, i.gate, i.afterQuiesce, i.eligibility, i.admission, i.last)])
    && (n.calls != [] <==> SuspendGoes(d, i))
    && (SuspendGoes(d, i) ==> SleepDoes(d, visit, i, n))
    && (!SuspendGoes(d, i) ==>
          n.sends == [if ReadsStandBy(d, i.announce) && i.quiesced && ReadsStandBy(d, i.afterQuiesce)
              && CalledOff(d, i.eligibility)
                      then CancelOf(d) else PowerRun])
    && (n.sends == [PowerRun] ==>
          && n.data == d.(modemDisabled := n.data.modemDisabled)
          && (i.announce.modemPushed && i.afterQuiesce.modemPushed && i.eligibility.modemPushed
              && i.awake.modemPushed ==>
                !n.data.modemDisabled))
  }

  lemma SuspendIssuesExactly(d: Data, e: Event, visit: nat, i: IssueInput)
    requires d.automatic || !Carries(e)
    ensures SuspendDoes(d, visit, i, IssueSuspend(d, e, visit, i))
  {
    CancelsExactly(d, e, i.eligibility);
    ClearExactly(d, i.announce);
    ClearExactly(d, i.afterQuiesce);
    SleepExactly(d, visit, i);
    OnlyModemBack(d, i.announce);
    OnlyModemBack(d, i.afterQuiesce);
    OnlyModemBack(d, i.eligibility);
    hide CancelsLowPower, CalledOff, ReadsStandBy, StandByNow, ClearToSuspend, SuspendNow, EnableModem;
  }

  /** What it does for a power-off or reboot that nothing blocks. */
  predicate PowerOffDoes(d: Data, i: IssueInput, n: Entered) {
    && n.data == d
    && if d.target != Reboot && CalledOff(d, i.last) then n.sends == [CancelOf(d)] && n.calls == []
       else && n.sends == [] && n.issue == (if i.issued then Committed else Refused)
            && n.calls == [LogindCall(d, i.gate, i.afterQuiesce, i.eligibility, None, i.last)]
  }

  lemma PowerOffIssuesExactly(d: Data, e: Event, i: IssueInput)
    requires d.automatic || !Carries(e)
    ensures PowerOffDoes(d, i, IssuePowerOff(d, e, i))
  {
    CancelsExactly(d, e, i.last);
    hide CancelsLowPower, CalledOff;
  }

  /** What a visit does once its first check has passed and its timer is settled. */
  predicate VisitDoes(d: Data, visit: nat, dryRun: bool, i: IssueInput, n: Entered) {
    if dryRun then n.calls == [] && n.data == d && n.sends == (if d.target == Suspend then [Wakeup(visit)] else [])
    else if d.target == Run then n == Entered(d, [], Unsupported, [])
    else if !NothingBlocks(i.gate.inhibitors, d.target)
      then n.calls == [] && n.data == d && n.sends == [LateBlockingInhibitor(visit)]
    else if d.target == Suspend then SuspendDoes(d, visit, i, n)
    else PowerOffDoes(d, i, n)
  }

  lemma VisitIssuesExactly(d: Data, e: Event, visit: nat, dryRun: bool, i: IssueInput)
    requires d.automatic || !Carries(e)
    ensures VisitDoes(d, visit, dryRun, i, Issuing(d, e, visit, dryRun, i))
  {
    BlocksExactly(i.gate.inhibitors, d.target);
    SuspendIssuesExactly(d, e, visit, i);
    PowerOffIssuesExactly(d, e, i);
    hide HasBlocking, HasOnlyModem, NothingBlocks, IssueSuspend, IssuePowerOff, SuspendDoes, PowerOffDoes;
  }

  lemma AckExactly(acks: seq<nat>, wanted: nat)
    requires wanted > 0
    ensures WakeTimerConfirmed(acks, wanted) <==> wanted in acks
  {
    if wanted in acks {
      var k :| 0 <= k < |acks| && acks[k] == wanted;
      assert Confirms(acks[k], wanted);
    }
  }

  /** An acknowledged timer changes nothing the conditions look at. */
  lemma ArmedAlike(d: Data, i: IssueInput)
    ensures var a := d.(armed := true, acked := d.wakeSeconds);
      && CancelOf(a) == CancelOf(d)
      && (SuspendGoes(a, i) <==> SuspendGoes(d, i)) && (CalledOff(a, i.last) <==> CalledOff(d, i.last))
  {
    hide ReservesRunOut;
  }

  /** What is left of `Goes` once the first check has passed and the timer is settled. */
  predicate VisitGoes(d: Data, dryRun: bool, i: IssueInput) {
    && !dryRun && d.target != Run && NothingBlocks(i.gate.inhibitors, d.target)
    && (d.target == Suspend ==> SuspendGoes(d, i))
    && (d.target != Suspend && d.target != Reboot ==> !CalledOff(d, i.last))
  }

  lemma VisitCallsExactly(d: Data, visit: nat, dryRun: bool, i: IssueInput, n: Entered)
    requires VisitDoes(d, visit, dryRun, i, n)
    ensures (n.calls != [] <==> VisitGoes(d, dryRun, i)) && |n.calls| <= 1
  {
    hide CalledOff, NothingBlocks, SuspendGoes;
  }

  /**
   A whole visit to issuing-low-power, which no command or report brings about: exactly when
   it hands logind its one command, and otherwise what it sends instead and what it leaves.
   */
  lemma EntryIssuesExactly(d: Data, e: Event, visit: nat, dryRun: bool, i: IssueInput)
    requires d.automatic || !Carries(e)
    ensures var n := EnterIssuingLowPower(d, e, visit, dryRun, i);
      && (n.calls != [] <==> Goes(d, dryRun, i)) && |n.calls| <= 1
      && (if CalledOff(d, i.first) then n.sends == [CancelOf(d)] && n.data == d
          else if NeedsTimer(d) && d.wakeSeconds !in i.acks
            then n.sends == [PowerRun] && n.data == d.(request := None, wakeSeconds := 0, armed := false)
          else VisitDoes(if NeedsTimer(d) then d.(armed := true, acked := d.wakeSeconds) else d, visit, dryRun, i, n))
  {
    CancelsExactly(d, e, i.first);
    if NeedsTimer(d) { AckExactly(i.acks, d.wakeSeconds); }
    ArmedAlike(d, i);
    var a := if NeedsTimer(d) then d.(armed := true, acked := d.wakeSeconds) else d;
    VisitIssuesExactly(a, e, visit, dryRun, i);
    VisitCallsExactly(a, visit, dryRun, i, Issuing(a, e, visit, dryRun, i));
    hide CancelsLowPower, CalledOff, WakeTimerConfirmed, Issuing, NothingBlocks, SuspendGoes, VisitDoes;
  }

  // ----- Waiting for inhibitors -----

  /**
   On entering the wait: called off, nothing to wait for, only the modem, which is told to
   stop, or something else.
   */
  lemma WaitExactly(d: Data, e: Event, live: Live)
    requires d.automatic || !Carries(e)
    ensures var n := EnterWaitingInhibitors(d, e, live); var free := NothingBlocks(live.inhibitors, d.target);
      && n.calls == []
      && n.sends == (if CalledOff(d, live) then [CancelOf(d)] else if free then [InhibitorsChanged] else [])
      && n.data == d.(modemDisabled := n.data.modemDisabled)
      && (n.data.modemDisabled <==>
            || d.modemDisabled
            || (&& !CalledOff(d, live) && !free && live.modemPushed
                && forall i | i in live.inhibitors && i.who != MODEM ::
                     i.kind == Delay || (i.kind == SuspendOnly && d.target != Run && d.target != Suspend)))
  {
    CancelsExactly(d, e, live);
    BlocksExactly(live.inhibitors, d.target);
    hide CancelsLowPower, CalledOff, HasBlocking, HasOnlyModem;
  }

  /**
   What entering any other state does: nothing, but that the countdown to a timed hibernation
   asks for its wake timer anew, so an earlier acknowledgement no longer counts.
   */
  lemma OtherEntriesExactly(s: State, d: Data, e: Event, visit: nat, dryRun: bool, live: Live, i: IssueInput)
    requires s != WaitingInhibitors && s != IssuingLowPower
    ensures var n := Enter(s, d, e, visit, dryRun, live, i);
      && n.sends == [] && n.calls == [] && n.issue == NotIssuing
      && n.data == (if s == LowPowerImminent && d.target == HibernateFor && d.wakeSeconds > 0
          then d.(armed := false) else d)
  {
  }

  // ----- What the actions leave -----

  /** Nothing but the fields a command, report or cancellation may touch. */
  predicate KeepsRest(d: Data, d': Data) {
    d'.acked == d.acked && d'.active0 == d.active0 && d'.active1 == d.active1
  }

  /** A request, its duration and its acknowledged timer are gone. */
  predicate RequestGone(d: Data) {
    d.request.None? && d.wakeSeconds == 0 && !d.armed
  }

  predicate SameRequest(d: Data, d': Data) {
    d'.request == d.request && d'.wakeSeconds == d.wakeSeconds && d'.armed == d.armed
  }

  predicate ProvenanceGone(d: Data) {
    !d.automatic && d.fallback.None?
  }

  predicate SameProvenance(d: Data, d': Data) {
    d'.automatic == d.automatic && d'.fallback == d.fallback
  }

  /** What a command of the program's own leaves. */
  predicate PlainLeaves(d: Data, c: Command, i: ActInput, a: Acted) {
    && a.sends == [] && a.data.target == c.target && a.data.vehicle == d.vehicle && a.data.request.None?
    && ProvenanceGone(a.data) && !a.data.armed
        && a.data.wakeSeconds == (if c.target == HibernateFor then c.seconds else 0)
    && (if c.target == Run then ModemBack(d, a.data, i.live) else a.data.modemDisabled == d.modemDisabled)
  }

  /** What a user's command leaves when it is turned away. */
  predicate RefusalLeaves(d: Data, a: Acted) {
    && a.sends == [] && a.data.target == Run && a.data.vehicle == d.vehicle && RequestGone(a.data)
    && SameProvenance(d, a.data) && a.data.modemDisabled == d.modemDisabled
  }

  /** What one leaves that is taken from vehicle state `from`: an open request, unless it could not be passed on. */
  predicate RequestLeaves(d: Data, c: Command, from: Vehicle, i: ActInput, a: Acted) {
    && ProvenanceGone(a.data) && a.data.vehicle == from && !a.data.armed
    && (c.target != Run ==> a.data.modemDisabled == d.modemDisabled)
    && if i.published && (from == StandBy || i.handedOn)
       then && a.data.target == c.target && a.data.request == Some(Request(i.requestId, c))
            && a.data.wakeSeconds == (if c.target == HibernateFor then c.seconds else 0)
            && a.sends == (if from == StandBy then [VehicleStateChanged(StandBy)] else [])
       else a.data.target == Run && RequestGone(a.data) && a.sends == []
  }

  lemma PlainLeavesExactly(d: Data, c: Command, i: ActInput)
    requires !c.explicit
    ensures var a := OnPowerCommand(d, c, i); KeepsRest(d, a.data) && PlainLeaves(d, c, i, a)
  {
  }

  lemma RefusalLeavesExactly(d: Data, c: Command, i: ActInput)
    requires c.explicit && ExplicitVehicle(c.target, i.live).None?
    ensures var a := OnPowerCommand(d, c, i); KeepsRest(d, a.data) && RefusalLeaves(d, a)
  {
    hide ExplicitVehicle;
  }

  lemma RequestLeavesExactly(d: Data, c: Command, i: ActInput)
    requires c.explicit && ExplicitVehicle(c.target, i.live).Some?
    ensures var a := OnPowerCommand(d, c, i);
      KeepsRest(d, a.data) && RequestLeaves(d, c, ExplicitVehicle(c.target, i.live).value, i, a)
  {
    hide ExplicitVehicle;
  }

  lemma CommandLeavesExactly(d: Data, c: Command, i: ActInput)
    ensures var a := OnPowerCommand(d, c, i); var from := ExplicitVehicle(c.target, i.live);
      && KeepsRest(d, a.data)
      && (if !c.explicit then PlainLeaves(d, c, i, a)
          else if from.None? then RefusalLeaves(d, a)
          else RequestLeaves(d, c, from.value, i, a))
  {
    hide ExplicitVehicle, OnPowerCommand, PlainLeaves, RefusalLeaves, RequestLeaves, KeepsRest;
    if !c.explicit { PlainLeavesExactly(d, c, i); }
    else if ExplicitVehicle(c.target, i.live).None? { RefusalLeavesExactly(d, c, i); }
    else { RequestLeavesExactly(d, c, i); }
  }

  /**
   An open request outlives a vehicle report exactly if the report is stand-by, or keeps a
   vehicle that is neither in stand-by nor shutting down short of ready-to-drive, or keeps it
   shutting down.
   */
  predicate RequestOutlives(old_: Vehicle, new_: Vehicle) {
    || new_ == StandBy
    || (new_ == ShuttingDown && old_ != StandBy)
    || (new_ != ReadyToDrive && old_ != StandBy && old_ != ShuttingDown)
  }

  /** A report leaves stand-by, or rides off. */
  predicate Departs(old_: Vehicle, new_: Vehicle) {
    new_ == ReadyToDrive || (old_ == StandBy && new_ != StandBy)
  }

  lemma InterruptedExactly(d: Data, v: Vehicle)
    ensures ShutdownInterrupted(d, v) <==> d.request.Some? && !RequestOutlives(d.vehicle, v)
  {
  }

  lemma ReportOnRequestExactly(d: Data, v: Vehicle, i: ActInput)
    ensures var d' := OnVehicleStateChanged(d, v, i);
      var ends := d.request.Some? && !RequestOutlives(d.vehicle, v);
      && d'.vehicle == v
      && (if ends then RequestGone(d') else SameRequest(d, d'))
      && d'.target == (if Departs(d.vehicle, v) then i.default_ else if ends then Run else d.target)
  {
    InterruptedExactly(d, v);
    var d1 := if ShutdownInterrupted(d, v) then ClearRequest(d).(target := Run, vehicle := v) else d.(vehicle := v);
    OnlyModemBack(ClearAutomatic(d1.(target := i.default_)), i.live);
    hide ShutdownInterrupted, RequestOutlives, EnableModem, ModemBack;
  }

  lemma ReportOnProvenanceExactly(d: Data, v: Vehicle, i: ActInput)
    ensures var d' := OnVehicleStateChanged(d, v, i);
      && KeepsRest(d, d')
      && (if Departs(d.vehicle, v) then ProvenanceGone(d') && ModemBack(d, d', i.live)
          else SameProvenance(d, d') && d'.modemDisabled == d.modemDisabled)
  {
    var d1 := if ShutdownInterrupted(d, v) then ClearRequest(d).(target := Run, vehicle := v) else d.(vehicle := v);
    OnlyModemBack(ClearAutomatic(d1.(target := i.default_)), i.live);
    hide ShutdownInterrupted, EnableModem;
  }

  /**
   What a vehicle report leaves: the request is gone exactly if it does not outlive the
   report; on departing, the target is the default, provenance is gone and the modem back.
   */
  lemma ReportLeavesExactly(d: Data, v: Vehicle, i: ActInput)
    ensures var d' := OnVehicleStateChanged(d, v, i);
      var ends := d.request.Some? && !RequestOutlives(d.vehicle, v);
      && d'.vehicle == v && KeepsRest(d, d')
      && (if ends then RequestGone(d') else SameRequest(d, d'))
      && d'.target == (if Departs(d.vehicle, v) then i.default_ else if ends then Run else d.target)
      && (if Departs(d.vehicle, v) then ProvenanceGone(d') && ModemBack(d, d', i.live)
          else SameProvenance(d, d') && d'.modemDisabled == d.modemDisabled)
  {
    ReportOnRequestExactly(d, v, i);
    ReportOnProvenanceExactly(d, v, i);
    hide OnVehicleStateChanged;
  }

  lemma LeavingLeavesExactly(d: Data, v: Vehicle, i: ActInput)
    ensures var d' := OnVehicleLeft(d, v, i);
      && d'.vehicle == v && d'.target == i.default_ && RequestGone(d') && ProvenanceGone(d') && ModemBack(d, d', i.live)
      && KeepsRest(d, d')
  {
  }

  /** A battery report sets its own slot; an active pack under a suspend brings the modem back. */
  lemma BatteryLeavesExactly(d: Data, slot: Slot, active: bool, i: ActInput)
    ensures var d' := OnBattery(d, slot, active, i);
      && d'.active0 == (if slot == Slot0 then active else d.active0)
          && d'.active1 == (if slot == Slot1 then active else d.active1)
      && d' == d.(active0 := d'.active0, active1 := d'.active1, modemDisabled := d'.modemDisabled)
      && (if d.target == Suspend && (d'.active0 || d'.active1) then ModemBack(d, d', i.live)
          else d'.modemDisabled == d.modemDisabled)
  {
  }

  /** Last-ditch hibernation takes over, remembering what it replaces unless it already did. */
  lemma DitchLeavesExactly(d: Data)
    ensures var d' := BeginLastDitch(d);
      && d'.automatic && d'.target == Hibernate && d'.wakeSeconds == 0 && !d'.armed
      && d'.fallback == (if d.automatic then d.fallback else Some(d.target))
      && KeepsRest(d, d') && d'.request == d.request && d'.vehicle == d.vehicle && d'.modemDisabled == d.modemDisabled
  {
  }

  /** Calling it off gives back what it replaced, or the default, and reports the vehicle as it is now. */
  lemma DitchCancelLeavesExactly(d: Data, i: ActInput)
    ensures var a := OnLastDitchDisabled(d, i);
      && a.data.target == (if d.fallback.Some? then d.fallback.value else i.default_)
      && a.data.wakeSeconds == 0 && !a.data.armed && ProvenanceGone(a.data) && ModemBack(d, a.data, i.live)
      && KeepsRest(d, a.data) && a.data.request == d.request && a.data.vehicle == d.vehicle
      && a.sends == [VehicleStateChanged(if i.live.vehicle.Some? then i.live.vehicle.value else d.vehicle)]
  {
  }

  /** A new default replaces the target and clears duration, timer and provenance. */
  lemma DefaultLeavesExactly(d: Data, t: Target)
    ensures var d' := OnDefaultStateChanged(d, t);
      && d'.target == t && d'.wakeSeconds == 0 && !d'.armed && ProvenanceGone(d')
      && KeepsRest(d, d') && d'.request == d.request && d'.vehicle == d.vehicle && d'.modemDisabled == d.modemDisabled
  {
  }

  /** A failed preparation ends the request it names, and only that one. */
  lemma FailureLeavesExactly(d: Data, request: Option<nat>)
    ensures var d' := OnPreparationFailed(d, request);
      if request.Some? && d.request.Some? && d.request.value.id == request.value
      then d' == d.(target := Run, request := None, wakeSeconds := 0, armed := false)
      else d' == d
  {
  }

  /** Which of these an action of the table does, on which event. */
  lemma ActionsExactly(d: Data, e: Event, i: ActInput)
    ensures Act(NoAction, d, e, i) == Act(Woke, d, e, i) == Acted(d, [])
    ensures CommandOf(e).Some? ==> Act(PowerCommand, d, e, i) == OnPowerCommand(d, CommandOf(e).value, i)
    ensures e.VehicleStateChanged? ==> Act(VehicleChanged, d, e, i) == Acted(OnVehicleStateChanged(d, e.vehicle, i), [])
    ensures var v := if e.VehicleStateChanged? then e.vehicle else d.vehicle;
      Act(VehicleLeft, d, e, i) == Acted(OnVehicleLeft(d, v, i), [])
    ensures e.BatteryBecameActive? ==> Act(BatteryChanged, d, e, i) == Acted(OnBattery(d, e.slot, true, i), [])
    ensures e.BatteryBecameInactive? ==> Act(BatteryChanged, d, e, i) == Acted(OnBattery(d, e.slot, false, i), [])
    ensures e.DefaultStateChanged? ==>
      && Act(LastDitchDefault, d, e, i) == Acted(d.(fallback := Some(e.default_)), [])
      && Act(DefaultChanged, d, e, i) == Acted(OnDefaultStateChanged(d, e.default_), [])
    ensures e.HibernatePreparationFailed? ==>
      Act(PreparationFailed, d, e, i) == Acted(OnPreparationFailed(d, e.request), [])
  {
    hide OnPowerCommand, OnVehicleStateChanged, OnVehicleLeft, OnBattery, OnLastDitchDisabled, OnDefaultStateChanged,
      OnPreparationFailed, BeginLastDitch;
  }

  /** The same for taking over, calling off and the modem. */
  lemma CancellingActionsExactly(d: Data, e: Event, i: ActInput)
    ensures Act(LastDitchBegins, d, e, i) == Act(LastDitchWake, d, e, i) == Acted(BeginLastDitch(d), [])
    ensures Act(LastDitchCancelled, d, e, i) == OnLastDitchDisabled(d, i)
    ensures d.automatic ==> Act(LowPowerCancelled, d, e, i) == OnLastDitchDisabled(d, i)
    ensures !d.automatic ==>
      && Act(LowPowerCancelled, d, e, i).sends == []
      && var d' := Act(LowPowerCancelled, d, e, i).data;
         d' == d.(modemDisabled := d'.modemDisabled) && ModemBack(d, d', i.live)
    ensures var a := Act(DisableModem, d, e, i);
      && a.sends == [] && a.data == d.(modemDisabled := a.data.modemDisabled)
      && (a.data.modemDisabled <==> d.modemDisabled || i.live.modemPushed)
  {
    hide OnPowerCommand, OnVehicleStateChanged, OnVehicleLeft, OnBattery, OnLastDitchDisabled, OnDefaultStateChanged,
      OnPreparationFailed, BeginLastDitch;
  }
}
