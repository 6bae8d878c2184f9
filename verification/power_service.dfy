/**
 The power manager's service object: its actions and entry actions as statements that
 update its fields, each proved equal to the function on the data it stands for.
 What the environment answers (readings, publications, logind) is a parameter.
 */
module PowerService {
  import opened Options
  import opened PowerTypes
  import opened Inhibitors
  import opened PowerPolicy
  import opened PowerTable
  import opened PowerMachine

  class Service {
    var request: Option<Request>
    var target: Target
    var vehicle: Vehicle
    var active0: bool
    var active1: bool
    var modemDisabled: bool
    var wakeSeconds: nat
    var automatic: bool
    var fallback: Option<Target>
    var armed: bool
    /** The duration the latched acknowledgement echoed; kept for the proofs only. */
    var acked: nat
    /** Events sent to the state machine. */
    var sent: seq<Event>
    /** Commands handed to logind, with what they rested on. */
    var calls: seq<Call>

    constructor (default_: Target, reported: Vehicle)
      ensures View() == Data(None, default_, reported, false, false, false, 0, false, None, false, 0)
      ensures sent == [] && calls == []
    {
      request, target, vehicle := None, default_, reported;
      active0, active1, modemDisabled := false, false, false;
      wakeSeconds, automatic, fallback, armed, acked := 0, false, None, false, 0;
      sent, calls := [], [];
    }

    function View(): Data
      reads this
    {
      Data(request, target, vehicle, active0, active1, modemDisabled, wakeSeconds, automatic, fallback, armed, acked)
    }

    /** The action in progress has turned `d` into `a` and done nothing else. */
    twostate predicate Did(a: Acted)
      reads this
    {
      View() == a.data && sent == old(sent) + a.sends && calls == old(calls)
    }

    twostate predicate Quietly(d: Data)
      reads this
    {
      View() == d && sent == old(sent) && calls == old(calls)
    }

    // ----- Pieces -----

    method TurnModemOn(live: Live)
      modifies this
      ensures Quietly(EnableModem(old(View()), live))
    {
      if !modemDisabled { return; }
      if !live.modemPushed { return; }
      modemDisabled := false;
    }

    method TurnModemOff(live: Live)
      modifies this
      ensures Quietly(DisabledModem(old(View()), live))
    {
      if modemDisabled { return; }
      if !live.modemPushed { return; }
      modemDisabled := true;
    }

    method ClearHibernateRequest()
      modifies this
      ensures Quietly(ClearRequest(old(View())))
    {
      if request.Some? { request := None; }
      wakeSeconds := 0;
      armed := false;
    }

    method ClearAutomaticLastDitch()
      modifies this
      ensures Quietly(ClearAutomatic(old(View())))
    {
      automatic := false;
      fallback := None;
    }

    method BeginAutomaticLastDitch()
      modifies this
      ensures Quietly(BeginLastDitch(old(View())))
    {
      if !automatic { fallback := Some(target); }
      automatic := true;
      target := Hibernate;
      wakeSeconds := 0;
      armed := false;
    }

    // ----- Transition actions -----

    /** Publishes the request and asks the vehicle to prepare, unless it is in stand-by already. */
    method PrepareExplicitHibernate(c: Command, state: Vehicle, i: ActInput) returns (ok: bool)
      modifies this
      ensures Quietly(old(View()).(request := Some(Request(i.requestId, c))))
      ensures ok <==> i.published && (state == StandBy || i.handedOn)
    {
      request := Some(Request(i.requestId, c));
      if !i.published { return false; }
      if state == StandBy { return true; }
      return i.handedOn;
    }

    /** Records a new target; whatever was requested before is over. */
    method Retarget(c: Command, i: ActInput)
      modifies this
      ensures Quietly(Retargeted(old(View()), c, i))
    {
      ClearHibernateRequest();
      target := c.target;
      ClearAutomaticLastDitch();
      if c.target == Run { TurnModemOn(i.live); }
      wakeSeconds := if c.target == HibernateFor then c.seconds else 0;
      armed := false;
    }

    method GiveUpRequest()
      modifies this
      ensures Quietly(ClearRequest(old(View())).(target := Run))
    {
      ClearHibernateRequest();
      target := Run;
    }

    method RunPowerCommand(c: Command, i: ActInput)
      modifies this
      ensures Did(OnPowerCommand(old(View()), c, i))
    {
      hide ExplicitVehicle, Retargeted;
      var state := StandBy;
      if c.explicit {
        var from := ExplicitVehicle(c.target, i.live);
        if from.None? {
          GiveUpRequest();
          return;
        }
        state := from.value;
      }
      Retarget(c, i);
      if c.explicit {
        vehicle := state;
        var ok := PrepareExplicitHibernate(c, state, i);
        if !ok {
          GiveUpRequest();
          return;
        }
        if state == StandBy { sent := sent + [VehicleStateChanged(state)]; }
      }
    }

    method TakeVehicleReport(v: Vehicle, i: ActInput)
      modifies this
      ensures Quietly(OnVehicleStateChanged(old(View()), v, i))
    {
      hide EnableModem;
      var oldState := vehicle;
      vehicle := v;
      if v != StandBy && request.Some?
         && (v == ReadyToDrive || oldState == StandBy || (oldState == ShuttingDown && v != ShuttingDown)) {
        GiveUpRequest();
      }
      if (oldState == StandBy && v != StandBy) || v == ReadyToDrive {
        target := i.default_;
        ClearAutomaticLastDitch();
        TurnModemOn(i.live);
      }
    }

    method LeaveLowPower(v: Vehicle, i: ActInput)
      modifies this
      ensures Quietly(OnVehicleLeft(old(View()), v, i))
    {
      ClearHibernateRequest();
      vehicle := v;
      target := i.default_;
      ClearAutomaticLastDitch();
      TurnModemOn(i.live);
    }

    method TakeBatteryReport(slot: Slot, active: bool, i: ActInput)
      modifies this
      ensures Quietly(OnBattery(old(View()), slot, active, i))
    {
      match slot {
        case Slot0 => active0 := active;
        case Slot1 => active1 := active;
      }
      if target == Suspend && (active0 || active1) { TurnModemOn(i.live); }
    }

    method CancelLastDitch(i: ActInput)
      modifies this
      ensures Did(OnLastDitchDisabled(old(View()), i))
    {
      target := if fallback.Some? then fallback.value else i.default_;
      wakeSeconds := 0;
      armed := false;
      ClearAutomaticLastDitch();
      TurnModemOn(i.live);
      var state := vehicle;
      if i.live.vehicle.Some? { state := i.live.vehicle.value; }
      sent := sent + [VehicleStateChanged(state)];
    }

    method CancelLowPower(i: ActInput)
      modifies this
      ensures old(automatic) ==> Did(OnLastDitchDisabled(old(View()), i))
      ensures !old(automatic) ==> Quietly(EnableModem(old(View()), i.live))
    {
      if automatic {
        CancelLastDitch(i);
        return;
      }
      TurnModemOn(i.live);
    }

    method TakeDefaultState(t: Target)
      modifies this
      ensures Quietly(OnDefaultStateChanged(old(View()), t))
    {
      target := t;
      ClearAutomaticLastDitch();
      wakeSeconds := 0;
      armed := false;
    }

    method TakeLastDitchDefault(t: Target)
      modifies this
      ensures Quietly(old(View()).(fallback := Some(t)))
    {
      fallback := Some(t);
    }

    method FailPreparation(id: Option<nat>)
      modifies this
      ensures Quietly(OnPreparationFailed(old(View()), id))
    {
      if id.None? || request.None? || id.value != request.value.id { return; }
      GiveUpRequest();
    }

    // ----- Entry actions -----

    twostate predicate EnteredAs(n: Entered)
      reads this
    {
      View() == n.data && sent == old(sent) + n.sends && calls == old(calls) + n.calls
    }

    /** Consumes echoes until one confirms the requested duration; false once they run out. */
    method WaitForWakeTimer(acks: seq<nat>) returns (ok: bool)
      ensures ok <==> WakeTimerConfirmed(acks, wakeSeconds)
    {
      var k := 0;
      while k < |acks|
        invariant 0 <= k <= |acks|
        invariant forall j | 0 <= j < k :: !Confirms(acks[j], wakeSeconds)
      {
        var seconds := acks[k];
        if seconds > 0 && seconds == wakeSeconds {
          assert Confirms(acks[k], wakeSeconds);
          return true;
        }
        k := k + 1;
      }
      return false;
    }

    /** Aborts an entry that is no longer eligible. */
    method CancelIneligible(e: Event, live: Live) returns (cancelled: bool)
      modifies this
      ensures cancelled <==> CancelsLowPower(old(View()), e, live)
      ensures Did(Acted(old(View()), if cancelled then [CancelEvent(old(View()))] else []))
    {
      if !CancelsLowPower(View(), e, live) { return false; }
      if automatic { sent := sent + [LastDitchDisabled]; } else { sent := sent + [SuspendCancelled]; }
      return true;
    }

    method EnterLowPower()
      modifies this
      ensures Quietly(EnterLowPowerImminent(old(View())))
    {
      if target == HibernateFor && wakeSeconds > 0 { armed := false; }
    }

    method EnterWaiting(e: Event, live: Live)
      modifies this
      ensures EnteredAs(EnterWaitingInhibitors(old(View()), e, live))
    {
      var cancelled := CancelIneligible(e, live);
      if cancelled { return; }
      if !HasBlocking(live.inhibitors, target) {
        sent := sent + [InhibitorsChanged];
      } else if HasOnlyModem(live.inhibitors, target) {
        TurnModemOff(live);
      }
    }

    /** What follows a completed sleep: the battery view is re-read and the wake is sent. */
    method WakeUp(visit: nat, i: IssueInput) returns (issue: PowerMachine.Issue)
      modifies this
      ensures View() == Resynced(old(View()), i.awake) && calls == old(calls)
      ensures issue == Awaiting(if i.wokenByRtc then WakeupRtc(visit) else Wakeup(visit))
      ensures sent == old(sent) + [issue.event]
    {
      modemDisabled := false;
      if i.awake.active0.Some? { active0 := i.awake.active0.value; }
      if i.awake.active1.Some? { active1 := i.awake.active1.value; }
      var e := if i.wokenByRtc then WakeupRtc(visit) else Wakeup(visit);
      sent := sent + [e];
      return Awaiting(e);
    }

    method SendAndAwait(e: Event) returns (issue: PowerMachine.Issue)
      modifies this`sent
      ensures sent == old(sent) + [e] && issue == Awaiting(e)
    {
      sent := sent + [e];
      return Awaiting(e);
    }

    /** Gives the modem back and returns to running. */
    method AbortSuspend(live: Live) returns (issue: PowerMachine.Issue)
      modifies this
      ensures View() == EnableModem(old(View()), live) && calls == old(calls)
      ensures sent == old(sent) + [PowerRun] && issue == Awaiting(PowerRun)
    {
      TurnModemOn(live);
      issue := SendAndAwait(PowerRun);
    }

    method CommitSuspend(e: Event, visit: nat, i: IssueInput) returns (issue: PowerMachine.Issue)
      modifies this
      ensures EnteredAs(IssueSuspend(old(View()), e, visit, i))
      ensures issue == IssueSuspend(old(View()), e, visit, i).issue
    {
      if !StandByNow(View(), i.announce) {
        issue := AbortSuspend(i.announce);
        return;
      }
      if !i.quiesced {
        issue := AbortSuspend(i.announce);
        return;
      }
      if !StandByNow(View(), i.afterQuiesce) {
        issue := AbortSuspend(i.afterQuiesce);
        return;
      }
      var d := View();
      var cancelled := CancelIneligible(e, i.eligibility);
      if cancelled { return Awaiting(sent[|sent| - 1]); }
      if i.admission.None? {
        issue := AbortSuspend(i.eligibility);
        return;
      }
      calls := calls + [LogindCall(d, i.gate, i.afterQuiesce, i.eligibility, i.admission, i.last)];
      match i.sleep {
        case ServiceStopping => return Stopping;
        case DidNotSleep => issue := AbortSuspend(i.awake);
        case Slept => issue := WakeUp(visit, i);
      }
    }

    method CommitPowerOff(e: Event, i: IssueInput) returns (issue: PowerMachine.Issue)
      modifies this
      ensures EnteredAs(IssuePowerOff(old(View()), e, i))
      ensures issue == IssuePowerOff(old(View()), e, i).issue
    {
      if target != Reboot {
        var cancelled := CancelIneligible(e, i.last);
        if cancelled { return Awaiting(sent[|sent| - 1]); }
      }
      calls := calls + [LogindCall(View(), i.gate, i.afterQuiesce, i.eligibility, None, i.last)];
      return if i.issued then Committed else Refused;
    }

    method Issue(e: Event, visit: nat, dryRun: bool, i: IssueInput) returns (issue: PowerMachine.Issue)
      modifies this
      ensures EnteredAs(Issuing(old(View()), e, visit, dryRun, i))
      ensures issue == Issuing(old(View()), e, visit, dryRun, i).issue
    {
      if dryRun {
        if target == Suspend { issue := SendAndAwait(Wakeup(visit)); } else { issue := DryRun; }
        return;
      }
      if target == Run { return Unsupported; }
      if HasBlocking(i.gate.inhibitors, target) {
        issue := SendAndAwait(LateBlockingInhibitor(visit));
        return;
      }
      if target == Suspend {
        issue := CommitSuspend(e, visit, i);
      } else {
        issue := CommitPowerOff(e, i);
      }
    }

    method EnterIssuing(e: Event, visit: nat, dryRun: bool, i: IssueInput) returns (issue: PowerMachine.Issue)
      modifies this
      ensures EnteredAs(EnterIssuingLowPower(old(View()), e, visit, dryRun, i))
      ensures issue == EnterIssuingLowPower(old(View()), e, visit, dryRun, i).issue
    {
      hide CancelsLowPower, Issuing, WakeTimerConfirmed;
      var cancelled := CancelIneligible(e, i.first);
      if cancelled { return Awaiting(sent[|sent| - 1]); }
      if target == HibernateFor && wakeSeconds > 0 && !armed {
        var ok := WaitForWakeTimer(i.acks);
        if !ok {
          ClearHibernateRequest();
          issue := SendAndAwait(PowerRun);
          return;
        }
        armed, acked := true, wakeSeconds;
      }
      issue := Issue(e, visit, dryRun, i);
    }

    // ----- Dispatch -----

    /** The action of a transition. */
    method Perform(a: Action, e: Event, i: ActInput)
      modifies this
      ensures Did(Act(a, old(View()), e, i))
    {
      hide OnPowerCommand, OnVehicleStateChanged, OnVehicleLeft, OnBattery, OnLastDitchDisabled, OnDefaultStateChanged;
      hide OnPreparationFailed, PowerMachine.BeginLastDitch, EnableModem, DisabledModem;
      match a {
        case NoAction =>
        case PowerCommand =>
          var c := CommandOf(e);
          if c.Some? { RunPowerCommand(c.value, i); }
        case VehicleChanged => if e.VehicleStateChanged? { TakeVehicleReport(e.vehicle, i); }
        case VehicleLeft => LeaveLowPower(if e.VehicleStateChanged? then e.vehicle else vehicle, i);
        case BatteryChanged =>
          if e.BatteryBecameActive? {
            TakeBatteryReport(e.slot, true, i);
          } else if e.BatteryBecameInactive? {
            TakeBatteryReport(e.slot, false, i);
          }
        case Woke =>
        case LastDitchBegins => BeginAutomaticLastDitch();
        case LastDitchWake => BeginAutomaticLastDitch();
        case LastDitchCancelled => CancelLastDitch(i);
        case LastDitchDefault => if e.DefaultStateChanged? { TakeLastDitchDefault(e.default_); }
        case DefaultChanged => if e.DefaultStateChanged? { TakeDefaultState(e.default_); }
        case PreparationFailed => if e.HibernatePreparationFailed? { FailPreparation(e.request); }
        case LowPowerCancelled => CancelLowPower(i);
        case DisableModem => TurnModemOff(i.live);
      }
    }

    /** The entry action of a state. */
    method EnterState(s: State, e: Event, visit: nat, dryRun: bool, live: Live, i: IssueInput)
      returns (issue: PowerMachine.Issue)
      modifies this
      ensures EnteredAs(Enter(s, old(View()), e, visit, dryRun, live, i))
      ensures issue == Enter(s, old(View()), e, visit, dryRun, live, i).issue
    {
      hide EnterIssuingLowPower, EnterWaitingInhibitors, EnterLowPowerImminent;
      WaitsForNothing(old(View()), e, live);
      issue := NotIssuing;
      match s {
        case LowPowerImminent => EnterLowPower();
        case WaitingInhibitors => EnterWaiting(e, live);
        case IssuingLowPower => issue := EnterIssuing(e, visit, dryRun, i);
        case _ =>
      }
    }
  }

  lemma WaitsForNothing(d: Data, e: Event, live: Live)
    ensures EnterWaitingInhibitors(d, e, live).issue == NotIssuing
  {
  }
}
