/**
 The power manager's transition actions and entry actions as functions on its
 data, and one turn of the state machine: take the first event of the FIFO queue,
 choose a row, run its action, enter its target state.

 Assumed of the state-machine library: rows are tried in order, events that match
 no row are dropped, a self-transition re-enters its state, and a state's timeout
 does not act once that visit is over.
 */
module PowerMachine {
  import opened Options
  import opened PowerTypes
  import opened Inhibitors
  import opened PowerPolicy
  import opened PowerTable

  // ----- Pieces of the actions -----

  function EnableModem(d: Data, live: Live): Data {
    if d.modemDisabled && live.modemPushed then d.(modemDisabled := false) else d
  }

  function DisabledModem(d: Data, live: Live): Data {
    if !d.modemDisabled && live.modemPushed then d.(modemDisabled := true) else d
  }

  function ClearRequest(d: Data): Data {
    d.(request := None, wakeSeconds := 0, armed := false)
  }

  function ClearAutomatic(d: Data): Data {
    d.(automatic := false, fallback := None)
  }

  function BeginLastDitch(d: Data): Data {
    d.(fallback := if d.automatic then d.fallback else Some(d.target),
       automatic := true, target := Hibernate, wakeSeconds := 0, armed := false)
  }

  // ----- Transition actions -----

  /** What an action leaves: the data and the events it sends. */
  datatype Acted = Acted(data: Data, sends: seq<Event>)

  /**
   What the environment answers to an action: its reading, the configured default
   target, a fresh request id, and whether the request could be published and handed on.
   */
  datatype ActInput = ActInput(live: Live, default_: Target, requestId: nat, published: bool, handedOn: bool)

  /** The target a command sets; any earlier request, provenance and latched acknowledgement end with it. */
  function Retargeted(d: Data, c: Command, i: ActInput): Data {
    var d1 := ClearAutomatic(ClearRequest(d).(target := c.target));
    var d2 := if c.target == Run then EnableModem(d1, i.live) else d1;
    d2.(wakeSeconds := if c.target == HibernateFor then c.seconds else 0, armed := false)
  }

  function OnPowerCommand(d: Data, c: Command, i: ActInput): Acted {
    var from := if c.explicit then ExplicitVehicle(c.target, i.live) else None;
    if c.explicit && from.None? then Acted(ClearRequest(d).(target := Run), [])
    else
      var d1 := Retargeted(d, c, i);
      if !c.explicit then Acted(d1, [])
      else
        var d2 := d1.(vehicle := from.value, request := Some(Request(i.requestId, c)));
        if !i.published || (from.value != StandBy && !i.handedOn) then Acted(ClearRequest(d2).(target := Run), [])
        else Acted(d2, if from.value == StandBy then [VehicleStateChanged(StandBy)] else [])
  }

  predicate ShutdownInterrupted(d: Data, v: Vehicle) {
    && d.request.Some?
    && v != StandBy
    && (v == ReadyToDrive || d.vehicle == StandBy || (d.vehicle == ShuttingDown && v != ShuttingDown))
  }

  function OnVehicleStateChanged(d: Data, v: Vehicle, i: ActInput): Data {
    var d1 := if ShutdownInterrupted(d, v) then ClearRequest(d).(target := Run, vehicle := v) else d.(vehicle := v);
    if (d.vehicle == StandBy && v != StandBy) || v == ReadyToDrive
    then EnableModem(ClearAutomatic(d1.(target := i.default_)), i.live)
    else d1
  }

  function OnVehicleLeft(d: Data, v: Vehicle, i: ActInput): Data {
    EnableModem(ClearAutomatic(ClearRequest(d).(vehicle := v, target := i.default_)), i.live)
  }

  function OnBattery(d: Data, slot: Slot, active: bool, i: ActInput): Data {
    var d1 := if slot == Slot0 then d.(active0 := active) else d.(active1 := active);
    if d1.target == Suspend && (d1.active0 || d1.active1) then EnableModem(d1, i.live) else d1
  }

  function OnLastDitchDisabled(d: Data, i: ActInput): Acted {
    var d1 := d.(target := Or(d.fallback, i.default_), wakeSeconds := 0, armed := false);
    Acted(EnableModem(ClearAutomatic(d1), i.live), [VehicleStateChanged(Or(i.live.vehicle, d.vehicle))])
  }

  function OnDefaultStateChanged(d: Data, t: Target): Data {
    ClearAutomatic(d).(target := t, wakeSeconds := 0, armed := false)
  }

  function OnPreparationFailed(d: Data, request: Option<nat>): Data {
    if request.Some? && d.request.Some? && request.value == d.request.value.id then ClearRequest(d).(target := Run) else d
  }

  function Act(a: Action, d: Data, e: Event, i: ActInput): Acted {
    match a
    case NoAction => Acted(d, [])
    case PowerCommand => if CommandOf(e).Some? then OnPowerCommand(d, CommandOf(e).value, i) else Acted(d, [])
    case VehicleChanged => Acted(if e.VehicleStateChanged? then OnVehicleStateChanged(d, e.vehicle, i) else d, [])
    case VehicleLeft => Acted(OnVehicleLeft(d, VehicleOf(d, e), i), [])
    case BatteryChanged =>
      Acted(if e.BatteryBecameActive? then OnBattery(d, e.slot, true, i)
            else if e.BatteryBecameInactive? then OnBattery(d, e.slot, false, i) else d, [])
    case Woke => Acted(d, [])
    case LastDitchBegins => Acted(BeginLastDitch(d), [])
    case LastDitchWake => Acted(BeginLastDitch(d), [])
    case LastDitchCancelled => OnLastDitchDisabled(d, i)
    case LastDitchDefault => Acted(if e.DefaultStateChanged? then d.(fallback := Some(e.default_)) else d, [])
    case DefaultChanged => Acted(if e.DefaultStateChanged? then OnDefaultStateChanged(d, e.default_) else d, [])
    case PreparationFailed =>
      Acted(if e.HibernatePreparationFailed? then OnPreparationFailed(d, e.request) else d, [])
    case LowPowerCancelled =>
      if d.automatic then OnLastDitchDisabled(d, i) else Acted(EnableModem(d, i.live), [])
    case DisableModem => Acted(DisabledModem(d, i.live), [])
  }

  // ----- Entering issuing-low-power -----

  /** A prepared coordinator: the identity the suspend is admitted under. */
  datatype Admission = Admission(bootId: string, generation: nat)

  datatype SleepResult = Slept | DidNotSleep | ServiceStopping

  /** Everything entering issuing-low-power waits for or re-reads, in order. */
  datatype IssueInput = IssueInput(
    first: Live,                    // eligibility on entry
    acks: seq<nat>,                 // wake-timer echoes arriving before the timeout
    gate: Live,                     // inhibitors, re-checked
    announce: Live,                 // vehicle before announcing
    quiesced: bool,                 // the nRF was told in time
    afterQuiesce: Live,             // vehicle after the wait
    eligibility: Live,              // eligibility after the wait
    admission: Option<Admission>,   // the coordinator's answer
    sleep: SleepResult,
    wokenByRtc: bool,
    awake: Live,                    // battery state re-read on wake
    last: Live,                     // eligibility right before power-off
    issued: bool)                   // logind accepted the power-off or reboot

  /** A command handed to logind, with the readings it rested on. */
  datatype Call = LogindCall(data: Data, gate: Live, afterQuiesce: Live, eligibility: Live,
                                 admission: Option<Admission>, last: Live)

  /** Where a visit to issuing-low-power stands once its entry action is done. */
  datatype Issue =
    | NotIssuing
    | Awaiting(event: Event)   // aborted or woken: this event was sent
    | Committed                // power-off or reboot accepted
    | DryRun
    | Refused                  // logind returned an error
    | Unsupported              // the target is run
    | Stopping

  datatype Entered = Entered(data: Data, sends: seq<Event>, issue: Issue, calls: seq<Call>)

  /** The first echo that confirms the requested duration. */
  predicate Confirms(ack: nat, wanted: nat) {
    ack > 0 && ack == wanted
  }

  predicate WakeTimerConfirmed(acks: seq<nat>, wanted: nat) {
    exists k | 0 <= k < |acks| :: Confirms(acks[k], wanted)
  }

  function Sent(d: Data, e: Event): Entered {
    Entered(d, [e], Awaiting(e), [])
  }

  function CancelEvent(d: Data): Event {
    if d.automatic then LastDitchDisabled else SuspendCancelled
  }

  /** The battery view re-seeded on wake; unreadable fields keep their value. */
  function Resynced(d: Data, live: Live): Data {
    d.(active0 := Or(live.active0, d.active0), active1 := Or(live.active1, d.active1), modemDisabled := false)
  }

  function SuspendNow(d: Data, visit: nat, i: IssueInput): Entered {
    var call := LogindCall(d, i.gate, i.afterQuiesce, i.eligibility, i.admission, i.last);
    match i.sleep
    case Slept =>
      var e := if i.wokenByRtc then WakeupRtc(visit) else Wakeup(visit);
      Entered(Resynced(d, i.awake), [e], Awaiting(e), [call])
    case DidNotSleep => Entered(EnableModem(d, i.awake), [PowerRun], Awaiting(PowerRun), [call])
    case ServiceStopping => Entered(d, [], Stopping, [call])
  }

  function IssueSuspend(d: Data, e: Event, visit: nat, i: IssueInput): Entered {
    if !StandByNow(d, i.announce) then Sent(EnableModem(d, i.announce), PowerRun)
    else if !i.quiesced then Sent(EnableModem(d, i.announce), PowerRun)
    else if !StandByNow(d, i.afterQuiesce) then Sent(EnableModem(d, i.afterQuiesce), PowerRun)
    else if CancelsLowPower(d, e, i.eligibility) then Sent(d, CancelEvent(d))
    else if i.admission.None? then Sent(EnableModem(d, i.eligibility), PowerRun)
    else SuspendNow(d, visit, i)
  }

  function IssuePowerOff(d: Data, e: Event, i: IssueInput): Entered {
    if d.target != Reboot && CancelsLowPower(d, e, i.last) then Sent(d, CancelEvent(d))
    else
      Entered(d, [], if i.issued then Committed else Refused,
              [LogindCall(d, i.gate, i.afterQuiesce, i.eligibility, None, i.last)])
  }

  function Issuing(d: Data, e: Event, visit: nat, dryRun: bool, i: IssueInput): Entered {
    if dryRun then
      if d.target == Suspend then Sent(d, Wakeup(visit)) else Entered(d, [], DryRun, [])
    else if d.target == Run then Entered(d, [], Unsupported, [])
    else if HasBlocking(i.gate.inhibitors, d.target) then Sent(d, LateBlockingInhibitor(visit))
    else if d.target == Suspend then IssueSuspend(d, e, visit, i)
    else IssuePowerOff(d, e, i)
  }

  function EnterIssuingLowPower(d: Data, e: Event, visit: nat, dryRun: bool, i: IssueInput): Entered {
    if CancelsLowPower(d, e, i.first) then Sent(d, CancelEvent(d))
    else if d.target == HibernateFor && d.wakeSeconds > 0 && !d.armed then
      if WakeTimerConfirmed(i.acks, d.wakeSeconds)
      then Issuing(d.(armed := true, acked := d.wakeSeconds), e, visit, dryRun, i)
      else Sent(ClearRequest(d), PowerRun)
    else Issuing(d, e, visit, dryRun, i)
  }

  // ----- The other entry actions -----

  function EnterLowPowerImminent(d: Data): Data {
    if d.target == HibernateFor && d.wakeSeconds > 0 then d.(armed := false) else d
  }

  function EnterWaitingInhibitors(d: Data, e: Event, live: Live): Entered {
    if CancelsLowPower(d, e, live) then Entered(d, [CancelEvent(d)], NotIssuing, [])
    else if !HasBlocking(live.inhibitors, d.target) then Entered(d, [InhibitorsChanged], NotIssuing, [])
    else if HasOnlyModem(live.inhibitors, d.target) then Entered(DisabledModem(d, live), [], NotIssuing, [])
    else Entered(d, [], NotIssuing, [])
  }

  function Enter(s: State, d: Data, e: Event, visit: nat, dryRun: bool, live: Live, i: IssueInput): Entered {
    match s
    case LowPowerImminent => Entered(EnterLowPowerImminent(d), [], NotIssuing, [])
    case WaitingInhibitors => EnterWaitingInhibitors(d, e, live)
    case IssuingLowPower => EnterIssuingLowPower(d, e, visit, dryRun, i)
    case _ => Entered(d, [], NotIssuing, [])
  }

  // ----- One turn -----

  /** The whole machine between two turns. */
  datatype Machine = Machine(
    state: State,
    visit: nat,
    data: Data,
    issue: Issue,
    queue: seq<Event>,
    default_: Target,
    dryRun: bool,
    calls: seq<Call>)

  /** What the environment contributes to one turn. `arrivals` are queued while the entry action runs. */
  datatype Turn = Turn(
    read: Readings, actLive: Live, requestId: nat, published: bool, handedOn: bool,
    entryLive: Live, issueInput: IssueInput, arrivals: seq<Event>)

  function TimerVisit(e: Event): Option<nat> {
    match e
    case PreSuspendTimeout(v) => Some(v)
    case SuspendImminentTimeout(v) => Some(v)
    case InhibitorWaitTimeout(v) => Some(v)
    case _ => None
  }

  predicate StaleTimer(m: Machine, e: Event) {
    TimerVisit(e).Some? && TimerVisit(e).value != m.visit
  }

  /** The row a turn takes, if any. */
  function Chosen(m: Machine, t: Turn): Option<Row>
    requires m.queue != []
  {
    var e := m.queue[0];
    if StaleTimer(m, e) then None
    else
      var rows := Rows(m.state, e);
      var c := Choose(rows, 0, m.data, e, t.read);
      if c.None? then None else Some(rows[c.value])
  }

  function Follow(m: Machine, row: Row, t: Turn): Machine
    requires m.queue != []
  {
    var e := m.queue[0];
    var a := Act(row.action, m.data, e, ActInput(t.actLive, m.default_, t.requestId, t.published, t.handedOn));
    var n := Enter(row.to, a.data, e, m.visit + 1, m.dryRun, t.entryLive, t.issueInput);
    m.(state := row.to, visit := m.visit + 1, data := n.data, issue := n.issue,
       queue := m.queue[1..] + a.sends + t.arrivals + n.sends,
       calls := m.calls + n.calls)
  }

  function TakeTurn(m: Machine, t: Turn): Machine {
    if m.queue == [] then m
    else
      var row := Chosen(m, t);
      if row.None? then m.(queue := m.queue[1..]) else Follow(m, row.value, t)
  }
}
