/**
 What the state machine achieves when nothing stands in its way: a timed hibernation
 reaches logind with its own duration, a suspend sleeps and starts over on waking, and a
 last-ditch hibernation that is called off gives its target back.
 */
module PowerProgress {
  import opened Options
  import opened PowerTypes
  import opened Inhibitors
  import opened PowerPolicy
  import opened PowerTable
  import opened PowerMachine
  import opened PowerInvariant

  /** The first enabled row, given that those before it are not. */
  lemma ChoosesRow(m: Machine, t: Turn, k: nat)
    requires m.queue != [] && !StaleTimer(m, m.queue[0]) && k < |Rows(m.state, m.queue[0])|
    requires Enabled(Rows(m.state, m.queue[0]), k, m.data, m.queue[0], t.read)
    requires forall j | 0 <= j < k :: !Enabled(Rows(m.state, m.queue[0]), j, m.data, m.queue[0], t.read)
    ensures Chosen(m, t) == Some(Rows(m.state, m.queue[0])[k])
  {
    hide Rows, Enabled;
  }

  // ----- Timed hibernation -----

  predicate HoldsTimed(d: Data, seconds: nat) {
    d.target == HibernateFor && d.wakeSeconds == seconds && !d.automatic && !d.armed
  }

  predicate Heads(m: Machine, e: Event) {
    m.queue != [] && m.queue[0] == e
  }

  /** A user's request in stand-by is recorded, and the vehicle state queued to start it. */
  lemma RequestIsTaken(m: Machine, seconds: nat, t: Turn)
    requires m.state == Running && Heads(m, ExplicitHibernate(HibernateFor, seconds))
    requires MayReplace(HibernateFor, m.data.target) && t.published
    requires t.read(0, 1).vehicle == t.actLive.vehicle == Some(StandBy)
    ensures var n := TakeTurn(m, t);
      && n.state == Running && n.visit == m.visit + 1 && HoldsTimed(n.data, seconds)
      && n.data.request == Some(Request(t.requestId, Command(HibernateFor, true, seconds)))
      && n.queue == m.queue[1..] + [VehicleStateChanged(StandBy)] + t.arrivals
      && n.calls == m.calls && n.dryRun == m.dryRun
  {
    assert Rows(Running, m.queue[0]) == [TAKE_OVER];
    assert TAKE_OVER == Row(Running, [HigherPriority, CanAcceptExplicit], PowerCommand);
    hide MayReplace, HasBlocking, HasOnlyModem;
    ChoosesRow(m, t, 0);
    hide Chosen, Rows;
  }

  lemma RequestStarts(m: Machine, seconds: nat, t: Turn)
    requires m.state == Running && Heads(m, VehicleStateChanged(StandBy)) && HoldsTimed(m.data, seconds)
    ensures var n := TakeTurn(m, t);
      && n.state == LowPowerImminent && n.visit == m.visit + 1 && HoldsTimed(n.data, seconds)
      && n.data.request == m.data.request && n.queue == m.queue[1..] + t.arrivals
      && n.calls == m.calls && n.dryRun == m.dryRun
  {
    var rows := Rows(Running, m.queue[0]);
    assert rows[0] == Row(PreSuspend, [CanEnter, TargetSuspend], VehicleChanged) && rows[0].guards[1] == TargetSuspend;
    assert rows[1] == Row(LowPowerImminent, [CanEnter, TargetHibernate], VehicleChanged);
    assert !Passes(TargetSuspend, m.data, m.queue[0], t.read(0, 1));
    ChoosesRow(m, t, 1);
    hide Chosen, Rows;
  }

  lemma TimedIsChosen(m: Machine, seconds: nat, t: Turn)
    requires m.state == Running && Heads(m, PowerHibernateFor(seconds)) && m.data.vehicle == StandBy
    requires MayReplace(HibernateFor, m.data.target)
    ensures Chosen(m, t) == Some(UPGRADE)
  {
    hide MayReplace;
    assert Rows(Running, m.queue[0]) == [UPGRADE, STORE] && UPGRADE.guards == [HigherPriority, CanEnter];
    ChoosesRow(m, t, 0);
  }

  /** The scheduler's command in stand-by starts at once. */
  lemma TimedIsTaken(m: Machine, seconds: nat, t: Turn)
    requires m.state == Running && Heads(m, PowerHibernateFor(seconds)) && m.data.vehicle == StandBy
    requires MayReplace(HibernateFor, m.data.target)
    ensures var n := TakeTurn(m, t);
      && n.state == LowPowerImminent && n.visit == m.visit + 1 && n.queue == m.queue[1..] + t.arrivals
      && HoldsTimed(n.data, seconds) && n.calls == m.calls && n.dryRun == m.dryRun
  {
    TimedIsChosen(m, seconds, t);
    hide Chosen, Rows, MayReplace, EnableModem;
  }

  lemma TimedWaits(m: Machine, seconds: nat, t: Turn)
    requires m.state == LowPowerImminent && Heads(m, SuspendImminentTimeout(m.visit)) && HoldsTimed(m.data, seconds)
    requires !HasBlocking(t.entryLive.inhibitors, HibernateFor)
    ensures var n := TakeTurn(m, t);
      && n.state == WaitingInhibitors && n.visit == m.visit + 1
      && n.queue == m.queue[1..] + t.arrivals + [InhibitorsChanged] && n.data == m.data
      && n.calls == m.calls && n.dryRun == m.dryRun
  {
    hide HasBlocking, HasOnlyModem, LastDitchHolds;
    var e := m.queue[0];
    assert Rows(LowPowerImminent, e)[0] == CANCEL && CANCEL.guards[0] == ShouldCancel;
    assert Rows(LowPowerImminent, e)[1] == Row(WaitingInhibitors, [], NoAction);
    assert !Passes(ShouldCancel, m.data, e, t.read(0, 0));
    ChoosesRow(m, t, 1);
    hide Chosen, Rows;
  }

  lemma TimedIsIssued(m: Machine, seconds: nat, t: Turn)
    requires m.state == WaitingInhibitors && Heads(m, InhibitorsChanged) && HoldsTimed(m.data, seconds)
    requires seconds >= 1 && !m.dryRun
    requires !HasBlocking(t.read(1, 0).inhibitors, HibernateFor) && !HasBlocking(t.issueInput.gate.inhibitors, HibernateFor)
    requires WakeTimerConfirmed(t.issueInput.acks, seconds) && t.issueInput.issued
    ensures var n := TakeTurn(m, t);
      && n.state == IssuingLowPower && n.issue == Committed && |n.calls| == |m.calls| + 1
      && n.calls[|m.calls|].data == m.data.(armed := true, acked := seconds)
  {
    hide HasBlocking, HasOnlyModem, LastDitchHolds, WakeTimerConfirmed;
    var e := m.queue[0];
    assert Rows(WaitingInhibitors, e)[0] == CANCEL && CANCEL.guards[0] == ShouldCancel;
    assert Rows(WaitingInhibitors, e)[1] == Row(IssuingLowPower, [NoBlocking], NoAction);
    ChoosesRow(m, t, 1);
    hide Chosen, Rows;
  }

  /** A command that carries exactly the duration asked for, echoed by the wake timer. */
  predicate TimedCall(c: Call, seconds: nat) {
    c.data.target == HibernateFor && c.data.wakeSeconds == c.data.acked == seconds && c.data.armed
  }

  /** The last two turns: the countdown ends, nothing blocks, the timer is echoed and logind is willing. */
  predicate Willing(m: Machine, seconds: nat, t: Turn, u: Turn) {
    && Heads(m, SuspendImminentTimeout(m.visit)) && !m.dryRun && seconds >= 1
    && !HasBlocking(t.entryLive.inhibitors, HibernateFor) && Heads(TakeTurn(m, t), InhibitorsChanged)
    && !HasBlocking(u.read(1, 0).inhibitors, HibernateFor) && !HasBlocking(u.issueInput.gate.inhibitors, HibernateFor)
    && WakeTimerConfirmed(u.issueInput.acks, seconds) && u.issueInput.issued
  }

  lemma CountdownCompletes(m: Machine, seconds: nat, t: Turn, u: Turn)
    requires m.state == LowPowerImminent && HoldsTimed(m.data, seconds) && Willing(m, seconds, t, u)
    ensures var n := TakeTurn(TakeTurn(m, t), u);
      n.issue == Committed && |n.calls| == |m.calls| + 1 && TimedCall(n.calls[|m.calls|], seconds)
      && n.calls[|m.calls|].data.request == m.data.request
  {
    hide TakeTurn, HasBlocking, WakeTimerConfirmed;
    TimedWaits(m, seconds, t);
    TimedIsIssued(TakeTurn(m, t), seconds, u);
  }

  /**
   A scheduled hibernation in stand-by, with no blocking inhibitor, an echoed wake timer and
   a willing logind, powers off in three turns with exactly the duration it was given,
   whatever else waits in the queue behind these events.
   */
  lemma TimedHibernationCompletes(m: Machine, seconds: nat, t1: Turn, t2: Turn, t3: Turn)
    requires m.state == Running && Heads(m, PowerHibernateFor(seconds)) && m.data.vehicle == StandBy
    requires MayReplace(HibernateFor, m.data.target) && Willing(TakeTurn(m, t1), seconds, t2, t3)
    ensures var n := TakeTurn(TakeTurn(TakeTurn(m, t1), t2), t3);
      n.issue == Committed && |n.calls| == |m.calls| + 1 && TimedCall(n.calls[|m.calls|], seconds)
  {
    hide TakeTurn, Willing, MayReplace;
    TimedIsTaken(m, seconds, t1);
    CountdownCompletes(TakeTurn(m, t1), seconds, t2, t3);
  }

  /** So does a user's request in stand-by, one turn later and under the request's id. */
  lemma TimedRequestCompletes(m: Machine, seconds: nat, t0: Turn, t1: Turn, t2: Turn, t3: Turn)
    requires m.state == Running && Heads(m, ExplicitHibernate(HibernateFor, seconds))
    requires MayReplace(HibernateFor, m.data.target) && t0.published
    requires t0.read(0, 1).vehicle == t0.actLive.vehicle == Some(StandBy)
    requires Heads(TakeTurn(m, t0), VehicleStateChanged(StandBy)) && Willing(TakeTurn(TakeTurn(m, t0), t1), seconds, t2, t3)
    ensures var n := TakeTurn(TakeTurn(TakeTurn(TakeTurn(m, t0), t1), t2), t3);
      n.issue == Committed && |n.calls| == |m.calls| + 1 && TimedCall(n.calls[|m.calls|], seconds)
      && n.calls[|m.calls|].data.request == Some(Request(t0.requestId, Command(HibernateFor, true, seconds)))
  {
    hide TakeTurn, Willing, MayReplace;
    RequestIsTaken(m, seconds, t0);
    RequestStarts(TakeTurn(m, t0), seconds, t1);
    CountdownCompletes(TakeTurn(TakeTurn(m, t0), t1), seconds, t2, t3);
  }

  // ----- Suspend -----

  /** A reading on which a suspend may go ahead. */
  predicate Clear(live: Live) {
    && live.vehicle == Some(StandBy)
    && live.present0.read == Some(false) && live.present1.read == Some(false)
    && live.active0 == Some(false) && live.active1 == Some(false) && live.suspendWhenOnline
    && !HasBlocking(live.inhibitors, Suspend)
  }

  predicate HoldsSuspend(d: Data) {
    d.target == Suspend && !d.automatic && d.vehicle == StandBy
  }

  lemma ClearIsEligible(d: Data, e: Event, live: Live)
    requires HoldsSuspend(d) && Clear(live) && CommandOf(e).None? && !e.VehicleStateChanged?
    ensures !CancelsLowPower(d, e, live) && StandByNow(d, live) && MayEnter(Suspend, StandBy, d, live)
  {
  }

  /** Clear readings from entry to commit, an admission, and a sleep that is not ended by the RTC. */
  predicate AllClear(i: IssueInput) {
    && Clear(i.first) && Clear(i.gate) && Clear(i.announce) && i.quiesced && Clear(i.afterQuiesce) && Clear(i.eligibility)
    && i.admission.Some? && i.sleep == Slept && !i.wokenByRtc && i.awake.active0 == Some(false) && i.awake.active1 == Some(false)
  }

  lemma SuspendIsIssued(d: Data, e: Event, visit: nat, i: IssueInput)
    requires HoldsSuspend(d) && CommandOf(e).None? && !e.VehicleStateChanged? && AllClear(i)
    ensures EnterIssuingLowPower(d, e, visit, false, i)
         == Entered(Resynced(d, i.awake), [Wakeup(visit)], Awaiting(Wakeup(visit)),
                    [LogindCall(d, i.gate, i.afterQuiesce, i.eligibility, i.admission, i.last)])
  {
    ClearIsEligible(d, e, i.first);
    ClearIsEligible(d, e, i.announce);
    ClearIsEligible(d, e, i.afterQuiesce);
    ClearIsEligible(d, e, i.eligibility);
    hide CancelsLowPower, StandByNow, HasBlocking, WakeTimerConfirmed, EnableModem;
  }

  lemma SuspendIsChosen(m: Machine, t: Turn)
    requires m.state == WaitingInhibitors && Heads(m, InhibitorsChanged) && HoldsSuspend(m.data)
    requires Clear(t.read(0, 0)) && Clear(t.read(1, 0))
    ensures Chosen(m, t) == Some(Row(IssuingLowPower, [NoBlocking], NoAction))
  {
    var e := m.queue[0];
    ClearIsEligible(m.data, e, t.read(0, 0));
    assert Rows(WaitingInhibitors, e)[0] == CANCEL && CANCEL.guards[0] == ShouldCancel;
    assert Rows(WaitingInhibitors, e)[1] == Row(IssuingLowPower, [NoBlocking], NoAction);
    hide CancelsLowPower, StandByNow, MayEnter, HasBlocking;
    ChoosesRow(m, t, 1);
  }

  /** With clear readings throughout, an admitted suspend is handed to logind once, and the wake queued last. */
  lemma SuspendSleeps(m: Machine, t: Turn)
    requires m.state == WaitingInhibitors && Heads(m, InhibitorsChanged) && HoldsSuspend(m.data) && !m.dryRun
    requires Clear(t.read(0, 0)) && Clear(t.read(1, 0)) && AllClear(t.issueInput)
    ensures var n := TakeTurn(m, t);
      && n.state == IssuingLowPower && n.visit == m.visit + 1 && HoldsSuspend(n.data)
      && n.queue == m.queue[1..] + t.arrivals + [Wakeup(n.visit)]
      && |n.calls| == |m.calls| + 1
      && n.calls[|m.calls|] == LogindCall(m.data, t.issueInput.gate, t.issueInput.afterQuiesce, t.issueInput.eligibility,
                                          t.issueInput.admission, t.issueInput.last)
  {
    SuspendIsChosen(m, t);
    SuspendIsIssued(m.data, m.queue[0], m.visit + 1, t.issueInput);
    hide Chosen, Rows, EnterIssuingLowPower, Clear, AllClear;
  }

  lemma WakeRows(v: nat)
    ensures Rows(IssuingLowPower, Wakeup(v))[0] == DITCH_WAKE
    ensures DITCH_WAKE == Row(LowPowerImminent, [LastDitchTriggered, LastDitchApplicable, CanEnter], LastDitchWake)
    ensures |Rows(IssuingLowPower, Wakeup(v))| > 1
    ensures Rows(IssuingLowPower, Wakeup(v))[1] == Row(PreSuspend, [CanEnter, TargetSuspend], Woke)
  {
  }

  lemma WakeChoosesDelay(m: Machine, t: Turn)
    requires m.state == IssuingLowPower && Heads(m, Wakeup(m.visit)) && HoldsSuspend(m.data)
    requires Clear(t.read(1, 0)) && !LastDitchHolds(t.read(0, 0))
    ensures Chosen(m, t) == Some(Row(PreSuspend, [CanEnter, TargetSuspend], Woke))
  {
    var e := m.queue[0];
    ClearIsEligible(m.data, e, t.read(1, 0));
    WakeRows(m.visit);
    hide Rows, MayEnter, LastDitchHolds, Clear;
    assert DITCH_WAKE.guards[0] == LastDitchTriggered && !Passes(LastDitchTriggered, m.data, e, t.read(0, 0));
    ChoosesRow(m, t, 1);
  }

  /** On waking, a vehicle still eligible starts over with the suspend delay, unless the reserve is low. */
  lemma WakeStartsOver(m: Machine, t: Turn)
    requires m.state == IssuingLowPower && Heads(m, Wakeup(m.visit)) && HoldsSuspend(m.data)
    requires Clear(t.read(1, 0)) && !LastDitchHolds(t.read(0, 0))
    ensures var n := TakeTurn(m, t); n.state == PreSuspend && n.data == m.data && n.calls == m.calls
  {
    WakeChoosesDelay(m, t);
    hide Chosen, Rows, Clear, LastDitchHolds;
  }

  /** A wake with a low reserve goes straight to an automatic hibernation that remembers the suspend. */
  lemma WakeTurnsToHibernation(m: Machine, t: Turn)
    requires m.state == IssuingLowPower && Heads(m, Wakeup(m.visit)) && HoldsSuspend(m.data)
    requires Clear(t.read(0, 2)) && LastDitchHolds(t.read(0, 0))
    ensures var n := TakeTurn(m, t);
      n.state == LowPowerImminent && n.data.target == Hibernate && n.data.automatic && n.data.fallback == Some(Suspend)
  {
    var e := m.queue[0];
    ClearIsEligible(m.data, e, t.read(0, 2));
    WakeRows(m.visit);
    hide Rows, MayEnter, LastDitchHolds, Clear;
    ChoosesRow(m, t, 0);
    hide Chosen;
  }

  // ----- Last-ditch hibernation -----

  lemma LastDitchComes(m: Machine, t: Turn)
    requires m.state == Running && Heads(m, LastDitchCheck) && m.data.vehicle == StandBy && !m.data.automatic
    requires m.data.target == Run || m.data.target == Suspend
    requires LastDitchHolds(t.read(0, 0))
    ensures var n := TakeTurn(m, t);
      && n.state == LowPowerImminent && n.data.automatic && n.data.target == Hibernate
      && n.data.fallback == Some(m.data.target) && n.queue == m.queue[1..] + t.arrivals
  {
    hide LastDitchHolds, HasBlocking, HasOnlyModem, BatteryPresent, BatteryActive, RemoteAccessBlocks;
    assert Rows(Running, m.queue[0]) == [DITCH];
    assert DITCH == Row(LowPowerImminent, [LastDitchTriggered, LastDitchApplicable, HigherPriority, CanEnter], LastDitchBegins);
    ChoosesRow(m, t, 0);
    hide Chosen, Rows;
  }

  lemma LastDitchGoes(m: Machine, u: Turn)
    requires m.state == LowPowerImminent && Heads(m, LastDitchDisabled) && m.data.automatic && m.data.fallback.Some?
    ensures var r := TakeTurn(m, u); r.state == Running && !r.data.automatic && r.data.target == m.data.fallback.value
  {
    hide LastDitchHolds, CancelsLowPower, HasBlocking;
    assert Rows(LowPowerImminent, LastDitchDisabled) == [DITCH_OVER];
    ChoosesRow(m, u, 0);
    hide Chosen, Rows;
  }

  /** A low reserve in stand-by takes over from run or suspend, and disabling it gives that target back. */
  lemma LastDitchComesAndGoes(m: Machine, t: Turn, u: Turn)
    requires m.state == Running && Heads(m, LastDitchCheck) && m.data.vehicle == StandBy && !m.data.automatic
    requires m.data.target == Run || m.data.target == Suspend
    requires LastDitchHolds(t.read(0, 0)) && Heads(TakeTurn(m, t), LastDitchDisabled)
    ensures TakeTurn(m, t).data.automatic && TakeTurn(m, t).data.target == Hibernate
    ensures var r := TakeTurn(TakeTurn(m, t), u);
      r.state == Running && !r.data.automatic && r.data.target == m.data.target
  {
    hide TakeTurn, LastDitchHolds;
    LastDitchComes(m, t);
    LastDitchGoes(TakeTurn(m, t), u);
  }
}
