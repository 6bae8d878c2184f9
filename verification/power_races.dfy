/**
 Two runs of the whole machine, from its start, in which a change of the default state
 reaches a request or a reboot that is waiting for the vehicle.
 */
module PowerRaces {
  import opened Options
  import opened PowerTypes
  import opened Inhibitors
  import opened PowerPolicy
  import opened PowerTable
  import opened PowerMachine
  import opened PowerInvariant
  import opened PowerProgress

  // ----- One event at a time -----

  /** An event arrives and is taken, with nothing else happening. */
  lemma Takes(m: Machine, xs: seq<Input>, e: Event, t: Turn)
    requires Legal(m, xs) && After(m, xs).queue == [] && Arrives(e, After(m, xs).visit) && t.arrivals == []
    ensures Legal(m, xs + [Queue(e), Proceed(t)])
    ensures After(m, xs + [Queue(e), Proceed(t)]) == TakeTurn(After(m, xs).(queue := [e]), t)
  {
    hide Legal, After, TakeTurn;
    Then(m, xs, Queue(e));
    Then(m, xs + [Queue(e)], Proceed(t));
    assert xs + [Queue(e)] + [Proceed(t)] == xs + [Queue(e), Proceed(t)];
    assert [] + [e] == [e];
  }

  // ----- One reading and one turn that does whatever it can -----

  /** Nothing blocks; a pack is present or not; the vehicle is as given. */
  function Reading(v: Vehicle, pack: bool): Live {
    Live(Some(v), Presence(Some(pack), pack), Presence(Some(false), false), Some(false), Some(false),
         true, false, None,
         Reserves(true, true, true, 80, 80, true, 90, 12500, false),
         ReserveReading(None, None, None, None, None, None, None), false, [], true)
  }

  function TurnAt(v: Vehicle, pack: bool): Turn {
    var live := Reading(v, pack);
    Turn((_, _) => live, live, 1, true, true, live,
         IssueInput(live, [], live, live, true, live, live, None, DidNotSleep, false, live, live, true), [])
  }

  function Start(v: Vehicle): Machine {
    Machine(Running, 0, Data(None, Suspend, v, false, false, false, 0, false, None, false, 0), NotIssuing, [], Suspend, false, [])
  }

  // ----- A timed request turned into an untimed one -----

  lemma RequestIsTaken(m: Machine, seconds: nat)
    requires m.state == Running && m.queue == [ExplicitHibernate(HibernateFor, seconds)] && m.data.target == Suspend
    ensures TakeTurn(m, TurnAt(Parked, false)) == m.(visit := m.visit + 1, queue := [], issue := NotIssuing,
      data := m.data.(request := Some(Request(1, Command(HibernateFor, true, seconds))), target := HibernateFor,
                      wakeSeconds := seconds, armed := false, automatic := false, fallback := None, vehicle := Parked))
  {
    var t := TurnAt(Parked, false);
    assert Rows(Running, m.queue[0]) == [TAKE_OVER];
    assert TAKE_OVER == Row(Running, [HigherPriority, CanAcceptExplicit], PowerCommand);
    NothingBlocks(HibernateFor);
    hide HasBlocking, HasOnlyModem;
    ChoosesRow(m, t, 0);
    hide Chosen, Rows;
  }

  lemma NothingBlocks(t: Target)
    ensures !HasBlocking([], t)
  {
  }

  lemma DefaultReplaces(m: Machine, d: Target, v: Vehicle, pack: bool)
    requires m.state == Running && m.queue != [] && m.queue[0] == DefaultStateChanged(d)
    ensures TakeTurn(m, TurnAt(v, pack)) == m.(visit := m.visit + 1, queue := m.queue[1..], issue := NotIssuing,
      data := OnDefaultStateChanged(m.data, d))
  {
    hide OnDefaultStateChanged, OnPowerCommand, OnVehicleStateChanged, EnterWaitingInhibitors, EnterIssuingLowPower, Reading;
    assert Rows(Running, m.queue[0]) == [Row(Running, [], DefaultChanged)];
    ChoosesRow(m, TurnAt(v, pack), 0);
    hide Chosen, Rows;
  }

  /** A parked vehicle is reported parked again. */
  lemma ReportChangesNothing(m: Machine)
    requires m.state == Running && m.queue == [VehicleStateChanged(Parked)]
    requires m.data.vehicle == Parked && m.data.target == HibernateManual
    ensures TakeTurn(m, TurnAt(Parked, false)) == m.(visit := m.visit + 1, queue := [], issue := NotIssuing)
  {
    var t := TurnAt(Parked, false);
    var e := m.queue[0];
    var rows := Rows(Running, e);
    assert rows[0] == Row(PreSuspend, [CanEnter, TargetSuspend], VehicleChanged) && rows[0].guards[0] == CanEnter;
    assert rows[1] == Row(LowPowerImminent, [CanEnter, TargetHibernate], VehicleChanged) && rows[1].guards[0] == CanEnter;
    assert rows[2] == Row(Running, [], VehicleChanged);
    CanEnterFacts(m.data, e);
    assert !Held(CanEnter, m.data, e);
    assert !Passes(CanEnter, m.data, e, t.read(0, 0)) && !Passes(CanEnter, m.data, e, t.read(1, 0));
    hide Passes, Held;
    ChoosesRow(m, t, 2);
    hide Chosen, Rows;
  }

  /** Stand-by is reported and a hibernation is waiting for it. */
  lemma StandbyStarts(m: Machine)
    requires m.state == Running && m.queue == [VehicleStateChanged(StandBy)] && m.data.target == HibernateManual
    ensures TakeTurn(m, TurnAt(StandBy, false)) == m.(state := LowPowerImminent, visit := m.visit + 1, queue := [],
      issue := NotIssuing, data := m.data.(vehicle := StandBy))
  {
    var t := TurnAt(StandBy, false);
    var rows := Rows(Running, m.queue[0]);
    assert rows[0] == Row(PreSuspend, [CanEnter, TargetSuspend], VehicleChanged) && rows[0].guards[1] == TargetSuspend;
    assert rows[1] == Row(LowPowerImminent, [CanEnter, TargetHibernate], VehicleChanged);
    assert !Passes(TargetSuspend, m.data, m.queue[0], t.read(0, 1));
    ChoosesRow(m, t, 1);
    hide Chosen, Rows;
  }

  lemma CountdownEnds(m: Machine)
    requires m.state == LowPowerImminent && m.queue == [SuspendImminentTimeout(m.visit)]
    requires m.data.target == HibernateManual && !m.data.automatic
    ensures TakeTurn(m, TurnAt(StandBy, false)) == m.(state := WaitingInhibitors, visit := m.visit + 1, issue := NotIssuing,
      queue := [InhibitorsChanged])
  {
    var t := TurnAt(StandBy, false);
    var e := m.queue[0];
    assert Rows(LowPowerImminent, e)[0] == CANCEL && CANCEL.guards[0] == ShouldCancel;
    assert Rows(LowPowerImminent, e)[1] == Row(WaitingInhibitors, [], NoAction);
    assert !Passes(ShouldCancel, m.data, e, t.read(0, 0));
    NothingBlocks(HibernateManual);
    hide HasBlocking, HasOnlyModem;
    ChoosesRow(m, t, 1);
    hide Chosen, Rows;
  }

  lemma PowersOff(m: Machine)
    requires m.state == WaitingInhibitors && m.queue == [InhibitorsChanged] && !m.dryRun
    requires m.data.target == HibernateManual && !m.data.automatic
    ensures var n := TakeTurn(m, TurnAt(StandBy, false));
      n.issue == Committed && |n.calls| == |m.calls| + 1 && n.calls[|m.calls|].data == m.data
  {
    var t := TurnAt(StandBy, false);
    var e := m.queue[0];
    assert Rows(WaitingInhibitors, e)[0] == CANCEL && CANCEL.guards[0] == ShouldCancel;
    assert Rows(WaitingInhibitors, e)[1] == Row(IssuingLowPower, [NoBlocking], NoAction);
    assert !Passes(ShouldCancel, m.data, e, t.read(0, 0));
    NothingBlocks(HibernateManual);
    hide HasBlocking, HasOnlyModem;
    ChoosesRow(m, t, 1);
    hide Chosen, Rows;
  }

  /** A parked vehicle's open request whose target is no longer the one asked for. */
  predicate Replaced(m: Machine) {
    && m.state == Running && m.queue == [] && m.calls == [] && !m.dryRun
    && m.data.request == Some(Request(1, Command(HibernateFor, true, 600)))
    && m.data.target == HibernateManual && m.data.wakeSeconds == 0 && !m.data.armed && !m.data.automatic
  }

  /**
   A request and one change of the default state separate the request from its target and
   its duration: what the handler of that setting sends, the event of the change and the
   vehicle state it reads, has been taken.
   */
  lemma RequestIsReplaced() returns (m: Machine, xs: seq<Input>)
    ensures Initial(m) && Legal(m, xs) && |xs| == 7 && Replaced(After(m, xs))
  {
    m := Start(Parked);
    hide TakeTurn, Legal, After, TurnAt;
    Beginning(m);
    NoArrivals(Parked, false);
    var ask := ExplicitHibernate(HibernateFor, 600);
    RequestIsTaken(m.(queue := [ask]), 600);
    Takes(m, [], ask, TurnAt(Parked, false));
    xs := [] + [Queue(ask), Proceed(TurnAt(Parked, false))];
    Then(m, xs, SetDefault(HibernateManual));
    xs := xs + [SetDefault(HibernateManual)];
    var update := DefaultStateChanged(HibernateManual);
    DefaultReplaces(After(m, xs).(queue := [update]), HibernateManual, Parked, false);
    Takes(m, xs, update, TurnAt(Parked, false));
    xs := xs + [Queue(update), Proceed(TurnAt(Parked, false))];
    var report := VehicleStateChanged(Parked);
    ReportChangesNothing(After(m, xs).(queue := [report]));
    Takes(m, xs, report, TurnAt(Parked, false));
    xs := xs + [Queue(report), Proceed(TurnAt(Parked, false))];
  }

  lemma Beginning(m: Machine)
    ensures Legal(m, []) && After(m, []) == m
  {
  }

  lemma ReplacedPowersOff(m: Machine) returns (ys: seq<Input>)
    requires Replaced(m)
    ensures Legal(m, ys)
    ensures var n := After(m, ys); n.issue == Committed && |n.calls| == 1 && n.calls[0].data == m.data.(vehicle := StandBy)
  {
    hide TakeTurn, Legal, After, TurnAt;
    var t := TurnAt(StandBy, false);
    Beginning(m);
    NoArrivals(StandBy, false);
    StandbyStarts(m.(queue := [VehicleStateChanged(StandBy)]));
    Takes(m, [], VehicleStateChanged(StandBy), t);
    ys := [] + [Queue(VehicleStateChanged(StandBy)), Proceed(t)];
    var timeout := SuspendImminentTimeout(m.visit + 1);
    CountdownEnds(After(m, ys).(queue := [timeout]));
    Takes(m, ys, timeout, t);
    ys := ys + [Queue(timeout), Proceed(t)];
    PowersOff(After(m, ys));
    Then(m, ys, Proceed(t));
    ys := ys + [Proceed(t)];
  }

  /**
   A user asks for ten minutes of hibernation while parked; before the vehicle is ready the
   default state is set to hibernate-manual. The request stays open, its target and duration
   are gone, and the machine powers off with no wake timer armed.
   */
  lemma TimedRequestLosesItsTimer() returns (m: Machine, xs: seq<Input>)
    ensures Initial(m) && Legal(m, xs)
    ensures var n := After(m, xs);
      && n.issue == Committed && |n.calls| == 1
      && n.calls[0].data.request == Some(Request(1, Command(HibernateFor, true, 600)))
      && n.calls[0].data.target == HibernateManual && n.calls[0].data.wakeSeconds == 0 && !n.calls[0].data.armed
  {
    hide Initial, Legal, After;
    var before, rest;
    m, before := RequestIsReplaced();
    rest := ReplacedPowersOff(After(m, before));
    Joined(m, before, rest);
    xs := before + rest;
  }

  lemma NoArrivals(v: Vehicle, pack: bool)
    ensures TurnAt(v, pack).arrivals == []
  {
  }

  // ----- A reboot turned into a suspend -----

  /** A pack keeps the vehicle from suspending, so it runs on in stand-by. */
  lemma PackKeepsRunning(m: Machine)
    requires m.state == Running && m.queue == [VehicleStateChanged(StandBy)] && m.data.target == Suspend
    ensures TakeTurn(m, TurnAt(StandBy, true)) == m.(visit := m.visit + 1, queue := [], issue := NotIssuing,
      data := m.data.(vehicle := StandBy))
  {
    var t := TurnAt(StandBy, true);
    var e := m.queue[0];
    var rows := Rows(Running, e);
    assert rows[0] == Row(PreSuspend, [CanEnter, TargetSuspend], VehicleChanged) && rows[0].guards[0] == CanEnter;
    assert rows[1] == Row(LowPowerImminent, [CanEnter, TargetHibernate], VehicleChanged) && rows[1].guards[0] == CanEnter;
    assert rows[2] == Row(Running, [], VehicleChanged);
    assert !Passes(CanEnter, m.data, e, t.read(0, 0)) && !Passes(CanEnter, m.data, e, t.read(1, 0));
    ChoosesRow(m, t, 2);
    hide Chosen, Rows;
  }

  lemma ShutdownStartsDefault(m: Machine)
    requires m.state == Running && m.queue != [] && m.queue[0] == VehicleStateChanged(ShuttingDown)
    requires m.data.target == Reboot && m.data.vehicle == StandBy && m.data.request.None?
    ensures var n := TakeTurn(m, TurnAt(ShuttingDown, true));
      && n.state == LowPowerImminent && n.data.target == m.default_
  {
    var t := TurnAt(ShuttingDown, true);
    var e := m.queue[0];
    var rows := Rows(Running, e);
    assert rows[0] == Row(PreSuspend, [CanEnter, TargetSuspend], VehicleChanged) && rows[0].guards[1] == TargetSuspend;
    assert rows[1] == Row(LowPowerImminent, [CanEnter, TargetHibernate], VehicleChanged);
    assert !Passes(TargetSuspend, m.data, e, t.read(0, 1));
    ChoosesRow(m, t, 1);
    hide Chosen, Rows;
  }

  /**
   With a pack in place and the vehicle in stand-by, the default state is set to reboot and
   then back to suspend. The report the handler sends after the first setting says
   shutting-down; taken between the second setting and its event, it starts the low-power
   sequence of the reboot, with target suspend. The report after the second setting comes
   only later.
   */
  lemma RebootTurnsIntoSuspend() returns (m: Machine, xs: seq<Input>)
    ensures Initial(m) && Legal(m, xs) && |xs| > 0 && xs[|xs| - 1].Proceed?
    ensures var before := After(m, xs[..|xs| - 1]); var after := After(m, xs);
      && before.state == Running && before.data.target == Reboot
      && before.queue == [VehicleStateChanged(ShuttingDown), DefaultStateChanged(Suspend)]
      && after.state == LowPowerImminent && after.data.target == Suspend
  {
    m := Start(Parked);
    hide TakeTurn, Legal, After, TurnAt;
    var t := TurnAt(StandBy, true);
    Beginning(m);
    NoArrivals(StandBy, true);
    NoArrivals(ShuttingDown, true);
    PackKeepsRunning(m.(queue := [VehicleStateChanged(StandBy)]));
    Takes(m, [], VehicleStateChanged(StandBy), t);
    var ys := [] + [Queue(VehicleStateChanged(StandBy)), Proceed(t)];
    Then(m, ys, SetDefault(Reboot));
    ys := ys + [SetDefault(Reboot)];
    DefaultReplaces(After(m, ys).(queue := [DefaultStateChanged(Reboot)]), Reboot, StandBy, true);
    Takes(m, ys, DefaultStateChanged(Reboot), t);
    ys := ys + [Queue(DefaultStateChanged(Reboot)), Proceed(t)];
    Then(m, ys, Queue(VehicleStateChanged(ShuttingDown)));
    ys := ys + [Queue(VehicleStateChanged(ShuttingDown))];
    Then(m, ys, SetDefault(Suspend));
    ys := ys + [SetDefault(Suspend)];
    Then(m, ys, Queue(DefaultStateChanged(Suspend)));
    ys := ys + [Queue(DefaultStateChanged(Suspend))];
    ShutdownStartsDefault(After(m, ys));
    Then(m, ys, Proceed(TurnAt(ShuttingDown, true)));
    xs := ys + [Proceed(TurnAt(ShuttingDown, true))];
    assert xs[..|xs| - 1] == ys;
  }
}
