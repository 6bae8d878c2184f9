/**
 The power manager and the coordinator side by side, as the two objects they are. A turn
 that comes to the point of suspending asks the coordinator for admission, calls logind
 under the token it got, and hands the token back. The two runs this makes are proved to
 lie on one time line as `SuspendSafety.Scheduled` says, so every suspend these objects
 ever make is fenced.
 */
module JointHost {
  import opened Options
  import P = PowerTypes
  import PP = PowerPolicy
  import PM = PowerMachine
  import PI = PowerInvariant
  import PowerHost
  import opened ClockTypes
  import opened ClockSpec
  import opened ClockRuns
  import opened ClockFrames
  import opened ClockFence
  import opened ClockHost
  import opened ClockClient
  import opened SuspendSafety

  // ----- Turns that ask for admission -----

  function Admit(i: PM.IssueInput, a: Option<PM.Admission>): PM.IssueInput {
    i.(admission := a)
  }

  function Under(t: PM.Turn, a: Option<PM.Admission>): PM.Turn {
    t.(issueInput := Admit(t.issueInput, a))
  }

  /** An admission whose content does not matter. */
  const ANY := PM.Admission("", 0)

  /** The turn comes to the point where only admission stands between it and logind. */
  predicate AsksAdmission(m: PM.Machine, t: PM.Turn) {
    |PM.TakeTurn(m, Under(t, Some(ANY))).calls| > |PM.TakeTurn(m, Under(t, None)).calls|
  }

  predicate SleepsUnder(calls: seq<PM.Call>, a: PM.Admission) {
    |calls| == 1 && calls[0].data.target == P.Suspend && calls[0].admission == Some(a)
  }

  /** What an entry does with admission `a`, with any admission and with none: it sleeps under it, or ignores it. */
  predicate Decided(under: PM.Entered, any: PM.Entered, none: PM.Entered, a: PM.Admission) {
    || (SleepsUnder(under.calls, a) && SleepsUnder(any.calls, ANY) && none.calls == [])
    || under == any == none
  }

  lemma Ignored(a: PM.Admission)
    ensures forall x: PM.Entered :: Decided(x, x, x, a)
  {
  }

  lemma SleepIsDecided(d: PP.Data, visit: nat, i: PM.IssueInput, a: PM.Admission)
    requires d.target == P.Suspend
    ensures SleepsUnder(PM.SuspendNow(d, visit, Admit(i, Some(a))).calls, a)
  {
    hide PM.EnableModem, PM.Resynced;
  }

  lemma SuspendIsDecided(d: PP.Data, e: P.Event, visit: nat, i: PM.IssueInput, a: PM.Admission)
    requires d.target == P.Suspend
    ensures Decided(PM.IssueSuspend(d, e, visit, Admit(i, Some(a))), PM.IssueSuspend(d, e, visit, Admit(i, Some(ANY))),
                    PM.IssueSuspend(d, e, visit, Admit(i, None)), a)
  {
    hide PP.CancelsLowPower, PP.StandByNow, PM.EnableModem, PM.SuspendNow, SleepsUnder;
    SleepIsDecided(d, visit, i, a);
    SleepIsDecided(d, visit, i, ANY);
  }

  lemma IssuingIsDecided(d: PP.Data, e: P.Event, visit: nat, dryRun: bool, i: PM.IssueInput, a: PM.Admission)
    ensures Decided(PM.Issuing(d, e, visit, dryRun, Admit(i, Some(a))), PM.Issuing(d, e, visit, dryRun, Admit(i, Some(ANY))),
                    PM.Issuing(d, e, visit, dryRun, Admit(i, None)), a)
  {
    Ignored(a);
    hide PP.CancelsLowPower, PM.IssueSuspend, Decided;
    if d.target == P.Suspend { SuspendIsDecided(d, e, visit, i, a); }
  }

  lemma EntryIsDecided(s: P.State, d: PP.Data, e: P.Event, visit: nat, dryRun: bool, live: PP.Live, i: PM.IssueInput,
                       a: PM.Admission)
    ensures Decided(PM.Enter(s, d, e, visit, dryRun, live, Admit(i, Some(a))),
                    PM.Enter(s, d, e, visit, dryRun, live, Admit(i, Some(ANY))),
                    PM.Enter(s, d, e, visit, dryRun, live, Admit(i, None)), a)
  {
    hide PP.CancelsLowPower, PP.StandByNow, PM.WakeTimerConfirmed, PM.Issuing, Decided;
    Ignored(a);
    IssuingIsDecided(d, e, visit, dryRun, i, a);
    IssuingIsDecided(d.(armed := true, acked := d.wakeSeconds), e, visit, dryRun, i, a);
  }

  /**
   A turn that asks for admission issues one suspend, under whatever admission it is given,
   and no command without one. Any other turn does the same with any admission.
   */
  lemma AskingDecides(m: PM.Machine, t: PM.Turn, a: PM.Admission)
    ensures var n := PM.TakeTurn(m, Under(t, Some(a))); var none := PM.TakeTurn(m, Under(t, None));
      if AsksAdmission(m, t) then
        && |n.calls| == |m.calls| + 1 && n.calls[|m.calls|].data.target == P.Suspend
        && n.calls[|m.calls|].admission == Some(a) && none.calls == m.calls
      else n == none
  {
    hide PM.Chosen, PM.Act, PM.Enter;
    if m.queue != [] {
      assert PM.Chosen(m, Under(t, Some(a))) == PM.Chosen(m, t) == PM.Chosen(m, Under(t, None))
        == PM.Chosen(m, Under(t, Some(ANY))) by { ChoiceIgnoresAdmission(m, t, a); }
      if PM.Chosen(m, t).Some? {
        var row := PM.Chosen(m, t).value;
        var e := m.queue[0];
        var d := PM.Act(row.action, m.data, e, PM.ActInput(t.actLive, m.default_, t.requestId, t.published, t.handedOn));
        EntryIsDecided(row.to, d.data, e, m.visit + 1, m.dryRun, t.entryLive, t.issueInput, a);
      }
    }
  }

  lemma ChoiceIgnoresAdmission(m: PM.Machine, t: PM.Turn, a: PM.Admission)
    requires m.queue != []
    ensures PM.Chosen(m, Under(t, Some(a))) == PM.Chosen(m, t) == PM.Chosen(m, Under(t, None))
            == PM.Chosen(m, Under(t, Some(ANY)))
  {
  }

  lemma AdmissionIsNoArrival(m: PM.Machine, t: PM.Turn, a: Option<PM.Admission>)
    requires PI.Accepts(m, PI.Proceed(t))
    ensures PI.Accepts(m, PI.Proceed(Under(t, a)))
  {
  }

  // ----- One time line -----

  lemma NothingScheduled(boot: string, s: System)
    ensures Scheduled(boot, s, [], [], [])
  {
  }

  lemma SlotStays(boot: string, s: System, steps: seq<Step>, more: seq<Step>, x: PI.Input, at: Slot)
    requires Backs(boot, s, steps, x, at)
    ensures Backs(boot, s, steps + more, x, at)
  {
    hide Grants;
    if AdmissionOf(x).Some? { assert (steps + more)[..at.answered] == steps[..at.answered]; }
  }

  lemma StepsGoOn(boot: string, s: System, steps: seq<Step>, more: seq<Step>, xs: seq<PI.Input>, slots: seq<Slot>)
    requires Scheduled(boot, s, steps, xs, slots)
    ensures Scheduled(boot, s, steps + more, xs, slots)
  {
    hide Backs;
    forall k | 0 <= k < |xs| ensures Backs(boot, s, steps + more, xs[k], slots[k]) {
      SlotStays(boot, s, steps, more, xs[k], slots[k]);
    }
  }

  /** All inputs so far have made their calls within the first `n` steps. */
  predicate CalledBy(slots: seq<Slot>, n: nat) {
    forall k | 0 <= k < |slots| :: slots[k].called <= n
  }

  lemma CallsLieBehind(boot: string, s: System, steps: seq<Step>, xs: seq<PI.Input>, slots: seq<Slot>)
    requires Scheduled(boot, s, steps, xs, slots)
    ensures CalledBy(slots, |steps|)
  {
    assert forall k | 0 <= k < |slots| :: Backs(boot, s, steps, xs[k], slots[k]) && slots[k].called <= |steps|;
  }

  lemma InputIsAdded(boot: string, s: System, steps: seq<Step>, xs: seq<PI.Input>, slots: seq<Slot>, x: PI.Input, at: Slot)
    requires Scheduled(boot, s, steps, xs, slots) && CalledBy(slots, at.begin) && Backs(boot, s, steps, x, at)
    ensures Scheduled(boot, s, steps, xs + [x], slots + [at])
  {
    hide Backs;
  }

  /** An input that asks nothing, at the present point. */
  lemma SlotHere(boot: string, s: System, steps: seq<Step>, x: PI.Input)
    requires AdmissionOf(x).None?
    ensures Backs(boot, s, steps, x, Slot(|steps|, |steps|, |steps|, |steps|))
  {
  }

  /** A grant of a later part of the run, seen from its start. */
  lemma GrantIsLifted(boot: string, s: System, steps: seq<Step>, trace: seq<Step>, f: nat, token: Token)
    requires Grants(boot, Run(boot, s, steps), trace, f, token)
    ensures f < |trace| && Grants(boot, s, steps + trace, |steps| + f, token)
  {
    hide Run, Succeeds;
    RunJoins(boot, s, steps, trace);
    RunJoins(boot, s, steps, trace[..f]);
    assert (steps + trace)[..|steps| + f] == steps + trace[..f];
  }

  // ----- The two objects -----

  /** What the coordinator does around a turn, and what its answers to the turn rest on. */
  datatype Around = Around(
    admit: AdmitInput,
    beforeCall: seq<Step>,          // between the answer and the call of logind
    asleep: seq<Step>,              // until the call of logind returns
    reachable: bool, clock: Option<Clock>, save: SaveResult)

  /** The token goes back: resumed after a sleep, aborted if there was none. */
  function HandBack(slept: bool, a: PM.Admission, i: Around): seq<Step> {
    if !i.reachable then []
    else if slept then [ResumeStep(a.bootId, a.generation, i.clock, i.save)]
    else [AbortStep(i.save)]
  }

  class Joint {
    const power: PowerHost.StateMachine
    const clock: Coordinator
    const boot: string
    ghost const start: PM.Machine
    ghost const origin: System
    ghost var xs: seq<PI.Input>
    ghost var steps: seq<Step>
    ghost var slots: seq<Slot>

    ghost predicate Valid()
      reads this, power, power.service, clock, clock.engine
    {
      && PI.Initial(start) && PI.Legal(start, xs) && power.View() == PI.After(start, xs)
      && boot != "" && Initially(boot, origin)
      && clock.Valid() && clock.View() == Run(boot, origin, steps)
      && Scheduled(boot, origin, steps, xs, slots)
    }

    constructor (p: PowerHost.StateMachine, c: Coordinator, b: string)
      requires PI.Initial(p.View()) && b != "" && c.Valid() && Initially(b, c.View())
      ensures Valid() && power == p && clock == c && boot == b
      ensures xs == [] && steps == [] && slots == [] && start == p.View() && origin == c.View()
    {
      power, clock, boot := p, c, b;
      start, origin := p.View(), c.View();
      xs, steps, slots := [], [], [];
      new;
      NothingScheduled(boot, origin);
    }

    /** The coordinator goes on by itself, or serves others. */
    method Advance(more: seq<Step>)
      requires Valid()
      modifies this`steps, clock, clock.engine
      ensures Valid() && steps == old(steps) + more
      ensures clock.engine == null || clock.engine == old(clock.engine) || fresh(clock.engine)
    {
      hide PI.Initial, PI.Legal, PI.After, Initially, Scheduled, Run;
      RunJoins(boot, origin, steps, more);
      StepsGoOn(boot, origin, steps, more, xs, slots);
      clock.DoAll(boot, more);
      steps := steps + more;
    }

    /** An event arrives or the default state is set. */
    method Deliver(x: PI.Input)
      requires Valid() && !x.Proceed? && PI.Accepts(power.View(), x)
      modifies this`xs, this`slots, power, power.service
      ensures Valid() && xs == old(xs) + [x] && steps == old(steps)
    {
      hide PI.Initial, PI.Legal, PI.After, Initially, Run, PI.Apply, PI.Accepts, Grants;
      var n := |steps|;
      PI.Then(start, xs, x);
      SlotHere(boot, origin, steps, x);
      CallsLieBehind(boot, origin, steps, xs, slots);
      InputIsAdded(boot, origin, steps, xs, slots, x, Slot(n, n, n, n));
      power.Do(x);
      xs, slots := xs + [x], slots + [Slot(n, n, n, n)];
    }

    /** Asks the coordinator for admission. */
    method Ask(i: AdmitInput) returns (a: Option<PM.Admission>, ghost prepared: nat)
      requires Valid()
      modifies this`steps, clock, clock.engine
      ensures Valid() && old(steps) <= steps
      ensures clock.engine == null || clock.engine == old(clock.engine) || fresh(clock.engine)
      ensures a.Some? ==> |old(steps)| <= prepared < |steps| && Grants(boot, origin, steps, prepared, TokenOf(a.value))
    {
      hide PI.Initial, PI.Legal, PI.After, Scheduled, Run, Grants;
      RunsReach(boot, origin, steps);
      var token;
      ghost var trace, f;
      token, trace, f := AdmitSuspend(clock, boot, i);
      RunJoins(boot, origin, steps, trace);
      StepsGoOn(boot, origin, steps, trace, xs, slots);
      a := if token.None? then None else Some(PM.Admission(token.value.bootId, token.value.generation));
      prepared := |steps| + f;
      if token.Some? { GrantIsLifted(boot, origin, steps, trace, f, token.value); }
      steps := steps + trace;
    }

    /** Asks for admission and comes to the call of logind, if it is admitted. */
    method Approach(t: PM.Turn, i: Around) returns (a: Option<PM.Admission>, ghost at: Slot)
      requires Valid()
      modifies this`steps, clock, clock.engine
      ensures Valid() && old(steps) <= steps
      ensures clock.engine == null || clock.engine == old(clock.engine) || fresh(clock.engine)
      ensures Backs(boot, origin, steps, PI.Proceed(Under(t, a)), at) && at.begin == |old(steps)|
    {
      hide PI.Initial, PI.Legal, PI.After, Initially, Scheduled, Run, Grants;
      ghost var begin, prepared := |steps|, 0;
      a, prepared := Ask(i.admit);
      ghost var answered, granted := |steps|, steps;
      if a.Some? { Advance(i.beforeCall); }
      assert steps[..answered] == granted;
      at := Slot(begin, prepared, answered, |steps|);
    }

    /** The turn itself, its call of logind included, at the present point of the coordinator's run. */
    method Issue(t: PM.Turn, ghost at: Slot)
      requires Valid() && PI.Accepts(power.View(), PI.Proceed(t))
      requires Backs(boot, origin, steps, PI.Proceed(t), at)
      requires CalledBy(slots, at.begin)
      modifies this`xs, this`slots, power, power.service
      ensures Valid() && xs == old(xs) + [PI.Proceed(t)]
      ensures power.View() == PM.TakeTurn(old(power.View()), t)
    {
      hide PI.Initial, PI.Legal, PI.After, Initially, Run, PI.Accepts, Backs, PM.TakeTurn;
      PI.Then(start, xs, PI.Proceed(t));
      InputIsAdded(boot, origin, steps, xs, slots, PI.Proceed(t), at);
      power.Do(PI.Proceed(t));
      xs, slots := xs + [PI.Proceed(t)], slots + [at];
    }

    /** The call of logind returns and the token goes back. */
    method Return(slept: bool, a: PM.Admission, i: Around)
      requires Valid()
      modifies this`steps, clock, clock.engine
      ensures Valid() && old(steps) <= steps
      ensures clock.engine == null || clock.engine == old(clock.engine) || fresh(clock.engine)
      ensures i.reachable ==> steps != [] && [steps[|steps| - 1]] == HandBack(slept, a, i)
    {
      hide PI.Initial, PI.Legal, PI.After, Initially, Scheduled, Run;
      Advance(i.asleep + HandBack(slept, a, i));
    }

    /**
     One turn. Where it comes to suspending, logind is called exactly if the coordinator
     admits it, under the token it answered with.
     */
    method Turn(t: PM.Turn, i: Around) returns (a: Option<PM.Admission>)
      requires Valid() && PI.Accepts(power.View(), PI.Proceed(t))
      modifies this`xs, this`steps, this`slots, power, power.service, clock, clock.engine
      ensures Valid() && xs == old(xs) + [PI.Proceed(Under(t, a))] && old(steps) <= steps
      ensures clock.engine == null || clock.engine == old(clock.engine) || fresh(clock.engine)
      ensures !AsksAdmission(old(power.View()), t) ==> a.None? && steps == old(steps)
      ensures a.Some? && i.reachable ==>
        steps != [] && [steps[|steps| - 1]] == HandBack(t.issueInput.sleep.Slept?, a.value, i)
      ensures AsksAdmission(old(power.View()), t) ==>
        && |power.View().calls| == |old(power.View()).calls| + (if a.Some? then 1 else 0)
        && (a.Some? ==> var c := power.View().calls[|old(power.View()).calls|];
              c.data.target == P.Suspend && c.admission == a)
    {
      hide PI.Initial, PI.Legal, PI.After, Initially, Scheduled, Run, Backs, AsksAdmission, PM.TakeTurn, PI.Accepts;
      ghost var m := power.View();
      a := None;
      ghost var at := Slot(|steps|, |steps|, |steps|, |steps|);
      CallsLieBehind(boot, origin, steps, xs, slots);
      if AsksAdmission(power.View(), t) {
        a, at := Approach(t, i);
      } else {
        SlotHere(boot, origin, steps, PI.Proceed(Under(t, None)));
      }
      AdmissionIsNoArrival(m, t, a);
      AskingDecides(m, t, if a.Some? then a.value else ANY);
      Issue(Under(t, a), at);
      if a.Some? { Return(t.issueInput.sleep.Slept?, a.value, i); }
    }

    /** Whatever these objects have been through: every suspend they handed to logind was held at that moment. */
    lemma SuspendsAreHeld(j: nat) returns (k: nat)
      requires Valid() && Disciplined(boot, origin, steps)
      requires j < |power.View().calls| && power.View().calls[j].data.target == P.Suspend
      ensures k < |xs| == |slots| && Issues(start, xs, k, j) && AdmissionOf(xs[k]).Some?
      ensures var at := slots[k];
        && at.begin <= at.prepared < at.answered <= at.called <= |steps|
        && (NotLifted(boot, origin, steps, at.prepared + 1, at.called) ==>
              HeldAt(boot, origin, steps, at.prepared, at.called, AdmissionOf(xs[k]).value))
    {
      hide PI.Initial, PI.Legal, PI.After, Initially, Run, Disciplined, Issues, NotLifted, HeldAt, Backs;
      k := SuspendsAreFenced(start, xs, j, boot, origin, steps, slots);
    }
  }
}
