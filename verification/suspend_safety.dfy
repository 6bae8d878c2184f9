/**
 The two machines together, on one time line: a suspend that reaches logind rests on a
 Prepare of its own, and what the coordinator holds when logind is called.
 */
module SuspendSafety {
  import opened Options
  import P = PowerTypes
  import PP = PowerPolicy
  import PM = PowerMachine
  import PI = PowerInvariant
  import PR = PowerRuns
  import opened ClockTypes
  import opened ClockSpec
  import opened ClockRuns
  import opened ClockFrames
  import opened ClockFence
  import opened ClockHost
  import opened ClockClient

  // ----- The turn a command comes from -----

  lemma EntryUsesAdmission(s: P.State, d: PP.Data, e: P.Event, visit: nat, dryRun: bool, live: PP.Live, i: PM.IssueInput)
    ensures var n := PM.Enter(s, d, e, visit, dryRun, live, i);
      |n.calls| <= 1 && forall c | c in n.calls :: c.admission.None? || c.admission == i.admission
  {
    hide PP.CancelsLowPower, PP.StandByNow, PM.WakeTimerConfirmed, PM.Issuing;
    IssuingUsesAdmission(d, e, visit, dryRun, i);
    IssuingUsesAdmission(d.(armed := true, acked := d.wakeSeconds), e, visit, dryRun, i);
  }

  lemma IssuingUsesAdmission(d: PP.Data, e: P.Event, visit: nat, dryRun: bool, i: PM.IssueInput)
    ensures var n := PM.Issuing(d, e, visit, dryRun, i);
      |n.calls| <= 1 && forall c | c in n.calls :: c.admission.None? || c.admission == i.admission
  {
    hide PP.CancelsLowPower, PP.StandByNow, PM.EnableModem, PM.Resynced;
  }

  /** A turn adds at most one command, under the admission it was given. */
  lemma TurnAddsOneCall(m: PM.Machine, t: PM.Turn)
    ensures var n := PM.TakeTurn(m, t);
      && |m.calls| <= |n.calls| <= |m.calls| + 1 && n.calls[..|m.calls|] == m.calls
      && (|n.calls| > |m.calls| ==>
            var c := n.calls[|m.calls|]; c.admission.None? || c.admission == t.issueInput.admission)
  {
    hide PM.Chosen, PM.Act, PM.Enter;
    if m.queue != [] && PM.Chosen(m, t).Some? {
      var row := PM.Chosen(m, t).value;
      var e := m.queue[0];
      var a := PM.Act(row.action, m.data, e, PM.ActInput(t.actLive, m.default_, t.requestId, t.published, t.handedOn));
      EntryUsesAdmission(row.to, a.data, e, m.visit + 1, m.dryRun, t.entryLive, t.issueInput);
    }
  }

  lemma InputAddsOneCall(m: PM.Machine, x: PI.Input)
    ensures var n := PI.Apply(m, x);
      && |m.calls| <= |n.calls| <= |m.calls| + 1 && n.calls[..|m.calls|] == m.calls
      && (|n.calls| > |m.calls| ==>
            && x.Proceed?
            && var c := n.calls[|m.calls|]; c.admission.None? || c.admission == x.turn.issueInput.admission)
  {
    hide PM.TakeTurn;
    if x.Proceed? { TurnAddsOneCall(m, x.turn); }
  }

  lemma {:induction false} CallsStay(m: PM.Machine, xs: seq<PI.Input>)
    ensures |m.calls| <= |PI.After(m, xs).calls| && PI.After(m, xs).calls[..|m.calls|] == m.calls
    decreases |xs|
  {
    hide PI.Apply;
    if xs != [] {
      InputAddsOneCall(m, xs[0]);
      CallsStay(PI.Apply(m, xs[0]), xs[1..]);
    }
  }

  /** Command `j` was handed to logind by input `k`. */
  predicate Issues(m: PM.Machine, xs: seq<PI.Input>, k: nat, j: nat)
    requires k < |xs|
  {
    |PI.After(m, xs[..k]).calls| == j && |PI.After(m, xs[..k + 1]).calls| == j + 1
  }

  lemma FirstStepFirst(m: PM.Machine, xs: seq<PI.Input>, k: nat)
    requires 0 < k <= |xs|
    ensures PI.After(m, xs[..k]) == PI.After(PI.Apply(m, xs[0]), xs[1..][..k - 1])
  {
    assert xs[..k][1..] == xs[1..][..k - 1];
  }

  /** Every command has the input that issued it, a turn, and carries that turn's admission or none. */
  lemma {:induction false} IssuedByTurn(m: PM.Machine, xs: seq<PI.Input>, j: nat) returns (k: nat)
    requires |m.calls| <= j < |PI.After(m, xs).calls|
    ensures k < |xs| && Issues(m, xs, k, j) && xs[k].Proceed?
    ensures var c := PI.After(m, xs).calls[j]; c.admission.None? || c.admission == xs[k].turn.issueInput.admission
    decreases |xs|
  {
    hide PI.Apply;
    var m' := PI.Apply(m, xs[0]);
    InputAddsOneCall(m, xs[0]);
    FirstStepFirst(m, xs, 1);
    if j < |m'.calls| {
      k := 0;
      CallsStay(m', xs[1..]);
      assert xs[..0] == [] && xs[1..][..0] == [];
      assert m'.calls[j] == PI.After(m, xs).calls[..|m'.calls|][j];
    } else {
      var i := IssuedByTurn(m', xs[1..], j);
      k := i + 1;
      FirstStepFirst(m, xs, k);
      FirstStepFirst(m, xs, k + 1);
    }
  }

  /** Later commands come from later inputs. */
  lemma IssuedInOrder(m: PM.Machine, xs: seq<PI.Input>, i: nat, k: nat, a: nat, b: nat)
    requires k < |xs| && i < |xs| && Issues(m, xs, i, a) && Issues(m, xs, k, b) && a < b
    ensures i < k
  {
    hide PI.After;
    if k <= i { CallsGrow(m, xs, k, i); }
  }

  lemma CallsGrow(m: PM.Machine, xs: seq<PI.Input>, i: nat, k: nat)
    requires i <= k <= |xs|
    ensures |PI.After(m, xs[..i]).calls| <= |PI.After(m, xs[..k]).calls|
  {
    AfterJoins(m, xs[..i], xs[i..k]);
    assert xs[..k] == xs[..i] + xs[i..k];
    CallsStay(PI.After(m, xs[..i]), xs[i..k]);
  }

  lemma {:induction false} AfterJoins(m: PM.Machine, xs: seq<PI.Input>, ys: seq<PI.Input>)
    ensures PI.After(m, xs + ys) == PI.After(PI.After(m, xs), ys)
    decreases |xs|
  {
    hide PI.Apply;
    if xs == [] {
      assert xs + ys == ys;
    } else {
      AfterJoins(PI.Apply(m, xs[0]), xs[1..], ys);
      assert (xs + ys)[1..] == xs[1..] + ys;
    }
  }

  // ----- One time line -----

  /**
   Where an input of the power manager lies on the coordinator's run: it is taken up after
   `begin` steps and has called logind, if it does, after `called`. If it is admitted to
   suspend, its own Prepare is step `prepared`, answered after `answered` steps.
   */
  datatype Slot = Slot(begin: nat, prepared: nat, answered: nat, called: nat)

  function TokenOf(a: PM.Admission): Token {
    Token(a.bootId, a.generation)
  }

  function AdmissionOf(x: PI.Input): Option<PM.Admission> {
    if x.Proceed? then x.turn.issueInput.admission else None
  }

  /** An admission used in a slot was granted before its call of logind, for a Prepare made since its begin. */
  ghost predicate Backs(boot: string, s: System, steps: seq<Step>, x: PI.Input, at: Slot) {
    && at.begin <= at.called <= |steps|
    && (AdmissionOf(x).Some? ==>
          && at.begin <= at.prepared < at.answered <= at.called
          && Grants(boot, s, steps[..at.answered], at.prepared, TokenOf(AdmissionOf(x).value)))
  }

  /** The power manager works on one input at a time, beside the coordinator's run. */
  ghost predicate Scheduled(boot: string, s: System, steps: seq<Step>, xs: seq<PI.Input>, slots: seq<Slot>) {
    && |slots| == |xs|
    && (forall k | 0 <= k < |xs| :: Backs(boot, s, steps, xs[k], slots[k]))
    && (forall i, k | 0 <= i < k < |slots| :: slots[i].called <= slots[k].begin)
  }

  // ----- What a suspend rests on -----

  /** The coordinator holds the baseline of step `f` under the admission's identity, and has started nothing since. */
  ghost predicate HeldAt(boot: string, s: System, steps: seq<Step>, f: nat, u: nat, a: PM.Admission)
    requires f < |steps| && u <= |steps|
  {
    var r := Run(boot, s, steps[..u]);
    && steps[f].PrepareFinishStep? && steps[f].clock.Some? && a.bootId == boot
    && var fence := Fence(true, true, steps[f].clock.value.wall, steps[f].clock.value.boot);
    && r.ledger.started == Run(boot, s, steps[..f]).ledger.started
    && (r.Up? ==> Fenced(r.node.st, boot, fence, a.generation) && Fenced(r.node.disk, boot, fence, a.generation))
    && (r.Down? ==> r.disk.Some? && Fenced(r.disk.value, boot, fence, a.generation))
  }

  /** Between two points of the run nobody sent an Abort, or a Resume under the prepared identity. */
  ghost predicate NotLifted(boot: string, s: System, steps: seq<Step>, from: nat, until: nat)
    requires until <= |steps|
  {
    forall u | from <= u < until :: !Lifts(Run(boot, s, steps[..u]), steps[u])
  }

  lemma {:induction false} DisciplinedPrefix(boot: string, s: System, a: seq<Step>, b: seq<Step>)
    requires Disciplined(boot, s, a + b)
    ensures Disciplined(boot, s, a) && Disciplined(boot, Run(boot, s, a), b)
    decreases |a|
  {
    hide Next, Admissible;
    if a == [] {
      assert a + b == b;
    } else {
      assert (a + b)[1..] == a[1..] + b;
      DisciplinedPrefix(boot, Next(boot, s, a[0]), a[1..], b);
    }
  }

  lemma {:induction false} NotLiftedIsUndisturbed(boot: string, s: System, steps: seq<Step>, from: nat, until: nat)
    requires from <= until <= |steps| && Disciplined(boot, s, steps) && NotLifted(boot, s, steps, from, until)
    ensures Undisturbed(boot, Run(boot, s, steps[..from]), steps[from..until])
    decreases until - from
  {
    hide Next, Admissible, Lifts, Run;
    if from < until {
      assert steps == steps[..from] + steps[from..];
      DisciplinedPrefix(boot, s, steps[..from], steps[from..]);
      RunThen(boot, s, steps[..from], steps[from]);
      assert steps[..from + 1] == steps[..from] + [steps[from]];
      NotLiftedIsUndisturbed(boot, s, steps, from + 1, until);
      assert steps[from..until][1..] == steps[from + 1..until];
    }
  }

  lemma GrantIsHeld(boot: string, s: System, steps: seq<Step>, f: nat, t: nat, u: nat, a: PM.Admission)
    requires boot != "" && Initially(boot, s) && Disciplined(boot, s, steps)
    requires f < t <= u <= |steps| && Grants(boot, s, steps[..t], f, TokenOf(a)) && NotLifted(boot, s, steps, f + 1, u)
    ensures HeldAt(boot, s, steps, f, u, a)
  {
    hide Run, Disciplined, Undisturbed, Fenced, Succeeds, NotLifted;
    NotLiftedIsUndisturbed(boot, s, steps, f + 1, u);
    assert steps[..f] + steps[f..] == steps;
    DisciplinedPrefix(boot, s, steps[..f], steps[f..]);
    var granted, later := steps[..t], steps[t..u];
    assert granted + later == steps[..u];
    assert granted[..f] == steps[..f] && granted[..f + 1] == steps[..f + 1] && granted[f] == steps[f];
    assert granted[f + 1..] + later == steps[f + 1..u];
    TokenHoldsTheFence(boot, s, granted, f, TokenOf(a), later);
  }

  /**
   Every suspend that ever reaches logind, in any run of the power manager beside any run
   of the coordinator: the turn that issued it made a Prepare of its own, was answered
   prepared, and then called logind. From the answer on, at the moment of that call and
   until somebody sends an Abort or resumes that identity, the coordinator holds the
   baseline of that very Prepare in memory and on disk, no command is unresolved and no
   makestep has started since the Prepare.
   */
  lemma SuspendsAreFenced(m: PM.Machine, xs: seq<PI.Input>, j: nat, boot: string, s: System, steps: seq<Step>,
                          slots: seq<Slot>) returns (k: nat)
    requires PI.Initial(m) && PI.Legal(m, xs)
    requires j < |PI.After(m, xs).calls| && PI.After(m, xs).calls[j].data.target == P.Suspend
    requires boot != "" && Initially(boot, s) && Disciplined(boot, s, steps) && Scheduled(boot, s, steps, xs, slots)
    ensures k < |xs| && Issues(m, xs, k, j)
    ensures PI.After(m, xs).calls[j].admission.Some? && AdmissionOf(xs[k]) == PI.After(m, xs).calls[j].admission
    ensures var at := slots[k]; at.begin <= at.prepared < at.answered <= at.called <= |steps|
    ensures var at := slots[k]; var a := AdmissionOf(xs[k]).value;
      forall u: nat | at.answered <= u <= |steps| && NotLifted(boot, s, steps, at.prepared + 1, u) ::
        HeldAt(boot, s, steps, at.prepared, u, a)
    ensures var at := slots[k];
      NotLifted(boot, s, steps, at.prepared + 1, at.called) ==>
        HeldAt(boot, s, steps, at.prepared, at.called, AdmissionOf(xs[k]).value)
  {
    assert PI.After(m, xs).calls[j] in PI.After(m, xs).calls;
    PR.CommandsAreSafe(m, xs, PI.After(m, xs).calls[j]);
    assert m.calls == [];
    hide PI.Initial, PI.Legal, PI.After, Initially, Disciplined, Grants, HeldAt, NotLifted, Issues;
    k := IssuedByTurn(m, xs, j);
    var at := slots[k];
    assert Backs(boot, s, steps, xs[k], at);
    var a := AdmissionOf(xs[k]).value;
    forall u: nat | at.answered <= u <= |steps| && NotLifted(boot, s, steps, at.prepared + 1, u)
      ensures HeldAt(boot, s, steps, at.prepared, u, a)
    {
      GrantIsHeld(boot, s, steps, at.prepared, at.answered, u, a);
    }
  }

  /**
   What the sleep is measured by: a resume with the admission's token, however often the
   coordinator restarted meanwhile, is accepted and finds a loss exactly if CLOCK_BOOTTIME
   gained more than 2 s on UTC since the Prepare of that very suspend.
   */
  lemma SleepIsMeasured(boot: string, s: System, steps: seq<Step>, f: nat, t: nat, u: nat, a: PM.Admission, now: Clock)
    requires boot != "" && Initially(boot, s) && Disciplined(boot, s, steps)
    requires f < t <= u <= |steps| && Grants(boot, s, steps[..t], f, TokenOf(a)) && NotLifted(boot, s, steps, f + 1, u)
    requires Run(boot, s, steps[..u]).Up? && steps[f].clock.Some? && steps[f].clock.value.boot <= now.boot
    ensures var c := steps[f].clock.value;
      var done := Resume(Run(boot, s, steps[..u]).node, a.bootId, a.generation, Some(now), Written);
      && done.ok && done.node.st.generation == a.generation + 1 && done.node.samples == map[]
      && (done.lossy <==> (now.boot - c.boot) - (now.wall - c.wall) > 2 * SECOND)
  {
    GrantIsHeld(boot, s, steps, f, t, u, a);
    hide Run, Disciplined, Grants, NotLifted;
  }

  /** No Prepare serves two suspends: each one's is made after the call of the one before. */
  lemma SuspendsPrepareAnew(m: PM.Machine, xs: seq<PI.Input>, i: nat, j: nat, boot: string, s: System, steps: seq<Step>,
                            slots: seq<Slot>) returns (k: nat, l: nat)
    requires PI.Initial(m) && PI.Legal(m, xs) && i < j < |PI.After(m, xs).calls|
    requires PI.After(m, xs).calls[i].data.target == PI.After(m, xs).calls[j].data.target == P.Suspend
    requires boot != "" && Initially(boot, s) && Disciplined(boot, s, steps) && Scheduled(boot, s, steps, xs, slots)
    ensures k < |xs| && l < |xs| && Issues(m, xs, k, i) && Issues(m, xs, l, j)
    ensures slots[k].prepared < slots[k].called <= slots[l].prepared < slots[l].called
  {
    k := SuspendsAreFenced(m, xs, i, boot, s, steps, slots);
    l := SuspendsAreFenced(m, xs, j, boot, s, steps, slots);
    hide PI.After, PI.Legal, Disciplined;
    IssuedInOrder(m, xs, k, l, i, j);
  }
}
