/**
 What refreshes and submissions leave alone: the suspend fence, the generation and
 the loss a record remembers. And how runs are put together.
 */
module ClockFrames {
  import opened Options
  import opened ClockTypes
  import opened ClockSpec
  import opened ClockRuns

  // ----- Frames -----

  /** Fence, generation and loss history stay; the file stays, or is written with those of memory. */
  predicate Keeps(n: Node, n': Node) {
    && SameFrame(n.st, n'.st)
    && (n'.disk == n.disk || SameFrame(n.st, n'.disk))
  }

  predicate SameFrame(s: State, s': State) {
    s'.fence == s.fence && s'.generation == s.generation && s'.trust.history.lossBoot == s.trust.history.lossBoot
  }

  lemma IssueKeeps(n: Node, t: Tracking, i: RefreshInput, now: Clock, settled: bool)
    ensures Keeps(n, Issue(n, t, i, now, settled).node)
  {
    hide StillAdmitted;
  }

  lemma RecoverKeeps(n: Node, t: Tracking, i: RefreshInput, now: Clock, settled: bool)
    ensures Keeps(n, Recover(n, t, i, now, settled).node)
  {
    hide Issue, Dispatchable, OpensLateEpisode;
    var e := Persist(LateEpisode(n, t, now.boot), i.saveLate);
    IssueKeeps(e, t, i, now, settled);
    IssueKeeps(n, t, i, now, settled);
  }

  lemma SettleKeeps(n: Node, t: Tracking, i: RefreshInput, now: Clock, settled: bool)
    ensures var r := Settle(n, t, i, now, settled);
      Keeps(n, r.node) && (n.st.fence.preparing ==> !r.started)
  {
    hide Recover, TrackingSettles;
    var n0 := n.(quality := QualityOf(t));
    var n1 := Persist(n0.(st := n0.st.WithOutcome(Reconciled)), i.saveReconciled);
    RecoverKeeps(n0, t, i, now, settled);
    RecoverKeeps(n1, t, i, now, true);
  }

  lemma JudgeKeeps(n: Node, i: RefreshInput, now: Clock, settled: bool)
    requires i.startBoot <= now.boot
    ensures var r := Judge(n, i, now, settled);
      Keeps(n, r.node) && (n.st.fence.preparing ==> !r.started)
  {
    hide Settle, Usable, Observe;
    var o := Observe(n.st.trust, n.samples, i, now.boot);
    if o.Some? {
      var n1 := Persist(Establish(n, o.value, now.boot), i.saveTrust);
      SettleKeeps(n1, o.value, i, now, settled);
      SettleKeeps(n, o.value, i, now, settled);
    }
  }

  lemma RefreshKeeps(n: Node, i: RefreshInput)
    ensures var r := Refresh(n, i);
      Keeps(n, r.node) && (n.st.fence.preparing ==> !r.started)
  {
    hide Judge, MovementMatches;
    if i.clock.Some? && i.clock.value.boot >= i.startBoot && i.startGeneration == n.st.generation {
      var now := i.clock.value;
      var n0 := n.(qualityBoot := now.boot);
      var n1 := Persist(n0.(st := n0.st.WithOutcome(Reconciled)), i.saveMoved);
      JudgeKeeps(n0, i, now, false);
      JudgeKeeps(n1, i, now, true);
    }
  }

  lemma SubmitKeeps(n: Node, i: SubmitInput)
    ensures Keeps(n, Submit(n, i).node)
  {
    hide Admits, Confirmation;
  }

  // ----- Runs -----

  /** The run continued by one step. */
  lemma {:induction false} RunThen(boot: string, s: System, steps: seq<Step>, last: Step)
    ensures Run(boot, s, steps + [last]) == Next(boot, Run(boot, s, steps), last)
    decreases |steps|
  {
    if steps == [] {
      assert [] + [last] == [last];
      assert Run(boot, s, [last]) == Run(boot, Next(boot, s, last), [last][1..]);
    } else {
      assert (steps + [last])[1..] == steps[1..] + [last];
      RunThen(boot, Next(boot, s, steps[0]), steps[1..], last);
    }
  }

  lemma {:induction false} RunJoins(boot: string, s: System, a: seq<Step>, b: seq<Step>)
    ensures Run(boot, s, a + b) == Run(boot, Run(boot, s, a), b)
    decreases |a|
  {
    if a == [] {
      assert a + b == b;
    } else {
      assert (a + b)[1..] == a[1..] + b;
      RunJoins(boot, Next(boot, s, a[0]), a[1..], b);
    }
  }
}
