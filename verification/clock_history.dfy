/**
 What the engine's quality and trust rest on in whole runs: the observation a kept
 quality was made from, however many steps ago, and the resume that trust was lost at.
 */
module ClockHistory {
  import opened Options
  import opened ClockTypes
  import opened ClockSpec
  import opened ClockRuns
  import opened ClockFrames
  import opened ClockEvidence

  // ----- The observation behind the kept quality -----

  /** The boot time the kept quality's age counts back to. */
  function EvidenceBoot(n: Node): int {
    n.qualityBoot - n.quality.age
  }

  /** The engine in `n` keeps what the refresh `i` observed, and counts its age from when that was made. */
  predicate Keeps(n: Node, i: RefreshInput, samples: map<Source, Sample>) {
    && i.clock.Some? && i.tracking.Some? && i.startBoot <= i.clock.value.boot == n.qualityBoot
    && var t: Tracking := i.tracking.value;
    && n.quality.source == t.source && n.quality.residual == t.residual
    && n.quality.external == (if Producer(t.source) then t.source == Gps else t.external)
    && (Producer(t.source) ==> t.source in samples)
    && (!Producer(t.source) || t.source == Gps ==> t.uncertainty <= n.quality.uncertainty)
    && EvidenceBoot(n) == MadeAt(i, samples)
  }

  /** The quality in `n` is what step `k` of the run observed. */
  predicate ObservedAt(boot: string, s: System, steps: seq<Step>, k: nat, n: Node) {
    && k < |steps| && steps[k].RefreshStep?
    && var a := Run(boot, s, steps[..k]);
    && a.Up? && Keeps(n, steps[k].refresh, a.node.samples)
  }

  lemma RefreshObserves(n: Node, i: RefreshInput)
    ensures var q := Refresh(n, i).node;
      || (q.quality == n.quality && q.qualityBoot == n.qualityBoot)
      || q.quality == UNKNOWN_QUALITY
      || Keeps(q, i, n.samples)
  {
    hide Refresh, Observe;
    RefreshQuality(n, i);
    var q := Refresh(n, i).node;
    if i.clock.Some? && i.startBoot <= i.clock.value.boot == q.qualityBoot
       && Observe(n.st.trust, n.samples, i, q.qualityBoot).Some? {
      ObservationIsNoNewer(n, i, q.qualityBoot);
      UncertaintyIsNoSmaller(n, i, q.qualityBoot);
    }
  }

  lemma SubmitKeepsQuality(n: Node, i: SubmitInput)
    ensures var q := Submit(n, i).node; q.quality == n.quality && q.qualityBoot == n.qualityBoot
  {
    hide Admits, Confirmation;
  }

  /** No other step makes up a quality. */
  lemma NextObserves(boot: string, s: System, step: Step)
    ensures var r := Next(boot, s, step);
      r.Up? && r.node.quality.source != Unknown ==>
        && s.Up?
        && ((r.node.quality == s.node.quality && r.node.qualityBoot == s.node.qualityBoot)
            || (step.RefreshStep? && Keeps(r.node, step.refresh, s.node.samples)))
  {
    if s.Up? {
      match step
      case RefreshStep(i) =>
        RefreshObserves(s.node, i);
        hide Refresh, Keeps;
      case SubmitStep(i) =>
        SubmitKeepsQuality(s.node, i);
        hide Submit;
      case _ =>
    } else {
      hide CanStart, StartState;
    }
  }

  /** In every run, a quality the engine keeps was observed by one of its refreshes, at exactly the boot time its age counts back to. */
  lemma {:induction false} QualityIsObserved(boot: string, s: System, steps: seq<Step>)
    requires s.Down?
    ensures var r := Run(boot, s, steps);
      r.Up? && r.node.quality.source != Unknown ==> exists k: nat :: ObservedAt(boot, s, steps, k, r.node)
    decreases |steps|
  {
    if steps != [] {
      var init := steps[..|steps| - 1];
      var last := steps[|steps| - 1];
      assert steps == init + [last];
      RunThen(boot, s, init, last);
      var a := Run(boot, s, init);
      NextObserves(boot, a, last);
      var r := Run(boot, s, steps);
      hide Next, Keeps, Run;
      if r.Up? && r.node.quality.source != Unknown {
        if last.RefreshStep? && Keeps(r.node, last.refresh, a.node.samples) {
          assert ObservedAt(boot, s, steps, |init|, r.node);
        } else {
          QualityIsObserved(boot, s, init);
          var k: nat :| ObservedAt(boot, s, init, k, a.node);
          assert init[..k] == steps[..k];
          SameEvidence(a.node, r.node, init[k].refresh, Run(boot, s, init[..k]).node.samples);
          assert ObservedAt(boot, s, steps, k, r.node);
        }
      }
    }
  }

  lemma SameEvidence(n: Node, n': Node, i: RefreshInput, samples: map<Source, Sample>)
    requires Keeps(n, i, samples) && n'.quality == n.quality && n'.qualityBoot == n.qualityBoot
    ensures Keeps(n', i, samples)
  {
  }

  /**
   In every run, a source the engine keeps is published exactly while the observation it
   came from is at most 30 s old, and its published age is exactly that observation's.
   */
  lemma PublishedQualityIsFresh(boot: string, s: System, steps: seq<Step>, now: Clock)
    requires s.Down? && Run(boot, s, steps).Up?
    requires var n := Run(boot, s, steps).node; n.quality.source != Unknown && n.qualityBoot <= now.boot
    ensures var n := Run(boot, s, steps).node; var q := PublishedQuality(n, Some(now));
      exists k: nat ::
        && ObservedAt(boot, s, steps, k, n)
        && var made := MadeAt(steps[k].refresh, Run(boot, s, steps[..k]).node.samples);
        && q.age == now.boot - made
        && q.source == (if now.boot - made <= SAMPLE_MAX_AGE then steps[k].refresh.tracking.value.source else Unknown)
  {
    QualityIsObserved(boot, s, steps);
    var n := Run(boot, s, steps).node;
    hide Run;
    var k: nat :| ObservedAt(boot, s, steps, k, n);
    hide MadeAt;
    assert ObservedAt(boot, s, steps, k, n);
  }

  // ----- Ages stay within 64 bits -----

  /** What keeps every age the engine adds up far from the end of the 64-bit range. */
  predicate Aged(n: Node) {
    && 0 <= n.qualityBoot <= MAX_BOOT
    && 0 <= n.quality.age <= MAX_REPORT_AGE + n.qualityBoot
  }

  lemma ObservedAge(n: Node, i: RefreshInput, bt: int)
    requires i.startBoot <= bt && Observe(n.st.trust, n.samples, i, bt).Some? && ReloadableAll(n.samples)
    ensures Observe(n.st.trust, n.samples, i, bt).value.age <= MAX_REPORT_AGE + bt
  {
    hide ObservationFresh;
  }

  lemma RefreshIsAged(n: Node, i: RefreshInput)
    requires Aged(n) && ReloadableAll(n.samples)
    ensures Aged(Refresh(n, i).node)
  {
    hide Observe;
    RefreshQuality(n, i);
    RefreshBoot(n, i);
    hide Refresh;
    var q := Refresh(n, i).node;
    if i.clock.Some? && i.startBoot <= i.clock.value.boot == q.qualityBoot
       && Observe(n.st.trust, n.samples, i, q.qualityBoot).Some? {
      ObservedAge(n, i, q.qualityBoot);
    }
  }

  lemma RefreshBoot(n: Node, i: RefreshInput)
    ensures var b := Refresh(n, i).node.qualityBoot; b == n.qualityBoot || (i.clock.Some? && b == i.clock.value.boot)
  {
    hide Judge, MovementMatches;
    if i.clock.Some? && i.clock.value.boot >= i.startBoot {
      var now := i.clock.value;
      var n0 := n.(qualityBoot := now.boot);
      JudgeQuality(n0, i, now, false);
      JudgeQuality(Persist(n0.(st := n0.st.WithOutcome(Reconciled)), i.saveMoved), i, now, true);
    }
  }

  lemma NextIsAged(boot: string, s: System, step: Step)
    requires Sound(boot, s) && (s.Up? ==> Aged(s.node))
    ensures var r := Next(boot, s, step); r.Up? ==> Aged(r.node)
  {
    if s.Up? {
      match step
      case RefreshStep(i) =>
        RefreshIsAged(s.node, i);
        hide Refresh;
      case SubmitStep(i) =>
        SubmitKeepsQuality(s.node, i);
        hide Submit, Holds;
      case _ =>
        hide Holds;
    } else {
      hide CanStart, StartState, Good;
    }
  }

  lemma {:induction false} RunIsAged(boot: string, s: System, steps: seq<Step>)
    requires Sound(boot, s) && (s.Up? ==> Aged(s.node))
    ensures var r := Run(boot, s, steps); r.Up? ==> Aged(r.node)
    decreases |steps|
  {
    hide Sound, Aged, Next;
    if steps != [] {
      NextIsAged(boot, s, steps[0]);
      NextIsSound(boot, s, steps[0]);
      RunIsAged(boot, Next(boot, s, steps[0]), steps[1..]);
    }
  }

  /** So no age the engine publishes in any run leaves the 64-bit range. */
  lemma PublishedAgeFits(boot: string, s: System, steps: seq<Step>, clock: Option<Clock>)
    requires boot != "" && Initially(boot, s) && Run(boot, s, steps).Up?
    ensures 0 <= PublishedQuality(Run(boot, s, steps).node, clock).age <= MAX_REPORT_AGE + MAX_BOOT < INT64_MAX
  {
    RunIsAged(boot, s, steps);
    hide Run;
  }

  // ----- Trust after a loss -----

  /** CLOCK_BOOTTIME does not go back from one resume to the next; `latest` is the reading before. */
  predicate Forward(steps: seq<Step>, latest: int)
    decreases |steps|
  {
    steps == [] ||
    if steps[0].ResumeStep? && steps[0].clock.Some?
    then latest <= steps[0].clock.value.boot && Forward(steps[1..], steps[0].clock.value.boot)
    else Forward(steps[1..], latest)
  }

  function Later(step: Step, latest: int): int {
    if step.ResumeStep? && step.clock.Some? then step.clock.value.boot else latest
  }

  predicate Remembers(l: Ledger, s: State, latest: int) {
    l.lossBoot <= s.trust.history.lossBoot <= latest
  }

  /** No record has forgotten the last acknowledged loss. */
  predicate LossKept(boot: string, s: System, latest: int) {
    && 0 <= s.ledger.lossBoot <= latest
    && match s
       case Up(n, l) => Remembers(l, n.st, latest) && Remembers(l, n.disk, latest)
       case Down(disk, l) => disk.Some? && disk.value.bootId == boot ==> Remembers(l, disk.value, latest)
  }

  lemma ResumeKeepsLoss(n: Node, l: Ledger, b: string, g: nat, clock: Option<Clock>, save: SaveResult, latest: int)
    requires Remembers(l, n.st, latest) && Remembers(l, n.disk, latest) && l.lossBoot <= latest
    requires clock.Some? ==> latest <= clock.value.boot
    ensures var r := Resume(n, b, g, clock, save);
      var last := if clock.Some? then clock.value.boot else latest;
      var l' := l.(lossBoot := if r.ok && r.lossy && clock.Some? then clock.value.boot else l.lossBoot);
      Remembers(l', r.node.st, last) && Remembers(l', r.node.disk, last) && l'.lossBoot <= last
  {
  }

  /** Only the ledger's last loss counts in `Remembers`. */
  lemma KeepingRemembers(l: Ledger, n: Node, n': Node, latest: int)
    requires Remembers(l, n.st, latest) && Remembers(l, n.disk, latest) && ClockFrames.Keeps(n, n')
    ensures forall l': Ledger | l'.lossBoot == l.lossBoot :: Remembers(l', n'.st, latest) && Remembers(l', n'.disk, latest)
  {
  }

  lemma StartKeepsLoss(boot: string, disk: Option<State>, l: Ledger, step: Step, latest: int)
    requires Sound(boot, Down(disk, l)) && LossKept(boot, Down(disk, l), latest) && step.Boot?
    ensures var (d, n) := Start(disk, BootInput(boot, step.clock, step.readable, step.save));
      && (d.Some? && d.value.bootId == boot ==> Remembers(l, d.value, latest))
      && (n.Some? ==> Remembers(l, n.value.st, latest) && Remembers(l, n.value.disk, latest))
  {
    hide CanStart, Good;
  }

  /** Prepare, Abort, the end of a command and a crash leave every record's loss alone. */
  lemma OtherKeepsLoss(boot: string, n: Node, l: Ledger, step: Step, latest: int)
    requires LossKept(boot, Up(n, l), latest)
    requires !step.RefreshStep? && !step.SubmitStep? && !step.ResumeStep?
    ensures LossKept(boot, Next(boot, Up(n, l), step), latest)
  {
  }

  lemma NextKeepsLoss(boot: string, s: System, step: Step, latest: int)
    requires Sound(boot, s) && LossKept(boot, s, latest)
    requires step.ResumeStep? && step.clock.Some? ==> latest <= step.clock.value.boot
    ensures LossKept(boot, Next(boot, s, step), Later(step, latest))
  {
    hide Sound;
    if s.Up? {
      match step
      case RefreshStep(i) =>
        RefreshKeeps(s.node, i);
        KeepingRemembers(s.ledger, s.node, Refresh(s.node, i).node, latest);
        hide Refresh, Remembers, ClockFrames.Keeps;
      case SubmitStep(i) =>
        SubmitKeeps(s.node, i);
        KeepingRemembers(s.ledger, s.node, Submit(s.node, i).node, latest);
        hide Submit, Remembers, ClockFrames.Keeps;
      case ResumeStep(b, g, clock, save) =>
        ResumeKeepsLoss(s.node, s.ledger, b, g, clock, save, latest);
        hide Resume, Remembers;
      case _ =>
        OtherKeepsLoss(boot, s.node, s.ledger, step, latest);
        hide Next, LossKept;
    } else {
      if step.Boot? { StartKeepsLoss(boot, s.disk, s.ledger, step, latest); }
      hide Start;
    }
  }

  lemma {:induction false} LossIsKept(boot: string, s: System, steps: seq<Step>, latest: int) returns (last: int)
    requires Sound(boot, s) && LossKept(boot, s, latest) && Forward(steps, latest)
    ensures LossKept(boot, Run(boot, s, steps), last)
    decreases |steps|
  {
    hide Sound, LossKept, Next;
    last := latest;
    if steps != [] {
      NextKeepsLoss(boot, s, steps[0], latest);
      NextIsSound(boot, s, steps[0]);
      last := LossIsKept(boot, Next(boot, s, steps[0]), steps[1..], Later(steps[0], latest));
    }
  }

  /** Evidence for established trust that is later than a loss acknowledged at boot time `lost`. */
  predicate RestsAfter(t: Trust, lost: int) {
    t.established && lost > 0 ==>
      match t.history.basis
      case NoBasis => false
      case NtpObserved(b) => b > lost + 5 * SECOND
      case GpsReceived(b) => b > lost
  }

  lemma JustifiedRests(l: Ledger, s: State, latest: int)
    requires Justified(s.trust) && Remembers(l, s, latest)
    ensures RestsAfter(s.trust, l.lossBoot)
  {
  }

  /**
   In memory and on disk, at every point of a run: established trust rests on an NTP
   observation made more than 5 s after the last resume that was acknowledged with a loss,
   or on a GPS sample received after it.
   */
  lemma TrustRestsOnLaterEvidence(boot: string, s: System, steps: seq<Step>)
    requires boot != "" && Initially(boot, s) && Forward(steps, 0)
    ensures var r := Run(boot, s, steps);
      && (r.Up? ==> RestsAfter(r.node.st.trust, r.ledger.lossBoot) && RestsAfter(r.node.disk.trust, r.ledger.lossBoot))
      && (r.Down? && r.disk.Some? && r.disk.value.bootId == boot ==> RestsAfter(r.disk.value.trust, r.ledger.lossBoot))
  {
    var last := LossIsKept(boot, s, steps, 0);
    RunIsSound(boot, s, steps);
    var r := Run(boot, s, steps);
    hide Run, Justified, RecordFits, RestsAfter, Remembers;
    if r.Up? {
      JustifiedRests(r.ledger, r.node.st, last);
      JustifiedRests(r.ledger, r.node.disk, last);
    } else if r.disk.Some? && r.disk.value.bootId == boot {
      JustifiedRests(r.ledger, r.disk.value, last);
    }
  }
}
