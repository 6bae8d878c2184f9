/**
 What the coordinator's decisions rest on: how old the evidence behind a sample,
 a makestep or a published quality can be, when an unresolved command is found
 reconciled, and when an NRF submission may confirm external time.
 An observation's "boot time" is the CLOCK_BOOTTIME at which it was made.
 */
module ClockEvidence {
  import opened Options
  import opened ClockTypes
  import opened ClockSpec
  import opened ClockRuns

  // ----- Age of evidence -----

  /** A submission is accepted only for a sample at most 30 s old, all int64 fields considered. */
  lemma AcceptedSampleIsFresh(n: Node, i: SubmitInput)
    requires Submit(n, i).accepted && n.samples == n.st.samples
    ensures i.clock3.Some?
    ensures var r := i.request; var bt := i.clock3.value.boot;
      && 0 <= r.receipt as int <= bt
      && 0 <= r.sampleAge as int
      && bt - (r.receipt as int - r.sampleAge as int) <= SAMPLE_MAX_AGE
      && (r.deadline != 0 ==> bt < r.deadline as int)
      && Submit(n, i).node.samples == n.samples[r.source := SampleOf(r)]
      && Submit(n, i).node.disk.samples == Submit(n, i).node.samples
  {
  }

  /** A start the recheck just before it allows, on a tracking report made at `admitted - t.age`. */
  predicate FreshStart(t: Tracking, admitted: int, i: RefreshInput) {
    && i.recheck.Some?
    && i.recheck.value.boot - (admitted - t.age) <= SAMPLE_MAX_AGE
    && Abs(t.residual) >= 1.0
    && t.uncertainty <= 5.0
    && (t.source == Ntp || t.source == NetworkHoldover || Producer(t.source))
  }

  lemma SettleStarts(n: Node, t: Tracking, i: RefreshInput, now: Clock, settled: bool)
    requires Settle(n, t, i, now, settled).started
    ensures FreshStart(t, now.boot, i)
  {
    hide TrackingSettles, OpensLateEpisode, LateEpisode;
  }

  /** When a refresh's observation was made: the report, and for a refclock source the sample behind it, whichever is older. */
  function MadeAt(i: RefreshInput, samples: map<Source, Sample>): int
    requires i.tracking.Some?
  {
    var t: Tracking := i.tracking.value;
    if Producer(t.source) && t.source in samples && samples[t.source].receipt - samples[t.source].age < i.startBoot - t.age
    then samples[t.source].receipt - samples[t.source].age
    else i.startBoot - t.age
  }

  /** Folding in a sample and a delay keeps count of when the older of the two was made. */
  lemma ObservationIsNoNewer(n: Node, i: RefreshInput, bt: int)
    requires i.startBoot <= bt && Observe(n.st.trust, n.samples, i, bt).Some?
    ensures i.tracking.Some?
    ensures var o := Observe(n.st.trust, n.samples, i, bt).value; var t: Tracking := i.tracking.value;
      && o.source == t.source && o.residual == t.residual
      && o.external == (if Producer(t.source) then t.source == Gps else t.external)
      && bt - o.age == MadeAt(i, n.samples)
      && (Producer(t.source) ==> t.source in n.samples)
  {
    hide ObservationFresh;
  }

  lemma JudgeStarts(n: Node, i: RefreshInput, now: Clock, settled: bool)
    requires i.startBoot <= now.boot && Judge(n, i, now, settled).started
    ensures var o := Observe(n.st.trust, n.samples, i, now.boot); o.Some? && FreshStart(o.value, now.boot, i)
  {
    hide Settle, Usable, Observe, FreshStart;
    var o := Observe(n.st.trust, n.samples, i, now.boot).value;
    if o.external && Usable(o) && !n.st.trust.established {
      SettleStarts(Persist(Establish(n, o, now.boot), i.saveTrust), o, i, now, settled);
    } else {
      SettleStarts(n, o, i, now, settled);
    }
  }

  /**
   At the moment a makestep is started, the tracking report it corrects by and,
   for a refclock source, the sample behind that report were made at most 30 s ago.
   */
  lemma MakestepRestsOnFreshEvidence(n: Node, i: RefreshInput)
    requires Refresh(n, i).started
    ensures i.clock.Some? && i.startBoot <= i.clock.value.boot && i.tracking.Some? && i.recheck.Some?
    ensures var t := i.tracking.value; var at := i.recheck.value.boot;
      && at - (i.startBoot - t.age) <= SAMPLE_MAX_AGE
      && Abs(t.residual) >= 1.0
      && (Producer(t.source) ==>
            t.source in n.samples && at - (n.samples[t.source].receipt - n.samples[t.source].age) <= SAMPLE_MAX_AGE)
  {
    var now := i.clock.value;
    var n0 := n.(qualityBoot := now.boot);
    var n1 := Persist(n0.(st := n0.st.WithOutcome(Reconciled)), i.saveMoved);
    hide Judge, Observe, MovementMatches;
    if MovementMatches(n0, now) {
      JudgeStarts(n1, i, now, true);
    } else {
      JudgeStarts(n0, i, now, false);
    }
    ObservationIsNoNewer(n, i, now.boot);
  }

  /** The quality kept by the engine is unknown, or exactly what one observation says at `qualityBoot`. */
  predicate SameQuality(n: Node, q: Node) {
    q.qualityBoot == n.qualityBoot && (q.quality == UNKNOWN_QUALITY || q.quality == n.quality)
  }

  lemma IssueQuality(n: Node, t: Tracking, i: RefreshInput, now: Clock, settled: bool)
    ensures SameQuality(n, Issue(n, t, i, now, settled).node)
  {
    hide StillAdmitted;
  }

  lemma RecoverQuality(n: Node, t: Tracking, i: RefreshInput, now: Clock, settled: bool)
    ensures SameQuality(n, Recover(n, t, i, now, settled).node)
  {
    hide OpensLateEpisode, Dispatchable, Issue;
    IssueQuality(n, t, i, now, settled);
    IssueQuality(Persist(LateEpisode(n, t, now.boot), i.saveLate), t, i, now, settled);
  }

  lemma SettleQuality(n: Node, t: Tracking, i: RefreshInput, now: Clock, settled: bool)
    requires n.qualityBoot == now.boot
    ensures var q := Settle(n, t, i, now, settled).node;
      q.qualityBoot == now.boot && (q.quality == UNKNOWN_QUALITY || q.quality == QualityOf(t))
  {
    hide TrackingSettles, Recover;
    var n0 := n.(quality := QualityOf(t));
    RecoverQuality(n0, t, i, now, settled);
    RecoverQuality(Persist(n0.(st := n0.st.WithOutcome(Reconciled)), i.saveReconciled), t, i, now, true);
  }

  lemma JudgeQuality(n: Node, i: RefreshInput, now: Clock, settled: bool)
    requires i.startBoot <= now.boot == n.qualityBoot
    ensures var q := Judge(n, i, now, settled).node; var o := Observe(n.st.trust, n.samples, i, now.boot);
      q.qualityBoot == now.boot && (q.quality == UNKNOWN_QUALITY || (o.Some? && q.quality == QualityOf(o.value)))
  {
    hide Settle, Usable, Observe;
    var o := Observe(n.st.trust, n.samples, i, now.boot);
    if o.Some? {
      SettleQuality(Persist(Establish(n, o.value, now.boot), i.saveTrust), o.value, i, now, settled);
      SettleQuality(n, o.value, i, now, settled);
    }
  }

  lemma RefreshQuality(n: Node, i: RefreshInput)
    ensures var q := Refresh(n, i).node;
      || (q.quality == n.quality && q.qualityBoot == n.qualityBoot)
      || q.quality == UNKNOWN_QUALITY
      || (&& i.clock.Some? && i.startBoot <= i.clock.value.boot == q.qualityBoot
          && var o := Observe(n.st.trust, n.samples, i, q.qualityBoot);
             o.Some? && q.quality == QualityOf(o.value))
  {
    hide Judge, Observe, MovementMatches;
    if i.clock.Some? && i.clock.value.boot >= i.startBoot && i.startGeneration == n.st.generation {
      var now := i.clock.value;
      var n0 := n.(qualityBoot := now.boot);
      var n1 := Persist(n0.(st := n0.st.WithOutcome(Reconciled)), i.saveMoved);
      JudgeQuality(n0, i, now, false);
      JudgeQuality(n1, i, now, true);
    }
  }

  // ----- Reconciling an unresolved command -----

  /** How far the wall clock moved against CLOCK_BOOTTIME since the dispatch, in seconds. */
  function Movement(n: Node, now: Clock): real {
    Seconds(now.wall - n.st.dispatch.utc) - Seconds(now.boot - n.st.dispatch.boot)
  }

  predicate InDurationRange(n: Node, now: Clock) {
    -INT64_MAX <= now.wall - n.st.dispatch.utc <= INT64_MAX
  }

  /**
   Soundness of the wall/boot test: whatever `correction` the wall clock really
   received since the dispatch, if apart from it the clocks drifted less than
   0.9 s, the test succeeds only if the correction was made, in the dispatched
   direction and within a second of the dispatched size; an all-or-nothing
   correction was made in full.
   */
  lemma MovementProvesCorrection(boot: string, n: Node, l: Ledger, now: Clock, correction: real)
    requires Holds(boot, n, l) && InDurationRange(n, now)
    requires Abs(Movement(n, now) - correction) < 0.9
    requires MovementMatches(n, now)
    ensures correction != 0.0 && (correction > 0.0 <==> n.st.dispatch.residual > 0.0)
    ensures Abs(correction - n.st.dispatch.residual) < 1.0
    ensures correction == 0.0 || correction == n.st.dispatch.residual ==> correction == n.st.dispatch.residual
    ensures n.samples[n.st.dispatch.source] == n.st.dispatch.sample
  {
    hide RecordFits, ReloadableAll, Justified;
  }

  /**
   Completeness, for the case the test is there for: chrony reports nothing any more, and
   the wall clock has moved by the dispatched correction. Ten seconds after the dispatch a
   refresh then declares the command reconciled, in memory and on disk, exactly while the
   dispatched sample is the current one and its evidence at most 30 s old.
   */
  lemma CorrectionIsRecognised(n: Node, i: RefreshInput)
    requires n.st.budget.outcome == Unresolved && i.tracking.None? && i.saveMoved == Written
    requires n.st.dispatch.source == Nrf || n.st.dispatch.source == User
    requires i.clock.Some? && i.startBoot <= i.clock.value.boot && i.startGeneration == n.st.generation
    requires n.st.dispatch.utc != 0 && i.clock.value.boot - n.st.dispatch.boot >= 10 * SECOND
    requires InDurationRange(n, i.clock.value) && Abs(Movement(n, i.clock.value) - n.st.dispatch.residual) < 0.1
    ensures var x := n.st.dispatch.sample; var r := Refresh(n, i);
      && (r.settled <==>
            && n.st.dispatch.source in n.samples && n.samples[n.st.dispatch.source] == x
            && x.receipt <= i.clock.value.boot && i.clock.value.boot - (x.receipt - x.age) <= SAMPLE_MAX_AGE)
      && r.node.st == n.st.WithOutcome(if r.settled then Reconciled else Unresolved)
      && r.node.disk == (if r.settled then r.node.st else n.disk)
      && !r.called && r.node.quality == UNKNOWN_QUALITY
  {
  }

  lemma SettleSettles(n: Node, t: Tracking, i: RefreshInput, now: Clock)
    requires Settle(n, t, i, now, false).settled
    ensures TrackingSettles(n, t, now.boot)
  {
    hide OpensLateEpisode, LateEpisode, StillAdmitted, Dispatchable;
  }

  lemma JudgeSettles(n: Node, i: RefreshInput, now: Clock)
    requires i.startBoot <= now.boot && Judge(n, i, now, false).settled
    ensures var o := Observe(n.st.trust, n.samples, i, now.boot); o.Some? && TrackingSettles(n, o.value, now.boot)
  {
    hide Settle, Usable, Observe;
    var o := Observe(n.st.trust, n.samples, i, now.boot).value;
    var n1 := Persist(Establish(n, o, now.boot), i.saveTrust);
    if o.external && Usable(o) && !n.st.trust.established {
      SettleSettles(n1, o, i, now);
    } else {
      SettleSettles(n, o, i, now);
    }
  }

  /** The uncertainty an observation carries bounds those of the report and the sample it was made from. */
  lemma UncertaintyIsNoSmaller(n: Node, i: RefreshInput, bt: int)
    requires i.startBoot <= bt && Observe(n.st.trust, n.samples, i, bt).Some?
    ensures var o := Observe(n.st.trust, n.samples, i, bt).value; var t: Tracking := i.tracking.value;
      && (!Producer(t.source) || t.source == Gps ==> t.uncertainty <= o.uncertainty)
      && (Producer(t.source) && t.skewPpm >= 0.0 ==> Seconds(n.samples[t.source].uncertainty) <= o.uncertainty)
  {
    hide ObservationFresh;
    var o := Observe(n.st.trust, n.samples, i, bt).value;
    var t: Tracking := i.tracking.value;
    if Producer(t.source) && t.source != Gps && t.skewPpm >= 0.0 {
      assert Seconds(o.age) >= 0.0;
      assert Seconds(o.age) * t.skewPpm >= 0.0;
    }
  }

  /**
   An unresolved command is declared reconciled only 10 s after its dispatch, and only on
   one of two grounds. Either the wall clock has moved by the dispatched correction, to
   0.1 s, while the NRF or user sample it corrected by was still the current one and its
   evidence at most 30 s old; or chrony, and the sample behind its report, were observed
   less than 5 s ago and leave less than 0.1 s to correct, within 5 s of uncertainty.
   */
  lemma ReconciledOnlyOnEvidence(n: Node, i: RefreshInput)
    requires Refresh(n, i).settled
    ensures i.clock.Some? && i.startBoot <= i.clock.value.boot
    ensures var now := i.clock.value; var d := n.st.dispatch;
      && n.st.budget.outcome == Unresolved && now.boot - d.boot >= 10 * SECOND
      && (|| (&& (d.source == Nrf || d.source == User) && d.utc != 0
              && d.source in n.samples && n.samples[d.source] == d.sample
              && d.sample.receipt <= now.boot && now.boot - (d.sample.receipt - d.sample.age) <= SAMPLE_MAX_AGE
              && Abs(Seconds(SaturatingSub(now.wall, d.utc)) - Seconds(now.boot - d.boot) - d.residual) < 0.1)
          || (&& i.tracking.Some?
              && var t: Tracking := i.tracking.value;
              && t.source != Local && Abs(t.residual) < 0.1
              && now.boot - MadeAt(i, n.samples) < 5 * SECOND
              && (!Producer(t.source) || t.source == Gps ==> t.uncertainty < 5.0)
              && (Producer(t.source) ==>
                    t.source in n.samples && (t.skewPpm >= 0.0 ==> Seconds(n.samples[t.source].uncertainty) < 5.0))))
  {
    var now := i.clock.value;
    var n0 := n.(qualityBoot := now.boot);
    hide Judge, Observe;
    if !MovementMatches(n0, now) {
      JudgeSettles(n0, i, now);
      ObservationIsNoNewer(n, i, now.boot);
      UncertaintyIsNoSmaller(n, i, now.boot);
    }
  }

  // ----- An NRF submission that read chrony before a resume -----

  /**
   After a loss at boot time R, an NTP report read for an NRF submission confirms
   external time exactly when the observation itself was made after R + 5 s, is at
   most 30 s old and is within 5 s of the truth. The read carries no generation of
   its own; one begun at or before R never qualifies.
   */
  lemma NrfConfirmationAfterLoss(n: Node, i: SubmitInput)
    requires !n.st.trust.established && n.st.trust.afterBoot > 0
    requires i.request.source == Nrf && i.early.Some? && i.clock1.Some?
    requires i.early.value.boot <= i.clock1.value.boot
    requires i.observed.Some? && i.observed.value.source == Ntp && i.observed.value.external
    ensures var made := i.early.value.boot - i.observed.value.age;
      && (Submit(n, i).node.st.trust.established <==>
            && made > n.st.trust.afterBoot + 5 * SECOND
            && i.clock1.value.boot - made <= SAMPLE_MAX_AGE
            && WithinFive(i.observed.value.residual, i.observed.value.uncertainty))
      && (i.early.value.boot <= n.st.trust.afterBoot ==> Submit(n, i).node.st.trust == n.st.trust)
  {
    hide Admits, AdmittedAge;
  }
}
