/**
 The coordinator's decisions on raw readings: exactly when a refresh starts a makestep,
 gains trust or finds a command reconciled, exactly when a submission is accepted and what
 it hands on, and the recovery windows that a start and a lossy resume open. Nothing here
 is stated through a test of the coordinator's own: every condition is written out on the
 record, the report, the samples and the clocks, with its limits in seconds.
 */
module ClockDecisions {
  import opened Options
  import opened ClockTypes
  import opened ClockSpec

  // ----- Evidence in raw terms -----

  /** The sources whose reports rest on a sample of the coordinator's own refclock. */
  predicate FromRefclock(s: Source) {
    s == Nrf || s == Gps || s == User
  }

  /** The boot time at which a sample's evidence was made. */
  function Made(s: Sample): int {
    s.receipt - s.age
  }

  predicate Current(s: Sample, bt: int) {
    s.receipt <= bt && 0 <= bt - Made(s) <= 30 * SECOND
  }

  /** GPS is external by its sample, NRF and user time never; the rest as chrony says. */
  predicate External(t: Tracking) {
    if FromRefclock(t.source) then t.source == Gps else t.external
  }

  /** External evidence read at `bt` and made at `made` lies after the last loss, if there was one. */
  predicate LiesAfterLoss(n: Node, t: Tracking, made: int, bt: int) {
    var lost := n.st.trust.afterBoot;
    || lost == 0
    || (bt > lost
        && if t.source == Gps then Gps in n.samples && n.samples[Gps].receipt > lost
           else t.source == Ntp && made > lost + 5 * SECOND)
  }

  /** The refresh has a report it can use at `bt`. */
  predicate Sees(n: Node, i: RefreshInput, bt: int) {
    && i.tracking.Some?
    && var t: Tracking := i.tracking.value;
    && (FromRefclock(t.source) ==>
          && t.source in n.samples && Current(n.samples[t.source], bt)
          && i.startBoot - t.age >= Made(n.samples[t.source]) - 2 * SECOND)
    && (External(t) ==> LiesAfterLoss(n, t, i.startBoot - t.age, bt))
  }

  /** When what it sees was made: the report, or the sample behind it if that is older. */
  function SeenMade(n: Node, i: RefreshInput): int
    requires i.tracking.Some?
  {
    var t: Tracking := i.tracking.value;
    if FromRefclock(t.source) && t.source in n.samples && Made(n.samples[t.source]) < i.startBoot - t.age
    then Made(n.samples[t.source])
    else i.startBoot - t.age
  }

  function SeenUncertainty(n: Node, i: RefreshInput, bt: int): real
    requires i.tracking.Some?
  {
    var t: Tracking := i.tracking.value;
    if !FromRefclock(t.source) || t.source !in n.samples then t.uncertainty
    else
      var own := n.samples[t.source].uncertainty as real / 1_000_000_000.0;
      if t.source == Gps then (if t.uncertainty < own then own else t.uncertainty)
      else (if 1.0 < own then own else 1.0)
           + (bt - SeenMade(n, i)) as real / 1_000_000_000.0 * t.skewPpm / 1_000_000.0
  }

  lemma AssessedAsSeen(n: Node, i: RefreshInput, bt: int)
    requires i.startBoot <= bt && i.tracking.Some? && FromRefclock(i.tracking.value.source)
    ensures var t: Tracking := i.tracking.value;
      var a := Assess(n.samples, t.(age := t.age + (bt - i.startBoot)), bt);
      && (a.Some? <==> t.source in n.samples && Current(n.samples[t.source], bt)
                       && i.startBoot - t.age >= Made(n.samples[t.source]) - 2 * SECOND)
      && (a.Some? ==>
            && bt - SeenMade(n, i) >= 0
            && a.value == t.(external := External(t), age := bt - SeenMade(n, i),
                uncertainty := SeenUncertainty(n, i, bt)))
  {
    var t: Tracking := i.tracking.value;
    if t.source in n.samples && Current(n.samples[t.source], bt) {
      var age, own := bt - Made(n.samples[t.source]), t.age + (bt - i.startBoot);
      assert bt - SeenMade(n, i) == if age > own then age else own;
    }
  }

  lemma SeesExactly(n: Node, i: RefreshInput, bt: int)
    requires i.startBoot <= bt
    ensures Observe(n.st.trust, n.samples, i, bt).Some? <==> Sees(n, i, bt)
    ensures Sees(n, i, bt) ==> var t: Tracking := i.tracking.value;
      && bt - SeenMade(n, i) >= 0
      && Observe(n.st.trust, n.samples, i, bt) ==
           Some(t.(external := External(t), age := bt - SeenMade(n, i), uncertainty := SeenUncertainty(n, i, bt)))
  {
    if i.tracking.Some? {
      if FromRefclock(i.tracking.value.source) {
        AssessedAsSeen(n, i, bt);
        hide Assess, SeenUncertainty, Current;
      }
    }
  }

  /** Only trust and samples bear on what is seen. */
  lemma SeenAlike(n: Node, m: Node, i: RefreshInput, bt: int)
    requires m.st.trust == n.st.trust && m.samples == n.samples
    ensures Sees(m, i, bt) == Sees(n, i, bt) && Confirms(m, i, bt) == Confirms(n, i, bt)
    ensures i.tracking.Some? ==>
      SeenMade(m, i) == SeenMade(n, i) && SeenUncertainty(m, i, bt) == SeenUncertainty(n, i, bt)
  {
    hide Current;
  }

  /** A refresh whose clock and generation still stand when chrony has answered. */
  predicate Stands(n: Node, i: RefreshInput) {
    i.clock.Some? && i.startBoot <= i.clock.value.boot && i.startGeneration == n.st.generation
  }

  /** The residual is within 5 s of the truth, uncertainty included. */
  predicate Near(residual: real, uncertainty: real) {
    uncertainty - 5.0 <= residual <= 5.0 - uncertainty
  }

  /** What it sees confirms external time. */
  predicate Confirms(n: Node, i: RefreshInput, bt: int) {
    && Sees(n, i, bt) && External(i.tracking.value)
    && bt - SeenMade(n, i) <= 30 * SECOND
    && Near(i.tracking.value.residual, SeenUncertainty(n, i, bt))
  }

  // ----- Reconciling -----

  /**
   The wall clock has moved, against boot time, by the correction of the command whose
   outcome is unknown, to 0.1 s; the sample that command corrected by is still in use.
   */
  predicate Moved(n: Node, now: Clock) {
    var d := n.st.dispatch;
    && n.st.budget.outcome == Unresolved && (d.source == Nrf || d.source == User) && d.utc != 0
    && now.boot - d.boot >= 10 * SECOND
    && d.source in n.samples && n.samples[d.source] == d.sample
    && d.sample.receipt <= now.boot && now.boot - Made(d.sample) <= 30 * SECOND
    && -0.1 < SaturatingSub(now.wall, d.utc) as real / 1_000_000_000.0 - (now.boot - d.boot) as real / 1_000_000_000.0
              - d.residual < 0.1
  }

  lemma MovedExactly(n: Node, now: Clock)
    ensures MovementMatches(n, now) <==> Moved(n, now)
  {
  }

  // ----- Trust -----

  /** Trust and samples stay; the file stays, or is written with them. */
  predicate KeepsTrust(n: Node, n': Node) {
    n'.st.trust == n.st.trust && n'.samples == n.samples && (n'.disk == n.disk || n'.disk.trust == n.st.trust)
  }

  lemma IssueKeepsTrust(n: Node, t: Tracking, i: RefreshInput, now: Clock, settled: bool)
    ensures KeepsTrust(n, Issue(n, t, i, now, settled).node)
  {
    hide StillAdmitted;
  }

  lemma RecoverKeepsTrust(n: Node, t: Tracking, i: RefreshInput, now: Clock, settled: bool)
    ensures KeepsTrust(n, Recover(n, t, i, now, settled).node)
  {
    hide Issue, Dispatchable, OpensLateEpisode;
    IssueKeepsTrust(n, t, i, now, settled);
    IssueKeepsTrust(Persist(LateEpisode(n, t, now.boot), i.saveLate), t, i, now, settled);
  }

  lemma SettleKeepsTrust(n: Node, t: Tracking, i: RefreshInput, now: Clock, settled: bool)
    ensures KeepsTrust(n, Settle(n, t, i, now, settled).node)
  {
    hide Recover, TrackingSettles;
    var n0 := n.(quality := QualityOf(t));
    RecoverKeepsTrust(n0, t, i, now, settled);
    RecoverKeepsTrust(Persist(n0.(st := n0.st.WithOutcome(Reconciled)), i.saveReconciled), t, i, now, true);
  }

  lemma ConfirmsExactly(n: Node, i: RefreshInput, bt: int)
    requires i.startBoot <= bt && Sees(n, i, bt)
    ensures var o := Observe(n.st.trust, n.samples, i, bt).value;
      o.external && Usable(o) <==> Confirms(n, i, bt)
  {
    SeesExactly(n, i, bt);
    hide Observe, Sees, SeenUncertainty, SeenMade;
  }

  lemma JudgeGains(n: Node, i: RefreshInput, now: Clock, settled: bool)
    requires i.startBoot <= now.boot
    ensures var q := Judge(n, i, now, settled).node;
      if !n.st.trust.established && Confirms(n, i, now.boot) then
        && q.st.trust.established && q.st.trust.afterBoot == 0 && q.samples == n.samples
        && (i.saveTrust == Written ==> q.disk.trust == q.st.trust)
      else KeepsTrust(n, q)
  {
    SeesExactly(n, i, now.boot);
    if Sees(n, i, now.boot) {
      ConfirmsExactly(n, i, now.boot);
      hide Settle, Observe, Sees, Confirms, Usable;
      var o := Observe(n.st.trust, n.samples, i, now.boot).value;
      SettleKeepsTrust(Persist(Establish(n, o, now.boot), i.saveTrust), o, i, now, settled);
      SettleKeepsTrust(n, o, i, now, settled);
    } else {
      hide Sees;
      assert !Confirms(n, i, now.boot);
    }
  }

  /**
   Exactly when a refresh confirms external time: it stands, no failed save stops it before
   the evidence is judged, and it sees external evidence made after the last loss, at most
   30 s old and within 5 s of the truth. Otherwise it leaves trust alone.
   */
  lemma TrustIsGainedExactly(n: Node, i: RefreshInput)
    ensures var q := Refresh(n, i).node;
      var confirmed := && Stands(n, i) && (Moved(n, i.clock.value) ==> i.saveMoved == Written)
                       && !n.st.trust.established && Confirms(n, i, i.clock.value.boot);
      if confirmed then
        && q.st.trust.established && q.st.trust.afterBoot == 0 && q.samples == n.samples
        && (i.saveTrust == Written ==> q.disk.trust == q.st.trust)
      else KeepsTrust(n, q)
  {
    if Stands(n, i) {
      var now := i.clock.value;
      var n0 := n.(qualityBoot := now.boot);
      MovedExactly(n0, now);
      assert Moved(n0, now) == Moved(n, now);
      var m := if Moved(n, now) then Persist(n0.(st := n0.st.WithOutcome(Reconciled)), i.saveMoved) else n0;
      SeenAlike(n, m, i, now.boot);
      hide Judge, MovementMatches, Moved, Confirms;
      JudgeGains(m, i, now, Moved(n, now));
    }
  }

  // ----- Exactly when an unknown outcome is reconciled -----

  lemma RecoverSettles(n: Node, t: Tracking, i: RefreshInput, now: Clock, settled: bool)
    ensures Recover(n, t, i, now, settled).settled == settled
  {
    hide OpensLateEpisode, Dispatchable, StillAdmitted;
  }

  lemma SettleSettles(n: Node, t: Tracking, i: RefreshInput, now: Clock, settled: bool)
    ensures Settle(n, t, i, now, settled).settled <==>
      settled || (&& n.st.budget.outcome == Unresolved && now.boot - n.st.dispatch.boot >= 10 * SECOND
                  && -0.1 < t.residual < 0.1 && t.source != Local && t.age < 5 * SECOND && t.uncertainty < 5.0)
  {
    hide Recover;
    var n0 := n.(quality := QualityOf(t));
    RecoverSettles(n0, t, i, now, settled);
    RecoverSettles(Persist(n0.(st := n0.st.WithOutcome(Reconciled)), i.saveReconciled), t, i, now, true);
  }

  /** What it sees leaves less than 0.1 s to correct: made less than 5 s ago, within 5 s, and not the local clock. */
  predicate NothingLeft(n: Node, i: RefreshInput, bt: int) {
    && n.st.budget.outcome == Unresolved && bt - n.st.dispatch.boot >= 10 * SECOND
    && Sees(n, i, bt) && i.tracking.value.source != Local
    && -0.1 < i.tracking.value.residual < 0.1
    && bt - SeenMade(n, i) < 5 * SECOND && SeenUncertainty(n, i, bt) < 5.0
  }

  lemma JudgeSettles(n: Node, i: RefreshInput, now: Clock, settled: bool)
    requires i.startBoot <= now.boot && i.saveTrust == Written
    ensures Judge(n, i, now, settled).settled <==> settled || NothingLeft(n, i, now.boot)
  {
    SeesExactly(n, i, now.boot);
    if Sees(n, i, now.boot) {
      hide Settle, Observe, Sees, Usable, SeenMade, SeenUncertainty;
      var o := Observe(n.st.trust, n.samples, i, now.boot).value;
      SettleSettles(Persist(Establish(n, o, now.boot), i.saveTrust), o, i, now, settled);
      SettleSettles(n, o, i, now, settled);
    } else {
      hide Sees;
    }
  }

  /**
   Exactly when a refresh finds an unknown outcome reconciled, 10 s after the dispatch: the
   wall clock has moved by the dispatched correction, or what it sees leaves nothing to
   correct. (A failed save of newly gained trust ends the refresh before the second test.)
   */
  lemma ReconciledExactly(n: Node, i: RefreshInput)
    requires i.saveTrust == Written
    ensures Refresh(n, i).settled <==>
      Stands(n, i) && (Moved(n, i.clock.value) || NothingLeft(n, i, i.clock.value.boot))
  {
    if Stands(n, i) {
      var now := i.clock.value;
      var n0 := n.(qualityBoot := now.boot);
      MovedExactly(n0, now);
      assert Moved(n0, now) == Moved(n, now);
      SeenAlike(n, n0, i, now.boot);
      hide Judge, MovementMatches, Moved, Sees, SeenMade, SeenUncertainty;
      JudgeSettles(n0, i, now, false);
      JudgeSettles(Persist(n0.(st := n0.st.WithOutcome(Reconciled)), i.saveMoved), i, now, true);
    }
  }

  // ----- Exactly when a makestep is called for -----

  /** The report is one a makestep may correct by; `trusted` is external trust as it then stands. */
  predicate Correctable(t: Tracking, uncertainty: real, trusted: bool) {
    && (t.source == Ntp || t.source == Gps || t.source == User
        || ((t.source == Nrf || t.source == NetworkHoldover) && !trusted))
    && uncertainty <= 5.0
    && (t.residual >= 1.0 || t.residual <= -1.0)
  }

  /** The window is open and unspent. */
  predicate InWindow(n: Node, bt: int) {
    n.st.budget.outcome == Available && bt < n.st.budget.deadline
  }

  /** A late episode is due: one for external time, one for holdover, each once. */
  predicate LateDue(n: Node, t: Tracking, trusted: bool, bt: int) {
    && bt >= n.st.budget.deadline
    && (t.residual > 1.0 || t.residual < -1.0)
    && ((External(t) && !n.st.budget.lateUsed)
        || (t.source == NetworkHoldover && !n.st.budget.lateHoldoverUsed && !trusted))
  }

  /** The deadline the makestep is admitted under. */
  function DeadlineAt(n: Node, bt: int): int {
    if bt < n.st.budget.deadline then n.st.budget.deadline else bt + 90 * SECOND
  }

  /** Evidence made at `made` and the deadline still hold at the last look at the clock. */
  predicate StillHolds(recheck: Option<Clock>, bt: int, made: int, deadline: int) {
    recheck.Some? && bt <= recheck.value.boot < deadline && recheck.value.boot - made <= 30 * SECOND
  }

  /** What it sees calls for a makestep that the budget still allows. */
  predicate CorrectionDue(n: Node, i: RefreshInput, bt: int) {
    && Sees(n, i, bt) && !n.st.fence.preparing
    && var t: Tracking := i.tracking.value;
       var trusted := n.st.trust.established || Confirms(n, i, bt);
    && bt - SeenMade(n, i) <= 30 * SECOND
    && Correctable(t, SeenUncertainty(n, i, bt), trusted)
    && (InWindow(n, bt) || LateDue(n, t, trusted, bt))
  }

  /** Exactly when a refresh admits a makestep, if its saves succeed. */
  predicate MakestepWanted(n: Node, i: RefreshInput) {
    && Stands(n, i) && n.st.budget.outcome != InFlight
    && (n.st.budget.outcome == Unresolved ==> Moved(n, i.clock.value))
    && CorrectionDue(n, i, i.clock.value.boot)
  }

  /** Exactly when it then asks chrony for one. */
  predicate MakestepDue(n: Node, i: RefreshInput) {
    && MakestepWanted(n, i)
    && StillHolds(i.recheck, i.clock.value.boot, SeenMade(n, i), DeadlineAt(n, i.clock.value.boot))
  }

  predicate SavesSucceed(i: RefreshInput) {
    i.saveMoved == i.saveTrust == i.saveReconciled == i.saveLate == i.saveDispatch == Written
  }

  /** The last part of a refresh: what is left to test of an observation `t`, once trust stands as in `n`. */
  predicate RecoverDue(n: Node, t: Tracking, bt: int) {
    && (t.source == Ntp || t.source == Gps || t.source == User
        || ((t.source == Nrf || t.source == NetworkHoldover) && !n.st.trust.established))
    && t.age <= 30 * SECOND && t.uncertainty <= 5.0 && (t.residual >= 1.0 || t.residual <= -1.0)
    && (InWindow(n, bt)
        || (&& bt >= n.st.budget.deadline && (t.residual > 1.0 || t.residual < -1.0)
            && ((t.external && !n.st.budget.lateUsed)
                || (t.source == NetworkHoldover && !n.st.budget.lateHoldoverUsed && !n.st.trust.established))))
  }

  /** The budget a makestep is admitted under: the open window's, or that of the late episode it opens. */
  function BudgetAt(b: Budget, external: bool, bt: int): Budget {
    if bt < b.deadline then b.(outcome := InFlight, attempts := b.attempts + 1)
    else if external && !b.lateUsed then Budget(LateExternal, bt + 90 * SECOND, InFlight, 1, true, b.lateHoldoverUsed)
    else Budget(LateHoldover, bt + 90 * SECOND, InFlight, 1, b.lateUsed, true)
  }

  /** The record of an admitted makestep: when, on what clock, by how much, on whose word and on which sample. */
  function Admitted(n: Node, t: Tracking, external: bool, now: Clock): State {
    n.st.(budget := BudgetAt(n.st.budget, external, now.boot),
          dispatch := Dispatch(now.boot, now.wall, t.residual, t.source,
                               if t.source in n.samples then n.samples[t.source] else Sample(0, 0, 0)))
  }

  /**
   What becomes of an admitted makestep with record `st`, deciding by the last look at the
   clock and chrony's answer.
   */
  predicate Follows(r: Refreshed, st: State, i: RefreshInput, holds: bool) {
    && r.called == holds && r.started == (holds && i.startOk) && (r.started ==> r.node.inFlight)
    && r.node.quality == UNKNOWN_QUALITY
    && (r.started ==> r.node.st == r.node.disk == st)
    && (!holds ==> r.node.st == st.WithOutcome(Expired))
    && (r.called && !r.started && i.saveStartFailed == Written ==>
          r.node.st == r.node.disk == st.WithOutcome(if st.budget.attempts == 1 then Available else Failed))
  }

  lemma IssueFollows(n: Node, t: Tracking, i: RefreshInput, now: Clock, settled: bool, st: State)
    requires i.saveDispatch == Written && st == Admission(n, t, now).st
    requires st.budget.attempts >= 1
    ensures Follows(Issue(n, t, i, now, settled), st, i,
                    StillHolds(i.recheck, now.boot, now.boot - t.age, n.st.budget.deadline))
  {
  }

  lemma IssueCalls(n: Node, t: Tracking, i: RefreshInput, now: Clock, settled: bool)
    ensures var r := Issue(n, t, i, now, settled);
      && (r.called ==> StillHolds(i.recheck, now.boot, now.boot - t.age, n.st.budget.deadline))
      && (r.started <==> r.called && i.startOk)
  {
  }

  lemma RecoverFollows(n: Node, t: Tracking, i: RefreshInput, now: Clock, settled: bool)
    ensures var r := Recover(n, t, i, now, settled);
      var holds := StillHolds(i.recheck, now.boot, now.boot - t.age, DeadlineAt(n, now.boot));
      && (r.called ==> RecoverDue(n, t, now.boot) && holds)
      && (SavesSucceed(i) && RecoverDue(n, t, now.boot) ==>
            Follows(r, Admitted(n, t, t.external, now), i, holds))
      && (r.started <==> r.called && i.startOk)
  {
    hide Issue, Follows, StillHolds;
    var late := Persist(LateEpisode(n, t, now.boot), i.saveLate);
    IssueCalls(n, t, i, now, settled);
    IssueCalls(late, t, i, now, settled);
    if SavesSucceed(i) && RecoverDue(n, t, now.boot) {
      if InWindow(n, now.boot) {
        IssueFollows(n, t, i, now, settled, Admitted(n, t, t.external, now));
      } else {
        IssueFollows(late, t, i, now, settled, Admitted(n, t, t.external, now));
      }
    }
  }

  predicate SettleDue(n: Node, t: Tracking, bt: int) {
    && n.st.budget.outcome != InFlight && n.st.budget.outcome != Unresolved && !n.st.fence.preparing
    && RecoverDue(n, t, bt)
  }

  /** A report that leaves little enough to reconcile by leaves too little to correct. */
  lemma SettleFollows(n: Node, t: Tracking, i: RefreshInput, now: Clock, settled: bool)
    ensures var r := Settle(n, t, i, now, settled);
      var holds := StillHolds(i.recheck, now.boot, now.boot - t.age, DeadlineAt(n, now.boot));
      && (r.called ==> SettleDue(n, t, now.boot) && holds)
      && (SavesSucceed(i) && SettleDue(n, t, now.boot) ==>
            Follows(r, Admitted(n, t, t.external, now), i, holds))
      && (r.started <==> r.called && i.startOk)
  {
    hide Recover, Follows, StillHolds;
    var n0 := n.(quality := QualityOf(t));
    var n1 := Persist(n0.(st := n0.st.WithOutcome(Reconciled)), i.saveReconciled);
    RecoverFollows(n0, t, i, now, settled);
    RecoverFollows(n1, t, i, now, true);
  }

  predicate JudgeDue(n: Node, i: RefreshInput, bt: int) {
    n.st.budget.outcome != InFlight && n.st.budget.outcome != Unresolved && CorrectionDue(n, i, bt)
  }

  /** What is left to test once trust `m` has been judged is what the raw condition says. */
  lemma JudgedAlike(n: Node, m: Node, i: RefreshInput, now: Clock)
    requires i.startBoot <= now.boot && Sees(n, i, now.boot)
    requires m.st == n.st.(trust := m.st.trust) && m.samples == n.samples
    requires m.st.trust.established == (n.st.trust.established || Confirms(n, i, now.boot))
    ensures var o := Observe(n.st.trust, n.samples, i, now.boot).value; var t: Tracking := i.tracking.value;
      && (SettleDue(m, o, now.boot) <==> JudgeDue(n, i, now.boot))
      && now.boot - o.age == SeenMade(n, i) && DeadlineAt(m, now.boot) == DeadlineAt(n, now.boot)
      && Admitted(m, o, o.external, now) == Admitted(n, t, External(t), now).(trust := m.st.trust)
  {
    SeesExactly(n, i, now.boot);
    hide Observe, Sees, Confirms, SeenUncertainty, SeenMade, External;
  }

  lemma JudgeFollows(n: Node, i: RefreshInput, now: Clock, settled: bool)
    requires i.startBoot <= now.boot
    ensures var r := Judge(n, i, now, settled);
      && (r.called ==>
            && JudgeDue(n, i, now.boot)
            && StillHolds(i.recheck, now.boot, SeenMade(n, i), DeadlineAt(n, now.boot)))
      && (SavesSucceed(i) && JudgeDue(n, i, now.boot) ==>
            Follows(r, Admitted(n, i.tracking.value, External(i.tracking.value), now).(trust := r.node.st.trust), i,
                    StillHolds(i.recheck, now.boot, SeenMade(n, i), DeadlineAt(n, now.boot))))
      && (r.started <==> r.called && i.startOk)
  {
    SeesExactly(n, i, now.boot);
    if Sees(n, i, now.boot) {
      ConfirmsExactly(n, i, now.boot);
      var o := Observe(n.st.trust, n.samples, i, now.boot).value;
      var judges := o.external && Usable(o) && !n.st.trust.established;
      var m := if judges then Persist(Establish(n, o, now.boot), i.saveTrust) else n;
      JudgedAlike(n, m, i, now);
      hide Settle, Observe, Sees, Confirms, Usable, SeenUncertainty, SeenMade, StillHolds, JudgeDue, SettleDue,
        Admitted, DeadlineAt;
      SettleFollows(m, o, i, now, settled);
      SettleKeepsTrust(m, o, i, now, settled);
    } else {
      hide Sees;
    }
  }

  /** Reconciling an unknown outcome moves nothing else that a correction depends on. */
  lemma DueAlike(n: Node, m: Node, i: RefreshInput, now: Clock)
    requires m.samples == n.samples && (m.st == n.st || m.st == n.st.WithOutcome(Reconciled))
    requires i.tracking.Some?
    ensures CorrectionDue(m, i, now.boot) ==> CorrectionDue(n, i, now.boot)
    ensures CorrectionDue(n, i, now.boot) && (m.st == n.st || n.st.budget.outcome == Unresolved) ==>
      CorrectionDue(m, i, now.boot)
    ensures DeadlineAt(m, now.boot) == DeadlineAt(n, now.boot) && SeenMade(m, i) == SeenMade(n, i)
    ensures var t: Tracking := i.tracking.value; Admitted(m, t, External(t), now) == Admitted(n, t, External(t), now)
  {
    SeenAlike(n, m, i, now.boot);
    hide Sees, Confirms, SeenMade, SeenUncertainty, Correctable;
  }

  /**
   What a refresh asks chrony for, on the raw record, report, samples and clocks. It calls
   for a makestep only if `MakestepDue`, whatever becomes of its saves. If they succeed and
   one is wanted, the record says when, on what clock, by how much, on whose word and on
   which sample; it is asked for exactly if the evidence and the deadline still hold at the
   last look at the clock, expires otherwise, and is tried twice in one window at most.
   */
  lemma RefreshFollows(n: Node, i: RefreshInput)
    ensures var r := Refresh(n, i);
      && (r.called ==> MakestepDue(n, i))
      && (r.started <==> r.called && i.startOk)
      && (SavesSucceed(i) && MakestepWanted(n, i) ==>
            var t: Tracking := i.tracking.value; var now := i.clock.value;
            Follows(r, Admitted(n, t, External(t), now).(trust := r.node.st.trust), i,
                    StillHolds(i.recheck, now.boot, SeenMade(n, i), DeadlineAt(n, now.boot))))
  {
    if Stands(n, i) {
      var now := i.clock.value;
      var n0 := n.(qualityBoot := now.boot);
      MovedExactly(n0, now);
      assert Moved(n0, now) == Moved(n, now);
      var m := if Moved(n, now) then Persist(n0.(st := n0.st.WithOutcome(Reconciled)), i.saveMoved) else n0;
      if i.tracking.Some? { DueAlike(n, m, i, now); } else { NothingSeen(n, m, i, now.boot); }
      hide Judge, MovementMatches, Moved, CorrectionDue, SeenMade, StillHolds, Follows, Admitted, DeadlineAt;
      JudgeFollows(m, i, now, Moved(n, now));
    }
  }

  lemma NothingSeen(n: Node, m: Node, i: RefreshInput, bt: int)
    requires i.tracking.None?
    ensures !CorrectionDue(n, i, bt) && !CorrectionDue(m, i, bt)
  {
  }

  // ----- What else a refresh leaves -----

  /** A late episode may open on this observation, whether or not it can then be corrected by. */
  predicate LateOpens(n: Node, t: Tracking, bt: int) {
    && t.age <= 30 * SECOND && t.uncertainty <= 5.0
    && bt >= n.st.budget.deadline && (t.residual > 1.0 || t.residual < -1.0)
    && ((t.external && !n.st.budget.lateUsed)
        || (t.source == NetworkHoldover && !n.st.budget.lateHoldoverUsed && !n.st.trust.established))
  }

  /** The budget but for what is done inside its window. */
  function WindowOf(b: Budget): Budget {
    b.(outcome := Available, attempts := 0)
  }

  function WindowAfter(b: Budget, opens: bool, external: bool, bt: int): Budget {
    if opens then WindowOf(BudgetAt(b, external, bt)) else WindowOf(b)
  }

  /** The window a refresh leaves, if its saves succeed, and the quality: none once a makestep is admitted. */
  predicate LeavesWindow(n: Node, q: Node, opens: bool, external: bool, bt: int, admits: bool) {
    && WindowOf(q.st.budget) == WindowAfter(n.st.budget, opens, external, bt)
    && q.quality == (if admits then UNKNOWN_QUALITY else n.quality) && q.qualityBoot == n.qualityBoot
  }

  lemma IssueLeaves(n: Node, t: Tracking, i: RefreshInput, now: Clock, settled: bool)
    requires i.saveDispatch == Written
    ensures LeavesWindow(n, Issue(n, t, i, now, settled).node, false, false, now.boot, true)
  {
    hide StillAdmitted;
  }

  lemma RecoverLeaves(n: Node, t: Tracking, i: RefreshInput, now: Clock, settled: bool)
    requires SavesSucceed(i)
    ensures LeavesWindow(n, Recover(n, t, i, now, settled).node, LateOpens(n, t, now.boot), t.external, now.boot,
                         RecoverDue(n, t, now.boot))
  {
    hide Issue;
    IssueLeaves(n, t, i, now, settled);
    IssueLeaves(Persist(LateEpisode(n, t, now.boot), i.saveLate), t, i, now, settled);
  }

  /** The outcome is known, or becomes known by this observation. */
  predicate Knows(n: Node, t: Tracking, bt: int) {
    || (n.st.budget.outcome != InFlight && n.st.budget.outcome != Unresolved)
    || (n.st.budget.outcome == Unresolved && bt - n.st.dispatch.boot >= 10 * SECOND && -0.1 < t.residual < 0.1
        && t.source != Local && t.age < 5 * SECOND && t.uncertainty < 5.0)
  }

  lemma SettleLeaves(n: Node, t: Tracking, i: RefreshInput, now: Clock, settled: bool)
    requires SavesSucceed(i)
    ensures var q := Settle(n, t, i, now, settled).node;
      && WindowOf(q.st.budget) == WindowAfter(n.st.budget, Knows(n, t, now.boot) && !n.st.fence.preparing
          && LateOpens(n, t, now.boot),
                                              t.external, now.boot)
      && q.qualityBoot == n.qualityBoot
      && q.quality == (if Knows(n, t, now.boot) && !SettleDue(n, t, now.boot)
                       then Quality(t.source, t.external, t.age, t.residual, t.uncertainty) else UNKNOWN_QUALITY)
  {
    hide Recover;
    var n0 := n.(quality := QualityOf(t));
    var n1 := Persist(n0.(st := n0.st.WithOutcome(Reconciled)), i.saveReconciled);
    RecoverLeaves(n0, t, i, now, settled);
    RecoverLeaves(n1, t, i, now, true);
  }

  /** The outcome is known, or this refresh finds it reconciled. */
  predicate OutcomeKnown(n: Node, i: RefreshInput, now: Clock) {
    || (n.st.budget.outcome != InFlight && n.st.budget.outcome != Unresolved)
    || Moved(n, now) || NothingLeft(n, i, now.boot)
  }

  predicate LateEpisodeDue(n: Node, i: RefreshInput, bt: int) {
    && Sees(n, i, bt) && !n.st.fence.preparing
    && bt - SeenMade(n, i) <= 30 * SECOND && SeenUncertainty(n, i, bt) <= 5.0
    && LateDue(n, i.tracking.value, n.st.trust.established || Confirms(n, i, bt), bt)
  }

  function SeenQuality(n: Node, i: RefreshInput, bt: int): Quality
    requires i.tracking.Some?
  {
    var t: Tracking := i.tracking.value;
    Quality(t.source, External(t), bt - SeenMade(n, i), t.residual, SeenUncertainty(n, i, bt))
  }

  lemma JudgeLeaves(n: Node, i: RefreshInput, now: Clock, settled: bool)
    requires i.startBoot <= now.boot && SavesSucceed(i)
    ensures var q := Judge(n, i, now, settled).node;
      var known := (n.st.budget.outcome != InFlight && n.st.budget.outcome != Unresolved)
          || NothingLeft(n, i, now.boot);
      && WindowOf(q.st.budget) == WindowAfter(n.st.budget, known && LateEpisodeDue(n, i, now.boot),
                                              i.tracking.Some? && External(i.tracking.value), now.boot)
      && q.qualityBoot == n.qualityBoot
      && q.quality == (if Sees(n, i, now.boot) && known && !JudgeDue(n, i, now.boot) then SeenQuality(n, i, now.boot)
                       else UNKNOWN_QUALITY)
  {
    SeesExactly(n, i, now.boot);
    if Sees(n, i, now.boot) {
      ConfirmsExactly(n, i, now.boot);
      var o := Observe(n.st.trust, n.samples, i, now.boot).value;
      var judges := o.external && Usable(o) && !n.st.trust.established;
      var m := if judges then Persist(Establish(n, o, now.boot), i.saveTrust) else n;
      JudgedAlike(n, m, i, now);
      SettleLeaves(m, o, i, now, settled);
      hide Settle, Observe, Sees, Confirms, Usable, SeenUncertainty, SeenMade, JudgeDue, SettleDue, BudgetAt;
    } else {
      hide Sees;
    }
  }

  /**
   The window and the quality a refresh leaves if its saves succeed. A new window opens
   exactly when a late episode is due, once the outcome is known; nothing else moves
   deadline, episode or late flags. What it sees becomes the quality, unless the outcome
   stays unknown or a makestep is admitted; it then answers none.
   */
  lemma RefreshLeaves(n: Node, i: RefreshInput)
    requires SavesSucceed(i)
    ensures var q := Refresh(n, i).node;
      if !Stands(n, i) then q == n
      else
        var now := i.clock.value;
        var known := OutcomeKnown(n, i, now);
        && WindowOf(q.st.budget) == WindowAfter(n.st.budget, known && LateEpisodeDue(n, i, now.boot),
                                                i.tracking.Some? && External(i.tracking.value), now.boot)
        && q.qualityBoot == now.boot
        && q.quality == (if Sees(n, i, now.boot) && known && !MakestepWanted(n, i) then SeenQuality(n, i, now.boot)
                         else UNKNOWN_QUALITY)
  {
    if Stands(n, i) {
      var now := i.clock.value;
      var n0 := n.(qualityBoot := now.boot);
      MovedExactly(n0, now);
      assert Moved(n0, now) == Moved(n, now);
      var m := if Moved(n, now) then Persist(n0.(st := n0.st.WithOutcome(Reconciled)), i.saveMoved) else n0;
      SeenAlike(n, m, i, now.boot);
      if i.tracking.Some? { DueAlike(n, m, i, now); } else { NothingSeen(n, m, i, now.boot); }
      hide Judge, MovementMatches, Moved, Sees, Confirms, SeenMade, SeenUncertainty, CorrectionDue, BudgetAt;
      JudgeLeaves(m, i, now, Moved(n, now));
    }
  }

  /** The window is kept, or it is the late episode's and has been saved. */
  predicate WindowIsSaved(b: Budget, b': Budget, i: RefreshInput, due: bool, external: bool, bt: int) {
    WindowOf(b') == WindowOf(b) || (due && i.saveLate == Written && WindowOf(b') == WindowAfter(b, true, external, bt))
  }

  lemma IssueKeepsWindow(n: Node, t: Tracking, i: RefreshInput, now: Clock, settled: bool)
    ensures WindowOf(Issue(n, t, i, now, settled).node.st.budget) == WindowOf(n.st.budget)
  {
    hide StillAdmitted;
  }

  lemma RecoverSavesWindow(n: Node, t: Tracking, i: RefreshInput, now: Clock, settled: bool)
    ensures var q := Recover(n, t, i, now, settled).node;
      WindowIsSaved(n.st.budget, q.st.budget, i, LateOpens(n, t, now.boot), t.external, now.boot)
  {
    hide Issue, Dispatchable;
    IssueKeepsWindow(n, t, i, now, settled);
    IssueKeepsWindow(Persist(LateEpisode(n, t, now.boot), i.saveLate), t, i, now, settled);
  }

  lemma SettleSavesWindow(n: Node, t: Tracking, i: RefreshInput, now: Clock, settled: bool)
    ensures var q := Settle(n, t, i, now, settled).node;
      WindowIsSaved(n.st.budget, q.st.budget, i, !n.st.fence.preparing
          && LateOpens(n, t, now.boot), t.external, now.boot)
  {
    hide Recover, TrackingSettles;
    var n0 := n.(quality := QualityOf(t));
    RecoverSavesWindow(n0, t, i, now, settled);
    RecoverSavesWindow(Persist(n0.(st := n0.st.WithOutcome(Reconciled)), i.saveReconciled), t, i, now, true);
  }

  lemma JudgeSavesWindow(n: Node, i: RefreshInput, now: Clock, settled: bool)
    requires i.startBoot <= now.boot
    ensures var q := Judge(n, i, now, settled).node;
      var external := i.tracking.Some? && External(i.tracking.value);
      WindowIsSaved(n.st.budget, q.st.budget, i, LateEpisodeDue(n, i, now.boot), external, now.boot)
  {
    SeesExactly(n, i, now.boot);
    if Sees(n, i, now.boot) {
      ConfirmsExactly(n, i, now.boot);
      var o := Observe(n.st.trust, n.samples, i, now.boot).value;
      var judges := o.external && Usable(o) && !n.st.trust.established;
      var m := if judges then Persist(Establish(n, o, now.boot), i.saveTrust) else n;
      SettleSavesWindow(m, o, i, now, settled);
      hide Settle, Observe, Sees, Confirms, Usable, SeenUncertainty, SeenMade, BudgetAt;
    } else {
      hide Sees;
    }
  }

  /**
   Whatever becomes of its saves, a refresh leaves the window it found, or that of a late
   episode that was due and has been saved: one that cannot be saved is taken back.
   */
  lemma UnsavedEpisodeIsTakenBack(n: Node, i: RefreshInput)
    ensures var b := Refresh(n, i).node.st.budget;
      || WindowOf(b) == WindowOf(n.st.budget)
      || (&& Stands(n, i) && LateEpisodeDue(n, i, i.clock.value.boot) && i.saveLate == Written
          && WindowOf(b) == WindowAfter(n.st.budget, true, External(i.tracking.value), i.clock.value.boot))
  {
    if Stands(n, i) {
      var now := i.clock.value;
      var n0 := n.(qualityBoot := now.boot);
      var n1 := Persist(n0.(st := n0.st.WithOutcome(Reconciled)), i.saveMoved);
      SeenAlike(n, n0, i, now.boot);
      SeenAlike(n, n1, i, now.boot);
      hide Judge, MovementMatches, Sees, Confirms, SeenMade, SeenUncertainty;
      JudgeSavesWindow(n0, i, now, false);
      JudgeSavesWindow(n1, i, now, true);
      if LateEpisodeDue(n, i, now.boot) { ReportIsThere(n, i, now.boot); }
    }
  }

  lemma ReportIsThere(n: Node, i: RefreshInput, bt: int)
    requires Sees(n, i, bt)
    ensures i.tracking.Some?
  {
  }

  /** Exactly when a makestep is asked for, and exactly when it is started. */
  lemma MakestepStartsExactly(n: Node, i: RefreshInput)
    requires SavesSucceed(i)
    ensures Refresh(n, i).called <==> MakestepDue(n, i)
    ensures Refresh(n, i).started <==> MakestepDue(n, i) && i.startOk
  {
    hide Refresh, MakestepWanted, StillHolds, Admitted;
    RefreshFollows(n, i);
  }

  /** An NRF or holdover report never has a makestep asked for beside established external trust. */
  lemma WeakSourcesNeedNoTrust(n: Node, i: RefreshInput)
    requires Refresh(n, i).called
    ensures i.tracking.Some?
    ensures i.tracking.value.source == Nrf || i.tracking.value.source == NetworkHoldover ==> !n.st.trust.established
  {
    hide Refresh, SeenMade, SeenUncertainty, StillHolds, LateDue, Admitted, Follows;
    RefreshFollows(n, i);
  }

  /**
   There and back: a makestep on an NRF or user sample, whose command ended without an
   answer, is recognised by a later refresh with chrony silent from what the first refresh
   recorded, if the wall clock has gained the dispatched residual on boot time since and
   the sample is not yet 30 s old.
   */
  lemma CorrectionIsFound(n: Node, i: RefreshInput, save: SaveResult, j: RefreshInput)
    requires SavesSucceed(i) && MakestepDue(n, i) && i.startOk
    requires i.tracking.value.source == Nrf || i.tracking.value.source == User
    requires j.tracking.None? && j.saveMoved == j.saveTrust == Written && j.startGeneration == n.st.generation
    requires j.clock.Some? && j.startBoot <= j.clock.value.boot && i.clock.value.wall != 0
    requires j.clock.value.boot >= i.clock.value.boot + 10 * SECOND
    requires j.clock.value.boot - Made(n.samples[i.tracking.value.source]) <= 30 * SECOND
    requires -INT64_MAX <= j.clock.value.wall - i.clock.value.wall <= INT64_MAX
    requires -0.1 < Seconds(j.clock.value.wall - i.clock.value.wall) - Seconds(j.clock.value.boot - i.clock.value.boot)
                    - i.tracking.value.residual < 0.1
    ensures Refresh(CommandDone(Refresh(n, i).node, false, save), j).settled
  {
    var now := i.clock.value;
    var source := i.tracking.value.source;
    assert source in n.samples && n.samples[source].receipt <= now.boot;
    var a := Refresh(n, i).node;
    RefreshFollows(n, i);
    TrustIsGainedExactly(n, i);
    assert a.st.dispatch == Dispatch(now.boot, now.wall, i.tracking.value.residual, source, n.samples[source]);
    assert a.samples == n.samples && a.st.generation == n.st.generation;
    hide Refresh, MakestepDue, MakestepWanted, Follows, Sees, Confirms, Admitted;
    var b := CommandDone(a, false, save);
    assert Moved(b, j.clock.value);
    ReconciledExactly(b, j);
  }
}
