/**
 The recovery windows: what a start, a suspend preparation and a resume leave behind, on
 the raw record and clocks, and what an open window is good for. And what external trust
 rules out until the next loss, in whole runs.
 */
module ClockWindows {
  import opened Options
  import opened ClockTypes
  import opened ClockSpec
  import opened ClockRuns
  import opened ClockFrames
  import opened ClockDecisions

  // ----- When NRF recovery is open -----

  /** The kept quality, seen at `bt`, confirms external time. One without a source does not age. */
  predicate QualityConfirms(n: Node, bt: int) {
    var q := n.quality;
    && q.external && q.age + (if q.source == Unknown then 0 else bt - n.qualityBoot) <= 30 * SECOND
    && q.uncertainty - 5.0 <= q.residual <= 5.0 - q.uncertainty
  }

  /** An NRF may set the clock: an initial or resume window is open and unspent, and nothing external is known. */
  predicate NrfMay(n: Node, clock: Option<Clock>) {
    && clock.Some? && n.qualityBoot <= clock.value.boot < n.st.budget.deadline
    && !n.st.fence.preparing && !n.st.trust.established
    && (n.st.budget.episode == Initial || n.st.budget.episode == ResumeEpisode)
    && n.st.budget.outcome == Available
    && !QualityConfirms(n, clock.value.boot)
  }

  /** Exactly when the coordinator answers that it may. */
  lemma NrfIsEligibleExactly(n: Node, clock: Option<Clock>)
    ensures StatusOf(n, clock).nrfEligible <==> NrfMay(n, clock)
  {
  }

  /** A window that opened at `from` with nothing spent of it, on an engine that knows no quality yet. */
  predicate OpenedAt(n: Node, episode: Episode, from: int) {
    && n.st.budget.episode == episode && n.st.budget.deadline == from + 90 * SECOND
    && n.st.budget.outcome == Available && n.st.budget.attempts == 0
    && !n.st.fence.preparing && !n.st.trust.established && n.quality == UNKNOWN_QUALITY
  }

  /** Until 90 s after it opened, and not longer, a window admits an NRF. */
  lemma WindowAdmitsNrf(n: Node, episode: Episode, from: int, now: Clock)
    requires OpenedAt(n, episode, from) && (episode == Initial || episode == ResumeEpisode) && n.qualityBoot <= now.boot
    ensures StatusOf(n, Some(now)).nrfEligible <==> now.boot < from + 90 * SECOND
  {
    NrfIsEligibleExactly(n, Some(now));
  }

  /**
   Until 90 s after it opened, an NTP report with a residual of 1 s or more starts a
   makestep, if it was made more than 5 s after the loss, if there was one, and is at most
   30 s old at the last look.
   */
  lemma WindowAdmitsNtp(n: Node, episode: Episode, from: int, i: RefreshInput)
    requires OpenedAt(n, episode, from) && SavesSucceed(i) && i.startOk && Stands(n, i)
    requires i.tracking.Some? && i.tracking.value.source == Ntp && i.tracking.value.uncertainty <= 5.0
    requires i.tracking.value.residual >= 1.0 || i.tracking.value.residual <= -1.0
    requires i.recheck.Some? && i.clock.value.boot <= i.recheck.value.boot < from + 90 * SECOND
    requires i.recheck.value.boot - (i.startBoot - i.tracking.value.age) <= 30 * SECOND
    requires n.st.trust.afterBoot == 0 || i.startBoot - i.tracking.value.age > n.st.trust.afterBoot + 5 * SECOND
    ensures Refresh(n, i).started
  {
    MakestepStartsExactly(n, i);
    hide Refresh;
  }

  // ----- Start -----

  /** A record as an earlier process of this boot left it. */
  predicate OfThisBoot(disk: Option<State>, bootId: string) {
    disk.Some? && disk.value.bootId == bootId
  }

  /**
   Exactly when an engine comes up, and with what: in a new boot with its first window open
   for 90 s, in the same boot with the record it finds, a command in flight turned into one
   of unknown outcome, and the metadata whose limits hold.
   */
  lemma StartsExactly(disk: Option<State>, i: BootInput)
    ensures var (d, e) := Start(disk, i);
      && (e.Some? <==> && i.bootId != "" && i.clock.Some? && i.readable && i.save == Written
                       && (OfThisBoot(disk, i.bootId) ==> disk.value.generation != 0))
      && (e.Some? ==>
            && d == Some(e.value.st) && e.value.disk == e.value.st && !e.value.inFlight
                && e.value.quality == UNKNOWN_QUALITY
            && (!OfThisBoot(disk, i.bootId) ==>
                  && OpenedAt(e.value, Initial, i.clock.value.boot) && e.value.st.bootId == i.bootId
                  && e.value.st.generation == 1 && e.value.st.trust.afterBoot == 0 && e.value.samples == map[]
                  && !e.value.st.budget.lateUsed && !e.value.st.budget.lateHoldoverUsed)
            && (OfThisBoot(disk, i.bootId) ==>
                  && e.value.st == disk.value.(budget := e.value.st.budget)
                  && e.value.st.budget == disk.value.budget.(outcome := e.value.st.budget.outcome)
                  && e.value.st.budget.outcome ==
                       (if disk.value.budget.outcome == InFlight then Unresolved else disk.value.budget.outcome)
                  && forall s :: s in e.value.samples <==>
                       && s in disk.value.samples && (s == Nrf || s == Gps || s == User)
                       && disk.value.samples[s].receipt >= 0 && 0 <= disk.value.samples[s].age <= 30 * SECOND
                       && 0 <= disk.value.samples[s].uncertainty <= 3 * SECOND)
            && forall s | s in e.value.samples :: s in e.value.st.samples
                && e.value.samples[s] == e.value.st.samples[s])
      && (e.None? && i.save != FailedNew ==> d == disk)
  {
  }

  // ----- Prepare and Abort -----

  /** Preparing succeeds exactly if nothing was prepared, the outcome is known at the end, and clock and saves work. */
  lemma PrepareSucceedsExactly(n: Node, m: Node, start: SaveResult, clock: Option<Clock>, finish: SaveResult)
    ensures PrepareStart(n, start).1 <==> !n.st.fence.preparing && start == Written
    ensures PrepareFinish(m, clock, finish).1 <==>
      && m.st.fence.preparing && m.st.budget.outcome != InFlight && m.st.budget.outcome != Unresolved
      && clock.Some? && finish == Written
  {
  }

  /** The fence is down, and says so on disk if that could be written. */
  predicate FenceDown(n: Node, m: Node, save: SaveResult) {
    m == n.(st := m.st, disk := m.disk) && m.st == n.st.WithPreparing(false)
        && m.disk == (if save == FailedOld then n.disk else m.st)
  }

  /**
   What each phase leaves. A start that cannot be saved lowers the flag again; a wait that
   runs out, and a finish with an unknown outcome or without a clock, lower it whoever
   raised it; a baseline that cannot be saved leaves the flag up and counts as none.
   */
  lemma PrepareLeavesExactly(n: Node, clock: Option<Clock>, save: SaveResult)
    ensures n.st.fence.preparing ==> PrepareStart(n, save).0 == n
    ensures !n.st.fence.preparing ==>
      PrepareStart(n, save).0.st == n.st.(fence := n.st.fence.(preparing := save == Written, baselineValid := false))
    ensures FenceDown(n, PrepareTimeout(n, save), save)
    ensures var m := PrepareFinish(n, clock, save).0;
      if !n.st.fence.preparing then m == n
      else if n.st.budget.outcome == InFlight || n.st.budget.outcome == Unresolved || clock.None?
          then FenceDown(n, m, save)
      else m.st == n.st.(fence := Fence(true, save == Written, clock.value.wall, clock.value.boot))
    ensures var m := Abort(n, save).0;
      m.st == (if save == Written then n.st.WithPreparing(false) else n.st)
  {
  }

  /**
   A preparation that is aborted leaves the record as it was but for the baseline, in memory
   and on disk; an idle engine can always be prepared.
   */
  lemma AbortUndoesPrepare(n: Node, clock: Clock)
    requires !n.st.fence.preparing && Resolved(n.st.budget.outcome)
    ensures var p := PrepareFinish(PrepareStart(n, Written).0, Some(clock), Written);
      var a := Abort(p.0, Written);
      && p.1 && p.0 == n.(st := p.0.st, disk := p.0.st)
          && p.0.st == n.st.(fence := Fence(true, true, clock.wall, clock.boot))
      && a.1 && a.0 == n.(st := a.0.st, disk := a.0.st)
      && a.0.st == n.st.(fence := Fence(false, true, clock.wall, clock.boot))
  {
  }

  // ----- Resume -----

  /** What boot time gained on UTC since the baseline. */
  function Gained(n: Node, now: Clock): int {
    (now.boot - n.st.fence.boot) - (now.wall - n.st.fence.utc)
  }

  /**
   Exactly when a resume is acknowledged, and what it leaves, in memory and on disk. A loss
   of more than 2 s opens the resume window for 90 s from then, unspent, with the late
   episodes used so far still used, and revokes trust; anything less leaves budget and
   trust alone. A preparation without a baseline is only cleared.
   */
  lemma ResumeExactly(n: Node, bootId: string, generation: nat, clock: Option<Clock>, save: SaveResult)
    ensures var r := Resume(n, bootId, generation, clock, save);
      && (r.ok <==> && n.st.fence.preparing && bootId == n.st.bootId && generation == n.st.generation && save == Written
                    && (n.st.fence.baselineValid ==> clock.Some? && clock.value.boot >= n.st.fence.boot))
      && (r.ok && n.st.fence.baselineValid ==>
            && r.node.disk == r.node.st && r.node.samples == map[] && r.node.quality == UNKNOWN_QUALITY
            && !r.node.st.fence.preparing && r.node.st.bootId == n.st.bootId
            && r.node.st.generation == n.st.generation + 1 && r.node.st.samples == map[]
            && (r.lossy <==> Gained(n, clock.value) > 2 * SECOND)
            && (r.lossy ==>
                  && OpenedAt(r.node, ResumeEpisode, clock.value.boot)
                  && r.node.st.trust.afterBoot == clock.value.boot
                  && r.node.st.budget.lateUsed == n.st.budget.lateUsed
                  && r.node.st.budget.lateHoldoverUsed == n.st.budget.lateHoldoverUsed)
            && (!r.lossy ==> r.node.st.budget == n.st.budget && r.node.st.trust == n.st.trust))
      && (r.ok && !n.st.fence.baselineValid ==>
            !r.lossy && r.node == n.(st := r.node.st, disk := r.node.st) && r.node.st == n.st.WithPreparing(false))
      && (!r.ok ==> r.node.st == n.st && r.node.samples == n.samples)
  {
  }

  /**
   End to end over a sleep: a preparation, a sleep in which boot time gained more than 2 s
   on UTC, and the resume with its token. Until 90 s after the resume an NRF is admitted and
   an NTP report of 1 s or more, made since, starts a makestep.
   */
  lemma LossIsRecoverable(n: Node, before: Clock, after: Clock, now: Clock, i: RefreshInput)
    requires !n.st.fence.preparing && Resolved(n.st.budget.outcome) && n.qualityBoot <= after.boot
    requires before.boot <= after.boot && (after.boot - before.boot) - (after.wall - before.wall) > 2 * SECOND
    ensures var p := PrepareFinish(PrepareStart(n, Written).0, Some(before), Written);
      var r := Resume(p.0, n.st.bootId, n.st.generation, Some(after), Written);
      && p.1 && r.ok && r.lossy
      && (after.boot <= now.boot ==>
            (StatusOf(r.node, Some(now)).nrfEligible <==> now.boot < after.boot + 90 * SECOND))
      && (&& SavesSucceed(i) && i.startOk && Stands(r.node, i)
          && i.tracking.Some? && i.tracking.value.source == Ntp && i.tracking.value.uncertainty <= 5.0
          && (i.tracking.value.residual >= 1.0 || i.tracking.value.residual <= -1.0)
          && i.startBoot - i.tracking.value.age > after.boot + 5 * SECOND
          && i.recheck.Some? && i.clock.value.boot <= i.recheck.value.boot < after.boot + 90 * SECOND
          && i.recheck.value.boot - (i.startBoot - i.tracking.value.age) <= 30 * SECOND
          ==> Refresh(r.node, i).started)
  {
    AbortUndoesPrepare(n, before);
    var p := PrepareFinish(PrepareStart(n, Written).0, Some(before), Written).0;
    assert p.qualityBoot == n.qualityBoot;
    hide PrepareStart, PrepareFinish, Abort;
    ResumeExactly(p, n.st.bootId, n.st.generation, Some(after), Written);
    ResumeKeepsBoot(p, n.st.bootId, n.st.generation, Some(after), Written);
    var r := Resume(p, n.st.bootId, n.st.generation, Some(after), Written);
    hide Resume, StatusOf, Refresh;
    if after.boot <= now.boot { WindowAdmitsNrf(r.node, ResumeEpisode, after.boot, now); }
    if && SavesSucceed(i) && i.startOk && Stands(r.node, i)
       && i.tracking.Some? && i.tracking.value.source == Ntp && i.tracking.value.uncertainty <= 5.0
       && (i.tracking.value.residual >= 1.0 || i.tracking.value.residual <= -1.0)
       && i.startBoot - i.tracking.value.age > after.boot + 5 * SECOND
       && i.recheck.Some? && i.clock.value.boot <= i.recheck.value.boot < after.boot + 90 * SECOND
       && i.recheck.value.boot - (i.startBoot - i.tracking.value.age) <= 30 * SECOND
    {
      WindowAdmitsNtp(r.node, ResumeEpisode, after.boot, i);
    }
  }

  lemma ResumeKeepsBoot(n: Node, bootId: string, generation: nat, clock: Option<Clock>, save: SaveResult)
    ensures Resume(n, bootId, generation, clock, save).node.qualityBoot == n.qualityBoot
  {
  }

  // ----- What trust rules out -----

  /** External time is confirmed, in memory and on disk. */
  predicate Trusting(boot: string, s: System) {
    match s
    case Up(n, _) => n.st.trust.established && n.disk.trust.established && n.disk.bootId == boot
    case Down(disk, _) => disk.Some? && disk.value.bootId == boot && disk.value.trust.established
  }

  /** The engine and its file, as far as trust goes. */
  predicate Established(n: Node) {
    n.st.trust.established && n.disk.trust.established
  }

  lemma RefreshKeepsEstablished(n: Node, i: RefreshInput)
    requires Established(n)
    ensures Established(Refresh(n, i).node)
  {
    hide Refresh;
    TrustIsGainedExactly(n, i);
  }

  lemma SubmitKeepsEstablished(n: Node, i: SubmitInput)
    requires Established(n)
    ensures Established(Submit(n, i).node)
  {
    hide Admits, Confirmation;
  }

  lemma ResumeKeepsEstablished(n: Node, bootId: string, generation: nat, clock: Option<Clock>, save: SaveResult)
    requires Established(n) && !Resume(n, bootId, generation, clock, save).lossy
    ensures Established(Resume(n, bootId, generation, clock, save).node)
  {
  }

  lemma OtherKeepsEstablished(n: Node, clock: Option<Clock>, save: SaveResult, ok: bool)
    requires Established(n)
    ensures Established(PrepareStart(n, save).0) && Established(PrepareFinish(n, clock, save).0)
    ensures Established(PrepareTimeout(n, save)) && Established(Abort(n, save).0)
        && Established(CommandDone(n, ok, save))
  {
  }

  lemma NextKeepsEstablished(boot: string, s: System, step: Step)
    requires s.Up? && Established(s.node) && Next(boot, s, step).ledger.losses == s.ledger.losses
    ensures var r := Next(boot, s, step);
      (r.Up? ==> Established(r.node)) && (r.Down? ==> r.disk == Some(s.node.disk))
  {
    hide Refresh, Submit, PrepareStart, PrepareFinish, PrepareTimeout, Abort, Resume, CommandDone, Established;
    var n := s.node;
    match step
    case Boot(_, _, _) =>
    case Crash =>
    case RefreshStep(i) => RefreshKeepsEstablished(n, i);
    case SubmitStep(i) => SubmitKeepsEstablished(n, i);
    case PrepareStartStep(save) => OtherKeepsEstablished(n, None, save, false);
    case PrepareTimeoutStep(save) => OtherKeepsEstablished(n, None, save, false);
    case PrepareFinishStep(clock, save) => OtherKeepsEstablished(n, clock, save, false);
    case AbortStep(save) => OtherKeepsEstablished(n, None, save, false);
    case ResumeStep(b, g, clock, save) => ResumeKeepsEstablished(n, b, g, clock, save);
    case CommandStep(ok, save) => OtherKeepsEstablished(n, None, save, ok);
  }

  lemma NextKeepsTrusting(boot: string, s: System, step: Step)
    requires Sound(boot, s) && Trusting(boot, s) && Next(boot, s, step).ledger.losses == s.ledger.losses
    ensures Trusting(boot, Next(boot, s, step))
  {
    hide RecordFits, RecordOk;
    NextIsSound(boot, s, step);
    if s.Up? {
      NextKeepsEstablished(boot, s, step);
      hide Next;
    } else {
      hide CanStart;
    }
  }

  lemma {:induction false} TrustStands(boot: string, s: System, steps: seq<Step>)
    requires Sound(boot, s) && Trusting(boot, s) && Run(boot, s, steps).ledger.losses == s.ledger.losses
    ensures Trusting(boot, Run(boot, s, steps))
    decreases |steps|
  {
    hide Sound, Trusting, Next;
    if steps != [] {
      var s' := Next(boot, s, steps[0]);
      LossesGrow(boot, s', steps[1..]);
      NextCountsLosses(boot, s, steps[0]);
      NextKeepsTrusting(boot, s, steps[0]);
      NextIsSound(boot, s, steps[0]);
      TrustStands(boot, s', steps[1..]);
    }
  }

  lemma NextCountsLosses(boot: string, s: System, step: Step)
    ensures s.ledger.losses <= Next(boot, s, step).ledger.losses
  {
    hide Refresh, Submit, Resume, Start, PrepareStart, PrepareFinish, Abort, CommandDone;
  }

  lemma {:induction false} LossesGrow(boot: string, s: System, steps: seq<Step>)
    ensures s.ledger.losses <= Run(boot, s, steps).ledger.losses
    decreases |steps|
  {
    hide Next;
    if steps != [] {
      NextCountsLosses(boot, s, steps[0]);
      LossesGrow(boot, Next(boot, s, steps[0]), steps[1..]);
    }
  }

  /**
   In every run, once external time is confirmed in memory and on disk and until a resume
   measures the next loss, no refresh asks for a makestep on an NRF or holdover report, and
   no NRF is admitted, across crashes and restarts.
   */
  lemma TrustRulesOutRecovery(boot: string, s: System, steps: seq<Step>, k: nat, i: RefreshInput, clock: Option<Clock>)
    requires boot != "" && Initially(boot, s) && k <= |steps|
    requires Trusting(boot, Run(boot, s, steps[..k]))
    requires Run(boot, s, steps).ledger.losses == Run(boot, s, steps[..k]).ledger.losses && Run(boot, s, steps).Up?
    ensures var n := Run(boot, s, steps).node;
      && !StatusOf(n, clock).nrfEligible
      && (Refresh(n, i).called ==>
            i.tracking.Some? && i.tracking.value.source != Nrf && i.tracking.value.source != NetworkHoldover)
  {
    RunIsSound(boot, s, steps[..k]);
    assert steps == steps[..k] + steps[k..];
    RunJoins(boot, s, steps[..k], steps[k..]);
    TrustStands(boot, Run(boot, s, steps[..k]), steps[k..]);
    var n := Run(boot, s, steps).node;
    hide Run, Sound, Refresh;
    if Refresh(n, i).called { WeakSourcesNeedNoTrust(n, i); }
  }
}
