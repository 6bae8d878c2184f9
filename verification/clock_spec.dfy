/**
 The coordinator's critical sections as functions on `Node`.
 Everything the engine does not decide itself (clock readings, chrony's answers,
 the result of each save) is an argument.
 */
module ClockSpec {
  import opened Options
  import opened ClockTypes

  // ----- Saving -----

  function Persist(n: Node, r: SaveResult): Node {
    if r == FailedOld then n else n.(disk := n.st)
  }

  // ----- Start -----

  datatype BootInput = BootInput(bootId: string, clock: Option<Clock>, readable: bool, save: SaveResult)

  function InitialState(bootId: string, bt: int): State {
    State(bootId, 1,
          Fence(false, false, 0, 0),
          Budget(Initial, bt + EPISODE_WINDOW, Available, 0, false, false),
          Dispatch(0, 0, 0.0, Unknown, NO_SAMPLE),
          Trust(false, 0, History(0, NoBasis)),
          map[])
  }

  predicate Reloadable(source: Source, s: Sample) {
    && Producer(source)
    && s.receipt >= 0
    && 0 <= s.age <= SAMPLE_MAX_AGE
    && 0 <= s.uncertainty <= 3 * SECOND
  }

  function Reload(samples: map<Source, Sample>): map<Source, Sample> {
    map s | s in samples && Reloadable(s, samples[s]) :: samples[s]
  }

  /** The state a new process starts from, given what the file holds. */
  function StartState(bootId: string, bt: int, disk: Option<State>): State {
    if disk.None? || disk.value.bootId != bootId then InitialState(bootId, bt)
    else if disk.value.budget.outcome == InFlight then disk.value.WithOutcome(Unresolved)
    else disk.value
  }

  predicate CanStart(disk: Option<State>, i: BootInput) {
    && i.bootId != ""
    && i.clock.Some?
    && i.readable
    && (disk.Some? && disk.value.bootId == i.bootId ==> disk.value.generation != 0)
  }

  /** `disk` after `NewEngine`, and the engine when it came up. */
  function Start(disk: Option<State>, i: BootInput): (Option<State>, Option<Node>) {
    if !CanStart(disk, i) then (disk, None)
    else
      var st := StartState(i.bootId, i.clock.value.boot, disk);
      if i.save == FailedOld then (disk, None)
      else if i.save == FailedNew then (Some(st), None)
      else (Some(st), Some(Node(st, Reload(st.samples), UNKNOWN_QUALITY, 0, false, st)))
  }

  // ----- Status -----

  /** The quality published at boot time `bt`: older evidence is withdrawn. */
  function PublishedQuality(n: Node, clock: Option<Clock>): Quality {
    if clock.None? || clock.value.boot < n.qualityBoot then UNKNOWN_QUALITY
    else if n.quality.source == Unknown then n.quality
    else
      var age := n.quality.age + (clock.value.boot - n.qualityBoot);
      if age > SAMPLE_MAX_AGE then n.quality.(age := age, source := Unknown, external := false)
      else n.quality.(age := age)
  }

  predicate WithinFive(residual: real, uncertainty: real) {
    Abs(residual) + uncertainty <= 5.0
  }

  function StatusOf(n: Node, clock: Option<Clock>): Status {
    var q := PublishedQuality(n, clock);
    var eligible :=
      && clock.Some?
      && clock.value.boot >= n.qualityBoot
      && !n.st.fence.preparing
      && !n.st.trust.established
      && (n.st.budget.episode == Initial || n.st.budget.episode == ResumeEpisode)
      && n.st.budget.outcome == Available
      && clock.value.boot < n.st.budget.deadline
      && !(q.external && q.age <= SAMPLE_MAX_AGE && WithinFive(q.residual, q.uncertainty));
    Status(q, n.st.bootId, n.st.generation, n.st.budget.episode, n.st.budget.outcome, n.st.fence.preparing, eligible,
           n.st.budget.deadline)
  }

  // ----- External trust -----

  /** After a clock-loss resume, the observation itself must lie after the resume. */
  predicate ObservationFresh(trust: Trust, samples: map<Source, Sample>, t: Tracking, bt: int) {
    if trust.afterBoot == 0 then true
    else if bt <= trust.afterBoot then false
    else if t.source == Gps then Gps in samples && samples[Gps].receipt > trust.afterBoot
    else t.source == Ntp && t.age < bt - trust.afterBoot - 5 * SECOND
  }

  function EvidenceOf(n: Node, t: Tracking, bt: int): Basis {
    if t.source == Gps && Gps in n.samples then GpsReceived(n.samples[Gps].receipt)
    else NtpObserved(bt - t.age)
  }

  function Establish(n: Node, t: Tracking, bt: int): Node {
    n.(st := n.st.(trust := Trust(true, 0,
      if n.st.trust.established then n.st.trust.history
      else n.st.trust.history.(basis := EvidenceOf(n, t, bt)))))
  }

  predicate Usable(t: Tracking) {
    t.age <= SAMPLE_MAX_AGE && WithinFive(t.residual, t.uncertainty)
  }

  // ----- Submit -----

  datatype Request = Request(
    bootId: string, generation: nat, source: Source,
    utc: int64, receipt: int64, deadline: int64, sampleAge: int64, uncertainty: int64)

  datatype SubmitInput = SubmitInput(
    request: Request,
    early: Option<Clock>,          // clock read before the NRF tracking request
    observed: Option<Report>,      // that tracking request, if valid
    clock1: Option<Clock>, clock2: Option<Clock>, clock3: Option<Clock>,
    saveTrust: SaveResult, saveInvalidated: SaveResult, sendOk: bool, saveMetadata: SaveResult)

  /** What goes to the refclock: the wall reading, the sample's offset from it in seconds, and the sample it is about. */
  datatype Datagram = Datagram(sample: Sample, wall: int, offset: real)

  /** What a submission did: the next node and the datagram handed to the refclock, if any. */
  datatype Submitted = Submitted(node: Node, accepted: bool, handed: Option<Datagram>)

  predicate SampleFresh(s: Sample, bt: int) {
    s.receipt <= bt && bt - s.receipt <= SAMPLE_MAX_AGE - s.age
  }

  function SampleAge(s: Sample, bt: int): int {
    bt - s.receipt + s.age
  }

  /** The tracking report of an NRF submission when it confirms external time. */
  function ExternalReport(samples: map<Source, Sample>, t: Tracking, bt: int): Option<Tracking> {
    if t.source == Gps then
      if Gps !in samples || !SampleFresh(samples[Gps], bt) then None
      else
        var s := samples[Gps];
        var age := SampleAge(s, bt);
        if age < 0 || t.age > age + 2 * SECOND then None
        else Some(t.(age := if age > t.age then age else t.age,
                     uncertainty := MaxReal(t.uncertainty, Seconds(s.uncertainty))))
    else if t.source == Ntp && t.external then Some(t)
    else None
  }

  function Confirmation(n: Node, i: SubmitInput): Option<Tracking> {
    if i.request.source == Nrf && i.early.Some? && i.observed.Some? && i.clock1.Some?
       && i.clock1.value.boot >= i.early.value.boot
    then
      var bt := i.clock1.value.boot;
      var t := ExternalReport(n.samples, i.observed.value.(age := i.observed.value.age + (bt - i.early.value.boot)), bt);
      if t.Some? && ObservationFresh(n.st.trust, n.samples, t.value, bt) && Usable(t.value) then t else None
    else None
  }

  function MaxUncertainty(s: Source): int {
    if s == Gps then 3 * SECOND else SECOND
  }

  /**
   Age and metadata checks on the raw request. Every operation is on 64-bit
   values, so verification of this function is also the proof that none overflows.
   The result is the sample's total age at boot time `bt`.
   */
  function AdmittedAge(r: Request, bt: int64): (age: Option<int64>)
    requires bt > 0
    ensures age.Some? ==>
      && 0 <= age.value as int <= SAMPLE_MAX_AGE
      && age.value as int == bt as int - r.receipt as int + r.sampleAge as int
      && 0 < r.utc as int + age.value as int <= INT64_MAX
  {
    if r.deadline != 0 && (r.deadline <= r.receipt || bt >= r.deadline) then None
    else if r.receipt < 0 || r.receipt > bt || r.sampleAge < 0 || r.uncertainty < 0
            || r.uncertainty as int > MaxUncertainty(r.source) then None
    else
      var elapsed: int64 := bt - r.receipt;
      if elapsed > SAMPLE_MAX_AGE as int64 || r.sampleAge > SAMPLE_MAX_AGE as int64 - elapsed then None
      else
        var total: int64 := elapsed + r.sampleAge;
        if r.utc <= 0 || r.utc > INT64_MAX as int64 - total then None
        else Some(total)
  }

  /** How far the sample, moved on to the present, is ahead of the wall clock. */
  function OffsetOf(r: Request, now: Clock): real {
    Seconds(SaturatingSub(r.utc as int + (now.boot - r.receipt as int + r.sampleAge as int), now.wall))
  }

  const CENTURY := 3_153_600_000.0

  predicate PlausibleOffset(r: Request, q: Quality, offset: real) {
    && !(r.source == Nrf && offset <= 0.0)
    && !(&& r.source == Gps && q.source == Ntp && q.external
         && 0 <= q.age <= SAMPLE_MAX_AGE
         && q.uncertainty >= 0.0
         && WithinFive(q.residual, q.uncertainty)
         && Abs(offset) > Abs(q.residual) + q.uncertainty + Seconds(r.uncertainty as int))
    && Abs(offset) <= CENTURY
  }

  predicate Admits(n: Node, i: SubmitInput) {
    && i.request.bootId == n.st.bootId
    && i.request.generation == n.st.generation
    && !n.st.fence.preparing
    && Producer(i.request.source)
    && i.clock3.Some?
    && (i.request.source == Nrf ==>
          StatusOf(n, i.clock2).nrfEligible && i.clock3.value.boot < n.st.budget.deadline)
    && AdmittedAge(i.request, i.clock3.value.boot as int64).Some?
    && PlausibleOffset(i.request, StatusOf(n, i.clock2).quality, OffsetOf(i.request, i.clock3.value))
  }

  function SampleOf(r: Request): Sample {
    Sample(r.receipt as int, r.sampleAge as int, r.uncertainty as int)
  }

  function WithoutSample(n: Node, s: Source): Node {
    n.(samples := n.samples - {s}, st := n.st.(samples := n.st.samples - {s}))
  }

  function WithSample(n: Node, s: Source, x: Sample): Node {
    n.(samples := n.samples[s := x], st := n.st.(samples := n.st.samples[s := x]))
  }

  function Deliver(n: Node, i: SubmitInput): Submitted
    requires i.clock3.Some?
  {
    var source := i.request.source;
    var sample := SampleOf(i.request);
    var datagram := Datagram(sample, i.clock3.value.wall, OffsetOf(i.request, i.clock3.value));
    var n1 := Persist(WithoutSample(n, source), i.saveInvalidated);
    if i.saveInvalidated != Written then Submitted(n1, false, None)
    else if !i.sendOk then Submitted(n1, false, Some(datagram))
    else
      var n2 := Persist(WithSample(n1, source, sample), i.saveMetadata);
      if i.saveMetadata != Written then Submitted(WithoutSample(n2, source), false, Some(datagram))
      else Submitted(n2, true, Some(datagram))
  }

  function Submit(n: Node, i: SubmitInput): Submitted {
    if (i.request.source == Nrf && i.early.None?) || i.clock1.None? then Submitted(n, false, None)
    else
      var t := Confirmation(n, i);
      if t.Some? then Submitted(Persist(Establish(n, t.value, i.clock1.value.boot), i.saveTrust), false, None)
      else if !Admits(n, i) then Submitted(n, false, None)
      else Deliver(n, i)
  }

  // ----- Refresh -----

  datatype RefreshInput = RefreshInput(
    startGeneration: nat, startBoot: BootTime,
    tracking: Option<Report>,
    clock: Option<Clock>,
    saveMoved: SaveResult, saveTrust: SaveResult, saveReconciled: SaveResult,
    saveLate: SaveResult, saveDispatch: SaveResult,
    recheck: Option<Clock>, saveExpired: SaveResult,
    startOk: bool, saveStartFailed: SaveResult)

  /**
   What a refresh did: the next node, whether it called StartStep, whether that
   started a makestep, and whether it found an unresolved command reconciled.
   */
  datatype Refreshed = Refreshed(node: Node, called: bool, started: bool, settled: bool)

  function Quiet(n: Node, settled: bool): Refreshed {
    Refreshed(n, false, false, settled)
  }

  /** The observed wall clock moved against CLOCK_BOOTTIME by the dispatched correction. */
  predicate MovementMatches(n: Node, now: Clock) {
    && n.st.budget.outcome == Unresolved
    && (n.st.dispatch.source == Nrf || n.st.dispatch.source == User)
    && n.st.dispatch.utc != 0
    && now.boot - n.st.dispatch.boot >= 10 * SECOND
    && n.st.dispatch.source in n.samples
    && n.samples[n.st.dispatch.source] == n.st.dispatch.sample
    && SampleFresh(n.samples[n.st.dispatch.source], now.boot)
    && Abs(Seconds(SaturatingSub(now.wall, n.st.dispatch.utc)) - Seconds(now.boot - n.st.dispatch.boot)
           - n.st.dispatch.residual) < 0.1
  }

  /** The report with the evidence of the selected sample folded in, or none if it cannot be used. */
  function Assess(samples: map<Source, Sample>, t: Tracking, bt: int): Option<Tracking> {
    if Producer(t.source) then
      if t.source !in samples || !SampleFresh(samples[t.source], bt) then None
      else
        var s := samples[t.source];
        var age := SampleAge(s, bt);
        if age < 0 || t.age > age + 2 * SECOND then None
        else
          var older := if age > t.age then age else t.age;
          Some(t.(external := t.source == Gps,
                  age := older,
                  uncertainty :=
                    if t.source == Gps then MaxReal(t.uncertainty, Seconds(s.uncertainty))
                    else MaxReal(1.0, Seconds(s.uncertainty)) + Seconds(older) * t.skewPpm / 1_000_000.0))
    else Some(t)
  }

  function Observe(trust: Trust, samples: map<Source, Sample>, i: RefreshInput, bt: int): Option<Tracking>
    requires i.startBoot <= bt
  {
    if i.tracking.None? then None
    else
      var t := Assess(samples, i.tracking.value.(age := i.tracking.value.age + (bt - i.startBoot)), bt);
      if t.Some? && t.value.external && !ObservationFresh(trust, samples, t.value, bt) then None else t
  }

  function QualityOf(t: Tracking): Quality {
    Quality(t.source, t.external, t.age, t.residual, t.uncertainty)
  }

  predicate TrackingSettles(n: Node, t: Tracking, bt: int) {
    && n.st.budget.outcome == Unresolved
    && bt - n.st.dispatch.boot >= 10 * SECOND
    && Abs(t.residual) < 0.1
    && t.source != Local && t.age < 5 * SECOND && t.uncertainty < 5.0
  }

  predicate LateExternalDue(n: Node, t: Tracking) {
    t.external && !n.st.budget.lateUsed
  }

  predicate LateHoldoverDue(n: Node, t: Tracking) {
    t.source == NetworkHoldover && !n.st.budget.lateHoldoverUsed && !n.st.trust.established
  }

  predicate OpensLateEpisode(n: Node, t: Tracking, bt: int) {
    && (LateExternalDue(n, t) || LateHoldoverDue(n, t))
    && t.age <= SAMPLE_MAX_AGE
    && t.uncertainty <= 5.0
    && Abs(t.residual) > 1.0
    && bt >= n.st.budget.deadline
  }

  function LateEpisode(n: Node, t: Tracking, bt: int): Node {
    var b := n.st.budget;
    n.(st := n.st.(budget :=
      if LateExternalDue(n, t)
      then Budget(LateExternal, bt + EPISODE_WINDOW, Available, 0, true, b.lateHoldoverUsed)
      else Budget(LateHoldover, bt + EPISODE_WINDOW, Available, 0, b.lateUsed, true)))
  }

  predicate Dispatchable(n: Node, t: Tracking, bt: int) {
    && (t.source == Ntp || Producer(t.source) || t.source == NetworkHoldover)
    && !((t.source == NetworkHoldover || t.source == Nrf) && n.st.trust.established)
    && n.st.budget.outcome == Available
    && bt < n.st.budget.deadline
    && t.age <= SAMPLE_MAX_AGE
    && t.uncertainty <= 5.0
    && Abs(t.residual) >= 1.0
  }

  function Admission(n: Node, t: Tracking, now: Clock): Node {
    n.(quality := UNKNOWN_QUALITY,
       st := n.st.(budget := n.st.budget.(outcome := InFlight, attempts := n.st.budget.attempts + 1),
                   dispatch := Dispatch(now.boot, now.wall, t.residual, t.source,
                                        if t.source in n.samples then n.samples[t.source] else NO_SAMPLE)))
  }

  predicate StillAdmitted(n: Node, t: Tracking, admitted: int, recheck: Option<Clock>) {
    && recheck.Some?
    && admitted <= recheck.value.boot
    && recheck.value.boot < n.st.budget.deadline
    && t.age + (recheck.value.boot - admitted) <= SAMPLE_MAX_AGE
  }

  /** After StartStep reported that nothing was started. */
  function StartFailed(n: Node, save: SaveResult): Node {
    var n1 := Persist(n.(st := n.st.WithOutcome(if n.st.budget.attempts < 2 then Available else Failed)), save);
    if save == Written then n1 else n1.(st := n1.st.WithOutcome(Unresolved))
  }

  function Issue(n: Node, t: Tracking, i: RefreshInput, now: Clock, settled: bool): Refreshed {
    var n1 := Persist(Admission(n, t, now), i.saveDispatch);
    if i.saveDispatch != Written then Quiet(n1.(st := n.st), settled)
    else if !StillAdmitted(n1, t, now.boot, i.recheck) then
      Quiet(Persist(n1.(st := n1.st.WithOutcome(Expired)), i.saveExpired), settled)
    else if !i.startOk then Refreshed(StartFailed(n1, i.saveStartFailed), true, false, settled)
    else Refreshed(n1.(inFlight := true), true, true, settled)
  }

  /** Opening a late episode and dispatching, once nothing is unresolved or prepared. */
  function Recover(n: Node, t: Tracking, i: RefreshInput, now: Clock, settled: bool): Refreshed {
    if OpensLateEpisode(n, t, now.boot) then
      var n1 := Persist(LateEpisode(n, t, now.boot), i.saveLate);
      if i.saveLate != Written then Quiet(n1.(st := n.st), settled)
      else if Dispatchable(n1, t, now.boot) then Issue(n1, t, i, now, settled)
      else Quiet(n1, settled)
    else if Dispatchable(n, t, now.boot) then Issue(n, t, i, now, settled)
    else Quiet(n, settled)
  }

  function Gate(n: Node, t: Tracking, i: RefreshInput, now: Clock, settled: bool): Refreshed {
    if !Resolved(n.st.budget.outcome) then Quiet(n.(quality := UNKNOWN_QUALITY), settled)
    else if n.st.fence.preparing then Quiet(n, settled)
    else Recover(n, t, i, now, settled)
  }

  function Settle(n: Node, t: Tracking, i: RefreshInput, now: Clock, settled: bool): Refreshed {
    var n0 := n.(quality := QualityOf(t));
    if TrackingSettles(n0, t, now.boot) then
      var n1 := Persist(n0.(st := n0.st.WithOutcome(Reconciled)), i.saveReconciled);
      if i.saveReconciled != Written
      then Quiet(n1.(st := n1.st.WithOutcome(Unresolved), quality := UNKNOWN_QUALITY), true)
      else Gate(n1, t, i, now, true)
    else Gate(n0, t, i, now, settled)
  }

  function Judge(n: Node, i: RefreshInput, now: Clock, settled: bool): Refreshed
    requires i.startBoot <= now.boot
  {
    var o := Observe(n.st.trust, n.samples, i, now.boot);
    if o.None? then Quiet(n.(quality := UNKNOWN_QUALITY), settled)
    else if o.value.external && Usable(o.value) && !n.st.trust.established then
      var n1 := Persist(Establish(n, o.value, now.boot), i.saveTrust);
      if i.saveTrust != Written then Quiet(n1.(quality := UNKNOWN_QUALITY), settled)
      else Settle(n1, o.value, i, now, settled)
    else Settle(n, o.value, i, now, settled)
  }

  function Refresh(n: Node, i: RefreshInput): Refreshed {
    if i.clock.None? || i.clock.value.boot < i.startBoot || i.startGeneration != n.st.generation
    then Quiet(n, false)
    else
      var now := i.clock.value;
      var n0 := n.(qualityBoot := now.boot);
      if MovementMatches(n0, now) then
        var n1 := Persist(n0.(st := n0.st.WithOutcome(Reconciled)), i.saveMoved);
        if i.saveMoved != Written
        then Quiet(n1.(st := n1.st.WithOutcome(Unresolved), quality := UNKNOWN_QUALITY), true)
        else Judge(n1, i, now, true)
      else Judge(n0, i, now, false)
  }

  /** The background wait for a started makestep ends. */
  function CommandDone(n: Node, ok: bool, save: SaveResult): Node {
    var n1 := Persist(n.(st := n.st.WithOutcome(if ok then Completed else Unresolved)), save);
    n1.(inFlight := false,
        st := n1.st.WithOutcome(if save == Written then n1.st.budget.outcome else Unresolved))
  }

  // ----- Prepare, Abort, Resume -----

  /** First phase of Prepare: raise the fence. True when it goes on to wait. */
  function PrepareStart(n: Node, save: SaveResult): (Node, bool) {
    if n.st.fence.preparing then (n, false)
    else
      var n1 := Persist(n.(st := n.st.(fence := n.st.fence.(preparing := true, baselineValid := false))), save);
      if save == Written then (n1, true) else (n1.(st := n1.st.WithPreparing(false)), false)
  }

  /** The wait for an in-flight command ran out. */
  function PrepareTimeout(n: Node, save: SaveResult): Node {
    Persist(n.(st := n.st.WithPreparing(false)), save)
  }

  /** Second phase of Prepare: record the baseline. True when Prepare succeeds. */
  function PrepareFinish(n: Node, clock: Option<Clock>, save: SaveResult): (Node, bool) {
    if !n.st.fence.preparing then (n, false)
    else if !Resolved(n.st.budget.outcome) || clock.None? then (PrepareTimeout(n, save), false)
    else
      var n1 := Persist(n.(st := n.st.(fence := Fence(true, true, clock.value.wall, clock.value.boot))), save);
      if save == Written then (n1, true) else (n1.(st := n1.st.(fence := n1.st.fence.(baselineValid := false))), false)
  }

  /** Abort; true unless it was refused or its save failed. */
  function Abort(n: Node, save: SaveResult): (Node, bool) {
    if !n.st.fence.preparing then (n, false)
    else
      var n1 := Persist(n.(st := n.st.WithPreparing(false)), save);
      if save == Written then (n1, true) else (n1.(st := n1.st.WithPreparing(true)), false)
  }

  predicate ResumeAccepted(n: Node, bootId: string, generation: nat) {
    n.st.fence.preparing && bootId == n.st.bootId && generation == n.st.generation
  }

  /** CLOCK_BOOTTIME progress minus UTC progress since the baseline. */
  function Loss(n: Node, now: Clock): int {
    now.boot - n.st.fence.boot - (now.wall - n.st.fence.utc)
  }

  function AfterResume(s: State, now: Clock, lossy: bool): State {
    var s1 := s.(fence := s.fence.(preparing := false, baselineValid := false),
                 generation := s.generation + 1, samples := map[]);
    if lossy then
      s1.(trust := Trust(false, now.boot, History(now.boot, NoBasis)),
          budget := Budget(ResumeEpisode, now.boot + EPISODE_WINDOW, Available, 0,
                           s.budget.lateUsed, s.budget.lateHoldoverUsed))
    else s1
  }

  /** What a resume did: the next node, whether it answered OK, and whether it measured a loss. */
  datatype Resumed = Resumed(node: Node, ok: bool, lossy: bool)

  function Resume(n: Node, bootId: string, generation: nat, clock: Option<Clock>, save: SaveResult): Resumed {
    if !ResumeAccepted(n, bootId, generation) then Resumed(n, false, false)
    else if !n.st.fence.baselineValid then
      var a := Abort(n, save);
      Resumed(a.0, a.1, false)
    else if clock.None? || clock.value.boot < n.st.fence.boot then Resumed(n, false, false)
    else
      var lossy := Loss(n, clock.value) > 2 * SECOND;
      var n1 := Persist(n.(st := AfterResume(n.st, clock.value, lossy)), save);
      if save == Written then Resumed(n1.(samples := map[], quality := UNKNOWN_QUALITY), true, lossy)
      else Resumed(n1.(st := n.st), false, lossy)
  }
}
