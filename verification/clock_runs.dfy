/**
 Runs of the coordinator within one boot: any interleaving of its critical
 sections, failed saves, crashes and restarts.

 Every failed save is the last effect of its critical section, so a crash in the
 middle of a section leaves the file exactly as that save failing (with the old
 or the new record) and the process then restarting would.
 */
module ClockRuns {
  import opened Options
  import opened ClockTypes
  import opened ClockSpec

  /**
   What an outside observer counts in a run.
   `fenced`: a Prepare has succeeded and no Abort or Resume has acted since.
   `unsettled`: a started makestep is neither known complete nor reconciled.
   `breaches`, `overlaps`: makesteps started while fenced, or while unsettled.
   `waiting`: Prepare calls between their two phases. `baseline`: the fence the last
   successful Prepare recorded. `handed`: the last datagram
   per source given to the refclock. `seen`: the highest generation shown to clients.
   `lossBoot`: the boot time of the last resume that measured a loss and was acknowledged.
   */
  datatype Ledger = Ledger(
    started: nat, calls: nat, losses: nat,
    fenced: bool, unsettled: bool, breaches: nat, overlaps: nat, waiting: nat, baseline: Fence,
    handed: map<Source, Sample>, seen: nat, lossBoot: int)

  datatype System =
    | Down(disk: Option<State>, ledger: Ledger)
    | Up(node: Node, ledger: Ledger)

  datatype Step =
    | Boot(clock: Option<Clock>, readable: bool, save: SaveResult)
    | Crash
    | RefreshStep(refresh: RefreshInput)
    | SubmitStep(submit: SubmitInput)
    | PrepareStartStep(save: SaveResult)
    | PrepareTimeoutStep(save: SaveResult)
    | PrepareFinishStep(clock: Option<Clock>, save: SaveResult)
    | AbortStep(save: SaveResult)
    | ResumeStep(bootId: string, generation: nat, clock: Option<Clock>, save: SaveResult)
    | CommandStep(ok: bool, save: SaveResult)

  function Max(a: nat, b: nat): nat {
    if a < b then b else a
  }

  function AfterRefresh(l: Ledger, r: Refreshed): Ledger {
    l.(started := l.started + (if r.started then 1 else 0),
       calls := l.calls + (if r.called then 1 else 0),
       breaches := l.breaches + (if r.started && l.fenced then 1 else 0),
       overlaps := l.overlaps + (if r.started && l.unsettled && !r.settled then 1 else 0),
       unsettled := r.started || (l.unsettled && !r.settled))
  }

  function Next(boot: string, s: System, step: Step): System {
    match s
    case Down(disk, l) =>
      if !step.Boot? then s
      else
        var (d, n) := Start(disk, BootInput(boot, step.clock, step.readable, step.save));
        if n.None? then Down(d, l) else Up(n.value, l.(waiting := 0, seen := Max(l.seen, n.value.st.generation)))
    case Up(n, l) =>
      match step
      case Boot(_, _, _) => s
      case Crash => Down(Some(n.disk), l)
      case RefreshStep(i) =>
        var r := Refresh(n, i);
        Up(r.node, AfterRefresh(l, r))
      case SubmitStep(i) =>
        var r := Submit(n, i);
        Up(r.node, if r.handed.None? then l else l.(handed := l.handed[i.request.source := r.handed.value.sample]))
      case PrepareStartStep(save) =>
        var (n', waits) := PrepareStart(n, save);
        Up(n', if waits then l.(waiting := l.waiting + 1) else l)
      case PrepareTimeoutStep(save) =>
        if l.waiting == 0 then s else Up(PrepareTimeout(n, save), l.(waiting := l.waiting - 1))
      case PrepareFinishStep(clock, save) =>
        if l.waiting == 0 then s
        else
          var (n', ok) := PrepareFinish(n, clock, save);
          Up(n', if ok then l.(waiting := l.waiting - 1, fenced := true, baseline := n'.st.fence)
                 else l.(waiting := l.waiting - 1))
      case AbortStep(save) =>
        Up(Abort(n, save).0, if n.st.fence.preparing then l.(fenced := false) else l)
      case ResumeStep(b, g, clock, save) =>
        var r := Resume(n, b, g, clock, save);
        Up(r.node, l.(fenced := l.fenced && r.node == n,
                      losses := l.losses + (if r.lossy then 1 else 0),
                      seen := Max(l.seen, r.node.st.generation),
                      lossBoot := if r.ok && r.lossy && clock.Some? then clock.value.boot else l.lossBoot))
      case CommandStep(ok, save) =>
        if !n.inFlight then s
        else Up(CommandDone(n, ok, save), l.(unsettled := l.unsettled && !ok))
  }

  function Run(boot: string, s: System, steps: seq<Step>): System
    decreases |steps|
  {
    if steps == [] then s else Run(boot, Next(boot, s, steps[0]), steps[1..])
  }

  const NOTHING := Ledger(0, 0, 0, false, false, 0, 0, 0, Fence(false, false, 0, 0), map[], 0, 0)

  /** Before the coordinator first runs in this boot there is no record, or one of another boot. */
  predicate Initially(boot: string, s: System) {
    s.Down? && s.ledger == NOTHING && (s.disk.Some? ==> s.disk.value.bootId != boot)
  }

  // ----- What holds of every record, in memory and on disk -----

  /** Trust after a loss rests on an observation later than the loss. */
  predicate Justified(t: Trust) {
    && t.history.lossBoot >= 0
    && t.afterBoot == (if t.established then 0 else t.history.lossBoot)
    && (t.established && t.history.lossBoot > 0 ==>
          match t.history.basis
          case NoBasis => false
          case NtpObserved(b) => b > t.history.lossBoot + 5 * SECOND
          case GpsReceived(b) => b > t.history.lossBoot)
  }

  predicate ReloadableAll(samples: map<Source, Sample>) {
    forall s | s in samples :: Reloadable(s, samples[s])
  }

  predicate RecordOk(s: State) {
    && s.generation >= 1
    && (s.fence.preparing && s.fence.baselineValid ==> Resolved(s.budget.outcome))
    && (s.budget.outcome == Available ==> s.budget.attempts <= 1)
    && (!Resolved(s.budget.outcome) ==> Abs(s.dispatch.residual) >= 1.0)
    && ReloadableAll(s.samples)
    && Justified(s.trust)
  }

  // ----- Budgets -----

  function One(b: bool): nat {
    if b then 1 else 0
  }

  /** Makesteps a record still permits without a further loss. */
  function Steps(b: Budget): nat {
    One(b.outcome == Available) + One(!b.lateUsed) + One(!b.lateHoldoverUsed)
  }

  /** StartStep calls a record still permits without a further loss. */
  function Calls(b: Budget): int {
    (if b.outcome == Available then 2 - b.attempts else 0) + 2 * One(!b.lateUsed) + 2 * One(!b.lateHoldoverUsed)
  }

  predicate Affordable(l: Ledger, b: Budget) {
    && l.started + Steps(b) <= 3 + l.losses
    && l.calls + Calls(b) <= 2 * (3 + l.losses)
  }

  /** Each retained sample is the last one handed to the refclock for its source. */
  predicate Traced(handed: map<Source, Sample>, samples: map<Source, Sample>) {
    forall x | x in samples :: x in handed && handed[x] == samples[x]
  }

  predicate RecordFits(l: Ledger, s: State) {
    && Affordable(l, s.budget)
    && (l.unsettled ==> !Resolved(s.budget.outcome))
    && Traced(l.handed, s.samples)
  }

  predicate Good(l: Ledger, s: State) {
    RecordOk(s) && RecordFits(l, s)
  }

  /** The file belongs to this boot and is at most one generation ahead of memory. */
  predicate SameLine(boot: string, s: State, disk: State) {
    s.bootId == boot == disk.bootId && s.generation <= disk.generation <= s.generation + 1
  }

  /** Between two steps, a running engine, its file and the ledger agree. */
  predicate Holds(boot: string, n: Node, l: Ledger) {
    && Good(l, n.st)
    && Good(l, n.disk)
    && SameLine(boot, n.st, n.disk)
    && n.samples == n.st.samples
    && (n.inFlight <==> n.st.budget.outcome == InFlight)
    && l.overlaps == 0
    && l.seen == n.st.generation
  }

  predicate Sound(boot: string, s: System) {
    && boot != ""
    && match s
       case Up(n, l) => Holds(boot, n, l)
       case Down(disk, l) =>
         if disk.None? || disk.value.bootId != boot then l == NOTHING
         else Good(l, disk.value) && l.overlaps == 0 && l.seen <= disk.value.generation
  }

  // ----- Every step keeps soundness -----

  lemma StartIsSound(boot: string, disk: Option<State>, l: Ledger, i: BootInput)
    requires Sound(boot, Down(disk, l)) && i.bootId == boot
    ensures var (d, n) := Start(disk, i);
      && (n.None? ==> Sound(boot, Down(d, l)))
      && (n.Some? ==> Sound(boot, Up(n.value, l.(waiting := 0, seen := Max(l.seen, n.value.st.generation)))))
  {
    if CanStart(disk, i) {
      var st := StartState(i.bootId, i.clock.value.boot, disk);
      assert RecordOk(st);
      assert Reload(st.samples) == st.samples;
    }
  }

  /** `l` once a refresh has found the outstanding command reconciled. */
  function Known(l: Ledger, settled: bool): Ledger {
    l.(unsettled := l.unsettled && !settled)
  }

  lemma AfterQuiet(l: Ledger, n: Node, settled: bool)
    ensures AfterRefresh(l, Quiet(n, settled)) == Known(l, settled)
  {
  }

  /** A good record with unchanged identity may replace the one in memory, on disk or both. */
  lemma Replaced(boot: string, n: Node, n': Node, l: Ledger)
    requires SameLine(boot, n.st, n.disk) && n.samples == n.st.samples && l.overlaps == 0 && l.seen == n.st.generation
    requires n'.st.bootId == n.st.bootId && n'.st.generation == n.st.generation
    requires n'.samples == n'.st.samples
    requires n'.disk == n.disk || (n'.disk.bootId == n.st.bootId && n'.disk.generation == n.st.generation)
    requires Good(l, n'.st) && Good(l, n'.disk)
    requires n'.inFlight <==> n'.st.budget.outcome == InFlight
    ensures Holds(boot, n', l)
  {
    hide Good;
  }

  /** What an admission leaves to spend. */
  predicate Admitted(l: Ledger, s: State) {
    && RecordOk(s)
    && s.budget.outcome == InFlight
    && !s.fence.preparing
    && 1 <= s.budget.attempts <= 2
    && Traced(l.handed, s.samples)
    && l.started + 1 + Steps(s.budget) <= 3 + l.losses
    && l.calls + (2 - s.budget.attempts) + 1 + Calls(s.budget) <= 2 * (3 + l.losses)
    && !l.unsettled
    && l.overlaps == 0
  }

  lemma AdmissionHolds(boot: string, n: Node, l: Ledger, t: Tracking, now: Clock)
    requires Holds(boot, n, l)
    requires Dispatchable(n, t, now.boot) && !n.st.fence.preparing
    ensures Admitted(l, Admission(n, t, now).st)
  {
    hide ReloadableAll, Justified, Traced, SameLine;
  }

  /** The ledger after a dispatch with the given effects. */
  function Spent(l: Ledger, called: bool, started: bool): Ledger {
    l.(started := l.started + One(started), calls := l.calls + One(called), unsettled := started || l.unsettled,
       breaches := l.breaches + One(started && l.fenced), overlaps := l.overlaps + One(started && l.unsettled))
  }

  /** Every record a dispatch can leave fits the ledger it leaves. */
  lemma AdmittedOutcomes(l: Ledger, s: State, o: Outcome, called: bool, started: bool)
    requires Admitted(l, s)
    requires started ==> o == InFlight && called
    requires o == Available ==> s.budget.attempts == 1 && called
    ensures Good(Spent(l, called, started), s.WithOutcome(o))
  {
    hide ReloadableAll, Justified, Traced;
  }

  lemma IssueSpends(l: Ledger, n: Node, t: Tracking, i: RefreshInput, now: Clock, settled: bool)
    ensures var r := Issue(n, t, i, now, settled);
      && r.settled == settled
      && AfterRefresh(l, r) == Spent(Known(l, settled), r.called, r.started)
      && (i.saveDispatch != Written ==> !r.called && !r.started)
  {
    hide StillAdmitted, StartFailed;
  }

  lemma IssueHolds(boot: string, n: Node, l: Ledger, t: Tracking, i: RefreshInput, now: Clock, settled: bool)
    requires Holds(boot, n, Known(l, settled))
    requires Dispatchable(n, t, now.boot) && !n.st.fence.preparing
    ensures var r := Issue(n, t, i, now, settled); Holds(boot, r.node, AfterRefresh(l, r))
  {
    var k := Known(l, settled);
    AdmissionHolds(boot, n, k, t, now);
    IssueSpends(l, n, t, i, now, settled);
    hide Issue, Holds, Known, Spent, AfterRefresh, Admitted, Dispatchable;
    if i.saveDispatch == Written {
      WrittenHolds(boot, n, k, t, i, now, settled);
    } else {
      RefusedHolds(boot, n, k, t, i, now, settled);
    }
  }

  lemma WrittenHolds(boot: string, n: Node, k: Ledger, t: Tracking, i: RefreshInput, now: Clock, settled: bool)
    requires Holds(boot, n, k) && Admitted(k, Admission(n, t, now).st) && i.saveDispatch == Written
    requires n.st.budget.outcome == Available
    ensures var r := Issue(n, t, i, now, settled); Holds(boot, r.node, Spent(k, r.called, r.started))
  {
    var r := Issue(n, t, i, now, settled);
    IssuedRecords(k, n, t, i, now, settled);
    hide Good, Admission, StillAdmitted;
    IssuedFrame(n, t, i, now, settled);
    assert !k.unsettled && Spent(k, r.called, r.started).overlaps == 0;
    hide Issue, Admitted, Spent;
    Replaced(boot, n, r.node, Spent(k, r.called, r.started));
  }

  /** A dispatch changes neither identity nor samples, and a command is in flight exactly if it says so. */
  lemma IssuedFrame(n: Node, t: Tracking, i: RefreshInput, now: Clock, settled: bool)
    requires i.saveDispatch == Written && !n.inFlight && n.samples == n.st.samples
    ensures var n' := Issue(n, t, i, now, settled).node;
      && n'.st.bootId == n'.disk.bootId == n.st.bootId && n'.st.generation == n'.disk.generation == n.st.generation
      && n'.samples == n'.st.samples && (n'.inFlight <==> n'.st.budget.outcome == InFlight)
  {
    hide StillAdmitted;
  }

  lemma RefusedHolds(boot: string, n: Node, k: Ledger, t: Tracking, i: RefreshInput, now: Clock, settled: bool)
    requires Holds(boot, n, k) && Admitted(k, Admission(n, t, now).st) && i.saveDispatch != Written
    ensures Holds(boot, Issue(n, t, i, now, settled).node, Spent(k, false, false))
  {
    var a := Admission(n, t, now).st;
    assert Spent(k, false, false) == k;
    assert a.WithOutcome(InFlight) == a;
    AdmittedOutcomes(k, a, InFlight, false, false);
    hide Good, Admitted;
    Replaced(boot, n, Issue(n, t, i, now, settled).node, k);
  }

  lemma IssuedRecords(k: Ledger, n: Node, t: Tracking, i: RefreshInput, now: Clock, settled: bool)
    requires Admitted(k, Admission(n, t, now).st) && i.saveDispatch == Written
    ensures var r := Issue(n, t, i, now, settled);
      Good(Spent(k, r.called, r.started), r.node.st) && Good(Spent(k, r.called, r.started), r.node.disk)
  {
    var r := Issue(n, t, i, now, settled);
    var a := Admission(n, t, now);
    assert a.st.WithOutcome(InFlight) == a.st && 1 <= a.st.budget.attempts;
    if !StillAdmitted(a.(disk := a.st), t, now.boot, i.recheck) {
      AdmittedOutcomes(k, a.st, InFlight, false, false);
      AdmittedOutcomes(k, a.st, Expired, false, false);
      hide Good, Admitted, StillAdmitted, Admission;
    } else if i.startOk {
      AdmittedOutcomes(k, a.st, InFlight, true, true);
      hide Good, Admitted, StillAdmitted, Admission;
    } else {
      StartFailedRecords(k, a.(disk := a.st), i.saveStartFailed);
      hide Good, Admitted, StillAdmitted, Admission, StartFailed;
    }
  }

  lemma StartFailedRecords(k: Ledger, a: Node, save: SaveResult)
    requires Admitted(k, a.st) && a.disk == a.st
    ensures var n := StartFailed(a, save);
      Good(Spent(k, true, false), n.st) && Good(Spent(k, true, false), n.disk)
  {
    var o := if a.st.budget.attempts < 2 then Available else Failed;
    assert a.st.WithOutcome(InFlight) == a.st;
    assert a.st.WithOutcome(o).WithOutcome(Unresolved) == a.st.WithOutcome(Unresolved);
    AdmittedOutcomes(k, a.st, InFlight, true, false);
    AdmittedOutcomes(k, a.st, o, true, false);
    AdmittedOutcomes(k, a.st, Unresolved, true, false);
    hide Good, Admitted;
  }

  lemma RecoverHolds(boot: string, n: Node, l: Ledger, t: Tracking, i: RefreshInput, now: Clock, settled: bool)
    requires Holds(boot, n, Known(l, settled)) && Resolved(n.st.budget.outcome) && !n.st.fence.preparing
    ensures var r := Recover(n, t, i, now, settled); Holds(boot, r.node, AfterRefresh(l, r))
  {
    var k := Known(l, settled);
    AfterQuiet(l, Recover(n, t, i, now, settled).node, settled);
    hide Issue, AfterRefresh;
    if OpensLateEpisode(n, t, now.boot) {
      var e := LateEpisode(n, t, now.boot);
      LateEpisodeIsGood(k, n, t, now.boot);
      assert Good(k, n.st) && Good(k, n.disk);
      hide Good, OpensLateEpisode, Dispatchable;
      var n1 := Persist(e, i.saveLate);
      if i.saveLate != Written {
        Replaced(boot, n, n1.(st := n.st), k);
      } else {
        Replaced(boot, n, n1, k);
        if Dispatchable(n1, t, now.boot) {
          IssueHolds(boot, n1, l, t, i, now, settled);
        }
      }
    } else if Dispatchable(n, t, now.boot) {
      hide Holds;
      IssueHolds(boot, n, l, t, i, now, settled);
    }
  }

  lemma LateEpisodeIsGood(l: Ledger, n: Node, t: Tracking, bt: int)
    requires Good(l, n.st) && Resolved(n.st.budget.outcome) && !n.st.fence.preparing
    requires LateExternalDue(n, t) || LateHoldoverDue(n, t)
    ensures Good(l, LateEpisode(n, t, bt).st)
  {
    hide ReloadableAll, Justified, Traced;
  }

  lemma SettleHolds(boot: string, n: Node, l: Ledger, t: Tracking, i: RefreshInput, now: Clock, settled: bool)
    requires Holds(boot, n, Known(l, settled))
    ensures var r := Settle(n, t, i, now, settled); Holds(boot, r.node, AfterRefresh(l, r))
  {
    var n0 := n.(quality := QualityOf(t));
    if TrackingSettles(n0, t, now.boot) {
      ReconciledHolds(boot, n0, l, settled, i.saveReconciled);
      var n1 := Persist(n0.(st := n0.st.WithOutcome(Reconciled)), i.saveReconciled);
      hide Holds, TrackingSettles;
      if i.saveReconciled == Written {
        GateHolds(boot, n1, l, t, i, now, true);
      } else {
        AfterQuiet(l, n1.(st := n1.st.WithOutcome(Unresolved), quality := UNKNOWN_QUALITY), true);
      }
    } else {
      GateHolds(boot, n0, l, t, i, now, settled);
    }
  }

  lemma GateHolds(boot: string, n: Node, l: Ledger, t: Tracking, i: RefreshInput, now: Clock, settled: bool)
    requires Holds(boot, n, Known(l, settled))
    ensures var r := Gate(n, t, i, now, settled); Holds(boot, r.node, AfterRefresh(l, r))
  {
    hide Recover, AfterRefresh, Good;
    if Resolved(n.st.budget.outcome) && !n.st.fence.preparing {
      RecoverHolds(boot, n, l, t, i, now, settled);
    } else {
      AfterQuiet(l, Gate(n, t, i, now, settled).node, settled);
    }
  }

  /** Finding the outstanding command reconciled, whatever becomes of the save. */
  lemma ReconciledHolds(boot: string, n: Node, l: Ledger, settled: bool, save: SaveResult)
    requires Holds(boot, n, Known(l, settled)) && n.st.budget.outcome == Unresolved
    ensures var n1 := Persist(n.(st := n.st.WithOutcome(Reconciled)), save);
      && Holds(boot, n1, Known(l, true))
      && Holds(boot, n1.(st := n1.st.WithOutcome(Unresolved), quality := UNKNOWN_QUALITY), Known(l, true))
  {
    var k := Known(l, true);
    assert Good(k, n.st) && Good(k, n.disk) && Good(k, n.st.WithOutcome(Reconciled)) by {
      hide ReloadableAll, Justified, Traced;
    }
    var n1 := Persist(n.(st := n.st.WithOutcome(Reconciled)), save);
    assert n1.st.WithOutcome(Unresolved) == n.st;
    hide Good;
    Replaced(boot, n, n1, k);
    Replaced(boot, n, n1.(st := n1.st.WithOutcome(Unresolved), quality := UNKNOWN_QUALITY), k);
  }

  lemma EstablishIsJustified(n: Node, t: Tracking, bt: int)
    requires Justified(n.st.trust)
    requires ObservationFresh(n.st.trust, n.samples, t, bt)
    ensures Justified(Establish(n, t, bt).st.trust)
  {
  }

  lemma EstablishHolds(boot: string, n: Node, l: Ledger, t: Tracking, bt: int, save: SaveResult, q: Quality)
    requires Holds(boot, n, l) && ObservationFresh(n.st.trust, n.samples, t, bt)
    ensures Holds(boot, Persist(Establish(n, t, bt), save).(quality := q), l)
  {
    EstablishIsJustified(n, t, bt);
    var e := Establish(n, t, bt);
    assert Good(l, e.st) by {
      hide ObservationFresh, Justified, ReloadableAll, Traced;
    }
    hide ObservationFresh, Good;
    Replaced(boot, n, Persist(e, save).(quality := q), l);
  }

  lemma JudgeHolds(boot: string, n: Node, l: Ledger, i: RefreshInput, now: Clock, settled: bool)
    requires Holds(boot, n, Known(l, settled)) && i.startBoot <= now.boot
    ensures var r := Judge(n, i, now, settled); Holds(boot, r.node, AfterRefresh(l, r))
  {
    hide Settle, Establish, Usable, Good, AfterRefresh;
    var o := Observe(n.st.trust, n.samples, i, now.boot);
    AfterQuiet(l, Judge(n, i, now, settled).node, settled);
    if o.Some? {
      hide Holds;
      if o.value.external && Usable(o.value) && !n.st.trust.established {
        var n1 := Persist(Establish(n, o.value, now.boot), i.saveTrust);
        EstablishHolds(boot, n, Known(l, settled), o.value, now.boot, i.saveTrust, n1.quality);
        EstablishHolds(boot, n, Known(l, settled), o.value, now.boot, i.saveTrust, UNKNOWN_QUALITY);
        if i.saveTrust == Written {
          assert n1.(quality := n1.quality) == n1;
          SettleHolds(boot, n1, l, o.value, i, now, settled);
        }
      } else {
        SettleHolds(boot, n, l, o.value, i, now, settled);
      }
    }
  }

  lemma RefreshHolds(boot: string, n: Node, l: Ledger, i: RefreshInput)
    requires Holds(boot, n, l)
    ensures var r := Refresh(n, i); Holds(boot, r.node, AfterRefresh(l, r))
  {
    AfterQuiet(l, n, false);
    assert Known(l, false) == l;
    if i.clock.Some? && i.clock.value.boot >= i.startBoot && i.startGeneration == n.st.generation {
      var now := i.clock.value;
      var n0 := n.(qualityBoot := now.boot);
      assert Holds(boot, n0, l);
      hide Judge, AfterRefresh, Holds, Known;
      if MovementMatches(n0, now) {
        ReconciledHolds(boot, n0, l, false, i.saveMoved);
        var n1 := Persist(n0.(st := n0.st.WithOutcome(Reconciled)), i.saveMoved);
        hide MovementMatches;
        if i.saveMoved == Written {
          JudgeHolds(boot, n1, l, i, now, true);
        } else {
          AfterQuiet(l, n1.(st := n1.st.WithOutcome(Unresolved), quality := UNKNOWN_QUALITY), true);
        }
      } else {
        JudgeHolds(boot, n0, l, i, now, false);
      }
    }
  }

  /** The ledger after a submission. */
  function AfterSubmit(l: Ledger, s: Source, r: Submitted): Ledger {
    if r.handed.None? then l else l.(handed := l.handed[s := r.handed.value.sample])
  }

  lemma SubmitHolds(boot: string, n: Node, l: Ledger, i: SubmitInput)
    requires Holds(boot, n, l)
    ensures var r := Submit(n, i); Holds(boot, r.node, AfterSubmit(l, i.request.source, r))
  {
    hide AfterSubmit, Holds, Admits, Deliver;
    if !((i.request.source == Nrf && i.early.None?) || i.clock1.None?) {
      var t := Confirmation(n, i);
      if t.Some? {
        var e := Persist(Establish(n, t.value, i.clock1.value.boot), i.saveTrust);
        EstablishHolds(boot, n, l, t.value, i.clock1.value.boot, i.saveTrust, e.quality);
        assert e.(quality := e.quality) == e;
        UnchangedLedger(l, i.request.source, e);
      } else if Admits(n, i) {
        DeliverHolds(boot, n, l, i);
      } else {
        UnchangedLedger(l, i.request.source, n);
      }
    } else {
      UnchangedLedger(l, i.request.source, n);
    }
  }

  lemma UnchangedLedger(l: Ledger, s: Source, n: Node)
    ensures AfterSubmit(l, s, Submitted(n, false, None)) == l
  {
  }

  lemma DeliverHolds(boot: string, n: Node, l: Ledger, i: SubmitInput)
    requires Holds(boot, n, l) && Admits(n, i)
    ensures var r := Deliver(n, i); Holds(boot, r.node, AfterSubmit(l, i.request.source, r))
  {
    var source := i.request.source;
    var x := SampleOf(i.request);
    assert Reloadable(source, x) by {
      hide PlausibleOffset, StatusOf;
    }
    hide Admits;
    var w := WithoutSample(n, source);
    WithoutIsGood(l, n, source);
    var l' := l.(handed := l.handed[source := x]);
    var n1 := Persist(w, i.saveInvalidated);
    assert Good(l, n.disk);
    if i.saveInvalidated != Written {
      hide Good;
      Replaced(boot, n, n1, l);
    } else {
      HandedIsGood(l, w.st, source, x);
      hide Good;
      Replaced(boot, n, n1, l');
      if i.sendOk {
        RecordedHolds(boot, n1, l', source, x, i.saveMetadata);
      }
    }
  }

  /** Recording the metadata of a delivered sample, or dropping it again when that cannot be saved. */
  lemma RecordedHolds(boot: string, n: Node, l: Ledger, source: Source, x: Sample, save: SaveResult)
    requires Holds(boot, n, l) && source !in n.samples
    requires Good(l, n.st.(samples := n.st.samples[source := x]))
    ensures var n2 := Persist(WithSample(n, source, x), save);
      Holds(boot, n2, l) && Holds(boot, WithoutSample(n2, source), l)
  {
    var n2 := Persist(WithSample(n, source, x), save);
    assert n.st.samples[source := x] - {source} == n.st.samples;
    assert WithoutSample(n2, source).st == n.st;
    hide Good;
    Replaced(boot, n, n2, l);
    Replaced(boot, n, WithoutSample(n2, source), l);
  }

  lemma WithoutIsGood(l: Ledger, n: Node, s: Source)
    requires Good(l, n.st)
    ensures Good(l, WithoutSample(n, s).st)
  {
  }

  /** Once a source's metadata is gone, handing over a new datagram and recording it keeps records good. */
  lemma HandedIsGood(l: Ledger, s: State, source: Source, x: Sample)
    requires Good(l, s) && source !in s.samples && Reloadable(source, x)
    ensures var l' := l.(handed := l.handed[source := x]);
      Good(l', s) && Good(l', s.(samples := s.samples[source := x]))
  {
  }

  lemma FenceEditIsGood(l: Ledger, s: State, f: Fence)
    requires Good(l, s)
    requires f.preparing && f.baselineValid ==> Resolved(s.budget.outcome)
    ensures Good(l, s.(fence := f))
  {
    hide ReloadableAll, Justified, Traced;
  }

  lemma PrepareStartHolds(boot: string, n: Node, l: Ledger, save: SaveResult)
    requires Holds(boot, n, l)
    ensures Holds(boot, PrepareStart(n, save).0, l)
  {
    if !n.st.fence.preparing {
      var f := n.st.fence.(baselineValid := false);
      FenceEditIsGood(l, n.st, f.(preparing := true));
      FenceEditIsGood(l, n.st, f.(preparing := false));
      hide Good;
      Replaced(boot, n, PrepareStart(n, save).0, l);
    }
  }

  lemma PrepareTimeoutHolds(boot: string, n: Node, l: Ledger, save: SaveResult)
    requires Holds(boot, n, l)
    ensures Holds(boot, PrepareTimeout(n, save), l)
  {
    FenceEditIsGood(l, n.st, n.st.fence.(preparing := false));
    hide Good;
    Replaced(boot, n, PrepareTimeout(n, save), l);
  }

  lemma PrepareFinishHolds(boot: string, n: Node, l: Ledger, clock: Option<Clock>, save: SaveResult)
    requires Holds(boot, n, l)
    ensures Holds(boot, PrepareFinish(n, clock, save).0, l)
  {
    if n.st.fence.preparing {
      if !Resolved(n.st.budget.outcome) || clock.None? {
        hide Holds;
        PrepareTimeoutHolds(boot, n, l, save);
      } else {
        var f := Fence(true, true, clock.value.wall, clock.value.boot);
        FenceEditIsGood(l, n.st, f);
        FenceEditIsGood(l, n.st, f.(baselineValid := false));
        hide Good;
        Replaced(boot, n, PrepareFinish(n, clock, save).0, l);
      }
    }
  }

  lemma AbortHolds(boot: string, n: Node, l: Ledger, save: SaveResult)
    requires Holds(boot, n, l)
    ensures Holds(boot, Abort(n, save).0, l)
  {
    if n.st.fence.preparing {
      FenceEditIsGood(l, n.st, n.st.fence.(preparing := false));
      assert n.st.WithPreparing(false).WithPreparing(true) == n.st;
      hide Good;
      Replaced(boot, n, Abort(n, save).0, l);
    }
  }

  lemma ResumedIsGood(l: Ledger, s: State, now: Clock, lossy: bool)
    requires Good(l, s) && Resolved(s.budget.outcome)
    ensures Good(l.(losses := l.losses + One(lossy)), AfterResume(s, now, lossy))
  {
    hide Traced, ReloadableAll;
    NoSamples(l.handed);
  }

  lemma NoSamples(handed: map<Source, Sample>)
    ensures Traced(handed, map[]) && ReloadableAll(map[])
  {
  }

  lemma LossIsAllowance(l: Ledger, s: State, lossy: bool)
    requires Good(l, s)
    ensures Good(l.(losses := l.losses + One(lossy)), s)
  {
    hide Traced, RecordOk;
  }

  lemma ResumeHolds(boot: string, n: Node, l: Ledger, b: string, g: nat, clock: Option<Clock>, save: SaveResult)
    requires Holds(boot, n, l)
    ensures var r := Resume(n, b, g, clock, save);
      Holds(boot, r.node, l.(losses := l.losses + One(r.lossy), seen := Max(l.seen, r.node.st.generation)))
  {
    var r := Resume(n, b, g, clock, save);
    var l' := l.(losses := l.losses + One(r.lossy));
    LossIsAllowance(l, n.st, r.lossy);
    LossIsAllowance(l, n.disk, r.lossy);
    if ResumeAccepted(n, b, g) {
      if !n.st.fence.baselineValid {
        assert l' == l;
        AbortHolds(boot, n, l, save);
        hide Good, Abort;
      } else if clock.Some? && clock.value.boot >= n.st.fence.boot {
        ResolvedInside(l, n.st);
        ResumedIsGood(l, n.st, clock.value, r.lossy);
        hide Good;
      } else {
        hide Good;
      }
    } else {
      hide Good;
    }
  }

  lemma ResolvedInside(l: Ledger, s: State)
    requires Good(l, s) && s.fence.preparing && s.fence.baselineValid
    ensures Resolved(s.budget.outcome)
  {
  }

  lemma CommandDoneHolds(boot: string, n: Node, l: Ledger, ok: bool, save: SaveResult)
    requires Holds(boot, n, l) && n.inFlight
    ensures Holds(boot, CommandDone(n, ok, save), l.(unsettled := l.unsettled && !ok))
  {
    var l' := l.(unsettled := l.unsettled && !ok);
    assert Good(l', n.disk) && Good(l', n.st.WithOutcome(if ok then Completed else Unresolved))
           && Good(l', n.st.WithOutcome(Unresolved)) by {
      hide Traced, ReloadableAll, Justified;
    }
    var n' := CommandDone(n, ok, save);
    assert n'.st == n.st.WithOutcome(n'.st.budget.outcome);
    hide Good;
    Replaced(boot, n, n', l');
  }

  lemma PrepareStartIsSound(boot: string, n: Node, l: Ledger, save: SaveResult)
    requires Sound(boot, Up(n, l))
    ensures Sound(boot, Next(boot, Up(n, l), PrepareStartStep(save)))
  {
    PrepareStartHolds(boot, n, l, save);
    LedgerNotes(boot, PrepareStart(n, save).0, l, l.waiting + 1, l.fenced);
    hide Holds, PrepareStart;
  }

  lemma PrepareTimeoutIsSound(boot: string, n: Node, l: Ledger, save: SaveResult)
    requires Sound(boot, Up(n, l))
    ensures Sound(boot, Next(boot, Up(n, l), PrepareTimeoutStep(save)))
  {
    if l.waiting > 0 {
      PrepareTimeoutHolds(boot, n, l, save);
      LedgerNotes(boot, PrepareTimeout(n, save), l, l.waiting - 1, l.fenced);
    }
    hide Holds, PrepareTimeout;
  }

  lemma PrepareFinishIsSound(boot: string, n: Node, l: Ledger, clock: Option<Clock>, save: SaveResult)
    requires Sound(boot, Up(n, l))
    ensures Sound(boot, Next(boot, Up(n, l), PrepareFinishStep(clock, save)))
  {
    if l.waiting > 0 {
      hide Holds, PrepareFinish;
      PrepareFinishHolds(boot, n, l, clock, save);
      var r := PrepareFinish(n, clock, save);
      if r.1 {
        LedgerNotes(boot, r.0, l, l.waiting - 1, true);
        BaselineNote(boot, r.0, l.(waiting := l.waiting - 1, fenced := true), r.0.st.fence);
      } else {
        LedgerNotes(boot, r.0, l, l.waiting - 1, l.fenced);
      }
    }
  }

  lemma AbortIsSound(boot: string, n: Node, l: Ledger, save: SaveResult)
    requires Sound(boot, Up(n, l))
    ensures Sound(boot, Next(boot, Up(n, l), AbortStep(save)))
  {
    AbortHolds(boot, n, l, save);
    LedgerNotes(boot, Abort(n, save).0, l, l.waiting, false);
    hide Holds, Abort;
  }

  lemma ResumeIsSound(boot: string, n: Node, l: Ledger, b: string, g: nat, clock: Option<Clock>, save: SaveResult)
    requires Sound(boot, Up(n, l))
    ensures Sound(boot, Next(boot, Up(n, l), ResumeStep(b, g, clock, save)))
  {
    hide Holds, Resume;
    var r := Resume(n, b, g, clock, save);
    ResumeHolds(boot, n, l, b, g, clock, save);
    var l' := l.(losses := l.losses + One(r.lossy), seen := Max(l.seen, r.node.st.generation));
    var lossBoot := if r.ok && r.lossy && clock.Some? then clock.value.boot else l.lossBoot;
    LedgerNotes(boot, r.node, l', l.waiting, l.fenced && r.node == n);
    LossNote(boot, r.node, l'.(fenced := l.fenced && r.node == n), lossBoot);
    assert Next(boot, Up(n, l), ResumeStep(b, g, clock, save))
        == Up(r.node, l'.(fenced := l.fenced && r.node == n, lossBoot := lossBoot));
  }

  lemma NextIsSound(boot: string, s: System, step: Step)
    requires Sound(boot, s)
    ensures Sound(boot, Next(boot, s, step))
  {
    if s.Down? {
      if step.Boot? {
        hide Sound;
        StartIsSound(boot, s.disk, s.ledger, BootInput(boot, step.clock, step.readable, step.save));
      }
    } else {
      var n, l := s.node, s.ledger;
      match step
      case Boot(_, _, _) =>
      case Crash =>
        hide RecordOk, RecordFits;
      case RefreshStep(i) =>
        RefreshHolds(boot, n, l, i);
        hide Holds, Refresh, AfterRefresh;
      case SubmitStep(i) =>
        SubmitHolds(boot, n, l, i);
        hide Holds, Submit;
      case ResumeStep(b, g, clock, save) =>
        ResumeIsSound(boot, n, l, b, g, clock, save);
      case CommandStep(ok, save) =>
        if n.inFlight {
          CommandDoneHolds(boot, n, l, ok, save);
        }
        hide Holds, CommandDone;
      case PrepareStartStep(save) =>
        PrepareStartIsSound(boot, n, l, save);
      case PrepareTimeoutStep(save) =>
        PrepareTimeoutIsSound(boot, n, l, save);
      case PrepareFinishStep(clock, save) =>
        PrepareFinishIsSound(boot, n, l, clock, save);
      case AbortStep(save) =>
        AbortIsSound(boot, n, l, save);
    }
  }

  lemma LedgerNotes(boot: string, n: Node, l: Ledger, waiting: nat, fenced: bool)
    requires Holds(boot, n, l)
    ensures Holds(boot, n, l.(waiting := waiting, fenced := fenced))
    ensures Holds(boot, n, l.(waiting := waiting))
    ensures Holds(boot, n, l.(fenced := fenced))
  {
    hide RecordOk, Traced, SameLine;
  }

  lemma LossNote(boot: string, n: Node, l: Ledger, lossBoot: int)
    requires Holds(boot, n, l)
    ensures Holds(boot, n, l.(lossBoot := lossBoot))
  {
    hide RecordOk, Traced, SameLine;
  }

  lemma BaselineNote(boot: string, n: Node, l: Ledger, f: Fence)
    requires Holds(boot, n, l)
    ensures Holds(boot, n, l.(baseline := f))
  {
    hide RecordOk, Traced, SameLine;
  }

  lemma {:induction false} RunIsSound(boot: string, s: System, steps: seq<Step>)
    requires Sound(boot, s)
    ensures Sound(boot, Run(boot, s, steps))
    decreases |steps|
  {
    if steps != [] {
      NextIsSound(boot, s, steps[0]);
      RunIsSound(boot, Next(boot, s, steps[0]), steps[1..]);
    }
  }

  // ----- Theorems over whole runs of one boot -----

  /**
   However steps, failed saves, crashes and restarts interleave: at most three
   makesteps plus one per measured loss, at most two StartStep calls for each, and
   never a makestep while an earlier one is in flight or unresolved.
   */
  lemma StepBudget(boot: string, s: System, steps: seq<Step>)
    requires boot != "" && Initially(boot, s)
    ensures var l := Run(boot, s, steps).ledger;
      && l.started <= 3 + l.losses
      && l.calls <= 2 * (3 + l.losses)
      && l.overlaps == 0
  {
    RunIsSound(boot, s, steps);
    hide Run, RecordOk, Traced;
  }

  /**
   At every crash point the metadata kept for a source is absent or belongs to the
   last datagram handed to the refclock; a restart reloads all of it; memory and
   persisted state agree; the generation clients have seen never goes back.
   */
  lemma MetadataIsNeverOlder(boot: string, s: System, steps: seq<Step>)
    requires boot != "" && Initially(boot, s)
    ensures var r := Run(boot, s, steps);
      && (r.Up? ==>
            && Traced(r.ledger.handed, r.node.samples)
            && Traced(r.ledger.handed, r.node.disk.samples)
            && r.node.samples == r.node.st.samples
            && Reload(r.node.disk.samples) == r.node.disk.samples
            && r.ledger.seen == r.node.st.generation <= r.node.disk.generation)
      && (r.Down? && r.disk.Some? && r.disk.value.bootId == boot ==>
            && Traced(r.ledger.handed, r.disk.value.samples)
            && Reload(r.disk.value.samples) == r.disk.value.samples
            && r.ledger.seen <= r.disk.value.generation)
  {
    RunIsSound(boot, s, steps);
    hide Run, Affordable, Justified;
  }
}
