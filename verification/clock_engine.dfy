/**
 The coordinator as the program runs it: an object whose fields are updated in
 place, saved, and rolled back when a save fails. Each method is one critical
 section and is proved to take the object exactly where the specification says.
 */
module ClockEngine {
  import opened Options
  import opened ClockTypes
  import Spec = ClockSpec

  class Engine {
    var state: State
    var samples: map<Source, Sample>
    var quality: Quality
    var qualityBoot: int
    var inFlight: bool
    /** The record at the engine's path. */
    var file: State

    function View(): Node
      reads this
    {
      Node(state, samples, quality, qualityBoot, inFlight, file)
    }

    constructor FromNode(n: Node)
      ensures View() == n
    {
      state, samples, quality, qualityBoot, inFlight, file :=
        n.st, n.samples, n.quality, n.qualityBoot, n.inFlight, n.disk;
    }

    /** Starts from the file of an earlier process, if any; the file is written before the engine is handed out. */
    static method Start(disk: Option<State>, i: Spec.BootInput) returns (disk': Option<State>, e: Engine?)
      ensures disk' == Spec.Start(disk, i).0
      ensures e == null <==> Spec.Start(disk, i).1.None?
      ensures e != null ==> fresh(e) && Some(e.View()) == Spec.Start(disk, i).1
    {
      disk', e := disk, null;
      if !Spec.CanStart(disk, i) {
        return;
      }
      var st := Spec.InitialState(i.bootId, i.clock.value.boot);
      if disk.Some? && disk.value.bootId == i.bootId {
        st := disk.value;
        if st.budget.outcome == InFlight {
          st := st.WithOutcome(Unresolved);
        }
      }
      if i.save == FailedOld {
        return;
      }
      disk' := Some(st);
      if i.save == Written {
        e := new Engine.FromNode(Node(st, Spec.Reload(st.samples), UNKNOWN_QUALITY, 0, false, st));
      }
    }

    method Save(r: SaveResult) returns (ok: bool)
      modifies this`file
      ensures View() == Spec.Persist(old(View()), r)
      ensures ok <==> r == Written
    {
      if r != FailedOld {
        file := state;
      }
      ok := r == Written;
    }

    method Status(clock: Option<Clock>) returns (q: Status)
      ensures q == Spec.StatusOf(View(), clock)
    {
      q := Spec.StatusOf(View(), clock);
    }

    // ----- Submit -----

    method Submit(i: Spec.SubmitInput) returns (accepted: bool, handed: Option<Spec.Datagram>)
      modifies this
      ensures Spec.Submitted(View(), accepted, handed) == Spec.Submit(old(View()), i)
    {
      accepted, handed := false, None;
      if (i.request.source == Nrf && i.early.None?) || i.clock1.None? {
        return;
      }
      var t := Spec.Confirmation(View(), i);
      if t.Some? {
        var basis := Spec.EvidenceOf(View(), t.value, i.clock1.value.boot);
        var history := if state.trust.established then state.trust.history
                       else state.trust.history.(basis := basis);
        state := state.(trust := Trust(true, 0, history));
        var _ := Save(i.saveTrust);
        return;
      }
      if !Spec.Admits(View(), i) {
        return;
      }
      accepted, handed := Deliver(i.request.source, Spec.SampleOf(i.request), i);
    }

    /** Forget the old metadata before the datagram goes out, record the new one after it. */
    method Deliver(source: Source, sample: Sample, i: Spec.SubmitInput)
      returns (accepted: bool, handed: Option<Spec.Datagram>)
      requires source == i.request.source && sample == Spec.SampleOf(i.request) && i.clock3.Some?
      modifies this
      ensures Spec.Submitted(View(), accepted, handed) == Spec.Deliver(old(View()), i)
    {
      accepted, handed := false, None;
      samples := samples - {source};
      state := state.(samples := state.samples - {source});
      var ok := Save(i.saveInvalidated);
      if !ok {
        return;
      }
      handed := Some(Spec.Datagram(sample, i.clock3.value.wall, Spec.OffsetOf(i.request, i.clock3.value)));
      if !i.sendOk {
        return;
      }
      samples := samples[source := sample];
      state := state.(samples := state.samples[source := sample]);
      accepted := Save(i.saveMetadata);
      if !accepted {
        samples := samples - {source};
        state := state.(samples := state.samples - {source});
      }
    }

    // ----- Refresh -----

    method Refresh(i: Spec.RefreshInput) returns (called: bool, started: bool, settled: bool)
      modifies this
      ensures Spec.Refreshed(View(), called, started, settled) == Spec.Refresh(old(View()), i)
    {
      called, started, settled := false, false, false;
      if i.clock.None? || i.clock.value.boot < i.startBoot || i.startGeneration != state.generation {
        return;
      }
      var now := i.clock.value;
      qualityBoot := now.boot;
      if Spec.MovementMatches(View(), now) {
        settled := true;
        state := state.WithOutcome(Reconciled);
        var ok := Save(i.saveMoved);
        if !ok {
          state := state.WithOutcome(Unresolved);
          quality := UNKNOWN_QUALITY;
          return;
        }
      }
      called, started, settled := Judge(i, now, settled);
    }

    method Judge(i: Spec.RefreshInput, now: Clock, found: bool) returns (called: bool, started: bool, settled: bool)
      requires i.startBoot <= now.boot
      modifies this
      ensures Spec.Refreshed(View(), called, started, settled) == Spec.Judge(old(View()), i, now, found)
    {
      called, started, settled := false, false, found;
      var o := Spec.Observe(state.trust, samples, i, now.boot);
      if o.None? {
        quality := UNKNOWN_QUALITY;
        return;
      }
      var t := o.value;
      if t.external && Spec.Usable(t) && !state.trust.established {
        state := state.(trust := Trust(true, 0, state.trust.history.(basis := Spec.EvidenceOf(View(), t, now.boot))));
        var ok := Save(i.saveTrust);
        if !ok {
          quality := UNKNOWN_QUALITY;
          return;
        }
      }
      called, started, settled := Settle(t, i, now, found);
    }

    method Settle(t: Tracking, i: Spec.RefreshInput, now: Clock, found: bool)
      returns (called: bool, started: bool, settled: bool)
      modifies this
      ensures Spec.Refreshed(View(), called, started, settled) == Spec.Settle(old(View()), t, i, now, found)
    {
      called, started, settled := false, false, found;
      quality := Spec.QualityOf(t);
      if Spec.TrackingSettles(View(), t, now.boot) {
        settled := true;
        state := state.WithOutcome(Reconciled);
        var ok := Save(i.saveReconciled);
        if !ok {
          state := state.WithOutcome(Unresolved);
          quality := UNKNOWN_QUALITY;
          return;
        }
      }
      if !Resolved(state.budget.outcome) {
        quality := UNKNOWN_QUALITY;
        return;
      }
      if state.fence.preparing {
        return;
      }
      called, started, settled := Recover(t, i, now, settled);
    }

    method Recover(t: Tracking, i: Spec.RefreshInput, now: Clock, found: bool)
      returns (called: bool, started: bool, settled: bool)
      modifies this
      ensures Spec.Refreshed(View(), called, started, settled) == Spec.Recover(old(View()), t, i, now, found)
    {
      called, started, settled := false, false, found;
      if Spec.OpensLateEpisode(View(), t, now.boot) {
        var saved := state;
        var b := state.budget;
        if Spec.LateExternalDue(View(), t) {
          b := b.(lateUsed := true, episode := LateExternal);
        } else {
          b := b.(lateHoldoverUsed := true, episode := LateHoldover);
        }
        state := state.(budget := b.(deadline := now.boot + EPISODE_WINDOW, outcome := Available, attempts := 0));
        var ok := Save(i.saveLate);
        if !ok {
          state := saved;
          return;
        }
      }
      if Spec.Dispatchable(View(), t, now.boot) {
        called, started, settled := Issue(t, i, now, found);
      }
    }

    method Issue(t: Tracking, i: Spec.RefreshInput, now: Clock, found: bool)
      returns (called: bool, started: bool, settled: bool)
      modifies this
      ensures Spec.Refreshed(View(), called, started, settled) == Spec.Issue(old(View()), t, i, now, found)
    {
      hide Spec.StillAdmitted;
      called, started, settled := false, false, found;
      var saved := state;
      quality := UNKNOWN_QUALITY;
      state := state.(budget := state.budget.(outcome := InFlight, attempts := state.budget.attempts + 1),
                      dispatch := Dispatch(now.boot, now.wall, t.residual, t.source,
                                           if t.source in samples then samples[t.source] else NO_SAMPLE));
      var ok := Save(i.saveDispatch);
      if !ok {
        state := saved;
        return;
      }
      if !Spec.StillAdmitted(View(), t, now.boot, i.recheck) {
        state := state.WithOutcome(Expired);
        var _ := Save(i.saveExpired);
        return;
      }
      called := true;
      if !i.startOk {
        state := state.WithOutcome(if state.budget.attempts < 2 then Available else Failed);
        ok := Save(i.saveStartFailed);
        if !ok {
          state := state.WithOutcome(Unresolved);
        }
        return;
      }
      started := true;
      inFlight := true;
    }

    method CommandDone(ok: bool, save: SaveResult)
      modifies this
      ensures View() == Spec.CommandDone(old(View()), ok, save)
    {
      state := state.WithOutcome(if ok then Completed else Unresolved);
      var saved := Save(save);
      if !saved {
        state := state.WithOutcome(Unresolved);
      }
      inFlight := false;
    }

    // ----- Prepare, Abort, Resume -----

    method PrepareStart(save: SaveResult) returns (waits: bool)
      modifies this
      ensures (View(), waits) == Spec.PrepareStart(old(View()), save)
    {
      if state.fence.preparing {
        return false;
      }
      state := state.(fence := state.fence.(preparing := true, baselineValid := false));
      waits := Save(save);
      if !waits {
        state := state.WithPreparing(false);
      }
    }

    method PrepareTimeout(save: SaveResult)
      modifies this
      ensures View() == Spec.PrepareTimeout(old(View()), save)
    {
      state := state.WithPreparing(false);
      var _ := Save(save);
    }

    method PrepareFinish(clock: Option<Clock>, save: SaveResult) returns (ok: bool)
      modifies this
      ensures (View(), ok) == Spec.PrepareFinish(old(View()), clock, save)
    {
      if !state.fence.preparing {
        return false;
      }
      if !Resolved(state.budget.outcome) || clock.None? {
        PrepareTimeout(save);
        return false;
      }
      state := state.(fence := Fence(true, true, clock.value.wall, clock.value.boot));
      ok := Save(save);
      if !ok {
        state := state.(fence := state.fence.(baselineValid := false));
      }
    }

    method Abort(save: SaveResult) returns (ok: bool)
      modifies this
      ensures (View(), ok) == Spec.Abort(old(View()), save)
    {
      if !state.fence.preparing {
        return false;
      }
      state := state.WithPreparing(false);
      ok := Save(save);
      if !ok {
        state := state.WithPreparing(true);
      }
    }

    method Resume(bootId: string, generation: nat, clock: Option<Clock>, save: SaveResult)
      returns (ok: bool)
      modifies this
      ensures var r := Spec.Resume(old(View()), bootId, generation, clock, save); View() == r.node && ok == r.ok
    {
      if !Spec.ResumeAccepted(View(), bootId, generation) {
        return false;
      }
      if !state.fence.baselineValid {
        ok := Abort(save);
        return;
      }
      if clock.None? || clock.value.boot < state.fence.boot {
        return false;
      }
      var now := clock.value;
      var lost := Spec.Loss(View(), now) > 2 * SECOND;
      var saved := state;
      state := state.(fence := state.fence.(preparing := false, baselineValid := false),
                      generation := state.generation + 1, samples := map[]);
      if lost {
        state := state.(trust := Trust(false, now.boot, History(now.boot, NoBasis)),
                        budget := state.budget.(episode := ResumeEpisode, deadline := now.boot + EPISODE_WINDOW,
                                                outcome := Available, attempts := 0));
      }
      ok := Save(save);
      if ok {
        samples := map[];
        quality := UNKNOWN_QUALITY;
      } else {
        state := saved;
      }
    }
  }
}
