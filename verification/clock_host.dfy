/**
 The coordinator as one long-lived thing: the record on disk, the engine object of the
 process that currently runs, and the steps that drive them. It is proved to follow
 `ClockRuns.Next`, so everything proved of runs is proved of these objects.
 */
module ClockHost {
  import opened Options
  import opened ClockTypes
  import opened ClockSpec
  import opened ClockRuns
  import opened ClockFrames
  import opened ClockEngine

  /** What a request is answered: whether the step did what it asked for. */
  predicate Succeeds(s: System, step: Step) {
    && s.Up?
    && match step
       case Boot(_, _, _) => false
       case Crash => false
       case RefreshStep(_) => true
       case SubmitStep(i) => Submit(s.node, i).accepted
       case PrepareStartStep(save) => PrepareStart(s.node, save).1
       case PrepareTimeoutStep(_) => s.ledger.waiting > 0
       case PrepareFinishStep(clock, save) => s.ledger.waiting > 0 && PrepareFinish(s.node, clock, save).1
       case AbortStep(save) => Abort(s.node, save).1
       case ResumeStep(b, g, clock, save) => Resume(s.node, b, g, clock, save).ok
       case CommandStep(ok, _) => s.node.inFlight && ok
  }

  class Coordinator {
    /** The record at the engine's path while no process runs. */
    var disk: Option<State>
    var engine: Engine?
    /** Prepare calls between their two phases. */
    var waiting: nat
    ghost var ledger: Ledger

    ghost predicate Valid()
      reads this
    {
      waiting == ledger.waiting
    }

    ghost function View(): System
      reads this, engine
    {
      if engine == null then Down(disk, ledger) else Up(engine.View(), ledger)
    }

    constructor (record: Option<State>)
      ensures Valid() && View() == Down(record, NOTHING)
    {
      disk, engine, waiting, ledger := record, null, 0, NOTHING;
    }

    /** One step: a process starts, crashes, or runs one of its critical sections. */
    method Do(boot: string, step: Step) returns (ok: bool)
      requires Valid()
      modifies this, engine
      ensures Valid()
      ensures View() == Next(boot, old(View()), step)
      ensures ok <==> Succeeds(old(View()), step)
      ensures engine == null || engine == old(engine) || fresh(engine)
    {
      ghost var after := Next(boot, View(), step);
      ok := false;
      if engine == null {
        if step.Boot? {
          disk, engine := Engine.Start(disk, BootInput(boot, step.clock, step.readable, step.save));
          if engine != null { waiting := 0; }
        }
      } else {
        ok := Serve(boot, step);
      }
      ledger := after.ledger;
    }

    method Serve(boot: string, step: Step) returns (ok: bool)
      requires Valid() && engine != null
      modifies this, engine
      ensures waiting == Next(boot, old(View()), step).ledger.waiting && ledger == old(ledger)
      ensures ok <==> Succeeds(old(View()), step)
      ensures engine == null || engine == old(engine)
      ensures match Next(boot, old(View()), step)
              case Down(d, _) => engine == null && disk == d
              case Up(n, _) => engine != null && engine.View() == n
    {
      hide Refresh, Submit, PrepareStart, PrepareTimeout, PrepareFinish, Abort, Resume, CommandDone;
      ok := true;
      match step {
        case Boot(_, _, _) => ok := false;
        case Crash =>
          disk, engine, ok := Some(engine.file), null, false;
        case RefreshStep(i) =>
          var _, _, _ := engine.Refresh(i);
        case SubmitStep(i) =>
          var accepted, _ := engine.Submit(i);
          ok := accepted;
        case PrepareStartStep(save) =>
          ok := engine.PrepareStart(save);
          if ok { waiting := waiting + 1; }
        case PrepareTimeoutStep(save) =>
          ok := waiting > 0;
          if ok {
            engine.PrepareTimeout(save);
            waiting := waiting - 1;
          }
        case PrepareFinishStep(clock, save) =>
          ok := waiting > 0;
          if ok {
            ok := engine.PrepareFinish(clock, save);
            waiting := waiting - 1;
          }
        case AbortStep(save) =>
          ok := engine.Abort(save);
        case ResumeStep(b, g, clock, save) =>
          ok := engine.Resume(b, g, clock, save);
        case CommandStep(done, save) =>
          ok := engine.inFlight && done;
          if engine.inFlight { engine.CommandDone(done, save); }
      }
    }

    /** Any number of steps. */
    method DoAll(boot: string, steps: seq<Step>)
      requires Valid()
      modifies this, engine
      ensures Valid()
      ensures View() == Run(boot, old(View()), steps)
      ensures engine == null || engine == old(engine) || fresh(engine)
    {
      hide Next;
      for k := 0 to |steps|
        invariant Valid()
        invariant View() == Run(boot, old(View()), steps[..k])
        invariant engine == null || engine == old(engine) || fresh(engine)
      {
        RunThen(boot, old(View()), steps[..k], steps[k]);
        assert steps[..k + 1] == steps[..k] + [steps[k]];
        var _ := Do(boot, steps[k]);
      }
      assert steps[..|steps|] == steps;
    }
  }
}
