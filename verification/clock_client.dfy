/**
 The power manager's side of the coordinator protocol: what it accepts as a status,
 when it trusts a quality, and how it asks for admission to suspend. Between any two of
 its requests the coordinator may take any steps, crashes and other clients' requests
 included.
 */
module ClockClient {
  import opened Options
  import opened ClockTypes
  import opened ClockSpec
  import opened ClockRuns
  import opened ClockFrames
  import opened ClockEvidence
  import opened ClockHistory
  import opened ClockFence
  import opened ClockEngine
  import opened ClockHost

  /**
   The age of a status answer once the round trip is added, or none if it is
   refused as stale. All arithmetic is on 64-bit values.
   */
  function RoundTripAge(age: int64, started: int64, finished: int64): (r: Option<int64>)
    requires 0 <= started && 0 <= finished
    ensures r.Some? <==> started <= finished && 0 <= age
                         && age as int + (finished as int - started as int) <= SAMPLE_MAX_AGE
    ensures r.Some? ==> r.value as int == age as int + (finished as int - started as int)
  {
    var elapsed: int64 := finished - started;
    if elapsed < 0 || elapsed > SAMPLE_MAX_AGE as int64 || age < 0 || age > SAMPLE_MAX_AGE as int64 - elapsed
    then None
    else Some(age + elapsed)
  }

  /** One status exchange: CLOCK_BOOTTIME when it began and ended, and the engine's own reading. */
  datatype Exchange = Exchange(started: BootTime, served: Option<Clock>, finished: BootTime)

  predicate Ordered(x: Exchange) {
    x.started <= x.finished && (x.served.Some? ==> x.started <= x.served.value.boot <= x.finished)
  }

  /** What every system a run reaches satisfies; `Initially` systems do, and steps keep it. */
  ghost predicate Reached(boot: string, s: System) {
    Sound(boot, s) && (s.Up? ==> Aged(s.node))
  }

  /** No age an engine publishes in any run leaves the 64-bit range. */
  lemma RunsReach(boot: string, s: System, steps: seq<Step>)
    requires Reached(boot, s) || (boot != "" && Initially(boot, s))
    ensures Reached(boot, Run(boot, s, steps))
  {
    assert Sound(boot, s) && (s.Up? ==> Aged(s.node));
    hide Sound, Aged;
    RunIsSound(boot, s, steps);
    RunIsAged(boot, s, steps);
  }

  /** The answer to a status request as the client sees it; ages of engines that runs reach fit 64 bits. */
  function ClientStatus(n: Node, x: Exchange): Option<Status>
    requires Aged(n)
  {
    var q := StatusOf(n, x.served);
    var age := RoundTripAge(q.quality.age as int64, x.started as int64, x.finished as int64);
    if age.None? then None else Some(q.(quality := q.quality.(age := age.value as int)))
  }

  predicate Trusted(q: Status, bootId: string) {
    && bootId != "" && q.bootId == bootId && q.generation != 0 && !q.preparing
    && q.quality.external && (q.quality.source == Gps || q.quality.source == Ntp)
    && 0 <= q.quality.age <= SAMPLE_MAX_AGE
    && Resolved(q.outcome)
    && q.quality.uncertainty >= 0.0
    && WithinFive(q.quality.residual, q.quality.uncertainty)
  }

  lemma TrustedAge(n: Node, x: Exchange, bootId: string)
    requires Aged(n) && Ordered(x) && ClientStatus(n, x).Some? && Trusted(ClientStatus(n, x).value, bootId)
    ensures x.finished - EvidenceBoot(n) <= SAMPLE_MAX_AGE
    ensures n.quality.external && (n.quality.source == Gps || n.quality.source == Ntp)
    ensures n.st.bootId == bootId && Resolved(n.st.budget.outcome) && !n.st.fence.preparing
    ensures n.quality.uncertainty - 5.0 <= n.quality.residual <= 5.0 - n.quality.uncertainty
  {
  }

  /**
   Exactly when the power manager trusts what it is answered: the engine's quality is
   external GPS or NTP within 5 s of the truth, observed at most 30 s before the exchange
   ended if the round trip is counted on top of its age when served, on an identified
   engine with a known outcome and no preparation.
   */
  lemma QualityIsTrustedExactly(n: Node, x: Exchange, bootId: string)
    requires Aged(n)
    ensures (ClientStatus(n, x).Some? && Trusted(ClientStatus(n, x).value, bootId)) <==>
      && bootId != "" && n.st.bootId == bootId && n.st.generation != 0 && !n.st.fence.preparing
      && n.st.budget.outcome != Unresolved && n.st.budget.outcome != InFlight
      && n.quality.external && (n.quality.source == Gps || n.quality.source == Ntp)
      && n.quality.uncertainty >= 0.0
      && n.quality.uncertainty - 5.0 <= n.quality.residual <= 5.0 - n.quality.uncertainty
      && x.served.Some? && n.qualityBoot <= x.served.value.boot && x.started <= x.finished
      && var age := n.quality.age + (x.served.value.boot - n.qualityBoot);
         0 <= age && age + (x.finished - x.started) <= 30 * SECOND
  {
  }

  /**
   End to end, in every run: a quality the power manager trusts is what one refresh observed
   of GPS or NTP. Report and sample were made at most 30 s of boot time before the exchange
   finished, the report put the clock within 5 s of the truth, uncertainty included, and no
   command was unresolved and no suspend prepared when it was served. (`Aged` holds of every
   engine a run reaches, by `RunsReach`; the answer could not be computed on 64 bits without
   it.)
   */
  lemma TrustedQualityIsFresh(boot: string, s: System, steps: seq<Step>, x: Exchange, bootId: string)
    requires boot != "" && Initially(boot, s) && Run(boot, s, steps).Up? && Ordered(x)
    requires Aged(Run(boot, s, steps).node)
    requires var q := ClientStatus(Run(boot, s, steps).node, x); q.Some? && Trusted(q.value, bootId)
    ensures var n := Run(boot, s, steps).node;
      && bootId == boot && Resolved(n.st.budget.outcome) && !n.st.fence.preparing
      && exists k: nat ::
           && ObservedAt(boot, s, steps, k, n)
           && var t: Tracking := steps[k].refresh.tracking.value;
           && (t.source == Gps || (t.source == Ntp && t.external))
           && t.uncertainty - 5.0 <= t.residual <= 5.0 - t.uncertainty
           && x.finished - MadeAt(steps[k].refresh, Run(boot, s, steps[..k]).node.samples) <= SAMPLE_MAX_AGE
  {
    RunIsSound(boot, s, steps);
    var n := Run(boot, s, steps).node;
    TrustedAge(n, x, bootId);
    QualityIsObserved(boot, s, steps);
    hide Run, ClientStatus, Trusted, RecordOk, RecordFits, MadeAt;
    var k: nat :| ObservedAt(boot, s, steps, k, n);
    assert ObservedAt(boot, s, steps, k, n);
  }

  /**
   On an engine that prepares nothing, a status is accepted, and so recovery succeeds,
   exactly when the answered age plus the round trip is at most 30 s. An engine keeps the
   age of a withdrawn source in its answer, so a source last observed longer ago makes the
   status, and with it every suspend admission, be refused.
   */
  lemma RecoveryNeedsYoungStatus(n: Node, x: Exchange)
    requires Aged(n)
    ensures ClientStatus(n, x).Some? <==>
      x.started <= x.finished && PublishedQuality(n, x.served).age + (x.finished - x.started) <= SAMPLE_MAX_AGE
    ensures n.quality.source != Unknown && x.served.Some? && n.qualityBoot <= x.served.value.boot
            && x.served.value.boot - EvidenceBoot(n) > SAMPLE_MAX_AGE
            ==> ClientStatus(n, x).None?
  {
  }

  // ----- Recovering an interrupted preparation -----

  datatype RecoverInput = RecoverInput(
    exchange: Option<Exchange>,     // none when the coordinator cannot be reached
    bootId: Option<string>,
    gap: seq<Step>,                 // what the coordinator does before the resume request
    resumeReachable: bool, resumeClock: Option<Clock>, resumeSave: SaveResult)

  /** The status a recovery works with, if the exchange yields one. */
  ghost function RecoveryStatus(s: System, x: Option<Exchange>): Option<Status>
    requires s.Up? ==> Aged(s.node)
  {
    if s.Down? || x.None? then None else ClientStatus(s.node, x.value)
  }

  predicate KnowsIdentity(q: Status, bootId: Option<string>) {
    q.bootId != "" && bootId == Some(q.bootId) && q.generation != 0
  }

  /**
   Clears a preparation left behind by an earlier suspend attempt. It succeeds exactly if
   nothing was prepared when the status was served, or the resume that follows is accepted
   by whatever the coordinator has become meanwhile; either way nothing is prepared then.
   */
  method RecoverClockPreparation(c: Coordinator, boot: string, i: RecoverInput)
    returns (ok: bool, ghost trace: seq<Step>)
    requires c.Valid() && Reached(boot, c.View())
    modifies c, c.engine
    ensures c.Valid() && c.View() == Run(boot, old(c.View()), trace) && Reached(boot, c.View())
    ensures c.engine == null || c.engine == old(c.engine) || fresh(c.engine)
    ensures ok ==> c.View().Up? && !c.View().node.st.fence.preparing
    ensures var q := RecoveryStatus(old(c.View()), i.exchange);
      if q.None? then !ok && trace == []
      else if !q.value.preparing then ok && trace == []
      else if !KnowsIdentity(q.value, i.bootId) || !i.resumeReachable then !ok && trace == []
      else
        var resume := ResumeStep(q.value.bootId, q.value.generation, i.resumeClock, i.resumeSave);
        trace == i.gap + [resume] && (ok <==> Succeeds(Run(boot, old(c.View()), i.gap), resume))
  {
    hide Next, Run, Sound, ClientStatus;
    ghost var s := c.View();
    NoSteps(boot, s);
    ok, trace := false, [];
    if c.engine == null || i.exchange.None? {
      return;
    }
    var q := ClientStatus(c.engine.View(), i.exchange.value);
    if q.None? {
      return;
    }
    AnswersFence(c.engine.View(), i.exchange.value);
    if !q.value.preparing {
      ok := true;
      return;
    }
    if i.bootId.None? || q.value.bootId == "" || q.value.bootId != i.bootId.value || q.value.generation == 0
       || !i.resumeReachable {
      return;
    }
    c.DoAll(boot, i.gap);
    ghost var s1 := c.View();
    var resume := ResumeStep(q.value.bootId, q.value.generation, i.resumeClock, i.resumeSave);
    ok := c.Do(boot, resume);
    trace := i.gap + [resume];
    RunThen(boot, s, i.gap, resume);
    RunsReach(boot, s, trace);
    if ok { ResumeClears(boot, s1, resume); }
  }

  lemma NoSteps(boot: string, s: System)
    ensures Run(boot, s, []) == s
  {
  }

  lemma AnswersFence(n: Node, x: Exchange)
    requires Aged(n) && ClientStatus(n, x).Some?
    ensures var q := ClientStatus(n, x).value;
      q.preparing == n.st.fence.preparing && q.bootId == n.st.bootId && q.generation == n.st.generation
  {
  }

  lemma ResumeClears(boot: string, s: System, step: Step)
    requires step.ResumeStep? && Succeeds(s, step)
    ensures Next(boot, s, step).Up? && !Next(boot, s, step).node.st.fence.preparing
  {
  }

  // ----- Admission to suspend -----

  datatype AdmitInput = AdmitInput(
    recovery: RecoverInput,
    beforePrepare: seq<Step>, prepareReachable: bool, startSave: SaveResult,
    whileWaiting: seq<Step>,        // the command in flight ends here, if it does
    timedOut: bool, timeoutSave: SaveResult,
    clock: Option<Clock>, finishSave: SaveResult,
    beforeReply: seq<Step>, replyClock: Option<Clock>, replyLost: bool,
    bootId: Option<string>, abortSave: SaveResult)

  /** The identity a suspend is admitted under, handed back by the resume that follows. */
  datatype Token = Token(bootId: string, generation: nat)

  /**
   The client's ground for a suspend, read off a run: step `f` was its successful Prepare,
   and the answer, served at the end of the run, still said prepared, under this token.
   */
  predicate Grants(boot: string, s: System, steps: seq<Step>, f: nat, token: Token) {
    && f < |steps| && steps[f].PrepareFinishStep?
    && Succeeds(Run(boot, s, steps[..f]), steps[f])
    && var r := Run(boot, s, steps);
    && r.Up? && r.node.st.fence.preparing
    && token == Token(r.node.st.bootId, r.node.st.generation) && token.bootId != "" && token.generation != 0
  }

  /**
   The two phases of the Prepare request. It answers whether the second succeeded; `f` is
   then its step in the run.
   */
  method Prepare(c: Coordinator, boot: string, i: AdmitInput) returns (ok: bool, ghost trace: seq<Step>, ghost f: nat)
    requires c.Valid()
    modifies c, c.engine
    ensures c.Valid() && c.View() == Run(boot, old(c.View()), trace)
    ensures c.engine == null || c.engine == old(c.engine) || fresh(c.engine)
    ensures ok ==>
      && f < |trace| && trace[f].PrepareFinishStep?
      && Succeeds(Run(boot, old(c.View()), trace[..f]), trace[f])
  {
    hide Next, Run, Succeeds;
    ghost var s := c.View();
    f := 0;
    var waits := c.Do(boot, PrepareStartStep(i.startSave));
    NoSteps(boot, s);
    RunThen(boot, s, [], PrepareStartStep(i.startSave));
    trace := [] + [PrepareStartStep(i.startSave)];
    if !waits { return false, trace, f; }
    c.DoAll(boot, i.whileWaiting);
    RunJoins(boot, s, trace, i.whileWaiting);
    trace := trace + i.whileWaiting;
    if i.timedOut {
      var _ := c.Do(boot, PrepareTimeoutStep(i.timeoutSave));
      RunThen(boot, s, trace, PrepareTimeoutStep(i.timeoutSave));
      return false, trace + [PrepareTimeoutStep(i.timeoutSave)], f;
    }
    f := |trace|;
    var finish := PrepareFinishStep(i.clock, i.finishSave);
    ok := c.Do(boot, finish);
    RunThen(boot, s, trace, finish);
    assert (trace + [finish])[..f] == trace;
    trace := trace + [finish];
  }

  /** A successful Prepare somewhere in a run, seen from before that run and after more of it. */
  lemma PrepareStands(boot: string, s: System, before: seq<Step>, trace: seq<Step>, f: nat, after: seq<Step>)
    requires f < |trace| && Succeeds(Run(boot, Run(boot, s, before), trace[..f]), trace[f])
    ensures var steps := before + trace + after;
      && steps[|before| + f] == trace[f] && Succeeds(Run(boot, s, steps[..|before| + f]), trace[f])
  {
    hide Run, Succeeds;
    RunJoins(boot, s, before, trace[..f]);
    assert (before + trace + after)[..|before| + f] == before + trace[..f];
  }

  lemma RunJoinsTwice(boot: string, s: System, a: seq<Step>, b: seq<Step>, c: seq<Step>)
    ensures Run(boot, s, a + b + c) == Run(boot, Run(boot, Run(boot, s, a), b), c)
  {
    hide Run;
    RunJoins(boot, s, a, b);
    RunJoins(boot, s, a + b, c);
  }

  /**
   The power manager's admission sequence before it calls logind: recover, prepare, and
   check the answer. What the coordinator does between the requests is arbitrary.
   */
  method AdmitSuspend(c: Coordinator, boot: string, i: AdmitInput)
    returns (token: Option<Token>, ghost trace: seq<Step>, ghost f: nat)
    requires c.Valid() && Reached(boot, c.View())
    modifies c, c.engine
    ensures c.Valid() && c.View() == Run(boot, old(c.View()), trace)
    ensures c.engine == null || c.engine == old(c.engine) || fresh(c.engine)
    ensures token.Some? ==> Grants(boot, old(c.View()), trace, f, token.value) && i.bootId == Some(token.value.bootId)
  {
    hide Next, Run, Sound, ClientStatus, Succeeds;
    ghost var s := c.View();
    token, f := None, 0;
    var recovered;
    recovered, trace := RecoverClockPreparation(c, boot, i.recovery);
    if !recovered || !i.prepareReachable {
      return;
    }
    c.DoAll(boot, i.beforePrepare);
    RunJoins(boot, s, trace, i.beforePrepare);
    ghost var before, preparing := trace + i.beforePrepare, [];
    var ok;
    ok, preparing, f := Prepare(c, boot, i);
    c.DoAll(boot, i.beforeReply);
    RunJoinsTwice(boot, s, before, preparing, i.beforeReply);
    trace := before + preparing + i.beforeReply;
    if !ok || c.engine == null || i.replyLost {
      return;
    }
    PrepareStands(boot, s, before, preparing, f, i.beforeReply);
    f := |before| + f;
    var q := c.engine.Status(i.replyClock);
    if i.bootId.None? || q.bootId == "" || q.bootId != i.bootId.value || q.generation == 0 || !q.preparing {
      var _ := c.Do(boot, AbortStep(i.abortSave));
      RunThen(boot, s, trace, AbortStep(i.abortSave));
      trace := trace + [AbortStep(i.abortSave)];
      return;
    }
    token := Some(Token(q.bootId, q.generation));
  }

  /**
   What a token is worth, in every run. If since the Prepare it answers nobody has sent an
   Abort or resumed its identity, then however the coordinator went on, refreshing,
   failing saves, crashing and restarting: the baseline that Prepare recorded is held in
   memory and on disk under the token's identity, no command is unresolved, no makestep
   has started since, and a resume with the token will be accepted.
   */
  lemma TokenHoldsTheFence(boot: string, s: System, steps: seq<Step>, f: nat, token: Token, later: seq<Step>)
    requires boot != "" && Initially(boot, s) && Grants(boot, s, steps, f, token)
    requires Disciplined(boot, s, steps[..f])
    requires Undisturbed(boot, Run(boot, s, steps[..f + 1]), steps[f + 1..] + later)
    ensures var a := Run(boot, s, steps[..f]);
      var r := Run(boot, s, steps + later);
      && steps[f].clock.Some?
      && var fence := Fence(true, true, steps[f].clock.value.wall, steps[f].clock.value.boot);
      && token.bootId == boot && r.ledger.started == a.ledger.started
      && (r.Up? ==> && Fenced(r.node.st, boot, fence, token.generation)
                    && Fenced(r.node.disk, boot, fence, token.generation)
                    && ResumeAccepted(r.node, token.bootId, token.generation))
      && (r.Down? ==> r.disk.Some? && Fenced(r.disk.value, boot, fence, token.generation))
  {
    hide Next, Run, Undisturbed, Disciplined, Sound;
    var before, after := steps[..f], steps[f + 1..];
    var finish := steps[f];
    assert steps[..f + 1] == before + [finish] && steps == before + [finish] + after;
    assert steps + later == before + [finish] + (after + later);
    RunThen(boot, s, before, finish);
    RunJoins(boot, s, before + [finish], after);
    RunJoins(boot, s, before + [finish], after + later);
    UndisturbedPrefix(boot, Run(boot, s, before + [finish]), after, later);
    PreparedUntilLifted(boot, s, before, finish.clock, finish.save, after);
    PreparedUntilLifted(boot, s, before, finish.clock, finish.save, after + later);
  }

  lemma {:induction false} UndisturbedPrefix(boot: string, s: System, a: seq<Step>, b: seq<Step>)
    requires Undisturbed(boot, s, a + b)
    ensures Undisturbed(boot, s, a)
    decreases |a|
  {
    hide Next, Lifts, Admissible;
    if a != [] {
      assert (a + b)[1..] == a[1..] + b;
      UndisturbedPrefix(boot, Next(boot, s, a[0]), a[1..], b);
    }
  }
}
