/**
 Every reachable machine is sound, and what follows for whole runs: which commands reach
 logind, where automatic provenance can be, and that no aborted visit to
 issuing-low-power is stranded.
 */
module PowerRuns {
  import opened Options
  import opened PowerTypes
  import opened Inhibitors
  import opened PowerPolicy
  import opened PowerTable
  import opened PowerMachine
  import opened PowerDecisions
  import opened PowerInvariant

  // ----- Turns keep the invariant -----

  lemma HeadIsReady(m: Machine)
    requires Sound(m) && m.queue != []
    ensures Ready(m.state, m.data, m.queue[0])
  {
    hide CallSafe;
    assert m.queue[0] in m.queue;
    if Tag(m.queue[0]).Some? { assert TagFits(m, 0); }
  }

  /** No wake survives into a state where it could act, and no late block does unless the provenance is automatic. */
  lemma TailIsHarmless(m: Machine, row: Row, i: nat)
    requires Sound(m) && 0 < i < |m.queue| && Tag(m.queue[i]).Some?
    requires !StaleTimer(m, m.queue[0]) && Shape(m.state, m.queue[0], row) && Granted(row, m.data, m.queue[0])
    requires row.to == WaitingInhibitors || row.to == IssuingLowPower
    ensures !IsWake(m.queue[i]) && m.data.automatic
  {
    hide CallSafe, Held, Passes;
    GuardFacts(m.data, m.queue[0]);
    var e := m.queue[0];
    assert TagFits(m, i);
    if Tag(e).Some? { assert TagFits(m, 0); }
  }

  lemma ActionKeepsProvenance(s: State, d: Data, e: Event, row: Row, i: ActInput)
    requires Shape(s, e, row) && (row.to == WaitingInhibitors || row.to == IssuingLowPower)
    ensures Act(row.action, d, e, i).data.automatic == d.automatic && Act(row.action, d, e, i).data.target == d.target
    ensures Act(row.action, d, e, i).sends == []
  {
  }

  lemma MidIsUntagged(m: Machine, m': Machine, mid: seq<Event>, sends: seq<Event>, i: nat)
    requires m.queue != [] && m'.queue == m.queue[1..] + mid + sends && forall e | e in mid :: Arrives(e, m'.visit)
    requires |m.queue| - 1 <= i < |m.queue| - 1 + |mid|
    ensures Tag(m'.queue[i]).None?
  {
    assert m'.queue[i] == mid[i - (|m.queue| - 1)] && m'.queue[i] in mid;
  }

  lemma QueueFollows(m: Machine, m': Machine, mid: seq<Event>, sends: seq<Event>)
    requires Sound(m) && m.queue != []
    requires forall i | 0 < i < |m.queue| && Tag(m.queue[i]).Some? ::
      m'.state == WaitingInhibitors || m'.state == IssuingLowPower ==> !IsWake(m.queue[i]) && m'.data.automatic
    requires m'.visit == m.visit + 1 && m'.queue == m.queue[1..] + mid + sends
    requires forall e | e in mid :: Arrives(e, m'.visit)
    requires |sends| <= 1 && if m'.issue.Awaiting? then sends == [m'.issue.event] else Untagged(sends)
    requires IssueFits(m'.state, m'.data, m'.visit, m'.issue)
    ensures QueueFits(m')
  {
    hide CallSafe, Provenance, Latched, Timed;
    var n := |m.queue| - 1;
    var k := n + |mid|;
    forall e | e in m'.queue ensures WellFormed(e) && (TimerVisit(e).Some? ==> TimerVisit(e).value <= m'.visit) {
      assert e in m.queue || e in mid || e in sends;
    }
    forall i | 0 <= i < |m'.queue| && Tag(m'.queue[i]).Some?
      ensures TagFits(m', i) && (i < n || i == k) && (i == k ==> Tag(m'.queue[i]).value == m'.visit)
      ensures i < n ==> Tag(m'.queue[i]).value < m'.visit
    {
      if i < n {
        assert m'.queue[i] == m.queue[i + 1];
        assert TagFits(m, i + 1);
        assert forall j | 0 <= j < i :: m'.queue[j] == m.queue[j + 1];
      } else if i < k {
        MidIsUntagged(m, m', mid, sends, i);
        assert false;
      } else {
        assert m'.queue[i] == sends[0] && sends[0] in sends;
        forall j | 0 <= j < i && m'.queue[j].SuspendImminentTimeout? ensures m'.queue[j].visit <= m'.visit {
          assert m'.queue[j] in m'.queue;
        }
      }
    }
    forall i, j | 0 <= i < j < |m'.queue| && Tag(m'.queue[i]).Some? ensures m'.queue[i] != m'.queue[j] {
      if j < n {
        assert m'.queue[i] == m.queue[i + 1] && m'.queue[j] == m.queue[j + 1];
      }
    }
  }

  lemma FollowIsSound(m: Machine, t: Turn)
    requires Sound(m) && m.queue != [] && Chosen(m, t).Some?
    requires forall a | a in t.arrivals :: Arrives(a, m.visit + 1)
    ensures Sound(Follow(m, Chosen(m, t).value, t))
  {
    hide Provenance, Latched, Timed, CallSafe, Rows, Act, Enter, QueueFits, Shape, Chosen, StaleTimer, Arrives;
    var row := Chosen(m, t).value;
    var e := m.queue[0];
    var i := ActInput(t.actLive, m.default_, t.requestId, t.published, t.handedOn);
    var a := Act(row.action, m.data, e, i);
    ChosenIsGranted(m, t);
    TableShape(m.state, e, row);
    HeadIsReady(m);
    ActionFits(m.state, m.data, e, row, i);
    IssuingArrival(m.state, m.data, e, row, i);
    var n := Enter(row.to, a.data, e, m.visit + 1, m.dryRun, t.entryLive, t.issueInput);
    EntryFits(row.to, a.data, e, m.visit + 1, m.dryRun, t.entryLive, t.issueInput);
    EntryKeepsIntent(row.to, a.data, e, m.visit + 1, m.dryRun, t.entryLive, t.issueInput);
    var m' := Follow(m, row, t);
    forall k | 0 < k < |m.queue| && Tag(m.queue[k]).Some?
      ensures m'.state == WaitingInhibitors || m'.state == IssuingLowPower ==> !IsWake(m.queue[k]) && m'.data.automatic
    {
      if m'.state == WaitingInhibitors || m'.state == IssuingLowPower {
        TailIsHarmless(m, row, k);
        ActionKeepsProvenance(m.state, m.data, e, row, i);
      }
    }
    forall x | x in a.sends + t.arrivals ensures Arrives(x, m'.visit) { ArrivesLater(x, m'.visit, a.sends, t.arrivals); }
    assert m'.queue == m.queue[1..] + (a.sends + t.arrivals) + n.sends;
    QueueFollows(m, m', a.sends + t.arrivals, n.sends);
  }

  lemma ArrivesLater(x: Event, visit: nat, sends: seq<Event>, arrivals: seq<Event>)
    requires x in sends + arrivals && Untagged(sends) && forall a | a in arrivals :: Arrives(a, visit)
    ensures Arrives(x, visit)
  {
  }

  /** Issuing-low-power is entered on an event without payload, unless the provenance is automatic. */
  lemma IssuingArrival(s: State, d: Data, e: Event, row: Row, i: ActInput)
    requires Shape(s, e, row) && Granted(row, d, e)
    requires Fits(row.to, Act(row.action, d, e, i))
    ensures Arrived(row.to, Act(row.action, d, e, i).data, e)
  {
    hide Held;
    GuardFacts(d, e);
    if row.to == IssuingLowPower { ActionKeepsProvenance(s, d, e, row, i); }
  }

  /** An event at position `p` that will take the machine out of issuing-low-power when its turn comes. */
  predicate LeavesAt(m: Machine, p: nat) {
    && m.state == IssuingLowPower && p < |m.queue|
    && match m.queue[p]
       case PowerRun => true
       case LateBlockingInhibitor(_) => true
       case LastDitchDisabled => m.data.automatic
       case SuspendCancelled => !m.data.automatic && m.data.target == Suspend
       case Wakeup(_) => !m.data.automatic
       case WakeupRtc(_) => !m.data.automatic
       case _ => false
  }

  lemma LeavingIsTaken(m: Machine, t: Turn)
    requires LeavesAt(m, 0)
    ensures Chosen(m, t).Some?
  {
    hide MayEnter, LastDitchHolds, CancelsLowPower;
    var e := m.queue[0];
    var rows := Rows(IssuingLowPower, e);
    assert rows == FromIssuingLowPower(e);
    var k := if IsWake(e) then 3 else 0;
    assert Enabled(rows, k, m.data, e, t.read);
  }

  lemma DropIsSound(m: Machine, t: Turn)
    requires Sound(m) && m.queue != [] && Chosen(m, t).None?
    ensures Sound(m.(queue := m.queue[1..]))
  {
    hide CallSafe, Chosen;
    var m' := m.(queue := m.queue[1..]);
    if m.issue.Awaiting? && m.issue.event == m.queue[0] { LeavingIsTaken(m, t); }
    forall i | 0 <= i < |m'.queue| && Tag(m'.queue[i]).Some? ensures TagFits(m', i) {
      assert TagFits(m, i + 1);
      assert forall j | 0 <= j < i :: m'.queue[j] == m.queue[j + 1];
    }
  }

  lemma PushIsSound(m: Machine, e: Event)
    requires Sound(m) && Arrives(e, m.visit)
    ensures Sound(m.(queue := m.queue + [e]))
  {
    hide CallSafe;
    var m' := m.(queue := m.queue + [e]);
    forall i | 0 <= i < |m'.queue| && Tag(m'.queue[i]).Some? ensures i < |m.queue| && TagFits(m', i) {
      assert TagFits(m, i);
    }
  }

  lemma NextIsSound(m: Machine, x: Input)
    requires Sound(m) && Accepts(m, x)
    ensures Sound(Apply(m, x))
  {
    hide Sound, Chosen, Follow, Arrives;
    match x
    case Queue(e) => PushIsSound(m, e);
    case SetDefault(t) => DefaultIsSound(m, t);
    case Proceed(t) =>
      if m.queue != [] {
        if Chosen(m, t).Some? { FollowIsSound(m, t); } else { DropIsSound(m, t); }
      }
  }

  lemma DefaultIsSound(m: Machine, t: Target)
    requires Sound(m) && IsValidDefault(t)
    ensures Sound(m.(default_ := t))
  {
    hide CallSafe;
    var m' := m.(default_ := t);
    forall i | 0 <= i < |m'.queue| && Tag(m'.queue[i]).Some? ensures TagFits(m', i) {
      assert TagFits(m, i);
    }
  }

  /** Every machine reached from a sound one is sound. */
  lemma {:induction false} RunIsSound(m: Machine, xs: seq<Input>)
    requires Sound(m) && Legal(m, xs)
    ensures Sound(After(m, xs))
    decreases |xs|
  {
    hide Sound, Apply, Accepts;
    if xs != [] {
      NextIsSound(m, xs[0]);
      RunIsSound(Apply(m, xs[0]), xs[1..]);
    }
  }

  lemma StartIsSound(m: Machine)
    requires Initial(m)
    ensures Sound(m)
  {
  }

  // ----- What runs guarantee -----

  /**
   Every command logind is ever handed, in any run, on the readings it rested on. No listed
   inhibitor blocks its target. A suspend has been admitted; the vehicle was read in
   stand-by after the nRF knew, and again with the batteries: in neither slot a pack, read
   or, where the read failed, last known, and none active; and nothing connected that is
   to keep the vehicle awake. A timed hibernation has its duration acknowledged. An
   automatic one has both main batteries giving nothing and a reserve run low.
   */
  lemma CommandsAreSafe(m: Machine, xs: seq<Input>, c: Call)
    requires Initial(m) && Legal(m, xs) && c in After(m, xs).calls
    ensures c.data.target != Run
    ensures forall i | i in c.gate.inhibitors ::
      i.kind != Block && (i.kind == SuspendOnly ==> c.data.target != Suspend)
    ensures c.data.target == Suspend ==>
      && c.admission.Some?
      && (c.afterQuiesce.vehicle == Some(StandBy) || (c.afterQuiesce.vehicle.None? && c.data.vehicle == StandBy))
      && var read := c.eligibility;
      && (read.vehicle == Some(StandBy) || (read.vehicle.None? && c.data.vehicle == StandBy))
      && read.present0.read != Some(true) && (read.present0.read.None? ==> !read.present0.cached)
      && read.present1.read != Some(true) && (read.present1.read.None? ==> !read.present1.cached)
      && read.active0 != Some(true) && (read.active0.None? ==> !c.data.active0)
      && read.active1 != Some(true) && (read.active1.None? ==> !c.data.active1)
      && (!read.suspendWhenOnline ==>
            && !read.inRemoteGrace && read.providers.Some?
            && forall p | p in read.providers.value && p != "status" :: read.providers.value[p] != "connected")
    ensures c.data.target == HibernateFor ==>
      c.data.wakeSeconds >= 1 && c.data.armed && c.data.acked == c.data.wakeSeconds
    ensures c.data.automatic ==> c.data.target == Hibernate && ReservesRunOut(c.last)
  {
    hide Initial, Legal, After, HasBlocking, LastDitchHolds, StandByNow, BatteryPresent, BatteryActive, RemoteAccessBlocks,
      ReservesRunOut;
    StartIsSound(m);
    RunIsSound(m, xs);
    assert CallSafe(c);
    BlocksExactly(c.gate.inhibitors, c.data.target);
    ClearExactly(c.data, c.afterQuiesce);
    ClearExactly(c.data, c.eligibility);
    LastDitchExactly(c.last);
  }

  /** Where automatic provenance can be found, and what the suspend states hold. */
  lemma ProvenanceIsConfined(m: Machine, xs: seq<Input>)
    requires Initial(m) && Legal(m, xs)
    ensures var n := After(m, xs);
      && n.state != Suspended
      && (n.state == PreSuspend || n.state == SuspendImminent ==> n.data.target == Suspend)
      && (n.data.automatic ==> (n.data.target == Hibernate && LowPower(n.state)) || (n.data.target == Run && n.state == Running))
  {
    hide Initial, Legal, After;
    StartIsSound(m);
    RunIsSound(m, xs);
  }

  /** A wake reaches issuing-low-power only in the visit that slept, and only for a suspend. */
  lemma WakesReachTheirVisit(m: Machine, xs: seq<Input>)
    requires Initial(m) && Legal(m, xs)
    ensures var n := After(m, xs);
      n.state == IssuingLowPower && n.queue != [] && IsWake(n.queue[0]) ==>
        n.issue == Awaiting(n.queue[0]) && n.data.target == Suspend && Tag(n.queue[0]) == Some(n.visit)
  {
    hide Initial, Legal, After, CallSafe;
    StartIsSound(m);
    RunIsSound(m, xs);
    var n := After(m, xs);
    if n.queue != [] && IsWake(n.queue[0]) { assert TagFits(n, 0); }
  }

  // ----- Never stranded -----

  function Turns(xs: seq<Input>): nat
    decreases |xs|
  {
    if xs == [] then 0 else (if xs[0].Proceed? then 1 else 0) + Turns(xs[1..])
  }

  lemma TurnTowardsLeaving(m: Machine, p: nat, t: Turn)
    requires LeavesAt(m, p)
    ensures var m' := TakeTurn(m, t); m'.state != IssuingLowPower || (p > 0 && LeavesAt(m', p - 1))
  {
    hide Rows, Act, Enter, Chosen, StaleTimer, Held;
    if Chosen(m, t).Some? {
      ChosenIsGranted(m, t);
      var row := Chosen(m, t).value;
      TableShape(m.state, m.queue[0], row);
      GuardFacts(m.data, m.queue[0]);
      var i := ActInput(t.actLive, m.default_, t.requestId, t.published, t.handedOn);
      var a := Act(row.action, m.data, m.queue[0], i);
      EntryKeepsIntent(row.to, a.data, m.queue[0], m.visit + 1, m.dryRun, t.entryLive, t.issueInput);
      if row.to == IssuingLowPower {
        ActionKeepsProvenance(m.state, m.data, m.queue[0], row, i);
        assert Follow(m, row, t).queue[..|m.queue| - 1] == m.queue[1..];
      }
    } else if p == 0 {
      LeavingIsTaken(m, t);
    }
  }

  /** What arrives meanwhile does not move the event that will lead out. */
  lemma ArrivalKeepsLeaving(m: Machine, p: nat, x: Input)
    requires LeavesAt(m, p) && !x.Proceed?
    ensures LeavesAt(Apply(m, x), p)
  {
  }

  lemma {:induction false} LeavesInTime(m: Machine, p: nat, xs: seq<Input>) returns (k: nat)
    requires LeavesAt(m, p) && Turns(xs) > p
    ensures k <= |xs| && After(m, xs[..k]).state != IssuingLowPower
    decreases |xs|
  {
    hide LeavesAt, TakeTurn, Apply;
    var m' := Apply(m, xs[0]);
    var rest := xs[1..];
    if xs[0].Proceed? { LeavingByTurn(m, p, xs[0]); } else { ArrivalKeepsLeaving(m, p, xs[0]); }
    if m'.state != IssuingLowPower {
      k := 1;
      assert xs[..1] == [xs[0]] && [xs[0]][1..] == [];
    } else {
      var j := LeavesInTime(m', if xs[0].Proceed? then p - 1 else p, rest);
      k := j + 1;
      assert xs[..k] == [xs[0]] + rest[..j];
      assert xs[..k][1..] == rest[..j];
    }
  }

  lemma LeavingByTurn(m: Machine, p: nat, x: Input)
    requires LeavesAt(m, p) && x.Proceed?
    ensures Apply(m, x).state != IssuingLowPower || (p > 0 && LeavesAt(Apply(m, x), p - 1))
  {
    hide LeavesAt, TakeTurn;
    TurnTowardsLeaving(m, p, x.turn);
  }

  /**
   Whenever entering issuing-low-power aborts or wakes by sending an event, that event
   is queued, and processing the queue through it leaves issuing-low-power, whatever
   stands before it and whatever arrives meanwhile.
   */
  lemma NeverStranded(m: Machine, xs: seq<Input>, ys: seq<Input>)
    requires Initial(m) && Legal(m, xs)
    requires After(m, xs).state == IssuingLowPower && After(m, xs).issue.Awaiting?
    ensures After(m, xs).issue.event in After(m, xs).queue
    ensures forall p | 0 <= p < |After(m, xs).queue| && After(m, xs).queue[p] == After(m, xs).issue.event && Turns(ys) > p ::
      exists k | 0 <= k <= |ys| :: After(After(m, xs), ys[..k]).state != IssuingLowPower
  {
    hide Initial, Legal, CallSafe, QueueFits, After, Turns;
    StartIsSound(m);
    RunIsSound(m, xs);
    var n := After(m, xs);
    forall p | 0 <= p < |n.queue| && n.queue[p] == n.issue.event && Turns(ys) > p
      ensures exists k | 0 <= k <= |ys| :: After(n, ys[..k]).state != IssuingLowPower
    {
      var k := LeavesInTime(n, p, ys);
      assert After(n, ys[..k]).state != IssuingLowPower;
    }
  }

  /**
   No event is sent when logind refuses a power-off or the target has no command: the
   visit then ends only on a run, automatic-hibernate, manual or scheduled event, and
   under automatic provenance on what can call it off. Vehicle reports, battery events and
   the user's explicit hibernations are dropped. A run event does end it.
   */
  lemma RefusalIsLeftByCommandsOnly(m: Machine, t: Turn)
    requires Sound(m) && m.queue != [] && m.state == IssuingLowPower && (m.issue == Refused || m.issue == Unsupported)
    ensures Chosen(m, t).Some? ==>
      var e := m.queue[0];
      || e == PowerRun || e.PowerHibernate? || e.PowerHibernateManual? || e.PowerHibernateFor?
      || (m.data.automatic && (e == LastDitchDisabled || e.DefaultStateChanged? || e.LateBlockingInhibitor?
                               || Rechecks(IssuingLowPower, e)))
    ensures m.queue[0] == PowerRun ==> Chosen(m, t).Some? && TakeTurn(m, t).state == Running
  {
    hide CallSafe, Held, Passes;
    var e := m.queue[0];
    assert Tag(e).Some? ==> TagFits(m, 0);
    if e == PowerRun { LeavingIsTaken(m, t); }
    if Chosen(m, t).Some? {
      ChosenIsGranted(m, t);
      GuardFacts(m.data, e);
    }
  }

  /** An explicit hibernation that arrives while issuing-low-power is busy is dropped, not queued for later. */
  lemma ExplicitCommandsAreDroppedWhileIssuing(m: Machine, t: Turn)
    requires m.state == IssuingLowPower && m.queue != [] && m.queue[0].ExplicitHibernate?
    ensures TakeTurn(m, t) == m.(queue := m.queue[1..])
  {
    if Chosen(m, t).Some? { ChosenIsGranted(m, t); }
  }

  /**
   A vehicle report that starts a low-power sequence keeps the target, except that
   leaving stand-by for shutting-down with a reboot pending resets it to the default.
   */
  lemma NaturalEntryKeepsTarget(m: Machine, t: Turn)
    requires m.state == Running && m.queue != [] && m.queue[0].VehicleStateChanged?
    requires Chosen(m, t).Some? && Chosen(m, t).value.to != Running
    ensures TakeTurn(m, t).data.target ==
      if m.data.target == Reboot && m.data.vehicle == StandBy && m.queue[0].vehicle == ShuttingDown then m.default_
      else m.data.target
  {
    hide Rows, Enter, Held;
    var e := m.queue[0];
    ChosenIsGranted(m, t);
    var row := Chosen(m, t).value;
    TableShape(Running, e, row);
    CanEnterFacts(m.data, e);
    var i := ActInput(t.actLive, m.default_, t.requestId, t.published, t.handedOn);
    EntryKeepsIntent(row.to, Act(row.action, m.data, e, i).data, e, m.visit + 1, m.dryRun, t.entryLive, t.issueInput);
  }
}
