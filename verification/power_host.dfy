/**
 The state machine around the service object: it takes events off the queue, tries the
 rows in order and runs the service's actions and entry actions. It is proved to follow
 `PowerMachine.TakeTurn` and `PowerInvariant.Apply`, so what is proved of runs holds of
 these objects.
 */
module PowerHost {
  import opened Options
  import opened PowerTypes
  import opened Inhibitors
  import opened PowerPolicy
  import opened PowerTable
  import opened PowerMachine
  import opened PowerInvariant
  import opened PowerRuns
  import opened PowerService

  class StateMachine {
    const service: Service
    var state: State
    var visit: nat
    var issue: PowerMachine.Issue
    var queue: seq<Event>
    var default_: Target
    const dryRun: bool

    function View(): Machine
      reads this, service
    {
      Machine(state, visit, service.View(), issue, queue, default_, dryRun, service.calls)
    }

    constructor (initialDefault: Target, reported: Vehicle, dry: bool)
      ensures fresh(service)
      ensures View() == Machine(Running, 0, Data(None, initialDefault, reported, false, false, false, 0, false, None, false, 0),
                                NotIssuing, [], initialDefault, dry, [])
    {
      service := new Service(initialDefault, reported);
      state, visit, issue, queue, default_, dryRun := Running, 0, NotIssuing, [], initialDefault, dry;
    }

    /** The rows in declaration order, up to the first that is enabled. */
    method FirstEnabled(e: Event, read: Readings) returns (row: Option<Row>)
      ensures var rows := Rows(state, e); var c := Choose(rows, 0, service.View(), e, read);
        row == if c.None? then None else Some(rows[c.value])
    {
      var rows := Rows(state, e);
      for k := 0 to |rows|
        invariant Choose(rows, 0, service.View(), e, read) == Choose(rows, k, service.View(), e, read)
      {
        if Enabled(rows, k, service.View(), e, read) { return Some(rows[k]); }
      }
      return None;
    }

    /** Acts, enters the row's target state, and queues what both have sent. */
    method FollowRow(row: Row, t: Turn)
      requires queue != []
      modifies this, service
      ensures View() == Follow(old(View()), row, t)
    {
      hide Act, Enter;
      var e := queue[0];
      var i := ActInput(t.actLive, default_, t.requestId, t.published, t.handedOn);
      ghost var a := Act(row.action, service.View(), e, i);
      service.sent := [];
      service.Perform(row.action, e, i);
      assert service.View() == a.data && service.sent == a.sends;
      queue := queue[1..] + service.sent + t.arrivals;
      ghost var n := Enter(row.to, a.data, e, visit + 1, dryRun, t.entryLive, t.issueInput);
      service.sent := [];
      state, visit := row.to, visit + 1;
      issue := service.EnterState(state, e, visit, dryRun, t.entryLive, t.issueInput);
      assert service.View() == n.data && service.sent == n.sends && issue == n.issue;
      queue := queue + service.sent;
    }

    method TakeTurn(t: Turn)
      modifies this, service
      ensures View() == PowerMachine.TakeTurn(old(View()), t)
    {
      hide Rows, Choose, Follow, TimerVisit;
      if queue == [] { return; }
      var e := queue[0];
      var timer := TimerVisit(e);
      var row := None;
      if timer.None? || timer.value == visit { row := FirstEnabled(e, t.read); }
      if row.None? {
        queue := queue[1..];
      } else {
        FollowRow(row.value, t);
      }
    }

    method Do(x: Input)
      modifies this, service
      ensures View() == Apply(old(View()), x)
    {
      match x {
        case Queue(e) => queue := queue + [e];
        case SetDefault(t) => default_ := t;
        case Proceed(t) => TakeTurn(t);
      }
    }

    /** Everything proved of the machine's runs is proved of this loop; from the start, so is the safety of every command. */
    method Run(xs: seq<Input>)
      requires Legal(View(), xs)
      modifies this, service
      ensures View() == After(old(View()), xs)
      ensures Initial(old(View())) ==> forall c | c in service.calls :: CallSafe(c)
    {
      ghost var m := View();
      for k := 0 to |xs|
        invariant After(m, xs) == After(View(), xs[k..]) && Legal(View(), xs[k..])
      {
        assert xs[k..][0] == xs[k] && xs[k..][1..] == xs[k + 1..];
        Do(xs[k]);
      }
      if Initial(m) {
        StartIsSound(m);
        RunIsSound(m, xs);
      }
    }
  }
}
