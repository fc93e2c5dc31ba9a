/** That `run` gets on: every task has its turn and is tried again, and the join can always be completed. */
module GracefulProgress {
  import opened Net
  import opened Supervisor
  import opened Tasks
  import L = ShutdownLatch
  import opened GracefulStop

  // ---- everyone gets a turn ----

  /** After `states[i]` and up to `states[j]` the future at `m` was polled. */
  ghost predicate HadTurn(states: seq<State>, i: nat, j: nat, m: nat) {
    exists k :: i < k <= j < |states| && states[k].phase == Sweeping(m)
  }

  lemma {:induction false} TurnsSoFar(states: seq<State>, events: seq<Event>, c: Config, tasks: seq<TaskSetting>,
                                      removal: Removal, i: nat, j: nat)
    requires Execution(states, events, c, tasks, removal) && i <= j < |states|
    requires states[i].phase.Suspended? && Supervising(states[j])
    ensures states[j].phase.Sweeping? ==> forall m: nat :: m <= states[j].phase.i ==> HadTurn(states, i, j, m)
    ensures states[j].phase.Suspended? ==>
              || (forall k :: i <= k <= j ==> states[k].phase.Suspended?)
              || (forall m: nat :: m <= |tasks| ==> HadTurn(states, i, j, m))
  {
    if i < j {
      NeverBack(states, events, c, tasks, removal, j - 1);
      TurnsSoFar(states, events, c, tasks, removal, i, j - 1);
      AlwaysInv(states, events, c, tasks, removal, j - 1);
      assert Follows(states, events, c, tasks, removal, j - 1);
      forall m | HadTurn(states, i, j - 1, m)
        ensures HadTurn(states, i, j, m)
      {
        var k :| i < k <= j - 1 < |states| && states[k].phase == Sweeping(m);
      }
      if states[j].phase.Sweeping? {
        assert HadTurn(states, i, j, states[j].phase.i);
      }
    }
  }

  /** A poll of `run` that ends pending has polled the future at every index, in every run. */
  lemma EveryoneHasATurn(states: seq<State>, events: seq<Event>, c: Config, tasks: seq<TaskSetting>, removal: Removal,
                         i: nat, k: nat, j: nat, m: nat)
    requires Execution(states, events, c, tasks, removal) && i < k < j < |states|
    requires states[i].phase.Suspended? && !states[k].phase.Suspended? && states[j].phase.Suspended?
    requires m <= |tasks|
    ensures exists l :: i < l < j && states[l].phase == Sweeping(m)
  {
    TurnsSoFar(states, events, c, tasks, removal, i, j);
    assert HadTurn(states, i, j, m);
  }

  /** Carrying out `events` from `s` leads to `s'`. */
  ghost predicate Leads(s: State, events: seq<Event>, s': State, c: Config, tasks: seq<TaskSetting>, removal: Removal)
    decreases |events|
  {
    if events == [] then s == s'
    else Enabled(s, events[0]) && Leads(Apply(s, events[0], c, tasks, removal), events[1..], s', c, tasks, removal)
  }

  lemma {:induction false} LeadsJoin(s: State, a: seq<Event>, m: State, b: seq<Event>, s': State, c: Config,
                                     tasks: seq<TaskSetting>, removal: Removal)
    requires Leads(s, a, m, c, tasks, removal) && Leads(m, b, s', c, tasks, removal)
    ensures Leads(s, a + b, s', c, tasks, removal)
    decreases |a|
  {
    if a == [] {
      assert a + b == b;
    } else {
      LeadsJoin(Apply(s, a[0], c, tasks, removal), a[1..], m, b, s', c, tasks, removal);
      assert (a + b)[1..] == a[1..] + b;
    }
  }

  lemma LeadsOne(s: State, e: Event, c: Config, tasks: seq<TaskSetting>, removal: Removal)
    requires Enabled(s, e)
    ensures Leads(s, [e], Apply(s, e, c, tasks, removal), c, tasks, removal)
  {
    assert Leads(Apply(s, e, c, tasks, removal), [e][1..], Apply(s, e, c, tasks, removal), c, tasks, removal);
  }

  ghost predicate AllBuilt(c: Config, tasks: seq<TaskSetting>) {
    forall k :: 0 <= k < |tasks| ==> CreateTask(c, tasks[k]).Built?
  }

  /** `run` supervises and no shutdown was asked for. */
  ghost predicate Running(s: State, n: nat) {
    Inv(s, n) && Supervising(s) && !s.latch.flag
  }

  lemma RunningStep(s: State, e: Event, c: Config, tasks: seq<TaskSetting>, removal: Removal)
    requires Running(s, |tasks|) && AllBuilt(c, tasks) && Enabled(s, e) && !e.Latch? && !e.Panic?
    ensures Running(Apply(s, e, c, tasks, removal), |tasks|)
  {
    LatchKept(s, e, c, tasks, removal);
    AwaitingStep(s, e, c, tasks, removal);
    SupervisedStep(s, e, c, tasks, removal);
  }

  /** The future being polled has failed and is about to be replaced. */
  predicate Replacing(s: State) {
    Polling(s) && Polled(s).pc == Failed
  }

  /** The event that takes the sweep on: a future is polled until it is pending, or replaced. */
  function SweepEvent(s: State): Event {
    if !Polling(s) then Resume
    else match Polled(s).pc
      case Head => Open
      case Selecting(r) =>
        if r < |s.latch.receivers| && s.latch.receivers[r] == L.Subscribed(false) then Pend else PollReceive
      case Mid => Pend
      case _ => Report
  }

  /** How far the polled future is from being pending. */
  function PollsLeft(s: State): nat {
    if !Polling(s) then 0
    else match Polled(s).pc
      case Head => 3
      case Selecting(_) => if SweepEvent(s) == Pend then 1 else 2
      case _ => 1
  }

  /** How far the sweep is from index `k`, in futures to poll and polls of the current one. */
  function SweepLeft(s: State, k: nat): int {
    if s.phase.Sweeping? then
      if s.phase.i == k then 0
      else 4 * (if s.phase.i < k then k - s.phase.i else |s.slots| - s.phase.i + k + 1) + PollsLeft(s)
    else 4 * (k + 1)
  }

  /** The same futures are inside `run_task`. */
  ghost predicate SameWork(slots: seq<Slot>, slots': seq<Slot>) {
    |slots'| == |slots| && forall i :: 0 <= i < |slots| ==> (slots'[i].pc == Mid <==> slots[i].pc == Mid)
  }

  /** One step of the sweep, without a replacement. */
  lemma SweepOn(s: State, k: nat, c: Config, tasks: seq<TaskSetting>, removal: Removal)
    requires Running(s, |tasks|) && AllBuilt(c, tasks) && k <= |tasks| && !Replacing(s) && s.phase != Sweeping(k)
    ensures Enabled(s, SweepEvent(s)) && !SweepEvent(s).Panic? && !SweepEvent(s).Latch?
    ensures var s' := Apply(s, SweepEvent(s), c, tasks, removal);
            && !Replacing(s') && 0 <= SweepLeft(s', k) < SweepLeft(s, k)
            && s'.ledger == s.ledger && Handles(s'.slots) == Handles(s.slots)
            && SameWork(s.slots, s'.slots)
  {
  }

  /** The sweep comes to every index, however far off; nobody is replaced on the way. */
  lemma {:induction false} ComesTo(s: State, k: nat, c: Config, tasks: seq<TaskSetting>, removal: Removal)
    returns (events: seq<Event>, s': State)
    requires Running(s, |tasks|) && AllBuilt(c, tasks) && k <= |tasks| && !Replacing(s)
    ensures Leads(s, events, s', c, tasks, removal) && Running(s', |tasks|)
    ensures s'.phase == Sweeping(k) && !Replacing(s') && s'.ledger == s.ledger
    ensures Handles(s'.slots) == Handles(s.slots) && SameWork(s.slots, s'.slots)
    decreases SweepLeft(s, k) + 1
  {
    if s.phase == Sweeping(k) {
      events, s' := [], s;
    } else {
      var e := SweepEvent(s);
      SweepOn(s, k, c, tasks, removal);
      RunningStep(s, e, c, tasks, removal);
      LeadsOne(s, e, c, tasks, removal);
      var more;
      more, s' := ComesTo(Apply(s, e, c, tasks, removal), k, c, tasks, removal);
      LeadsJoin(s, [e], Apply(s, e, c, tasks, removal), more, s', c, tasks, removal);
      events := [e] + more;
    }
  }

  /** A task future that is polled begins a `run_task` if its timer is ready, unless it is inside one. */
  lemma Begins(s: State, c: Config, tasks: seq<TaskSetting>, removal: Removal) returns (events: seq<Event>, s': State)
    requires Running(s, |tasks|) && AllBuilt(c, tasks)
    requires s.phase.Sweeping? && 1 <= s.phase.i <= |tasks| && !Replacing(s)
    ensures Leads(s, events, s', c, tasks, removal) && Running(s', |tasks|)
    ensures s'.phase == s.phase && Polled(s') == Polled(s).(pc := Mid)
    ensures s'.ledger == s.ledger.(begun := s.ledger.begun + One(Polled(s).pc != Mid))
  {
    events, s' := [], s;
    if Polled(s).pc == Head {
      RunningStep(s, Open, c, tasks, removal);
      LeadsOne(s, Open, c, tasks, removal);
      events, s' := [Open], Apply(s, Open, c, tasks, removal);
    }
    if Polled(s').pc != Mid {
      var t := Apply(s', Tick, c, tasks, removal);
      RunningStep(s', Tick, c, tasks, removal);
      LeadsOne(s', Tick, c, tasks, removal);
      LeadsJoin(s, events, s', [Tick], t, c, tasks, removal);
      events, s' := events + [Tick], t;
    }
  }

  /** The replacement of a failed future, and the sweep from the start. */
  lemma Replace(s: State, c: Config, tasks: seq<TaskSetting>, removal: Removal) returns (s': State)
    requires Running(s, |tasks|) && AllBuilt(c, tasks) && Replacing(s)
    ensures Enabled(s, Report) && s' == Apply(s, Report, c, tasks, removal)
    ensures Running(s', |tasks|) && s'.phase == Sweeping(0) && !Replacing(s')
    ensures s.phase.i < |s'.slots| && s'.slots[s.phase.i] == Slot(TaskHandle(s.phase.i - 1), Head)
    ensures s'.ledger == s.ledger.(restarts := s.ledger.restarts + 1)
  {
    s' := Apply(s, Report, c, tasks, removal);
    RunningStep(s, Report, c, tasks, removal);
  }

  /**
   Every task gets to work: from every state of the supervision, as long as no shutdown was asked for, the
   future at any task's index can be brought inside a `run_task`.
   */
  lemma EveryTaskCanRun(states: seq<State>, events: seq<Event>, c: Config, tasks: seq<TaskSetting>, removal: Removal,
                        i: nat, k: nat)
    returns (more: seq<Event>, s': State)
    requires Execution(states, events, c, tasks, removal) && i < |states|
    requires Supervising(states[i]) && !states[i].latch.flag && 1 <= k <= |tasks|
    ensures Leads(states[i], more, s', c, tasks, removal) && Running(s', |tasks|)
    ensures s'.phase == Sweeping(k) && s'.slots[k].pc == Mid
  {
    AlwaysInv(states, events, c, tasks, removal, i);
    var s := states[i];
    more := [];
    if Replacing(s) {
      LeadsOne(s, Report, c, tasks, removal);
      s := Replace(s, c, tasks, removal);
      more := [Report];
    }
    var way, m := ComesTo(s, k, c, tasks, removal);
    LeadsJoin(states[i], more, s, way, m, c, tasks, removal);
    var start;
    start, s' := Begins(m, c, tasks, removal);
    LeadsJoin(states[i], more + way, m, start, s', c, tasks, removal);
    more := more + way + start;
  }

  /** A new future at index `k` begins its first `run_task`. */
  lemma FirstRun(s: State, k: nat, c: Config, tasks: seq<TaskSetting>, removal: Removal)
    returns (events: seq<Event>, s': State)
    requires Running(s, |tasks|) && AllBuilt(c, tasks) && 1 <= k <= |tasks| && !Replacing(s)
    requires s.slots[k] == Slot(TaskHandle(k - 1), Head)
    ensures Leads(s, events, s', c, tasks, removal) && Running(s', |tasks|)
    ensures s'.phase == Sweeping(k) && s'.slots[k] == Slot(TaskHandle(k - 1), Mid)
    ensures s'.ledger == s.ledger.(begun := s.ledger.begun + 1)
  {
    var way, m := ComesTo(s, k, c, tasks, removal);
    assert Handles(m.slots)[k] == Handles(s.slots)[k];
    var start;
    start, s' := Begins(m, c, tasks, removal);
    LeadsJoin(s, way, m, start, s', c, tasks, removal);
    events := way + start;
  }

  /** A `run_task` fails and its future is replaced, in the same poll of `run`. */
  lemma FailAndReplace(s: State, c: Config, tasks: seq<TaskSetting>, removal: Removal) returns (s': State)
    requires Running(s, |tasks|) && AllBuilt(c, tasks) && s.phase.Sweeping? && Polled(s).pc == Mid
    ensures s.phase.i >= 1 && Leads(s, [Fail, Report], s', c, tasks, removal)
    ensures Running(s', |tasks|) && !Replacing(s') && s'.slots[s.phase.i] == Slot(TaskHandle(s.phase.i - 1), Head)
    ensures var l := s.ledger; s'.ledger == l.(failed := l.failed + 1, restarts := l.restarts + 1)
  {
    RunningStep(s, Fail, c, tasks, removal);
    LeadsOne(s, Fail, c, tasks, removal);
    var a := Apply(s, Fail, c, tasks, removal);
    s' := Replace(a, c, tasks, removal);
    LeadsOne(a, Report, c, tasks, removal);
    LeadsJoin(s, [Fail], a, [Report], s', c, tasks, removal);
    assert [Fail] + [Report] == [Fail, Report];
  }

  /**
   A failed task is tried again: when the `run_task` of the polled future fails, a new future of the task that
   belongs to its index takes its place, and that one can begin a `run_task` in its turn.
   */
  lemma FailedTaskRunsAgain(s: State, c: Config, tasks: seq<TaskSetting>, removal: Removal)
    returns (events: seq<Event>, s': State)
    requires Running(s, |tasks|) && AllBuilt(c, tasks) && s.phase.Sweeping? && Polled(s).pc == Mid
    ensures events != [] && events[0] == Fail && Leads(s, events, s', c, tasks, removal) && Running(s', |tasks|)
    ensures s.phase.i >= 1 && s'.phase == s.phase && Polled(s') == Slot(TaskHandle(s.phase.i - 1), Mid)
    ensures var l := s.ledger;
            s'.ledger == l.(begun := l.begun + 1, failed := l.failed + 1, restarts := l.restarts + 1)
  {
    var m := FailAndReplace(s, c, tasks, removal);
    var more;
    more, s' := FirstRun(m, s.phase.i, c, tasks, removal);
    LeadsJoin(s, [Fail, Report], m, more, s', c, tasks, removal);
    events := [Fail, Report] + more;
  }

  // ---- the join can always be completed ----

  /** What a future still needs to end. */
  function Need(pc: Pc): nat {
    match pc
    case Mid => 3
    case Head => 2
    case Selecting(_) => 1
    case _ => 0
  }

  function TotalNeed(slots: seq<Slot>): nat {
    if slots == [] then 0 else Need(slots[0].pc) + TotalNeed(slots[1..])
  }

  lemma {:induction false} NeedAfter(slots: seq<Slot>, i: nat, pc: Pc)
    requires i < |slots|
    ensures TotalNeed(slots[i := slots[i].(pc := pc)]) + Need(slots[i].pc) == TotalNeed(slots) + Need(pc)
  {
    var next := slots[i := slots[i].(pc := pc)];
    if i == 0 {
      assert next[1..] == slots[1..];
    } else {
      NeedAfter(slots[1..], i - 1, pc);
      assert next[1..] == slots[1..][i - 1 := slots[1..][i - 1].(pc := pc)];
    }
  }

  /** The steps to the end of the join: three for each need, and where `join_all` stands. */
  function JoinLeft(s: State): nat {
    3 * TotalNeed(s.slots) +
    match s.phase
    case Joining => 1
    case Visiting(i) => if i < |s.slots| && Ended(s.slots[i].pc) then 2 else 0
    case _ => 0
  }

  /** While joining a future at its `select!` is never pending, and all but a few events bring the end closer. */
  lemma JoinCost(s: State, e: Event, n: nat, c: Config, tasks: seq<TaskSetting>, removal: Removal)
    requires Inv(s, n) && (s.phase.Joining? || s.phase.Visiting?) && Enabled(s, e)
    ensures var s' := Apply(s, e, c, tasks, removal);
            match e
            case Tick => true
            case Panic => Polled(s).pc.Mid? && s'.phase.Crashed?
            case Pend => Polled(s).pc.Mid? && s'.slots == s.slots
            case Latch(_) => JoinLeft(s') == JoinLeft(s)
            case _ => JoinLeft(s') < JoinLeft(s)
  {
    if e.Open? || e.PollReceive? || e.Pass? || e.Fail? {
      NeedAfter(s.slots, s.phase.i, Apply(s, e, c, tasks, removal).slots[s.phase.i].pc);
    }
  }

  /** From every state of the join `run` can come to its end, in at most `JoinLeft` steps. */
  lemma {:induction false} JoinCanFinish(s: State, c: Config, tasks: seq<TaskSetting>, removal: Removal)
    returns (events: seq<Event>, end: State)
    requires Inv(s, |tasks|) && (s.phase.Joining? || s.phase.Visiting?)
    ensures Leads(s, events, end, c, tasks, removal) && |events| <= JoinLeft(s) && end.phase.Returned?
    decreases JoinLeft(s)
  {
    var e := Return;
    if s.phase.Visiting? {
      e := PollEvent(Polled(s).pc);
    } else if k :| 0 <= k < |s.slots| && !Ended(s.slots[k].pc) {
      e := Visit(k);
    }
    var s' := Apply(s, e, c, tasks, removal);
    LeadsOne(s, e, c, tasks, removal);
    if e == Return {
      events, end := [Return], s';
    } else {
      JoinCost(s, e, |tasks|, c, tasks, removal);
      LatchKept(s, e, c, tasks, removal);
      AwaitingStep(s, e, c, tasks, removal);
      var rest;
      rest, end := JoinCanFinish(s', c, tasks, removal);
      LeadsJoin(s, [e], s', rest, end, c, tasks, removal);
      events := [e] + rest;
    }
  }
}
