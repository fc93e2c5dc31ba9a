/**
 `run` as a state machine over the polls of its futures: `select_all` polls them in index order until one is
 ready, a task future that ended is replaced and the sweep starts over in the same poll, and index 0 leads to
 `join_all`. Every `receive` a future awaits is an entry of the shutdown latch; `shutdown()` is the other half
 of the `join!` that polls `run`, so its polls fall between those of `run`. All other users of the latch run
 in parallel and take steps of their own at any time.
 */
module GracefulStop {
  import opened Net
  import opened Supervisor
  import opened Tasks
  import L = ShutdownLatch

  // ---- the states of a run ----

  /** Where a future is; the one at index 0 only ever awaits its `receive`. */
  datatype Pc =
    | Head                       // before its next call of `receive`; a new future starts here
    | Selecting(receiver: nat)   // awaiting this `receive`, a task also its timer
    | Mid                        // inside `run_task`
    | Broke                      // over: its `receive` returned
    | Failed                     // over: its `run_task` failed

  datatype Slot = Slot(handle: Handle, pc: Pc)

  datatype Phase =
    | Suspended          // supervising, between two polls of `run`
    | Sweeping(i: nat)   // `select_all` polls the future at `i`
    | Joining            // in `join_all`, no future is being polled
    | Visiting(i: nat)   // `join_all` polls the future at `i`
    | Returned
    | Aborted
    | Crashed            // a `run_task` panicked, and all futures went down with `run`

  /** What happened to the calls of `run_task`; no step reads it. */
  datatype Ledger = Ledger(begun: nat, passed: nat, failed: nat, cut: nat, restarts: nat)

  datatype State = State(phase: Phase, slots: seq<Slot>, latch: L.State, ledger: Ledger)

  predicate Ended(pc: Pc) {
    pc == Broke || pc == Failed
  }

  predicate Supervising(s: State) {
    s.phase.Suspended? || s.phase.Sweeping?
  }

  /** A future is being polled. */
  predicate Polling(s: State) {
    (s.phase.Sweeping? || s.phase.Visiting?) && s.phase.i < |s.slots|
  }

  function Polled(s: State): Slot
    requires Polling(s)
  {
    s.slots[s.phase.i]
  }

  function Handles(slots: seq<Slot>): (hs: seq<Handle>)
    ensures |hs| == |slots|
    ensures forall k :: 0 <= k < |slots| ==> hs[k] == slots[k].handle
  {
    Map(slots, (slot: Slot) => slot.handle)
  }

  /** All futures as `run` starts to supervise them; the latch is as an earlier run may have left it. */
  function Started(n: nat, latch: L.State): (s: State)
    ensures |s.slots| == n + 1 && Handles(s.slots) == Aligned(n)
    ensures forall k :: 0 <= k <= n ==> s.slots[k] == Slot(Aligned(n)[k], Head)
  {
    State(Suspended, seq(n + 1, k requires 0 <= k <= n => Slot(Aligned(n)[k], Head)), latch, Ledger(0, 0, 0, 0, 0))
  }

  datatype Event =
    | Resume              // `run` is polled
    | Open                // the polled future calls `receive`
    | PollReceive         // and polls it
    | Tick                // the timer branch of its `select!` wins, the `receive` is dropped
    | Pass                // its `run_task` succeeds
    | Fail                // its `run_task` fails, and with it the future
    | Panic               // its `run_task` panics, inside the poll of `run` itself
    | Pend                // it is pending
    | Report              // it is ready
    | Visit(i: nat)       // `join_all` polls the future at `i`
    | Return              // `join_all` is done
    | Latch(e: L.Event)   // `shutdown()` is polled, or a `receive` that is not in the vector

  /** Some future of the vector awaits this `receive`. */
  ghost predicate Owned(s: State, k: nat) {
    exists i :: 0 <= i < |s.slots| && s.slots[i].pc == Selecting(k)
  }

  predicate Pollable(l: L.State, k: nat) {
    k < |l.receivers| && (l.receivers[k].NotStarted? || l.receivers[k].Subscribed?)
  }

  ghost predicate Enabled(s: State, e: Event) {
    match e
    case Resume => s.phase.Suspended? && s.slots != []
    case Open => Polling(s) && Polled(s).pc.Head?
    case PollReceive => Polling(s) && Polled(s).pc.Selecting? && Pollable(s.latch, Polled(s).pc.receiver)
    case Tick =>
      && Polling(s) && Polled(s).handle.TaskHandle? && Polled(s).pc.Selecting?
      && Pollable(s.latch, Polled(s).pc.receiver)
    case Pass => Polling(s) && Polled(s).pc.Mid?
    case Fail => Polling(s) && Polled(s).pc.Mid?
    case Panic => Polling(s) && Polled(s).pc.Mid?
    case Pend =>
      Polling(s) &&
      match Polled(s).pc {
        case Mid => true
        case Selecting(k) => k < |s.latch.receivers| && s.latch.receivers[k] == L.Subscribed(false)
        case _ => false
      }
    case Report => Polling(s) && Ended(Polled(s).pc)
    case Visit(i) => s.phase.Joining? && i < |s.slots| && !Ended(s.slots[i].pc)
    case Return => s.phase.Joining? && forall k :: 0 <= k < |s.slots| ==> Ended(s.slots[k].pc)
    case Latch(e) =>
      && L.Enabled(s.latch, e)
      && match e {
           case Spawn => true
           case Call => !Polling(s)
           case Wake => !Polling(s)
           case Enter(k) => !Owned(s, k)
           case Deliver(k) => !Owned(s, k)
           case Cancel(k) => !Owned(s, k)
         }
  }

  /** The vector after the future at `i` ended and `tasks[i - 1]` was created anew. */
  function RestartedSlots(slots: seq<Slot>, i: nat, removal: Removal): seq<Slot>
    requires 1 <= i < |slots|
  {
    Replaced(slots, i, Slot(TaskHandle(i - 1), Head), removal)
  }

  function SetPc(s: State, pc: Pc): State
    requires Polling(s)
  {
    s.(slots := s.slots[s.phase.i := Polled(s).(pc := pc)])
  }

  /** One poll of a `receive`: what it does to the latch. */
  function Received(l: L.State, k: nat): L.State
    requires Pollable(l, k)
  {
    match l.receivers[k]
    case NotStarted => L.Apply(l, L.Enter(k))
    case Subscribed(delivered) => if delivered then L.Apply(l, L.Deliver(k)) else l
  }

  /** `c` and `tasks` are what `create_task` has captured; both stay the same for the whole run. */
  function Apply(s: State, e: Event, c: Config, tasks: seq<TaskSetting>, removal: Removal): State
    requires Enabled(s, e)
  {
    match e
    case Resume => s.(phase := Sweeping(0))
    case Open => SetPc(s, Selecting(|s.latch.receivers|)).(latch := L.Apply(s.latch, L.Spawn))
    case PollReceive =>
      var k := Polled(s).pc.receiver;
      var l := Received(s.latch, k);
      SetPc(s, if l.receivers[k].Finished? then Broke else Selecting(k)).(latch := l)
    case Tick =>
      SetPc(s, Mid).(latch := L.Apply(s.latch, L.Cancel(Polled(s).pc.receiver)),
                     ledger := s.ledger.(begun := s.ledger.begun + 1))
    case Pass => SetPc(s, Head).(ledger := s.ledger.(passed := s.ledger.passed + 1))
    case Fail => SetPc(s, Failed).(ledger := s.ledger.(failed := s.ledger.failed + 1))
    case Panic =>
      s.(phase := Crashed, slots := [], ledger := s.ledger.(cut := s.ledger.cut + PcCount(s.slots, Mid)))
    case Pend =>
      s.(phase := if s.phase.Visiting? then Joining
                  else if s.phase.i + 1 < |s.slots| then Sweeping(s.phase.i + 1)
                  else Suspended)
    case Report =>
      if s.phase.Visiting? then s.(phase := Joining)
      else if s.phase.i == 0 then s.(phase := Joining, slots := Without(s.slots, 0, removal))
      else if s.phase.i - 1 < |tasks| && CreateTask(c, tasks[s.phase.i - 1]).Built?
      then s.(phase := Sweeping(0), slots := RestartedSlots(s.slots, s.phase.i, removal),
              ledger := s.ledger.(restarts := s.ledger.restarts + 1))
      else s.(phase := Aborted)
    case Visit(i) => s.(phase := Visiting(i))
    case Return => s.(phase := Returned)
    case Latch(e) => s.(latch := L.Apply(s.latch, e))
  }

  /** Some run of the latch ends in this state. */
  ghost predicate Latched(l: L.State) {
    exists states, events :: L.Execution(states, events) && Last(states) == l
  }

  ghost predicate Execution(states: seq<State>, events: seq<Event>, c: Config, tasks: seq<TaskSetting>,
                            removal: Removal)
  {
    && |states| == |events| + 1
    && (forall k :: 0 <= k < |tasks| ==> CreateTask(c, tasks[k]).Built?)
    && Latched(states[0].latch) && states[0] == Started(|tasks|, states[0].latch)
    && forall i :: 0 <= i < |events| ==> Follows(states, events, c, tasks, removal, i)
  }

  ghost predicate Follows(states: seq<State>, events: seq<Event>, c: Config, tasks: seq<TaskSetting>,
                          removal: Removal, i: nat)
    requires i < |events| && i + 1 < |states|
  {
    Enabled(states[i], events[i]) && states[i + 1] == Apply(states[i], events[i], c, tasks, removal)
  }

  /** `run` up to the supervisor loop: the first task that cannot be created ends it. */
  method BuildTasks(c: Config, tasks: seq<TaskSetting>, latch: L.State) returns (r: Option<State>)
    ensures r.Some? <==> forall k :: 0 <= k < |tasks| ==> CreateTask(c, tasks[k]).Built?
    ensures r.Some? ==> r.value == Started(|tasks|, latch)
  {
    var slots := [Slot(ShutdownHandle, Head)];
    for i := 0 to |tasks|
      invariant forall k :: 0 <= k < i ==> CreateTask(c, tasks[k]).Built?
      invariant |slots| == i + 1 && slots[0] == Slot(ShutdownHandle, Head)
      invariant forall k :: 1 <= k <= i ==> slots[k] == Slot(TaskHandle(k - 1), Head)
    {
      if !CreateTask(c, tasks[i]).Built? {
        return None;
      }
      slots := slots + [Slot(TaskHandle(i), Head)];
    }
    assert slots == Started(|tasks|, latch).slots;
    r := Some(State(Suspended, slots, latch, Ledger(0, 0, 0, 0, 0)));
  }

  /** The handles follow the vector. */
  lemma HandlesMoved(slots: seq<Slot>, i: nat, removal: Removal)
    requires i < |slots|
    ensures Handles(Without(slots, i, removal)) == Without(Handles(slots), i, removal)
    ensures i > 0 ==> Handles(RestartedSlots(slots, i, removal)) == Restarted(Handles(slots), i, removal)
  {
  }

  // ---- the latch inside a run ----

  /** Whatever a run does to the latch are steps of the latch, so its safety law holds inside every run. */
  lemma LatchKept(s: State, e: Event, c: Config, tasks: seq<TaskSetting>, removal: Removal)
    requires L.Safe(s.latch) && Enabled(s, e)
    ensures L.Safe(Apply(s, e, c, tasks, removal).latch)
  {
    match e
    case Open => L.SafeStep(s.latch, L.Spawn);
    case PollReceive =>
      var k := Polled(s).pc.receiver;
      match s.latch.receivers[k] {
        case NotStarted => L.SafeStep(s.latch, L.Enter(k));
        case Subscribed(delivered) =>
          if delivered {
            L.SafeStep(s.latch, L.Deliver(k));
          }
      }
    case Tick => L.SafeStep(s.latch, L.Cancel(Polled(s).pc.receiver));
    case Latch(e) => L.SafeStep(s.latch, e);
    case _ =>
  }

  lemma LatchIsSafe(l: L.State)
    requires Latched(l)
    ensures L.Safe(l)
  {
    var states, events :| L.Execution(states, events) && Last(states) == l;
    L.AlwaysSafe(states, events, |states| - 1);
  }

  // ---- what every run keeps ----

  /** Every awaited `receive` is still to return, and no two futures await the same one. */
  ghost predicate Awaiting(s: State) {
    && (forall i :: 0 <= i < |s.slots| && s.slots[i].pc.Selecting? ==> Pollable(s.latch, s.slots[i].pc.receiver))
    && (forall i, j :: 0 <= i < j < |s.slots| && s.slots[i].pc.Selecting? ==> s.slots[i].pc != s.slots[j].pc)
  }

  /** Only the future being polled can have ended, a task's only by failing; the flag stops the sweep at index 0. */
  ghost predicate Supervised(s: State, n: nat) {
    && Shaped(n, Handles(s.slots))
    && (s.phase.Sweeping? ==> s.phase.i <= n)
    && (forall i :: 0 <= i <= n && Ended(s.slots[i].pc) ==> s.phase == Sweeping(i))
    && (forall i :: 1 <= i <= n ==> !s.slots[i].pc.Broke?)
    && !s.slots[0].pc.Mid? && !s.slots[0].pc.Failed? && (s.slots[0].pc.Broke? ==> s.latch.flag)
    && (s.latch.flag ==> s.phase == Suspended || s.phase == Sweeping(0))
  }

  ghost predicate Joined(s: State, n: nat) {
    && s.latch.flag && |s.slots| == n
    && (s.phase.Visiting? ==> s.phase.i < n)
    && (s.phase.Returned? ==> forall k :: 0 <= k < n ==> Ended(s.slots[k].pc))
    && forall k :: 0 <= k < n ==> s.slots[k].handle.TaskHandle? && s.slots[k].handle.task < n
  }

  ghost predicate InPhase(s: State, n: nat) {
    && !s.phase.Aborted?
    && if Supervising(s) then Supervised(s, n) else if s.phase.Crashed? then s.slots == [] else Joined(s, n)
  }

  ghost predicate Inv(s: State, n: nat) {
    L.Safe(s.latch) && Awaiting(s) && InPhase(s, n)
  }

  lemma {:induction false} AlwaysInv(states: seq<State>, events: seq<Event>, c: Config, tasks: seq<TaskSetting>,
                                     removal: Removal, i: nat)
    requires Execution(states, events, c, tasks, removal) && i < |states|
    ensures Inv(states[i], |tasks|)
  {
    if i == 0 {
      LatchIsSafe(states[0].latch);
      assert Shaped(|tasks|, Aligned(|tasks|));
    } else {
      AlwaysInv(states, events, c, tasks, removal, i - 1);
      assert Follows(states, events, c, tasks, removal, i - 1);
      var s, e := states[i - 1], events[i - 1];
      LatchKept(s, e, c, tasks, removal);
      AwaitingStep(s, e, c, tasks, removal);
      if Supervising(s) {
        SupervisedStep(s, e, c, tasks, removal);
      }
    }
  }

  /** The early exit of the supervisor loop cannot happen: a task that was built can always be built again. */
  lemma NeverAborts(states: seq<State>, events: seq<Event>, c: Config, tasks: seq<TaskSetting>, removal: Removal,
                    i: nat)
    requires Execution(states, events, c, tasks, removal) && i < |states|
    ensures states[i].phase != Aborted
  {
    AlwaysInv(states, events, c, tasks, removal, i);
  }

  /** Until the flag is set no future ends by its `receive`, so a task is replaced only because it failed. */
  lemma ReplacedOnlyAfterFailure(states: seq<State>, events: seq<Event>, c: Config, tasks: seq<TaskSetting>,
                                 removal: Removal, i: nat)
    requires Execution(states, events, c, tasks, removal) && i < |events|
    requires states[i + 1].ledger.restarts != states[i].ledger.restarts
    ensures !states[i].latch.flag && Polling(states[i]) && states[i].phase.i > 0
    ensures Polled(states[i]).pc == Failed && states[i + 1].phase == Sweeping(0)
  {
    AlwaysInv(states, events, c, tasks, removal, i);
    assert Follows(states, events, c, tasks, removal, i);
  }

  // ---- the first sweep after the flag ----

  /** What can happen to a polled future that is not pending. */
  function PollEvent(pc: Pc): Event {
    match pc
    case Head => Open
    case Selecting(_) => PollReceive
    case Mid => Pass
    case _ => Report
  }

  /** The steps `run` has left until it joins, once the flag is set. */
  function Distance(s: State): nat {
    if !Supervising(s) || s.slots == [] then 0
    else if s.phase.Suspended? then 4
    else match s.slots[0].pc case Head => 3 case Selecting(_) => 2 case _ => 1
  }

  /** Before it joins: only index 0 is polled, it is never pending, and it gets one step closer each time. */
  lemma SweepStep(s: State, e: Event, n: nat, c: Config, tasks: seq<TaskSetting>, removal: Removal)
    requires Inv(s, n) && Supervising(s) && s.latch.flag && Enabled(s, e)
    ensures var s' := Apply(s, e, c, tasks, removal);
            && s'.latch.flag && s'.ledger == s.ledger
            && (if e.Latch? then s'.slots == s.slots && Distance(s') == Distance(s) else Distance(s') < Distance(s))
            && (Supervising(s') ==> s'.slots[1..] == s.slots[1..])
            && (!Supervising(s') ==> s'.phase.Joining? && s'.slots == Without(s.slots, 0, removal))
  {
  }

  /** The events of `run` itself among some events. */
  function OwnEvents(events: seq<Event>): nat {
    if events == [] then 0 else OwnEvents(events[..|events| - 1]) + if Last(events).Latch? then 0 else 1
  }

  /**
   The shutdown is seen first, in every run: as long as the flag is set and `run` has not begun to join, no
   task future is polled, ended or replaced, and `run` takes at most four steps before it joins.
   */
  lemma {:induction false} ShutdownSeenFirst(states: seq<State>, events: seq<Event>, c: Config, tasks: seq<TaskSetting>,
                                             removal: Removal, i: nat, j: nat)
    requires Execution(states, events, c, tasks, removal) && i <= j < |states|
    requires states[i].latch.flag && Supervising(states[i]) && Supervising(states[j])
    ensures states[j].latch.flag && states[j].ledger == states[i].ledger
    ensures states[j].slots != [] && states[i].slots != [] && states[j].slots[1..] == states[i].slots[1..]
    ensures OwnEvents(events[i..j]) + Distance(states[j]) <= Distance(states[i]) <= 4
  {
    AlwaysInv(states, events, c, tasks, removal, j);
    if i < j {
      AlwaysInv(states, events, c, tasks, removal, j - 1);
      assert Follows(states, events, c, tasks, removal, j - 1);
      assert events[i..j][..j - i - 1] == events[i..j - 1];
      NeverBack(states, events, c, tasks, removal, j - 1);
      ShutdownSeenFirst(states, events, c, tasks, removal, i, j - 1);
      SweepStep(states[j - 1], events[j - 1], |tasks|, c, tasks, removal);
    }
  }

  lemma NeverBack(states: seq<State>, events: seq<Event>, c: Config, tasks: seq<TaskSetting>, removal: Removal, i: nat)
    requires Execution(states, events, c, tasks, removal) && i < |events|
    ensures Supervising(states[i + 1]) ==> Supervising(states[i])
  {
    AlwaysInv(states, events, c, tasks, removal, i);
    assert Follows(states, events, c, tasks, removal, i);
  }

  /** The step towards the join. */
  function NextStep(s: State): Event
    requires s.slots != []
  {
    if s.phase.Suspended? then Resume else PollEvent(s.slots[0].pc)
  }

  /**
   And each of these steps is forced: in every reachable state, between the flag and the join, `run` can do one
   thing only, so its `receive` at index 0 is never found pending and no other future gets its turn.
   */
  lemma SweepIsForced(states: seq<State>, events: seq<Event>, c: Config, tasks: seq<TaskSetting>, removal: Removal,
                      i: nat)
    requires Execution(states, events, c, tasks, removal) && i < |states|
    requires Supervising(states[i]) && states[i].latch.flag
    ensures states[i].slots != []
    ensures forall e: Event :: !e.Latch? ==> (Enabled(states[i], e) <==> e == NextStep(states[i]))
  {
    AlwaysInv(states, events, c, tasks, removal, i);
  }

  /** Once the flag is set it stays set and no task future is created any more. */
  lemma {:induction false} NoRestartAfterFlag(states: seq<State>, events: seq<Event>, c: Config,
                                              tasks: seq<TaskSetting>,
                                              removal: Removal, i: nat, j: nat)
    requires Execution(states, events, c, tasks, removal) && i <= j < |states| && states[i].latch.flag
    ensures states[j].latch.flag && states[j].ledger.restarts == states[i].ledger.restarts
  {
    if i < j {
      NoRestartAfterFlag(states, events, c, tasks, removal, i, j - 1);
      assert Follows(states, events, c, tasks, removal, j - 1);
      AlwaysInv(states, events, c, tasks, removal, j - 1);
      if Supervising(states[j - 1]) {
        SweepStep(states[j - 1], events[j - 1], |tasks|, c, tasks, removal);
      }
    }
  }

  // ---- no run_task is ever cut ----

  /** The step is one of the polled future's own. */
  predicate MovesPc(e: Event) {
    e.Open? || e.PollReceive? || e.Tick? || e.Pass? || e.Fail?
  }

  predicate Enters(s: State, e: Event, s': State, pc: Pc) {
    MovesPc(e) && Polling(s) && s.phase.i < |s'.slots| && s'.slots[s.phase.i].pc == pc
  }

  predicate Leaves(s: State, e: Event, s': State, pc: Pc) {
    && Polling(s) && Polled(s).pc == pc
    && (MovesPc(e) || (e.Report? && s.phase.Sweeping? && !s'.phase.Aborted?))
  }

  /**
   The books of a run: each `run_task` begun has succeeded, has failed, was cut or is still running, and each
   failed one had its future replaced or is a future that ended by it.
   */
  ghost predicate Balanced(s: State) {
    && s.ledger.begun == s.ledger.passed + s.ledger.failed + s.ledger.cut + PcCount(s.slots, Mid)
    && (!s.phase.Crashed? ==> s.ledger.failed == s.ledger.restarts + PcCount(s.slots, Failed))
  }

  lemma BalancedStep(s: State, e: Event, n: nat, c: Config, tasks: seq<TaskSetting>, removal: Removal)
    requires Balanced(s) && Enabled(s, e) && Inv(s, n) && !Apply(s, e, c, tasks, removal).phase.Aborted?
    ensures Balanced(Apply(s, e, c, tasks, removal))
  {
    if !e.Panic? {
      PcStep(s, e, c, tasks, removal, Mid);
      PcStep(s, e, c, tasks, removal, Failed);
    }
  }

  /** A panic cuts the `run_task` it comes from, at least. */
  lemma CutStep(s: State, e: Event, c: Config, tasks: seq<TaskSetting>, removal: Removal)
    requires Enabled(s, e) && (s.ledger.cut > 0 <==> s.phase.Crashed?)
    ensures var s' := Apply(s, e, c, tasks, removal); s'.ledger.cut > 0 <==> s'.phase.Crashed?
  {
    if e.Panic? {
      PcAt(s.slots, s.phase.i, Mid);
    }
  }

  /**
   What becomes of a `run_task`, in every reachable state: each that was begun has succeeded, has failed, was
   cut, or is inside a future that is still in the vector, whatever was replaced, removed or joined on the
   way; any was cut if and only if one panicked and took `run` down; and every failed one, and nothing else,
   got its task a new future or ended a future in the join.
   */
  lemma {:induction false} NothingIsCut(states: seq<State>, events: seq<Event>, c: Config, tasks: seq<TaskSetting>,
                                        removal: Removal, i: nat)
    requires Execution(states, events, c, tasks, removal) && i < |states|
    ensures Balanced(states[i])
    ensures states[i].ledger.cut > 0 <==> states[i].phase.Crashed?
  {
    if i == 0 {
      NoneAt(states[0].slots, Mid);
      NoneAt(states[0].slots, Failed);
    } else {
      NothingIsCut(states, events, c, tasks, removal, i - 1);
      AlwaysInv(states, events, c, tasks, removal, i - 1);
      assert Follows(states, events, c, tasks, removal, i - 1);
      NeverAborts(states, events, c, tasks, removal, i);
      BalancedStep(states[i - 1], events[i - 1], |tasks|, c, tasks, removal);
      CutStep(states[i - 1], events[i - 1], c, tasks, removal);
    }
  }

  /**
   Graceful stop: when `run` returns, the flag was set, as many futures as tasks were joined, each ended at
   its loop head or by an error of its own, and every `run_task` ever begun was run to its own end.
   */
  lemma ReturnsGracefully(states: seq<State>, events: seq<Event>, c: Config, tasks: seq<TaskSetting>,
                          removal: Removal, i: nat)
    requires Execution(states, events, c, tasks, removal) && i < |states|
    requires states[i].phase == Returned
    ensures states[i].latch.flag && |states[i].slots| == |tasks|
    ensures forall k :: 0 <= k < |states[i].slots| ==> Ended(states[i].slots[k].pc)
    ensures states[i].ledger.begun == states[i].ledger.passed + states[i].ledger.failed
  {
    AlwaysInv(states, events, c, tasks, removal, i);
    NothingIsCut(states, events, c, tasks, removal, i);
    NoneAt(states[i].slots, Mid);
  }

  ghost predicate InOrder(s: State, n: nat) {
    s.phase.Crashed? || Handles(s.slots) == if Supervising(s) then Aligned(n) else Aligned(n)[1..]
  }

  /** If `select_all` keeps the order, `run` supervises, and in the end joins, exactly one future of each task. */
  lemma {:induction false} EachTaskOnce(states: seq<State>, events: seq<Event>, c: Config, tasks: seq<TaskSetting>,
                                        i: nat)
    requires Execution(states, events, c, tasks, Ordered) && i < |states|
    ensures InOrder(states[i], |tasks|)
  {
    if i > 0 {
      EachTaskOnce(states, events, c, tasks, i - 1);
      NeverAborts(states, events, c, tasks, Ordered, i);
      assert Follows(states, events, c, tasks, Ordered, i - 1);
      if events[i - 1].Report? && states[i - 1].phase.Sweeping? {
        ReportFields(states[i - 1], c, tasks, Ordered);
        ReportInOrder(states[i - 1], states[i], |tasks|);
      } else if !events[i - 1].Panic? {
        HandlesKept(states[i - 1], events[i - 1], c, tasks, Ordered);
      }
    }
  }

  // ---- what one step keeps ----

  /** A future that is ready: index 0 ends the supervision, another is replaced. */
  lemma SupervisedReport(s: State, c: Config, tasks: seq<TaskSetting>, removal: Removal)
    requires Inv(s, |tasks|) && Supervising(s) && Enabled(s, Report)
    requires forall k :: 0 <= k < |tasks| ==> CreateTask(c, tasks[k]).Built?
    ensures InPhase(Apply(s, Report, c, tasks, removal), |tasks|)
  {
    var s' := Apply(s, Report, c, tasks, removal);
    HandlesMoved(s.slots, s.phase.i, removal);
    assert forall k :: 1 <= k < |s.slots| ==> Handles(s.slots)[k].TaskHandle? && Handles(s.slots)[k].task < |tasks|;
    if s.phase.i > 0 {
      assert Shaped(|tasks|, Handles(s'.slots));
    }
  }

  /** A polled future moves on. */
  lemma SupervisedPoll(s: State, e: Event, n: nat, c: Config, tasks: seq<TaskSetting>, removal: Removal)
    requires Inv(s, n) && Supervising(s) && Enabled(s, e)
    requires e.Open? || e.PollReceive? || e.Tick? || e.Pass? || e.Fail?
    ensures Supervised(Apply(s, e, c, tasks, removal), n) && Supervising(Apply(s, e, c, tasks, removal))
  {
    var s' := Apply(s, e, c, tasks, removal);
    assert Handles(s'.slots) == Handles(s.slots);
  }

  lemma SupervisedStep(s: State, e: Event, c: Config, tasks: seq<TaskSetting>, removal: Removal)
    requires Inv(s, |tasks|) && Supervising(s) && Enabled(s, e)
    requires forall k :: 0 <= k < |tasks| ==> CreateTask(c, tasks[k]).Built?
    ensures InPhase(Apply(s, e, c, tasks, removal), |tasks|)
  {
    if e.Report? {
      SupervisedReport(s, c, tasks, removal);
    } else if e.Resume? || e.Pend? || e.Latch? || e.Panic? {
      } else {
      SupervisedPoll(s, e, |tasks|, c, tasks, removal);
    }
  }

  /** The futures that stay in the vector stay apart, wherever they are moved. */
  lemma AwaitingReport(s: State, c: Config, tasks: seq<TaskSetting>, removal: Removal)
    requires Awaiting(s) && Enabled(s, Report)
    ensures Awaiting(Apply(s, Report, c, tasks, removal))
  {
  }

  lemma AwaitingLatch(s: State, e: L.Event, c: Config, tasks: seq<TaskSetting>, removal: Removal)
    requires Awaiting(s) && Enabled(s, Latch(e))
    ensures Awaiting(Apply(s, Latch(e), c, tasks, removal))
  {
    forall i | 0 <= i < |s.slots| && s.slots[i].pc.Selecting?
      ensures Pollable(L.Apply(s.latch, e), s.slots[i].pc.receiver)
    {
      assert Owned(s, s.slots[i].pc.receiver);
    }
  }

  lemma AwaitingStep(s: State, e: Event, c: Config, tasks: seq<TaskSetting>, removal: Removal)
    requires Awaiting(s) && Enabled(s, e)
    ensures Awaiting(Apply(s, e, c, tasks, removal))
  {
    match e
    case Report => AwaitingReport(s, c, tasks, removal);
    case Latch(le) => AwaitingLatch(s, le, c, tasks, removal);
    case _ =>
  }

  /** A step takes the polled future from its point to another; a report takes it out of the vector. */
  lemma PcStep(s: State, e: Event, c: Config, tasks: seq<TaskSetting>, removal: Removal, pc: Pc)
    requires Enabled(s, e) && pc != Head && !e.Panic? && (s.phase.Sweeping? ==> s.slots != [])
    ensures var s' := Apply(s, e, c, tasks, removal);
            PcCount(s'.slots, pc) + One(Leaves(s, e, s', pc)) == PcCount(s.slots, pc) + One(Enters(s, e, s', pc))
  {
    var s' := Apply(s, e, c, tasks, removal);
    if e.Open? || e.PollReceive? || e.Tick? || e.Pass? || e.Fail? {
      PcAfter(s.slots, s.phase.i, Slot(Polled(s).handle, s'.slots[s.phase.i].pc), pc);
    } else if e.Report? && s.phase.Sweeping? {
      ReportFields(s, c, tasks, removal);
      if s.phase.i == 0 {
        PcRemaining(s.slots, removal, pc);
      } else if s'.phase.Sweeping? {
        PcRestarted(s.slots, s.phase.i, removal, pc);
      }
    }
  }

  /** Only a report changes which futures the vector holds. */
  lemma HandlesKept(s: State, e: Event, c: Config, tasks: seq<TaskSetting>, removal: Removal)
    requires Enabled(s, e) && (e.Report? ==> s.phase.Visiting?) && !e.Panic?
    ensures Handles(Apply(s, e, c, tasks, removal).slots) == Handles(s.slots)
    ensures Supervising(Apply(s, e, c, tasks, removal)) == Supervising(s)
  {
  }

  lemma SlotsKept(slots: seq<Slot>, i: nat, n: nat)
    requires Handles(slots) == Aligned(n) && i < |slots|
    ensures i == 0 ==> Handles(Without(slots, 0, Ordered)) == Aligned(n)[1..]
    ensures i > 0 ==> Handles(RestartedSlots(slots, i, Ordered)) == Aligned(n)
  {
    HandlesMoved(slots, i, Ordered);
    if i == 0 {
      assert Without(Aligned(n), 0, Ordered) == Aligned(n)[1..];
    } else {
      assert Restarted(Aligned(n), i, Ordered) == Aligned(n);
    }
  }

  /** What a report changes while `run` supervises. */
  lemma ReportFields(s: State, c: Config, tasks: seq<TaskSetting>, removal: Removal)
    requires Enabled(s, Report) && s.phase.Sweeping?
    ensures var s', i := Apply(s, Report, c, tasks, removal), s.phase.i;
            || s'.phase.Aborted?
            || (i == 0 && s'.phase.Joining? && s'.slots == Without(s.slots, 0, removal))
            || (i > 0 && s'.phase == Sweeping(0) && s'.slots == RestartedSlots(s.slots, i, removal))
  {
  }

  lemma ReportInOrder(s: State, s': State, n: nat)
    requires s.phase.Sweeping? && s.phase.i < |s.slots| && InOrder(s, n)
    requires var i := s.phase.i;
             || (i == 0 && s'.phase.Joining? && s'.slots == Without(s.slots, 0, Ordered))
             || (i > 0 && s'.phase == Sweeping(0) && s'.slots == RestartedSlots(s.slots, i, Ordered))
    ensures InOrder(s', n)
  {
    SlotsKept(s.slots, s.phase.i, n);
  }

  // ---- counting futures ----

  /** How many futures are at this point. */
  function PcCount(slots: seq<Slot>, pc: Pc): nat {
    if slots == [] then 0 else PcCount(slots[..|slots| - 1], pc) + One(Last(slots).pc == pc)
  }

  function One(b: bool): nat {
    if b then 1 else 0
  }

  lemma {:induction false} PcJoin(a: seq<Slot>, b: seq<Slot>, pc: Pc)
    ensures PcCount(a + b, pc) == PcCount(a, pc) + PcCount(b, pc)
  {
    if b == [] {
      assert a + b == a;
    } else {
      assert (a + b)[..|a + b| - 1] == a + b[..|b| - 1];
      PcJoin(a, b[..|b| - 1], pc);
    }
  }

  lemma PcOne(slot: Slot, pc: Pc)
    ensures PcCount([slot], pc) == One(slot.pc == pc)
  {
    assert [slot][..0] == [];
  }

  /** A vector taken apart at `i`. */
  lemma PcAt(slots: seq<Slot>, i: nat, pc: Pc)
    requires i < |slots|
    ensures PcCount(slots, pc) == PcCount(slots[..i], pc) + One(slots[i].pc == pc) + PcCount(slots[i + 1..], pc)
  {
    assert slots == slots[..i] + ([slots[i]] + slots[i + 1..]);
    PcJoin(slots[..i], [slots[i]] + slots[i + 1..], pc);
    PcJoin([slots[i]], slots[i + 1..], pc);
    PcOne(slots[i], pc);
  }

  lemma PcAfter(slots: seq<Slot>, i: nat, slot: Slot, pc: Pc)
    requires i < |slots|
    ensures PcCount(slots[i := slot], pc) + One(slots[i].pc == pc) == PcCount(slots, pc) + One(slot.pc == pc)
  {
    PcAt(slots, i, pc);
    PcAt(slots[i := slot], i, pc);
    assert slots[i := slot][..i] == slots[..i] && slots[i := slot][i + 1..] == slots[i + 1..];
  }

  /** The last future moved in front of the tail it belonged to. */
  lemma {:induction false} PcRotate(tail: seq<Slot>, pc: Pc)
    requires tail != []
    ensures PcCount([Last(tail)] + tail[..|tail| - 1], pc) == PcCount(tail, pc)
  {
    PcJoin([Last(tail)], tail[..|tail| - 1], pc);
    PcOne(Last(tail), pc);
  }

  lemma TailRestarted(slots: seq<Slot>, i: nat, removal: Removal)
    requires 1 <= i < |slots|
    ensures var tail := slots[i + 1..];
            RestartedSlots(slots, i, removal)[i + 1..] ==
            if removal == Swap && tail != [] then [Last(tail)] + tail[..|tail| - 1] else tail
  {
    var next, tail := RestartedSlots(slots, i, removal), slots[i + 1..];
    if removal == Swap && tail != [] {
      var rotated := [Last(tail)] + tail[..|tail| - 1];
      forall k | 0 <= k < |tail|
        ensures next[i + 1..][k] == rotated[k]
      {
        assert next[i + 1..][k] == next[i + 1 + k];
      }
      assert next[i + 1..] == rotated;
    } else {
      assert next[i + 1..] == tail;
    }
  }

  /** Replacing a future moves the others, and the new one starts at its loop head. */
  lemma {:induction false} PcRestarted(slots: seq<Slot>, i: nat, removal: Removal, pc: Pc)
    requires 1 <= i < |slots| && pc != Head
    ensures PcCount(RestartedSlots(slots, i, removal), pc) + One(slots[i].pc == pc) == PcCount(slots, pc)
  {
    var next, tail := RestartedSlots(slots, i, removal), slots[i + 1..];
    PcAt(slots, i, pc);
    PcAt(next, i, pc);
    assert next[..i] == slots[..i];
    TailRestarted(slots, i, removal);
    if removal == Swap && tail != [] {
      PcRotate(tail, pc);
    }
  }

  lemma {:induction false} PcRemaining(slots: seq<Slot>, removal: Removal, pc: Pc)
    requires slots != []
    ensures PcCount(Without(slots, 0, removal), pc) + One(slots[0].pc == pc) == PcCount(slots, pc)
  {
    var rest, tail := Without(slots, 0, removal), slots[1..];
    PcAt(slots, 0, pc);
    assert slots[..0] == [];
    if removal == Swap && tail != [] {
      assert rest == [Last(tail)] + tail[..|tail| - 1];
      PcRotate(tail, pc);
    } else {
      assert rest == tail;
    }
  }

  lemma {:induction false} NoneAt(slots: seq<Slot>, pc: Pc)
    requires forall k :: 0 <= k < |slots| ==> slots[k].pc != pc
    ensures PcCount(slots, pc) == 0
  {
    if slots != [] {
      NoneAt(slots[..|slots| - 1], pc);
    }
  }
}
