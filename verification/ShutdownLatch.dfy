/**
 The `Shutdown` latch: a flag, a broadcast channel whose receivers are counted, and a `Notify`. A step is one
 poll of one caller; polls are atomic. A `receive` inside a `select!` can be dropped when another branch wins.
 */
module ShutdownLatch {
  import opened Net

  /** One call of `receive`. */
  datatype Receiver =
    | NotStarted
    | Subscribed(delivered: bool)   // counted by the channel; the message may have arrived
    | Finished                      // returned to its caller
    | Dropped                       // cancelled before it returned

  /** The call of `shutdown`: before it, waiting on the notification, or back. */
  datatype Caller =
    | Idle
    | Waiting(notified: bool)
    | Back

  datatype State = State(flag: bool, caller: Caller, receivers: seq<Receiver>)

  /** `receiver_count` of the channel. */
  function Subscribers(rs: seq<Receiver>): nat {
    if rs == [] then 0 else (if rs[0].Subscribed? then 1 else 0) + Subscribers(rs[1..])
  }

  /** The message reaches every receiver there is. */
  function Delivered(rs: seq<Receiver>): (ds: seq<Receiver>)
    ensures |ds| == |rs|
    ensures forall k :: 0 <= k < |rs| ==> ds[k] == if rs[k].Subscribed? then Subscribed(true) else rs[k]
  {
    seq(|rs|, k requires 0 <= k < |rs| => if rs[k].Subscribed? then Subscribed(true) else rs[k])
  }

  datatype Event =
    | Call               // first poll of `shutdown`
    | Wake               // a later poll of `shutdown`, after a notification
    | Spawn              // `receive` is called once more; its future is not polled yet
    | Enter(k: nat)      // first poll of a `receive`
    | Deliver(k: nat)    // the poll in which its message is there
    | Cancel(k: nat)     // another branch of its `select!` won

  predicate Enabled(s: State, e: Event) {
    match e
    case Call => !s.caller.Waiting?
    case Wake => s.caller == Waiting(true)
    case Spawn => true
    case Enter(k) => k < |s.receivers| && s.receivers[k].NotStarted?
    case Deliver(k) => k < |s.receivers| && s.receivers[k] == Subscribed(true)
    case Cancel(k) => k < |s.receivers| && (s.receivers[k].NotStarted? || s.receivers[k].Subscribed?)
  }

  function Apply(s: State, e: Event): State
    requires Enabled(s, e)
  {
    match e
    case Call =>
      if Subscribers(s.receivers) == 0 then State(true, Back, s.receivers)
      else State(true, Waiting(false), Delivered(s.receivers))
    case Wake =>
      s.(caller := if Subscribers(s.receivers) == 0 then Back else Waiting(false))
    case Spawn => s.(receivers := s.receivers + [NotStarted])
    case Enter(k) =>
      s.(receivers := s.receivers[k := if s.flag then Finished else Subscribed(false)])
    case Deliver(k) =>
      s.(receivers := s.receivers[k := Finished], caller := if s.caller.Waiting? then Waiting(true) else s.caller)
    case Cancel(k) =>
      s.(receivers := s.receivers[k := Dropped])
  }

  function Init(n: nat): State {
    State(false, Idle, seq(n, k => NotStarted))
  }

  ghost predicate Execution(states: seq<State>, events: seq<Event>) {
    && |states| == |events| + 1 && states[0] == Init(|states[0].receivers|)
    && forall i :: 0 <= i < |events| ==> Follows(states, events, i)
  }

  predicate Follows(states: seq<State>, events: seq<Event>, i: nat)
    requires i < |events| && i + 1 < |states|
  {
    Enabled(states[i], events[i]) && states[i + 1] == Apply(states[i], events[i])
  }

  ghost predicate NoCancel(events: seq<Event>) {
    forall i :: 0 <= i < |events| ==> !events[i].Cancel?
  }

  // ---- the object, updated in place ----

  class Shutdown {
    var shutdown: bool
    var waiter: Caller                // the `Notify` with its at most one waiter
    var receivers: seq<Receiver>      // every `receive` of the run, in the order they are named

    ghost function View(): State
      reads this
    {
      State(shutdown, waiter, receivers)
    }

    constructor (n: nat)
      ensures View() == Init(n)
    {
      shutdown, waiter := false, Idle;
      receivers := seq(n, k => NotStarted);
    }

    method ReceiverCount() returns (count: nat)
      ensures count == Subscribers(receivers)
    {
      count := 0;
      var i: nat := |receivers|;
      while i > 0
        invariant i <= |receivers| && count == Subscribers(receivers[i..])
      {
        i := i - 1;
        assert receivers[i..][1..] == receivers[i + 1..];
        if receivers[i].Subscribed? {
          count := count + 1;
        }
      }
      assert receivers[0..] == receivers;
    }

    /** `shutdown` up to its first await. */
    method BeginShutdown()
      requires Enabled(View(), Call)
      modifies this
      ensures View() == Apply(old(View()), Call)
    {
      shutdown := true;
      var count := ReceiverCount();
      if count == 0 {
        waiter := Back;
        return;
      }
      receivers := Delivered(receivers);
      waiter := Waiting(false);
    }

    /** One turn of the loop of `shutdown`. */
    method ResumeShutdown()
      requires Enabled(View(), Wake)
      modifies this
      ensures View() == Apply(old(View()), Wake)
    {
      var count := ReceiverCount();
      waiter := if count == 0 then Back else Waiting(false);
    }

    /** `receive` up to its await. */
    method BeginReceive(k: nat)
      requires Enabled(View(), Enter(k))
      modifies this
      ensures View() == Apply(old(View()), Enter(k))
    {
      if shutdown {
        receivers := receivers[k := Finished];
      } else {
        receivers := receivers[k := Subscribed(false)];
      }
    }

    /** The rest of `receive`: `notify_waiters`, then the receiver is dropped. */
    method EndReceive(k: nat)
      requires Enabled(View(), Deliver(k))
      modifies this
      ensures View() == Apply(old(View()), Deliver(k))
    {
      if waiter.Waiting? {
        waiter := Waiting(true);
      }
      receivers := receivers[k := Finished];
    }

    /** `receive` is called; the future does nothing before its first poll. */
    method CallReceive()
      modifies this
      ensures View() == Apply(old(View()), Spawn)
    {
      receivers := receivers + [NotStarted];
    }

    method CancelReceive(k: nat)
      requires Enabled(View(), Cancel(k))
      modifies this
      ensures View() == Apply(old(View()), Cancel(k))
    {
      receivers := receivers[k := Dropped];
    }
  }

  // ---- counting receivers ----

  lemma {:induction false} NoSubscribers(rs: seq<Receiver>)
    ensures Subscribers(rs) == 0 <==> forall k :: 0 <= k < |rs| ==> !rs[k].Subscribed?
    ensures Subscribers(rs) <= |rs|
  {
    if rs != [] {
      NoSubscribers(rs[1..]);
      assert forall k :: 1 <= k < |rs| ==> rs[k] == rs[1..][k - 1];
      if forall k :: 0 <= k < |rs| ==> !rs[k].Subscribed? {
        assert forall k :: 0 <= k < |rs[1..]| ==> rs[1..][k] == rs[k + 1];
      }
    }
  }

  lemma {:induction false} SubscribersAfter(rs: seq<Receiver>, k: nat, r: Receiver)
    requires k < |rs|
    ensures Subscribers(rs[k := r]) + (if rs[k].Subscribed? then 1 else 0) ==
            Subscribers(rs) + (if r.Subscribed? then 1 else 0)
  {
    if k == 0 {
      assert rs[k := r][1..] == rs[1..];
    } else {
      SubscribersAfter(rs[1..], k - 1, r);
      assert rs[k := r][1..] == rs[1..][k - 1 := r];
    }
  }

  lemma {:induction false} SubscribersDelivered(rs: seq<Receiver>)
    ensures Subscribers(Delivered(rs)) == Subscribers(rs)
  {
    if rs != [] {
      SubscribersDelivered(rs[1..]);
      assert Delivered(rs)[1..] == Delivered(rs[1..]);
    }
  }

  lemma {:induction false} SubscribersSpawned(rs: seq<Receiver>)
    ensures Subscribers(rs + [NotStarted]) == Subscribers(rs)
  {
    if rs != [] {
      SubscribersSpawned(rs[1..]);
      assert (rs + [NotStarted])[1..] == rs[1..] + [NotStarted];
    }
  }

  // ---- safety, in every interleaving ----

  /** Nobody returns from `receive` or gets a message before the flag; after the flag all messages are there. */
  ghost predicate Safe(s: State) {
    && (!s.flag ==> s.caller.Idle?)
    && forall k :: 0 <= k < |s.receivers| ==>
         match s.receivers[k] {
           case Finished => s.flag
           case Subscribed(delivered) => delivered == s.flag
           case _ => true
         }
  }

  lemma SafeStep(s: State, e: Event)
    requires Safe(s) && Enabled(s, e)
    ensures Safe(Apply(s, e))
  {
    NoSubscribers(s.receivers);
  }

  lemma {:induction false} AlwaysSafe(states: seq<State>, events: seq<Event>, i: nat)
    requires Execution(states, events) && i < |states|
    ensures Safe(states[i])
  {
    if i > 0 {
      AlwaysSafe(states, events, i - 1);
      assert Follows(states, events, i - 1);
      SafeStep(states[i - 1], events[i - 1]);
    }
  }

  /** `receive` returns only after the flag was set, cancelled or not, in every interleaving. */
  lemma ReceiveReturnsAfterFlag(states: seq<State>, events: seq<Event>, i: nat, k: nat)
    requires Execution(states, events) && i < |states| && k < |states[i].receivers|
    requires states[i].receivers[k].Finished?
    ensures states[i].flag
  {
    AlwaysSafe(states, events, i);
  }

  /** `shutdown` returns only in a poll that sees no receiver, and from then on there never is one again. */
  lemma {:induction false} ReturnsWithoutReceivers(states: seq<State>, events: seq<Event>, i: nat)
    requires Execution(states, events) && i < |states| && states[i].caller.Back?
    ensures states[i].flag && Subscribers(states[i].receivers) == 0
  {
    if i > 0 {
      var s, e := states[i - 1], events[i - 1];
      AlwaysSafe(states, events, i);
      assert Follows(states, events, i - 1);
      if s.caller.Back? {
        ReturnsWithoutReceivers(states, events, i - 1);
        NoSubscribers(s.receivers);
        NoSubscribers(states[i].receivers);
      }
    }
  }

  // ---- termination, when no `receive` is cancelled ----

  /** A `shutdown` that waits without a notification still has a receiver to hear from. */
  ghost predicate Owed(s: State) {
    s.caller == Waiting(false) ==> Subscribers(s.receivers) > 0
  }

  lemma OwedStep(s: State, e: Event)
    requires Owed(s) && Enabled(s, e) && (e.Cancel? ==> s.caller != Waiting(false) || Subscribers(s.receivers) > 1)
    requires Safe(s)
    ensures Owed(Apply(s, e))
  {
    SubscribersDelivered(s.receivers);
    match e
    case Spawn => SubscribersSpawned(s.receivers);
    case Enter(k) => SubscribersAfter(s.receivers, k, if s.flag then Finished else Subscribed(false));
    case Cancel(k) => SubscribersAfter(s.receivers, k, Dropped);
    case _ =>
  }

  /** Without cancellations a waiting, un-notified `shutdown` always has an undelivered receiver. */
  lemma {:induction false} AlwaysOwed(states: seq<State>, events: seq<Event>, i: nat)
    requires Execution(states, events) && NoCancel(events) && i < |states|
    ensures Owed(states[i])
    ensures states[i].caller == Waiting(false) ==>
              exists k :: 0 <= k < |states[i].receivers| && Enabled(states[i], Deliver(k))
  {
    AlwaysSafe(states, events, i);
    NoSubscribers(states[i].receivers);
    if i > 0 {
      AlwaysOwed(states, events, i - 1);
      AlwaysSafe(states, events, i - 1);
      assert Follows(states, events, i - 1);
      OwedStep(states[i - 1], events[i - 1]);
    }
    var s := states[i];
    if s.caller == Waiting(false) {
      var k :| 0 <= k < |s.receivers| && s.receivers[k].Subscribed?;
      assert Enabled(s, Deliver(k));
    }
  }

  /** Polls still to come: two per subscribed receiver, one per receiver not started, one for a notification. */
  function Weight(rs: seq<Receiver>): nat {
    if rs == [] then 0
    else (match rs[0] case Subscribed(_) => 2 case NotStarted => 1 case _ => 0) + Weight(rs[1..])
  }

  function Measure(s: State): nat {
    Weight(s.receivers) + if s.caller == Waiting(true) then 1 else 0
  }

  lemma {:induction false} WeightAfter(rs: seq<Receiver>, k: nat, r: Receiver)
    requires k < |rs| && (r.Finished? || r.Dropped?)
    ensures Weight(rs[k := r]) + (match rs[k] case Subscribed(_) => 2 case NotStarted => 1 case _ => 0) == Weight(rs)
  {
    if k == 0 {
      assert rs[k := r][1..] == rs[1..];
    } else {
      WeightAfter(rs[1..], k - 1, r);
      assert rs[k := r][1..] == rs[1..][k - 1 := r];
    }
  }

  lemma {:induction false} WeightSpawned(rs: seq<Receiver>)
    ensures Weight(rs + [NotStarted]) == Weight(rs) + 1
  {
    if rs != [] {
      WeightSpawned(rs[1..]);
      assert (rs + [NotStarted])[1..] == rs[1..] + [NotStarted];
    }
  }

  /** Once the flag is set every poll, a cancellation included, uses up some of the measure. */
  lemma MeasureStep(s: State, e: Event)
    requires Enabled(s, e) && s.flag && !e.Call?
    ensures if e.Spawn? then Measure(Apply(s, e)) == Measure(s) + 1 else Measure(Apply(s, e)) < Measure(s)
  {
    match e
    case Spawn => WeightSpawned(s.receivers);
    case Enter(k) => WeightAfter(s.receivers, k, Finished);
    case Deliver(k) => WeightAfter(s.receivers, k, Finished);
    case Cancel(k) => WeightAfter(s.receivers, k, Dropped);
    case Wake =>
  }

  /** The calls of `receive` among some events, and all other events. */
  function Spawns(events: seq<Event>): nat {
    if events == [] then 0 else Spawns(events[..|events| - 1]) + if Last(events).Spawn? then 1 else 0
  }

  function Polls(events: seq<Event>): nat {
    if events == [] then 0 else Polls(events[..|events| - 1]) + if Last(events).Spawn? then 0 else 1
  }

  /**
   A started `shutdown` is followed by at most `Measure` more polls of the whole latch, and one for each
   `receive` that is still to be called.
   */
  lemma {:induction false} BoundedPolls(states: seq<State>, events: seq<Event>, i: nat, j: nat)
    requires Execution(states, events) && i <= j < |states| && states[i].flag
    requires forall k :: i <= k < j ==> !events[k].Call?
    ensures states[j].flag && Polls(events[i..j]) + Measure(states[j]) <= Measure(states[i]) + Spawns(events[i..j])
  {
    if i < j {
      assert events[i..j][..j - i - 1] == events[i..j - 1];
      BoundedPolls(states, events, i, j - 1);
      assert Follows(states, events, j - 1);
      MeasureStep(states[j - 1], events[j - 1]);
    }
  }

  /**
   Termination: without cancellations a run that cannot go on has its `shutdown`, if called, returned and no
   `receive` waiting; and a started `shutdown` can only be followed by finitely many polls (`BoundedPolls`).
   */
  lemma ShutdownTerminates(states: seq<State>, events: seq<Event>, i: nat)
    requires Execution(states, events) && NoCancel(events) && i < |states|
    requires states[i].flag
    requires forall e :: Enabled(states[i], e) ==> e.Call? || e.Spawn?
    ensures states[i].caller.Back? && forall k :: 0 <= k < |states[i].receivers| ==> states[i].receivers[k].Finished?
  {
    var s := states[i];
    AlwaysSafe(states, events, i);
    AlwaysOwed(states, events, i);
    NeverDropped(states, events, i);
    FlagMeansCalled(states, events, i);
    assert !Enabled(s, Wake);
    forall k | 0 <= k < |s.receivers|
      ensures s.receivers[k].Finished?
    {
      assert !Enabled(s, Enter(k)) && !Enabled(s, Deliver(k));
    }
  }

  lemma {:induction false} NeverDropped(states: seq<State>, events: seq<Event>, i: nat)
    requires Execution(states, events) && NoCancel(events) && i < |states|
    ensures forall k :: 0 <= k < |states[i].receivers| ==> !states[i].receivers[k].Dropped?
  {
    if i > 0 {
      NeverDropped(states, events, i - 1);
      assert Follows(states, events, i - 1);
    }
  }

  lemma {:induction false} FlagMeansCalled(states: seq<State>, events: seq<Event>, i: nat)
    requires Execution(states, events) && i < |states|
    ensures states[i].flag <==> !states[i].caller.Idle?
  {
    if i > 0 {
      FlagMeansCalled(states, events, i - 1);
      assert Follows(states, events, i - 1);
    }
  }

  // ---- what a cancelled `receive` can do ----

  /** Carrying out `events` from `s` ends with `shutdown` back. */
  ghost predicate ComesBack(s: State, events: seq<Event>)
    decreases |events|
  {
    if events == [] then s.caller.Back?
    else Enabled(s, events[0]) && !events[0].Call? && ComesBack(Apply(s, events[0]), events[1..])
  }

  ghost predicate CanComeBack(s: State) {
    exists events :: ComesBack(s, events)
  }

  /** Un-notified and without receivers, `shutdown` waits for a notification nobody is left to send. */
  predicate Stuck(s: State) {
    s.caller == Waiting(false) && Subscribers(s.receivers) == 0
  }

  lemma {:induction false} StuckForever(s: State, events: seq<Event>)
    requires Stuck(s) && s.flag
    ensures !ComesBack(s, events)
    decreases |events|
  {
    if events != [] && Enabled(s, events[0]) && !events[0].Call? {
      NoSubscribers(s.receivers);
      NoSubscribers(Apply(s, events[0]).receivers);
      StuckForever(Apply(s, events[0]), events[1..]);
    }
  }

  /** While a receiver is left, or a notification pending, delivering to everyone brings `shutdown` back. */
  lemma {:induction false} ComesBackOtherwise(s: State) returns (events: seq<Event>)
    requires Safe(s) && s.flag && s.caller.Waiting? && !Stuck(s)
    ensures ComesBack(s, events)
    decreases Subscribers(s.receivers)
  {
    NoSubscribers(s.receivers);
    if Subscribers(s.receivers) == 0 {
      assert ComesBack(Apply(s, Wake), [Wake][1..]);
      events := [Wake];
    } else {
      var k :| 0 <= k < |s.receivers| && s.receivers[k].Subscribed?;
      SubscribersAfter(s.receivers, k, Finished);
      SafeStep(s, Deliver(k));
      var rest := ComesBackOtherwise(Apply(s, Deliver(k)));
      events := [Deliver(k)] + rest;
      assert events[1..] == rest;
    }
  }

  /** Exactly when a waiting `shutdown` can still return, in every reachable state, cancellations included. */
  lemma CanReturnIff(states: seq<State>, events: seq<Event>, i: nat)
    requires Execution(states, events) && i < |states| && states[i].caller.Waiting?
    ensures CanComeBack(states[i]) <==> !Stuck(states[i])
  {
    AlwaysSafe(states, events, i);
    if Stuck(states[i]) {
      forall more
        ensures !ComesBack(states[i], more)
      {
        StuckForever(states[i], more);
      }
    } else {
      var more := ComesBackOtherwise(states[i]);
    }
  }

  /**
   The future at index 0 of `run` (receiver 0) has returned and `shutdown` waits for the `Fake` worker
   (receiver 1); a ticket arrives, the `select!` drops that `receive`, and the next one returns at once
   without notifying anybody. `shutdown` hangs although every `receive` is over.
   */
  lemma CancellationCanHang() returns (states: seq<State>, events: seq<Event>)
    ensures Execution(states, events) && Last(states).receivers == [Finished, Dropped, Finished]
    ensures Stuck(Last(states)) && !CanComeBack(Last(states))
  {
    events := [Enter(0), Enter(1), Call, Deliver(0), Wake, Cancel(1), Spawn, Enter(2)];
    var s0 := Init(2);
    var s1 := Apply(s0, Enter(0));
    assert s1.receivers == [Subscribed(false), NotStarted];
    var s2 := Apply(s1, Enter(1));
    assert s2.receivers == [Subscribed(false), Subscribed(false)];
    assert s2.receivers[0].Subscribed?;
    NoSubscribers(s2.receivers);
    var s3 := Apply(s2, Call);
    assert s3.receivers == [Subscribed(true), Subscribed(true)];
    var s4 := Apply(s3, Deliver(0));
    assert s4.receivers == [Finished, Subscribed(true)];
    assert s4.receivers[1].Subscribed?;
    NoSubscribers(s4.receivers);
    var s5 := Apply(s4, Wake);
    var s6 := Apply(s5, Cancel(1));
    assert s6.receivers == [Finished, Dropped];
    var s7 := Apply(s6, Spawn);
    assert s7.receivers == [Finished, Dropped, NotStarted];
    var s8 := Apply(s7, Enter(2));
    assert s8.receivers == [Finished, Dropped, Finished];
    NoSubscribers(s8.receivers);
    states := [s0, s1, s2, s3, s4, s5, s6, s7, s8];
    forall more
      ensures !ComesBack(s8, more)
    {
      StuckForever(s8, more);
    }
  }
}
