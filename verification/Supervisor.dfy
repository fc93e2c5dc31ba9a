/**
 The supervisor loop of `run`: the vector of futures, what `select_all` leaves of it, and the restart of
 the future that ended. How `select_all` removes the finished future is a parameter.
 */
module Supervisor {
  import opened Net

  /** A future in the vector: the one that waits for the shutdown, or the loop of one configured task. */
  datatype Handle = ShutdownHandle | TaskHandle(task: nat)

  /** How the finished future leaves the vector: the rest keeps its order, or the last one takes its place. */
  datatype Removal = Ordered | Swap

  /** A vector without its element `i`, place by place. */
  function Without<T>(s: seq<T>, i: nat, removal: Removal): (rest: seq<T>)
    requires i < |s|
    ensures |rest| == |s| - 1
  {
    seq(|s| - 1, k requires 0 <= k < |s| - 1 =>
      if k < i then s[k]
      else if removal == Ordered then s[k + 1]
      else if k == i then s[|s| - 1]
      else s[k])
  }

  /** The vector `run` starts with for `n` tasks. */
  function Aligned(n: nat): (handles: seq<Handle>)
    ensures |handles| == n + 1 && handles[0] == ShutdownHandle
    ensures forall k :: 1 <= k <= n ==> handles[k] == TaskHandle(k - 1)
  {
    [ShutdownHandle] + seq(n, k requires 0 <= k < n => TaskHandle(k))
  }

  /** The element at index `i` was taken out and `x` went in at `i`, place by place. */
  function Replaced<T>(s: seq<T>, i: nat, x: T, removal: Removal): (next: seq<T>)
    requires i < |s|
    ensures |next| == |s|
  {
    seq(|s|, k requires 0 <= k < |s| =>
      if k < i then s[k]
      else if k == i then x
      else if removal == Ordered then s[k]
      else if k == i + 1 then s[|s| - 1]
      else s[k - 1])
  }

  /** A task future at index `i` ended and a new future of `tasks[i - 1]` went in at `i`. */
  function Restarted(handles: seq<Handle>, i: nat, removal: Removal): (next: seq<Handle>)
    requires 1 <= i < |handles|
    ensures |next| == |handles|
  {
    Replaced(handles, i, TaskHandle(i - 1), removal)
  }

  /** Every index `select_all` reports is a task's place in the vector. */
  predicate Endings(n: nat, ends: seq<nat>) {
    forall k :: 0 <= k < |ends| ==> 1 <= ends[k] <= n
  }

  /** The vector after the tasks at these indices ended one after the other. */
  function After(n: nat, ends: seq<nat>, removal: Removal): (handles: seq<Handle>)
    requires Endings(n, ends)
    ensures |handles| == n + 1
  {
    if ends == [] then Aligned(n)
    else Restarted(After(n, ends[..|ends| - 1], removal), ends[|ends| - 1], removal)
  }

  /** What `select_all` gives back besides the result: the other futures. */
  method TakeOut(handles: seq<Handle>, i: nat, removal: Removal) returns (remain: seq<Handle>)
    requires i < |handles|
    ensures remain == Without(handles, i, removal)
  {
    if removal == Ordered {
      remain := handles[..i] + handles[i + 1..];
    } else {
      remain := handles[i := handles[|handles| - 1]][..|handles| - 1];
    }
  }

  /** `remain.insert(task_index, future)`. */
  method PutBack(handles: seq<Handle>, i: nat, removal: Removal) returns (taskHandles: seq<Handle>)
    requires 1 <= i < |handles|
    ensures taskHandles == Restarted(handles, i, removal)
  {
    var remain := TakeOut(handles, i, removal);
    taskHandles := remain[..i] + [TaskHandle(i - 1)] + remain[i..];
  }

  /** The loop itself: `ends` are the indices of the futures that finish, 0 for the shutdown future. */
  method Supervise(n: nat, ends: seq<nat>, removal: Removal)
    returns (stopped: bool, taskHandles: seq<Handle>, restarts: nat)
    requires forall k :: 0 <= k < |ends| ==> ends[k] <= n
    ensures restarts <= |ends| && Endings(n, ends[..restarts])
    ensures stopped <==> restarts < |ends|
    ensures if stopped
            then ends[restarts] == 0 && taskHandles == Without(After(n, ends[..restarts], removal), 0, removal)
            else taskHandles == After(n, ends[..restarts], removal)
  {
    taskHandles := [ShutdownHandle];
    for i := 0 to n
      invariant |taskHandles| == i + 1 && taskHandles[0] == ShutdownHandle
      invariant forall k :: 1 <= k <= i ==> taskHandles[k] == TaskHandle(k - 1)
    {
      taskHandles := taskHandles + [TaskHandle(i)];
    }
    assert taskHandles == Aligned(n);
    restarts := 0;
    while restarts < |ends|
      invariant restarts <= |ends| && Endings(n, ends[..restarts])
      invariant taskHandles == After(n, ends[..restarts], removal)
    {
      var taskIndex := ends[restarts];
      if taskIndex == 0 {
        taskHandles := TakeOut(taskHandles, 0, removal);
        return true, taskHandles, restarts;
      }
      assert ends[..restarts + 1][..restarts] == ends[..restarts];
      taskHandles := PutBack(taskHandles, taskIndex, removal);
      restarts := restarts + 1;
    }
    stopped := false;
  }

  // ---- what holds however the finished future is removed ----

  /** Index 0 is the shutdown future, every other place holds some configured task. */
  predicate Shaped(n: nat, handles: seq<Handle>) {
    && |handles| == n + 1 && handles[0] == ShutdownHandle
    && forall k :: 1 <= k <= n ==> handles[k].TaskHandle? && handles[k].task < n
  }

  /** In every run the vector keeps its length and shape, so the lookup of `tasks[i - 1]` never fails. */
  lemma {:induction false} AlwaysShaped(n: nat, ends: seq<nat>, removal: Removal)
    requires Endings(n, ends)
    ensures Shaped(n, After(n, ends, removal))
    decreases |ends|
  {
    if ends != [] {
      AlwaysShaped(n, ends[..|ends| - 1], removal);
    }
  }

  /** The shutdown waits for every task future there is: taking out index 0 loses none. */
  lemma AllAwaited(n: nat, ends: seq<nat>, removal: Removal)
    requires Endings(n, ends)
    ensures multiset(Without(After(n, ends, removal), 0, removal)) ==
            multiset(After(n, ends, removal)) - multiset{ShutdownHandle}
  {
    AlwaysShaped(n, ends, removal);
    RemoveOne(After(n, ends, removal), removal);
  }

  lemma RemoveOne(h: seq<Handle>, removal: Removal)
    requires h != []
    ensures multiset(Without(h, 0, removal)) == multiset(h) - multiset{h[0]}
  {
    var last := |h| - 1;
    assert h == [h[0]] + h[1..];
    if last > 0 {
      assert h[1..] == h[1..last] + [h[last]];
      assert Without(h, 0, Swap) == [h[last]] + h[1..last];
    }
    assert Without(h, 0, Ordered) == h[1..];
  }

  // ---- ordered removal ----

  /** If the rest keeps its order, every task has exactly its own live future through any run of failures. */
  lemma {:induction false} OrderedStaysAligned(n: nat, ends: seq<nat>)
    requires Endings(n, ends)
    ensures After(n, ends, Ordered) == Aligned(n)
    decreases |ends|
  {
    if ends != [] {
      OrderedStaysAligned(n, ends[..|ends| - 1]);
      assert Restarted(Aligned(n), ends[|ends| - 1], Ordered) == Aligned(n);
    }
  }

  // ---- swap removal ----

  /** A restart keeps an aligned vector aligned exactly at its last two places. */
  lemma SwapAlignedIff(n: nat, i: nat)
    requires 1 <= i <= n
    ensures Restarted(Aligned(n), i, Swap) == Aligned(n) <==> i >= n - 1
  {
    var h := Aligned(n);
    if i < n - 1 {
      assert Restarted(h, i, Swap)[i + 1] == h[n];
    } else if i == n {
      assert Restarted(h, i, Swap) == h;
    } else {
      assert Restarted(h, i, Swap) == h;
    }
  }

  lemma {:induction false} SwapStaysAligned(n: nat, ends: seq<nat>)
    requires Endings(n, ends) && n <= 2
    ensures After(n, ends, Swap) == Aligned(n)
    decreases |ends|
  {
    if ends != [] {
      SwapStaysAligned(n, ends[..|ends| - 1]);
      SwapAlignedIff(n, ends[|ends| - 1]);
    }
  }

  /** The number of live futures of one task. */
  function Live(handles: seq<Handle>, task: nat): nat {
    multiset(handles)[TaskHandle(task)]
  }

  lemma TwoPlaces<T>(s: seq<T>, i: nat, j: nat)
    requires i < j < |s| && s[i] == s[j]
    ensures multiset(s)[s[i]] >= 2
  {
    assert s == s[..j] + [s[j]] + s[j + 1..];
    assert s[..j][i] == s[i];
  }

  /** After one early failure, the next one kills a task for good: it has no future left and another has two. */
  lemma LosesATask(n: nat)
    requires n >= 3
    ensures Endings(n, [1, 2])
    ensures Live(After(n, [1, 2], Swap), n - 1) == 0
    ensures Live(After(n, [1, 2], Swap), 1) >= 2
  {
    var h := Aligned(n);
    assert [1][..0] == [] && [1, 2][..1] == [1];
    var a := Restarted(h, 1, Swap);
    assert After(n, [1], Swap) == a;
    var b := Restarted(a, 2, Swap);
    assert After(n, [1, 2], Swap) == b;
    assert b[3] == a[n] == h[n - 1];
    TwoPlaces(b, 2, if n == 3 then 3 else 4);
    assert TaskHandle(n - 1) !in b;
  }

  lemma AlignedLive(n: nat, task: nat)
    requires task < n
    ensures Live(Aligned(n), task) == 1
  {
    assert Aligned(n)[task + 1] == TaskHandle(task);
    NoDupCount(Aligned(n), TaskHandle(task));
  }

  /**
   Under swap removal every task keeps exactly one live future in every run if and only if there are at
   most two tasks.
   */
  lemma SwapKeepsEveryTaskIff(n: nat)
    ensures (forall ends, task: nat :: Endings(n, ends) && task < n ==> Live(After(n, ends, Swap), task) == 1)
            <==> n <= 2
  {
    if n <= 2 {
      forall ends, task: nat | Endings(n, ends) && task < n
        ensures Live(After(n, ends, Swap), task) == 1
      {
        SwapStaysAligned(n, ends);
        AlignedLive(n, task);
      }
    } else {
      LosesATask(n);
    }
  }
}
