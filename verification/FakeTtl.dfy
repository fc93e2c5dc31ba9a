/**
 Which cached records of the `Fake` provider can still expire, and when. The documented promise is that a
 record is deleted when its ttl is over. It fails in two ways: the worker loses the ticket it is waiting on
 whenever another branch of its `select!` wins, and its heap hands out the latest deadline first.
 */
module FakeTtl {
  import opened Net
  import opened FakeProvider
  import opened FakeLaws
  import opened FakeExpiry

  /** The worker waits on this ticket, and its cache is locked by a create that cannot send. */
  predicate Blocked(s: State, t: DnsRecord) {
    FamilyOf(t.ip) in s.held && |s.worker.channel| >= CAPACITY
  }

  predicate Waiting(s: State, t: DnsRecord) {
    !s.worker.hand.Free? && s.worker.hand.ticket == t
  }

  /** The worker lives and the ticket is in line, or in its hand and not blocked. */
  ghost predicate CanStillFire(s: State, t: DnsRecord) {
    s.worker.alive && (InLine(s, t) || (Waiting(s, t) && !Blocked(s, t)))
  }

  /** Some continuation, within the 2^32 creates, ends where the worker may remove the ticket's record. */
  ghost predicate MayFire(s: State, t: DnsRecord) {
    exists steps, m :: FiresAfter(s, t, steps, m)
  }

  ghost predicate FiresAfter(s: State, t: DnsRecord, steps: seq<Step>, m: State) {
    Path(s, steps, m) && m.past.issued <= U32_SIZE && m.CanFire() && m.worker.hand.ticket == t
  }

  /** Nobody starts a create. */
  ghost predicate NoCreate(steps: seq<Step>) {
    forall i :: 0 <= i < |steps| ==> !steps[i].FetchAdd?
  }

  // ---- a ticket that cannot fire never will ----

  /** The ticket exists, and it cannot fire any more. */
  ghost predicate Doomed(s: State, t: DnsRecord) {
    t.id in s.past.born && !CanStillFire(s, t)
  }

  lemma DoomedByCreate(s: State, step: Step, t: DnsRecord)
    requires Reserved(s) && LockInv(s) && Doomed(s, t) && Enabled(s, step)
    requires step.FetchAdd? || step.Insert? || step.Send? || step.SendError?
    ensures Doomed(Apply(s, step), t)
  {
    var s' := Apply(s, step);
    if s.worker.alive {
      match step
      case FetchAdd(pid, ip, ttl) =>
        assert forall p :: IsSending(s', p) ==> IsSending(s, p) && s'.creators[p] == s.creators[p];
      case Insert(pid) =>
        assert s.creators[pid].id !in s.past.born;
        assert forall p :: IsSending(s', p) ==>
            s'.creators[p].ticket.id == s.creators[pid].id || (IsSending(s, p) && s'.creators[p] == s.creators[p]);
      case Send(pid) =>
        assert IsSending(s, pid) && s.creators[pid].ticket != t;
        assert forall p :: IsSending(s', p) ==> IsSending(s, p) && s'.creators[p] == s.creators[p];
      case SendError(pid) =>
    }
  }

  lemma DoomedByWorker(s: State, step: Step, t: DnsRecord)
    requires Doomed(s, t) && Enabled(s, step)
    requires step.Pop? || step.Queue? || step.Fire? || step.Receive? || step.Exit?
    ensures Doomed(Apply(s, step), t)
  {
    var s' := Apply(s, step);
    assert forall p :: IsSending(s', p) == IsSending(s, p);
    if step.Receive? {
      assert s.worker.channel == [s.worker.channel[0]] + s.worker.channel[1..];
    }
  }

  lemma DoomedStep(s: State, step: Step, t: DnsRecord)
    requires Reserved(s) && LockInv(s) && Doomed(s, t) && Enabled(s, step)
    ensures Doomed(Apply(s, step), t)
  {
    if step.FetchAdd? || step.Insert? || step.Send? || step.SendError? {
      DoomedByCreate(s, step, t);
    } else if step.Pop? || step.Queue? || step.Fire? || step.Receive? || step.Exit? {
      DoomedByWorker(s, step, t);
    } else {
      var s' := Apply(s, step);
      WorkerFrame(s, step);
      CallersFrame(s, step);
      HistoryFrame(s, step);
      assert forall p :: IsSending(s', p) == IsSending(s, p);
    }
  }

  lemma {:induction false} DoomedForever(s: State, t: DnsRecord, steps: seq<Step>, m: State)
    requires Plumbing(s) && IdInv(s) && Doomed(s, t)
    requires Path(s, steps, m) && m.past.issued <= U32_SIZE
    ensures Doomed(m, t)
    decreases |steps|
  {
    if steps != [] {
      var s' := Apply(s, steps[0]);
      PathIssued(s', steps[1..], m);
      PlumbingStep(s, steps[0]);
      IdInvStep(s, steps[0]);
      DoomedStep(s, steps[0], t);
      DoomedForever(s', t, steps[1..], m);
    }
  }

  lemma {:induction false} PathIssued(s: State, steps: seq<Step>, m: State)
    requires Path(s, steps, m)
    ensures s.past.issued <= m.past.issued
    decreases |steps|
  {
    if steps != [] {
      PathIssued(Apply(s, steps[0]), steps[1..], m);
    }
  }

  // ---- a ticket that can fire has a run in which it does ----

  lemma ReachFire(s: State, t: DnsRecord, steps: seq<Step>, m: State, more: seq<Step>, m': State)
    requires Path(s, steps, m) && FiresAfter(m, t, more, m')
    ensures FiresAfter(s, t, steps + more, m')
  {
    PathJoin(s, steps, m, more, m');
  }

  /** The worker holds the ticket and its cache is free: the clock is all that is missing. */
  lemma FireByWaiting(s: State, t: DnsRecord) returns (steps: seq<Step>, m: State)
    requires s.worker.alive && Waiting(s, t) && FamilyOf(t.ip) !in s.held && s.past.issued <= U32_SIZE
    ensures FiresAfter(s, t, steps, m) && NoCreate(steps)
    ensures m == s.(clock := Max(s.clock, t.deadline))
  {
    var wait := Max(s.clock, t.deadline) - s.clock;
    PathOne(s, Tick(wait));
    steps, m := [Tick(wait)], s.(clock := s.clock + wait);
  }

  /** The whole heap can be worked off, latest deadline first, until the ticket's turn. */
  lemma {:induction false} FireFromHeap(s: State, t: DnsRecord) returns (steps: seq<Step>, m: State)
    requires s.worker.alive && s.held == {} && s.past.issued <= U32_SIZE
    requires s.worker.hand.Free? && t in s.worker.ttlHeap
    ensures FiresAfter(s, t, steps, m) && NoCreate(steps)
    ensures (forall u :: u in s.worker.ttlHeap ==> u.deadline <= s.clock) ==> m.clock == s.clock
    decreases |s.worker.ttlHeap|
  {
    var u := Top(s.worker.ttlHeap, t);
    var a := s.AfterPop(u);
    PathOne(s, Pop(u));
    var wait, b := FireByWaiting(a, u);
    if u == t {
      ReachFire(s, t, [Pop(u)], a, wait, b);
      steps, m := [Pop(u)] + wait, b;
    } else {
      PathOne(b, Fire);
      var more;
      more, m := FireFromHeap(b.AfterFire(), t);
      ReachFire(b, t, [Fire], b.AfterFire(), more, m);
      ReachFire(a, t, wait, b, [Fire] + more, m);
      ReachFire(s, t, [Pop(u)], a, wait + ([Fire] + more), m);
      steps := [Pop(u)] + (wait + ([Fire] + more));
    }
  }

  /** With no creates in flight the channel can be emptied into the heap. */
  lemma {:induction false} FireFromChannel(s: State, t: DnsRecord) returns (steps: seq<Step>, m: State)
    requires s.worker.alive && s.creators == map[] && s.held == {} && s.past.issued <= U32_SIZE
    requires InLine(s, t)
    ensures FiresAfter(s, t, steps, m)
    decreases |s.worker.channel|
  {
    if s.worker.channel != [] {
      PathOne(s, Receive);
      ReceiveIsCalm(s);
      var a := s.AfterReceive();
      var more;
      more, m := FireFromChannel(a, t);
      ReachFire(s, t, [Receive], a, more, m);
      steps := [Receive] + more;
    } else if s.worker.hand.Free? {
      steps, m := FireFromHeap(s, t);
    } else {
      var wait, b := FireByWaiting(s, s.worker.hand.ticket);
      PathOne(b, Fire);
      var more;
      more, m := FireFromHeap(b.AfterFire(), t);
      ReachFire(b, t, [Fire], b.AfterFire(), more, m);
      ReachFire(s, t, wait, b, [Fire] + more, m);
      steps := wait + ([Fire] + more);
    }
  }

  lemma StillFires(s: State, t: DnsRecord) returns (steps: seq<Step>, m: State)
    requires Plumbing(s) && s.past.issued <= U32_SIZE && CanStillFire(s, t)
    ensures FiresAfter(s, t, steps, m)
  {
    if InLine(s, t) {
      var first, a := CallersFinish(s);
      PathKeeps(s, first, a);
      assert forall p, f :: !Holds(a, p, f);
      assert a.held == {};
      var more;
      more, m := FireFromChannel(a, t);
      ReachFire(s, t, first, a, more, m);
      steps := first + more;
    } else if FamilyOf(t.ip) !in s.held {
      steps, m := FireByWaiting(s, t);
    } else {
      var p :| Holds(s, p, FamilyOf(t.ip));
      PathOne(s, Send(p));
      var more;
      more, m := FireByWaiting(s.AfterSend(p), t);
      ReachFire(s, t, [Send(p)], s.AfterSend(p), more, m);
      steps := [Send(p)] + more;
    }
  }

  /**
   The exact condition for a ticket of a created record to be still able to remove it, in every reachable
   state: the worker lives and the ticket is in line or in its hand, not blocked behind a full channel.
   */
  lemma MayFireIff(states: seq<State>, steps: seq<Step>, i: nat, t: DnsRecord)
    requires Execution(states, steps) && i < |states| && states[i].past.issued <= U32_SIZE
    requires t.id in states[i].past.born
    ensures MayFire(states[i], t) <==> CanStillFire(states[i], t)
  {
    var s := states[i];
    AlwaysConserved(states, steps, i);
    AlwaysIdentified(states, steps, i);
    if CanStillFire(s, t) {
      var more, m := StillFires(s, t);
    } else if MayFire(s, t) {
      var more, m :| FiresAfter(s, t, more, m);
      DoomedForever(s, t, more, m);
      PathKeeps(s, more, m);
    }
  }

  /** A dropped ticket never fires again, so its record outlives its deadline unless it is deleted by hand. */
  lemma DroppedNeverFires(states: seq<State>, steps: seq<Step>, i: nat, t: DnsRecord)
    requires Execution(states, steps) && i < |states| && states[i].past.issued <= U32_SIZE
    requires t in states[i].past.dropped
    ensures !MayFire(states[i], t)
  {
    var s := states[i];
    OnePlacePerTicket(states, steps, i, t);
    AlwaysConserved(states, steps, i);
    AlwaysIdentified(states, steps, i);
    MayFireIff(states, steps, i, t);
    assert s.past.dropped[t] >= 1 && Places(s, t) <= 1;
  }

  // ---- when a ticket can fire ----

  /** The ticket the worker waits on is due no earlier than any it left in the heap. */
  ghost predicate LatestFirst(s: State) {
    !s.worker.hand.Free? ==> forall u :: u in s.worker.ttlHeap ==> u.deadline <= s.worker.hand.ticket.deadline
  }

  /**
   The heap turns the order of expiry around, in every run: the worker waits on a latest deadline, so
   whenever a ticket fires all that are left in the heap are due as well.
   */
  lemma {:induction false} AlwaysLatestFirst(states: seq<State>, steps: seq<Step>, i: nat)
    requires Execution(states, steps) && i < |states|
    ensures LatestFirst(states[i])
    ensures i < |steps| && steps[i] == Fire ==>
              forall u :: u in states[i].worker.ttlHeap ==> u.deadline <= states[i].clock
  {
    if i > 0 {
      AlwaysLatestFirst(states, steps, i - 1);
      assert Follows(states, steps, i - 1);
    }
    if i < |steps| {
      assert Follows(states, steps, i);
    }
  }

  /** No create is in flight and every ticket has reached the worker. */
  predicate Settled(s: State) {
    s.worker.alive && s.creators == map[] && s.worker.channel == []
  }

  /** The worker has the ticket in its hand or in its heap. */
  predicate WithWorker(s: State, t: DnsRecord) {
    Waiting(s, t) || t in s.worker.ttlHeap
  }

  /** Without further creates, the record of this ticket can be removed when the clock shows `time`. */
  ghost predicate CanExpireAt(s: State, t: DnsRecord, time: nat) {
    exists steps, m :: ExpiresAt(s, t, time, steps, m)
  }

  ghost predicate ExpiresAt(s: State, t: DnsRecord, time: nat, steps: seq<Step>, m: State) {
    FiresAfter(s, t, steps, m) && NoCreate(steps) && m.clock == time
  }

  /** Nothing can fire before the ticket `u`, or it is `u`'s time already. */
  ghost predicate Behind(s: State, u: DnsRecord) {
    && s.creators == map[] && s.worker.channel == []
    && (s.worker.alive && s.clock < u.deadline ==>
          if s.worker.hand.Free? then u in s.worker.ttlHeap else u.deadline <= s.worker.hand.ticket.deadline)
  }

  lemma BehindStep(s: State, step: Step, u: DnsRecord)
    requires Behind(s, u) && Enabled(s, step) && !step.FetchAdd?
    ensures Behind(Apply(s, step), u) && s.clock <= Apply(s, step).clock
  {
    if !step.Insert? && !step.Send? && !step.SendError? {
      CallersFrame(s, step);
      if !MovesTickets(step) {
        WorkerFrame(s, step);
      }
    }
  }

  lemma {:induction false} BehindForever(s: State, u: DnsRecord, steps: seq<Step>, m: State)
    requires Behind(s, u) && Path(s, steps, m) && NoCreate(steps)
    ensures Behind(m, u) && s.clock <= m.clock
    decreases |steps|
  {
    if steps != [] {
      BehindStep(s, steps[0], u);
      BehindForever(Apply(s, steps[0]), u, steps[1..], m);
    }
  }

  /** From the latest deadline on the worker can get to any of its tickets without the clock moving. */
  lemma WorkOff(s: State, t: DnsRecord, time: nat) returns (steps: seq<Step>, m: State)
    requires Settled(s) && s.held == {} && s.past.issued <= U32_SIZE && WithWorker(s, t)
    requires s.clock <= time && forall u :: WithWorker(s, u) ==> u.deadline <= time
    ensures ExpiresAt(s, t, time, steps, m)
  {
    var a := s.(clock := time);
    PathOne(s, Tick(time - s.clock));
    var more;
    if Waiting(s, t) {
      more, m := FireByWaiting(a, t);
    } else if s.worker.hand.Free? {
      assert forall u :: u in a.worker.ttlHeap ==> WithWorker(s, u);
      more, m := FireFromHeap(a, t);
    } else {
      assert WithWorker(s, s.worker.hand.ticket);
      assert forall u :: u in a.worker.ttlHeap ==> WithWorker(s, u);
      PathOne(a, Fire);
      more, m := FireFromHeap(a.AfterFire(), t);
      ReachFire(a, t, [Fire], a.AfterFire(), more, m);
      more := [Fire] + more;
    }
    ReachFire(s, t, [Tick(time - s.clock)], a, more, m);
    steps := [Tick(time - s.clock)] + more;
  }

  /**
   When a record can expire, exactly, in every reachable state with no create in flight and all tickets with
   the worker: at every time from now on that is past the deadlines of all its tickets, and at no other.
   */
  lemma ExpiresWhenAllAreDue(states: seq<State>, steps: seq<Step>, i: nat, t: DnsRecord, time: nat)
    requires Execution(states, steps) && i < |states| && states[i].past.issued <= U32_SIZE
    requires Settled(states[i]) && WithWorker(states[i], t)
    ensures CanExpireAt(states[i], t, time) <==>
            states[i].clock <= time && forall u :: WithWorker(states[i], u) ==> u.deadline <= time
  {
    var s := states[i];
    AlwaysConserved(states, steps, i);
    AlwaysLatestFirst(states, steps, i);
    assert s.held == {} by {
      assert forall p, f :: !Holds(s, p, f);
    }
    if s.clock <= time && forall u :: WithWorker(s, u) ==> u.deadline <= time {
      var more, m := WorkOff(s, t, time);
    } else if CanExpireAt(s, t, time) {
      var more, m :| ExpiresAt(s, t, time, more, m);
      var u := LastDue(s, t);
      BehindForever(s, u, more, m);
    }
  }

  /** A ticket with the latest deadline of all the worker has. */
  lemma LastDue(s: State, t: DnsRecord) returns (u: DnsRecord)
    requires LatestFirst(s) && WithWorker(s, t)
    ensures WithWorker(s, u) && forall v :: WithWorker(s, v) ==> v.deadline <= u.deadline
    ensures s.creators == map[] && s.worker.channel == [] ==> Behind(s, u)
  {
    if s.worker.hand.Free? {
      u := Top(s.worker.ttlHeap, t);
    } else {
      u := s.worker.hand.ticket;
    }
  }

  /** The ttl is kept for a ticket not yet due if and only if the worker has no ticket with a later deadline. */
  lemma OnTimeIff(states: seq<State>, steps: seq<Step>, i: nat, t: DnsRecord)
    requires Execution(states, steps) && i < |states| && states[i].past.issued <= U32_SIZE
    requires Settled(states[i]) && WithWorker(states[i], t) && states[i].clock <= t.deadline
    ensures CanExpireAt(states[i], t, t.deadline) <==>
            forall u :: WithWorker(states[i], u) ==> u.deadline <= t.deadline
  {
    ExpiresWhenAllAreDue(states, steps, i, t, t.deadline);
  }

  lemma Extend(states: seq<State>, steps: seq<Step>, step: Step) returns (states': seq<State>)
    requires Execution(states, steps) && Enabled(states[|steps|], step)
    ensures Execution(states', steps + [step])
    ensures states' == states + [Apply(states[|steps|], step)]
  {
    states' := states + [Apply(states[|steps|], step)];
    forall i | 0 <= i < |steps + [step]|
      ensures Follows(states', steps + [step], i)
    {
      if i < |steps| {
        assert Follows(states, steps, i);
      }
    }
  }

  /** A create from start to end while the worker lives and the channel has room. */
  lemma CreateRun(states: seq<State>, steps: seq<Step>, pid: nat, ip: IpAddr, ttl: nat)
    returns (states': seq<State>, steps': seq<Step>)
    requires Execution(states, steps)
    requires var s := states[|steps|];
             pid !in s.creators && s.held == {} && s.worker.alive && |s.worker.channel| < CAPACITY
    ensures Execution(states', steps')
    ensures var s, s' := states[|steps|], states'[|steps'|];
            var r := DnsRecord(s.idIndex, ip, ttl, s.clock + ttl);
            && s'.CacheOf(FamilyOf(ip)) == s.CacheOf(FamilyOf(ip))[r.id := r]
            && s'.worker == s.worker.(channel := s.worker.channel + [r]) && s'.held == {} && s'.creators == s.creators
            && s'.idIndex == (s.idIndex + 1) % U32_SIZE && s'.clock == s.clock
            && s'.past.(born := s.past.born, issued := s.past.issued, sent := s.past.sent) == s.past
            && s'.past.issued == s.past.issued + 1 && r.id in s'.past.born
  {
    states' := Extend(states, steps, FetchAdd(pid, ip, ttl));
    steps' := steps + [FetchAdd(pid, ip, ttl)];
    states' := Extend(states', steps', Insert(pid));
    steps' := steps' + [Insert(pid)];
    states' := Extend(states', steps', Send(pid));
    steps' := steps' + [Send(pid)];
  }

  /** One create, its ticket received. */
  lemma FirstReceived(t: DnsRecord) returns (states: seq<State>, steps: seq<Step>)
    requires t == DnsRecord(1, Ipv4(1), 5, 5)
    ensures Execution(states, steps)
    ensures var s := states[|steps|];
            && s.ipv4Cache == map[1 := t] && s.worker == Worker([], multiset{t}, Free, true) && s.held == {}
            && s.creators == map[] && s.clock == 0 && s.idIndex == 2 && s.past.issued == 1
            && s.past.dropped == multiset{}
  {
    states, steps := [INIT], [];
    states, steps := CreateRun(states, steps, 1, Ipv4(1), 5);
    states := Extend(states, steps, Receive);
    steps := steps + [Receive];
    assert states[|steps|].worker.ttlHeap == multiset{t};
  }

  /** Its ticket popped: the worker sleeps on it. */
  lemma SleepingOnFirst(t: DnsRecord) returns (states: seq<State>, steps: seq<Step>)
    requires t == DnsRecord(1, Ipv4(1), 5, 5)
    ensures Execution(states, steps)
    ensures var s := states[|steps|];
            && s.ipv4Cache == map[1 := t] && s.worker == Worker([], multiset{}, Sleeping(t), true)
            && s.held == {} && s.creators == map[] && s.clock == 0 && s.idIndex == 2 && s.past.issued == 1
  {
    states, steps := FirstReceived(t);
    states := Extend(states, steps, Pop(t));
    steps := steps + [Pop(t)];
    assert states[|steps|].worker.ttlHeap == multiset{};
  }

  /** A second create three seconds later, received. */
  lemma BothReceived(a: DnsRecord, b: DnsRecord) returns (states: seq<State>, steps: seq<Step>)
    requires a == DnsRecord(1, Ipv4(1), 5, 5) && b == DnsRecord(2, Ipv4(2), 5, 8)
    ensures Execution(states, steps)
    ensures var s := states[|steps|];
            && s.ipv4Cache == map[1 := a, 2 := b] && s.worker == Worker([], multiset{a, b}, Free, true)
            && s.creators == map[] && s.clock == 3 && s.past.issued == 2 && s.past.dropped == multiset{}
  {
    states, steps := FirstReceived(a);
    states := Extend(states, steps, Tick(3));
    steps := steps + [Tick(3)];
    states, steps := CreateRun(states, steps, 2, Ipv4(2), 5);
    states := Extend(states, steps, Receive);
    steps := steps + [Receive];
    assert states[|steps|].worker.ttlHeap == multiset{a, b};
  }

  /**
   The promise fails in a run of two creates: the second ticket arrives while the worker sleeps on the first,
   which is lost. The first record is past its deadline, still cached, and no continuation lets it expire.
   */
  lemma TtlPromiseFails() returns (states: seq<State>, steps: seq<Step>)
    ensures Execution(states, steps) && states[|steps|].past.issued == 2
    ensures var s := states[|steps|];
            1 in s.ipv4Cache && s.ipv4Cache[1].deadline < s.clock && !MayFire(s, s.ipv4Cache[1])
  {
    var t := DnsRecord(1, Ipv4(1), 5, 5);
    states, steps := SleepingOnFirst(t);
    states, steps := CreateRun(states, steps, 2, Ipv4(2), 5);
    states := Extend(states, steps, Receive);
    steps := steps + [Receive];
    assert t in states[|steps|].past.dropped;
    states := Extend(states, steps, Tick(6));
    steps := steps + [Tick(6)];
    DroppedNeverFires(states, steps, |steps|, t);
  }

  /**
   It also fails while every ticket is with the worker and none was lost: of two records created three seconds
   apart with the same ttl, the first is past its deadline and cannot expire before the second is due.
   */
  lemma TtlPromiseFailsInOrder() returns (states: seq<State>, steps: seq<Step>, a: DnsRecord, b: DnsRecord)
    ensures Execution(states, steps) && a.ttl == b.ttl && a.deadline < b.deadline
    ensures var s := Last(states);
            && s.past.dropped == multiset{} && Settled(s)
            && a.id in s.ipv4Cache && s.ipv4Cache[a.id] == a && a.deadline < s.clock
            && forall time :: CanExpireAt(s, a, time) <==> b.deadline <= time
  {
    a, b := DnsRecord(1, Ipv4(1), 5, 5), DnsRecord(2, Ipv4(2), 5, 8);
    states, steps := BothReceived(a, b);
    states := Extend(states, steps, Pop(b));
    steps := steps + [Pop(b)];
    assert states[|steps|].worker.ttlHeap == multiset{a};
    states := Extend(states, steps, Tick(4));
    steps := steps + [Tick(4)];
    var s := states[|steps|];
    assert WithWorker(s, b);
    forall time
      ensures CanExpireAt(s, a, time) <==> b.deadline <= time
    {
      ExpiresWhenAllAreDue(states, steps, |steps|, a, time);
    }
  }
}
