/** When the `Fake` provider's worker may remove a record, and when it never will. */
module FakeExpiry {
  import opened Net
  import opened FakeProvider
  import opened FakeLaws

  // ---- tickets ----

  /** Every ticket sent is in exactly one place, every ticket in a place was sent, and is a record as created. */
  lemma OnePlacePerTicket(states: seq<State>, steps: seq<Step>, i: nat, t: DnsRecord)
    requires Execution(states, steps) && i < |states| && states[i].past.issued <= U32_SIZE
    ensures Places(states[i], t) == (if t in states[i].past.sent then 1 else 0)
    ensures Places(states[i], t) > 0 ==> Genuine(states[i], t)
    ensures t in states[i].past.fired ==> Genuine(states[i], t)
    ensures |states[i].worker.channel| <= CAPACITY
  {
    AlwaysConserved(states, steps, i);
    AlwaysIdentified(states, steps, i);
  }

  // ---- safety ----

  /**
   Expiry safety: a firing ticket that finds a record under its id finds the very record its create
   inserted, unchanged in deadline, and the deadline has passed.
   */
  lemma FireIsSafe(states: seq<State>, steps: seq<Step>, i: nat)
    requires Execution(states, steps) && i < |steps| && states[i].past.issued <= U32_SIZE
    requires steps[i] == Fire
    ensures !states[i].worker.hand.Free?
    ensures var s, t := states[i], states[i].worker.hand.ticket;
            && Genuine(s, t)
            && (t.id in s.CacheOf(FamilyOf(t.ip)) ==>
                  s.CacheOf(FamilyOf(t.ip))[t.id].deadline == t.deadline <= s.clock)
            && t.id !in s.CacheOf(Other(FamilyOf(t.ip)))
  {
    assert Follows(states, steps, i);
    var s := states[i];
    var t := s.worker.hand.ticket;
    AlwaysConserved(states, steps, i);
    AlwaysIdentified(states, steps, i);
    assert s.worker.InHand()[t] == 1;
    assert Places(s, t) > 0 && t in s.past.sent;
    assert forall f :: t.id in s.CacheOf(f) ==> CachedAsBorn(s, f, t.id);
  }

  /** A record leaves its cache only by a delete of its id or by the worker at or after its deadline. */
  lemma OnlyDeleteOrExpiry(states: seq<State>, steps: seq<Step>, i: nat, f: Family, id: nat)
    requires Execution(states, steps) && i < |steps| && states[i].past.issued <= U32_SIZE
    requires id in states[i].CacheOf(f) && id !in states[i + 1].CacheOf(f)
    ensures || (steps[i].Delete? && steps[i].id == id && FamilyOf(steps[i].ip) == f)
            || (steps[i] == Fire && states[i].CacheOf(f)[id].deadline <= states[i].clock)
  {
    var s, step := states[i], steps[i];
    assert Follows(states, steps, i);
    if !step.Insert? && !step.Update? && !step.Delete? && !step.Fire? {
      CachesFrame(s, step);
    } else if step.Fire? {
      FireIsSafe(states, steps, i);
    }
  }

  lemma DeadlineStep(s: State, step: Step, f: Family, id: nat)
    requires Reserved(s) && CacheInv(s, f) && Enabled(s, step)
    requires id in s.CacheOf(f) && id in Apply(s, step).CacheOf(f)
    ensures Apply(s, step).CacheOf(f)[id].deadline == s.CacheOf(f)[id].deadline
    ensures Apply(s, step).CacheOf(f)[id].ttl == s.CacheOf(f)[id].ttl
  {
    if step.Insert? {
      assert CachedAsBorn(s, f, id);
    } else if !step.Update? && !step.Delete? && !step.Fire? {
      CachesFrame(s, step);
    }
  }

  /** Nothing moves a record's deadline or ttl while it stays cached. */
  lemma DeadlineNeverMoves(states: seq<State>, steps: seq<Step>, i: nat, f: Family, id: nat)
    requires Execution(states, steps) && i < |steps| && states[i + 1].past.issued <= U32_SIZE
    requires id in states[i].CacheOf(f) && id in states[i + 1].CacheOf(f)
    ensures states[i + 1].CacheOf(f)[id].deadline == states[i].CacheOf(f)[id].deadline
    ensures states[i + 1].CacheOf(f)[id].ttl == states[i].CacheOf(f)[id].ttl
  {
    IssuedGrows(states, steps, i, i + 1);
    AlwaysIdentified(states, steps, i);
    assert Follows(states, steps, i);
    DeadlineStep(states[i], steps[i], f, id);
  }

  /** The record was created and is in no cache any more. */
  predicate Gone(s: State, id: nat) {
    id in s.past.born && id !in s.ipv4Cache && id !in s.ipv6Cache
  }

  lemma GoneStep(s: State, step: Step, id: nat)
    requires Reserved(s) && Enabled(s, step) && Gone(s, id)
    ensures Gone(Apply(s, step), id)
  {
    HistoryFrame(s, step);
    if !step.Insert? && !step.Update? && !step.Delete? && !step.Fire? {
      CachesFrame(s, step);
    }
  }

  lemma ReservedAt(states: seq<State>, steps: seq<Step>, i: nat)
    requires Execution(states, steps) && i < |states| && states[i].past.issued <= U32_SIZE
    ensures Reserved(states[i])
  {
    AlwaysIdentified(states, steps, i);
  }

  /** Once its worker is gone the provider never removes a record by itself again. */
  lemma {:induction false} NoExpiryWithoutWorker(states: seq<State>, steps: seq<Step>, i: nat, j: nat)
    requires Execution(states, steps) && i <= j < |states| && !states[i].worker.alive
    ensures !states[j].worker.alive && (j < |steps| ==> steps[j] != Fire)
  {
    if i < j {
      NoExpiryWithoutWorker(states, steps, i, j - 1);
      assert Follows(states, steps, j - 1);
      if !MovesTickets(steps[j - 1]) {
        WorkerFrame(states[j - 1], steps[j - 1]);
      }
    }
    if j < |steps| {
      assert Follows(states, steps, j);
    }
  }

  /** A record that is gone stays gone: its id is never given to another. */
  lemma {:induction false} NeverReturns(states: seq<State>, steps: seq<Step>, i: nat, j: nat, id: nat)
    requires Execution(states, steps) && i <= j < |states| && states[j].past.issued <= U32_SIZE
    requires Gone(states[i], id)
    ensures Gone(states[j], id)
  {
    if i < j {
      IssuedGrows(states, steps, j - 1, j);
      assert Follows(states, steps, j - 1);
      NeverReturns(states, steps, i, j - 1, id);
      ReservedAt(states, steps, j - 1);
      GoneStep(states[j - 1], steps[j - 1], id);
    }
  }

  // ---- the provider never wedges ----

  /** Carrying out `steps` in order leads from `s` to `s'`. */
  ghost predicate Path(s: State, steps: seq<Step>, s': State)
    decreases |steps|
  {
    if steps == [] then s == s'
    else Enabled(s, steps[0]) && Path(Apply(s, steps[0]), steps[1..], s')
  }

  lemma {:induction false} PathJoin(s: State, a: seq<Step>, m: State, b: seq<Step>, s': State)
    requires Path(s, a, m) && Path(m, b, s')
    ensures Path(s, a + b, s')
    decreases |a|
  {
    if a == [] {
      assert a + b == b;
    } else {
      PathJoin(Apply(s, a[0]), a[1..], m, b, s');
      assert (a + b)[1..] == a[1..] + b;
    }
  }

  lemma PathOne(s: State, step: Step)
    requires Enabled(s, step)
    ensures Path(s, [step], Apply(s, step))
  {
    assert Path(Apply(s, step), [step][1..], Apply(s, step));
  }

  /** A shutdown ends the worker in any state, at once, and leaves the records and the creates in flight. */
  lemma WorkerCanEnd(s: State) returns (s': State)
    requires s.worker.alive
    ensures Path(s, [RequestShutdown, Exit], s') && !s'.worker.alive
    ensures s'.ipv4Cache == s.ipv4Cache && s'.ipv6Cache == s.ipv6Cache && s'.creators == s.creators
  {
    var m := Apply(s, RequestShutdown);
    s' := Apply(m, Exit);
    PathOne(s, RequestShutdown);
    PathOne(m, Exit);
    PathJoin(s, [RequestShutdown], m, [Exit], s');
    assert [RequestShutdown] + [Exit] == [RequestShutdown, Exit];
  }

  lemma {:induction false} PathKeeps(s: State, steps: seq<Step>, s': State)
    requires Path(s, steps, s') && Plumbing(s)
    ensures Plumbing(s')
    decreases |steps|
  {
    if steps != [] {
      PlumbingStep(s, steps[0]);
      PathKeeps(Apply(s, steps[0]), steps[1..], s');
    }
  }

  /** The ticket is with a creator about to send it, in the channel or in the heap. */
  ghost predicate InLine(s: State, t: DnsRecord) {
    (exists p :: IsSending(s, p) && s.creators[p].ticket == t) || t in s.worker.channel || t in s.worker.ttlHeap
  }

  /** `s'` is later than `s`, no create was started in between, the worker still lives and no ticket left the line. */
  ghost predicate Calmer(s: State, s': State) {
    && s'.past.issued == s.past.issued && s'.worker.alive == s.worker.alive
    && (s.worker.alive ==> forall t :: InLine(s, t) ==> InLine(s', t))
  }

  lemma SendIsCalm(s: State, pid: nat)
    requires s.CanSend(pid)
    ensures Calmer(s, s.AfterSend(pid))
  {
    var s' := s.AfterSend(pid);
    forall t | InLine(s, t)
      ensures InLine(s', t)
    {
      if t !in s.worker.channel && t !in s.worker.ttlHeap {
        var p :| IsSending(s, p) && s.creators[p].ticket == t;
        if p == pid {
          assert s'.worker.channel[|s.worker.channel|] == t;
        } else {
          assert IsSending(s', p) && s'.creators[p].ticket == t;
        }
      }
    }
  }

  lemma ReceiveIsCalm(s: State)
    requires s.CanReceive()
    ensures Calmer(s, s.AfterReceive())
    ensures forall p :: IsSending(s.AfterReceive(), p) == IsSending(s, p)
  {
    var s' := s.AfterReceive();
    forall t | InLine(s, t)
      ensures InLine(s', t)
    {
      if t in s.worker.channel {
        assert s.worker.channel == [s.worker.channel[0]] + s.worker.channel[1..];
      } else if t !in s.worker.ttlHeap {
        var p :| IsSending(s, p) && s.creators[p].ticket == t;
        assert IsSending(s', p) && s'.creators[p].ticket == t;
      }
    }
  }

  /**
   A create that holds a lock and has its ticket to send is never stuck, even with the channel full and
   the worker waiting for that lock: one receive at most stands before its send, and without a worker
   the send fails at once.
   */
  lemma SenderFinishes(s: State, pid: nat) returns (steps: seq<Step>, s': State)
    requires IsSending(s, pid) && Plumbing(s)
    ensures Path(s, steps, s') && |steps| <= 2
    ensures s'.creators == s.creators - {pid} && Calmer(s, s')
  {
    if !s.worker.alive {
      PathOne(s, SendError(pid));
      steps, s' := [SendError(pid)], s.AfterSendError(pid);
    } else if |s.worker.channel| < CAPACITY {
      PathOne(s, Send(pid));
      SendIsCalm(s, pid);
      steps, s' := [Send(pid)], s.AfterSend(pid);
    } else {
      var m := s.AfterReceive();
      ReceiveIsCalm(s);
      PathOne(s, Receive);
      PathOne(m, Send(pid));
      SendIsCalm(m, pid);
      PathJoin(s, [Receive], m, [Send(pid)], m.AfterSend(pid));
      steps, s' := [Receive] + [Send(pid)], m.AfterSend(pid);
    }
  }

  lemma InsertIsCalm(s: State, pid: nat)
    requires s.CanInsert(pid)
    ensures Calmer(s, s.AfterInsert(pid)) && IsSending(s.AfterInsert(pid), pid)
    ensures s.AfterInsert(pid).creators.Keys == s.creators.Keys
  {
    var s' := s.AfterInsert(pid);
    forall t | InLine(s, t)
      ensures InLine(s', t)
    {
      if t !in s.worker.channel && t !in s.worker.ttlHeap {
        var p :| IsSending(s, p) && s.creators[p].ticket == t;
        assert IsSending(s', p) && s'.creators[p].ticket == t;
      }
    }
  }

  /** One more caller can always be brought to its end, from any state with callers in flight. */
  lemma SomeCallerFinishes(s: State) returns (steps: seq<Step>, s': State)
    requires Plumbing(s) && s.creators != map[]
    ensures Path(s, steps, s') && |steps| <= 3
    ensures |s'.creators| == |s.creators| - 1 && Calmer(s, s')
  {
    if p :| IsSending(s, p) {
      steps, s' := SenderFinishes(s, p);
    } else {
      var pid :| pid in s.creators;
      assert forall f :: f in s.held ==> exists p :: Holds(s, p, f);
      assert !IsSending(s, pid);
      var m := s.AfterInsert(pid);
      InsertIsCalm(s, pid);
      PathOne(s, Insert(pid));
      PathKeeps(s, [Insert(pid)], m);
      assert |m.creators.Keys| == |s.creators.Keys|;
      var more: seq<Step>;
      more, s' := SenderFinishes(m, pid);
      PathJoin(s, [Insert(pid)], m, more, s');
      steps := [Insert(pid)] + more;
    }
  }

  /**
   The provider never wedges: from every state a run can be in, all creates in flight can be finished, each
   within three steps, without the clock moving and without anyone else's help than the worker's receives.
   */
  lemma {:induction false} CallersFinish(s: State) returns (steps: seq<Step>, s': State)
    requires Plumbing(s)
    ensures Path(s, steps, s') && |steps| <= 3 * |s.creators|
    ensures s'.creators == map[] && Calmer(s, s')
    decreases |s.creators|
  {
    if s.creators == map[] {
      steps, s' := [], s;
    } else {
      var first, m := SomeCallerFinishes(s);
      PathKeeps(s, first, m);
      var rest: seq<Step>;
      rest, s' := CallersFinish(m);
      PathJoin(s, first, m, rest, s');
      steps := first + rest;
    }
  }

  lemma NeverWedged(states: seq<State>, steps: seq<Step>, i: nat) returns (more: seq<Step>, s': State)
    requires Execution(states, steps) && i < |states|
    ensures Path(states[i], more, s') && |more| <= 3 * |states[i].creators| && s'.creators == map[]
  {
    AlwaysConserved(states, steps, i);
    more, s' := CallersFinish(states[i]);
  }
}
