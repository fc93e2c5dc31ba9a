/** What holds in every run of the `Fake` provider, its callers and its expiry worker. */
module FakeLaws {
  import opened Net
  import opened FakeProvider

  // ---- which steps touch what ----

  predicate MovesTickets(step: Step) {
    step.Send? || step.Pop? || step.Queue? || step.Fire? || step.Receive? || step.Exit?
  }

  lemma WorkerFrame(s: State, step: Step)
    requires Enabled(s, step) && !MovesTickets(step)
    ensures Apply(s, step).worker == s.worker
    ensures Apply(s, step).past.(born := s.past.born, issued := s.past.issued) == s.past
  {
  }

  lemma CallersFrame(s: State, step: Step)
    requires Enabled(s, step) && !step.FetchAdd? && !step.Insert? && !step.Send? && !step.SendError?
    ensures Apply(s, step).creators == s.creators && Apply(s, step).held == s.held
  {
    match step
    case Update(_, _) =>
    case Delete(_, _) =>
    case Pop(_) =>
    case Queue =>
    case Fire =>
    case Receive =>
    case RequestShutdown =>
    case Exit =>
    case Tick(_) =>
  }

  lemma HistoryFrame(s: State, step: Step)
    requires Enabled(s, step)
    ensures !step.FetchAdd? ==> Apply(s, step).idIndex == s.idIndex && Apply(s, step).past.issued == s.past.issued
    ensures !step.Insert? ==> Apply(s, step).past.born == s.past.born
    ensures !step.Send? ==> Apply(s, step).past.sent == s.past.sent
  {
  }

  lemma CachesFrame(s: State, step: Step)
    requires Enabled(s, step) && !step.Insert? && !step.Update? && !step.Delete? && !step.Fire?
    ensures Apply(s, step).ipv4Cache == s.ipv4Cache && Apply(s, step).ipv6Cache == s.ipv6Cache
  {
  }

  // ---- conservation of tickets and the channel bound ----

  /** How often a ticket is in the channel, in the heap, in the worker's hand, fired or dropped. */
  function Places(s: State, t: DnsRecord): nat {
    multiset(s.worker.channel)[t] + s.worker.ttlHeap[t] + s.worker.InHand()[t] + s.past.fired[t] + s.past.dropped[t]
  }

  lemma SendConserves(s: State, pid: nat, t: DnsRecord)
    requires s.CanSend(pid) && s.past.sent[t] == Places(s, t)
    ensures s.AfterSend(pid).past.sent[t] == Places(s.AfterSend(pid), t)
  {
  }

  lemma FireConserves(s: State, t: DnsRecord)
    requires s.CanFire() && s.past.sent[t] == Places(s, t)
    ensures s.AfterFire().past.sent[t] == Places(s.AfterFire(), t)
  {
  }

  lemma ReceiveConserves(s: State, t: DnsRecord)
    requires s.CanReceive() && s.past.sent[t] == Places(s, t)
    ensures s.AfterReceive().past.sent[t] == Places(s.AfterReceive(), t)
  {
    assert s.worker.channel == [s.worker.channel[0]] + s.worker.channel[1..];
  }

  lemma PopConserves(s: State, u: DnsRecord, t: DnsRecord)
    requires s.CanPop(u) && s.past.sent[t] == Places(s, t)
    ensures s.AfterPop(u).past.sent[t] == Places(s.AfterPop(u), t)
  {
  }

  lemma ExitConserves(s: State, t: DnsRecord)
    requires s.CanExit() && s.past.sent[t] == Places(s, t)
    ensures s.AfterExit().past.sent[t] == Places(s.AfterExit(), t)
  {
  }

  lemma ConservedStep(s: State, step: Step, t: DnsRecord)
    requires Enabled(s, step) && s.past.sent[t] == Places(s, t)
    ensures Apply(s, step).past.sent[t] == Places(Apply(s, step), t)
  {
    match step
    case Send(pid) => SendConserves(s, pid, t);
    case Fire => FireConserves(s, t);
    case Receive => ReceiveConserves(s, t);
    case Pop(u) => PopConserves(s, u, t);
    case Queue =>
    case Exit => ExitConserves(s, t);
    case _ => WorkerFrame(s, step);
  }

  /** The channel never holds more than its capacity, a finished worker holds nothing, the counter counts. */
  predicate Bounded(s: State) {
    && |s.worker.channel| <= CAPACITY
    && (!s.worker.alive ==> s.worker == GONE)
    && s.idIndex == IdOf(s.past.issued)
  }

  lemma BoundedStep(s: State, step: Step)
    requires Bounded(s) && Enabled(s, step)
    ensures Bounded(Apply(s, step))
  {
    HistoryFrame(s, step);
    if !MovesTickets(step) {
      WorkerFrame(s, step);
    }
  }

  // ---- record ids and what the tickets remember ----

  /** The id was handed out by one of the first `n` increments of the counter. */
  ghost predicate Used(id: nat, n: nat) {
    exists k :: 0 <= k < n && IdOf(k) == id
  }

  /** The counter hands out fresh ids for 2^32 creates, and not for longer. */
  lemma IdsAreFreshIff(n: nat)
    ensures (forall k, j :: 0 <= k < j < n ==> IdOf(k) != IdOf(j)) <==> n <= 0x1_0000_0000
  {
    if n > U32_SIZE {
      assert IdOf(0) == IdOf(U32_SIZE);
    }
  }

  /** A creator's id is reserved for it: handed out, not yet born, and nobody else's. */
  ghost predicate Reserved(s: State) {
    && (forall p :: p in s.creators && s.creators[p].Numbered? ==>
          Used(s.creators[p].id, s.past.issued) && s.creators[p].id !in s.past.born)
    && (forall p, q ::
          p in s.creators && q in s.creators && p != q && s.creators[p].Numbered? && s.creators[q].Numbered? ==>
          s.creators[p].id != s.creators[q].id)
    && (forall id :: id in s.past.born ==> Used(id, s.past.issued) && s.past.born[id].id == id)
  }

  lemma FetchAddReserves(s: State, pid: nat, ip: IpAddr, ttl: nat)
    requires Reserved(s) && s.idIndex == IdOf(s.past.issued) && s.CanFetchAdd(pid) && s.past.issued < U32_SIZE
    ensures Reserved(s.AfterFetchAdd(pid, ip, ttl))
  {
    var n := s.past.issued;
    IdsAreFreshIff(n + 1);
    assert !Used(s.idIndex, n);
    assert IdOf(n) == s.idIndex;
    forall id | Used(id, n)
      ensures Used(id, n + 1)
    {
      var k :| 0 <= k < n && IdOf(k) == id;
      assert k < n + 1;
    }
  }

  lemma InsertReserves(s: State, pid: nat)
    requires Reserved(s) && s.CanInsert(pid)
    ensures Reserved(s.AfterInsert(pid))
  {
  }

  lemma ReservedStep(s: State, step: Step)
    requires Reserved(s) && s.idIndex == IdOf(s.past.issued) && Enabled(s, step)
    requires Apply(s, step).past.issued <= U32_SIZE
    ensures Reserved(Apply(s, step))
  {
    match step
    case FetchAdd(pid, ip, ttl) => FetchAddReserves(s, pid, ip, ttl);
    case Insert(pid) => InsertReserves(s, pid);
    case Send(pid) =>
    case SendError(pid) =>
    case _ =>
      HistoryFrame(s, step);
      CallersFrame(s, step);
  }

  /** A cache holds records of its family under their own ids, with the deadline they were born with. */
  ghost predicate CacheInv(s: State, f: Family) {
    forall id :: id in s.CacheOf(f) ==> CachedAsBorn(s, f, id)
  }

  predicate CachedAsBorn(s: State, f: Family, id: nat)
    requires id in s.CacheOf(f)
  {
    var r := s.CacheOf(f)[id];
    && id in s.past.born && r.id == id && FamilyOf(r.ip) == f && FamilyOf(s.past.born[id].ip) == f
    && r.deadline == s.past.born[id].deadline && r.ttl == s.past.born[id].ttl
  }

  lemma InsertCaches(s: State, pid: nat, f: Family)
    requires CacheInv(s, f) && Reserved(s) && s.CanInsert(pid)
    ensures CacheInv(s.AfterInsert(pid), f)
  {
    var s', r := s.AfterInsert(pid), s.Fresh(pid);
    forall id | id in s'.CacheOf(f)
      ensures CachedAsBorn(s', f, id)
    {
      if f != FamilyOf(r.ip) || id != r.id {
        assert CachedAsBorn(s, f, id);
      }
    }
  }

  lemma UpdateCaches(s: State, id: nat, ip: IpAddr, f: Family)
    requires CacheInv(s, f)
    ensures CacheInv(s.AfterUpdate(id, ip), f)
  {
    forall k | k in s.AfterUpdate(id, ip).CacheOf(f)
      ensures CachedAsBorn(s.AfterUpdate(id, ip), f, k)
    {
      assert CachedAsBorn(s, f, k);
    }
  }

  lemma CacheStep(s: State, step: Step, f: Family)
    requires CacheInv(s, f) && Reserved(s) && Enabled(s, step)
    ensures CacheInv(Apply(s, step), f)
  {
    if step.Insert? {
      InsertCaches(s, step.pid, f);
    } else if step.Update? {
      UpdateCaches(s, step.id, step.ip, f);
    } else {
      var s' := Apply(s, step);
      HistoryFrame(s, step);
      if !step.Delete? && !step.Fire? {
        CachesFrame(s, step);
      }
      forall id | id in s'.CacheOf(f)
        ensures CachedAsBorn(s', f, id)
      {
        assert CachedAsBorn(s, f, id);
      }
    }
  }

  /** The ticket is the record as its create inserted it. */
  predicate Genuine(s: State, t: DnsRecord) {
    t.id in s.past.born && s.past.born[t.id] == t
  }

  predicate IsSending(s: State, p: nat) {
    p in s.creators && s.creators[p].Sending?
  }

  /** Tickets are genuine and sent at most once. */
  ghost predicate TicketInv(s: State) {
    && (forall t :: t in s.past.sent ==> Genuine(s, t) && s.past.sent[t] == 1)
    && (forall p :: IsSending(s, p) ==> Genuine(s, s.creators[p].ticket) && s.creators[p].ticket !in s.past.sent)
  }

  predicate Holds(s: State, p: nat, f: Family) {
    IsSending(s, p) && FamilyOf(s.creators[p].ticket.ip) == f
  }

  /** A cache is locked exactly while one creator has a ticket of its family to send, and never two. */
  ghost predicate LockInv(s: State) {
    && (forall p, q, f :: Holds(s, p, f) && Holds(s, q, f) ==> p == q)
    && (forall f :: f in s.held <==> exists p :: Holds(s, p, f))
  }

  lemma InsertTickets(s: State, pid: nat)
    requires TicketInv(s) && Reserved(s) && s.CanInsert(pid)
    ensures TicketInv(s.AfterInsert(pid))
  {
    var s', r := s.AfterInsert(pid), s.Fresh(pid);
    assert r.id !in s.past.born && Genuine(s', r);
    assert forall t :: Genuine(s, t) ==> Genuine(s', t);
    assert forall p :: IsSending(s', p) ==> p == pid || (IsSending(s, p) && s'.creators[p] == s.creators[p]);
  }

  lemma SendTickets(s: State, pid: nat)
    requires TicketInv(s) && LockInv(s) && Reserved(s) && s.CanSend(pid)
    ensures TicketInv(s.AfterSend(pid))
  {
    var s', t := s.AfterSend(pid), s.creators[pid].ticket;
    assert IsSending(s, pid) && Holds(s, pid, FamilyOf(t.ip));
    forall p | IsSending(s', p)
      ensures IsSending(s, p) && s'.creators[p] == s.creators[p] && s'.creators[p].ticket != t
    {
      assert Holds(s, p, FamilyOf(s.creators[p].ticket.ip));
    }
  }

  /** The tickets stay in order when nobody inserts or sends. */
  lemma TicketsKept(s: State, s': State)
    requires TicketInv(s) && s'.past.born == s.past.born && s'.past.sent == s.past.sent
    requires forall p :: IsSending(s', p) ==> IsSending(s, p) && s'.creators[p] == s.creators[p]
    ensures TicketInv(s')
  {
  }

  lemma TicketStep(s: State, step: Step)
    requires TicketInv(s) && LockInv(s) && Reserved(s) && Enabled(s, step)
    ensures TicketInv(Apply(s, step))
  {
    if step.Insert? {
      InsertTickets(s, step.pid);
    } else if step.Send? {
      SendTickets(s, step.pid);
    } else {
      HistoryFrame(s, step);
      if !step.FetchAdd? && !step.SendError? {
        CallersFrame(s, step);
      }
      TicketsKept(s, Apply(s, step));
    }
  }

  lemma InsertLocks(s: State, pid: nat)
    requires LockInv(s) && s.CanInsert(pid)
    ensures LockInv(s.AfterInsert(pid))
  {
    var s', g := s.AfterInsert(pid), FamilyOf(s.creators[pid].ip);
    assert Holds(s', pid, g);
    assert forall p, f :: Holds(s', p, f) <==> Holds(s, p, f) || (p == pid && f == g);
  }

  lemma ReleaseLocks(s: State, pid: nat, s': State)
    requires LockInv(s) && IsSending(s, pid)
    requires s'.creators == s.creators - {pid} && s'.held == s.held - {FamilyOf(s.creators[pid].ticket.ip)}
    ensures LockInv(s')
  {
    var g := FamilyOf(s.creators[pid].ticket.ip);
    assert Holds(s, pid, g);
    assert forall p, f :: Holds(s', p, f) <==> Holds(s, p, f) && p != pid;
    assert forall p, f :: Holds(s', p, f) ==> f != g;
  }

  lemma LockStep(s: State, step: Step)
    requires LockInv(s) && Enabled(s, step)
    ensures LockInv(Apply(s, step))
  {
    var s' := Apply(s, step);
    match step
    case Insert(pid) => InsertLocks(s, pid);
    case Send(pid) => ReleaseLocks(s, pid, s');
    case SendError(pid) => ReleaseLocks(s, pid, s');
    case FetchAdd(_, _, _) =>
      assert forall p, f :: Holds(s', p, f) <==> Holds(s, p, f);
    case _ =>
      CallersFrame(s, step);
      assert forall p, f :: Holds(s', p, f) <==> Holds(s, p, f);
  }

  // ---- every reachable state ----

  ghost predicate IdInv(s: State) {
    Reserved(s) && CacheInv(s, V4) && CacheInv(s, V6) && TicketInv(s)
  }

  lemma {:induction false} IssuedGrows(states: seq<State>, steps: seq<Step>, i: nat, j: nat)
    requires Execution(states, steps) && i <= j < |states|
    ensures states[i].past.issued <= states[j].past.issued
  {
    if i < j {
      IssuedGrows(states, steps, i, j - 1);
      assert Follows(states, steps, j - 1);
    }
  }

  ghost predicate Plumbing(s: State) {
    && (forall t :: s.past.sent[t] == Places(s, t))
    && Bounded(s) && LockInv(s)
  }

  lemma PlumbingStep(s: State, step: Step)
    requires Plumbing(s) && Enabled(s, step)
    ensures Plumbing(Apply(s, step))
  {
    BoundedStep(s, step);
    LockStep(s, step);
    forall t
      ensures Apply(s, step).past.sent[t] == Places(Apply(s, step), t)
    {
      ConservedStep(s, step, t);
    }
  }

  /**
   Ticket conservation and locking, in every run: each ticket handed over is in exactly as many places
   as it was sent, the channel is never above its capacity, and locks match their holders.
   */
  lemma {:induction false} AlwaysConserved(states: seq<State>, steps: seq<Step>, i: nat)
    requires Execution(states, steps) && i < |states|
    ensures Plumbing(states[i])
  {
    if i > 0 {
      AlwaysConserved(states, steps, i - 1);
      assert Follows(states, steps, i - 1);
      PlumbingStep(states[i - 1], steps[i - 1]);
    }
  }

  lemma IdInvStep(s: State, step: Step)
    requires IdInv(s) && Bounded(s) && LockInv(s) && Enabled(s, step) && Apply(s, step).past.issued <= U32_SIZE
    ensures IdInv(Apply(s, step))
  {
    ReservedStep(s, step);
    CacheStep(s, step, V4);
    CacheStep(s, step, V6);
    TicketStep(s, step);
  }

  /** The record and ticket invariants, while the counter has not wrapped around. */
  lemma {:induction false} AlwaysIdentified(states: seq<State>, steps: seq<Step>, i: nat)
    requires Execution(states, steps) && i < |states| && states[i].past.issued <= U32_SIZE
    ensures IdInv(states[i])
  {
    if i > 0 {
      IssuedGrows(states, steps, i - 1, i);
      assert Follows(states, steps, i - 1);
      AlwaysIdentified(states, steps, i - 1);
      AlwaysConserved(states, steps, i - 1);
      IdInvStep(states[i - 1], steps[i - 1]);
    }
  }
}
