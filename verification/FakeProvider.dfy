/**
 The `Fake` provider as a concurrent object: two caches behind locks, an id counter, a bounded channel
 and the expiry worker with its heap of tickets. Every method is one atomic section of the program;
 any number of callers and the worker interleave between them.
 */
module FakeProvider {
  import opened Net

  /** A cached record; a clone of it, the ticket, travels to the worker. */
  datatype DnsRecord = DnsRecord(id: nat, ip: IpAddr, ttl: nat, deadline: nat)

  type Cache = map<nat, DnsRecord>

  /** Where a `create_dns_record` in flight is: numbered, or holding its cache's lock with a ticket to send. */
  datatype Creator =
    | Numbered(id: nat, ip: IpAddr, ttl: nat)
    | Sending(ticket: DnsRecord)

  /** The third branch of the worker's `select!`: a popped ticket sleeps, then waits for a cache lock. */
  datatype Hand =
    | Free
    | Sleeping(ticket: DnsRecord)
    | Queued(ticket: DnsRecord)

  const CAPACITY: nat := 10
  const U32_SIZE: nat := 0x1_0000_0000

  /** `id_index` starts at 1 and wraps around like any `AtomicU32`. */
  function IdOf(n: nat): nat {
    (1 + n) % U32_SIZE
  }

  /** What happened so far; no step reads it. `born` is the record as each create inserted it. */
  datatype History = History(
    issued: nat,
    sent: multiset<DnsRecord>,
    fired: multiset<DnsRecord>,
    dropped: multiset<DnsRecord>,
    born: Cache)

  /** The expiry worker and its end of the channel. */
  datatype Worker = Worker(channel: seq<DnsRecord>, ttlHeap: multiset<DnsRecord>, hand: Hand, alive: bool) {
    function InHand(): multiset<DnsRecord> {
      if hand.Free? then multiset{} else multiset{hand.ticket}
    }

    /** A ticket with the latest deadline. */
    predicate IsTop(t: DnsRecord) {
      t in ttlHeap && forall u :: u in ttlHeap ==> u.deadline <= t.deadline
    }

    function Popped(t: DnsRecord): Worker {
      this.(ttlHeap := ttlHeap - multiset{t}, hand := Sleeping(t))
    }

    function Received(): Worker
      requires channel != []
    {
      this.(channel := channel[1..], ttlHeap := ttlHeap + multiset{channel[0]}, hand := Free)
    }

    function All(): multiset<DnsRecord> {
      multiset(channel) + ttlHeap + InHand()
    }
  }

  const GONE: Worker := Worker([], multiset{}, Free, false)

  /** A snapshot of the object; `held` are the caches whose lock a create keeps across an await. */
  datatype State = State(
    idIndex: nat,
    ipv4Cache: Cache,
    ipv6Cache: Cache,
    held: set<Family>,
    creators: map<nat, Creator>,
    worker: Worker,
    shutdown: bool,
    clock: nat,
    past: History)
  {
    function CacheOf(f: Family): Cache {
      if f == V4 then ipv4Cache else ipv6Cache
    }

    function WithCache(f: Family, c: Cache): State {
      if f == V4 then this.(ipv4Cache := c) else this.(ipv6Cache := c)
    }

    // create_dns_record: the counter is bumped before any lock is taken
    predicate CanFetchAdd(pid: nat) {
      pid !in creators
    }

    function AfterFetchAdd(pid: nat, ip: IpAddr, ttl: nat): State {
      this.(creators := creators[pid := Numbered(idIndex, ip, ttl)], idIndex := (idIndex + 1) % U32_SIZE,
            past := past.(issued := past.issued + 1))
    }

    // create_dns_record: lock, compute the deadline, insert; the lock stays held
    predicate CanInsert(pid: nat) {
      pid in creators && creators[pid].Numbered? && FamilyOf(creators[pid].ip) !in held
    }

    function Fresh(pid: nat): DnsRecord
      requires pid in creators && creators[pid].Numbered?
    {
      DnsRecord(creators[pid].id, creators[pid].ip, creators[pid].ttl, clock + creators[pid].ttl)
    }

    function AfterInsert(pid: nat): State
      requires CanInsert(pid)
    {
      var r := Fresh(pid);
      WithCache(FamilyOf(r.ip), CacheOf(FamilyOf(r.ip))[r.id := r])
      .(creators := creators[pid := Sending(r)], held := held + {FamilyOf(r.ip)},
        past := past.(born := past.born[r.id := r]))
    }

    // create_dns_record: the channel takes the ticket, or the worker is gone; either way the lock is released
    predicate CanSend(pid: nat) {
      pid in creators && creators[pid].Sending? && worker.alive && |worker.channel| < CAPACITY
    }

    function AfterSend(pid: nat): State
      requires CanSend(pid)
    {
      var t := creators[pid].ticket;
      this.(creators := creators - {pid}, held := held - {FamilyOf(t.ip)},
            worker := worker.(channel := worker.channel + [t]), past := past.(sent := past.sent + multiset{t}))
    }

    predicate CanSendError(pid: nat) {
      pid in creators && creators[pid].Sending? && !worker.alive
    }

    function AfterSendError(pid: nat): State
      requires CanSendError(pid)
    {
      this.(creators := creators - {pid}, held := held - {FamilyOf(creators[pid].ticket.ip)})
    }

    // update_dns_record picks the cache by the new address, delete_dns_record by the record's own
    function AfterUpdate(id: nat, ip: IpAddr): State {
      var f := FamilyOf(ip);
      if id in CacheOf(f) then WithCache(f, CacheOf(f)[id := CacheOf(f)[id].(ip := ip)]) else this
    }

    function AfterDelete(id: nat, ip: IpAddr): State {
      WithCache(FamilyOf(ip), CacheOf(FamilyOf(ip)) - {id})
    }

    // the worker's timer branch: pop a ticket with the latest deadline, sleep, lock, remove
    predicate CanPop(t: DnsRecord) {
      worker.alive && worker.hand.Free? && worker.IsTop(t)
    }

    function AfterPop(t: DnsRecord): State {
      this.(worker := worker.Popped(t))
    }

    predicate CanQueue() {
      && worker.alive && worker.hand.Sleeping? && worker.hand.ticket.deadline <= clock
      && FamilyOf(worker.hand.ticket.ip) in held
    }

    function AfterQueue(): State
      requires CanQueue()
    {
      this.(worker := worker.(hand := Queued(worker.hand.ticket)))
    }

    predicate CanFire() {
      && worker.alive && !worker.hand.Free? && worker.hand.ticket.deadline <= clock
      && FamilyOf(worker.hand.ticket.ip) !in held
    }

    function AfterFire(): State
      requires CanFire()
    {
      var t := worker.hand.ticket;
      WithCache(FamilyOf(t.ip), CacheOf(FamilyOf(t.ip)) - {t.id})
      .(worker := worker.(hand := Free), past := past.(fired := past.fired + multiset{t}))
    }

    // the worker's channel branch: the ticket the timer branch may have popped is lost with it
    predicate CanReceive() {
      worker.alive && worker.channel != []
    }

    function AfterReceive(): State
      requires CanReceive()
    {
      this.(worker := worker.Received(), past := past.(dropped := past.dropped + worker.InHand()))
    }

    // the worker's shutdown branch: the receiver and every ticket go away
    predicate CanExit() {
      worker.alive && shutdown
    }

    function AfterExit(): State {
      this.(worker := GONE, past := past.(dropped := past.dropped + worker.All()))
    }
  }

  const INIT: State :=
    State(IdOf(0), map[], map[], {}, map[], Worker([], multiset{}, Free, true), false, 0,
          History(0, multiset{}, multiset{}, multiset{}, map[]))

  /** What can happen next; `pid` names a caller of `create_dns_record`. */
  datatype Step =
    | FetchAdd(pid: nat, ip: IpAddr, ttl: nat)
    | Insert(pid: nat)
    | Send(pid: nat)
    | SendError(pid: nat)
    | Update(id: nat, ip: IpAddr)
    | Delete(id: nat, ip: IpAddr)
    | Pop(ticket: DnsRecord)
    | Queue
    | Fire
    | Receive
    | RequestShutdown
    | Exit
    | Tick(seconds: nat)

  predicate Enabled(s: State, step: Step) {
    match step
    case FetchAdd(pid, _, _) => s.CanFetchAdd(pid)
    case Insert(pid) => s.CanInsert(pid)
    case Send(pid) => s.CanSend(pid)
    case SendError(pid) => s.CanSendError(pid)
    case Update(_, ip) => FamilyOf(ip) !in s.held
    case Delete(_, ip) => FamilyOf(ip) !in s.held
    case Pop(t) => s.CanPop(t)
    case Queue => s.CanQueue()
    case Fire => s.CanFire()
    case Receive => s.CanReceive()
    case RequestShutdown => true
    case Exit => s.CanExit()
    case Tick(_) => true
  }

  function Apply(s: State, step: Step): State
    requires Enabled(s, step)
  {
    match step
    case FetchAdd(pid, ip, ttl) => s.AfterFetchAdd(pid, ip, ttl)
    case Insert(pid) => s.AfterInsert(pid)
    case Send(pid) => s.AfterSend(pid)
    case SendError(pid) => s.AfterSendError(pid)
    case Update(id, ip) => s.AfterUpdate(id, ip)
    case Delete(id, ip) => s.AfterDelete(id, ip)
    case Pop(t) => s.AfterPop(t)
    case Queue => s.AfterQueue()
    case Fire => s.AfterFire()
    case Receive => s.AfterReceive()
    case RequestShutdown => s.(shutdown := true)
    case Exit => s.AfterExit()
    case Tick(n) => s.(clock := s.clock + n)
  }

  /** A run of the whole system: the states passed through when `steps` happen one after the other. */
  ghost predicate Execution(states: seq<State>, steps: seq<Step>) {
    && |states| == |steps| + 1 && states[0] == INIT
    && forall i :: 0 <= i < |steps| ==> Follows(states, steps, i)
  }

  predicate Follows(states: seq<State>, steps: seq<Step>, i: nat)
    requires i < |steps| && i + 1 < |states|
  {
    Enabled(states[i], steps[i]) && states[i + 1] == Apply(states[i], steps[i])
  }

  // ---- the object, updated in place ----

  /** A heap with something in it has a ticket with the latest deadline. */
  lemma {:induction false} Top(heap: multiset<DnsRecord>, t: DnsRecord) returns (top: DnsRecord)
    requires t in heap
    ensures top in heap && forall u :: u in heap ==> u.deadline <= top.deadline
    decreases |heap|
  {
    var rest := heap - multiset{t};
    if u :| u in rest {
      var other := Top(rest, u);
      top := if t.deadline <= other.deadline then other else t;
      assert forall v :: v in heap ==> v == t || v in rest;
    } else {
      top := t;
      assert forall v :: v in heap ==> v == t || v in rest;
    }
  }

  /** `records` are the values of the cache under the keys `ids`, every key once. */
  ghost predicate ValuesUnder(cache: Cache, ids: seq<nat>, records: seq<DnsRecord>) {
    && Enumerates(ids, cache.Keys)
    && |records| == |ids|
    && forall i :: 0 <= i < |ids| ==> ids[i] in cache && records[i] == cache[ids[i]]
  }

  /** `records` are the values of the cache, one for each key, in any order. */
  ghost predicate AreValues(cache: Cache, records: seq<DnsRecord>) {
    exists ids :: ValuesUnder(cache, ids, records)
  }

  /** The values of a map, in an order the map decides. */
  method Values(cache: Cache) returns (records: seq<DnsRecord>)
    ensures AreValues(cache, records)
  {
    var rest := cache.Keys;
    ghost var ids := [];
    records := [];
    while rest != {}
      invariant rest <= cache.Keys && |records| == |ids|
      invariant Enumerates(ids, cache.Keys - rest)
      invariant forall i :: 0 <= i < |ids| ==> ids[i] in cache && records[i] == cache[ids[i]]
      decreases |rest|
    {
      var id :| id in rest;
      AppendNew(ids, id, cache.Keys - rest);
      assert cache.Keys - rest + {id} == cache.Keys - (rest - {id});
      records, ids := records + [cache[id]], ids + [id];
      rest := rest - {id};
    }
    assert ValuesUnder(cache, ids, records);
  }

  class Fake {
    var idIndex: nat            // the AtomicU32
    var ipv4Cache: Cache
    var ipv6Cache: Cache
    var held: set<Family>
    var creators: map<nat, Creator>
    var channel: seq<DnsRecord>
    var ttlHeap: multiset<DnsRecord>
    var hand: Hand
    var alive: bool
    var shutdown: bool
    var clock: nat
    ghost var past: History

    ghost function View(): State
      reads this
    {
      State(idIndex, ipv4Cache, ipv6Cache, held, creators, Worker(channel, ttlHeap, hand, alive), shutdown, clock, past)
    }

    /** `Fake::create`. */
    constructor ()
      ensures View() == INIT
    {
      idIndex, ipv4Cache, ipv6Cache := 1, map[], map[];
      held, creators := {}, map[];
      channel, ttlHeap, hand, alive := [], multiset{}, Free, true;
      shutdown, clock := false, 0;
      past := History(0, multiset{}, multiset{}, multiset{}, map[]);
    }

    method FetchAdd(pid: nat, ip: IpAddr, ttl: nat)
      requires View().CanFetchAdd(pid)
      modifies this
      ensures View() == old(View()).AfterFetchAdd(pid, ip, ttl)
    {
      creators := creators[pid := Numbered(idIndex, ip, ttl)];
      idIndex := (idIndex + 1) % U32_SIZE;
      past := past.(issued := past.issued + 1);
    }

    method InsertRecord(pid: nat)
      requires View().CanInsert(pid)
      modifies this
      ensures View() == old(View()).AfterInsert(pid)
    {
      var c := creators[pid];
      var record := DnsRecord(c.id, c.ip, c.ttl, clock + c.ttl);
      match c.ip {
        case Ipv4(_) =>
          held := held + {V4};
          ipv4Cache := ipv4Cache[c.id := record];
        case Ipv6(_) =>
          held := held + {V6};
          ipv6Cache := ipv6Cache[c.id := record];
      }
      creators := creators[pid := Sending(record)];
      past := past.(born := past.born[c.id := record]);
    }

    /** The end of a create: `ok` is its result. */
    method SendTicket(pid: nat) returns (ok: bool)
      requires View().CanSend(pid) || View().CanSendError(pid)
      modifies this
      ensures ok == old(alive)
      ensures View() == if ok then old(View()).AfterSend(pid) else old(View()).AfterSendError(pid)
    {
      var ticket := creators[pid].ticket;
      ok := alive;
      if ok {
        channel := channel + [ticket];
        past := past.(sent := past.sent + multiset{ticket});
      }
      creators := creators - {pid};
      held := held - {FamilyOf(ticket.ip)};
    }

    method GetDnsRecord(family: Family) returns (records: seq<DnsRecord>)
      requires family !in held
      ensures AreValues(View().CacheOf(family), records)
    {
      match family {
        case V4 => records := Values(ipv4Cache);
        case V6 => records := Values(ipv6Cache);
      }
    }

    /** The boolean is false for "can't find records". */
    method UpdateDnsRecord(id: nat, ip: IpAddr) returns (ok: bool)
      requires FamilyOf(ip) !in held
      modifies this
      ensures View() == old(View()).AfterUpdate(id, ip)
      ensures ok <==> id in old(View()).CacheOf(FamilyOf(ip))
    {
      match ip {
        case Ipv4(_) =>
          ok := id in ipv4Cache;
          if ok {
            ipv4Cache := ipv4Cache[id := ipv4Cache[id].(ip := ip)];
          }
        case Ipv6(_) =>
          ok := id in ipv6Cache;
          if ok {
            ipv6Cache := ipv6Cache[id := ipv6Cache[id].(ip := ip)];
          }
      }
    }

    method DeleteDnsRecord(record: DnsRecord) returns (ok: bool)
      requires FamilyOf(record.ip) !in held
      modifies this
      ensures View() == old(View()).AfterDelete(record.id, record.ip)
      ensures ok <==> record.id in old(View()).CacheOf(FamilyOf(record.ip))
    {
      match record.ip {
        case Ipv4(_) =>
          ok := record.id in ipv4Cache;
          ipv4Cache := ipv4Cache - {record.id};
        case Ipv6(_) =>
          ok := record.id in ipv6Cache;
          ipv6Cache := ipv6Cache - {record.id};
      }
    }

    /** `ttl_heap.pop()`: some ticket with the latest deadline. */
    method PopTicket() returns (ticket: DnsRecord)
      requires alive && hand.Free? && ttlHeap != multiset{}
      modifies this
      ensures old(View()).CanPop(ticket) && View() == old(View()).AfterPop(ticket)
    {
      ghost var some :| some in ttlHeap;
      ghost var top := Top(ttlHeap, some);
      ticket :| ticket in ttlHeap && forall u :: u in ttlHeap ==> u.deadline <= ticket.deadline;
      ttlHeap := ttlHeap - multiset{ticket};
      hand := Sleeping(ticket);
    }

    method QueueForLock()
      requires View().CanQueue()
      modifies this
      ensures View() == old(View()).AfterQueue()
    {
      hand := Queued(hand.ticket);
    }

    method FireTicket()
      requires View().CanFire()
      modifies this
      ensures View() == old(View()).AfterFire()
    {
      var ticket := hand.ticket;
      match ticket.ip {
        case Ipv4(_) => ipv4Cache := ipv4Cache - {ticket.id};
        case Ipv6(_) => ipv6Cache := ipv6Cache - {ticket.id};
      }
      hand := Free;
      past := past.(fired := past.fired + multiset{ticket});
    }

    /** The channel branch wins the `select!`; whatever the timer branch had popped is lost with it. */
    method ReceiveTicket()
      requires View().CanReceive()
      modifies this
      ensures View() == old(View()).AfterReceive()
    {
      var ticket := channel[0];
      past := past.(dropped := past.dropped + View().worker.InHand());
      channel := channel[1..];
      ttlHeap := ttlHeap + multiset{ticket};
      hand := Free;
    }

    method ExitWorker()
      requires View().CanExit()
      modifies this
      ensures View() == old(View()).AfterExit()
    {
      past := past.(dropped := past.dropped + View().worker.All());
      alive, channel, ttlHeap, hand := false, [], multiset{}, Free;
    }
  }
}
