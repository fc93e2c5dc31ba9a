/** The `Fake` provider is a keyed record store: each step is one abstract call on one family, or nothing. */
module FakeRefines {
  import opened Net
  import RS = RecordStore
  import opened FakeProvider
  import opened FakeLaws

  /** The addresses of one cache by record id. */
  function Addresses(c: Cache): RS.Store {
    map id | id in c :: c[id].ip
  }

  /** The store the two caches stand for. */
  function Abs(s: State): RS.Store {
    Addresses(s.ipv4Cache) + Addresses(s.ipv6Cache)
  }

  /** Neither cache holds a record of the other's family, or an id of the other's. */
  ghost predicate Separate(s: State) {
    && (forall f, id :: id in s.CacheOf(f) ==> FamilyOf(s.CacheOf(f)[id].ip) == f && s.CacheOf(f)[id].id == id)
    && (forall id :: !(id in s.ipv4Cache && id in s.ipv6Cache))
  }

  lemma Separated(s: State)
    requires IdInv(s)
    ensures Separate(s)
  {
    forall f, id | id in s.CacheOf(f)
      ensures CachedAsBorn(s, f, id)
    {
      assert f == V4 || f == V6;
    }
    forall id | id in s.ipv4Cache
      ensures CachedAsBorn(s, V4, id)
    {
      assert id in s.CacheOf(V4);
    }
    forall id | id in s.ipv6Cache
      ensures CachedAsBorn(s, V6, id)
    {
      assert id in s.CacheOf(V6);
    }
  }

  /** In every run within 2^32 creates: map keys are record ids, families are kept apart, ids come from the counter. */
  lemma AlwaysSeparate(states: seq<State>, steps: seq<Step>, i: nat)
    requires Execution(states, steps) && i < |states| && states[i].past.issued <= U32_SIZE
    ensures Separate(states[i])
    ensures forall id :: id in Abs(states[i]) ==> Used(id, states[i].past.issued)
  {
    var s := states[i];
    AlwaysIdentified(states, steps, i);
    Separated(s);
    assert forall id :: id in s.ipv4Cache ==> CachedAsBorn(s, V4, id);
    assert forall id :: id in s.ipv6Cache ==> CachedAsBorn(s, V6, id);
  }

  /** A cache is the view of its family. */
  lemma CacheIsView(s: State, f: Family)
    requires Separate(s)
    ensures RS.View(Abs(s), f) == Addresses(s.CacheOf(f))
  {
    assert forall id :: id in s.ipv4Cache ==> id in s.CacheOf(V4);
    assert forall id :: id in s.ipv6Cache ==> id in s.CacheOf(V6);
  }

  /** What the callers of the provider asked for in a step, if anything. */
  datatype Request = Asked(call: RS.Call) | Nothing

  /** The abstract call a step carries out; a record that is not in the cache makes it none. */
  function Carried(s: State, step: Step): Request
    requires Enabled(s, step)
  {
    match step
    case Insert(pid) => Asked(RS.Create(s.creators[pid].ip, s.creators[pid].ttl))
    case Update(id, ip) => if id in s.CacheOf(FamilyOf(ip)) then Asked(RS.Call.Update(id, ip)) else Nothing
    case Delete(id, ip) => if id in s.CacheOf(FamilyOf(ip)) then Asked(RS.Call.Delete(id)) else Nothing
    case Fire =>
      var t := s.worker.hand.ticket;
      if t.id in s.CacheOf(FamilyOf(t.ip)) then Asked(RS.Call.Delete(t.id)) else Nothing
    case _ => Nothing
  }

  lemma WriteRefines(s: State, f: Family, r: DnsRecord)
    requires Separate(s) && r.id !in s.CacheOf(Other(f))
    ensures Abs(s.WithCache(f, s.CacheOf(f)[r.id := r])) == Abs(s)[r.id := r.ip]
  {
    var a, b := Addresses(s.ipv4Cache), Addresses(s.ipv6Cache);
    assert Addresses(s.CacheOf(f)[r.id := r]) == Addresses(s.CacheOf(f))[r.id := r.ip];
    if f == V4 {
      assert a[r.id := r.ip] + b == Abs(s)[r.id := r.ip];
    } else {
      assert a + b[r.id := r.ip] == Abs(s)[r.id := r.ip];
    }
  }

  lemma RemoveRefines(s: State, f: Family, id: nat)
    requires Separate(s) && id !in s.CacheOf(Other(f))
    ensures Abs(s.WithCache(f, s.CacheOf(f) - {id})) == Abs(s) - {id}
  {
  }

  lemma AbsOf(s: State, s': State)
    requires s.ipv4Cache == s'.ipv4Cache && s.ipv6Cache == s'.ipv6Cache
    ensures Abs(s) == Abs(s')
  {
  }

  lemma InsertRefines(s: State, pid: nat)
    requires Separate(s) && s.CanInsert(pid) && s.creators[pid].id !in Abs(s)
    ensures RS.Effect(Abs(s), RS.Create(s.creators[pid].ip, s.creators[pid].ttl), Abs(s.AfterInsert(pid)))
  {
    var r := s.Fresh(pid);
    var f := FamilyOf(r.ip);
    assert r.id !in s.ipv4Cache && r.id !in s.ipv6Cache;
    WriteRefines(s, f, r);
    AbsOf(s.WithCache(f, s.CacheOf(f)[r.id := r]), s.AfterInsert(pid));
    assert RS.Inserted(Abs(s), r.id, r.ip, Abs(s.AfterInsert(pid)));
  }

  lemma UpdateRefines(s: State, id: nat, ip: IpAddr)
    requires Separate(s) && id in s.CacheOf(FamilyOf(ip))
    ensures RS.Effect(Abs(s), RS.Call.Update(id, ip), Abs(s.AfterUpdate(id, ip)))
  {
    var f := FamilyOf(ip);
    assert s.CacheOf(f)[id].id == id;
    assert id in s.ipv4Cache || id in s.ipv6Cache;
    WriteRefines(s, f, s.CacheOf(f)[id].(ip := ip));
  }

  lemma DeleteRefines(s: State, id: nat, f: Family, s': State)
    requires Separate(s) && s'.ipv4Cache == s.WithCache(f, s.CacheOf(f) - {id}).ipv4Cache
    requires s'.ipv6Cache == s.WithCache(f, s.CacheOf(f) - {id}).ipv6Cache
    ensures if id in s.CacheOf(f) then RS.Effect(Abs(s), RS.Call.Delete(id), Abs(s')) else Abs(s') == Abs(s)
  {
    AbsOf(s', s.WithCache(f, s.CacheOf(f) - {id}));
    if id in s.CacheOf(f) {
      assert id in s.ipv4Cache || id in s.ipv6Cache;
      RemoveRefines(s, f, id);
    } else {
      assert s.CacheOf(f) - {id} == s.CacheOf(f);
    }
  }

  ghost predicate RefinesAt(s: State, step: Step)
    requires Enabled(s, step)
  {
    match Carried(s, step)
    case Asked(c) => RS.Effect(Abs(s), c, Abs(Apply(s, step)))
    case Nothing => Abs(Apply(s, step)) == Abs(s)
  }

  lemma StepRefinesFrom(s: State, step: Step)
    requires IdInv(s) && Enabled(s, step)
    ensures RefinesAt(s, step)
  {
    Separated(s);
    match step
    case Insert(pid) =>
      NotCached(s, pid);
      InsertRefines(s, pid);
    case Update(id, ip) =>
      if id in s.CacheOf(FamilyOf(ip)) {
        UpdateRefines(s, id, ip);
      }
    case Delete(id, ip) => DeleteRefines(s, id, FamilyOf(ip), Apply(s, step));
    case Fire => DeleteRefines(s, s.worker.hand.ticket.id, FamilyOf(s.worker.hand.ticket.ip), Apply(s, step));
    case _ =>
      CachesFrame(s, step);
      AbsOf(s, Apply(s, step));
  }

  /**
   Refinement, in every run within 2^32 creates: each step is the abstract create, update or delete it
   carries out (an expiry is a delete), and a step that carries out none leaves the store alone.
   */
  lemma StepRefines(states: seq<State>, steps: seq<Step>, i: nat)
    requires Execution(states, steps) && i < |steps| && states[i].past.issued <= U32_SIZE
    ensures Enabled(states[i], steps[i])
    ensures match Carried(states[i], steps[i])
            case Asked(c) => RS.Effect(Abs(states[i]), c, Abs(states[i + 1]))
            case Nothing => Abs(states[i + 1]) == Abs(states[i])
  {
    assert Follows(states, steps, i);
    AlwaysIdentified(states, steps, i);
    StepRefinesFrom(states[i], steps[i]);
    assert RefinesAt(states[i], steps[i]);
  }

  /** A numbered create's id is in no cache yet. */
  lemma NotCached(s: State, pid: nat)
    requires IdInv(s) && s.CanInsert(pid)
    ensures s.creators[pid].id !in Abs(s)
  {
    var id := s.creators[pid].id;
    assert id in s.ipv4Cache ==> CachedAsBorn(s, V4, id);
    assert id in s.ipv6Cache ==> CachedAsBorn(s, V6, id);
  }

  /** A step of one family's operation is invisible in the other family. */
  lemma OtherFamilyUntouched(s: State, step: Step, f: Family)
    requires Enabled(s, step)
    requires match step
             case Insert(pid) => FamilyOf(s.creators[pid].ip) == f
             case Update(_, ip) => FamilyOf(ip) == f
             case Delete(_, ip) => FamilyOf(ip) == f
             case Fire => FamilyOf(s.worker.hand.ticket.ip) == f
             case _ => true
    ensures Apply(s, step).CacheOf(Other(f)) == s.CacheOf(Other(f))
  {
    if !step.Insert? && !step.Update? && !step.Delete? && !step.Fire? {
      CachesFrame(s, step);
    }
  }

  /** The records of a cache under its keys, with their ids and addresses only. */
  function Listed(records: seq<DnsRecord>): seq<RS.Record> {
    seq(|records|, i requires 0 <= i < |records| => RS.Record(records[i].id, records[i].ip))
  }

  lemma ListedMembers(c: Cache, records: seq<DnsRecord>, ids: seq<nat>, r: RS.Record)
    requires ValuesUnder(c, ids, records) && forall id :: id in c ==> c[id].id == id
    ensures r in Listed(records) <==> r.id in c && c[r.id].ip == r.ip
  {
    var l := Listed(records);
    if r.id in c && c[r.id].ip == r.ip {
      assert r.id in Elems(ids);
      var i :| 0 <= i < |ids| && ids[i] == r.id;
      assert l[i] == r;
    }
  }

  /** What `get_dns_record` hands out is a listing of the family in the abstract store. */
  lemma ListingRefines(s: State, f: Family, records: seq<DnsRecord>)
    requires Separate(s) && AreValues(s.CacheOf(f), records)
    ensures RS.Listing(Abs(s), f, Listed(records))
  {
    var c, l, v := s.CacheOf(f), Listed(records), RS.View(Abs(s), f);
    var ids :| ValuesUnder(c, ids, records);
    CacheIsView(s, f);
    forall i, j | 0 <= i < j < |l|
      ensures l[i] != l[j]
    {
      assert l[i].id == ids[i] && l[j].id == ids[j];
    }
    forall r: RS.Record
      ensures r in l <==> r.id in Abs(s) && Abs(s)[r.id] == r.ip && FamilyOf(r.ip) == f
    {
      ListedMembers(c, records, ids, r);
      assert r.id in v && v[r.id] == r.ip <==> r.id in c && c[r.id].ip == r.ip;
    }
  }
}
