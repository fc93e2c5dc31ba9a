/**
 The remote side: a store of DNS records addressed by id, the three mutating calls of the
 `Provider` interface, and what each call does to the store.
 */
module RecordStore {
  import opened Net

  type Id = nat

  datatype Record = Record(id: Id, ip: IpAddr)

  /** The records the provider holds for the managed name, both families together. */
  type Store = map<Id, IpAddr>

  datatype Call =
    | Create(ip: IpAddr, ttl: nat)
    | Update(id: Id, ip: IpAddr)
    | Delete(id: Id)

  function IpsOf(rs: seq<Record>): (ips: seq<IpAddr>)
    ensures |ips| == |rs|
    ensures forall i :: 0 <= i < |rs| ==> ips[i] == rs[i].ip
  {
    Map(rs, (r: Record) => r.ip)
  }

  ghost predicate Inserted(s: Store, id: Id, ip: IpAddr, s': Store) {
    id !in s && s' == s[id := ip]
  }

  /** `s'` is the store after call `c` took effect on `s`; the provider picks the id of a new record. */
  ghost predicate Effect(s: Store, c: Call, s': Store) {
    match c
    case Create(ip, _) => exists id :: Inserted(s, id, ip, s')
    case Update(id, ip) => id in s && s' == s[id := ip]
    case Delete(id) => id in s && s' == s - {id}
  }

  /** A record of this id is there for an update or a delete to find. */
  predicate Addressable(s: Store, c: Call) {
    c.Create? || c.id in s
  }

  /** `states` are the stores passed through while the leading calls of `calls` took effect. */
  ghost predicate Partial(states: seq<Store>, calls: seq<Call>) {
    1 <= |states| <= |calls| + 1 &&
    forall i :: 0 <= i < |states| - 1 ==> Advances(states, calls, i)
  }

  ghost predicate Advances(states: seq<Store>, calls: seq<Call>, i: nat)
    requires i < |calls| && i + 1 < |states|
  {
    Effect(states[i], calls[i], states[i + 1])
  }

  lemma PartialExtend(states: seq<Store>, calls: seq<Call>, s': Store)
    requires Partial(states, calls) && |states| <= |calls| && Effect(Last(states), calls[|states| - 1], s')
    ensures Partial(states + [s'], calls)
  {
    forall i | 0 <= i < |states|
      ensures Advances(states + [s'], calls, i)
    {
      if i < |states| - 1 {
        assert Advances(states, calls, i);
      }
    }
  }

  ghost predicate Complete(states: seq<Store>, calls: seq<Call>) {
    Partial(states, calls) && |states| == |calls| + 1
  }

  // ---- observations of a store ----

  /** The ids published under one address. */
  function Ids(s: Store, ip: IpAddr): set<Id> {
    set id | id in s && s[id] == ip
  }

  function Count(s: Store, ip: IpAddr): nat {
    |Ids(s, ip)|
  }

  /** The distinct addresses of one family that some record carries. */
  function Published(s: Store, f: Family): set<IpAddr> {
    set id | id in s && FamilyOf(s[id]) == f :: s[id]
  }

  /** The records of one family. */
  function View(s: Store, f: Family): Store {
    map id | id in s && FamilyOf(s[id]) == f :: s[id]
  }

  /** No two records of the family carry the same address. */
  ghost predicate Distinct(s: Store, f: Family) {
    forall ip :: FamilyOf(ip) == f ==> Count(s, ip) <= 1
  }

  /** `l` lists every record of the family once, in some order. */
  ghost predicate Listing(s: Store, f: Family, l: seq<Record>) {
    && NoDup(l)
    && forall r :: r in l <==> r.id in s && s[r.id] == r.ip && FamilyOf(r.ip) == f
  }

  lemma PublishedIffCount(s: Store, f: Family, ip: IpAddr)
    ensures ip in Published(s, f) <==> FamilyOf(ip) == f && Count(s, ip) > 0
  {
    if ip in Published(s, f) {
      var id :| id in s && s[id] == ip;
      assert id in Ids(s, ip);
    }
  }

  // ---- what one call changes ----

  function Gained(c: Call, ip: IpAddr): nat {
    if !c.Delete? && c.ip == ip then 1 else 0
  }

  function Lost(s: Store, c: Call, ip: IpAddr): nat
    requires Addressable(s, c)
  {
    if !c.Create? && s[c.id] == ip then 1 else 0
  }

  /** Writing `ip` under `id` (new or not) adds `id` to the ids of `ip` and takes it from the others. */
  lemma IdsAfterWrite(s: Store, id: Id, a: IpAddr, ip: IpAddr)
    ensures Ids(s[id := a], ip) == if a == ip then Ids(s, ip) + {id} else Ids(s, ip) - {id}
  {
  }

  lemma IdsAfterRemove(s: Store, id: Id, ip: IpAddr)
    ensures Ids(s - {id}, ip) == Ids(s, ip) - {id}
  {
  }

  lemma WithoutCard<T>(a: set<T>, x: T)
    ensures |a - {x}| == if x in a then |a| - 1 else |a|
  {
    if x !in a {
      assert a - {x} == a;
    }
  }

  lemma WithCard<T>(a: set<T>, x: T)
    ensures |a + {x}| == if x in a then |a| else |a| + 1
  {
    if x in a {
      assert a + {x} == a;
    }
  }

  /** A call moves exactly one unit: out of the address it overwrites, into the one it writes. */
  lemma EffectCount(s: Store, c: Call, s': Store, ip: IpAddr)
    requires Effect(s, c, s')
    ensures Count(s', ip) + Lost(s, c, ip) == Count(s, ip) + Gained(c, ip)
  {
    var id: Id;
    if c.Create? {
      id :| Inserted(s, id, c.ip, s');
    } else {
      id := c.id;
    }
    if c.Delete? {
      IdsAfterRemove(s, id, ip);
    } else {
      IdsAfterWrite(s, id, c.ip, ip);
    }
    WithoutCard(Ids(s, ip), id);
    WithCard(Ids(s, ip), id);
  }

  lemma ViewAfterWrite(s: Store, f: Family, id: Id, ip: IpAddr)
    requires FamilyOf(ip) == f && (id in s ==> FamilyOf(s[id]) == f)
    ensures View(s[id := ip], f) == View(s, f)[id := ip]
    ensures View(s[id := ip], Other(f)) == View(s, Other(f))
  {
  }

  lemma ViewAfterRemove(s: Store, f: Family, id: Id)
    requires id in s && FamilyOf(s[id]) == f
    ensures View(s - {id}, f) == View(s, f) - {id}
    ensures View(s - {id}, Other(f)) == View(s, Other(f))
  {
  }

  /** A call that stays inside one family. */
  predicate Within(s: Store, c: Call, f: Family)
    requires Addressable(s, c)
  {
    (c.Delete? || FamilyOf(c.ip) == f) && (c.Create? || FamilyOf(s[c.id]) == f)
  }

  /** A call inside one family is the same call on that family's view and invisible to the other's. */
  lemma EffectView(s: Store, c: Call, s': Store, f: Family)
    requires Effect(s, c, s') && Within(s, c, f)
    ensures Effect(View(s, f), c, View(s', f))
    ensures View(s', Other(f)) == View(s, Other(f))
  {
    match c
    case Create(ip, _) =>
      var id :| Inserted(s, id, ip, s');
      ViewAfterWrite(s, f, id, ip);
      assert Inserted(View(s, f), id, ip, View(s', f));
    case Update(id, ip) => ViewAfterWrite(s, f, id, ip);
    case Delete(id) => ViewAfterRemove(s, f, id);
  }

  lemma MapSize(m: Store, id: Id, ip: IpAddr)
    ensures |m[id := ip]| == if id in m then |m| else |m| + 1
    ensures |m - {id}| == if id in m then |m| - 1 else |m|
  {
    WithCard(m.Keys, id);
    WithoutCard(m.Keys, id);
    assert m[id := ip].Keys == m.Keys + {id} && (m - {id}).Keys == m.Keys - {id};
  }

  /** Creates and deletes change the number of records of the family by one, updates do not. */
  lemma EffectSize(s: Store, c: Call, s': Store, f: Family)
    requires Effect(s, c, s') && Within(s, c, f)
    ensures |View(s', f)| + (if c.Delete? then 1 else 0) == |View(s, f)| + (if c.Create? then 1 else 0)
  {
    match c
    case Create(ip, _) =>
      var id :| Inserted(s, id, ip, s');
      ViewAfterWrite(s, f, id, ip);
      MapSize(View(s, f), id, ip);
    case Update(id, ip) =>
      ViewAfterWrite(s, f, id, ip);
      MapSize(View(s, f), id, ip);
    case Delete(id) =>
      ViewAfterRemove(s, f, id);
      MapSize(View(s, f), id, s[id]);
  }

  lemma ViewCount(s: Store, f: Family, ip: IpAddr)
    requires FamilyOf(ip) == f
    ensures Count(View(s, f), ip) == Count(s, ip)
    ensures Published(View(s, f), f) == Published(s, f)
  {
    assert Ids(View(s, f), ip) == Ids(s, ip);
    forall a
      ensures a in Published(View(s, f), f) <==> a in Published(s, f)
    {
      if a in Published(s, f) {
        var id :| id in s && FamilyOf(s[id]) == f && s[id] == a;
        assert id in View(s, f);
      }
    }
  }

  // ---- the remote service as an object ----

  /** What the network and the service do to one request. */
  datatype Fate =
    | Served       // carried out and answered
    | Refused      // not carried out, an error is answered
    | AnswerLost   // carried out, but the caller sees an error

  /**
   A provider behind a fallible connection. `fates` decides request by request what happens;
   once it is used up every request is served.
   */
  class Provider {
    var records: Store
    var fates: seq<Fate>
    ghost var log: seq<Call>   // mutating calls issued so far, whatever became of them

    constructor (records: Store, fates: seq<Fate>)
      ensures this.records == records && this.fates == fates && log == []
    {
      this.records := records;
      this.fates := fates;
      log := [];
    }

    function NextFate(): Fate
      reads this
    {
      if fates == [] then Served else fates[0]
    }

    ghost predicate Faultless()
      reads this
    {
      forall i :: 0 <= i < |fates| ==> fates[i] == Served
    }

    method TakeFate() returns (fate: Fate)
      modifies this`fates
      ensures fate == old(NextFate())
      ensures old(Faultless()) ==> fate == Served && Faultless()
    {
      fate := NextFate();
      if fates != [] {
        fates := fates[1..];
      }
    }

    /** `get_dns_record`: all records of one family in an order the caller cannot predict. */
    method GetDnsRecord(family: Family) returns (r: Option<seq<Record>>)
      modifies this`fates
      ensures r.Some? ==> Listing(records, family, r.value)
      ensures r.Some? <==> old(NextFate()) == Served
      ensures old(Faultless()) ==> r.Some? && Faultless()
    {
      var fate := TakeFate();
      if fate != Served {
        return None;
      }
      var l: seq<Record> := [];
      var rest := records.Keys;
      while rest != {}
        invariant rest <= records.Keys
        invariant NoDup(l)
        invariant forall r :: r in l <==>
                    r.id in records && r.id !in rest && records[r.id] == r.ip && FamilyOf(r.ip) == family
        decreases |rest|
      {
        var id :| id in rest;
        if FamilyOf(records[id]) == family {
          l := l + [Record(id, records[id])];
        }
        rest := rest - {id};
      }
      r := Some(l);
    }

    /** `create_dns_record`. */
    method CreateDnsRecord(ip: IpAddr, ttl: nat) returns (ok: bool)
      modifies this
      ensures log == old(log) + [Create(ip, ttl)]
      ensures ok <==> old(NextFate()) == Served
      ensures if old(NextFate()) == Refused then records == old(records)
              else Effect(old(records), Create(ip, ttl), records)
      ensures old(Faultless()) ==> ok && Faultless()
    {
      log := log + [Create(ip, ttl)];
      var fate := TakeFate();
      if fate != Refused {
        FreshId(records.Keys);
        ghost var before := records;
        var id :| id !in records;
        records := records[id := ip];
        assert Inserted(before, id, ip, records);
      }
      ok := fate == Served;
    }

    /** `update_dns_record`: only the id of `record` reaches the service. */
    method UpdateDnsRecord(record: Record, ip: IpAddr) returns (ok: bool)
      modifies this
      ensures log == old(log) + [Update(record.id, ip)]
      ensures ok <==> old(NextFate()) == Served && record.id in old(records)
      ensures if old(NextFate()) == Refused || record.id !in old(records) then records == old(records)
              else Effect(old(records), Update(record.id, ip), records)
      ensures old(Faultless()) ==> (ok <==> record.id in old(records)) && Faultless()
    {
      log := log + [Update(record.id, ip)];
      var fate := TakeFate();
      if fate != Refused && record.id in records {
        records := records[record.id := ip];
        ok := fate == Served;
      } else {
        ok := false;
      }
    }

    /** `delete_dns_record`. */
    method DeleteDnsRecord(record: Record) returns (ok: bool)
      modifies this
      ensures log == old(log) + [Delete(record.id)]
      ensures ok <==> old(NextFate()) == Served && record.id in old(records)
      ensures if old(NextFate()) == Refused || record.id !in old(records) then records == old(records)
              else Effect(old(records), Delete(record.id), records)
      ensures old(Faultless()) ==> (ok <==> record.id in old(records)) && Faultless()
    {
      log := log + [Delete(record.id)];
      var fate := TakeFate();
      if fate != Refused && record.id in records {
        records := records - {record.id};
        ok := fate == Served;
      } else {
        ok := false;
      }
    }
  }

  lemma {:induction false} UpperBound(ids: set<Id>) returns (bound: Id)
    ensures forall id :: id in ids ==> id < bound
    decreases |ids|
  {
    if ids == {} {
      bound := 0;
    } else {
      var x :| x in ids;
      var b := UpperBound(ids - {x});
      bound := Max(b, x + 1);
      assert forall id :: id in ids ==> id == x || id in ids - {x};
    }
  }

  /** There is always an unused id. */
  lemma FreshId(ids: set<Id>)
    ensures exists id: Id :: id !in ids
  {
    var bound := UpperBound(ids);
    assert bound !in ids;
  }
}
