/** `check_and_update`: the loop that moves the records of one family to a list of target addresses. */
module Reconcile {
  import opened Net
  import opened RecordStore

  // ---- the calls a run intends to issue ----

  /** Call number `i` when `olds[i]` is to become `news[i]`; the longer list is deleted or created. */
  function PairCall(olds: seq<Record>, news: seq<IpAddr>, ttl: nat, i: nat): Call
    requires i < Max(|olds|, |news|)
  {
    if i < |olds| && i < |news| then Update(olds[i].id, news[i])
    else if i < |olds| then Delete(olds[i].id)
    else Create(news[i], ttl)
  }

  function PairCalls(olds: seq<Record>, news: seq<IpAddr>, ttl: nat): (calls: seq<Call>)
    ensures |calls| == Max(|olds|, |news|)
    ensures forall i :: 0 <= i < |calls| ==> calls[i] == PairCall(olds, news, ttl, i)
  {
    seq(Max(|olds|, |news|), i requires 0 <= i < Max(|olds|, |news|) => PairCall(olds, news, ttl, i))
  }

  /**
   The decisions of one run. `sames` are the records rewritten in place because of `force`, `olds`
   the stale records and `news` the missing addresses, each in the order its hash set produced.
   A forced rewrite is a pair like any other, so the whole run is one list of pairs.
   */
  datatype Plan = Plan(sames: seq<Record>, olds: seq<Record>, news: seq<IpAddr>) {
    function Victims(): seq<Record> { sames + olds }
    function Values(): seq<IpAddr> { IpsOf(sames) + news }
    function Calls(ttl: nat): seq<Call> { PairCalls(Victims(), Values(), ttl) }
  }

  /** One record of family `f` in `s` for every address of `ips`, in some order. */
  ghost predicate Represents(s: Store, f: Family, rs: seq<Record>, ips: set<IpAddr>) {
    && Enumerates(IpsOf(rs), ips)
    && forall i :: 0 <= i < |rs| ==> rs[i].id in s && s[rs[i].id] == rs[i].ip && FamilyOf(rs[i].ip) == f
  }

  ghost predicate IsPlan(s: Store, f: Family, targets: seq<IpAddr>, force: bool, p: Plan) {
    var published := Published(s, f);
    && Represents(s, f, p.sames, if force then published * Elems(targets) else {})
    && Represents(s, f, p.olds, published - Elems(targets))
    && Enumerates(p.news, Elems(targets) - published)
  }

  /**
   The condition under which a forced run unwraps a missing record: the intersection is drawn from
   the smaller set, and the target side of it carries no records.
   */
  predicate ForcePanics(s: Store, f: Family, targets: seq<IpAddr>) {
    |Published(s, f)| > |Elems(targets)| && Published(s, f) * Elems(targets) != {}
  }

  // ---- the outcome of a run ----

  datatype Outcome =
    | Reported(ips: seq<IpAddr>)
    | Failed
    | Panicked

  /** `states` are the stores after each effective call, `issued` the number of mutating calls sent. */
  datatype Run = Run(plan: Plan, states: seq<Store>, issued: nat, outcome: Outcome)

  ghost predicate IsRun(s: Store, f: Family, targets: seq<IpAddr>, ttl: nat, force: bool, run: Run) {
    && run.states != [] && run.states[0] == s
    && (run.issued == 0 || IsPlan(s, f, targets, force, run.plan))
    && Partial(run.states, run.plan.Calls(ttl))
    && run.issued <= |run.plan.Calls(ttl)|
    && match run.outcome {
         case Panicked =>
           force && ForcePanics(s, f, targets) && run.issued == 0 && run.states == [s]
         case Failed =>
           // the failing call is the last one sent; it took effect or it did not
           if run.issued == 0 then run.states == [s]
           else !(force && ForcePanics(s, f, targets)) && |run.states| - 1 <= run.issued <= |run.states|
         case Reported(ips) =>
           && !(force && ForcePanics(s, f, targets))
           && IsPlan(s, f, targets, force, run.plan)
           && Complete(run.states, run.plan.Calls(ttl))
           && run.issued == |run.plan.Calls(ttl)|
           && ips == run.plan.Values()
       }
  }

  /** The listing succeeded: a run that fails later has sent a call. */
  predicate Listed(run: Run) {
    !run.outcome.Failed? || run.issued > 0
  }

  // ---- hash sets keyed by address ----

  /** A set element: equality and hash look at `ip` only. */
  datatype HashSetItem = HashSetItem(ip: IpAddr, refRecord: Option<Record>)

  type ItemSet = map<IpAddr, HashSetItem>

  /** Collecting keeps the element already present when an equal one arrives. */
  method CollectRecords(records: seq<Record>) returns (items: ItemSet)
    ensures items.Keys == Elems(IpsOf(records))
    ensures forall ip :: ip in items ==>
              items[ip].ip == ip && items[ip].refRecord.Some? &&
              items[ip].refRecord.value in records && items[ip].refRecord.value.ip == ip
  {
    items := map[];
    for i := 0 to |records|
      invariant items.Keys == Elems(IpsOf(records)[..i])
      invariant forall ip :: ip in items ==>
                  items[ip].ip == ip && items[ip].refRecord.Some? &&
                  items[ip].refRecord.value in records && items[ip].refRecord.value.ip == ip
    {
      var record := records[i];
      assert IpsOf(records)[..i + 1] == IpsOf(records)[..i] + [record.ip];
      if record.ip !in items {
        items := items[record.ip := HashSetItem(record.ip, Some(record))];
      }
    }
    assert IpsOf(records)[..|records|] == IpsOf(records);
  }

  method CollectTargets(ips: seq<IpAddr>) returns (items: ItemSet)
    ensures items.Keys == Elems(ips)
    ensures forall ip :: ip in items ==> items[ip] == HashSetItem(ip, None)
  {
    items := map[];
    for i := 0 to |ips|
      invariant items.Keys == Elems(ips[..i])
      invariant forall ip :: ip in items ==> items[ip] == HashSetItem(ip, None)
    {
      assert ips[..i + 1] == ips[..i] + [ips[i]];
      if ips[i] !in items {
        items := items[ips[i] := HashSetItem(ips[i], None)];
      }
    }
    assert ips[..|ips|] == ips;
  }

  /** The items of a set under some of its keys, each once, in an order nobody controls. */
  ghost predicate Iteration(items: ItemSet, keys: set<IpAddr>, order: seq<HashSetItem>) {
    && (forall i :: 0 <= i < |order| ==> order[i].ip in items && order[i] == items[order[i].ip])
    && Enumerates(ItemIps(order), keys)
  }

  function ItemIps(order: seq<HashSetItem>): (ips: seq<IpAddr>)
    ensures |ips| == |order|
    ensures forall i :: 0 <= i < |order| ==> ips[i] == order[i].ip
  {
    Map(order, (item: HashSetItem) => item.ip)
  }

  method Iterate(items: ItemSet, keys: set<IpAddr>) returns (order: seq<HashSetItem>)
    requires keys <= items.Keys
    requires forall ip :: ip in items ==> items[ip].ip == ip
    ensures Iteration(items, keys, order)
  {
    order := [];
    var rest := keys;
    while rest != {}
      invariant rest <= keys
      invariant Iteration(items, keys - rest, order)
      decreases |rest|
    {
      var ip :| ip in rest;
      ghost var before := order;
      order := order + [items[ip]];
      assert ItemIps(order) == ItemIps(before) + [ip];
      rest := rest - {ip};
      assert Elems(ItemIps(order)) == Elems(ItemIps(before)) + {ip};
    }
  }

  /** `HashSet::difference`: what is only in `a`, always the elements of `a`. */
  method Difference(a: ItemSet, b: ItemSet) returns (order: seq<HashSetItem>)
    requires forall ip :: ip in a ==> a[ip].ip == ip
    ensures Iteration(a, a.Keys - b.Keys, order)
  {
    order := Iterate(a, a.Keys - b.Keys);
  }

  /** `HashSet::intersection`: iterates the smaller set, so the elements may be those of `b`. */
  method Intersection(a: ItemSet, b: ItemSet) returns (order: seq<HashSetItem>)
    requires forall ip :: ip in a ==> a[ip].ip == ip
    requires forall ip :: ip in b ==> b[ip].ip == ip
    ensures Iteration(if |a| <= |b| then a else b, a.Keys * b.Keys, order)
  {
    if |a| <= |b| {
      order := Iterate(a, a.Keys * b.Keys);
    } else {
      order := Iterate(b, a.Keys * b.Keys);
    }
  }

  // ---- what survives along the calls of a plan ----

  /** Every listed record is stored under its id with its address, and no address is listed twice. */
  ghost predicate Held(s: Store, rs: seq<Record>) {
    && NoDup(IpsOf(rs))
    && forall i :: 0 <= i < |rs| ==> rs[i].id in s && s[rs[i].id] == rs[i].ip
  }

  lemma PlanHeld(s: Store, f: Family, targets: seq<IpAddr>, force: bool, p: Plan)
    requires IsPlan(s, f, targets, force, p)
    ensures Held(s, p.Victims()) && NoDup(p.Values())
  {
    var a, b := IpsOf(p.sames), IpsOf(p.olds);
    assert IpsOf(p.Victims()) == a + b;
    forall i | 0 <= i < |a|
      ensures a[i] in targets && a[i] in Published(s, f)
    {
      assert a[i] in Elems(a);
    }
    forall i | 0 <= i < |b|
      ensures b[i] !in targets
    {
      assert b[i] in Elems(b);
    }
    forall i | 0 <= i < |p.news|
      ensures p.news[i] !in Published(s, f)
    {
      assert p.news[i] in Elems(p.news);
    }
  }

  /** A call meant for one record leaves the later ones alone: each is found as it was listed. */
  lemma {:induction false} HeldAlong(states: seq<Store>, olds: seq<Record>, news: seq<IpAddr>, ttl: nat, i: nat)
    requires Partial(states, PairCalls(olds, news, ttl))
    requires Held(states[0], olds)
    requires i < |states|
    ensures forall j :: i <= j < |olds| ==> olds[j].id in states[i] && states[i][olds[j].id] == olds[j].ip
  {
    if i > 0 {
      HeldAlong(states, olds, news, ttl, i - 1);
      var calls := PairCalls(olds, news, ttl);
      var s, c, s' := states[i - 1], calls[i - 1], states[i];
      assert Advances(states, calls, i - 1);
      forall j | i <= j < |olds|
        ensures olds[j].id in s' && s'[olds[j].id] == olds[j].ip
      {
        assert IpsOf(olds)[i - 1] != IpsOf(olds)[j];
        assert olds[i - 1].id != olds[j].id;
      }
    }
  }

  // ---- what a call may be, in terms of the snapshot ----

  /**
   The call number `k` of a plan. A create is of a missing target, with the ttl asked for; an update overwrites
   a stale record with a missing target, or a forced one with its own address; a delete is of a stale record.
   */
  lemma PlannedCall(s: Store, f: Family, targets: seq<IpAddr>, force: bool, p: Plan, ttl: nat, k: nat)
    requires IsPlan(s, f, targets, force, p) && k < |p.Calls(ttl)|
    ensures match p.Calls(ttl)[k]
            case Create(ip, t) => t == ttl && ip in targets && ip !in Published(s, f)
            case Update(id, ip) =>
              && id in s && FamilyOf(s[id]) == f && ip in targets
              && if s[id] == ip then force else s[id] !in targets && ip !in Published(s, f)
            case Delete(id) => id in s && FamilyOf(s[id]) == f && s[id] !in targets
  {
    var n := |p.sames|;
    if k < n {
      assert IpsOf(p.sames)[k] in Elems(IpsOf(p.sames));
    } else {
      if k - n < |p.olds| {
        assert IpsOf(p.olds)[k - n] in Elems(IpsOf(p.olds));
      }
      if k - n < |p.news| {
        assert p.news[k - n] in Elems(p.news);
      }
    }
  }

  /** A plan touches no record and writes no address twice. */
  lemma PlannedOnce(s: Store, f: Family, targets: seq<IpAddr>, force: bool, p: Plan, ttl: nat, j: nat, k: nat)
    requires IsPlan(s, f, targets, force, p) && j < k < |p.Calls(ttl)|
    ensures var b, c := p.Calls(ttl)[j], p.Calls(ttl)[k];
            && (!b.Create? && !c.Create? ==> b.id != c.id)
            && (!b.Delete? && !c.Delete? ==> b.ip != c.ip)
  {
    PlanHeld(s, f, targets, force, p);
    if k < |p.Victims()| {
      assert IpsOf(p.Victims())[j] != IpsOf(p.Victims())[k];
    }
  }

  // ---- the run itself ----

  function RecordsOf(items: seq<HashSetItem>): (rs: seq<Record>)
    requires forall i :: 0 <= i < |items| ==> items[i].refRecord.Some?
    ensures |rs| == |items|
    ensures forall i :: 0 <= i < |items| ==> rs[i] == items[i].refRecord.value
  {
    seq(|items|, i requires 0 <= i < |items| => items[i].refRecord.value)
  }

  lemma ListingPublished(s: Store, f: Family, l: seq<Record>)
    requires Listing(s, f, l)
    ensures Elems(IpsOf(l)) == Published(s, f)
  {
    forall ip | ip in Published(s, f)
      ensures ip in Elems(IpsOf(l))
    {
      var id :| id in s && s[id] == ip && FamilyOf(ip) == f;
      assert Record(id, ip) in l;
      var i :| 0 <= i < |l| && l[i] == Record(id, ip);
      assert IpsOf(l)[i] == ip;
    }
    forall ip | ip in Elems(IpsOf(l))
      ensures ip in Published(s, f)
    {
      var i :| 0 <= i < |l| && IpsOf(l)[i] == ip;
      assert l[i] in l;
    }
  }

  /** A set collected from the remote listing: every item carries a listed record of its address. */
  ghost predicate FromListing(items: ItemSet, l: seq<Record>) {
    forall ip :: ip in items ==>
      items[ip].ip == ip && items[ip].refRecord.Some? &&
      items[ip].refRecord.value in l && items[ip].refRecord.value.ip == ip
  }

  ghost predicate WithoutRecords(items: ItemSet) {
    forall ip :: ip in items ==> items[ip] == HashSetItem(ip, None)
  }

  /** Items taken from the remote side stand for the records they came from. */
  lemma ItemsRepresent(s: Store, f: Family, l: seq<Record>, items: ItemSet, keys: set<IpAddr>, order: seq<HashSetItem>)
    requires Listing(s, f, l) && FromListing(items, l) && Iteration(items, keys, order)
    ensures forall i :: 0 <= i < |order| ==> order[i].refRecord.Some?
    ensures Represents(s, f, RecordsOf(order), keys)
  {
    assert IpsOf(RecordsOf(order)) == ItemIps(order);
  }

  /** What the set operations of one run decided, when the snapshot was `l`. */
  ghost predicate Decided(s: Store, f: Family, l: seq<Record>, targets: seq<IpAddr>, force: bool, remote: ItemSet,
                          local: ItemSet, sames: seq<HashSetItem>, olds: seq<HashSetItem>, news: seq<HashSetItem>)
  {
    && Listing(s, f, l) && FromListing(remote, l) && WithoutRecords(local)
    && remote.Keys == Elems(IpsOf(l)) && local.Keys == Elems(targets)
    && Iteration(local, local.Keys - remote.Keys, news)
    && Iteration(remote, remote.Keys - local.Keys, olds)
    && (if force then Iteration(if |remote| <= |local| then remote else local, remote.Keys * local.Keys, sames)
        else sames == [])
  }

  /** Either the forced loop fails on its first item, or every item to rewrite carries its record. */
  lemma Decisions(s: Store, f: Family, l: seq<Record>, targets: seq<IpAddr>, force: bool, remote: ItemSet,
                  local: ItemSet, sames: seq<HashSetItem>, olds: seq<HashSetItem>, news: seq<HashSetItem>)
    requires Decided(s, f, l, targets, force, remote, local, sames, olds, news)
    ensures forall i :: 0 <= i < |olds| ==> olds[i].refRecord.Some?
    ensures force && ForcePanics(s, f, targets) ==> sames != [] && sames[0].refRecord.None?
    ensures !(force && ForcePanics(s, f, targets)) ==>
              (forall i :: 0 <= i < |sames| ==> sames[i].refRecord.Some?) &&
              IsPlan(s, f, targets, force, Plan(RecordsOf(sames), RecordsOf(olds), ItemIps(news)))
  {
    ListingPublished(s, f, l);
    assert |remote| == |remote.Keys| && |local| == |local.Keys|;
    ItemsRepresent(s, f, l, remote, remote.Keys - local.Keys, olds);
    if force {
      if sames == [] {
        assert Elems(ItemIps(sames)) == {};
        assert Represents(s, f, RecordsOf([]), {});
      } else {
        assert ItemIps(sames)[0] in Elems(ItemIps(sames));
        if |remote| <= |local| {
          ItemsRepresent(s, f, l, remote, remote.Keys * local.Keys, sames);
        }
      }
    } else {
      assert IpsOf(RecordsOf(sames)) == [];
    }
  }

  /**
   When the forced loop unwraps a missing record, for every order of the hash sets: exactly when the distinct
   published addresses outnumber the distinct targets and one address is in both. It is the first item then.
   */
  lemma UnwrapFailsIff(s: Store, f: Family, l: seq<Record>, targets: seq<IpAddr>, remote: ItemSet, local: ItemSet,
                       sames: seq<HashSetItem>, olds: seq<HashSetItem>, news: seq<HashSetItem>)
    requires Decided(s, f, l, targets, true, remote, local, sames, olds, news)
    ensures (exists i :: 0 <= i < |sames| && sames[i].refRecord.None?) <==>
            |Published(s, f)| > |Elems(targets)| && exists ip :: ip in targets && ip in Published(s, f)
    ensures (exists i :: 0 <= i < |sames| && sames[i].refRecord.None?) ==> sames[0].refRecord.None?
  {
    Decisions(s, f, l, targets, true, remote, local, sames, olds, news);
    CommonAddress(s, f, targets);
  }

  lemma CommonAddress(s: Store, f: Family, targets: seq<IpAddr>)
    ensures Published(s, f) * Elems(targets) != {} <==> exists ip :: ip in targets && ip in Published(s, f)
  {
    var both := Published(s, f) * Elems(targets);
    if both != {} {
      var ip :| ip in both;
      assert ip in targets && ip in Published(s, f);
    } else {
      assert forall ip :: ip in targets && ip in Published(s, f) ==> ip in both;
    }
  }

  /** What one run was asked for and decided, and the provider as it found it. */
  datatype Context = Context(s: Store, log: seq<Call>, faultless: bool, f: Family, targets: seq<IpAddr>, ttl: nat,
                             force: bool, plan: Plan)
  {
    function Calls(): seq<Call> { plan.Calls(ttl) }

    ghost predicate Valid() {
      IsPlan(s, f, targets, force, plan) && !(force && ForcePanics(s, f, targets))
    }

    /** All but the last of `states` are past: the calls so far succeeded and led to `Last(states)`. */
    ghost predicate Reached(states: seq<Store>) {
      Partial(states, Calls()) && states[0] == s
    }

    /** The provider when exactly the calls behind `states` were sent. */
    ghost predicate Matches(p: Provider, states: seq<Store>)
      reads p
    {
      && Reached(states) && p.records == Last(states)
      && p.log == log + Calls()[..|states| - 1]
      && (faultless ==> p.Faultless())
    }

    /** The provider after the call following `states` failed. */
    ghost predicate Stopped(p: Provider, run: Run)
      reads p
    {
      && IsRun(s, f, targets, ttl, force, run) && run.outcome == Failed && Last(run.states) == p.records
      && run.plan == plan && run.issued > 0 && p.log == log + Calls()[..run.issued]
      && !faultless
    }

    /** The next call finds its record. */
    lemma Next(states: seq<Store>)
      requires Valid() && Reached(states) && |states| <= |Calls()|
      ensures Addressable(Last(states), Calls()[|states| - 1])
      ensures Calls()[|states| - 1] == PairCall(plan.Victims(), plan.Values(), ttl, |states| - 1)
      ensures Calls()[..|states|] == Calls()[..|states| - 1] + [Calls()[|states| - 1]]
    {
      PlanHeld(s, f, targets, force, plan);
      HeldAlong(states, plan.Victims(), plan.Values(), ttl, |states| - 1);
    }

    /** A call fails: the store is as before it, or as after it. */
    function FailedRun(states: seq<Store>, now: Store): Run
      requires states != []
    {
      Run(plan, if now == Last(states) then states else states + [now], |states|, Failed)
    }

    lemma FailureIsRun(states: seq<Store>, now: Store)
      requires Valid() && Reached(states) && |states| <= |Calls()|
      requires now == Last(states) || Effect(Last(states), Calls()[|states| - 1], now)
      ensures IsRun(s, f, targets, ttl, force, FailedRun(states, now))
      ensures Last(FailedRun(states, now).states) == now
    {
      if now != Last(states) {
        PartialExtend(states, Calls(), now);
      }
    }
  }

  /** One update within a run. */
  method Rewrite(p: Provider, record: Record, ip: IpAddr, ghost c: Context, ghost states: seq<Store>)
    returns (ok: bool, ghost states': seq<Store>, ghost run: Run)
    requires c.Valid() && c.Matches(p, states)
    requires |states| <= |c.plan.Victims()| && c.plan.Victims()[|states| - 1] == record
    requires |states| <= |c.plan.Values()| && c.plan.Values()[|states| - 1] == ip
    modifies p
    ensures |states'| == |states| + 1
    ensures if ok then c.Matches(p, states') else c.Stopped(p, run)
  {
    c.Next(states);
    ok := p.UpdateDnsRecord(record, ip);
    states' := states + [p.records];
    run := c.FailedRun(states, p.records);
    if ok {
      PartialExtend(states, c.Calls(), p.records);
    } else {
      c.FailureIsRun(states, p.records);
    }
  }

  /** One deletion within a run. */
  method Remove(p: Provider, record: Record, ghost c: Context, ghost states: seq<Store>)
    returns (ok: bool, ghost states': seq<Store>, ghost run: Run)
    requires c.Valid() && c.Matches(p, states)
    requires |c.plan.Values()| < |states| <= |c.plan.Victims()| && c.plan.Victims()[|states| - 1] == record
    modifies p
    ensures |states'| == |states| + 1
    ensures if ok then c.Matches(p, states') else c.Stopped(p, run)
  {
    c.Next(states);
    ok := p.DeleteDnsRecord(record);
    states' := states + [p.records];
    run := c.FailedRun(states, p.records);
    if ok {
      PartialExtend(states, c.Calls(), p.records);
    } else {
      c.FailureIsRun(states, p.records);
    }
  }

  /** One creation within a run. */
  method Add(p: Provider, ip: IpAddr, ttl: nat, ghost c: Context, ghost states: seq<Store>)
    returns (ok: bool, ghost states': seq<Store>, ghost run: Run)
    requires c.Valid() && c.Matches(p, states)
    requires |c.plan.Victims()| < |states| <= |c.plan.Values()| && c.plan.Values()[|states| - 1] == ip
    requires c.ttl == ttl
    modifies p
    ensures |states'| == |states| + 1
    ensures if ok then c.Matches(p, states') else c.Stopped(p, run)
  {
    c.Next(states);
    ok := p.CreateDnsRecord(ip, ttl);
    states' := states + [p.records];
    run := c.FailedRun(states, p.records);
    if ok {
      PartialExtend(states, c.Calls(), p.records);
    } else {
      c.FailureIsRun(states, p.records);
    }
  }

  /** `items` are the records of `rs` from position `k` on. */
  ghost predicate Remaining(items: seq<HashSetItem>, rs: seq<Record>, k: nat) {
    && |items| + k == |rs|
    && forall i :: 0 <= i < |items| ==> items[i] == HashSetItem(rs[k + i].ip, Some(rs[k + i]))
  }

  /** The loop over the forced items; an item without a record is the panic. */
  method ForceUpdates(p: Provider, sames: seq<HashSetItem>, ghost c: Context)
    returns (r: Outcome, ghost states: seq<Store>, ghost run: Run)
    requires c.Matches(p, [c.s])
    requires (sames != [] && sames[0].refRecord.None?) || (c.Valid() && Remaining(sames, c.plan.sames, 0))
    modifies p
    ensures r.Panicked? <==> sames != [] && sames[0].refRecord.None?
    ensures r.Panicked? ==> c.Matches(p, [c.s])
    ensures r.Failed? ==> c.Stopped(p, run)
    ensures r.Reported? ==>
              c.Matches(p, states) && |states| == |sames| + 1 && r.ips == IpsOf(c.plan.sames)
  {
    var realUsedIps: seq<IpAddr> := [];
    states, run := [c.s], Run(c.plan, [c.s], 0, Failed);
    for i := 0 to |sames|
      invariant sames != [] && sames[0].refRecord.None? ==> i == 0
      invariant |states| == i + 1 && c.Matches(p, states)
      invariant i > 0 ==> realUsedIps == IpsOf(c.plan.sames)[..i]
      invariant i == 0 ==> states == [c.s] && realUsedIps == []
    {
      if sames[i].refRecord.None? {
        return Panicked, states, run;
      }
      var record, ip := sames[i].refRecord.value, sames[i].ip;
      var ok;
      ok, states, run := Rewrite(p, record, ip, c, states);
      if !ok {
        return Failed, states, run;
      }
      realUsedIps := realUsedIps + [ip];
    }
    r := Reported(realUsedIps);
  }

  /** The `while let` loop: the first stale record takes the first missing address. */
  method PairUpdates(p: Provider, stale: seq<HashSetItem>, missing: seq<HashSetItem>, ghost c: Context,
                     ghost before: seq<Store>)
    returns (ok: bool, used: seq<IpAddr>, olds: seq<HashSetItem>, news: seq<HashSetItem>, ghost states: seq<Store>,
             ghost run: Run)
    requires c.Valid() && c.Matches(p, before) && |before| == |c.plan.sames| + 1
    requires Remaining(stale, c.plan.olds, 0) && ItemIps(missing) == c.plan.news
    modifies p
    ensures !ok ==> c.Stopped(p, run)
    ensures ok ==>
              var k := |used|;
              && c.Matches(p, states) && |states| == |c.plan.sames| + k + 1
              && k <= |c.plan.news| && used == c.plan.news[..k]
              && Remaining(olds, c.plan.olds, k) && ItemIps(news) == c.plan.news[k..]
              && (olds == [] || news == [])
  {
    used, olds, news := [], stale, missing;
    states, run := before, Run(c.plan, before, 0, Failed);
    ok := true;
    while olds != [] && news != []
      invariant |states| == |c.plan.sames| + |used| + 1
      invariant |used| <= |c.plan.news| && used == c.plan.news[..|used|]
      invariant Remaining(olds, c.plan.olds, |used|) && ItemIps(news) == c.plan.news[|used|..]
      invariant c.Matches(p, states)
      decreases |olds|
    {
      var record, newIp := olds[0].refRecord.value, news[0].ip;
      assert record == c.plan.olds[|used|] && newIp == c.plan.news[|used|];
      olds, news := olds[1..], news[1..];
      ok, states, run := Rewrite(p, record, newIp, c, states);
      if !ok {
        return;
      }
      used := used + [newIp];
    }
  }

  /** The loop over the stale records no missing address was left for. */
  method DeleteRest(p: Provider, olds: seq<HashSetItem>, ghost c: Context, ghost before: seq<Store>, ghost k: nat)
    returns (ok: bool, ghost states: seq<Store>, ghost run: Run)
    requires c.Valid() && c.Matches(p, before) && |before| == |c.plan.sames| + k + 1
    requires Remaining(olds, c.plan.olds, k) && (olds != [] ==> k == |c.plan.news|)
    modifies p
    ensures if ok then c.Matches(p, states) && |states| == |before| + |olds| else c.Stopped(p, run)
  {
    ok, states, run := true, before, Run(c.plan, before, 0, Failed);
    for i := 0 to |olds|
      invariant |states| == |before| + i && c.Matches(p, states)
      invariant ok
    {
      ok, states, run := Remove(p, olds[i].refRecord.value, c, states);
      if !ok {
        return;
      }
    }
  }

  /** The loop over the missing addresses no stale record was left for. */
  method CreateRest(p: Provider, news: seq<HashSetItem>, ttl: nat, ghost c: Context, ghost before: seq<Store>,
                    ghost k: nat)
    returns (ok: bool, used: seq<IpAddr>, ghost states: seq<Store>, ghost run: Run)
    requires c.Valid() && c.Matches(p, before) && c.ttl == ttl
    requires k <= |c.plan.news| && ItemIps(news) == c.plan.news[k..]
    requires news != [] ==> |before| == |c.plan.sames| + k + 1 && k == |c.plan.olds|
    modifies p
    ensures if ok then c.Matches(p, states) && |states| == |before| + |news| && used == c.plan.news[k..]
            else c.Stopped(p, run)
  {
    ok, used, states, run := true, [], before, Run(c.plan, before, 0, Failed);
    for i := 0 to |news|
      invariant |states| == |before| + i && c.Matches(p, states)
      invariant ok && used == c.plan.news[k..][..i]
    {
      assert news[i].ip == c.plan.news[k..][i];
      ok, states, run := Add(p, news[i].ip, ttl, c, states);
      if !ok {
        return;
      }
      used := used + [news[i].ip];
    }
  }

  /** The hash sets of one run and the orders they are walked in. */
  method Compare(dnsRecords: seq<Record>, newIps: seq<IpAddr>, force: bool, ghost s: Store, ghost family: Family)
    returns (sames: seq<HashSetItem>, olds: seq<HashSetItem>, news: seq<HashSetItem>, ghost plan: Plan)
    requires Listing(s, family, dnsRecords)
    ensures if force && ForcePanics(s, family, newIps)
            then plan == Plan([], [], []) && sames != [] && sames[0].refRecord.None?
            else IsPlan(s, family, newIps, force, plan) && Remaining(sames, plan.sames, 0) &&
                 Remaining(olds, plan.olds, 0) && ItemIps(news) == plan.news
  {
    var newIpSet := CollectTargets(newIps);
    var dnsRecordSet := CollectRecords(dnsRecords);
    news := Difference(newIpSet, dnsRecordSet);
    olds := Difference(dnsRecordSet, newIpSet);
    sames := [];
    if force {
      sames := Intersection(dnsRecordSet, newIpSet);
    }
    Decisions(s, family, dnsRecords, newIps, force, dnsRecordSet, newIpSet, sames, olds, news);
    plan := Plan([], [], []);
    if !(force && ForcePanics(s, family, newIps)) {
      plan := Plan(RecordsOf(sames), RecordsOf(olds), ItemIps(news));
    }
  }

  /** The three loops that change addresses, in their order: update pairs, delete the rest, create the rest. */
  method MoveRecords(p: Provider, stale: seq<HashSetItem>, missing: seq<HashSetItem>, ttl: nat, ghost c: Context,
                     ghost before: seq<Store>)
    returns (ok: bool, used: seq<IpAddr>, ghost states: seq<Store>, ghost run: Run)
    requires c.Valid() && c.Matches(p, before) && |before| == |c.plan.sames| + 1 && c.ttl == ttl
    requires Remaining(stale, c.plan.olds, 0) && ItemIps(missing) == c.plan.news
    modifies p
    ensures if ok then c.Matches(p, states) && |states| == |c.Calls()| + 1 && used == c.plan.news
            else c.Stopped(p, run)
  {
    var olds, news;
    ok, used, olds, news, states, run := PairUpdates(p, stale, missing, c, before);
    if ok {
      ghost var k := |used|;
      ok, states, run := DeleteRest(p, olds, c, states, k);
      if ok {
        var created;
        ok, created, states, run := CreateRest(p, news, ttl, c, states, k);
        used := used + created;
      }
    }
  }

  /** The addresses written by some calls, in their order. */
  function Written(calls: seq<Call>): seq<IpAddr> {
    if calls == [] then []
    else Written(calls[..|calls| - 1]) + if Last(calls).Delete? then [] else [Last(calls).ip]
  }

  lemma {:induction false} WrittenValues(olds: seq<Record>, news: seq<IpAddr>, ttl: nat, n: nat)
    requires n <= Max(|olds|, |news|)
    ensures Written(PairCalls(olds, news, ttl)[..n]) == news[..Min(n, |news|)]
  {
    if n > 0 {
      var calls := PairCalls(olds, news, ttl);
      WrittenValues(olds, news, ttl, n - 1);
      assert calls[..n][..n - 1] == calls[..n - 1];
    }
  }

  /** A report lists what was written, in the order of the calls. */
  lemma ReportIsWritten(before: seq<Call>, log: seq<Call>, s: Store, f: Family, targets: seq<IpAddr>, ttl: nat,
                        force: bool, run: Run)
    requires IsRun(s, f, targets, ttl, force, run) && log == before + run.plan.Calls(ttl)[..run.issued]
    requires run.outcome.Reported?
    ensures run.outcome.ips == Written(log[|before|..])
  {
    WrittenValues(run.plan.Victims(), run.plan.Values(), ttl, run.issued);
    assert log[|before|..] == run.plan.Calls(ttl)[..run.issued];
  }

  /** What was sent, read off the log: the calls of a run follow from the snapshot and the targets alone. */
  lemma SentCalls(before: seq<Call>, log: seq<Call>, s: Store, f: Family, targets: seq<IpAddr>, ttl: nat, force: bool,
                  run: Run)
    requires IsRun(s, f, targets, ttl, force, run) && log == before + run.plan.Calls(ttl)[..run.issued]
    ensures forall k :: |before| <= k < |log| ==>
              if log[k].Create? then log[k].ttl == ttl && log[k].ip in targets && log[k].ip !in Published(s, f)
              else log[k].id in s && FamilyOf(s[log[k].id]) == f
    ensures forall k :: |before| <= k < |log| && log[k].Delete? ==> log[k].id in s && s[log[k].id] !in targets
    ensures forall k :: |before| <= k < |log| && log[k].Update? ==>
              && log[k].ip in targets && log[k].id in s
              && if s[log[k].id] == log[k].ip then force
                 else s[log[k].id] !in targets && log[k].ip !in Published(s, f)
    ensures forall j, k :: |before| <= j < k < |log| ==>
              (!log[j].Create? && !log[k].Create? ==> log[j].id != log[k].id) &&
              (!log[j].Delete? && !log[k].Delete? ==> log[j].ip != log[k].ip)
  {
    forall k | |before| <= k < |log|
      ensures log[k] == run.plan.Calls(ttl)[k - |before|] && k - |before| < |run.plan.Calls(ttl)|
      ensures match log[k]
              case Create(ip, t) => t == ttl && ip in targets && ip !in Published(s, f)
              case Update(id, ip) =>
                && id in s && FamilyOf(s[id]) == f && ip in targets
                && if s[id] == ip then force else s[id] !in targets && ip !in Published(s, f)
              case Delete(id) => id in s && FamilyOf(s[id]) == f && s[id] !in targets
    {
      PlannedCall(s, f, targets, force, run.plan, ttl, k - |before|);
    }
    forall j, k | |before| <= j < k < |log|
      ensures !log[j].Create? && !log[k].Create? ==> log[j].id != log[k].id
      ensures !log[j].Delete? && !log[k].Delete? ==> log[j].ip != log[k].ip
    {
      PlannedOnce(s, f, targets, force, run.plan, ttl, j - |before|, k - |before|);
    }
  }

  lemma Accounted(before: seq<Call>, log: seq<Call>, s: Store, f: Family, targets: seq<IpAddr>, ttl: nat, force: bool,
                  run: Run)
    requires IsRun(s, f, targets, ttl, force, run) && log == before + run.plan.Calls(ttl)[..run.issued]
    ensures forall k :: |before| <= k < |log| ==>
              if log[k].Create? then log[k].ttl == ttl && log[k].ip in targets else log[k].id in s
    ensures run.outcome.Reported? ==> run.outcome.ips == Written(log[|before|..])
  {
    SentCalls(before, log, s, f, targets, ttl, force, run);
    if run.outcome.Reported? {
      ReportIsWritten(before, log, s, f, targets, ttl, force, run);
    }
  }

  /** The sets of the run do not let the forced loop begin. */
  ghost predicate Doomed(c: Context, sames: seq<HashSetItem>) {
    && c.force && ForcePanics(c.s, c.f, c.targets) && c.plan == Plan([], [], [])
    && sames != [] && sames[0].refRecord.None?
  }

  /** The four loops, in their order. */
  method Loops(p: Provider, sames: seq<HashSetItem>, olds: seq<HashSetItem>, news: seq<HashSetItem>, ttl: nat,
               ghost c: Context)
    returns (r: Outcome, ghost run: Run)
    requires c.Matches(p, [c.s]) && c.ttl == ttl
    requires || Doomed(c, sames)
             || (c.Valid() && Remaining(sames, c.plan.sames, 0) && Remaining(olds, c.plan.olds, 0) &&
                 ItemIps(news) == c.plan.news)
    modifies p
    ensures IsRun(c.s, c.f, c.targets, ttl, c.force, run) && run.plan == c.plan
    ensures run.outcome == r && Last(run.states) == p.records
    ensures p.log == c.log + c.Calls()[..run.issued]
    ensures Listed(run) && (r.Panicked? <==> c.force && ForcePanics(c.s, c.f, c.targets))
    ensures c.faultless ==> !r.Failed? && p.Faultless()
  {
    ghost var states;
    r, states, run := ForceUpdates(p, sames, c);
    if r.Panicked? {
      run := Run(c.plan, [c.s], 0, Panicked);
    } else if r.Reported? {
      var ok, used;
      ok, used, states, run := MoveRecords(p, olds, news, ttl, c, states);
      r := if ok then Reported(r.ips + used) else Failed;
      run := if ok then Run(c.plan, states, |c.Calls()|, r) else run;
    }
  }

  method CheckAndUpdate(p: Provider, newIps: seq<IpAddr>, ttl: nat, force: bool, family: Family)
    returns (r: Outcome, ghost run: Run)
    modifies p
    ensures IsRun(old(p.records), family, newIps, ttl, force, run)
    ensures run.outcome == r && Last(run.states) == p.records
    ensures p.log == old(p.log) + run.plan.Calls(ttl)[..run.issued]
    ensures forall k :: |old(p.log)| <= k < |p.log| ==>
              if p.log[k].Create? then p.log[k].ttl == ttl && p.log[k].ip in newIps
              else p.log[k].id in old(p.records)
    ensures r.Reported? ==> r.ips == Written(p.log[|old(p.log)|..])
    ensures old(p.NextFate()) != Served ==> r.Failed? && run.issued == 0
    ensures old(p.NextFate()) == Served ==>
              Listed(run) && (r.Panicked? <==> force && ForcePanics(old(p.records), family, newIps))
    ensures old(p.Faultless()) ==> !r.Failed? && p.Faultless()
  {
    ghost var c := Context(p.records, p.log, p.Faultless(), family, newIps, ttl, force, Plan([], [], []));
    var dnsRecords := p.GetDnsRecord(family);
    if dnsRecords.None? {
      r, run := Failed, Run(c.plan, [p.records], 0, Failed);
    } else {
      var sames, olds, news;
      ghost var plan;
      sames, olds, news, plan := Compare(dnsRecords.value, newIps, force, c.s, family);
      r, run := Loops(p, sames, olds, news, ttl, c.(plan := plan));
    }
    Accounted(c.log, p.log, c.s, family, newIps, ttl, force, run);
  }
}
