/** What every run of `check_and_update` does to the published addresses, for every enumeration order. */
module ReconcileLaws {
  import opened Net
  import opened RecordStore
  import opened Reconcile

  // ---- the exact number of records per address, after every call ----

  function Occurrences(ips: seq<IpAddr>, n: nat, ip: IpAddr): nat {
    multiset(ips[..Min(n, |ips|)])[ip]
  }

  lemma OccurrencesStep(ips: seq<IpAddr>, n: nat, ip: IpAddr)
    requires n > 0
    ensures Occurrences(ips, n, ip) == Occurrences(ips, n - 1, ip) + if n <= |ips| && ips[n - 1] == ip then 1 else 0
  {
    if n <= |ips| {
      assert ips[..n] == ips[..n - 1] + [ips[n - 1]];
    }
  }

  /** After `i` calls of a plan, exactly its first `i` victims have lost and its first `i` values gained a record. */
  lemma {:induction false} PrefixCount(states: seq<Store>, olds: seq<Record>, news: seq<IpAddr>, ttl: nat, i: nat,
                                       ip: IpAddr)
    requires Partial(states, PairCalls(olds, news, ttl))
    requires Held(states[0], olds)
    requires i < |states|
    ensures Count(states[i], ip) + Occurrences(IpsOf(olds), i, ip) == Count(states[0], ip) + Occurrences(news, i, ip)
  {
    if i > 0 {
      PrefixCount(states, olds, news, ttl, i - 1, ip);
      HeldAlong(states, olds, news, ttl, i - 1);
      assert Advances(states, PairCalls(olds, news, ttl), i - 1);
      EffectCount(states[i - 1], PairCalls(olds, news, ttl)[i - 1], states[i], ip);
      OccurrencesStep(IpsOf(olds), i, ip);
      OccurrencesStep(news, i, ip);
    }
  }

  /** An element of a duplicate-free list occurs once in every prefix long enough, else never. */
  lemma OccurrencesNoDup(ips: seq<IpAddr>, n: nat, ip: IpAddr)
    requires NoDup(ips)
    ensures Occurrences(ips, n, ip) <= 1
    ensures Occurrences(ips, n, ip) == 1 <==> ip in ips[..Min(n, |ips|)]
    ensures n >= |ips| ==> (Occurrences(ips, n, ip) == 1 <==> ip in ips)
    ensures ip !in ips ==> Occurrences(ips, n, ip) == 0
  {
    NoDupCount(ips[..Min(n, |ips|)], ip);
    assert ips[..|ips|] == ips;
  }

  lemma OccurrencesMonotone(ips: seq<IpAddr>, m: nat, n: nat, ip: IpAddr)
    requires m <= n
    ensures Occurrences(ips, m, ip) <= Occurrences(ips, n, ip)
  {
    var a, b := Min(m, |ips|), Min(n, |ips|);
    assert ips[..b] == ips[..a] + ips[a..b];
  }

  /** A target that is already published is not disturbed by its forced rewrite at any moment. */
  lemma ForcedPairs(sames: seq<Record>, olds: seq<Record>, news: seq<IpAddr>, n: nat, ip: IpAddr)
    requires NoDup(IpsOf(sames + olds)) && NoDup(IpsOf(sames) + news)
    requires ip in IpsOf(sames)
    ensures Occurrences(IpsOf(sames + olds), n, ip) == Occurrences(IpsOf(sames) + news, n, ip)
  {
    var a, b := IpsOf(sames + olds), IpsOf(sames) + news;
    var k :| 0 <= k < |sames| && IpsOf(sames)[k] == ip;
    assert a[k] == ip && b[k] == ip;
    assert forall j :: 0 <= j < |a| && a[j] == ip ==> j == k;
    assert forall j :: 0 <= j < |b| && b[j] == ip ==> j == k;
    OccurrencesNoDup(a, n, ip);
    OccurrencesNoDup(b, n, ip);
    if n > k {
      assert a[..Min(n, |a|)][k] == ip && b[..Min(n, |b|)][k] == ip;
    }
  }

  /** Seen by the run: the address is published in the family the run asked for. */
  predicate Seen(s: Store, f: Family, ip: IpAddr) {
    ip in Published(s, f)
  }

  /** The number of records a complete run leaves at an address. */
  function NextCount(s: Store, f: Family, targets: seq<IpAddr>, ip: IpAddr): int {
    if ip in targets && !Seen(s, f, ip) then Count(s, ip) + 1
    else if ip !in targets && Seen(s, f, ip) then Count(s, ip) - 1
    else Count(s, ip)
  }

  /** Which lists of the plan an address is in. */
  lemma PlanMembers(s: Store, f: Family, targets: seq<IpAddr>, force: bool, p: Plan, ip: IpAddr)
    requires IsPlan(s, f, targets, force, p)
    ensures ip in IpsOf(p.sames) <==> force && ip in targets && Seen(s, f, ip)
    ensures ip in IpsOf(p.olds) <==> ip !in targets && Seen(s, f, ip)
    ensures ip in p.news <==> ip in targets && !Seen(s, f, ip)
    ensures IpsOf(p.Victims()) == IpsOf(p.sames) + IpsOf(p.olds)
  {
    assert ip in IpsOf(p.sames) <==> ip in Elems(IpsOf(p.sames));
    assert ip in IpsOf(p.olds) <==> ip in Elems(IpsOf(p.olds));
    assert ip in p.news <==> ip in Elems(p.news);
  }

  /** The first `i` calls of a plan, taken from `s`. */
  ghost predicate Moment(s: Store, f: Family, targets: seq<IpAddr>, ttl: nat, force: bool, p: Plan,
                         states: seq<Store>, i: nat)
  {
    IsPlan(s, f, targets, force, p) && Partial(states, p.Calls(ttl)) && states[0] == s && i < |states|
  }

  /** At every moment each address has its old count or, once its call is through, its final one. */
  lemma AnyMoment(s: Store, f: Family, targets: seq<IpAddr>, ttl: nat, force: bool, p: Plan, states: seq<Store>,
                  i: nat, ip: IpAddr)
    requires Moment(s, f, targets, ttl, force, p, states, i)
    ensures Count(states[i], ip) == Count(s, ip) || Count(states[i], ip) == NextCount(s, f, targets, ip)
    ensures i >= |p.Values()| && ip in targets ==> Count(states[i], ip) == NextCount(s, f, targets, ip)
    ensures i == |p.Calls(ttl)| ==> Count(states[i], ip) == NextCount(s, f, targets, ip)
  {
    PlanHeld(s, f, targets, force, p);
    PlanMembers(s, f, targets, force, p, ip);
    PrefixCount(states, p.Victims(), p.Values(), ttl, i, ip);
    OccurrencesNoDup(IpsOf(p.Victims()), i, ip);
    OccurrencesNoDup(p.Values(), i, ip);
    if ip in IpsOf(p.sames) {
      ForcedPairs(p.sames, p.olds, p.news, i, ip);
    }
  }

  /** Between two moments a target only gains records and any other address only loses them. */
  lemma Monotone(s: Store, f: Family, targets: seq<IpAddr>, ttl: nat, force: bool, p: Plan, states: seq<Store>,
                 i: nat, j: nat, ip: IpAddr)
    requires Moment(s, f, targets, ttl, force, p, states, j) && i <= j
    ensures if ip in targets then Count(states[i], ip) <= Count(states[j], ip)
            else Count(states[j], ip) <= Count(states[i], ip)
  {
    PlanHeld(s, f, targets, force, p);
    PlanMembers(s, f, targets, force, p, ip);
    PrefixCount(states, p.Victims(), p.Values(), ttl, i, ip);
    PrefixCount(states, p.Victims(), p.Values(), ttl, j, ip);
    OccurrencesMonotone(IpsOf(p.Victims()), i, j, ip);
    OccurrencesMonotone(p.Values(), i, j, ip);
    OccurrencesNoDup(IpsOf(p.Victims()), j, ip);
    OccurrencesNoDup(p.Values(), j, ip);
    if ip in IpsOf(p.sames) {
      ForcedPairs(p.sames, p.olds, p.news, i, ip);
      ForcedPairs(p.sames, p.olds, p.news, j, ip);
    }
  }

  // ---- a complete run ----

  /** The store a run leaves behind. */
  function After(run: Run): Store
    requires run.states != []
  {
    Last(run.states)
  }

  /**
   The law of one complete run, for any records and any target list: a target not published gains
   one record, a published address that is no target loses one, everything else keeps its records.
   */
  lemma CompleteRun(s: Store, f: Family, targets: seq<IpAddr>, ttl: nat, force: bool, run: Run)
    requires IsRun(s, f, targets, ttl, force, run) && run.outcome.Reported?
    ensures forall ip :: Count(After(run), ip) == NextCount(s, f, targets, ip)
  {
    forall ip
      ensures Count(After(run), ip) == NextCount(s, f, targets, ip)
    {
      AnyMoment(s, f, targets, ttl, force, run.plan, run.states, |run.states| - 1, ip);
    }
  }

  lemma PublishedByCount(s: Store, f: Family)
    ensures forall ip :: ip in Published(s, f) <==> FamilyOf(ip) == f && Count(s, ip) > 0
  {
    forall ip
      ensures ip in Published(s, f) <==> FamilyOf(ip) == f && Count(s, ip) > 0
    {
      PublishedIffCount(s, f, ip);
    }
  }

  /**
   Duplicate-tolerant convergence of one run: afterwards the family publishes the targets and exactly
   those other addresses that had at least two records.
   */
  lemma CompleteRunPublishes(s: Store, f: Family, targets: seq<IpAddr>, ttl: nat, force: bool, run: Run)
    requires IsRun(s, f, targets, ttl, force, run) && run.outcome.Reported?
    requires AllOf(targets, f)
    ensures forall ip :: ip in Published(After(run), f) <==>
                         ip in targets || (FamilyOf(ip) == f && Count(s, ip) >= 2)
    ensures forall ip :: FamilyOf(ip) != f ==> Count(After(run), ip) == Count(s, ip)
  {
    CompleteRun(s, f, targets, ttl, force, run);
    PublishedByCount(s, f);
    PublishedByCount(After(run), f);
  }

  /** The published set is exactly the target set afterwards if and only if no stale address was doubled. */
  lemma ConvergesIff(s: Store, f: Family, targets: seq<IpAddr>, ttl: nat, force: bool, run: Run)
    requires IsRun(s, f, targets, ttl, force, run) && run.outcome.Reported?
    requires AllOf(targets, f)
    ensures Published(After(run), f) == Elems(targets) <==>
            forall ip :: FamilyOf(ip) == f && ip !in targets ==> Count(s, ip) <= 1
  {
    CompleteRunPublishes(s, f, targets, ttl, force, run);
    var p, t := Published(After(run), f), Elems(targets);
    if p == t {
      forall ip | FamilyOf(ip) == f && ip !in targets
        ensures Count(s, ip) <= 1
      {
        assert ip !in t;
      }
    }
  }

  // ---- runs cut off by errors ----

  /** Distinct records stay distinct at every moment of a run, whatever its outcome. */
  lemma StaysDistinct(s: Store, f: Family, targets: seq<IpAddr>, ttl: nat, force: bool, run: Run, i: nat)
    requires IsRun(s, f, targets, ttl, force, run) && i < |run.states|
    requires Distinct(s, f)
    ensures Distinct(run.states[i], f)
  {
    if i > 0 {
      forall ip | FamilyOf(ip) == f
        ensures Count(run.states[i], ip) <= 1
      {
        AnyMoment(s, f, targets, ttl, force, run.plan, run.states, i, ip);
        PublishedIffCount(s, f, ip);
      }
    }
  }

  /** One run of a task: its own target list and force flag, and what became of it. */
  datatype Attempt = Attempt(targets: seq<IpAddr>, ttl: nat, force: bool, run: Run)

  /** The attempts follow one another from `s`, each starting where the one before stopped. */
  ghost predicate Chain(s: Store, f: Family, attempts: seq<Attempt>)
    decreases |attempts|
  {
    attempts == [] ||
    var a := attempts[0];
    IsRun(s, f, a.targets, a.ttl, a.force, a.run) && Chain(After(a.run), f, attempts[1..])
  }

  ghost function AfterAll(s: Store, f: Family, attempts: seq<Attempt>): Store
    requires Chain(s, f, attempts)
    decreases |attempts|
  {
    if attempts == [] then s else AfterAll(After(attempts[0].run), f, attempts[1..])
  }

  lemma {:induction false} ChainDistinct(s: Store, f: Family, attempts: seq<Attempt>)
    requires Chain(s, f, attempts) && Distinct(s, f)
    ensures Distinct(AfterAll(s, f, attempts), f)
    decreases |attempts|
  {
    if attempts != [] {
      var a := attempts[0];
      StaysDistinct(s, f, a.targets, a.ttl, a.force, a.run, |a.run.states| - 1);
      ChainDistinct(After(a.run), f, attempts[1..]);
    }
  }

  /**
   Retry convergence: from distinct records, after any number of runs with any targets, each cut off
   anywhere by an error (the failing call applied or not), by a panic or not at all, one complete run
   publishes exactly its targets, one record each.
   */
  lemma RetryConverges(s: Store, f: Family, attempts: seq<Attempt>, targets: seq<IpAddr>, ttl: nat, force: bool,
                       run: Run)
    requires Distinct(s, f) && Chain(s, f, attempts) && AllOf(targets, f)
    requires IsRun(AfterAll(s, f, attempts), f, targets, ttl, force, run) && run.outcome.Reported?
    ensures Published(After(run), f) == Elems(targets)
    ensures Distinct(After(run), f)
  {
    var s' := AfterAll(s, f, attempts);
    ChainDistinct(s, f, attempts);
    ConvergesIff(s', f, targets, ttl, force, run);
    StaysDistinct(s', f, targets, ttl, force, run, |run.states| - 1);
  }

  // ---- repeated complete runs over duplicated records ----

  /** All attempts are complete runs towards the same targets. */
  ghost predicate Repeats(attempts: seq<Attempt>, targets: seq<IpAddr>) {
    forall i :: 0 <= i < |attempts| ==> attempts[i].targets == targets && attempts[i].run.outcome.Reported?
  }

  /** After `k` complete runs a stale address of multiplicity `m` has `max(0, m - k)` records left. */
  lemma {:induction false} RepeatedRuns(s: Store, f: Family, attempts: seq<Attempt>, targets: seq<IpAddr>, ip: IpAddr)
    requires Chain(s, f, attempts) && Repeats(attempts, targets)
    requires AllOf(targets, f) && FamilyOf(ip) == f
    ensures Count(AfterAll(s, f, attempts), ip) ==
            if ip !in targets then Max(Count(s, ip), |attempts|) - |attempts|
            else if attempts == [] then Count(s, ip) else Max(Count(s, ip), 1)
    decreases |attempts|
  {
    if attempts != [] {
      var a := attempts[0];
      CompleteRun(s, f, targets, a.ttl, a.force, a.run);
      PublishedIffCount(s, f, ip);
      RepeatedRuns(After(a.run), f, attempts[1..], targets, ip);
    }
  }

  /** `k > 0` complete runs reach exactly the targets iff no stale address had more than `k` records. */
  lemma RepeatedRunsConvergeIff(s: Store, f: Family, attempts: seq<Attempt>, targets: seq<IpAddr>)
    requires Chain(s, f, attempts) && Repeats(attempts, targets) && attempts != []
    requires AllOf(targets, f)
    ensures Published(AfterAll(s, f, attempts), f) == Elems(targets) <==>
            forall ip :: FamilyOf(ip) == f && ip !in targets ==> Count(s, ip) <= |attempts|
  {
    var s' := AfterAll(s, f, attempts);
    PublishedByCount(s', f);
    forall ip | FamilyOf(ip) == f
      ensures ip in Published(s', f) <==> ip in targets || Count(s, ip) > |attempts|
    {
      RepeatedRuns(s, f, attempts, targets, ip);
    }
    if Published(s', f) == Elems(targets) {
      forall ip | FamilyOf(ip) == f && ip !in targets
        ensures Count(s, ip) <= |attempts|
      {
        assert ip !in Elems(targets);
      }
    }
  }

  /** So as many complete runs as there are records always suffice. */
  lemma {:induction false} FinitelyManyRunsSuffice(s: Store, f: Family, attempts: seq<Attempt>, targets: seq<IpAddr>)
    requires Chain(s, f, attempts) && Repeats(attempts, targets) && attempts != []
    requires AllOf(targets, f) && |attempts| >= |s|
    ensures Published(AfterAll(s, f, attempts), f) == Elems(targets)
  {
    forall ip
      ensures Count(s, ip) <= |s|
    {
      SubsetCard(Ids(s, ip), s.Keys);
    }
    RepeatedRunsConvergeIff(s, f, attempts, targets);
  }

  // ---- crash-tolerant convergence from any records ----

  /** All attempts are runs towards the same targets, however they end. */
  ghost predicate Pursues(attempts: seq<Attempt>, targets: seq<IpAddr>) {
    forall i :: 0 <= i < |attempts| ==> attempts[i].targets == targets
  }

  /** How many of the attempts ran to their end. */
  function Completed(attempts: seq<Attempt>): nat {
    if attempts == [] then 0 else (if attempts[0].run.outcome.Reported? then 1 else 0) + Completed(attempts[1..])
  }

  /** One run, complete or cut off anywhere, moves no address away from its goal. */
  lemma AnyRunHelps(s: Store, f: Family, a: Attempt, ip: IpAddr)
    requires IsRun(s, f, a.targets, a.ttl, a.force, a.run)
    requires AllOf(a.targets, f) && FamilyOf(ip) == f
    ensures ip in a.targets ==> Count(After(a.run), ip) >= Count(s, ip)
    ensures ip !in a.targets ==> Count(After(a.run), ip) <= Count(s, ip)
    ensures a.run.outcome.Reported? ==>
              if ip in a.targets then Count(After(a.run), ip) >= 1
              else Count(After(a.run), ip) <= Max(Count(s, ip), 1) - 1
  {
    PublishedIffCount(s, f, ip);
    if a.run.issued > 0 {
      AnyMoment(s, f, a.targets, a.ttl, a.force, a.run.plan, a.run.states, |a.run.states| - 1, ip);
    }
    if a.run.outcome.Reported? {
      CompleteRun(s, f, a.targets, a.ttl, a.force, a.run);
    }
  }

  /**
   Of any attempts towards the same targets, `k` of them complete and any number cut off anywhere between
   them: a stale address of multiplicity `m` has at most `max(0, m - k)` records left, and a target has lost
   none and has at least one as soon as `k > 0`.
   */
  lemma {:induction false} AttemptsConverge(s: Store, f: Family, attempts: seq<Attempt>, targets: seq<IpAddr>,
                                            ip: IpAddr)
    requires Chain(s, f, attempts) && Pursues(attempts, targets)
    requires AllOf(targets, f) && FamilyOf(ip) == f
    ensures var k, s' := Completed(attempts), AfterAll(s, f, attempts);
            if ip in targets then Count(s', ip) >= Max(Count(s, ip), Min(k, 1))
            else Count(s', ip) <= Max(Count(s, ip), k) - k
    decreases |attempts|
  {
    if attempts != [] {
      AnyRunHelps(s, f, attempts[0], ip);
      AttemptsConverge(After(attempts[0].run), f, attempts[1..], targets, ip);
    }
  }

  /** So from any records, and with any crashes, as many complete runs as there are records reach the targets. */
  lemma {:induction false} CrashesOnlyDelay(s: Store, f: Family, attempts: seq<Attempt>, targets: seq<IpAddr>)
    requires Chain(s, f, attempts) && Pursues(attempts, targets) && AllOf(targets, f)
    requires Completed(attempts) >= Max(|s|, 1)
    ensures Published(AfterAll(s, f, attempts), f) == Elems(targets)
  {
    var s' := AfterAll(s, f, attempts);
    PublishedByCount(s', f);
    forall ip | FamilyOf(ip) == f
      ensures ip in Published(s', f) <==> ip in targets
    {
      SubsetCard(Ids(s, ip), s.Keys);
      AttemptsConverge(s, f, attempts, targets, ip);
    }
    assert forall ip :: ip in Published(s', f) <==> ip in Elems(targets);
  }

  /** Once the targets are what is published, a run without force sends nothing and reports nothing. */
  lemma Settled(s: Store, f: Family, targets: seq<IpAddr>, ttl: nat, run: Run)
    requires IsRun(s, f, targets, ttl, false, run)
    requires Published(s, f) == Elems(targets)
    ensures run.issued == 0 && After(run) == s
    ensures run.outcome.Reported? ==> run.outcome.ips == []
  {
    if run.issued > 0 || run.outcome.Reported? {
      EnumeratesCard(IpsOf(run.plan.sames), {});
      EnumeratesCard(IpsOf(run.plan.olds), {});
      EnumeratesCard(run.plan.news, {});
    }
  }
}
