/** Availability during a run, the cost of a run, what it reports, and the forced path. */
module ReconcileBounds {
  import opened Net
  import opened RecordStore
  import opened Reconcile
  import opened ReconcileLaws

  // ---- no outage ----

  /** The number of records of one family. */
  function Size(s: Store, f: Family): nat {
    |View(s, f)|
  }

  /** Call number `i` finds its record and stays inside the family. */
  ghost predicate InFamilyAt(states: seq<Store>, calls: seq<Call>, f: Family, i: nat)
    requires i < |calls| && i + 1 < |states|
  {
    Addressable(states[i], calls[i]) && Within(states[i], calls[i], f)
  }

  /** Every call of a plan towards legal targets stays inside the family. */
  lemma CallInFamily(s: Store, f: Family, targets: seq<IpAddr>, ttl: nat, force: bool, p: Plan, states: seq<Store>,
                     i: nat)
    requires Moment(s, f, targets, ttl, force, p, states, i + 1) && AllOf(targets, f)
    ensures InFamilyAt(states, p.Calls(ttl), f, i)
  {
    PlanHeld(s, f, targets, force, p);
    HeldAlong(states, p.Victims(), p.Values(), ttl, i);
    if i < |p.Values()| {
      PlanMembers(s, f, targets, force, p, p.Values()[i]);
    }
  }

  /** The family grows or shrinks by one per call once the shorter of the two lists is used up. */
  lemma {:induction false} PairSize(states: seq<Store>, olds: seq<Record>, news: seq<IpAddr>, ttl: nat, f: Family,
                                    i: nat)
    requires Partial(states, PairCalls(olds, news, ttl)) && i < |states|
    requires forall k :: 0 <= k < |states| - 1 ==> InFamilyAt(states, PairCalls(olds, news, ttl), f, k)
    ensures Size(states[i], f) + Min(i, |olds|) == Size(states[0], f) + Min(i, |news|)
  {
    if i > 0 {
      var calls := PairCalls(olds, news, ttl);
      PairSize(states, olds, news, ttl, f, i - 1);
      assert Advances(states, calls, i - 1) && InFamilyAt(states, calls, f, i - 1);
      assert calls[i - 1] == PairCall(olds, news, ttl, i - 1);
      EffectSize(states[i - 1], calls[i - 1], states[i], f);
    }
  }

  lemma PrefixSize(s: Store, f: Family, targets: seq<IpAddr>, ttl: nat, force: bool, p: Plan, states: seq<Store>,
                   i: nat)
    requires Moment(s, f, targets, ttl, force, p, states, i) && AllOf(targets, f)
    ensures Size(states[i], f) + Min(i, |p.Victims()|) == Size(s, f) + Min(i, |p.Values()|)
  {
    forall k | 0 <= k < |states| - 1
      ensures InFamilyAt(states, p.Calls(ttl), f, k)
    {
      CallInFamily(s, f, targets, ttl, force, p, states, k);
    }
    PairSize(states, p.Victims(), p.Values(), ttl, f, i);
  }

  lemma CountWithinSize(s: Store, f: Family, ip: IpAddr)
    requires FamilyOf(ip) == f
    ensures Count(s, ip) <= Size(s, f)
  {
    SubsetCard(Ids(s, ip), View(s, f).Keys);
    assert |View(s, f).Keys| == |View(s, f)|;
  }

  /** The targets that are published. */
  function Serving(s: Store, f: Family, targets: seq<IpAddr>): set<IpAddr> {
    Published(s, f) * Elems(targets)
  }

  lemma ServingGrows(s: Store, f: Family, targets: seq<IpAddr>, ttl: nat, force: bool, p: Plan, states: seq<Store>,
                     i: nat, j: nat)
    requires Moment(s, f, targets, ttl, force, p, states, j) && i <= j
    ensures Serving(states[i], f, targets) <= Serving(states[j], f, targets)
    ensures |Serving(states[i], f, targets)| <= |Serving(states[j], f, targets)|
  {
    PublishedByCount(states[i], f);
    PublishedByCount(states[j], f);
    forall ip | ip in Serving(states[i], f, targets)
      ensures ip in Serving(states[j], f, targets)
    {
      Monotone(s, f, targets, ttl, force, p, states, i, j, ip);
    }
    SubsetCard(Serving(states[i], f, targets), Serving(states[j], f, targets));
  }

  lemma NeverEmpty(s: Store, f: Family, targets: seq<IpAddr>, ttl: nat, force: bool, p: Plan, states: seq<Store>,
                   i: nat)
    requires Moment(s, f, targets, ttl, force, p, states, i) && AllOf(targets, f)
    requires Size(s, f) > 0 && targets != []
    ensures Size(states[i], f) > 0
  {
    PrefixSize(s, f, targets, ttl, force, p, states, i);
    if i > |p.Values()| {
      var ip := targets[0];
      AnyMoment(s, f, targets, ttl, force, p, states, i, ip);
      PublishedIffCount(s, f, ip);
      CountWithinSize(states[i], f, ip);
    }
  }

  /** No outage: with some record and some target, the family is never empty between two calls of a run. */
  lemma NoOutage(s: Store, f: Family, targets: seq<IpAddr>, ttl: nat, force: bool, run: Run, i: nat)
    requires IsRun(s, f, targets, ttl, force, run) && i < |run.states|
    requires AllOf(targets, f) && Size(s, f) > 0 && targets != []
    ensures Size(run.states[i], f) > 0
  {
    if i > 0 {
      NeverEmpty(s, f, targets, ttl, force, run.plan, run.states, i);
    }
  }

  /** A target that is published stays published during a run, and the number of published targets never drops. */
  lemma TargetsStay(s: Store, f: Family, targets: seq<IpAddr>, ttl: nat, force: bool, run: Run, i: nat, j: nat)
    requires IsRun(s, f, targets, ttl, force, run) && i <= j < |run.states|
    ensures Serving(run.states[i], f, targets) <= Serving(run.states[j], f, targets)
    ensures |Serving(run.states[i], f, targets)| <= |Serving(run.states[j], f, targets)|
  {
    if i < j {
      ServingGrows(s, f, targets, ttl, force, run.plan, run.states, i, j);
    }
  }

  /** Ids with different addresses are as many as their addresses. */
  lemma {:induction false} ImageCard(s: Store, ids: set<Id>)
    requires ids <= s.Keys
    requires forall a, b :: a in ids && b in ids && s[a] == s[b] ==> a == b
    ensures |set id | id in ids :: s[id]| == |ids|
    decreases |ids|
  {
    if ids != {} {
      var x :| x in ids;
      var rest := ids - {x};
      ImageCard(s, rest);
      var image := set id | id in rest :: s[id];
      assert (set id | id in ids :: s[id]) == image + {s[x]};
    }
  }

  lemma TwoIds(ids: set<Id>, a: Id, b: Id)
    requires a in ids && b in ids && |ids| <= 1
    ensures a == b
  {
    if a != b {
      SubsetCard({a, b}, ids);
    }
  }

  lemma DistinctSize(s: Store, f: Family)
    requires Distinct(s, f)
    ensures Size(s, f) == |Published(s, f)|
  {
    var v := View(s, f);
    forall a, b | a in v.Keys && b in v.Keys && s[a] == s[b]
      ensures a == b
    {
      TwoIds(Ids(s, s[a]), a, b);
    }
    ImageCard(s, v.Keys);
    assert Published(s, f) == set id | id in v.Keys :: s[id];
  }

  /** The lengths of a plan's lists are the sizes of the set differences they enumerate. */
  lemma PlanSizes(s: Store, f: Family, targets: seq<IpAddr>, force: bool, p: Plan)
    requires IsPlan(s, f, targets, force, p)
    ensures |p.olds| == |Published(s, f) - Elems(targets)|
    ensures |p.news| == |Elems(targets) - Published(s, f)|
    ensures |p.sames| == if force then |Published(s, f) * Elems(targets)| else 0
  {
    EnumeratesCard(IpsOf(p.olds), Published(s, f) - Elems(targets));
    EnumeratesCard(p.news, Elems(targets) - Published(s, f));
    EnumeratesCard(IpsOf(p.sames), if force then Published(s, f) * Elems(targets) else {});
  }

  /** A run makes no more calls than there are published addresses and targets. */
  lemma CallsBound(s: Store, f: Family, targets: seq<IpAddr>, force: bool, plan: Plan, ttl: nat)
    requires IsPlan(s, f, targets, force, plan)
    ensures |plan.Calls(ttl)| <= |Published(s, f)| + |targets|
  {
    var p, t := Published(s, f), Elems(targets);
    PlanSizes(s, f, targets, force, plan);
    SplitCard(p, t);
    SplitCard(t, p);
    ElemsCard(targets);
    assert p * t == t * p;
  }

  lemma SizeBetweenAt(s: Store, f: Family, targets: seq<IpAddr>, ttl: nat, force: bool, p: Plan, states: seq<Store>,
                      i: nat)
    requires Moment(s, f, targets, ttl, force, p, states, i)
    requires AllOf(targets, f) && Distinct(s, f)
    ensures Min(Size(s, f), |Elems(targets)|) <= Size(states[i], f) <= Max(Size(s, f), |Elems(targets)|)
  {
    PrefixSize(s, f, targets, ttl, force, p, states, i);
    PlanSizes(s, f, targets, force, p);
    DistinctSize(s, f);
    var pub, t := Published(s, f), Elems(targets);
    SplitCard(pub, t);
    SplitCard(t, pub);
    assert pub * t == t * pub;
  }

  /** With distinct records the family's size stays between its old size and the number of targets. */
  lemma {:induction false} SizeBetween(s: Store, f: Family, targets: seq<IpAddr>, ttl: nat, force: bool, run: Run, i: nat)
    requires IsRun(s, f, targets, ttl, force, run) && i < |run.states|
    requires AllOf(targets, f) && Distinct(s, f)
    ensures Min(Size(s, f), |Elems(targets)|) <= Size(run.states[i], f) <= Max(Size(s, f), |Elems(targets)|)
  {
    if i > 0 {
      SizeBetweenAt(s, f, targets, ttl, force, run.plan, run.states, i);
    }
  }

  // ---- optimality ----

  /** Two sets that differ in at most one added element have nearly the same size. */
  lemma AtMostOneMore<T>(a: set<T>, b: set<T>, extra: set<T>)
    requires a <= b + extra && |extra| <= 1
    ensures |a| <= |b| + 1
  {
    SubsetCard(a, b + extra);
    assert |b + extra| == |b| + |extra| - |b * extra|;
  }

  /** One call publishes at most the address it writes and unpublishes at most the one it overwrites. */
  lemma EffectPublished(s: Store, c: Call, s': Store, f: Family)
    requires Effect(s, c, s')
    ensures Published(s', f) <= Published(s, f) + (if c.Delete? then {} else {c.ip})
    ensures Published(s, f) <= Published(s', f) + (if c.Create? then {} else {s[c.id]})
  {
    PublishedByCount(s, f);
    PublishedByCount(s', f);
    forall ip
      ensures Count(s', ip) + Lost(s, c, ip) == Count(s, ip) + Gained(c, ip)
    {
      EffectCount(s, c, s', ip);
    }
  }

  lemma EffectDistance(s: Store, c: Call, s': Store, f: Family, targets: set<IpAddr>)
    requires Effect(s, c, s')
    ensures |targets - Published(s, f)| <= |targets - Published(s', f)| + 1
    ensures |Published(s, f) - targets| <= |Published(s', f) - targets| + 1
  {
    var p, p' := Published(s, f), Published(s', f);
    EffectPublished(s, c, s', f);
    AtMostOneMore(targets - p, targets - p', if c.Delete? then {} else {c.ip});
    AtMostOneMore(p - targets, p' - targets, if c.Create? then {} else {s[c.id]});
  }

  lemma {:induction false} LowerBound(states: seq<Store>, calls: seq<Call>, f: Family, targets: set<IpAddr>)
    requires Complete(states, calls)
    ensures |targets - Published(states[0], f)| <= |targets - Published(Last(states), f)| + |calls|
    ensures |Published(states[0], f) - targets| <= |Published(Last(states), f) - targets| + |calls|
    decreases |calls|
  {
    if calls != [] {
      var rest := states[1..];
      forall i | 0 <= i < |rest| - 1
        ensures Advances(rest, calls[1..], i)
      {
        assert Advances(states, calls, i + 1);
      }
      assert Advances(states, calls, 0);
      EffectDistance(states[0], calls[0], states[1], f, targets);
      LowerBound(rest, calls[1..], f, targets);
    }
  }

  /**
   Optimality: a run without force sends max(missing, stale) mutating calls, and no sequence of
   creates, updates and deletes that ends with exactly the targets published is shorter.
   */
  lemma Optimal(s: Store, f: Family, targets: seq<IpAddr>, ttl: nat, run: Run, states: seq<Store>, calls: seq<Call>)
    requires IsRun(s, f, targets, ttl, false, run) && run.outcome.Reported?
    requires Complete(states, calls) && states[0] == s && Published(Last(states), f) == Elems(targets)
    ensures run.issued == Max(|Elems(targets) - Published(s, f)|, |Published(s, f) - Elems(targets)|)
    ensures run.issued <= |calls|
  {
    PlanSizes(s, f, targets, false, run.plan);
    LowerBound(states, calls, f, Elems(targets));
    assert Elems(targets) - Elems(targets) == {};
  }

  // ---- the report ----

  /** The addresses a plan writes. */
  lemma PlanValues(s: Store, f: Family, targets: seq<IpAddr>, force: bool, p: Plan)
    requires IsPlan(s, f, targets, force, p)
    ensures Enumerates(p.Values(), if force then Elems(targets) else Elems(targets) - Published(s, f))
  {
    PlanHeld(s, f, targets, force, p);
    forall ip
      ensures ip in p.Values() <==> ip in targets && (force || !Seen(s, f, ip))
    {
      PlanMembers(s, f, targets, force, p, ip);
    }
  }

  /** What a successful run returns: each address once, the new ones without force, all targets with it. */
  lemma ExactReport(s: Store, f: Family, targets: seq<IpAddr>, ttl: nat, force: bool, run: Run)
    requires IsRun(s, f, targets, ttl, force, run) && run.outcome.Reported?
    ensures Enumerates(run.outcome.ips, if force then Elems(targets) else Elems(targets) - Published(s, f))
    ensures run.outcome.ips == [] <==>
            if force then targets == [] else Elems(targets) <= Published(s, f)
  {
    var want := if force then Elems(targets) else Elems(targets) - Published(s, f);
    PlanValues(s, f, targets, force, run.plan);
    EnumeratesCard(run.outcome.ips, want);
    if force && targets != [] {
      assert targets[0] in want;
    }
    if !force && want == {} {
      forall ip | ip in Elems(targets)
        ensures ip in Published(s, f)
      {
        assert ip !in want;
      }
    }
  }

  // ---- the forced path ----

  /** A forced run whose listing succeeded panics exactly when the smaller side is the wrong one. */
  lemma ForcedPanicIff(s: Store, f: Family, targets: seq<IpAddr>, ttl: nat, run: Run)
    requires IsRun(s, f, targets, ttl, true, run) && Listed(run)
    ensures run.outcome.Panicked? <==>
            |Published(s, f)| > |Elems(targets)| && exists ip :: ip in targets && ip in Published(s, f)
    ensures run.outcome.Panicked? ==> run.issued == 0 && After(run) == s
  {
    CommonAddress(s, f, targets);
  }

  /**
   The documented rewrite of a record that is already right fails here: with two records, one of them the
   only target, there is a forced run, and every one whose listing succeeds panics before it sends a call.
   */
  lemma ForcedPanicExample(ttl: nat)
    ensures var s: Store, targets := map[1 := Ipv4(1), 2 := Ipv4(2)], [Ipv4(1)];
            && IsRun(s, V4, targets, ttl, true, Run(Plan([], [], []), [s], 0, Panicked))
            && forall run :: IsRun(s, V4, targets, ttl, true, run) && Listed(run) ==>
                 run.outcome.Panicked? && run.issued == 0 && After(run) == s
  {
    var s: Store, targets := map[1 := Ipv4(1), 2 := Ipv4(2)], [Ipv4(1)];
    assert 1 in s && 2 in s;
    assert Ipv4(1) in Published(s, V4) && Ipv4(2) in Published(s, V4);
    SubsetCard({Ipv4(1), Ipv4(2)}, Published(s, V4));
    assert Elems(targets) == {Ipv4(1)};
    assert Ipv4(1) in targets;
    CommonAddress(s, V4, targets);
    forall run | IsRun(s, V4, targets, ttl, true, run) && Listed(run)
      ensures run.outcome.Panicked? && run.issued == 0 && After(run) == s
    {
      ForcedPanicIff(s, V4, targets, ttl, run);
    }
  }

  /** A forced run that gets through leaves the same number of records at each address as an unforced one. */
  lemma ForceChangesNothing(s: Store, f: Family, targets: seq<IpAddr>, ttl: nat, forced: Run, plain: Run)
    requires IsRun(s, f, targets, ttl, true, forced) && forced.outcome.Reported?
    requires IsRun(s, f, targets, ttl, false, plain) && plain.outcome.Reported?
    ensures forall ip :: Count(After(forced), ip) == Count(After(plain), ip)
    ensures Published(After(forced), f) == Published(After(plain), f)
    ensures forced.issued == plain.issued + |Published(s, f) * Elems(targets)|
  {
    CompleteRun(s, f, targets, ttl, true, forced);
    CompleteRun(s, f, targets, ttl, false, plain);
    PublishedByCount(After(forced), f);
    PublishedByCount(After(plain), f);
    PlanSizes(s, f, targets, true, forced.plan);
    PlanSizes(s, f, targets, false, plain.plan);
  }
}
