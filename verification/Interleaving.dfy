/** An IPv4 and an IPv6 reconcile sharing one provider, interleaved at every remote call; any call may fail. */
module Interleaving {
  import opened Net
  import opened RecordStore
  import opened Reconcile
  import opened ReconcileLaws

  /** What one of the two reconciles was asked for. */
  datatype Goal = Goal(targets: seq<IpAddr>, ttl: nat, force: bool)

  /** How far it is; `views` are the stages its own family went through since the snapshot. */
  datatype Proc =
    | Ready
    | Busy(plan: Plan, views: seq<Store>)
    | Done(plan: Plan, views: seq<Store>)
    | Broken(run: Run)   // over before its end: an error, or the panic of the forced path
    | NoRecord           // a call addressed a record that was not there

  datatype Lane = Lane(goal: Goal, proc: Proc)

  datatype Shared = Shared(store: Store, v4: Lane, v6: Lane) {
    function Of(f: Family): Lane {
      if f == V4 then v4 else v6
    }
  }

  function Start(s: Store, g4: Goal, g6: Goal): Shared {
    Shared(s, Lane(g4, Ready), Lane(g6, Ready))
  }

  /** The records are listed, or the listing fails, or the forced path panics. */
  ghost predicate Begins(s: Store, f: Family, g: Goal, proc': Proc) {
    match proc'
    case Busy(plan, views) =>
      !(g.force && ForcePanics(s, f, g.targets)) && views == [View(s, f)] && IsPlan(s, f, g.targets, g.force, plan)
    case Broken(run) =>
      || run == Run(Plan([], [], []), [View(s, f)], 0, Failed)
      || (g.force && ForcePanics(s, f, g.targets) && run == Run(Plan([], [], []), [View(s, f)], 0, Panicked))
    case _ => false
  }

  /** The next call succeeds, or it fails with or without an effect. */
  ghost predicate Calls(s: Store, f: Family, c: Call, plan: Plan, views: seq<Store>, s': Store, proc': Proc) {
    || (Effect(s, c, s') && proc' == Busy(plan, views + [View(s', f)]))
    || (Effect(s, c, s') && proc' == Broken(Run(plan, views + [View(s', f)], |views|, Failed)))
    || (s' == s && proc' == Broken(Run(plan, views, |views|, Failed)))
  }

  /** One remote call, or the return, of a reconcile of family `f`. */
  ghost predicate LaneStep(s: Store, f: Family, g: Goal, proc: Proc, s': Store, proc': Proc) {
    match proc
    case Ready => s' == s && Begins(s, f, g, proc')
    case Busy(plan, views) =>
      var calls := plan.Calls(g.ttl);
      if views == [] then false
      else if |views| > |calls| then s' == s && proc' == Done(plan, views)
      else if !Addressable(s, calls[|views| - 1]) then s' == s && proc' == NoRecord
      else Calls(s, f, calls[|views| - 1], plan, views, s', proc')
    case _ => false
  }

  ghost predicate Step(x: Shared, f: Family, x': Shared) {
    && x'.Of(Other(f)) == x.Of(Other(f)) && x'.Of(f).goal == x.Of(f).goal
    && LaneStep(x.store, f, x.Of(f).goal, x.Of(f).proc, x'.store, x'.Of(f).proc)
  }

  ghost predicate Interleaved(xs: seq<Shared>) {
    && xs != [] && xs[0] == Start(xs[0].store, xs[0].v4.goal, xs[0].v6.goal)
    && AllOf(xs[0].v4.goal.targets, V4) && AllOf(xs[0].v6.goal.targets, V6)
    && forall i :: 0 <= i < |xs| - 1 ==> Step(xs[i], V4, xs[i + 1]) || Step(xs[i], V6, xs[i + 1])
  }

  /** The reconcile went as if it were alone on the records `v` its family started with. */
  ghost predicate Solo(v: Store, f: Family, g: Goal, proc: Proc, now: Store) {
    match proc
    case Ready => now == v
    case Busy(plan, views) => SoloRun(v, f, g, plan, views, now)
    case Done(plan, views) => SoloRun(v, f, g, plan, views, now) && Complete(views, plan.Calls(g.ttl))
    case Broken(run) =>
      IsRun(v, f, g.targets, g.ttl, g.force, run) && !run.outcome.Reported? && After(run) == now
    case NoRecord => false
  }

  ghost predicate SoloRun(v: Store, f: Family, g: Goal, plan: Plan, views: seq<Store>, now: Store) {
    && !(g.force && ForcePanics(v, f, g.targets)) && IsPlan(v, f, g.targets, g.force, plan)
    && Partial(views, plan.Calls(g.ttl)) && views[0] == v && Last(views) == now
  }

  ghost predicate SoloIn(s: Store, f: Family, x: Shared) {
    && AllOf(x.Of(f).goal.targets, f)
    && Solo(View(s, f), f, x.Of(f).goal, x.Of(f).proc, View(x.store, f))
  }

  lemma ViewPublished(s: Store, f: Family)
    ensures Published(View(s, f), f) == Published(s, f)
    ensures forall ip :: FamilyOf(ip) == f ==> Count(View(s, f), ip) == Count(s, ip)
  {
    forall ip | FamilyOf(ip) == f
      ensures Count(View(s, f), ip) == Count(s, ip)
    {
      ViewCount(s, f, ip);
    }
    PublishedByCount(s, f);
    PublishedByCount(View(s, f), f);
  }

  /** A plan looks at the records of its own family only. */
  lemma PlanOfView(s: Store, f: Family, targets: seq<IpAddr>, force: bool, p: Plan)
    ensures IsPlan(s, f, targets, force, p) <==> IsPlan(View(s, f), f, targets, force, p)
    ensures ForcePanics(s, f, targets) <==> ForcePanics(View(s, f), f, targets)
  {
    ViewPublished(s, f);
  }

  /** The pending call of a busy reconcile stays in its family and finds its record in the shared store. */
  lemma PendingCall(v: Store, f: Family, g: Goal, plan: Plan, views: seq<Store>, s: Store)
    requires SoloRun(v, f, g, plan, views, View(s, f)) && AllOf(g.targets, f)
    requires |views| <= |plan.Calls(g.ttl)|
    ensures var c := plan.Calls(g.ttl)[|views| - 1];
            Addressable(s, c) && Within(s, c, f)
  {
    var k := |views| - 1;
    PlanHeld(v, f, g.targets, g.force, plan);
    HeldAlong(views, plan.Victims(), plan.Values(), g.ttl, k);
    if k < |plan.Values()| {
      PlanMembers(v, f, g.targets, g.force, plan, plan.Values()[k]);
    }
  }

  /** The next call of a solo run, failed or not, is part of that run. */
  lemma CallSolo(v: Store, f: Family, g: Goal, plan: Plan, views: seq<Store>, s: Store, s': Store, proc': Proc)
    requires SoloRun(v, f, g, plan, views, View(s, f)) && AllOf(g.targets, f) && |views| <= |plan.Calls(g.ttl)|
    requires Calls(s, f, plan.Calls(g.ttl)[|views| - 1], plan, views, s', proc')
    ensures Solo(v, f, g, proc', View(s', f))
    ensures View(s', Other(f)) == View(s, Other(f))
  {
    PendingCall(v, f, g, plan, views, s);
    if s' != s || !proc'.Broken? || |proc'.run.states| > |views| {
      EffectView(s, plan.Calls(g.ttl)[|views| - 1], s', f);
      PartialExtend(views, plan.Calls(g.ttl), View(s', f));
    }
  }

  /** A call of one reconcile is a call of a solo run, and the other family does not notice it. */
  lemma LaneStepSolo(v: Store, f: Family, g: Goal, proc: Proc, s: Store, s': Store, proc': Proc)
    requires Solo(v, f, g, proc, View(s, f)) && AllOf(g.targets, f)
    requires LaneStep(s, f, g, proc, s', proc')
    ensures Solo(v, f, g, proc', View(s', f))
    ensures View(s', Other(f)) == View(s, Other(f))
  {
    if proc.Ready? {
      PlanOfView(s, f, g.targets, g.force, if proc'.Busy? then proc'.plan else proc'.run.plan);
    } else if |proc.views| <= |proc.plan.Calls(g.ttl)| {
      PendingCall(v, f, g, proc.plan, proc.views, s);
      CallSolo(v, f, g, proc.plan, proc.views, s, s', proc');
    }
  }

  lemma StepKeepsSolo(s: Store, f: Family, x: Shared, x': Shared)
    requires SoloIn(s, V4, x) && SoloIn(s, V6, x) && Step(x, f, x')
    ensures SoloIn(s, V4, x') && SoloIn(s, V6, x')
  {
    assert SoloIn(s, f, x) && SoloIn(s, Other(f), x);
    LaneStepSolo(View(s, f), f, x.Of(f).goal, x.Of(f).proc, x.store, x'.store, x'.Of(f).proc);
    assert SoloIn(s, f, x') && SoloIn(s, Other(f), x');
  }

  /** In every interleaving each family sees a run of its own, undisturbed by the other. */
  lemma {:induction false} EachRunsAlone(xs: seq<Shared>, i: nat)
    requires Interleaved(xs) && i < |xs|
    ensures forall f :: SoloIn(xs[0].store, f, xs[i]) && xs[i].Of(f).goal == xs[0].Of(f).goal
  {
    if i > 0 {
      EachRunsAlone(xs, i - 1);
      var f :| Step(xs[i - 1], f, xs[i - 1 + 1]);
      assert SoloIn(xs[0].store, V4, xs[i - 1]) && SoloIn(xs[0].store, V6, xs[i - 1]);
      StepKeepsSolo(xs[0].store, f, xs[i - 1], xs[i]);
      assert xs[i].Of(f).goal == xs[i - 1].Of(f).goal && xs[i].Of(Other(f)).goal == xs[i - 1].Of(Other(f)).goal;
    }
    forall f
      ensures SoloIn(xs[0].store, f, xs[i]) && xs[i].Of(f).goal == xs[0].Of(f).goal
    {
      assert f == V4 || f == V6;
    }
  }

  /** The run a finished reconcile amounts to, on the view of its family. */
  function RunOf(lane: Lane): Run
    requires lane.proc.Done?
  {
    Run(lane.proc.plan, lane.proc.views, |lane.proc.plan.Calls(lane.goal.ttl)|, Reported(lane.proc.plan.Values()))
  }

  /** A finished reconcile of an interleaving amounts to a complete solo run on its family's records. */
  lemma AmountsToSoloRun(xs: seq<Shared>, f: Family)
    requires Interleaved(xs) && Last(xs).Of(f).proc.Done?
    ensures var s, g, run := xs[0].store, xs[0].Of(f).goal, RunOf(Last(xs).Of(f));
            && AllOf(g.targets, f)
            && IsRun(View(s, f), f, g.targets, g.ttl, g.force, run) && run.outcome.Reported?
            && After(run) == View(Last(xs).store, f)
  {
    EachRunsAlone(xs, |xs| - 1);
    assert SoloIn(xs[0].store, f, Last(xs));
  }

  lemma SoloConverges(s: Store, f: Family, x: Shared)
    requires SoloIn(s, f, x) && x.Of(f).proc.Done?
    ensures var g := x.Of(f).goal;
            && (forall ip :: FamilyOf(ip) == f ==> Count(x.store, ip) == NextCount(s, f, g.targets, ip))
            && (Distinct(s, f) ==> Published(x.store, f) == Elems(g.targets))
  {
    var g, run := x.Of(f).goal, RunOf(x.Of(f));
    CompleteRun(View(s, f), f, g.targets, g.ttl, g.force, run);
    ViewPublished(s, f);
    ViewPublished(x.store, f);
    assert After(run) == View(x.store, f);
    forall ip | FamilyOf(ip) == f
      ensures Count(x.store, ip) == NextCount(s, f, g.targets, ip)
    {
      assert Count(After(run), ip) == NextCount(View(s, f), f, g.targets, ip);
    }
    if Distinct(s, f) {
      ConvergesIff(View(s, f), f, g.targets, g.ttl, g.force, run);
    }
  }

  /**
   So in every finished interleaving the counts of a family obey the law of one run of its own reconcile,
   and from distinct records the family publishes exactly that reconcile's targets.
   */
  lemma InterleavedConverges(xs: seq<Shared>, f: Family)
    requires Interleaved(xs) && Last(xs).Of(f).proc.Done?
    ensures var s, g := xs[0].store, xs[0].Of(f).goal;
            && (forall ip :: FamilyOf(ip) == f ==> Count(Last(xs).store, ip) == NextCount(s, f, g.targets, ip))
            && (Distinct(s, f) ==> Published(Last(xs).store, f) == Elems(g.targets))
  {
    EachRunsAlone(xs, |xs| - 1);
    assert SoloIn(xs[0].store, f, Last(xs));
    SoloConverges(xs[0].store, f, Last(xs));
  }

  /**
   A fault stays in its family: a reconcile that broke off left its records as a failed solo run does, and
   whatever it did, a reconcile of the other family that was not hit itself obeys the law of one run.
   */
  lemma FaultStaysInside(xs: seq<Shared>, f: Family)
    requires Interleaved(xs) && Last(xs).Of(f).proc.Broken?
    ensures var s, g, run := xs[0].store, xs[0].Of(f).goal, Last(xs).Of(f).proc.run;
            && IsRun(View(s, f), f, g.targets, g.ttl, g.force, run) && !run.outcome.Reported?
            && After(run) == View(Last(xs).store, f)
    ensures Last(xs).Of(Other(f)).proc.Done? ==>
              var s, o := xs[0].store, Other(f);
              forall ip :: FamilyOf(ip) == o ==>
                Count(Last(xs).store, ip) == NextCount(s, o, xs[0].Of(o).goal.targets, ip)
    ensures Last(xs).Of(Other(f)).proc.Ready? ==> View(Last(xs).store, Other(f)) == View(xs[0].store, Other(f))
  {
    EachRunsAlone(xs, |xs| - 1);
    assert SoloIn(xs[0].store, f, Last(xs)) && SoloIn(xs[0].store, Other(f), Last(xs));
    if Last(xs).Of(Other(f)).proc.Done? {
      InterleavedConverges(xs, Other(f));
    }
  }

  /** The order of the calls does not show: finished interleavings of the same goals agree on every address. */
  lemma OrderDoesNotMatter(xs: seq<Shared>, ys: seq<Shared>, ip: IpAddr)
    requires Interleaved(xs) && Interleaved(ys) && xs[0] == ys[0]
    requires Last(xs).v4.proc.Done? && Last(xs).v6.proc.Done?
    requires Last(ys).v4.proc.Done? && Last(ys).v6.proc.Done?
    ensures Count(Last(xs).store, ip) == Count(Last(ys).store, ip)
  {
    InterleavedConverges(xs, FamilyOf(ip));
    InterleavedConverges(ys, FamilyOf(ip));
  }

  // ---- neither reconcile fails or gets stuck ----

  lemma SetToSeq<T>(elements: set<T>) returns (order: seq<T>)
    ensures Enumerates(order, elements)
    decreases |elements|
  {
    if elements == {} {
      order := [];
    } else {
      var x :| x in elements;
      var rest := SetToSeq(elements - {x});
      order := rest + [x];
      AppendNew(rest, x, elements - {x});
      assert elements - {x} + {x} == elements;
    }
  }

  /** Every set of published addresses can be represented by records of the store. */
  lemma Representatives(s: Store, f: Family, ips: set<IpAddr>) returns (rs: seq<Record>)
    requires ips <= Published(s, f)
    ensures Represents(s, f, rs, ips)
    decreases |ips|
  {
    if ips == {} {
      rs := [];
    } else {
      var ip :| ip in ips;
      var rest := Representatives(s, f, ips - {ip});
      var id :| id in s && FamilyOf(s[id]) == f && s[id] == ip;
      rs := rest + [Record(id, ip)];
      assert IpsOf(rs) == IpsOf(rest) + [ip];
      AppendNew(IpsOf(rest), ip, ips - {ip});
      assert ips - {ip} + {ip} == ips;
    }
  }

  /** The provider can always carry out a call whose record is there. */
  lemma EffectExists(s: Store, c: Call) returns (s': Store)
    requires Addressable(s, c)
    ensures Effect(s, c, s')
  {
    match c
    case Create(ip, _) =>
      FreshId(s.Keys);
      var id: Id :| id !in s.Keys;
      s' := s[id := ip];
      assert Inserted(s, id, ip, s');
    case Update(id, ip) => s' := s[id := ip];
    case Delete(id) => s' := s - {id};
  }

  function With(x: Shared, s: Store, f: Family, proc: Proc): Shared {
    if f == V4 then x.(store := s, v4 := x.v4.(proc := proc)) else x.(store := s, v6 := x.v6.(proc := proc))
  }

  predicate Unfinished(proc: Proc) {
    proc.Ready? || proc.Busy?
  }

  /** The first step of a reconcile that is not doomed to panic. */
  lemma CanBegin(s: Store, f: Family, g: Goal) returns (proc': Proc)
    requires !(g.force && ForcePanics(s, f, g.targets))
    ensures LaneStep(s, f, g, Ready, s, proc') && proc'.Busy?
  {
    var p, t := Published(s, f), Elems(g.targets);
    var sames := Representatives(s, f, if g.force then p * t else {});
    var olds := Representatives(s, f, p - t);
    var news := SetToSeq(t - p);
    proc' := Busy(Plan(sames, olds, news), [View(s, f)]);
  }

  /** An unfinished reconcile that is not doomed to panic has a next step in every reachable state, and it succeeds. */
  lemma CanStep(xs: seq<Shared>, f: Family) returns (x': Shared)
    requires Interleaved(xs) && Unfinished(Last(xs).Of(f).proc)
    requires var g := xs[0].Of(f).goal; !(g.force && ForcePanics(xs[0].store, f, g.targets))
    ensures Step(Last(xs), f, x') && (x'.Of(f).proc.Busy? || x'.Of(f).proc.Done?)
  {
    EachRunsAlone(xs, |xs| - 1);
    var x := Last(xs);
    assert SoloIn(xs[0].store, f, x);
    var g, s := x.Of(f).goal, x.store;
    match x.Of(f).proc
    case Ready =>
      PlanOfView(s, f, g.targets, g.force, Plan([], [], []));
      PlanOfView(xs[0].store, f, g.targets, g.force, Plan([], [], []));
      var proc' := CanBegin(s, f, g);
      x' := With(x, s, f, proc');
    case Busy(plan, views) =>
      if |views| > |plan.Calls(g.ttl)| {
        x' := With(x, s, f, Done(plan, views));
      } else {
        PendingCall(View(xs[0].store, f), f, g, plan, views, s);
        var s' := EffectExists(s, plan.Calls(g.ttl)[|views| - 1]);
        x' := With(x, s', f, Busy(plan, views + [View(s', f)]));
      }
  }

  /** Any call of a reconcile may fail, before or after it took effect. */
  lemma CanBreak(xs: seq<Shared>, f: Family) returns (before: Shared, after: Shared)
    requires Interleaved(xs) && Last(xs).Of(f).proc.Busy?
    requires var lane := Last(xs).Of(f); |lane.proc.views| <= |lane.proc.plan.Calls(lane.goal.ttl)|
    ensures Step(Last(xs), f, before) && before.Of(f).proc.Broken? && before.store == Last(xs).store
    ensures Step(Last(xs), f, after) && after.Of(f).proc.Broken?
    ensures var lane := Last(xs).Of(f);
            Effect(Last(xs).store, lane.proc.plan.Calls(lane.goal.ttl)[|lane.proc.views| - 1], after.store)
  {
    EachRunsAlone(xs, |xs| - 1);
    var x := Last(xs);
    assert SoloIn(xs[0].store, f, x);
    var g, s, plan, views := x.Of(f).goal, x.store, x.Of(f).proc.plan, x.Of(f).proc.views;
    PendingCall(View(xs[0].store, f), f, g, plan, views, s);
    before := With(x, s, f, Broken(Run(plan, views, |views|, Failed)));
    var s' := EffectExists(s, plan.Calls(g.ttl)[|views| - 1]);
    after := With(x, s', f, Broken(Run(plan, views + [View(s', f)], |views|, Failed)));
  }

  /** The steps a reconcile has left once it has its snapshot. */
  function Left(lane: Lane): int {
    match lane.proc
    case Busy(plan, views) => |plan.Calls(lane.goal.ttl)| + 2 - |views|
    case _ => 0
  }

  /** Every step after the snapshot brings a reconcile closer to its end and leaves the other where it was. */
  lemma EveryStepCounts(xs: seq<Shared>, f: Family, x': Shared)
    requires Interleaved(xs) && Step(Last(xs), f, x') && !Last(xs).Of(f).proc.Ready?
    ensures 0 <= Left(x'.Of(f)) < Left(Last(xs).Of(f))
    ensures Left(x'.Of(Other(f))) == Left(Last(xs).Of(Other(f)))
  {
    EachRunsAlone(xs, |xs| - 1);
    assert SoloIn(xs[0].store, f, Last(xs));
  }
}
