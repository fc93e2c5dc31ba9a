/** `run_task`: one pass of a task over its address families, and what its notifiers are sent. */
module RunTask {
  import opened Net
  import opened RecordStore
  import opened Reconcile
  import opened ReconcileLaws
  import opened ReconcileBounds

  /** One `send` of a notifier, by its position in the task's list. */
  datatype Message = Message(notifier: nat, ips: seq<IpAddr>)

  /** The notifiers of a task and what they delivered; `None` is the `empty` kind. */
  class Outbox {
    const working: seq<bool>   // per position: whether a notifier is there at all
    var delivered: seq<Message>
    var fates: seq<Fate>

    constructor (working: seq<bool>, fates: seq<Fate>)
      ensures this.working == working && this.fates == fates && delivered == []
    {
      this.working := working;
      this.fates := fates;
      delivered := [];
    }

    function NextFate(): Fate
      reads this
    {
      if fates == [] then Served else fates[0]
    }

    ghost predicate Faultless()
      reads this
    {
      forall i :: 0 <= i < |fates| ==> fates[i] == Served
    }

    method Send(notifier: nat, ips: seq<IpAddr>) returns (ok: bool)
      modifies this
      ensures ok <==> old(NextFate()) == Served
      ensures delivered == old(delivered) + if old(NextFate()) == Refused then [] else [Message(notifier, ips)]
      ensures old(Faultless()) ==> ok && Faultless()
    {
      var fate := NextFate();
      fates := if fates == [] then [] else fates[1..];
      if fate != Refused {
        delivered := delivered + [Message(notifier, ips)];
      }
      ok := fate == Served;
    }
  }

  /** A report as every working notifier gets it, in the order of the list; nothing for an empty report. */
  function Messages(working: seq<bool>, ips: seq<IpAddr>): (ms: seq<Message>)
    ensures ips == [] ==> ms == []
    ensures forall m :: m in ms ==> m.ips == ips && m.notifier < |working| && working[m.notifier]
  {
    if ips == [] || working == [] then []
    else
      var n := |working| - 1;
      Messages(working[..n], ips) + if working[n] then [Message(n, ips)] else []
  }

  /** The messages of a report are in the order of the list. */
  lemma {:induction false} InListOrder(working: seq<bool>, ips: seq<IpAddr>, i: nat, j: nat)
    requires i < j < |Messages(working, ips)|
    ensures Messages(working, ips)[i].notifier < Messages(working, ips)[j].notifier
  {
    var n := |working| - 1;
    var front := Messages(working[..n], ips);
    if j < |front| {
      InListOrder(working[..n], ips, i, j);
    } else {
      assert front[i] in front;
    }
  }

  lemma LastNotifier(working: seq<bool>, ips: seq<IpAddr>, m: Message)
    requires ips != [] && working != []
    ensures var n := |working| - 1;
            multiset(Messages(working, ips))[m] ==
            multiset(Messages(working[..n], ips))[m] + if working[n] && m == Message(n, ips) then 1 else 0
  {
    var n := |working| - 1;
    var front := Messages(working[..n], ips);
    if working[n] {
      assert Messages(working, ips) == front + [Message(n, ips)];
      CountJoin(front, [Message(n, ips)], m);
    } else {
      assert Messages(working, ips) == front;
    }
  }

  predicate Due(working: seq<bool>, ips: seq<IpAddr>, m: Message) {
    ips != [] && m.ips == ips && m.notifier < |working| && working[m.notifier]
  }

  /** Every notifier that is there gets the report, exactly once and whole; one that is not gets nothing. */
  lemma {:induction false} EveryNotifierOnce(working: seq<bool>, ips: seq<IpAddr>, m: Message)
    ensures multiset(Messages(working, ips))[m] ==
            if ips != [] && m.ips == ips && m.notifier < |working| && working[m.notifier] then 1 else 0
    decreases |working|
  {
    assert Due(working, ips, m) <==> ips != [] && m.ips == ips && m.notifier < |working| && working[m.notifier];
    if ips != [] && working != [] {
      var n := |working| - 1;
      EveryNotifierOnce(working[..n], ips, m);
      LastNotifier(working, ips, m);
      assert Due(working, ips, m) <==> Due(working[..n], ips, m) || (working[n] && m == Message(n, ips));
    }
  }

  /** What one family of the pass came to. */
  datatype Pass =
    | Skipped                // the interface handed out an address of the wrong family
    | Ran(run: Run)

  predicate Legal(targets: seq<IpAddr>, f: Family) {
    forall i :: 0 <= i < |targets| ==> FamilyOf(targets[i]) == f
  }

  lemma LegalIff(targets: seq<IpAddr>, f: Family)
    ensures Legal(targets, f) <==> AllOf(targets, f)
  {
  }

  /** A whole successful pass: the families in order, each skipped or run to its end from where the last one stopped. */
  ghost predicate IsPass(s: Store, families: seq<Family>, targets: map<Family, seq<IpAddr>>, ttl: nat, force: bool,
                         passes: seq<Pass>, s': Store)
    decreases |families|
  {
    |passes| == |families| &&
    if families == [] then s == s'
    else
      && IsFirst(s, families[0], targets, ttl, force, passes[0])
      && IsPass(Next(s, passes[0]), families[1..], targets, ttl, force, passes[1..], s')
  }

  /** What the notifiers get for one family. */
  function FamilyMessages(working: seq<bool>, pass: Pass): seq<Message> {
    if pass.Ran? && pass.run.outcome.Reported? then Messages(working, pass.run.outcome.ips) else []
  }

  /** Everything the notifiers get in a successful pass. */
  function AllMessages(working: seq<bool>, passes: seq<Pass>): seq<Message> {
    if passes == [] then [] else FamilyMessages(working, passes[0]) + AllMessages(working, passes[1..])
  }

  /** The report of this family. */
  predicate Reports(pass: Pass, ips: seq<IpAddr>) {
    pass.Ran? && pass.run.outcome == Reported(ips)
  }

  lemma FamilyTold(working: seq<bool>, pass: Pass, m: Message)
    ensures m in FamilyMessages(working, pass) <==>
            Reports(pass, m.ips) && m.ips != [] && m.notifier < |working| && working[m.notifier]
  {
    if pass.Ran? && pass.run.outcome.Reported? {
      EveryNotifierOnce(working, pass.run.outcome.ips, m);
    }
  }

  /** Some family of the pass had this report. */
  ghost predicate SomeReport(passes: seq<Pass>, ips: seq<IpAddr>) {
    exists i :: 0 <= i < |passes| && Reports(passes[i], ips)
  }

  lemma FirstOrLater(passes: seq<Pass>, ips: seq<IpAddr>)
    requires passes != []
    ensures SomeReport(passes, ips) <==> Reports(passes[0], ips) || SomeReport(passes[1..], ips)
  {
    var rest := passes[1..];
    if i :| 0 <= i < |passes| && Reports(passes[i], ips) {
      assert i > 0 ==> Reports(rest[i - 1], ips);
    }
    if i :| 0 <= i < |rest| && Reports(rest[i], ips) {
      assert Reports(passes[i + 1], ips);
    }
  }

  /** A successful pass delivers the reports of its families, to every notifier that is there, and nothing else. */
  lemma {:induction false} EveryReportTold(working: seq<bool>, passes: seq<Pass>, m: Message)
    ensures m in AllMessages(working, passes) <==>
            m.ips != [] && m.notifier < |working| && working[m.notifier] &&
            exists i :: 0 <= i < |passes| && Reports(passes[i], m.ips)
    decreases |passes|
  {
    if passes != [] {
      EveryReportTold(working, passes[1..], m);
      FamilyTold(working, passes[0], m);
      FirstOrLater(passes, m.ips);
      assert SomeReport(passes[1..], m.ips) <==> exists i :: 0 <= i < |passes[1..]| && Reports(passes[1..][i], m.ips);
    }
    assert SomeReport(passes, m.ips) <==> exists i :: 0 <= i < |passes| && Reports(passes[i], m.ips);
  }

  /** Where the first family of a pass leaves the store. */
  function Next(s: Store, pass: Pass): Store {
    if pass.Ran? && pass.run.states != [] then After(pass.run) else s
  }

  /** The first family of a pass came to `pass`. */
  ghost predicate IsFirst(s: Store, f: Family, targets: map<Family, seq<IpAddr>>, ttl: nat, force: bool, pass: Pass) {
    && f in targets
    && match pass {
         case Skipped => !Legal(targets[f], f)
         case Ran(run) => Legal(targets[f], f) && IsRun(s, f, targets[f], ttl, force, run) && run.outcome.Reported?
       }
  }

  lemma {:induction false} PassAppend(s: Store, families: seq<Family>, targets: map<Family, seq<IpAddr>>, ttl: nat,
                                      force: bool, passes: seq<Pass>, s': Store, f: Family, pass: Pass)
    requires IsPass(s, families, targets, ttl, force, passes, s') && IsFirst(s', f, targets, ttl, force, pass)
    ensures IsPass(s, families + [f], targets, ttl, force, passes + [pass], Next(s', pass))
    decreases |families|
  {
    if families == [] {
      assert families + [f] == [f] && passes + [pass] == [pass];
      assert IsPass(Next(s', pass), [f][1..], targets, ttl, force, [pass][1..], Next(s', pass));
    } else {
      PassAppend(Next(s, passes[0]), families[1..], targets, ttl, force, passes[1..], s', f, pass);
      assert (families + [f])[1..] == families[1..] + [f];
      assert (passes + [pass])[1..] == passes[1..] + [pass];
    }
  }

  lemma {:induction false} MessagesAppend(working: seq<bool>, passes: seq<Pass>, pass: Pass)
    ensures AllMessages(working, passes + [pass]) == AllMessages(working, passes) + FamilyMessages(working, pass)
  {
    if passes == [] {
      assert passes + [pass] == [pass];
      assert AllMessages(working, [pass][1..]) == [];
    } else {
      MessagesAppend(working, passes[1..], pass);
      assert (passes + [pass])[1..] == passes[1..] + [pass];
      Assoc(FamilyMessages(working, passes[0]), AllMessages(working, passes[1..]), FamilyMessages(working, pass));
    }
  }

  /** The loop over the families takes one more of them. */
  lemma PassExtend(s: Store, families: seq<Family>, i: nat, targets: map<Family, seq<IpAddr>>, ttl: nat, force: bool,
                   passes: seq<Pass>, mid: Store, pass: Pass)
    requires i < |families| && IsPass(s, families[..i], targets, ttl, force, passes, mid)
    requires IsFirst(mid, families[i], targets, ttl, force, pass)
    ensures IsPass(s, families[..i + 1], targets, ttl, force, passes + [pass], Next(mid, pass))
  {
    PassAppend(s, families[..i], targets, ttl, force, passes, mid, families[i], pass);
    assert families[..i] + [families[i]] == families[..i + 1];
  }

  datatype TaskResult = Ok | Err | Panic

  /** The `send` of notifier `n` failed, delivered or not; the notifiers after it were not reached. */
  ghost predicate StoppedAt(working: seq<bool>, ips: seq<IpAddr>, before: seq<Message>, n: nat, after: seq<Message>) {
    && n < |working| && working[n]
    && (after == before + Messages(working[..n], ips) || after == before + Messages(working[..n + 1], ips))
  }

  /** Some `send` of the report failed. */
  ghost predicate Interrupted(working: seq<bool>, ips: seq<IpAddr>, before: seq<Message>, after: seq<Message>) {
    exists n :: StoppedAt(working, ips, before, n, after)
  }

  /** The loop over the notifiers of one non-empty report. */
  method Notify(out: Outbox, ips: seq<IpAddr>) returns (ok: bool)
    requires ips != []
    modifies out
    ensures ok ==> out.delivered == old(out.delivered) + Messages(out.working, ips)
    ensures !ok ==> Interrupted(out.working, ips, old(out.delivered), out.delivered)
    ensures old(out.delivered) <= out.delivered
    ensures old(out.Faultless()) ==> ok && out.Faultless()
  {
    for i := 0 to |out.working|
      invariant old(out.Faultless()) ==> out.Faultless()
      invariant out.delivered == old(out.delivered) + Messages(out.working[..i], ips)
    {
      assert out.working[..i + 1][..i] == out.working[..i];
      if out.working[i] {
        ok := out.Send(i, ips);
        if !ok {
          assert StoppedAt(out.working, ips, old(out.delivered), i, out.delivered);
          return;
        }
      }
    }
    assert out.working[..|out.working|] == out.working;
    ok := true;
  }

  /** One iteration over the families: ask the interface, check the answer, reconcile, notify. */
  method RunFamily(family: Family, p: Provider, ttl: nat, force: bool, addresses: map<Family, seq<IpAddr>>, out: Outbox)
    returns (r: TaskResult, ghost pass: Pass)
    modifies p, out
    ensures r.Ok? ==> IsFirst(old(p.records), family, addresses, ttl, force, pass)
    ensures r.Ok? ==> Next(old(p.records), pass) == p.records
    ensures r.Ok? ==> out.delivered == old(out.delivered) + FamilyMessages(out.working, pass)
    ensures Cut(old(p.records), family, addresses, ttl, force, pass, p.records)
    ensures !r.Ok? ==> Untold(out.working, pass, old(out.delivered), out.delivered)
    ensures family !in addresses ==> r == Err
    ensures family !in addresses || !AllOf(addresses[family], family) ==>
              pass.Skipped? && p.records == old(p.records) && p.log == old(p.log) && out.delivered == old(out.delivered)
    ensures family in addresses && !AllOf(addresses[family], family) ==> r == Ok
    ensures family in addresses && AllOf(addresses[family], family) ==>
              && pass.Ran? && p.log == old(p.log) + pass.run.plan.Calls(ttl)[..pass.run.issued]
              && (r == Panic <==> pass.run.outcome.Panicked?) && (pass.run.outcome.Failed? ==> r == Err)
    ensures forall k :: |old(p.log)| <= k < |p.log| && p.log[k].Create? ==> p.log[k].ttl == ttl
    ensures old(p.Faultless()) && old(out.Faultless()) ==>
              p.Faultless() && out.Faultless() && (family in addresses ==> r != Err)
  {
    LegalIff(if family in addresses then addresses[family] else [], family);
    pass := Skipped;
    if family !in addresses {
      return Err, pass;
    }
    var targetIps := addresses[family];
    if !Legal(targetIps, family) {
      return Ok, pass;
    }
    var update;
    ghost var run;
    update, run := CheckAndUpdate(p, targetIps, ttl, force, family);
    pass := Ran(run);
    if update.Panicked? {
      return Panic, pass;
    }
    if update.Failed? {
      return Err, pass;
    }
    if update.ips != [] {
      var ok := Notify(out, update.ips);
      if !ok {
        return Err, pass;
      }
    }
    r := Ok;
  }

  /** A family that was reached, whatever stopped it, was left as it was or by a run. */
  ghost predicate Cut(s: Store, f: Family, targets: map<Family, seq<IpAddr>>, ttl: nat, force: bool, pass: Pass,
                      s': Store)
  {
    match pass
    case Skipped => s' == s
    case Ran(run) =>
      && f in targets && Legal(targets[f], f) && IsRun(s, f, targets[f], ttl, force, run)
      && After(run) == s'
  }

  /** A family that stopped the pass told nobody, or had a report and one `send` of it failed. */
  ghost predicate Untold(working: seq<bool>, pass: Pass, before: seq<Message>, after: seq<Message>) {
    if pass.Ran? && pass.run.outcome.Reported? then Interrupted(working, pass.run.outcome.ips, before, after)
    else after == before
  }

  /** The first `|passes|` families are done: the store is `s'` and the notifiers were sent `delivered'`. */
  ghost predicate Done(s: Store, delivered: seq<Message>, families: seq<Family>, targets: map<Family, seq<IpAddr>>,
                       ttl: nat, force: bool, working: seq<bool>, passes: seq<Pass>, s': Store,
                       delivered': seq<Message>)
  {
    && |passes| <= |families| && IsPass(s, families[..|passes|], targets, ttl, force, passes, s')
    && delivered' == delivered + AllMessages(working, passes)
  }

  /** One more family is done. */
  lemma DoneExtend(s: Store, delivered: seq<Message>, families: seq<Family>, targets: map<Family, seq<IpAddr>>,
                   ttl: nat, force: bool, working: seq<bool>, passes: seq<Pass>, mid: Store,
                   delivered': seq<Message>, pass: Pass)
    requires Done(s, delivered, families, targets, ttl, force, working, passes, mid, delivered')
    requires |passes| < |families| && IsFirst(mid, families[|passes|], targets, ttl, force, pass)
    ensures Done(s, delivered, families, targets, ttl, force, working, passes + [pass], Next(mid, pass),
                 delivered' + FamilyMessages(working, pass))
  {
    PassExtend(s, families, |passes|, targets, ttl, force, passes, mid, pass);
    MessagesAppend(working, passes, pass);
    Assoc(delivered, AllMessages(working, passes), FamilyMessages(working, pass));
  }

  /**
   `addresses` is what the interface answers per family; a missing family is an error of the interface.
   A pass that succeeds has done all families; one cut short has done some, up to store `mid`, and was
   stopped in the next one, which came to `last`.
   */
  method RunTask(families: seq<Family>, p: Provider, ttl: nat, force: bool, addresses: map<Family, seq<IpAddr>>,
                 out: Outbox)
    returns (r: TaskResult, ghost passes: seq<Pass>, ghost mid: Store, ghost told: seq<Message>, ghost last: Pass)
    modifies p, out
    ensures Done(old(p.records), old(out.delivered), families, addresses, ttl, force, out.working, passes, mid, told)
    ensures r.Ok? ==> |passes| == |families| && mid == p.records && told == out.delivered
    ensures !r.Ok? ==>
              |passes| < |families| && Untold(out.working, last, told, out.delivered) &&
              Cut(mid, families[|passes|], addresses, ttl, force, last, p.records)
    ensures !r.Ok? && last.Skipped? ==> families[|passes|] !in addresses
    ensures !r.Ok? && last.Ran? ==> (r == Panic <==> last.run.outcome.Panicked?)
    ensures forall k :: |old(p.log)| <= k < |p.log| && p.log[k].Create? ==> p.log[k].ttl == ttl
    ensures old(p.Faultless()) && old(out.Faultless()) && (forall f :: f in families ==> f in addresses) ==> r != Err
  {
    passes, mid, told, last := [], p.records, out.delivered, Skipped;
    for i := 0 to |families|
      invariant |passes| == i && mid == p.records && told == out.delivered
      invariant old(p.log) <= p.log
      invariant forall k :: |old(p.log)| <= k < |p.log| && p.log[k].Create? ==> p.log[k].ttl == ttl
      invariant old(p.Faultless()) && old(out.Faultless()) ==> p.Faultless() && out.Faultless()
      invariant Done(old(p.records), old(out.delivered), families, addresses, ttl, force, out.working, passes, mid,
                     told)
    {
      r, last := RunFamily(families[i], p, ttl, force, addresses, out);
      if !r.Ok? {
        return;
      }
      DoneExtend(old(p.records), old(out.delivered), families, addresses, ttl, force, out.working, passes, mid, told,
                 last);
      passes, mid, told := passes + [last], p.records, out.delivered;
    }
    r := Ok;
  }

  // ---- what a successful pass amounts to ----

  /** A pass over other families leaves the counts of family `g` alone. */
  lemma {:induction false} PassElsewhere(s: Store, families: seq<Family>, targets: map<Family, seq<IpAddr>>, ttl: nat,
                                         force: bool, passes: seq<Pass>, s': Store, g: Family)
    requires IsPass(s, families, targets, ttl, force, passes, s')
    requires g !in families || (g in targets && !Legal(targets[g], g))
    ensures forall ip :: FamilyOf(ip) == g ==> Count(s', ip) == Count(s, ip)
    decreases |families|
  {
    if families != [] {
      var f, next := families[0], Next(s, passes[0]);
      if passes[0].Ran? {
        CompleteRunPublishes(s, f, targets[f], ttl, force, passes[0].run);
      }
      PassElsewhere(next, families[1..], targets, ttl, force, passes[1..], s', g);
    }
  }

  /**
   One successful pass over distinct families: every family with legal targets obeys the law of one run
   from the records the pass found, and a family that was skipped keeps its records.
   */
  lemma {:induction false} PassLaw(s: Store, families: seq<Family>, targets: map<Family, seq<IpAddr>>, ttl: nat,
                                   force: bool, passes: seq<Pass>, s': Store, f: Family)
    requires IsPass(s, families, targets, ttl, force, passes, s')
    requires NoDup(families) && f in families
    ensures f in targets
    ensures forall ip :: FamilyOf(ip) == f ==>
              Count(s', ip) == if Legal(targets[f], f) then NextCount(s, f, targets[f], ip) else Count(s, ip)
    decreases |families|
  {
    var g := families[0];
    var next := Next(s, passes[0]);
    if passes[0].Ran? {
      CompleteRun(s, g, targets[g], ttl, force, passes[0].run);
    }
    if g == f {
      assert f !in families[1..];
      PassElsewhere(next, families[1..], targets, ttl, force, passes[1..], s', f);
    } else {
      if passes[0].Ran? {
        CompleteRunPublishes(s, g, targets[g], ttl, force, passes[0].run);
      }
      PassLaw(next, families[1..], targets, ttl, force, passes[1..], s', f);
      forall ip | FamilyOf(ip) == f
        ensures Count(next, ip) == Count(s, ip) && Seen(next, f, ip) == Seen(s, f, ip)
      {
        PublishedIffCount(s, f, ip);
        PublishedIffCount(next, f, ip);
      }
    }
  }

  /** In particular a pass over "all" brings both families from distinct records to their own targets. */
  lemma PassConverges(s: Store, families: seq<Family>, targets: map<Family, seq<IpAddr>>, ttl: nat, force: bool,
                      passes: seq<Pass>, s': Store, f: Family)
    requires IsPass(s, families, targets, ttl, force, passes, s')
    requires NoDup(families) && f in families
    requires Distinct(s, f)
    ensures f in targets
    ensures Published(s', f) == if Legal(targets[f], f) then Elems(targets[f]) else Published(s, f)
  {
    PassLaw(s, families, targets, ttl, force, passes, s', f);
    PublishedByCount(s, f);
    PublishedByCount(s', f);
    if Legal(targets[f], f) {
      assert forall ip :: ip in Published(s', f) <==> ip in Elems(targets[f]);
    }
  }

  /** All legal targets of the families to come are published. */
  ghost predicate AllServed(s: Store, families: seq<Family>, targets: map<Family, seq<IpAddr>>) {
    forall f :: f in families && f in targets && Legal(targets[f], f) ==> Elems(targets[f]) <= Published(s, f)
  }

  lemma RunKeepsServed(s: Store, f: Family, targets: map<Family, seq<IpAddr>>, families: seq<Family>, ttl: nat,
                       force: bool, run: Run)
    requires f in targets && Legal(targets[f], f) && IsRun(s, f, targets[f], ttl, force, run) && run.outcome.Reported?
    requires AllServed(s, families, targets)
    ensures AllServed(After(run), families, targets)
  {
    CompleteRunPublishes(s, f, targets[f], ttl, force, run);
    forall g | g in families && g in targets && Legal(targets[g], g)
      ensures Elems(targets[g]) <= Published(After(run), g)
    {
      PublishedByCount(s, g);
      PublishedByCount(After(run), g);
    }
  }

  lemma {:induction false} NothingNew(s: Store, families: seq<Family>, targets: map<Family, seq<IpAddr>>, ttl: nat,
                                      passes: seq<Pass>, s': Store, working: seq<bool>)
    requires IsPass(s, families, targets, ttl, false, passes, s') && AllServed(s, families, targets)
    ensures AllMessages(working, passes) == []
    decreases |families|
  {
    if families != [] {
      var f, next := families[0], Next(s, passes[0]);
      if passes[0].Ran? {
        ExactReport(s, f, targets[f], ttl, false, passes[0].run);
        RunKeepsServed(s, f, targets, families, ttl, false, passes[0].run);
      }
      assert AllServed(next, families[1..], targets);
      NothingNew(next, families[1..], targets, ttl, passes[1..], s', working);
    }
  }

  /**
   A report is notified once: after a successful pass over distinct families, duplicated records or not,
   a second pass with the same answers and without force delivers nothing.
   */
  lemma SecondPassIsSilent(s: Store, families: seq<Family>, targets: map<Family, seq<IpAddr>>, ttl: nat, force: bool,
                           first: seq<Pass>, s': Store, second: seq<Pass>, s'': Store, working: seq<bool>)
    requires IsPass(s, families, targets, ttl, force, first, s') && NoDup(families)
    requires IsPass(s', families, targets, ttl, false, second, s'')
    ensures AllMessages(working, second) == []
  {
    forall f | f in families
      ensures f in targets && (Legal(targets[f], f) ==> Elems(targets[f]) <= Published(s', f))
    {
      PassLaw(s, families, targets, ttl, force, first, s', f);
      PublishedByCount(s, f);
      PublishedByCount(s', f);
    }
    NothingNew(s', families, targets, ttl, second, s'', working);
  }
}
