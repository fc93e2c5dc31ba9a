/**
 What repeated calls of `run_task` come to when each may be stopped anywhere, in either family, by an error of
 the interface, of the provider or of a notifier. The supervisor repeats whole tasks, not runs of one family.
 */
module TaskRetry {
  import opened Net
  import opened RecordStore
  import opened Reconcile
  import opened ReconcileLaws
  import opened ReconcileBounds
  import opened RunTask

  /**
   One call of `run_task`: what it was asked for, the families it did, the store after them, and what the next
   family came to if it was stopped there.
   */
  datatype TaskRun = TaskRun(families: seq<Family>, targets: map<Family, seq<IpAddr>>, ttl: nat, force: bool,
                             passes: seq<Pass>, mid: Store, last: Pass, end: Store)
  {
    predicate Complete() {
      |passes| == |families|
    }

    /** The task works on this family, and this is a legal answer for it. */
    predicate Asks(f: Family) {
      f in families && f in targets && Legal(targets[f], f)
    }
  }

  /** What `RunTask.RunTask` promises of a call, from the store it found. */
  ghost predicate IsTaskRun(s: Store, a: TaskRun) {
    && NoDup(a.families) && |a.passes| <= |a.families|
    && IsPass(s, a.families[..|a.passes|], a.targets, a.ttl, a.force, a.passes, a.mid)
    && if a.Complete() then a.end == a.mid
       else Cut(a.mid, a.families[|a.passes|], a.targets, a.ttl, a.force, a.last, a.end)
  }

  ghost predicate TaskChain(s: Store, attempts: seq<TaskRun>)
    decreases |attempts|
  {
    attempts == [] || (IsTaskRun(s, attempts[0]) && TaskChain(attempts[0].end, attempts[1..]))
  }

  function AfterTasks(s: Store, attempts: seq<TaskRun>): Store {
    if attempts == [] then s else attempts[|attempts| - 1].end
  }

  /** A call of the method, as a link of such a chain. */
  method Attempt(families: seq<Family>, p: Provider, ttl: nat, force: bool, addresses: map<Family, seq<IpAddr>>,
                 out: Outbox)
    returns (r: TaskResult, ghost a: TaskRun)
    requires NoDup(families)
    modifies p, out
    ensures IsTaskRun(old(p.records), a) && a.end == p.records && (r.Ok? <==> a.Complete())
    ensures a.families == families && a.targets == addresses && a.ttl == ttl && a.force == force
  {
    ghost var passes, mid, told, last;
    r, passes, mid, told, last := RunTask.RunTask(families, p, ttl, force, addresses, out);
    a := TaskRun(families, addresses, ttl, force, passes, mid, last, p.records);
  }

  // ---- one task run, seen from one family ----

  /** A run of one family leaves the other family's counts alone, wherever it stops. */
  lemma RunElsewhere(s: Store, g: Family, targets: seq<IpAddr>, ttl: nat, force: bool, run: Run, ip: IpAddr)
    requires IsRun(s, g, targets, ttl, force, run) && AllOf(targets, g) && FamilyOf(ip) != g
    ensures Count(After(run), ip) == Count(s, ip)
  {
    if run.issued > 0 || run.outcome.Reported? {
      PublishedIffCount(s, g, ip);
      AnyMoment(s, g, targets, ttl, force, run.plan, run.states, |run.states| - 1, ip);
    }
  }

  /** A run of the family itself gives each address its old count or its final one. */
  lemma RunHere(s: Store, f: Family, targets: seq<IpAddr>, ttl: nat, force: bool, run: Run, ip: IpAddr)
    requires IsRun(s, f, targets, ttl, force, run)
    ensures Count(After(run), ip) == Count(s, ip) || Count(After(run), ip) == NextCount(s, f, targets, ip)
  {
    if run.issued > 0 || run.outcome.Reported? {
      AnyMoment(s, f, targets, ttl, force, run.plan, run.states, |run.states| - 1, ip);
    }
  }

  /** The families that were done, and those that were not among them. */
  lemma DonePart(s: Store, a: TaskRun, f: Family, ip: IpAddr)
    requires IsTaskRun(s, a) && FamilyOf(ip) == f
    ensures f in a.families[..|a.passes|] ==> f in a.targets
    ensures Count(a.mid, ip) ==
            if f in a.families[..|a.passes|] && Legal(a.targets[f], f) then NextCount(s, f, a.targets[f], ip)
            else Count(s, ip)
  {
    var done := a.families[..|a.passes|];
    if f in done {
      PassLaw(s, done, a.targets, a.ttl, a.force, a.passes, a.mid, f);
    } else {
      PassElsewhere(s, done, a.targets, a.ttl, a.force, a.passes, a.mid, f);
    }
  }

  /**
   The law of one task run, wherever it stops: each address has its old count or, if its family was asked for
   with a legal answer, the count a complete run of that family gives; when the task completes, the latter.
   */
  lemma TaskRunLaw(s: Store, a: TaskRun, ip: IpAddr)
    requires IsTaskRun(s, a)
    ensures var f := FamilyOf(ip);
            && (Count(a.end, ip) == Count(s, ip) ||
                (a.Asks(f) && Count(a.end, ip) == NextCount(s, f, a.targets[f], ip)))
            && (a.Complete() && a.Asks(f) ==> Count(a.end, ip) == NextCount(s, f, a.targets[f], ip))
  {
    var f := FamilyOf(ip);
    DonePart(s, a, f, ip);
    var done := a.families[..|a.passes|];
    if a.Complete() {
      assert done == a.families;
    } else {
      var g := a.families[|a.passes|];
      assert a.families[|a.passes|] !in done;
      if a.last.Ran? {
        if g == f {
          RunHere(a.mid, f, a.targets[f], a.ttl, a.force, a.last.run, ip);
          PublishedIffCount(s, f, ip);
          PublishedIffCount(a.mid, f, ip);
        } else {
          RunElsewhere(a.mid, g, a.targets[g], a.ttl, a.force, a.last.run, ip);
        }
      }
    }
  }

  // ---- retry convergence of tasks ----

  lemma {:induction false} TasksStayDistinct(s: Store, attempts: seq<TaskRun>, f: Family)
    requires TaskChain(s, attempts) && Distinct(s, f)
    ensures Distinct(AfterTasks(s, attempts), f)
    decreases |attempts|
  {
    if attempts != [] {
      var a := attempts[0];
      forall ip | FamilyOf(ip) == f
        ensures Count(a.end, ip) <= 1
      {
        TaskRunLaw(s, a, ip);
        PublishedIffCount(s, f, ip);
      }
      TasksStayDistinct(a.end, attempts[1..], f);
    }
  }

  /**
   Retry convergence of tasks: from distinct records, after any number of task runs, over any families and with
   any answers, each stopped anywhere in either family or not at all, one complete task run publishes exactly
   the targets of every family it works on, or keeps the records of a family whose answer is not legal.
   */
  lemma TaskRetryConverges(s: Store, attempts: seq<TaskRun>, a: TaskRun, f: Family)
    requires TaskChain(s, attempts) && Distinct(s, f)
    requires IsTaskRun(AfterTasks(s, attempts), a) && a.Complete() && f in a.families
    ensures f in a.targets
    ensures Published(a.end, f) ==
            if Legal(a.targets[f], f) then Elems(a.targets[f]) else Published(AfterTasks(s, attempts), f)
  {
    TasksStayDistinct(s, attempts, f);
    assert a.families[..|a.passes|] == a.families;
    PassConverges(AfterTasks(s, attempts), a.families, a.targets, a.ttl, a.force, a.passes, a.mid, f);
  }

  // ---- from any records ----

  /** Whenever the family is asked for, with a legal answer, these are its targets. */
  ghost predicate TasksPursue(attempts: seq<TaskRun>, f: Family, targets: seq<IpAddr>) {
    forall i :: 0 <= i < |attempts| && attempts[i].Asks(f) ==> attempts[i].targets[f] == targets
  }

  /** How many of the attempts ran to their end and worked on the family. */
  function TasksCompleted(attempts: seq<TaskRun>, f: Family): nat {
    if attempts == [] then 0
    else (if attempts[0].Complete() && attempts[0].Asks(f) then 1 else 0) + TasksCompleted(attempts[1..], f)
  }

  /**
   Of any task runs towards the same targets of a family, `k` of them complete and any number stopped anywhere:
   a stale address of multiplicity `m` has at most `max(0, m - k)` records left, and a target has lost none
   and has at least one as soon as `k > 0`.
   */
  lemma {:induction false} TaskAttemptsConverge(s: Store, attempts: seq<TaskRun>, f: Family, targets: seq<IpAddr>,
                                                ip: IpAddr)
    requires TaskChain(s, attempts) && TasksPursue(attempts, f, targets) && FamilyOf(ip) == f
    ensures var k, s' := TasksCompleted(attempts, f), AfterTasks(s, attempts);
            if ip in targets then Count(s', ip) >= Max(Count(s, ip), Min(k, 1))
            else Count(s', ip) <= Max(Count(s, ip), k) - k
    decreases |attempts|
  {
    if attempts != [] {
      TaskRunLaw(s, attempts[0], ip);
      PublishedIffCount(s, f, ip);
      TaskAttemptsConverge(attempts[0].end, attempts[1..], f, targets, ip);
    }
  }

  /** So from any records, and with any crashes, as many complete tasks as there are records reach the targets. */
  lemma {:induction false} CrashedTasksOnlyDelay(s: Store, attempts: seq<TaskRun>, f: Family, targets: seq<IpAddr>)
    requires TaskChain(s, attempts) && TasksPursue(attempts, f, targets) && AllOf(targets, f)
    requires TasksCompleted(attempts, f) >= Max(|s|, 1)
    ensures Published(AfterTasks(s, attempts), f) == Elems(targets)
  {
    var s' := AfterTasks(s, attempts);
    PublishedByCount(s', f);
    forall ip | FamilyOf(ip) == f
      ensures ip in Published(s', f) <==> ip in targets
    {
      SubsetCard(Ids(s, ip), s.Keys);
      TaskAttemptsConverge(s, attempts, f, targets, ip);
    }
    assert forall ip :: ip in Published(s', f) <==> ip in Elems(targets);
  }

  // ---- a report whose notification failed ----

  /** Every legal answer for the address's family contains it. */
  ghost predicate KeepsAsking(attempts: seq<TaskRun>, ip: IpAddr) {
    var f := FamilyOf(ip);
    forall i :: 0 <= i < |attempts| && attempts[i].Asks(f) ==> ip in attempts[i].targets[f]
  }

  lemma {:induction false} StaysPublished(s: Store, attempts: seq<TaskRun>, ip: IpAddr)
    requires TaskChain(s, attempts) && KeepsAsking(attempts, ip) && Count(s, ip) > 0
    ensures Count(AfterTasks(s, attempts), ip) > 0
    decreases |attempts|
  {
    if attempts != [] {
      TaskRunLaw(s, attempts[0], ip);
      StaysPublished(attempts[0].end, attempts[1..], ip);
    }
  }

  /** A notifier after the one whose `send` failed has got nothing of the report. */
  lemma NotReached(working: seq<bool>, ips: seq<IpAddr>, before: seq<Message>, n: nat, after: seq<Message>, m: Message)
    requires StoppedAt(working, ips, before, n, after) && m.notifier > n && m in after
    ensures m in before
  {
    var told := if after == before + Messages(working[..n], ips) then working[..n] else working[..n + 1];
    assert after == before + Messages(told, ips) && m !in Messages(told, ips);
  }

  /**
   A failed `send` loses its report: the records have changed already. As long as the answers keep containing an
   address of the report, a later run reports it again if and only if it is forced, whatever happened in between.
   */
  lemma LostReportIff(s: Store, f: Family, targets: seq<IpAddr>, ttl: nat, force: bool, run: Run,
                      attempts: seq<TaskRun>, targets': seq<IpAddr>, ttl': nat, force': bool, later: Run, ip: IpAddr)
    requires IsRun(s, f, targets, ttl, force, run) && run.outcome.Reported? && AllOf(targets, f)
    requires ip in run.outcome.ips
    requires TaskChain(After(run), attempts) && KeepsAsking(attempts, ip)
    requires IsRun(AfterTasks(After(run), attempts), f, targets', ttl', force', later) && later.outcome.Reported?
    ensures ip in later.outcome.ips <==> force' && ip in targets'
  {
    var now := AfterTasks(After(run), attempts);
    ExactReport(s, f, targets, ttl, force, run);
    assert ip in Elems(run.outcome.ips);
    CompleteRunPublishes(s, f, targets, ttl, force, run);
    PublishedIffCount(After(run), f, ip);
    StaysPublished(After(run), attempts, ip);
    PublishedIffCount(now, f, ip);
    ExactReport(now, f, targets', ttl', force', later);
    assert ip in later.outcome.ips <==> ip in Elems(later.outcome.ips);
  }
}
