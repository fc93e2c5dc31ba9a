/** `create_task`: from a configured task to the families its future works on. */
module Tasks {
  import opened Net
  import opened RecordStore
  import opened ReconcileLaws
  import opened RunTask

  datatype TaskSetting = TaskSetting(family: string, provider: string, iface: string, notifiers: seq<string>)

  /** The names under which `run` filled its three maps. */
  datatype Config = Config(interfaces: set<string>, notifiers: set<string>, providers: set<string>)

  datatype Created =
    | Built(families: seq<Family>)
    | UnknownFamily
    | NoNotifier
    | NoInterface
    | NoProvider

  function CreateTask(c: Config, t: TaskSetting): Created {
    if t.family != "ipv4" && t.family != "ipv6" && t.family != "all" then UnknownFamily
    else if exists k :: 0 <= k < |t.notifiers| && t.notifiers[k] !in c.notifiers then NoNotifier
    else if t.iface !in c.interfaces then NoInterface
    else if t.provider !in c.providers then NoProvider
    else Built(if t.family == "ipv4" then [V4] else if t.family == "ipv6" then [V6] else [V4, V6])
  }

  /** The setting asks for this family. */
  predicate Names(t: TaskSetting, f: Family) {
    t.family == "all" || t.family == (if f == V4 then "ipv4" else "ipv6")
  }

  /** A task can be created if and only if its family is known and `run` has built everything it names. */
  lemma BuiltIff(c: Config, t: TaskSetting)
    ensures CreateTask(c, t).Built? <==>
            && t.family in {"ipv4", "ipv6", "all"}
            && (forall name :: name in t.notifiers ==> name in c.notifiers)
            && t.iface in c.interfaces && t.provider in c.providers
  {
    if k :| 0 <= k < |t.notifiers| && t.notifiers[k] !in c.notifiers {
      assert t.notifiers[k] in t.notifiers;
    }
  }

  /** A task that can be created works on the families its setting names, each once. */
  lemma FamiliesOnce(c: Config, t: TaskSetting)
    requires CreateTask(c, t).Built?
    ensures NoDup(CreateTask(c, t).families)
    ensures forall f :: f in CreateTask(c, t).families <==> Names(t, f)
  {
    forall f
      ensures f in CreateTask(c, t).families <==> Names(t, f)
    {
      assert f == V4 || f == V6;
      assert "ipv4"[3] != "ipv6"[3] && |"all"| == 3;
    }
  }

  /**
   One successful pass of a task as it was configured: every family its setting names obeys the law of one
   run from the records the pass found, a skipped or unnamed family keeps its records.
   */
  lemma BuiltTaskLaw(c: Config, t: TaskSetting, s: Store, targets: map<Family, seq<IpAddr>>, ttl: nat, force: bool,
                     passes: seq<Pass>, s': Store, f: Family)
    requires CreateTask(c, t).Built?
    requires IsPass(s, CreateTask(c, t).families, targets, ttl, force, passes, s')
    ensures Names(t, f) ==> f in targets
    ensures forall ip :: FamilyOf(ip) == f ==>
              Count(s', ip) == if Names(t, f) && Legal(targets[f], f) then NextCount(s, f, targets[f], ip)
                               else Count(s, ip)
    ensures Distinct(s, f) ==>
              Published(s', f) == if Names(t, f) && Legal(targets[f], f) then Elems(targets[f]) else Published(s, f)
  {
    var families := CreateTask(c, t).families;
    FamiliesOnce(c, t);
    if Names(t, f) {
      PassLaw(s, families, targets, ttl, force, passes, s', f);
      if Distinct(s, f) {
        PassConverges(s, families, targets, ttl, force, passes, s', f);
      }
    } else {
      PassElsewhere(s, families, targets, ttl, force, passes, s', f);
      PublishedByCount(s, f);
      PublishedByCount(s', f);
    }
  }
}
