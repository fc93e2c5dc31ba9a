/**
 An IPv4 and an IPv6 reconcile on one `Fake` provider. Their calls are the atomic sections of the provider's
 own operations, its worker receives tickets, sleeps, queues for locks and may end in between, but nothing
 expires. A create is three sections: the id is taken, the record inserted, the ticket sent or not.
 */
module FakeInterleaving {
  import opened Net
  import RS = RecordStore
  import R = Reconcile
  import opened ReconcileLaws
  import B = ReconcileBounds
  import I = Interleaving
  import F = FakeProvider
  import FL = FakeLaws
  import opened FakeRefines

  /** The provider, how far each reconcile is, and the create each has in flight. */
  datatype Joint = Joint(fake: F.State, v4: I.Lane, v6: I.Lane, own4: Option<nat>, own6: Option<nat>) {
    function Of(f: Family): I.Lane {
      if f == V4 then v4 else v6
    }

    function Own(f: Family): Option<nat> {
      if f == V4 then own4 else own6
    }

    /** The same, as the abstract store sees it. */
    function Seen(): I.Shared {
      I.Shared(Abs(fake), v4, v6)
    }

    function With(s: F.State, f: Family, lane: I.Lane, own: Option<nat>): Joint {
      if f == V4 then Joint(s, lane, v6, own, own6) else Joint(s, v4, lane, own4, own)
    }
  }

  /** A reconcile takes its snapshot or returns; or the provider takes a step of its own. */
  datatype Move = Think(f: Family) | Provider(step: F.Step)

  function IpOf(c: F.Creator): IpAddr {
    if c.Numbered? then c.ip else c.ticket.ip
  }

  /** The next call of a reconcile. */
  predicate Pending(lane: I.Lane, c: RS.Call) {
    && lane.proc.Busy? && 1 <= |lane.proc.views| <= |lane.proc.plan.Calls(lane.goal.ttl)|
    && lane.proc.plan.Calls(lane.goal.ttl)[|lane.proc.views| - 1] == c
  }

  predicate Mutates(step: F.Step) {
    step.Insert? || step.Update? || step.Delete?
  }

  /** The family a mutation works on. */
  function FamilyAt(s: F.State, step: F.Step): Family
    requires F.Enabled(s, step) && Mutates(step)
  {
    FamilyOf(if step.Insert? then s.creators[step.pid].ip else step.ip)
  }

  /** The step carries out the next call of the reconcile of its family; a create is that reconcile's own. */
  predicate Serves(a: Joint, step: F.Step)
    requires F.Enabled(a.fake, step) && Mutates(step)
  {
    var f := FamilyAt(a.fake, step);
    match step
    case Insert(pid) =>
      && a.Own(f) == Some(pid)
      && Pending(a.Of(f), RS.Create(a.fake.creators[pid].ip, a.fake.creators[pid].ttl))
    case Update(id, ip) => a.Own(f).None? && Pending(a.Of(f), RS.Call.Update(id, ip))
    case Delete(id, _) => a.Own(f).None? && Pending(a.Of(f), RS.Call.Delete(id))
  }

  /** The reconcile after its call was served; "can't find records" is the end of it. */
  function Answered(lane: I.Lane, found: bool, f: Family, s': F.State): I.Lane
    requires lane.proc.Busy?
  {
    lane.(proc := if found then I.Busy(lane.proc.plan, lane.proc.views + [RS.View(Abs(s'), f)]) else I.NoRecord)
  }

  /** A create whose ticket could not be sent is an error, after its record was inserted. */
  function SendFailed(lane: I.Lane): I.Lane
    requires lane.proc.Busy? && lane.proc.views != []
  {
    var views := lane.proc.views;
    lane.(proc := I.Broken(R.Run(lane.proc.plan, views, |views| - 1, R.Failed)))
  }

  /** What a step of the provider means for the reconciles. */
  predicate ProviderStep(a: Joint, step: F.Step, b: Joint)
    requires F.Enabled(a.fake, step)
  {
    var s' := F.Apply(a.fake, step);
    if Mutates(step) then
      var f := FamilyAt(a.fake, step);
      Serves(a, step) && b == a.With(s', f, Answered(a.Of(f), Carried(a.fake, step).Asked?, f, s'), a.Own(f))
    else if step.FetchAdd? then
      var f := FamilyOf(step.ip);
      || b == a.(fake := s')
      || (a.Own(f).None? && Pending(a.Of(f), RS.Create(step.ip, step.ttl)) &&
          b == a.With(s', f, a.Of(f), Some(step.pid)))
    else if step.Send? || step.SendError? then
      var f := FamilyOf(a.fake.creators[step.pid].ticket.ip);
      if a.Own(f) != Some(step.pid) then b == a.(fake := s')
      else if step.Send? then b == a.With(s', f, a.Of(f), None)
      else a.Of(f).proc.Busy? && a.Of(f).proc.views != [] && b == a.With(s', f, SendFailed(a.Of(f)), None)
    else
      b == a.(fake := s')
  }

  /** A listing waits for the lock of its cache; a reconcile with a create in flight does nothing else. */
  ghost predicate JointStep(a: Joint, move: Move, b: Joint) {
    match move
    case Think(f) =>
      && b.fake == a.fake && b.own4 == a.own4 && b.own6 == a.own6
      && a.Own(f).None? && (a.Of(f).proc.Ready? ==> f !in a.fake.held)
      && (forall c :: !Pending(a.Of(f), c)) && I.Step(a.Seen(), f, b.Seen())
    case Provider(step) => F.Enabled(a.fake, step) && !step.Fire? && ProviderStep(a, step, b)
  }

  /** The reconciles start from a state some run of the provider has reached. */
  ghost predicate Starts(j: Joint) {
    && (exists states, steps :: F.Execution(states, steps) && Last(states) == j.fake)
    && j.v4.proc.Ready? && j.v6.proc.Ready? && j.own4.None? && j.own6.None?
    && AllOf(j.v4.goal.targets, V4) && AllOf(j.v6.goal.targets, V6)
  }

  ghost predicate JointRun(js: seq<Joint>, moves: seq<Move>) {
    && |js| == |moves| + 1 && Starts(js[0])
    && forall i :: 0 <= i < |moves| ==> Moved(js, moves, i)
  }

  ghost predicate Moved(js: seq<Joint>, moves: seq<Move>, i: nat)
    requires i < |moves| && i + 1 < |js|
  {
    JointStep(js[i], moves[i], js[i + 1])
  }

  // ---- one step ----

  lemma SeenLanes(j: Joint)
    ensures forall f :: j.Seen().Of(f) == j.Of(f)
    ensures j.Seen().store == Abs(j.fake)
  {
  }

  /** The provider finds the record of the next call of a reconcile. */
  lemma Found(s: RS.Store, a: Joint, step: F.Step)
    requires FL.IdInv(a.fake) && F.Enabled(a.fake, step) && Mutates(step)
    requires I.SoloIn(s, FamilyAt(a.fake, step), a.Seen()) && Serves(a, step)
    ensures Carried(a.fake, step).Asked? && Pending(a.Of(FamilyAt(a.fake, step)), Carried(a.fake, step).call)
    ensures RS.Addressable(Abs(a.fake), Carried(a.fake, step).call)
  {
    var f := FamilyAt(a.fake, step);
    var lane := a.Of(f);
    SeenLanes(a);
    var c := lane.proc.plan.Calls(lane.goal.ttl)[|lane.proc.views| - 1];
    CallAt(s, a, f, c);
  }

  /** The next call of a reconcile stays in its family, and its record is in the cache. */
  lemma CallAt(s: RS.Store, a: Joint, f: Family, c: RS.Call)
    requires FL.IdInv(a.fake) && I.SoloIn(s, f, a.Seen()) && Pending(a.Of(f), c)
    ensures RS.Addressable(Abs(a.fake), c) && RS.Within(Abs(a.fake), c, f)
    ensures !c.Create? ==> c.id in a.fake.CacheOf(f) && FamilyOf(a.fake.CacheOf(f)[c.id].ip) == f
  {
    var lane := a.Of(f);
    SeenLanes(a);
    I.PendingCall(RS.View(s, f), f, lane.goal, lane.proc.plan, lane.proc.views, Abs(a.fake));
    Separated(a.fake);
    CacheIsView(a.fake, f);
    assert !c.Create? ==> c.id in RS.View(Abs(a.fake), f);
  }

  /** Serving the next call is a step of that reconcile alone. */
  lemma NextCall(s: RS.Store, s': RS.Store, f: Family, lane: I.Lane, c: RS.Call)
    requires Pending(lane, c) && RS.Addressable(s, c) && RS.Effect(s, c, s')
    ensures I.LaneStep(s, f, lane.goal, lane.proc, s', I.Busy(lane.proc.plan, lane.proc.views + [RS.View(s', f)]))
  {
  }

  /** A call served by the provider is a step of the abstract interleaving. */
  lemma ServedIsStep(s: RS.Store, a: Joint, step: F.Step, b: Joint)
    requires FL.IdInv(a.fake) && F.Enabled(a.fake, step) && Mutates(step)
    requires I.SoloIn(s, FamilyAt(a.fake, step), a.Seen()) && ProviderStep(a, step, b)
    ensures I.Step(a.Seen(), FamilyAt(a.fake, step), b.Seen())
  {
    var f := FamilyAt(a.fake, step);
    Found(s, a, step);
    StepRefinesFrom(a.fake, step);
    assert RefinesAt(a.fake, step);
    NextCall(Abs(a.fake), Abs(F.Apply(a.fake, step)), f, a.Of(f), Carried(a.fake, step).call);
    SeenLanes(a);
    SeenLanes(b);
  }

  lemma QuietStep(s: F.State, step: F.Step)
    requires FL.IdInv(s) && F.Enabled(s, step) && !Mutates(step) && !step.Fire?
    ensures Abs(F.Apply(s, step)) == Abs(s)
  {
    StepRefinesFrom(s, step);
    assert RefinesAt(s, step);
  }

  /** A failed send leaves its reconcile as a run cut off after a call that took effect. */
  lemma SendFailedSolo(s: RS.Store, a: Joint, step: F.Step, b: Joint, f: Family)
    requires FL.IdInv(a.fake) && F.Enabled(a.fake, step) && step.SendError? && ProviderStep(a, step, b)
    requires I.SoloIn(s, f, a.Seen())
    ensures I.SoloIn(s, f, b.Seen())
  {
    QuietStep(a.fake, step);
    SeenLanes(a);
    SeenLanes(b);
  }

  /** The reconciles stay as if alone. */
  lemma SoloStep(s: RS.Store, a: Joint, move: Move, b: Joint)
    requires FL.IdInv(a.fake) && JointStep(a, move, b)
    requires I.SoloIn(s, V4, a.Seen()) && I.SoloIn(s, V6, a.Seen())
    ensures I.SoloIn(s, V4, b.Seen()) && I.SoloIn(s, V6, b.Seen())
    ensures b.v4.goal == a.v4.goal && b.v6.goal == a.v6.goal
  {
    match move
    case Think(f) =>
      I.StepKeepsSolo(s, f, a.Seen(), b.Seen());
    case Provider(step) =>
      if Mutates(step) {
        var f := FamilyAt(a.fake, step);
        assert I.SoloIn(s, f, a.Seen());
        ServedIsStep(s, a, step, b);
        I.StepKeepsSolo(s, f, a.Seen(), b.Seen());
      } else if step.SendError? {
        SendFailedSolo(s, a, step, b, V4);
        SendFailedSolo(s, a, step, b, V6);
      } else {
        QuietStep(a.fake, step);
        assert b.Seen() == a.Seen();
      }
  }

  /** A create in flight belongs to a busy reconcile of its family, and is its next call until it is inserted. */
  ghost predicate Owns(j: Joint, f: Family) {
    j.Own(f).Some? ==>
      var pid := j.Own(f).value;
      && pid in j.fake.creators && FamilyOf(IpOf(j.fake.creators[pid])) == f && j.Of(f).proc.Busy?
      && var c := j.fake.creators[pid];
         c.Numbered? ==> Pending(j.Of(f), RS.Create(c.ip, c.ttl))
  }

  /** A call that is served moves a reconcile without a create in flight, or the create it has. */
  lemma OwnsMutation(a: Joint, step: F.Step, b: Joint, f: Family)
    requires Owns(a, f) && F.Enabled(a.fake, step) && Mutates(step) && ProviderStep(a, step, b)
    ensures Owns(b, f)
  {
    var g := FamilyAt(a.fake, step);
    if step.Insert? {
      assert b.fake.creators == a.fake.creators[step.pid := F.Sending(a.fake.Fresh(step.pid))];
    } else {
      FL.CallersFrame(a.fake, step);
      assert b.fake.creators == a.fake.creators;
    }
    assert g != f ==> b.Of(f) == a.Of(f) && b.Own(f) == a.Own(f);
  }

  lemma OwnsCreate(a: Joint, step: F.Step, b: Joint, f: Family)
    requires Owns(a, f) && F.Enabled(a.fake, step) && ProviderStep(a, step, b)
    requires step.FetchAdd? || step.Send? || step.SendError?
    ensures Owns(b, f)
  {
    var creators := a.fake.creators;
    if step.FetchAdd? {
      assert b.fake.creators == creators[step.pid := F.Numbered(a.fake.idIndex, step.ip, step.ttl)];
    } else {
      assert b.fake.creators == creators - {step.pid};
    }
  }

  lemma OwnsStep(a: Joint, move: Move, b: Joint, f: Family)
    requires Owns(a, f) && JointStep(a, move, b)
    ensures Owns(b, f)
  {
    match move
    case Think(g) =>
      SeenLanes(a);
      SeenLanes(b);
      assert g == f || g == Other(f);
    case Provider(step) =>
      if Mutates(step) {
        OwnsMutation(a, step, b, f);
      } else if step.FetchAdd? || step.Send? || step.SendError? {
        OwnsCreate(a, step, b, f);
      } else {
        FL.CallersFrame(a.fake, step);
      }
  }

  // ---- every reachable state ----

  /** What holds at every moment: the provider's own invariants, and each reconcile as if it were alone. */
  ghost predicate Undisturbed(first: Joint, j: Joint) {
    && FL.IdInv(j.fake) && FL.Plumbing(j.fake)
    && I.SoloIn(Abs(first.fake), V4, j.Seen()) && I.SoloIn(Abs(first.fake), V6, j.Seen())
    && j.v4.goal == first.v4.goal && j.v6.goal == first.v6.goal
  }

  lemma IssuedAlong(js: seq<Joint>, moves: seq<Move>, i: nat)
    requires JointRun(js, moves) && i < |moves|
    ensures js[i].fake.past.issued <= js[i + 1].fake.past.issued
  {
    assert Moved(js, moves, i);
    if moves[i].Provider? {
      FL.HistoryFrame(js[i].fake, moves[i].step);
    }
  }

  lemma StartsUndisturbed(j: Joint)
    requires Starts(j) && j.fake.past.issued <= F.U32_SIZE
    ensures Undisturbed(j, j)
  {
    var states, steps :| F.Execution(states, steps) && Last(states) == j.fake;
    FL.AlwaysConserved(states, steps, |states| - 1);
    FL.AlwaysIdentified(states, steps, |states| - 1);
  }

  lemma RecordsFound(first: Joint, j: Joint)
    requires Undisturbed(first, j)
    ensures !j.v4.proc.NoRecord? && !j.v6.proc.NoRecord?
  {
    SeenLanes(j);
    assert j.v4 == j.Of(V4) && j.v6 == j.Of(V6);
  }

  /** In every such run within 2^32 creates each reconcile goes as if alone, and always finds its records. */
  lemma {:induction false} AlwaysUndisturbed(js: seq<Joint>, moves: seq<Move>, i: nat)
    requires JointRun(js, moves) && i < |js| && js[i].fake.past.issued <= F.U32_SIZE
    ensures Undisturbed(js[0], js[i])
    ensures !js[i].v4.proc.NoRecord? && !js[i].v6.proc.NoRecord?
  {
    if i == 0 {
      StartsUndisturbed(js[0]);
    } else {
      IssuedAlong(js, moves, i - 1);
      AlwaysUndisturbed(js, moves, i - 1);
      assert Moved(js, moves, i - 1);
      SoloStep(Abs(js[0].fake), js[i - 1], moves[i - 1], js[i]);
      if moves[i - 1].Provider? {
        assert js[i].fake == F.Apply(js[i - 1].fake, moves[i - 1].step);
        FL.PlumbingStep(js[i - 1].fake, moves[i - 1].step);
        FL.IdInvStep(js[i - 1].fake, moves[i - 1].step);
      }
    }
    RecordsFound(js[0], js[i]);
  }

  lemma {:induction false} AlwaysOwns(js: seq<Joint>, moves: seq<Move>, i: nat, f: Family)
    requires JointRun(js, moves) && i < |js|
    ensures Owns(js[i], f)
  {
    if i > 0 {
      AlwaysOwns(js, moves, i - 1, f);
      assert Moved(js, moves, i - 1);
      OwnsStep(js[i - 1], moves[i - 1], js[i], f);
    }
  }

  /**
   When a reconcile is done, the cache of its family obeys the law of one run from the records that were
   cached at the start, whatever the other reconcile and the worker did in between; from distinct records
   the cache holds exactly its targets.
   */
  lemma CachesConverge(js: seq<Joint>, moves: seq<Move>, f: Family)
    requires JointRun(js, moves) && Last(js).fake.past.issued <= F.U32_SIZE && Last(js).Of(f).proc.Done?
    ensures var before, g, now := Abs(js[0].fake), js[0].Of(f).goal, Addresses(Last(js).fake.CacheOf(f));
            && (forall ip :: FamilyOf(ip) == f ==> RS.Count(now, ip) == NextCount(before, f, g.targets, ip))
            && (RS.Distinct(before, f) ==> RS.Published(now, f) == Elems(g.targets))
  {
    AlwaysUndisturbed(js, moves, |js| - 1);
    var s, j := Abs(js[0].fake), Last(js);
    assert I.SoloIn(s, f, j.Seen());
    I.SoloConverges(s, f, j.Seen());
    SeenLanes(j);
    Separated(j.fake);
    CacheIsView(j.fake, f);
    I.ViewPublished(Abs(j.fake), f);
  }

  // ---- a reconcile can always be brought to its end ----

  /** One more step at the end of a run. */
  lemma Append(js: seq<Joint>, moves: seq<Move>, move: Move, b: Joint)
    requires JointRun(js, moves) && JointStep(Last(js), move, b)
    ensures JointRun(js + [b], moves + [move]) && js <= js + [b] && Last(js + [b]) == b
  {
    forall i | 0 <= i < |moves + [move]|
      ensures Moved(js + [b], moves + [move], i)
    {
      if i < |moves| {
        assert Moved(js, moves, i);
      }
    }
  }

  /** The provider can go on: its worker lives and its counter has not run out. */
  predicate Alive(j: Joint) {
    j.fake.worker.alive && j.fake.past.issued <= F.U32_SIZE
  }

  /** From `a` to `b` the reconciles, their goals and the records stayed as they were. */
  predicate Paused(a: Joint, b: Joint) {
    && b.v4 == a.v4 && b.v6 == a.v6 && Abs(b.fake) == Abs(a.fake)
    && b.fake.worker.alive == a.fake.worker.alive && b.fake.past.issued == a.fake.past.issued
  }

  /** The worker takes a ticket off a full channel. */
  lemma MakeRoom(js: seq<Joint>, moves: seq<Move>) returns (js': seq<Joint>, moves': seq<Move>)
    requires JointRun(js, moves) && Alive(Last(js))
    ensures JointRun(js', moves') && js <= js' && Paused(Last(js), Last(js'))
    ensures |Last(js').fake.worker.channel| < F.CAPACITY
    ensures Last(js').fake.creators == Last(js).fake.creators && Last(js').fake.held == Last(js).fake.held
  {
    var a := Last(js);
    js', moves' := js, moves;
    AlwaysUndisturbed(js, moves, |js| - 1);
    if |a.fake.worker.channel| >= F.CAPACITY {
      var b := a.(fake := a.fake.AfterReceive());
      QuietStep(a.fake, F.Receive);
      Append(js, moves, Provider(F.Receive), b);
      js', moves' := js + [b], moves + [Provider(F.Receive)];
    }
  }

  lemma SendMove(a: Joint, pid: nat) returns (b: Joint)
    requires FL.IdInv(a.fake) && a.fake.CanSend(pid)
    ensures JointStep(a, Provider(F.Send(pid)), b) && Paused(a, b)
    ensures b.fake.held == a.fake.held - {FamilyOf(a.fake.creators[pid].ticket.ip)}
  {
    var f := FamilyOf(a.fake.creators[pid].ticket.ip);
    var s' := a.fake.AfterSend(pid);
    b := if a.Own(f) == Some(pid) then a.With(s', f, a.Of(f), None) else a.(fake := s');
    QuietStep(a.fake, F.Send(pid));
  }

  /**
   The lock of a cache can always be got: the create that holds it can send its ticket, after the worker has
   taken one off the channel if that is full.
   */
  lemma GetLock(js: seq<Joint>, moves: seq<Move>, f: Family) returns (js': seq<Joint>, moves': seq<Move>)
    requires JointRun(js, moves) && Alive(Last(js))
    ensures JointRun(js', moves') && js <= js' && Paused(Last(js), Last(js'))
    ensures f !in Last(js').fake.held
  {
    js', moves' := js, moves;
    if f in Last(js).fake.held {
      var ks, ms := MakeRoom(js, moves);
      AlwaysUndisturbed(ks, ms, |ks| - 1);
      var pid :| FL.Holds(Last(ks).fake, pid, f);
      var b := SendMove(Last(ks), pid);
      Append(ks, ms, Provider(F.Send(pid)), b);
      js', moves' := ks + [b], ms + [Provider(F.Send(pid))];
    }
  }

  /** With the lock free, a create of the reconcile in flight is the next call and not yet inserted. */
  lemma OwnIsNext(js: seq<Joint>, moves: seq<Move>, f: Family)
    requires JointRun(js, moves) && Alive(Last(js)) && f !in Last(js).fake.held && Last(js).Own(f).Some?
    ensures var j, pid := Last(js), Last(js).Own(f).value;
            && j.fake.CanInsert(pid) && FamilyOf(j.fake.creators[pid].ip) == f
            && Pending(j.Of(f), RS.Create(j.fake.creators[pid].ip, j.fake.creators[pid].ttl))
  {
    AlwaysUndisturbed(js, moves, |js| - 1);
    AlwaysOwns(js, moves, |js| - 1, f);
    var j, pid := Last(js), Last(js).Own(f).value;
    assert !FL.Holds(j.fake, pid, f);
  }

  /** One call of the reconcile of family `f` further, with the worker alive and at most one id used. */
  ghost predicate OneFurther(a: Joint, b: Joint, f: Family) {
    && b.Of(f).goal == a.Of(f).goal && b.Of(Other(f)) == a.Of(Other(f))
    && a.Of(f).proc.Busy? && b.Of(f).proc.Busy? && b.Of(f).proc.plan == a.Of(f).proc.plan
    && |b.Of(f).proc.views| == |a.Of(f).proc.views| + 1
    && b.fake.worker.alive && b.fake.past.issued <= a.fake.past.issued + 1
  }

  lemma Served(s: RS.Store, a: Joint, step: F.Step) returns (b: Joint)
    requires FL.IdInv(a.fake) && F.Enabled(a.fake, step) && Mutates(step) && Serves(a, step)
    requires I.SoloIn(s, FamilyAt(a.fake, step), a.Seen())
    ensures ProviderStep(a, step, b) && b.fake == F.Apply(a.fake, step)
    ensures var f := FamilyAt(a.fake, step);
            b == a.With(b.fake, f, Answered(a.Of(f), true, f, b.fake), a.Own(f))
    ensures b.fake.worker == a.fake.worker && b.fake.past.issued == a.fake.past.issued
  {
    var f := FamilyAt(a.fake, step);
    Found(s, a, step);
    FL.WorkerFrame(a.fake, step);
    FL.HistoryFrame(a.fake, step);
    var s' := F.Apply(a.fake, step);
    b := a.With(s', f, Answered(a.Of(f), true, f, s'), a.Own(f));
  }

  /** The provider serves the pending call: a mutation of the family, with the lock free. */
  lemma ServeMove(js: seq<Joint>, moves: seq<Move>, step: F.Step) returns (js': seq<Joint>, moves': seq<Move>)
    requires JointRun(js, moves) && Alive(Last(js)) && F.Enabled(Last(js).fake, step) && Mutates(step)
    requires Serves(Last(js), step)
    ensures JointRun(js', moves') && js <= js'
    ensures OneFurther(Last(js), Last(js'), FamilyAt(Last(js).fake, step))
    ensures Last(js').fake.past.issued == Last(js).fake.past.issued
  {
    var a := Last(js);
    var f := FamilyAt(a.fake, step);
    AlwaysUndisturbed(js, moves, |js| - 1);
    assert I.SoloIn(Abs(js[0].fake), f, a.Seen());
    var b := Served(Abs(js[0].fake), a, step);
    Append(js, moves, Provider(step), b);
    js', moves' := js + [b], moves + [Provider(step)];
  }

  /** A create is begun: the counter is bumped, before any lock. */
  lemma BeginCreate(js: seq<Joint>, moves: seq<Move>, f: Family, ip: IpAddr, ttl: nat)
    returns (js': seq<Joint>, moves': seq<Move>)
    requires JointRun(js, moves) && Last(js).fake.past.issued < F.U32_SIZE
    requires Last(js).Own(f).None? && Pending(Last(js).Of(f), RS.Create(ip, ttl))
    ensures JointRun(js', moves') && js <= js'
    ensures Last(js').v4 == Last(js).v4 && Last(js').v6 == Last(js).v6 && Last(js').Own(f).Some?
    ensures Last(js').fake.held == Last(js).fake.held && Last(js').fake.worker == Last(js).fake.worker
    ensures Last(js').fake.past.issued == Last(js).fake.past.issued + 1
  {
    var a := Last(js);
    AlwaysUndisturbed(js, moves, |js| - 1);
    assert I.SoloIn(Abs(js[0].fake), f, a.Seen());
    CallAt(Abs(js[0].fake), a, f, RS.Create(ip, ttl));
    RS.FreshId(a.fake.creators.Keys);
    var pid: nat :| pid !in a.fake.creators.Keys;
    var b := a.With(a.fake.AfterFetchAdd(pid, ip, ttl), f, a.Of(f), Some(pid));
    Append(js, moves, Provider(F.FetchAdd(pid, ip, ttl)), b);
    js', moves' := js + [b], moves + [Provider(F.FetchAdd(pid, ip, ttl))];
  }

  /** With the lock free and its create begun, the next call is a step the provider can take. */
  lemma NextStep(js: seq<Joint>, moves: seq<Move>, f: Family, c: RS.Call) returns (step: F.Step)
    requires JointRun(js, moves) && Alive(Last(js)) && f !in Last(js).fake.held
    requires Pending(Last(js).Of(f), c) && (c.Create? ==> Last(js).Own(f).Some?)
    ensures F.Enabled(Last(js).fake, step) && Mutates(step)
    ensures Serves(Last(js), step) && FamilyAt(Last(js).fake, step) == f
  {
    var a := Last(js);
    AlwaysUndisturbed(js, moves, |js| - 1);
    assert I.SoloIn(Abs(js[0].fake), f, a.Seen());
    CallAt(Abs(js[0].fake), a, f, c);
    if a.Own(f).Some? {
      OwnIsNext(js, moves, f);
      step := F.Insert(a.Own(f).value);
    } else if c.Update? {
      step := F.Step.Update(c.id, c.ip);
    } else {
      step := F.Step.Delete(c.id, a.fake.CacheOf(f)[c.id].ip);
    }
  }

  /** The next call of a busy reconcile can be served. */
  lemma Advance(js: seq<Joint>, moves: seq<Move>, f: Family, c: RS.Call)
    returns (js': seq<Joint>, moves': seq<Move>)
    requires JointRun(js, moves) && Alive(Last(js)) && Last(js).fake.past.issued < F.U32_SIZE
    requires Pending(Last(js).Of(f), c)
    ensures JointRun(js', moves') && js <= js' && OneFurther(Last(js), Last(js'), f)
  {
    var ks, ms := GetLock(js, moves, f);
    if Last(ks).Own(f).None? && c.Create? {
      ks, ms := BeginCreate(ks, ms, f, c.ip, c.ttl);
    }
    var step := NextStep(ks, ms, f, c);
    js', moves' := ServeMove(ks, ms, step);
  }

  /** A reconcile that has made all its calls returns. */
  lemma Returns(js: seq<Joint>, moves: seq<Move>, f: Family) returns (js': seq<Joint>, moves': seq<Move>)
    requires JointRun(js, moves) && Alive(Last(js)) && Last(js).Of(f).proc.Busy?
    requires |Last(js).Of(f).proc.views| > |Last(js).Of(f).proc.plan.Calls(Last(js).Of(f).goal.ttl)|
    ensures JointRun(js', moves') && js <= js'
    ensures Last(js').Of(f).proc.Done? && Alive(Last(js'))
  {
    var ks, ms := GetLock(js, moves, f);
    var a := Last(ks);
    if a.Own(f).Some? {
      OwnIsNext(ks, ms, f);
    }
    var lane := a.Of(f);
    var b := a.With(a.fake, f, lane.(proc := I.Done(lane.proc.plan, lane.proc.views)), a.Own(f));
    SeenLanes(a);
    SeenLanes(b);
    Append(ks, ms, Think(f), b);
    js', moves' := ks + [b], ms + [Think(f)];
  }

  /** The calls a busy reconcile has left. */
  function CallsLeft(lane: I.Lane): int {
    if lane.proc.Busy? then |lane.proc.plan.Calls(lane.goal.ttl)| + 1 - |lane.proc.views| else 0
  }

  lemma {:induction false} Finish(js: seq<Joint>, moves: seq<Move>, f: Family)
    returns (js': seq<Joint>, moves': seq<Move>)
    requires JointRun(js, moves) && Alive(Last(js)) && Last(js).Of(f).proc.Busy?
    requires Last(js).fake.past.issued + CallsLeft(Last(js).Of(f)) <= F.U32_SIZE
    ensures JointRun(js', moves') && js <= js' && Last(js').Of(f).proc.Done? && Alive(Last(js'))
    decreases CallsLeft(Last(js).Of(f)) + 1
  {
    var lane := Last(js).Of(f);
    AlwaysUndisturbed(js, moves, |js| - 1);
    assert I.SoloIn(Abs(js[0].fake), f, Last(js).Seen());
    SeenLanes(Last(js));
    if CallsLeft(lane) <= 0 {
      js', moves' := Returns(js, moves, f);
    } else {
      var c := lane.proc.plan.Calls(lane.goal.ttl)[|lane.proc.views| - 1];
      var ks, ms := Advance(js, moves, f, c);
      js', moves' := Finish(ks, ms, f);
    }
  }

  /** Waiting for its lock, a reconcile that is not doomed to panic gets its listing. */
  lemma Begin(js: seq<Joint>, moves: seq<Move>, f: Family) returns (js': seq<Joint>, moves': seq<Move>)
    requires JointRun(js, moves) && Alive(Last(js)) && Last(js).Of(f).proc.Ready?
    requires var g := Last(js).Of(f).goal; !(g.force && R.ForcePanics(Abs(Last(js).fake), f, g.targets))
    ensures JointRun(js', moves') && js <= js' && Last(js').Of(f).proc.Busy? && Alive(Last(js'))
    ensures Last(js').fake.past.issued == Last(js).fake.past.issued
    ensures CallsLeft(Last(js').Of(f)) <=
            |RS.Published(Abs(Last(js).fake), f)| + |Last(js).Of(f).goal.targets|
  {
    var ks, ms := GetLock(js, moves, f);
    var a := Last(ks);
    if a.Own(f).Some? {
      OwnIsNext(ks, ms, f);
    }
    SeenLanes(a);
    var lane := a.Of(f);
    var proc := I.CanBegin(Abs(a.fake), f, lane.goal);
    B.CallsBound(Abs(a.fake), f, lane.goal.targets, lane.goal.force, proc.plan, lane.goal.ttl);
    var b := a.With(a.fake, f, lane.(proc := proc), a.Own(f));
    SeenLanes(b);
    Append(ks, ms, Think(f), b);
    js', moves' := ks + [b], ms + [Think(f)];
  }

  /** The calls a reconcile may still have to make. */
  function CallsAhead(j: Joint, f: Family): int {
    var lane := j.Of(f);
    if lane.proc.Ready? then |RS.Published(Abs(j.fake), f)| + |lane.goal.targets| else CallsLeft(lane)
  }

  /**
   Progress: from every state such a run reaches, with full channels, locks held by the other reconcile or by
   strangers and the worker waiting for locks itself, an unfinished reconcile can be brought to its end, as long
   as the worker lives, the ids last and the reconcile is not doomed to panic on its first forced item.
   */
  lemma CanBeFinished(js: seq<Joint>, moves: seq<Move>, f: Family) returns (js': seq<Joint>, moves': seq<Move>)
    requires JointRun(js, moves) && Alive(Last(js)) && I.Unfinished(Last(js).Of(f).proc)
    requires Last(js).fake.past.issued + CallsAhead(Last(js), f) <= F.U32_SIZE
    requires var g := Last(js).Of(f).goal;
             Last(js).Of(f).proc.Ready? ==> !(g.force && R.ForcePanics(Abs(Last(js).fake), f, g.targets))
    ensures JointRun(js', moves') && js <= js' && Last(js').Of(f).proc.Done? && Alive(Last(js'))
  {
    var ks, ms := js, moves;
    if Last(js).Of(f).proc.Ready? {
      ks, ms := Begin(js, moves, f);
    }
    js', moves' := Finish(ks, ms, f);
  }
}
