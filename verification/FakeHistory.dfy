/** What every run of the `Fake` provider owes to its steps: where records come from and how tickets travel. */
module FakeHistory {
  import opened Net
  import opened FakeProvider
  import opened FakeLaws
  import FakeTtl

  // ---- what the steps so far amount to ----

  /** The ticket a step hands to the channel. */
  function SentBy(s: State, step: Step): seq<DnsRecord> {
    match step
    case Send(pid) => if IsSending(s, pid) then [s.creators[pid].ticket] else []
    case _ => []
  }

  /** The tickets handed to the channel before `states[i]`, in order. */
  function SentSoFar(states: seq<State>, steps: seq<Step>, i: nat): seq<DnsRecord>
    requires i <= |steps| <= |states|
  {
    if i == 0 then [] else SentSoFar(states, steps, i - 1) + SentBy(states[i - 1], steps[i - 1])
  }

  function ReceivesSoFar(steps: seq<Step>, i: nat): nat
    requires i <= |steps|
  {
    if i == 0 then 0 else ReceivesSoFar(steps, i - 1) + if steps[i - 1].Receive? then 1 else 0
  }

  function CreatesSoFar(steps: seq<Step>, i: nat): nat
    requires i <= |steps|
  {
    if i == 0 then 0 else CreatesSoFar(steps, i - 1) + if steps[i - 1].FetchAdd? then 1 else 0
  }

  /** The ticket whose timer ran out, and the tickets a step loses. */
  function FiredBy(s: State, step: Step): multiset<DnsRecord> {
    if step.Fire? then s.worker.InHand() else multiset{}
  }

  function LostBy(s: State, step: Step): multiset<DnsRecord> {
    match step
    case Receive => s.worker.InHand()
    case Exit => multiset(s.worker.channel) + s.worker.ttlHeap + s.worker.InHand()
    case _ => multiset{}
  }

  function FiredSoFar(states: seq<State>, steps: seq<Step>, i: nat): multiset<DnsRecord>
    requires i <= |steps| <= |states|
  {
    if i == 0 then multiset{} else FiredSoFar(states, steps, i - 1) + FiredBy(states[i - 1], steps[i - 1])
  }

  function LostSoFar(states: seq<State>, steps: seq<Step>, i: nat): multiset<DnsRecord>
    requires i <= |steps| <= |states|
  {
    if i == 0 then multiset{} else LostSoFar(states, steps, i - 1) + LostBy(states[i - 1], steps[i - 1])
  }

  // ---- the channel ----

  /** The waiting tickets are the last ones sent. */
  ghost predicate InOrder(s: State, sent: seq<DnsRecord>, n: nat) {
    s.worker.alive ==> n <= |sent| && s.worker.channel == sent[n..]
  }

  lemma InOrderStep(s: State, step: Step, sent: seq<DnsRecord>, n: nat)
    requires InOrder(s, sent, n) && Enabled(s, step)
    ensures InOrder(Apply(s, step), sent + SentBy(s, step), n + if step.Receive? then 1 else 0)
  {
    if step.Send? {
      assert sent[n..] + SentBy(s, step) == (sent + SentBy(s, step))[n..];
    } else {
      assert sent + SentBy(s, step) == sent;
      if step.Receive? {
        assert sent[n..][1..] == sent[n + 1..];
      } else if !MovesTickets(step) {
        WorkerFrame(s, step);
      }
    }
  }

  lemma {:induction false} AlwaysInOrder(states: seq<State>, steps: seq<Step>, i: nat)
    requires Execution(states, steps) && i < |states|
    ensures InOrder(states[i], SentSoFar(states, steps, i), ReceivesSoFar(steps, i))
  {
    if i > 0 {
      AlwaysInOrder(states, steps, i - 1);
      assert Follows(states, steps, i - 1);
      InOrderStep(states[i - 1], steps[i - 1], SentSoFar(states, steps, i - 1), ReceivesSoFar(steps, i - 1));
    }
  }

  /**
   First in, first out, in every run: while the worker lives the channel holds the tickets sent so far without
   the first `n`, for `n` receives, and the next receive puts the next of them, and no other, on the heap.
   */
  lemma FirstInFirstOut(states: seq<State>, steps: seq<Step>, i: nat)
    requires Execution(states, steps) && i < |states|
    ensures states[i].worker.alive ==>
              && ReceivesSoFar(steps, i) <= |SentSoFar(states, steps, i)|
              && states[i].worker.channel == SentSoFar(states, steps, i)[ReceivesSoFar(steps, i)..]
    ensures i < |steps| && steps[i].Receive? ==>
              var sent, n := SentSoFar(states, steps, i), ReceivesSoFar(steps, i);
              n < |sent| && states[i + 1].worker.ttlHeap == states[i].worker.ttlHeap + multiset{sent[n]}
  {
    AlwaysInOrder(states, steps, i);
    if i < |steps| {
      assert Follows(states, steps, i);
    }
  }

  /** Creates that fill the channel, one after the other. */
  lemma {:induction false} Fill(n: nat) returns (states: seq<State>, steps: seq<Step>)
    requires n <= CAPACITY
    ensures Execution(states, steps)
    ensures var s := Last(states);
            s.worker.alive && |s.worker.channel| == n && s.creators == map[] && s.held == {}
  {
    if n == 0 {
      states, steps := [INIT], [];
    } else {
      states, steps := Fill(n - 1);
      states, steps := FakeTtl.CreateRun(states, steps, n, Ipv4(n), 1);
    }
  }

  /** Some run ends with `n` tickets waiting. */
  ghost predicate CanWait(n: nat) {
    exists states, steps :: Execution(states, steps) && |Last(states).worker.channel| == n
  }

  /** Ten tickets can wait for the worker, and no more. */
  lemma TenCanWait(n: nat)
    ensures CanWait(n) <==> n <= 10
  {
    if n <= 10 {
      var states, steps := Fill(n);
      assert Execution(states, steps) && |Last(states).worker.channel| == n;
    } else if CanWait(n) {
      var states, steps :| Execution(states, steps) && |Last(states).worker.channel| == n;
      AlwaysConserved(states, steps, |states| - 1);
    }
  }

  // ---- the counters of the model ----

  lemma LedgerStep(s: State, step: Step)
    requires Enabled(s, step)
    ensures var p, p' := s.past, Apply(s, step).past;
            && p'.sent == p.sent + multiset(SentBy(s, step)) && p'.fired == p.fired + FiredBy(s, step)
            && p'.dropped == p.dropped + LostBy(s, step)
            && p'.issued == p.issued + if step.FetchAdd? then 1 else 0
  {
    HistoryFrame(s, step);
    if !MovesTickets(step) {
      WorkerFrame(s, step);
    }
  }

  /** A ticket counts as sent, fired or dropped exactly when the step that does it is taken. */
  lemma {:induction false} LedgerIsHistory(states: seq<State>, steps: seq<Step>, i: nat)
    requires Execution(states, steps) && i < |states|
    ensures states[i].past.sent == multiset(SentSoFar(states, steps, i))
    ensures states[i].past.fired == FiredSoFar(states, steps, i)
    ensures states[i].past.dropped == LostSoFar(states, steps, i)
    ensures states[i].past.issued == CreatesSoFar(steps, i)
  {
    if i > 0 {
      LedgerIsHistory(states, steps, i - 1);
      assert Follows(states, steps, i - 1);
      LedgerStep(states[i - 1], steps[i - 1]);
    }
  }

  // ---- where records come from ----

  /** Step `a` took the id of this create in flight, as the next number of the counter. */
  predicate TakenAt(steps: seq<Step>, a: nat, pid: nat, c: Creator) {
    && a < |steps| && c.Numbered? && steps[a] == FetchAdd(pid, c.ip, c.ttl)
    && c.id == (1 + CreatesSoFar(steps, a)) % 0x1_0000_0000
  }

  /** Step `a` took the id of the record and step `b` inserted it, `ttl` before its deadline. */
  predicate CreatedAt(states: seq<State>, steps: seq<Step>, a: nat, b: nat, r: DnsRecord) {
    && a < b < |steps| <= |states| && steps[b].Insert?
    && TakenAt(steps, a, steps[b].pid, Numbered(r.id, r.ip, r.ttl))
    && r.deadline == states[b].clock + r.ttl
  }

  ghost predicate Taken(steps: seq<Step>, i: nat, pid: nat, c: Creator) {
    exists a: nat :: a < i && TakenAt(steps, a, pid, c)
  }

  ghost predicate Created(states: seq<State>, steps: seq<Step>, i: nat, r: DnsRecord) {
    exists a: nat, b: nat :: b < i && CreatedAt(states, steps, a, b, r)
  }

  /** The counter starts at 1 and counts the creates, modulo 2^32. */
  lemma CounterIs(states: seq<State>, steps: seq<Step>, i: nat)
    requires Execution(states, steps) && i < |states|
    ensures states[i].idIndex == (1 + CreatesSoFar(steps, i)) % 0x1_0000_0000
  {
    LedgerIsHistory(states, steps, i);
    AlwaysConserved(states, steps, i);
  }

  lemma {:induction false} EveryIdWasTaken(states: seq<State>, steps: seq<Step>, i: nat, pid: nat)
    requires Execution(states, steps) && i < |states|
    requires pid in states[i].creators && states[i].creators[pid].Numbered?
    ensures Taken(steps, i, pid, states[i].creators[pid])
  {
    if i > 0 {
      var c := states[i].creators[pid];
      assert Follows(states, steps, i - 1);
      if steps[i - 1].FetchAdd? && steps[i - 1].pid == pid {
        CounterIs(states, steps, i - 1);
        assert TakenAt(steps, i - 1, pid, c);
      } else {
        EveryIdWasTaken(states, steps, i - 1, pid);
        var a: nat :| a < i - 1 && TakenAt(steps, a, pid, c);
      }
    }
  }

  lemma {:induction false} EveryBirthWasACreate(states: seq<State>, steps: seq<Step>, i: nat, id: nat)
    requires Execution(states, steps) && i < |states| && id in states[i].past.born
    ensures Created(states, steps, i, states[i].past.born[id]) && states[i].past.born[id].id == id
  {
    if i > 0 {
      var s, step, r := states[i - 1], steps[i - 1], states[i].past.born[id];
      assert Follows(states, steps, i - 1);
      HistoryFrame(s, step);
      if step.Insert? && s.Fresh(step.pid).id == id {
        EveryIdWasTaken(states, steps, i - 1, step.pid);
        var a: nat :| a < i - 1 && TakenAt(steps, a, step.pid, s.creators[step.pid]);
        assert CreatedAt(states, steps, a, i - 1, r);
      } else {
        EveryBirthWasACreate(states, steps, i - 1, id);
        var a: nat, b: nat :| b < i - 1 && CreatedAt(states, steps, a, b, r);
      }
    }
  }

  /**
   Where a cached record comes from, in every run within 2^32 creates: one create took its id as the next number
   of the counter, starting at 1, and inserted it with the ttl asked for, that long before its deadline.
   */
  lemma EveryRecordWasCreated(states: seq<State>, steps: seq<Step>, i: nat, f: Family, id: nat)
    returns (r: DnsRecord, a: nat, b: nat)
    requires Execution(states, steps) && i < |states| && states[i].past.issued <= U32_SIZE
    requires id in states[i].CacheOf(f)
    ensures b < i && CreatedAt(states, steps, a, b, r) && FamilyOf(r.ip) == f && r.id == id
    ensures var cached := states[i].CacheOf(f)[id];
            cached.id == id && cached.ttl == r.ttl && cached.deadline == r.deadline
  {
    AlwaysIdentified(states, steps, i);
    assert CachedAsBorn(states[i], f, id);
    r := states[i].past.born[id];
    EveryBirthWasACreate(states, steps, i, id);
    a, b :| b < i && CreatedAt(states, steps, a, b, r);
  }
}
