/** Address families, IP addresses and the few sequence facts that every other module uses. */
module Net {

  datatype Option<+T> = None | Some(value: T)

  /** The address families a task can be configured for. */
  datatype Family = V4 | V6

  /** An IP address; two addresses of different families are never equal. */
  datatype IpAddr = Ipv4(bits: nat) | Ipv6(bits: nat)

  function FamilyOf(ip: IpAddr): Family {
    if ip.Ipv4? then V4 else V6
  }

  function Other(f: Family): Family {
    if f == V4 then V6 else V4
  }

  function Min(a: nat, b: nat): nat {
    if a <= b then a else b
  }

  function Max(a: nat, b: nat): nat {
    if a <= b then b else a
  }

  function Last<T>(s: seq<T>): T
    requires s != []
  {
    s[|s| - 1]
  }

  function Map<T, U>(s: seq<T>, g: T -> U): (r: seq<U>)
    ensures |r| == |s|
    ensures forall i :: 0 <= i < |s| ==> r[i] == g(s[i])
  {
    seq(|s|, i requires 0 <= i < |s| => g(s[i]))
  }

  ghost predicate NoDup<T>(s: seq<T>) {
    forall i, j :: 0 <= i < j < |s| ==> s[i] != s[j]
  }

  function Elems<T>(s: seq<T>): set<T> {
    set x | x in s
  }

  ghost predicate AllOf(ips: seq<IpAddr>, f: Family) {
    forall ip :: ip in ips ==> FamilyOf(ip) == f
  }

  lemma {:induction false} NoDupCard<T>(s: seq<T>)
    requires NoDup(s)
    ensures |Elems(s)| == |s|
  {
    if s != [] {
      NoDupCard(s[1..]);
      assert Elems(s) == {s[0]} + Elems(s[1..]);
    }
  }

  /** Along a duplicate-free sequence every element has multiplicity one. */
  lemma {:induction false} NoDupCount<T>(s: seq<T>, x: T)
    requires NoDup(s)
    ensures multiset(s)[x] == if x in s then 1 else 0
  {
    if s != [] {
      NoDupCount(s[1..], x);
      assert s == [s[0]] + s[1..];
    }
  }

  lemma CountJoin<T>(a: seq<T>, b: seq<T>, x: T)
    ensures multiset(a + b)[x] == multiset(a)[x] + multiset(b)[x]
  {
  }

  lemma CountCons<T>(a: T, rest: seq<T>, x: T)
    ensures multiset([a] + rest)[x] == multiset(rest)[x] + if a == x then 1 else 0
  {
  }

  lemma {:induction false} ElemsCard<T>(s: seq<T>)
    ensures |Elems(s)| <= |s|
  {
    if s != [] {
      ElemsCard(s[1..]);
      assert Elems(s) == {s[0]} + Elems(s[1..]);
    }
  }

  lemma SplitCard<T>(a: set<T>, b: set<T>)
    ensures |a - b| + |a * b| == |a|
  {
    assert a == (a - b) + a * b;
  }

  lemma SubsetCard<T>(a: set<T>, b: set<T>)
    requires a <= b
    ensures |a| <= |b|
  {
    assert b == a + (b - a);
  }

  /** A duplicate-free list of exactly the elements of a set. */
  ghost predicate Enumerates<T>(s: seq<T>, elements: set<T>) {
    NoDup(s) && Elems(s) == elements
  }

  lemma EnumeratesCard<T>(s: seq<T>, elements: set<T>)
    requires Enumerates(s, elements)
    ensures |s| == |elements|
  {
    NoDupCard(s);
    assert Elems(s) == elements;
  }

  lemma AppendNew<T>(order: seq<T>, x: T, elements: set<T>)
    requires Enumerates(order, elements) && x !in elements
    ensures Enumerates(order + [x], elements + {x})
  {
    assert forall y :: y in order ==> y in Elems(order);
    assert Elems(order + [x]) == Elems(order) + {x};
  }

  lemma Assoc<T>(a: seq<T>, b: seq<T>, c: seq<T>)
    ensures a + b + c == a + (b + c)
  {
  }
}
