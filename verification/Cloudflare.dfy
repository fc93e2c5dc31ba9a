/** The Cloudflare provider's paged record listing. */
module Cloudflare {
  import opened Net

  datatype DnsContent = A(v4: nat) | AAAA(v6: nat) | OtherContent

  /** A record as the service describes it. */
  datatype ZoneRecord = ZoneRecord(id: string, content: DnsContent)

  datatype DnsRecord = DnsRecord(id: string, ip: IpAddr)

  const PER_PAGE: nat := 50

  /** The service's answer to page `p` (from 1) of its list. */
  function Page(all: seq<ZoneRecord>, p: nat): (page: seq<ZoneRecord>)
    requires p >= 1
    ensures |page| <= PER_PAGE
  {
    var from := PER_PAGE * (p - 1);
    if from >= |all| then [] else all[from..Min(from + PER_PAGE, |all|)]
  }

  function Wanted(dns: ZoneRecord, family: Family): Option<DnsRecord> {
    if family == V6 && dns.content.AAAA? then Some(DnsRecord(dns.id, Ipv6(dns.content.v6)))
    else if family == V4 && dns.content.A? then Some(DnsRecord(dns.id, Ipv4(dns.content.v4)))
    else None
  }

  function Kept(dns: ZoneRecord, family: Family): seq<DnsRecord> {
    var w := Wanted(dns, family);
    if w.Some? then [w.value] else []
  }

  /** The records of one family, in the order of the list. */
  function Filter(all: seq<ZoneRecord>, family: Family): seq<DnsRecord> {
    if all == [] then [] else Kept(all[0], family) + Filter(all[1..], family)
  }

  lemma FilterCons(dns: ZoneRecord, rest: seq<ZoneRecord>, family: Family)
    ensures Filter([dns] + rest, family) == Kept(dns, family) + Filter(rest, family)
  {
    assert ([dns] + rest)[1..] == rest;
  }

  /** The filter keeps the order of the list. */
  lemma {:induction false} FilterAppend(a: seq<ZoneRecord>, b: seq<ZoneRecord>, family: Family)
    ensures Filter(a + b, family) == Filter(a, family) + Filter(b, family)
  {
    if a == [] {
      assert a + b == b;
    } else {
      var rest := a[1..];
      FilterAppend(rest, b, family);
      FilterCons(a[0], rest, family);
      FilterCons(a[0], rest + b, family);
      Assoc(Kept(a[0], family), Filter(rest, family), Filter(b, family));
      assert a == [a[0]] + rest && a + b == [a[0]] + (rest + b);
    }
  }

  /** The record of the service a listed record stands for. */
  function Origin(r: DnsRecord): ZoneRecord {
    ZoneRecord(r.id, match r.ip case Ipv4(bits) => A(bits) case Ipv6(bits) => AAAA(bits))
  }

  lemma OneKept(dns: ZoneRecord, family: Family, r: DnsRecord)
    ensures multiset(Kept(dns, family))[r] == if FamilyOf(r.ip) == family && dns == Origin(r) then 1 else 0
  {
    assert Wanted(dns, family) == Some(r) <==> FamilyOf(r.ip) == family && dns == Origin(r);
  }

  /** The filter keeps exactly the address records of the family, each as often as the service lists it. */
  lemma {:induction false} FilterKeeps(all: seq<ZoneRecord>, family: Family, r: DnsRecord)
    ensures multiset(Filter(all, family))[r] == if FamilyOf(r.ip) == family then multiset(all)[Origin(r)] else 0
  {
    if all != [] {
      var dns, rest := all[0], all[1..];
      FilterKeeps(rest, family, r);
      OneKept(dns, family, r);
      CountCons(dns, rest, Origin(r));
      assert all == [dns] + rest;
      CountJoin(Kept(dns, family), Filter(rest, family), r);
    }
  }

  /** The loop over one page. */
  method PickFamily(dnsResult: seq<ZoneRecord>, family: Family) returns (result: seq<DnsRecord>)
    ensures result == Filter(dnsResult, family)
  {
    result := [];
    for i := 0 to |dnsResult|
      invariant result == Filter(dnsResult[..i], family)
    {
      var dns := dnsResult[i];
      assert dnsResult[..i + 1] == dnsResult[..i] + [dns];
      FilterAppend(dnsResult[..i], [dns], family);
      FilterCons(dns, [], family);
      assert [dns] + [] == [dns];
      match (family, dns.content) {
        case (V6, AAAA(ip)) => result := result + [DnsRecord(dns.id, Ipv6(ip))];
        case (V4, A(ip)) => result := result + [DnsRecord(dns.id, Ipv4(ip))];
        case _ =>
      }
    }
    assert dnsResult[..|dnsResult|] == dnsResult;
  }

  /**
   The paging loop against a service that serves slices of its list: it returns the whole list filtered,
   in order, after one request per full page and one more. `failAt` is the number of the request that
   fails, if any does.
   */
  method GetDnsRecord(all: seq<ZoneRecord>, family: Family, failAt: Option<nat>)
    returns (r: Option<seq<DnsRecord>>, requests: nat)
    ensures r.Some? ==> r.value == Filter(all, family) && requests == |all| / 50 + 1
    ensures r.None? <==> failAt.Some? && 1 <= failAt.value <= |all| / 50 + 1
    ensures r.None? ==> requests == failAt.value
  {
    var result: seq<DnsRecord> := [];
    var currentPage: nat := 1;
    requests := 0;
    while true
      invariant currentPage >= 1 && requests == currentPage - 1
      invariant PER_PAGE * (currentPage - 1) <= |all|
      invariant result == Filter(all[..PER_PAGE * (currentPage - 1)], family)
      invariant failAt.Some? ==> failAt.value < 1 || failAt.value >= currentPage
      decreases |all| + PER_PAGE - PER_PAGE * (currentPage - 1)
    {
      requests := requests + 1;
      if failAt == Some(currentPage) {
        return None, requests;
      }
      var dnsResult := Page(all, currentPage);
      ghost var from := PER_PAGE * (currentPage - 1);
      assert all[..from + |dnsResult|] == all[..from] + dnsResult;
      if dnsResult == [] {
        assert all[..from] == all;
        break;
      }
      var picked := PickFamily(dnsResult, family);
      FilterAppend(all[..from], dnsResult, family);
      result := result + picked;
      if |dnsResult| < PER_PAGE {
        assert all[..from + |dnsResult|] == all;
        break;
      }
      currentPage := currentPage + 1;
    }
    r := Some(result);
  }
}
