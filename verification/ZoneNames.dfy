/** The zone name `Cloudflare::create` derives from the managed name. */
module ZoneNames {
  import opened Net

  /** `rsplit('.')`: the parts between the dots, the last one first. */
  function RSplit(s: string): (parts: seq<string>)
    ensures parts != []
  {
    if s == "" then [""]
    else
      var parts := RSplit(s[1..]);
      var last := parts[|parts| - 1];
      if s[0] == '.' then parts + [""] else parts[..|parts| - 1] + [[s[0]] + last]
  }

  /** `join(".")`. */
  function Join(parts: seq<string>): string {
    if parts == [] then ""
    else if |parts| == 1 then parts[0]
    else parts[0] + "." + Join(parts[1..])
  }

  function Reverse(parts: seq<string>): seq<string> {
    if parts == [] then [] else Reverse(parts[1..]) + [parts[0]]
  }

  predicate EndsWithDot(s: string) {
    s != "" && s[|s| - 1] == '.'
  }

  /** The computation in `Cloudflare::create`. */
  function ZoneName(dns: string): string {
    var parts := RSplit(dns);
    if EndsWithDot(dns) then Join(Reverse(parts[1..][..Min(2, |parts| - 1)]))
    else Join(Reverse(parts[..Min(2, |parts|)]))
  }

  function Dots(s: string): nat {
    multiset(s)['.']
  }

  predicate IsSuffix(t: string, s: string) {
    |t| <= |s| && s[|s| - |t|..] == t
  }

  /** The longest suffix with at most one dot. */
  ghost predicate IsZone(t: string, s: string) {
    IsSuffix(t, s) && Dots(t) <= 1 && forall u :: IsSuffix(u, s) && Dots(u) <= 1 ==> |u| <= |t|
  }

  lemma {:induction false} ReverseAppend(parts: seq<string>, last: string)
    ensures Reverse(parts + [last]) == [last] + Reverse(parts)
  {
    if parts != [] {
      ReverseAppend(parts[1..], last);
      assert (parts + [last])[1..] == parts[1..] + [last];
    } else {
      assert parts + [last] == [last];
    }
  }

  lemma {:induction false} ReverseLength(parts: seq<string>)
    ensures |Reverse(parts)| == |parts|
  {
    if parts != [] {
      ReverseLength(parts[1..]);
    }
  }

  function Joined(parts: seq<string>): string {
    Join(Reverse(parts))
  }

  /** One more, empty part puts a dot in front. */
  lemma JoinedDot(parts: seq<string>)
    requires parts != []
    ensures Joined(parts + [""]) == "." + Joined(parts)
  {
    ReverseAppend(parts, "");
    ReverseLength(parts);
    assert ([""] + Reverse(parts))[1..] == Reverse(parts);
  }

  /** A longer last part puts its first character in front. */
  lemma JoinedChar(parts: seq<string>, last: string, c: char)
    ensures Joined(parts + [[c] + last]) == [c] + Joined(parts + [last])
  {
    ReverseAppend(parts, last);
    ReverseAppend(parts, [c] + last);
    JoinFront(c, last, Reverse(parts));
  }

  lemma JoinFront(c: char, head: string, rest: seq<string>)
    ensures Join([[c] + head] + rest) == [c] + Join([head] + rest)
  {
    assert ([[c] + head] + rest)[1..] == rest && ([head] + rest)[1..] == rest;
    if rest == [] {
      assert [[c] + head] + rest == [[c] + head];
      assert [head] + rest == [head];
    } else {
      assert [c] + head + "." + Join(rest) == [c] + (head + "." + Join(rest));
    }
  }

  /** The last `k` parts of a name, put together again. */
  function Ending(s: string, k: nat): string
    requires 1 <= k <= |RSplit(s)|
  {
    Joined(RSplit(s)[..k])
  }

  lemma DotsFront(c: char, s: string)
    ensures Dots([c] + s) == Dots(s) + if c == '.' then 1 else 0
  {
  }

  /** All the parts together are the name, with one dot less than parts. */
  lemma {:induction false} AllParts(s: string)
    ensures Joined(RSplit(s)) == s && Dots(s) == |RSplit(s)| - 1
  {
    if s == "" {
      assert RSplit(s) == [] + [""];
      ReverseAppend([], "");
    } else {
      var parts := RSplit(s[1..]);
      var m := |parts| - 1;
      AllParts(s[1..]);
      DotsFront(s[0], s[1..]);
      assert s == [s[0]] + s[1..];
      if s[0] == '.' {
        JoinedDot(parts);
      } else {
        assert parts == parts[..m] + [parts[m]];
        JoinedChar(parts[..m], parts[m], s[0]);
      }
    }
  }

  lemma EndingAll(s: string)
    ensures Ending(s, |RSplit(s)|) == s && Dots(s) == |RSplit(s)| - 1
  {
    AllParts(s);
    assert RSplit(s)[..|RSplit(s)|] == RSplit(s);
  }

  /** Fewer than all parts are what follows one of the dots. */
  lemma {:induction false} EndingSome(s: string, k: nat)
    requires 1 <= k < |RSplit(s)|
    ensures IsSuffix(Ending(s, k), s) && |Ending(s, k)| < |s| && s[|s| - |Ending(s, k)| - 1] == '.'
    ensures Dots(Ending(s, k)) == k - 1
  {
    var parts, parts' := RSplit(s), RSplit(s[1..]);
    if k < |parts'| {
      assert parts[..k] == parts'[..k];
      EndingSome(s[1..], k);
    } else {
      assert parts[..k] == parts' == parts'[..|parts'|];
      EndingAll(s[1..]);
    }
  }

  lemma DotsOfParts(u: string, i: nat)
    requires i <= |u|
    ensures Dots(u) == Dots(u[..i]) + Dots(u[i..])
  {
    assert u == u[..i] + u[i..];
  }

  /** A suffix longer than one that follows a dot contains that dot as well. */
  lemma OneMoreDot(s: string, t: string, u: string)
    requires IsSuffix(t, s) && IsSuffix(u, s) && |t| < |u| && s[|s| - |t| - 1] == '.'
    ensures Dots(u) >= Dots(t) + 1
  {
    var i := |u| - |t| - 1;
    assert u[i..] == s[|s| - |t| - 1..] == ['.'] + t;
    DotsFront('.', t);
    DotsOfParts(u, i);
  }

  /** The last two parts of any name are its longest suffix with at most one dot. */
  lemma LastTwoParts(s: string)
    ensures IsZone(Ending(s, Min(2, |RSplit(s)|)), s)
  {
    var k := Min(2, |RSplit(s)|);
    var t := Ending(s, k);
    EndingAll(s);
    if k < |RSplit(s)| {
      EndingSome(s, k);
      forall u | IsSuffix(u, s) && |u| > |t|
        ensures Dots(u) > 1
      {
        OneMoreDot(s, t, u);
      }
    }
  }

  /** There is only one longest such suffix. */
  lemma ZoneIsUnique(t: string, u: string, s: string)
    requires IsZone(t, s) && IsZone(u, s)
    ensures t == u
  {
    assert |t| == |u|;
  }

  /** What one more character in front does to the parts of a name. */
  function Prefixed(c: char, parts: seq<string>): seq<string>
    requires parts != []
  {
    if c == '.' then parts + [""] else parts[..|parts| - 1] + [[c] + parts[|parts| - 1]]
  }

  lemma {:induction false} RSplitDot(s: string)
    ensures RSplit(s + ".") == [""] + RSplit(s)
  {
    if s == "" {
      assert s + "." == ['.'] + "";
    } else {
      var c, rest := s[0], s[1..];
      RSplitDot(rest);
      assert s == [c] + rest && s + "." == [c] + (rest + ".");
    }
  }

  /** A trailing dot, the mark of an absolute name, is ignored: both forms have the same zone. */
  lemma ZoneOfAbsoluteName(s: string)
    ensures ZoneName(s + ".") == Ending(s, Min(2, |RSplit(s)|))
    ensures !EndsWithDot(s) ==> ZoneName(s + ".") == ZoneName(s)
  {
    RSplitDot(s);
    assert RSplit(s + ".")[1..] == RSplit(s);
  }

  /** The zone name of any name is the longest suffix with at most one dot, one trailing dot not counted. */
  lemma ZoneNameIff(s: string, t: string)
    ensures t == ZoneName(s) <==> IsZone(t, if EndsWithDot(s) then s[..|s| - 1] else s)
  {
    var name := if EndsWithDot(s) then s[..|s| - 1] else s;
    LastTwoParts(name);
    if EndsWithDot(s) {
      assert s == name + ".";
      ZoneOfAbsoluteName(name);
    }
    assert IsZone(ZoneName(s), name);
    if IsZone(t, name) {
      ZoneIsUnique(t, ZoneName(s), name);
    }
  }

  /** Taking the zone of a zone changes nothing, for names without a trailing dot. */
  lemma ZoneNameIdempotent(s: string)
    requires !EndsWithDot(s)
    ensures ZoneName(ZoneName(s)) == ZoneName(s) && !EndsWithDot(ZoneName(s))
  {
    var z := ZoneName(s);
    ZoneNameIff(s, z);
    assert z != "" ==> z[|z| - 1] == s[|s| - |z|..][|z| - 1] == s[|s| - 1];
    assert IsZone(z, z);
    ZoneNameIff(z, z);
  }
}
