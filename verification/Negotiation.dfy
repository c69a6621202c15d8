/**
 Capability negotiation (src/negotiation.rs): the business capabilities the platform also names, without
 extensions whose parent is missing. It is the largest sub-list in which every parent is present.
 */
module Negotiation {
  import opened Wrappers
  import opened Models

  datatype Capability = Capability(name: string, version: string, parent: Option<string>)

  function Names(s: seq<Capability>): set<string> { set i | 0 <= i < |s| :: s[i].name }

  function Filter(s: seq<Capability>, p: Capability -> bool): (r: seq<Capability>)
    ensures |r| <= |s|
  {
    if s == [] then [] else (if p(s[0]) then [s[0]] else []) + Filter(s[1..], p)
  }

  predicate Supported(c: Capability, names: set<string>) { c.parent.Some? ==> c.parent.value in names }

  /** Every parent a capability of the list extends is in the list. */
  ghost predicate ParentsPresent(s: seq<Capability>) {
    forall i :: 0 <= i < |s| && s[i].parent.Some? ==> s[i].parent.value in Names(s)
  }

  function Retain(s: seq<Capability>, names: set<string>): (r: seq<Capability>)
    ensures |r| <= |s|
  {
    Filter(s, c => Supported(c, names))
  }

  function Matched(business: seq<Capability>, names: set<string>): (r: seq<Capability>)
    ensures |r| <= |business|
  {
    Filter(business, (c: Capability) => c.name in names)
  }

  /** Drops unsupported extensions until none is left. */
  function Prune(s: seq<Capability>): seq<Capability>
    decreases |s|
  {
    var t := Retain(s, Names(s));
    if |t| == |s| then t else Prune(t)
  }

  function Intersect(business: seq<Capability>, platform: seq<Capability>): seq<Capability> {
    Prune(Matched(business, Names(platform)))
  }

  method IntersectCapabilities(business: seq<Capability>, platform: seq<Capability>) returns (result: seq<Capability>)
    ensures result == Intersect(business, platform)
  {
    result := Matched(business, Names(platform));
    var shrunk := true;
    while shrunk
      invariant Intersect(business, platform) == if shrunk then Prune(result) else result
      decreases shrunk, |result|
    {
      var before := |result|;
      result := Retain(result, Names(result));
      shrunk := |result| != before;
    }
  }

  function CapabilitiesToRefs(s: seq<Capability>): (r: seq<CapabilityRef>)
    ensures |r| == |s| && forall i :: 0 <= i < |s| ==> r[i].name == s[i].name && r[i].version == s[i].version
  {
    seq(|s|, i requires 0 <= i < |s| => CapabilityRef(s[i].name, s[i].version))
  }

  // ---------- Sub-lists

  /** `t` is `s` with some elements left out. */
  ghost predicate IsSublist(t: seq<Capability>, s: seq<Capability>) {
    t == [] || (s != [] && ((t[0] == s[0] && IsSublist(t[1..], s[1..])) || IsSublist(t, s[1..])))
  }

  lemma {:induction false} SublistFacts(t: seq<Capability>, s: seq<Capability>)
    requires IsSublist(t, s)
    ensures |t| <= |s| && (|t| == |s| ==> t == s)
    ensures forall c :: c in t ==> c in s
  {
    if t != [] {
      if t[0] == s[0] && IsSublist(t[1..], s[1..]) {
        SublistFacts(t[1..], s[1..]);
        assert t == [t[0]] + t[1..] && s == [s[0]] + s[1..];
      } else {
        SublistFacts(t, s[1..]);
      }
    }
  }

  lemma {:induction false} SublistReflexive(s: seq<Capability>)
    ensures IsSublist(s, s)
  {
    if s != [] { SublistReflexive(s[1..]); }
  }

  lemma {:induction false} SublistTransitive(t: seq<Capability>, s: seq<Capability>, r: seq<Capability>)
    requires IsSublist(t, s) && IsSublist(s, r)
    ensures IsSublist(t, r)
    decreases |s| + |r|
  {
    if t != [] {
      if s[0] == r[0] && IsSublist(s[1..], r[1..]) {
        if t[0] == s[0] && IsSublist(t[1..], s[1..]) {
          SublistTransitive(t[1..], s[1..], r[1..]);
        } else {
          SublistTransitive(t, s[1..], r[1..]);
        }
      } else {
        SublistTransitive(t, s, r[1..]);
      }
    }
  }

  lemma {:induction false} FilterFacts(s: seq<Capability>, p: Capability -> bool)
    ensures IsSublist(Filter(s, p), s)
    ensures forall c :: c in Filter(s, p) <==> c in s && p(c)
  {
    if s != [] {
      FilterFacts(s[1..], p);
      assert s == [s[0]] + s[1..];
      assert Filter(s, p)[|Filter(s, p)| - |Filter(s[1..], p)|..] == Filter(s[1..], p);
    }
  }

  lemma {:induction false} FilterKeeps(t: seq<Capability>, s: seq<Capability>, p: Capability -> bool)
    requires IsSublist(t, s) && forall c :: c in t ==> p(c)
    ensures IsSublist(t, Filter(s, p))
  {
    if t != [] {
      var f := Filter(s, p);
      if t[0] == s[0] && IsSublist(t[1..], s[1..]) {
        assert forall c :: c in t[1..] ==> c in t;
        FilterKeeps(t[1..], s[1..], p);
        assert f[1..] == Filter(s[1..], p);
      } else {
        FilterKeeps(t, s[1..], p);
        assert p(s[0]) ==> f[1..] == Filter(s[1..], p);
        assert !p(s[0]) ==> f == Filter(s[1..], p);
      }
    }
  }

  lemma NamesMonotone(t: seq<Capability>, s: seq<Capability>)
    requires forall c :: c in t ==> c in s
    ensures Names(t) <= Names(s)
  {
    forall n | n in Names(t) ensures n in Names(s) {
      var i :| 0 <= i < |t| && t[i].name == n;
      assert t[i] in s;
    }
  }

  // ---------- Greatest fixpoint

  lemma {:induction false} PruneFacts(s: seq<Capability>)
    ensures IsSublist(Prune(s), s) && ParentsPresent(Prune(s))
    decreases |s|
  {
    hide Filter, IsSublist;
    var names := Names(s);
    var t := Retain(s, names);
    FilterFacts(s, c => Supported(c, names));
    SublistFacts(t, s);
    if |t| == |s| {
      assert forall i :: 0 <= i < |s| ==> s[i] in t;
    } else {
      PruneFacts(t);
      SublistTransitive(Prune(t), t, s);
    }
  }

  lemma {:induction false} PruneKeeps(t: seq<Capability>, s: seq<Capability>)
    requires IsSublist(t, s) && ParentsPresent(t)
    ensures IsSublist(t, Prune(s))
    decreases |s|
  {
    hide Filter, IsSublist;
    var names := Names(s);
    SublistFacts(t, s);
    NamesMonotone(t, s);
    FilterKeeps(t, s, c => Supported(c, names));
    if |Retain(s, names)| != |s| { PruneKeeps(t, Retain(s, names)); }
  }

  ghost predicate AllNamed(s: seq<Capability>, names: set<string>) {
    forall i :: 0 <= i < |s| ==> s[i].name in names
  }

  /**
   What a negotiated list must be: a sub-list of the business capabilities, named by the platform, with all parents.
   */
  ghost predicate Admissible(t: seq<Capability>, business: seq<Capability>, platform: seq<Capability>) {
    IsSublist(t, business) && AllNamed(t, Names(platform)) && ParentsPresent(t)
  }

  /**
   The result is admissible, and every admissible list is a sub-list of it. So it keeps the order of the
   business, and extensions that support each other in a cycle stay.
   */
  lemma IntersectIsGreatest(business: seq<Capability>, platform: seq<Capability>)
    ensures Admissible(Intersect(business, platform), business, platform)
    ensures forall t :: Admissible(t, business, platform) ==> IsSublist(t, Intersect(business, platform))
  {
    hide Filter, Prune, IsSublist;
    var names := Names(platform);
    var m := Matched(business, names);
    FilterFacts(business, (c: Capability) => c.name in names);
    PruneFacts(m);
    SublistTransitive(Prune(m), m, business);
    SublistFacts(Prune(m), m);
    assert forall i :: 0 <= i < |Prune(m)| ==> Prune(m)[i] in m;
    forall t | Admissible(t, business, platform) ensures IsSublist(t, Prune(m)) {
      assert forall c: Capability :: c in t ==> c.name in names;
      FilterKeeps(t, business, (c: Capability) => c.name in names);
      PruneKeeps(t, m);
    }
  }

  /** There is only one such list. */
  lemma GreatestIsUnique(business: seq<Capability>, platform: seq<Capability>, r: seq<Capability>)
    requires Admissible(r, business, platform)
    requires forall t :: Admissible(t, business, platform) ==> IsSublist(t, r)
    ensures r == Intersect(business, platform)
  {
    hide Filter, Prune, IsSublist, Admissible;
    IntersectIsGreatest(business, platform);
    SublistFacts(r, Intersect(business, platform));
    SublistFacts(Intersect(business, platform), r);
  }

  /** Only which names the platform lists matters, and more names never lose a capability. */
  lemma IntersectIsMonotone(business: seq<Capability>, p: seq<Capability>, q: seq<Capability>)
    requires Names(p) <= Names(q)
    ensures IsSublist(Intersect(business, p), Intersect(business, q))
    ensures Names(p) == Names(q) ==> Intersect(business, p) == Intersect(business, q)
  {
    hide Filter, Prune, IsSublist;
    IntersectIsGreatest(business, p);
    IntersectIsGreatest(business, q);
  }

  /** The order and repetition of platform entries do not matter. */
  lemma PlatformOrderIsIrrelevant(business: seq<Capability>, p: seq<Capability>, q: seq<Capability>)
    requires forall c :: c in p <==> c in q
    ensures Intersect(business, p) == Intersect(business, q)
  {
    NamesMonotone(p, q);
    NamesMonotone(q, p);
    IntersectIsMonotone(business, p, q);
  }

  /** Negotiating again with the result changes nothing. */
  lemma IntersectIsIdempotent(business: seq<Capability>, platform: seq<Capability>)
    ensures Intersect(Intersect(business, platform), platform) == Intersect(business, platform)
  {
    hide Filter, Prune, IsSublist, Intersect;
    var r := Intersect(business, platform);
    IntersectIsGreatest(business, platform);
    IntersectIsGreatest(r, platform);
    SublistReflexive(r);
    assert Admissible(r, r, platform);
    SublistFacts(r, Intersect(r, platform));
    SublistFacts(Intersect(r, platform), r);
  }
}
