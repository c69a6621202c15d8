/** What canonical text determines, and what it does not depend on (src/crypto.rs, section 3.2 of RFC 8785). */
module Canonical {
  import opened Wrappers
  import opened Json
  import opened JsonNumbers
  import opened JsonReader
  import Utf16

  // ---------- Sorting

  lemma {:induction false} InsertFacts(m: Keyed<Value>, s: seq<Keyed<Value>>)
    requires SortedByKey(s) && forall i :: 0 <= i < |s| ==> s[i].key != m.key
    ensures SortedByKey(InsertByKey(m, s))
    ensures forall x :: x in InsertByKey(m, s) <==> x == m || x in s
  {
    var r := InsertByKey(m, s);
    if s != [] && Utf16.Compare(s[0].key, m.key) == Utf16.Less {
      InsertFacts(m, s[1..]);
      assert s == [s[0]] + s[1..];
      assert forall i :: 1 <= i < |r| ==> r[i] in InsertByKey(m, s[1..]);
      assert forall x :: x in s[1..] ==> Utf16.Compare(s[0].key, x.key) == Utf16.Less;
    } else {
      forall i | 0 <= i < |s| ensures Utf16.Compare(m.key, s[i].key) == Utf16.Less {
        Utf16.CompareTotal(s[0].key, m.key, m.key);
        Utf16.CompareTotal(m.key, s[0].key, s[i].key);
      }
    }
  }

  lemma {:induction false} SortFacts(s: seq<Keyed<Value>>)
    requires DistinctKeys(s)
    ensures SortedByKey(SortByKey(s))
    ensures forall x :: x in SortByKey(s) <==> x in s
  {
    if s != [] {
      SortFacts(s[1..]);
      forall i | 0 <= i < |SortByKey(s[1..])| ensures SortByKey(s[1..])[i].key != s[0].key {
        assert SortByKey(s[1..])[i] in s[1..];
      }
      InsertFacts(s[0], SortByKey(s[1..]));
      assert s == [s[0]] + s[1..];
    }
  }

  lemma FirstIsLeast(a: seq<Keyed<Value>>, x: Keyed<Value>)
    requires SortedByKey(a) && x in a
    ensures x == a[0] || Utf16.Compare(a[0].key, x.key) == Utf16.Less
  {
  }

  /** There is one sorted sequence of given members with distinct keys. */
  lemma {:induction false} SortedUnique(a: seq<Keyed<Value>>, b: seq<Keyed<Value>>)
    requires SortedByKey(a) && SortedByKey(b)
    requires forall x :: x in a <==> x in b
    ensures a == b
  {
    assert a != [] ==> a[0] in b;
    assert b != [] ==> b[0] in a;
    if a != [] && b != [] {
      FirstIsLeast(a, b[0]);
      FirstIsLeast(b, a[0]);
      Utf16.CompareTotal(a[0].key, b[0].key, a[0].key);
      assert a[0] == b[0];
      forall x ensures x in a[1..] <==> x in b[1..] {
        Utf16.CompareTotal(a[0].key, a[0].key, a[0].key);
        assert x in a[1..] ==> x in a && x != a[0];
        assert x in b[1..] ==> x in b && x != b[0];
      }
      SortedUnique(a[1..], b[1..]);
      assert a == [a[0]] + a[1..] && b == [b[0]] + b[1..];
    }
  }

  // ---------- Equality of trees

  ghost predicate SameNumber(a: Number, b: Number, exact: bool) {
    if exact then a == b else NumberMeaning(a) == NumberMeaning(b)
  }

  /** Equal up to the order of object members; numbers are identical, or (not exact) denote the same number. */
  ghost predicate Equivalent(v: Value, w: Value, exact: bool)
    decreases v
  {
    match (v, w)
    case (Num(a), Num(b)) => SameNumber(a, b, exact)
    case (Arr(s), Arr(t)) => |s| == |t| && forall i :: 0 <= i < |s| ==> Equivalent(s[i], t[i], exact)
    case (Obj(s), Obj(t)) => SameMembers(s, t, exact)
    case _ => v == w
  }

  ghost function Keys<T>(s: seq<Keyed<T>>): set<string> { set i | 0 <= i < |s| :: s[i].key }

  /** The same member names, and members of the same name are equivalent. */
  ghost predicate SameMembers(s: seq<Keyed<Value>>, t: seq<Keyed<Value>>, exact: bool)
    decreases s
  {
    Keys(s) == Keys(t) &&
    forall i, j :: 0 <= i < |s| && 0 <= j < |t| && s[i].key == t[j].key ==> Equivalent(s[i].value, t[j].value, exact)
  }

  // ---------- Results

  lemma {:induction false} NormalIsPrintable(v: Value)
    requires Valid(v)
    ensures Printable(Normal(v))
  {
    match v
    case Num(n) => NumberTextIsExact(n);
    case Arr(items) =>
      forall i | 0 <= i < |items| { NormalIsPrintable(items[i]); }
    case Obj(ms) =>
      forall i | 0 <= i < |ms| { NormalIsPrintable(ms[i].value); }
      var ns := NormalMembers(ms);
      SortFacts(ns);
      forall i | 0 <= i < |SortByKey(ns)| ensures Printable(SortByKey(ns)[i].value) {
        assert SortByKey(ns)[i] in ns;
      }
    case _ =>
  }

  /** Reading canonical text gives back the normalized tree, and nothing is left over. */
  lemma CanonicalRoundTrip(v: Value)
    requires Valid(v)
    ensures ReadValue(CanonicalValue(v)) == Some(Read(Normal(v), ""))
  {
    CanonicalIsPrintOfNormal(v);
    NormalIsPrintable(v);
    ReadPrinted(Normal(v), "");
    assert Print(Normal(v)) + "" == Print(Normal(v));
  }

  lemma SameNormalMember(s: seq<Keyed<Value>>, t: seq<Keyed<Value>>, i: nat) returns (j: nat)
    requires DistinctKeys(s) && DistinctKeys(t) && i < |s|
    requires SortByKey(NormalMembers(s)) == SortByKey(NormalMembers(t))
    ensures j < |t| && t[j].key == s[i].key && Normal(t[j].value) == Normal(s[i].value)
  {
    hide Normal, SortByKey, SortedByKey;
    SortFacts(NormalMembers(s));
    SortFacts(NormalMembers(t));
    assert NormalMembers(s)[i] in NormalMembers(t);
    j :| 0 <= j < |t| && NormalMembers(t)[j] == NormalMembers(s)[i];
  }

  lemma {:induction false} NormalDeterminesMembers(s: seq<Keyed<Value>>, t: seq<Keyed<Value>>)
    requires Valid(Obj(s)) && Valid(Obj(t)) && SortByKey(NormalMembers(s)) == SortByKey(NormalMembers(t))
    ensures SameMembers(s, t, false)
    decreases s
  {
    hide Normal, SortByKey, NormalMembers, Equivalent;
    forall i | 0 <= i < |s| ensures s[i].key in Keys(t) { var j := SameNormalMember(s, t, i); }
    forall j | 0 <= j < |t| ensures t[j].key in Keys(s) { var i := SameNormalMember(t, s, j); }
    forall i, j | 0 <= i < |s| && 0 <= j < |t| && s[i].key == t[j].key
      ensures Equivalent(s[i].value, t[j].value, false)
    {
      var k := SameNormalMember(s, t, i);
      NormalDetermines(s[i].value, t[j].value);
    }
  }

  lemma {:induction false} NormalDetermines(v: Value, w: Value)
    requires Valid(v) && Valid(w) && Normal(v) == Normal(w)
    ensures Equivalent(v, w, false)
    decreases v
  {
    hide NumberText, SortByKey, NormalMembers, NumberMeaning;
    match (v, w)
    case (Num(a), Num(b)) =>
      NumberTextIsExact(a);
      NumberTextIsExact(b);
    case (Arr(s), Arr(t)) =>
      forall i | 0 <= i < |s| ensures |s| == |t| && Equivalent(s[i], t[i], false) {
        assert |NormalItems(s)| == |NormalItems(t)| && NormalItems(s)[i] == NormalItems(t)[i];
        NormalDetermines(s[i], t[i]);
      }
      assert |NormalItems(s)| == |NormalItems(t)|;
    case (Obj(s), Obj(t)) => NormalDeterminesMembers(s, t);
    case _ =>
  }

  /** The same canonical text means the same value, up to member order and the way numbers are written. */
  lemma CanonicalDeterminesValue(v: Value, w: Value)
    requires Valid(v) && Valid(w) && CanonicalValue(v) == CanonicalValue(w)
    ensures Equivalent(v, w, false)
  {
    CanonicalRoundTrip(v);
    CanonicalRoundTrip(w);
    NormalDetermines(v, w);
  }

  lemma {:induction false} NormalMembersIgnoreOrder(s: seq<Keyed<Value>>, t: seq<Keyed<Value>>)
    requires Valid(Obj(s)) && Valid(Obj(t)) && SameMembers(s, t, true)
    ensures SortByKey(NormalMembers(s)) == SortByKey(NormalMembers(t))
    decreases s
  {
    hide Normal, SortByKey, Equivalent;
    var a, b := NormalMembers(s), NormalMembers(t);
    forall i, j | 0 <= i < |s| && 0 <= j < |t| && s[i].key == t[j].key ensures a[i] == b[j] {
      NormalIgnoresOrder(s[i].value, t[j].value);
    }
    forall i | 0 <= i < |s| ensures a[i] in b {
      assert s[i].key in Keys(t);
      var j :| 0 <= j < |t| && t[j].key == s[i].key;
      assert b[j] == a[i];
    }
    forall j | 0 <= j < |t| ensures b[j] in a {
      assert t[j].key in Keys(s);
      var i :| 0 <= i < |s| && t[j].key == s[i].key;
      assert a[i] == b[j];
    }
    SortFacts(a);
    SortFacts(b);
    SortedUnique(SortByKey(a), SortByKey(b));
  }

  lemma {:induction false} NormalIgnoresOrder(v: Value, w: Value)
    requires Valid(v) && Valid(w) && Equivalent(v, w, true)
    ensures Normal(v) == Normal(w)
    decreases v
  {
    hide NumberText, SortByKey, NormalMembers;
    match (v, w)
    case (Arr(s), Arr(t)) =>
      forall i | 0 <= i < |s| ensures Normal(s[i]) == Normal(t[i]) { NormalIgnoresOrder(s[i], t[i]); }
      assert NormalItems(s) == NormalItems(t);
    case (Obj(s), Obj(t)) => NormalMembersIgnoreOrder(s, t);
    case _ =>
  }

  /** The order of object members, at any depth, does not change the canonical text. */
  lemma CanonicalIgnoresOrder(v: Value, w: Value)
    requires Valid(v) && Valid(w) && Equivalent(v, w, true)
    ensures CanonicalValue(v) == CanonicalValue(w)
  {
    NormalIgnoresOrder(v, w);
    CanonicalIsPrintOfNormal(v);
    CanonicalIsPrintOfNormal(w);
  }
}
