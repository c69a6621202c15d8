/** Comparison of strings by UTF-16 code units (src/crypto.rs). */
module Utf16 {

  datatype Ordering = Less | Equal | Greater

  /** The one or two code units of a Unicode scalar value. */
  function UnitsOf(c: char): seq<nat> {
    var n := c as int;
    if n < 0x1_0000 then [n]
    else [0xD800 + (n - 0x1_0000) / 0x400, 0xDC00 + (n - 0x1_0000) % 0x400]
  }

  /** A surrogate pair holds the upper and the lower ten bits of what exceeds the basic plane. */
  lemma UnitsMean(c: char)
    ensures c as int < 0x1_0000 ==> UnitsOf(c) == [c as int]
    ensures c as int >= 0x1_0000 ==>
      var u := UnitsOf(c);
      |u| == 2 && 0xD800 <= u[0] <= 0xDBFF && 0xDC00 <= u[1] <= 0xDFFF &&
      c as int == 0x1_0000 + (u[0] - 0xD800) * 0x400 + (u[1] - 0xDC00)
  {
  }

  function Encode(s: string): seq<nat> {
    if s == "" then [] else UnitsOf(s[0]) + Encode(s[1..])
  }

  /** `u` comes before `v` in lexicographic order: they agree up to a place where `u` ends or is smaller. */
  ghost predicate LexLess(u: seq<nat>, v: seq<nat>) {
    exists k: nat :: LessFrom(u, v, k)
  }

  ghost predicate LessFrom(u: seq<nat>, v: seq<nat>, k: nat) {
    k <= |u| && k < |v| && u[..k] == v[..k] && (k == |u| || u[k] < v[k])
  }

  function CompareUnits(u: seq<nat>, v: seq<nat>): Ordering {
    if u == [] then if v == [] then Equal else Less
    else if v == [] then Greater
    else if u[0] < v[0] then Less
    else if u[0] > v[0] then Greater
    else CompareUnits(u[1..], v[1..])
  }

  function Compare(a: string, b: string): Ordering {
    CompareUnits(Encode(a), Encode(b))
  }

  /** The comparison is the lexicographic order, both ways round. */
  lemma {:induction false} CompareIsLexicographic(u: seq<nat>, v: seq<nat>)
    ensures CompareUnits(u, v) == Less <==> LexLess(u, v)
    ensures CompareUnits(u, v) == Greater <==> LexLess(v, u)
    ensures CompareUnits(u, v) == Equal <==> u == v
  {
    LessShift(u, v);
    LessShift(v, u);
    if u != [] && v != [] && u[0] == v[0] {
      CompareIsLexicographic(u[1..], v[1..]);
      assert u == [u[0]] + u[1..] && v == [v[0]] + v[1..];
    }
  }

  lemma LessShift(u: seq<nat>, v: seq<nat>)
    ensures u == [] ==> (LexLess(u, v) <==> v != [])
    ensures v == [] ==> !LexLess(u, v)
    ensures u != [] && v != [] ==>
      (LexLess(u, v) <==> u[0] < v[0] || (u[0] == v[0] && LexLess(u[1..], v[1..])))
  {
    if u == [] && v != [] { assert LessFrom(u, v, 0); }
    if u != [] && v != [] {
      if u[0] < v[0] { assert LessFrom(u, v, 0); }
      if u[0] == v[0] && LexLess(u[1..], v[1..]) {
        var k: nat :| LessFrom(u[1..], v[1..], k);
        assert u[..k + 1] == [u[0]] + u[1..][..k] && v[..k + 1] == [v[0]] + v[1..][..k];
        assert LessFrom(u, v, k + 1);
      }
      if LexLess(u, v) {
        var k: nat :| LessFrom(u, v, k);
        if k > 0 {
          assert u[..k][0] == v[..k][0];
          assert u[1..][..k - 1] == u[..k][1..] && v[1..][..k - 1] == v[..k][1..];
          assert LessFrom(u[1..], v[1..], k - 1);
        }
      }
    }
  }

  lemma UnitsOfInjective(c: char, d: char, r: seq<nat>, s: seq<nat>)
    requires UnitsOf(c) + r == UnitsOf(d) + s
    ensures c == d && r == s
  {
    var u, v := UnitsOf(c) + r, UnitsOf(d) + s;
    assert u[0] == UnitsOf(c)[0] && v[0] == UnitsOf(d)[0];
    if |UnitsOf(c)| == 2 && |UnitsOf(d)| == 2 {
      assert u[1] == UnitsOf(c)[1] && v[1] == UnitsOf(d)[1];
    }
    assert |UnitsOf(c)| == |UnitsOf(d)|;
    assert r == u[|UnitsOf(c)|..] && s == v[|UnitsOf(d)|..];
  }

  /** Different strings have different code units, surrogate pairs included. */
  lemma {:induction false} EncodeInjective(a: string, b: string)
    requires Encode(a) == Encode(b)
    ensures a == b
  {
    if a != "" && b != "" {
      UnitsOfInjective(a[0], b[0], Encode(a[1..]), Encode(b[1..]));
      EncodeInjective(a[1..], b[1..]);
      assert a == [a[0]] + a[1..] && b == [b[0]] + b[1..];
    }
  }

  lemma LexTransitive(u: seq<nat>, v: seq<nat>, w: seq<nat>)
    requires LexLess(u, v) && LexLess(v, w)
    ensures LexLess(u, w)
  {
    var j: nat :| LessFrom(u, v, j);
    var k: nat :| LessFrom(v, w, k);
    var m := if j < k then j else k;
    assert u[..m] == u[..j][..m] && v[..m] == v[..j][..m] && v[..m] == v[..k][..m] && w[..m] == w[..k][..m];
    assert j < k ==> v[j] == v[..k][j] && w[j] == w[..k][j];
    assert k < j ==> u[k] == u[..j][k] && v[k] == v[..j][k];
    assert LessFrom(u, w, m);
  }

  /** Keys are totally ordered: equal only when identical, antisymmetric, transitive. */
  lemma CompareTotal(a: string, b: string, c: string)
    ensures Compare(a, b) == Equal <==> a == b
    ensures Compare(a, b) == Less <==> Compare(b, a) == Greater
    ensures Compare(a, b) == Less && Compare(b, c) == Less ==> Compare(a, c) == Less
    ensures Compare(a, b) == Less <==> LexLess(Encode(a), Encode(b))
  {
    CompareIsLexicographic(Encode(a), Encode(b));
    CompareIsLexicographic(Encode(b), Encode(a));
    CompareIsLexicographic(Encode(b), Encode(c));
    CompareIsLexicographic(Encode(a), Encode(c));
    if Encode(a) == Encode(b) { EncodeInjective(a, b); }
    if LexLess(Encode(a), Encode(b)) && LexLess(Encode(b), Encode(c)) {
      LexTransitive(Encode(a), Encode(b), Encode(c));
    }
  }

  /** Steps through the code units of both strings side by side, up to the first that differ or the end of one. */
  method CompareUtf16(a: string, b: string) returns (r: Ordering)
    ensures r == Less <==> LexLess(Encode(a), Encode(b))
    ensures r == Greater <==> LexLess(Encode(b), Encode(a))
    ensures r == Equal <==> a == b
    ensures r == Compare(a, b)
  {
    hide Encode, LexLess;
    var aUnits, bUnits := Encode(a), Encode(b);
    CompareTotal(a, b, b);
    CompareTotal(b, a, a);
    var i := 0;
    while i < |aUnits| && i < |bUnits|
      invariant i <= |aUnits| && i <= |bUnits|
      invariant CompareUnits(aUnits, bUnits) == CompareUnits(aUnits[i..], bUnits[i..])
    {
      if aUnits[i] != bUnits[i] {
        return if aUnits[i] < bUnits[i] then Less else Greater;
      }
      i := i + 1;
    }
    r := if i < |bUnits| then Less else if i < |aUnits| then Greater else Equal;
  }
}
