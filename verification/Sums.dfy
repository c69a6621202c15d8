/** Sums over sequences of integers. */
module Sums {

  /** Sum of the first `n` elements. */
  function SumTo(s: seq<int>, n: nat): int
    requires n <= |s|
  {
    if n == 0 then 0 else SumTo(s, n - 1) + s[n - 1]
  }

  function Sum(s: seq<int>): int { SumTo(s, |s|) }

  lemma {:induction false} SumToPrefix(s: seq<int>, t: seq<int>, n: nat)
    requires n <= |s| && n <= |t| && forall i :: 0 <= i < n ==> s[i] == t[i]
    ensures SumTo(s, n) == SumTo(t, n)
  {
    if n > 0 { SumToPrefix(s, t, n - 1); }
  }

  lemma {:induction false} SumMonotone(s: seq<int>, t: seq<int>, n: nat)
    requires n <= |s| && n <= |t| && forall i :: 0 <= i < n ==> s[i] <= t[i]
    ensures SumTo(s, n) <= SumTo(t, n)
    ensures SumTo(s, n) == SumTo(t, n) <==> forall i :: 0 <= i < n ==> s[i] == t[i]
  {
    if n > 0 { SumMonotone(s, t, n - 1); }
  }

  /** Elementwise sum. */
  function Plus(s: seq<int>, t: seq<int>): (r: seq<int>)
    requires |s| == |t|
    ensures |r| == |s|
  {
    seq(|s|, i requires 0 <= i < |s| => s[i] + t[i])
  }

  function Minus(s: seq<int>, t: seq<int>): (r: seq<int>)
    requires |s| == |t|
    ensures |r| == |s|
  {
    seq(|s|, i requires 0 <= i < |s| => s[i] - t[i])
  }

  function Zero(n: nat): (r: seq<int>)
    ensures |r| == n
  { 
    seq(n, i => 0)
  }

  lemma {:induction false} SumPlus(s: seq<int>, t: seq<int>, n: nat)
    requires |s| == |t| && n <= |s|
    ensures SumTo(Plus(s, t), n) == SumTo(s, n) + SumTo(t, n)
    ensures SumTo(Minus(s, t), n) == SumTo(s, n) - SumTo(t, n)
    ensures SumTo(Zero(n), n) == 0
  {
    if n > 0 {
      SumPlus(s, t, n - 1);
      SumToPrefix(Zero(n - 1), Zero(n), n - 1);
    }
  }

  /** Non-negative elements: prefix sums grow, and no element exceeds the sum. */
  lemma {:induction false} SumBounds(s: seq<int>, i: nat, n: nat)
    requires i <= n <= |s| && forall k :: 0 <= k < |s| ==> 0 <= s[k]
    ensures 0 <= SumTo(s, i) <= SumTo(s, n)
    ensures i < n ==> s[i] <= SumTo(s, n)
    decreases n
  {
    if n > 0 {
      if i < n { SumBounds(s, i, n - 1); } else { SumBounds(s, n - 1, n - 1); }
    }
  }
}
