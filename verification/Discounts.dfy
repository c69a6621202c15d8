/**
 The built-in discount codes (src/service.rs): SAVE10 takes a tenth off every line, SAVE5 splits up to
 $5 over the lines in proportion, SHIPFREE takes the fulfillment cost off the order.
 */
module Discounts {
  import opened Text
  import opened Sums
  import opened Integers
  import opened Models

  const SAVE10 := "SAVE10"
  const SAVE5 := "SAVE5"
  const SHIPFREE := "SHIPFREE"

  // ---------- A tenth off

  function Tenth(subtotal: int): int { Max(TruncDiv(subtotal * 10, 100), 0) }

  function Tenths(subtotals: seq<int>): (r: seq<int>)
    ensures |r| == |subtotals|
  {
    seq(|subtotals|, i requires 0 <= i < |subtotals| => Tenth(subtotals[i]))
  }

  // ---------- The $5 split

  function Available(subtotals: seq<int>, taken: seq<int>): (r: seq<int>)
    requires |taken| == |subtotals|
    ensures |r| == |subtotals|
  {
    seq(|subtotals|, i requires 0 <= i < |subtotals| => Max(subtotals[i] - taken[i], 0))
  }

  function SplitTotal(available: seq<int>): int { Min(500, Sum(available)) }

  /** The proportional share of line `i`, rounded down. */
  function Share(available: seq<int>, i: nat): int
    requires i < |available|
  {
    if available[i] == 0 || Sum(available) <= 0 then 0
    else TruncDiv(SplitTotal(available) * available[i], Sum(available))
  }

  function Shares(available: seq<int>): (r: seq<int>)
    ensures |r| == |available|
  {
    seq(|available|, i requires 0 <= i < |available| => Share(available, i))
  }

  /** What the floored shares leave over. */
  function Leftover(available: seq<int>): int {
    if Sum(available) <= 0 then 0 else SplitTotal(available) - Sum(Shares(available))
  }

  /** What is still available on line `i` after its share. */
  function Rooms(available: seq<int>): (r: seq<int>)
    ensures |r| == |available|
  {
    Minus(available, Shares(available))
  }

  /** Of what is left over, as much as fits into line `i` after the lines before it took what fits into them. */
  function Extra(available: seq<int>, i: nat): int
    requires i < |available|
  {
    Max(0, Min(Rooms(available)[i], Leftover(available) - SumTo(Rooms(available), i)))
  }

  /** The whole allocation. */
  function Split(available: seq<int>): (r: seq<int>)
    ensures |r| == |available|
  {
    seq(|available|, i requires 0 <= i < |available| => Share(available, i) + Extra(available, i))
  }

  predicate NonNegative(s: seq<int>) { forall i :: 0 <= i < |s| ==> 0 <= s[i] }

  lemma ProductOrder(a: int, b: int, t: int)
    requires t > 0
    ensures a * t <= b * t ==> a <= b
    ensures a * t < b * t ==> a < b
    ensures a <= b ==> a * t <= b * t
  {
    assert (b - a) * t == b * t - a * t;
    if a <= b { assert 0 <= (b - a) * t; }
    if a > b { assert 0 < (a - b) * t; }
  }

  lemma QuotientBounds(a: int, b: int)
    requires 0 <= a && 0 < b
    ensures 0 <= TruncDiv(a, b) && TruncDiv(a, b) * b <= a && a < (TruncDiv(a, b) + 1) * b
  {
    var q := a / b;
    var r := a % b;
    assert q * b == a - r && 0 <= r < b;
    assert (q + 1) * b == q * b + b;
    ProductOrder(q, -1, b);
  }

  lemma ShareBounds(available: seq<int>, i: nat)
    requires NonNegative(available) && i < |available|
    ensures 0 <= Share(available, i) <= available[i]
    ensures Sum(available) > 0 ==>
      Share(available, i) * Sum(available) <= SplitTotal(available) * available[i] &&
      (available[i] > 0 ==> SplitTotal(available) * available[i] < (Share(available, i) + 1) * Sum(available))
  {
    hide TruncDiv, SumTo;
    var t, d, a := Sum(available), SplitTotal(available), available[i];
    SumBounds(available, i, |available|);
    if a > 0 {
      ProductOrder(d, t, a);
      ProductOrder(0, d, a);
      QuotientBounds(d * a, t);
      ProductOrder(Share(available, i), a, t);
    }
  }

  /** Number of lines with something available among the first `n`. */
  function Positives(available: seq<int>, n: nat): nat
    requires n <= |available|
  {
    if n == 0 then 0 else Positives(available, n - 1) + if available[n - 1] > 0 then 1 else 0
  }

  lemma {:induction false} SharesSum(available: seq<int>, n: nat)
    requires NonNegative(available) && n <= |available| && Sum(available) > 0
    ensures var s, a, p := SumTo(Shares(available), n), SumTo(available, n), Positives(available, n);
      s * Sum(available) <= SplitTotal(available) * a <= (s + p) * Sum(available) &&
      (p > 0 ==> SplitTotal(available) * a < (s + p) * Sum(available))
  {
    hide Share, SplitTotal, Sum;
    if n > 0 {
      SharesSum(available, n - 1);
      ShareBounds(available, n - 1);
      SharesStep(SumTo(Shares(available), n - 1), SumTo(available, n - 1), Positives(available, n - 1),
        Share(available, n - 1), available[n - 1], Sum(available), SplitTotal(available));
    }
  }

  lemma SharesStep(s: int, a: int, p: int, share: int, x: int, t: int, d: int)
    requires 0 <= x && 0 <= p && s * t <= d * a <= (s + p) * t && (p > 0 ==> d * a < (s + p) * t)
    requires share * t <= d * x && (x > 0 ==> d * x < (share + 1) * t) && (x == 0 ==> share == 0)
    ensures var p' := p + if x > 0 then 1 else 0;
      (s + share) * t <= d * (a + x) <= (s + share + p') * t && (p' > 0 ==> d * (a + x) < (s + share + p') * t)
  {
    assert (s + share) * t == s * t + share * t;
    assert d * (a + x) == d * a + d * x;
    assert (s + share + p) * t == (s + p) * t + share * t;
    assert (s + share + (p + 1)) * t == (s + p) * t + (share + 1) * t;
  }

  lemma {:induction false} NoPositives(available: seq<int>, n: nat)
    requires NonNegative(available) && n <= |available| && Positives(available, n) == 0
    ensures SumTo(available, n) == 0
  {
    if n > 0 { NoPositives(available, n - 1); }
  }

  /** The remainder pass starts with less than one cent for each line that has something available. */
  lemma LeftoverBounds(available: seq<int>)
    requires NonNegative(available) && Sum(available) > 0
    ensures 0 <= Leftover(available) < Positives(available, |available|)
  {
    hide SumTo, Shares, Positives;
    SumBounds(available, 0, |available|);
    var n, t := |available|, Sum(available);
    SharesSum(available, n);
    if Positives(available, n) == 0 { NoPositives(available, n); }
    var s, d, p := Sum(Shares(available)), SplitTotal(available), Positives(available, n);
    ProductOrder(s, d, t);
    ProductOrder(d, s + p, t);
  }

  lemma RoomIsThere(available: seq<int>, i: nat)
    requires NonNegative(available) && i < |available|
    ensures 0 <= Rooms(available)[i] == available[i] - Share(available, i)
  {
    hide Share;
    ShareBounds(available, i);
  }

  lemma {:induction false} SplitPrefix(available: seq<int>, n: nat)
    requires NonNegative(available) && n <= |available| && 0 <= Leftover(available)
    ensures 0 <= SumTo(Rooms(available), n)
    ensures SumTo(Split(available), n) ==
      SumTo(Shares(available), n) + Min(Leftover(available), SumTo(Rooms(available), n))
  {
    hide Share, Leftover, Rooms;
    if n > 0 {
      SplitPrefix(available, n - 1);
      RoomIsThere(available, n - 1);
    }
  }

  lemma SplitWithin(available: seq<int>, i: nat)
    requires NonNegative(available) && i < |available|
    ensures 0 <= Share(available, i) <= Split(available)[i] <= available[i]
  {
    hide Share, Leftover, SumTo, Rooms;
    ShareBounds(available, i);
    RoomIsThere(available, i);
  }

  lemma NothingAvailable(available: seq<int>)
    requires NonNegative(available) && Sum(available) == 0
    ensures Sum(Shares(available)) == 0
  {
    hide Share, SumTo;
    forall i | 0 <= i < |available| ensures 0 <= Share(available, i) <= available[i] { ShareBounds(available, i); }
    SumMonotone(Shares(available), available, |available|);
    SumBounds(Shares(available), 0, |available|);
    SumZero(Shares(available));
  }

  lemma SumZero(s: seq<int>)
    ensures SumTo(s, 0) == 0
  {
  }

  /**
   The split is exact: it allocates min(500, all that is available), no line gets more than it has
   available or less than its floored share, and the remainder pass spends all of the remainder.
   */
  lemma SplitIsExact(available: seq<int>)
    requires NonNegative(available)
    ensures Sum(Split(available)) == SplitTotal(available)
    ensures forall i :: 0 <= i < |available| ==>
      0 <= Share(available, i) <= Split(available)[i] <= available[i]
    ensures Sum(available) > 0 ==> 0 <= Leftover(available) < Positives(available, |available|)
  {
    hide Share, SumTo, Shares, Split, Positives, Minus;
    SumBounds(available, 0, |available|);
    SumZero(available);
    if Sum(available) > 0 { LeftoverBounds(available); } else { NothingAvailable(available); }
    SplitPrefix(available, |available|);
    SumPlus(available, Shares(available), |available|);
    forall i | 0 <= i < |available| ensures 0 <= Share(available, i) <= Split(available)[i] <= available[i] {
      SplitWithin(available, i);
    }
  }

  // ---------- Applying codes

  /** Discount per line, the discounts reported, and the discount on the order as a whole. */
  datatype Tally = Tally(perItem: seq<int>, applied: seq<AppliedDiscount>, orderDiscount: int)

  function LinePath(i: nat): string { "$.line_items[" + NatText(i) + "]" }

  /** One allocation for each of the first `n` lines that gets something. */
  function LineAllocations(amounts: seq<int>, n: nat): seq<Allocation>
    requires n <= |amounts|
  {
    if n == 0 then []
    else if amounts[n - 1] == 0 then LineAllocations(amounts, n - 1)
    else LineAllocations(amounts, n - 1) + [Allocation(LinePath(n - 1), amounts[n - 1])]
  }

  /** Takes `amounts` off the lines, and reports it if it comes to anything. */
  function TakeOff(t: Tally, amounts: seq<int>, code: string, title: string, priority: int): (r: Tally)
    requires |amounts| == |t.perItem|
  {
    t.(perItem := Plus(t.perItem, amounts),
       applied := t.applied + if Sum(amounts) > 0
         then [AppliedDiscount(code, title, Sum(amounts), priority, LineAllocations(amounts, |amounts|))] else [])
  }

  function ApplyCode(subtotals: seq<int>, cost: int, t: Tally, code: string): (r: Tally)
    requires |t.perItem| == |subtotals|
    ensures |r.perItem| == |subtotals|
  {
    if code == SAVE10 then TakeOff(t, Tenths(subtotals), code, "Save 10%", 1)
    else if code == SAVE5 then TakeOff(t, Split(Available(subtotals, t.perItem)), code, "Save $5", 2)
    else if code == SHIPFREE && cost > 0 then
      t.(orderDiscount := t.orderDiscount + cost,
         applied := t.applied +
           [AppliedDiscount(code, "Free shipping", cost, 3, [Allocation("$.totals.fulfillment", cost)])])
    else t
  }

  /** Applies each code the first time it occurs. */
  function ApplyCodes(subtotals: seq<int>, cost: int, t: Tally, codes: seq<string>, seen: set<string>): (r: Tally)
    requires |t.perItem| == |subtotals|
    ensures |r.perItem| == |subtotals|
    decreases codes
  {
    if codes == [] then t
    else if codes[0] in seen then ApplyCodes(subtotals, cost, t, codes[1..], seen)
    else ApplyCodes(subtotals, cost, ApplyCode(subtotals, cost, t, codes[0]), codes[1..], seen + {codes[0]})
  }

  function FinalTally(subtotals: seq<int>, cost: int, codes: seq<string>): (r: Tally)
    ensures |r.perItem| == |subtotals|
  {
    ApplyCodes(subtotals, cost, Tally(Zero(|subtotals|), [], 0), codes, {})
  }

  // ---------- Conservation

  function AmountSum(applied: seq<AppliedDiscount>): int {
    if applied == [] then 0 else AmountSum(applied[..|applied| - 1]) + applied[|applied| - 1].amount
  }

  function AllocationSum(a: seq<Allocation>): int {
    if a == [] then 0 else AllocationSum(a[..|a| - 1]) + a[|a| - 1].amount
  }

  /**
   Every cent reported is taken off a line or off the order, and every reported amount is the sum of its allocations.
   */
  ghost predicate Conserved(t: Tally) {
    NonNegative(t.perItem) && 0 <= t.orderDiscount &&
    AmountSum(t.applied) == Sum(t.perItem) + t.orderDiscount &&
    forall k :: 0 <= k < |t.applied| ==>
      t.applied[k].amount > 0 && AllocationSum(t.applied[k].allocations) == t.applied[k].amount
  }

  lemma {:induction false} LineAllocationsSum(amounts: seq<int>, n: nat)
    requires n <= |amounts|
    ensures AllocationSum(LineAllocations(amounts, n)) == SumTo(amounts, n)
  {
    hide LinePath;
    if n > 0 {
      LineAllocationsSum(amounts, n - 1);
      var a := LineAllocations(amounts, n);
      if amounts[n - 1] != 0 { assert a[..|a| - 1] == LineAllocations(amounts, n - 1); }
    }
  }

  lemma AmountAppended(applied: seq<AppliedDiscount>, d: AppliedDiscount)
    ensures AmountSum(applied + [d]) == AmountSum(applied) + d.amount
  {
    var a := applied + [d];
    assert a[..|a| - 1] == applied;
  }

  /** A tally stays conserved when what is taken off the lines is reported, or comes to nothing. */
  lemma ReportConserves(t: Tally, r: Tally, d: AppliedDiscount)
    requires Conserved(t) && NonNegative(r.perItem) && r.orderDiscount == t.orderDiscount
    requires Sum(r.perItem) == Sum(t.perItem) + d.amount
    requires r.applied == if d.amount > 0 then t.applied + [d] else t.applied
    requires 0 <= d.amount && AllocationSum(d.allocations) == d.amount
    ensures Conserved(r)
  {
    hide Sum, AmountSum, AllocationSum, NonNegative;
    AmountAppended(t.applied, d);
  }

  lemma TakeOffConserves(t: Tally, amounts: seq<int>, code: string, title: string, priority: int)
    requires Conserved(t) && |amounts| == |t.perItem| && NonNegative(amounts)
    ensures Conserved(TakeOff(t, amounts, code, title, priority))
  {
    hide SumTo, LineAllocations, AllocationSum, AmountSum;
    SumPlus(t.perItem, amounts, |amounts|);
    SumBounds(amounts, 0, |amounts|);
    SumZero(amounts);
    LineAllocationsSum(amounts, |amounts|);
    var d := AppliedDiscount(code, title, Sum(amounts), priority, LineAllocations(amounts, |amounts|));
    assert t.applied + [] == t.applied;
    ReportConserves(t, TakeOff(t, amounts, code, title, priority), d);
  }

  lemma FreeShippingConserves(t: Tally, cost: int, code: string)
    requires Conserved(t) && cost > 0 && code == SHIPFREE
    ensures Conserved(ApplyCode(t.perItem, cost, t, code))
  {
    hide Sum;
    var a := ApplyCode(t.perItem, cost, t, code).applied;
    assert a[..|a| - 1] == t.applied;
    var last := a[|a| - 1].allocations;
    assert last[..0] == [] && AllocationSum(last) == AllocationSum([]) + cost;
  }

  lemma TenthsNonNegative(subtotals: seq<int>)
    ensures NonNegative(Tenths(subtotals))
  {
  }

  lemma {:induction false} CodesConserve(subtotals: seq<int>, cost: int, t: Tally, codes: seq<string>,
      seen: set<string>)
    requires |t.perItem| == |subtotals| && Conserved(t)
    ensures Conserved(ApplyCodes(subtotals, cost, t, codes, seen))
    decreases codes
  {
    hide Conserved, Split, Tenths, TakeOff;
    if codes != [] {
      if codes[0] in seen {
        CodesConserve(subtotals, cost, t, codes[1..], seen);
      } else {
        var code := codes[0];
        var r := ApplyCode(subtotals, cost, t, code);
        TenthsNonNegative(subtotals);
        SplitIsExact(Available(subtotals, t.perItem));
        if code == SAVE10 {
          TakeOffConserves(t, Tenths(subtotals), code, "Save 10%", 1);
        } else if code == SAVE5 {
          TakeOffConserves(t, Split(Available(subtotals, t.perItem)), code, "Save $5", 2);
        } else if code == SHIPFREE && cost > 0 {
          FreeShippingConserves(t, cost, code);
        }
        CodesConserve(subtotals, cost, r, codes[1..], seen + {code});
      }
    }
  }

  /** Discounts are conserved for every list of codes. */
  lemma DiscountsAreConserved(subtotals: seq<int>, cost: int, codes: seq<string>)
    ensures Conserved(FinalTally(subtotals, cost, codes))
  {
    hide ApplyCodes;
    var n := |subtotals|;
    SumPlus(Zero(n), Zero(n), n);
    CodesConserve(subtotals, cost, Tally(Zero(n), [], 0), codes, {});
  }

  // ---------- Closed form

  /** Which of the two line discounts a list of codes brings, and which comes first. */
  datatype CodeOrder = Neither | OnlyTen | OnlyFive | TenThenFive | FiveThenTen

  function Advance(o: CodeOrder, code: string): CodeOrder {
    match o
    case Neither => if code == SAVE10 then OnlyTen else if code == SAVE5 then OnlyFive else o
    case OnlyTen => if code == SAVE5 then TenThenFive else o
    case OnlyFive => if code == SAVE10 then FiveThenTen else o
    case _ => o
  }

  function OrderFrom(codes: seq<string>, o: CodeOrder): CodeOrder {
    if codes == [] then o else OrderFrom(codes[1..], Advance(o, codes[0]))
  }

  function OrderOf(codes: seq<string>): CodeOrder { OrderFrom(codes, Neither) }

  function PerItem(subtotals: seq<int>, o: CodeOrder): (r: seq<int>)
    ensures |r| == |subtotals|
  {
    var zero, tenths := Zero(|subtotals|), Tenths(subtotals);
    var fives := Split(Available(subtotals, zero));
    match o
    case Neither => zero
    case OnlyTen => tenths
    case OnlyFive => fives
    case TenThenFive => Plus(tenths, Split(Available(subtotals, tenths)))
    case FiveThenTen => Plus(fives, tenths)
  }

  predicate HasTen(o: CodeOrder) { o.OnlyTen? || o.TenThenFive? || o.FiveThenTen? }

  predicate HasFive(o: CodeOrder) { o.OnlyFive? || o.TenThenFive? || o.FiveThenTen? }

  ghost predicate Tracks(subtotals: seq<int>, cost: int, t: Tally, seen: set<string>, o: CodeOrder) {
    t.perItem == PerItem(subtotals, o) && (SAVE10 in seen <==> HasTen(o)) && (SAVE5 in seen <==> HasFive(o)) &&
    t.orderDiscount == if SHIPFREE in seen then Max(cost, 0) else 0
  }

  lemma PlusZero(s: seq<int>)
    ensures Plus(Zero(|s|), s) == s
  {
  }

  lemma TracksStep(subtotals: seq<int>, cost: int, t: Tally, seen: set<string>, o: CodeOrder, code: string)
    requires Tracks(subtotals, cost, t, seen, o) && code !in seen
    ensures Tracks(subtotals, cost, ApplyCode(subtotals, cost, t, code), seen + {code}, Advance(o, code))
  {
    hide Split, Tenths, Plus, Zero, LineAllocations, Available;
    PlusZero(Tenths(subtotals));
    PlusZero(Split(Available(subtotals, Zero(|subtotals|))));
  }

  lemma {:induction false} CodesTrack(
    subtotals: seq<int>, cost: int, t: Tally, codes: seq<string>, seen: set<string>, o: CodeOrder)
    requires Tracks(subtotals, cost, t, seen, o)
    ensures var r := ApplyCodes(subtotals, cost, t, codes, seen);
      r.perItem == PerItem(subtotals, OrderFrom(codes, o)) &&
      r.orderDiscount == if SHIPFREE in codes || SHIPFREE in seen then Max(cost, 0) else 0
    decreases codes
  {
    hide PerItem, ApplyCode;
    if codes != [] {
      if codes[0] in seen {
        assert Advance(o, codes[0]) == o;
        CodesTrack(subtotals, cost, t, codes[1..], seen, o);
      } else {
        TracksStep(subtotals, cost, t, seen, o, codes[0]);
        CodesTrack(subtotals, cost, ApplyCode(subtotals, cost, t, codes[0]), codes[1..], seen + {codes[0]},
          Advance(o, codes[0]));
      }
    }
  }

  /**
   The discount of every line, in closed form. It depends on the codes only through which of SAVE10 and
   SAVE5 occur and which occurs first; the order discount only on whether SHIPFREE occurs. So repeated and
   unknown codes change no amount.
   */
  lemma ClosedForm(subtotals: seq<int>, cost: int, codes: seq<string>)
    ensures FinalTally(subtotals, cost, codes).perItem == PerItem(subtotals, OrderOf(codes))
    ensures FinalTally(subtotals, cost, codes).orderDiscount == if SHIPFREE in codes then Max(cost, 0) else 0
  {
    CodesTrack(subtotals, cost, Tally(Zero(|subtotals|), [], 0), codes, {}, Neither);
  }

  // ---------- What the codes take off

  /** SAVE10 comes before any SAVE5. */
  ghost predicate TenFirst(codes: seq<string>) {
    exists i :: 0 <= i < |codes| && codes[i] == "SAVE10" && forall j :: 0 <= j < i ==> codes[j] != "SAVE5"
  }

  predicate StartsWithTen(o: CodeOrder) { o.OnlyTen? || o.TenThenFive? }

  lemma TenFirstCons(codes: seq<string>)
    requires codes != []
    ensures TenFirst(codes) <==> codes[0] == "SAVE10" || (codes[0] != "SAVE5" && TenFirst(codes[1..]))
  {
    if codes[0] == "SAVE10" { assert TenFirst(codes); }
    if codes[0] != "SAVE5" && TenFirst(codes[1..]) {
      var i :| 0 <= i < |codes| - 1 && codes[1..][i] == "SAVE10" &&
        forall j :: 0 <= j < i ==> codes[1..][j] != "SAVE5";
      assert codes[i + 1] == "SAVE10" && forall j :: 0 < j < i + 1 ==> codes[j] == codes[1..][j - 1];
    }
    if TenFirst(codes) && codes[0] != "SAVE10" {
      var i :| 0 <= i < |codes| && codes[i] == "SAVE10" && forall j :: 0 <= j < i ==> codes[j] != "SAVE5";
      assert codes[1..][i - 1] == "SAVE10";
    }
  }

  lemma {:induction false} OrderFromMeans(codes: seq<string>, o: CodeOrder)
    ensures HasTen(OrderFrom(codes, o)) <==> HasTen(o) || "SAVE10" in codes
    ensures HasFive(OrderFrom(codes, o)) <==> HasFive(o) || "SAVE5" in codes
    ensures StartsWithTen(OrderFrom(codes, o)) <==> StartsWithTen(o) || (o == Neither && TenFirst(codes))
  {
    hide TenFirst;
    if codes != [] {
      OrderFromMeans(codes[1..], Advance(o, codes[0]));
      TenFirstCons(codes);
      assert codes == [codes[0]] + codes[1..];
    } else {
      NothingFirst();
    }
  }

  lemma NothingFirst()
    ensures !TenFirst([])
  {
  }

  /** A tenth of every line, rounded down. */
  function FloorTenths(subtotals: seq<int>): (r: seq<int>)
    ensures |r| == |subtotals|
  {
    seq(|subtotals|, i requires 0 <= i < |subtotals| => subtotals[i] / 10)
  }

  lemma TenthsAreFloors(subtotals: seq<int>)
    requires NonNegative(subtotals)
    ensures Tenths(subtotals) == FloorTenths(subtotals)
    ensures Sum(Available(subtotals, Zero(|subtotals|))) == Sum(subtotals)
    ensures Sum(Available(subtotals, Tenths(subtotals))) == Sum(subtotals) - Sum(FloorTenths(subtotals))
  {
    hide SumTo;
    var f := FloorTenths(subtotals);
    assert Tenths(subtotals) == f;
    assert Available(subtotals, Zero(|subtotals|)) == subtotals;
    assert Available(subtotals, f) == Minus(subtotals, f);
    SumPlus(subtotals, f, |subtotals|);
  }

  function UpToFive(amount: int): int { if amount < 500 then amount else 500 }

  lemma OrderOfMeans(codes: seq<string>)
    ensures HasTen(OrderOf(codes)) <==> "SAVE10" in codes
    ensures HasFive(OrderOf(codes)) <==> "SAVE5" in codes
    ensures StartsWithTen(OrderOf(codes)) <==> TenFirst(codes)
  {
    hide OrderFrom, TenFirst;
    OrderFromMeans(codes, Neither);
  }

  /**
   What the codes take off a cart, in numbers: SAVE10 the tenth of every line, SAVE5 500 cents or all there is, which
   after SAVE10 is what that left, SHIPFREE the fulfillment cost, and other codes nothing.
   */
  lemma CodesTakeOff(subtotals: seq<int>, cost: int, codes: seq<string>)
    requires NonNegative(subtotals)
    ensures var t := FinalTally(subtotals, cost, codes);
      var ten, five := "SAVE10" in codes, "SAVE5" in codes;
      var tenths := FloorTenths(subtotals);
      (!five ==> forall i :: 0 <= i < |subtotals| ==> t.perItem[i] == if ten then subtotals[i] / 10 else 0) &&
      Sum(t.perItem) == (if ten then Sum(tenths) else 0) +
        (if !five then 0
         else UpToFive(if TenFirst(codes) then Sum(subtotals) - Sum(tenths) else Sum(subtotals))) &&
      t.orderDiscount == if "SHIPFREE" in codes && cost > 0 then cost else 0
  {
    hide FinalTally, Split, SumTo, TenFirst, OrderOf, OrderFrom, Tenth;
    ClosedForm(subtotals, cost, codes);
    OrderOfMeans(codes);
    TenthsAreFloors(subtotals);
    var zero, tenths := Zero(|subtotals|), Tenths(subtotals);
    SplitIsExact(Available(subtotals, zero));
    SplitIsExact(Available(subtotals, tenths));
    SumPlus(tenths, Split(Available(subtotals, tenths)), |subtotals|);
    SumPlus(Split(Available(subtotals, zero)), tenths, |subtotals|);
  }

  /** The allocations are those of the lines at these positions, in order: every line that gets something. */
  ghost predicate AllocationsAt(s: seq<Allocation>, amounts: seq<int>, at: seq<nat>) {
    |at| == |s| && (forall k, l :: 0 <= k < l < |at| ==> at[k] < at[l]) &&
    (forall k :: 0 <= k < |at| ==>
      at[k] < |amounts| && amounts[at[k]] != 0 &&
      s[k] == Allocation("$.line_items[" + NatText(at[k]) + "]", amounts[at[k]])) &&
    forall i: nat :: i < |amounts| && amounts[i] != 0 ==> i in at
  }

  lemma {:induction false} AllocationsNameLines(amounts: seq<int>, n: nat) returns (at: seq<nat>)
    requires n <= |amounts|
    ensures AllocationsAt(LineAllocations(amounts, n), amounts[..n], at)
  {
    hide NatText;
    at := [];
    if n > 0 {
      at := AllocationsNameLines(amounts, n - 1);
      if amounts[n - 1] != 0 { at := at + [n - 1]; }
    }
  }

  predicate IsUnknown(code: string) { code != SAVE10 && code != SAVE5 && code != SHIPFREE }

  /** Having seen an unknown code makes no difference. */
  lemma {:induction false} SeenUnknown(subtotals: seq<int>, cost: int, t: Tally, codes: seq<string>, seen: set<string>,
      code: string)
    requires |t.perItem| == |subtotals| && IsUnknown(code)
    ensures ApplyCodes(subtotals, cost, t, codes, seen + {code}) == ApplyCodes(subtotals, cost, t, codes, seen)
    decreases codes
  {
    hide TakeOff, Tenths, Split, Available;
    if codes != [] {
      var c := codes[0];
      assert seen + {code} + {c} == seen + {c} + {code};
      if c in seen || c == code {
        SeenUnknown(subtotals, cost, t, codes[1..], seen, code);
      } else {
        SeenUnknown(subtotals, cost, ApplyCode(subtotals, cost, t, c), codes[1..], seen + {c}, code);
      }
    }
  }

  lemma {:induction false} NoiseIsIgnored(subtotals: seq<int>, cost: int, t: Tally, a: seq<string>, code: string,
      b: seq<string>, seen: set<string>)
    requires |t.perItem| == |subtotals| && (code in a || code in seen || IsUnknown(code))
    ensures ApplyCodes(subtotals, cost, t, a + [code] + b, seen) == ApplyCodes(subtotals, cost, t, a + b, seen)
    decreases a
  {
    hide TakeOff, Tenths, Split, Available;
    if a == [] {
      assert (a + [code] + b)[0] == code && (a + [code] + b)[1..] == b == a + b;
      SeenUnknownOrNot(subtotals, cost, t, b, seen, code);
    } else {
      assert (a + [code] + b)[1..] == a[1..] + [code] + b && (a + b)[1..] == a[1..] + b;
      if a[0] in seen {
        NoiseIsIgnored(subtotals, cost, t, a[1..], code, b, seen);
      } else {
        NoiseIsIgnored(subtotals, cost, ApplyCode(subtotals, cost, t, a[0]), a[1..], code, b, seen + {a[0]});
      }
    }
  }

  lemma SeenUnknownOrNot(subtotals: seq<int>, cost: int, t: Tally, codes: seq<string>, seen: set<string>, code: string)
    requires |t.perItem| == |subtotals|
    ensures IsUnknown(code) ==>
      ApplyCodes(subtotals, cost, t, codes, seen + {code}) == ApplyCodes(subtotals, cost, t, codes, seen)
  {
    if IsUnknown(code) { SeenUnknown(subtotals, cost, t, codes, seen, code); }
  }

  /**
   Inserting a code that is unknown, or that occurs earlier, changes nothing: neither what is taken off the lines and
   the order, nor the discounts reported, with their amounts and allocations.
   */
  lemma NoiseChangesNothing(subtotals: seq<int>, cost: int, a: seq<string>, code: string, b: seq<string>)
    requires code in a || code !in {SAVE10, SAVE5, SHIPFREE}
    ensures FinalTally(subtotals, cost, a + [code] + b) == FinalTally(subtotals, cost, a + b)
  {
    hide ApplyCodes;
    NoiseIsIgnored(subtotals, cost, Tally(Zero(|subtotals|), [], 0), a, code, b, {});
  }

  // ---------- Bounds

  lemma TenthBounds(s: int)
    requires 0 <= s
    ensures 0 <= Tenth(s) == s / 10 <= s
  {
  }

  lemma PerItemBounds(subtotals: seq<int>, o: CodeOrder, i: nat)
    requires NonNegative(subtotals) && i < |subtotals|
    ensures 0 <= PerItem(subtotals, o)[i] <= subtotals[i] + subtotals[i] / 10
    ensures !o.FiveThenTen? ==> PerItem(subtotals, o)[i] <= subtotals[i]
    ensures o.FiveThenTen? ==> PerItem(subtotals, o)[i] == Split(subtotals)[i] + subtotals[i] / 10
  {
    hide Split, Tenth;
    var zero, tenths := Zero(|subtotals|), Tenths(subtotals);
    TenthBounds(subtotals[i]);
    assert Available(subtotals, zero) == subtotals;
    SplitIsExact(subtotals);
    SplitIsExact(Available(subtotals, tenths));
  }

  /** No line is discounted by more than it costs. */
  ghost predicate NoOverDiscount(subtotals: seq<int>, perItem: seq<int>)
    requires |perItem| == |subtotals|
  {
    forall i :: 0 <= i < |subtotals| ==> perItem[i] <= subtotals[i]
  }

  /**
   Line discounts are bounded by the line plus a tenth of it. They stay within the line unless SAVE5 comes
   before SAVE10, and then exactly when every line's part of the $5 split leaves room for its tenth.
   */
  lemma LineDiscountBound(subtotals: seq<int>, cost: int, codes: seq<string>)
    requires NonNegative(subtotals)
    ensures var perItem := FinalTally(subtotals, cost, codes).perItem;
      (forall i :: 0 <= i < |subtotals| ==> 0 <= perItem[i] <= subtotals[i] + subtotals[i] / 10) &&
      (NoOverDiscount(subtotals, perItem) <==>
        (OrderOf(codes) == FiveThenTen ==>
          forall i :: 0 <= i < |subtotals| ==> Split(subtotals)[i] <= subtotals[i] - subtotals[i] / 10))
  {
    hide FinalTally, PerItem, Split, OrderOf;
    ClosedForm(subtotals, cost, codes);
    var o := OrderOf(codes);
    forall i | 0 <= i < |subtotals|
      ensures 0 <= PerItem(subtotals, o)[i] <= subtotals[i] + subtotals[i] / 10
      ensures !o.FiveThenTen? ==> PerItem(subtotals, o)[i] <= subtotals[i]
      ensures o.FiveThenTen? ==> PerItem(subtotals, o)[i] == Split(subtotals)[i] + subtotals[i] / 10
    {
      PerItemBounds(subtotals, o, i);
    }
  }

  /** A cart of at most $5 is over-discounted by SAVE5 then SAVE10 as soon as one line costs ten cents. */
  lemma SmallCartBound(subtotals: seq<int>, cost: int, codes: seq<string>)
    requires NonNegative(subtotals) && Sum(subtotals) <= 500 && OrderOf(codes) == FiveThenTen
    ensures NoOverDiscount(subtotals, FinalTally(subtotals, cost, codes).perItem) <==>
      forall i :: 0 <= i < |subtotals| ==> subtotals[i] < 10
  {
    hide FinalTally, Split, OrderOf, SumTo;
    LineDiscountBound(subtotals, cost, codes);
    SplitIsExact(subtotals);
    SumMonotone(Split(subtotals), subtotals, |subtotals|);
  }

  lemma {:induction false} PositivesBound(available: seq<int>, n: nat)
    requires n <= |available|
    ensures Positives(available, n) <= n
  {
    if n > 0 { PositivesBound(available, n - 1); }
  }

  /** In a cart of at least $10 a line gets at most half its price and less than one cent for each line. */
  lemma LargeCartSplit(subtotals: seq<int>, i: nat)
    requires NonNegative(subtotals) && Sum(subtotals) >= 1000 && i < |subtotals|
    ensures 2 * (Split(subtotals)[i] - (|subtotals| - 1)) <= subtotals[i]
  {
    hide SumTo, Share, Rooms, Leftover;
    ShareBounds(subtotals, i);
    LeftoverBounds(subtotals);
    PositivesBound(subtotals, |subtotals|);
    RoomsSumNonNegative(subtotals, i);
    var share := Share(subtotals, i);
    if share > 0 { ProductOrder(1000, Sum(subtotals), share); }
  }

  lemma RoomsSumNonNegative(available: seq<int>, i: nat)
    requires NonNegative(available) && i <= |available|
    ensures 0 <= SumTo(Rooms(available), i)
  {
    hide Rooms;
    forall k | 0 <= k < |available| ensures 0 <= Rooms(available)[k] { RoomIsThere(available, k); }
    SumBounds(Rooms(available), i, i);
  }

  /** A cart of at least $10 in which no line costs less than three cents for each line is never over-discounted. */
  lemma LargeCartBound(subtotals: seq<int>, cost: int, codes: seq<string>)
    requires NonNegative(subtotals) && Sum(subtotals) >= 1000
    requires forall i :: 0 <= i < |subtotals| ==> subtotals[i] == 0 || 3 * |subtotals| <= subtotals[i]
    ensures NoOverDiscount(subtotals, FinalTally(subtotals, cost, codes).perItem)
  {
    hide FinalTally, Split, OrderOf, SumTo;
    LineDiscountBound(subtotals, cost, codes);
    SplitIsExact(subtotals);
    forall i | 0 <= i < |subtotals| ensures Split(subtotals)[i] <= subtotals[i] - subtotals[i] / 10 {
      LargeCartSplit(subtotals, i);
    }
  }

  /**
   By prices alone: beyond $5.55 a cart is never over-discounted when every line costs enough for a tenth of it, its
   share of $5 and one cent for each other line.
   */
  lemma PriceBound(subtotals: seq<int>, cost: int, codes: seq<string>)
    requires NonNegative(subtotals) && 5000 < 9 * Sum(subtotals)
    requires forall i :: 0 <= i < |subtotals| ==>
      subtotals[i] == 0 || 10 * Sum(subtotals) * (|subtotals| - 1) <= subtotals[i] * (9 * Sum(subtotals) - 5000)
    ensures NoOverDiscount(subtotals, FinalTally(subtotals, cost, codes).perItem)
  {
    hide FinalTally, Split, OrderOf, Sum;
    LineDiscountBound(subtotals, cost, codes);
    SplitIsExact(subtotals);
    forall i | 0 <= i < |subtotals| ensures Split(subtotals)[i] <= subtotals[i] - subtotals[i] / 10 {
      if subtotals[i] > 0 {
        PriceSplit(subtotals, i);
        PriceArithmetic(subtotals[i], Sum(subtotals), |subtotals|, Split(subtotals)[i]);
      }
    }
  }

  lemma PriceSplit(subtotals: seq<int>, i: nat)
    requires NonNegative(subtotals) && 0 < Sum(subtotals) && i < |subtotals|
    ensures (Split(subtotals)[i] - (|subtotals| - 1)) * Sum(subtotals) <= 500 * subtotals[i]
  {
    hide SumTo, Share, Rooms, Leftover;
    ShareBounds(subtotals, i);
    LeftoverBounds(subtotals);
    PositivesBound(subtotals, |subtotals|);
    RoomsSumNonNegative(subtotals, i);
    var share, t := Share(subtotals, i), Sum(subtotals);
    ProductOrder(Split(subtotals)[i] - (|subtotals| - 1), share, t);
    ProductOrder(SplitTotal(subtotals), 500, subtotals[i] + 1);
    assert SplitTotal(subtotals) * (subtotals[i] + 1) == SplitTotal(subtotals) * subtotals[i] + SplitTotal(subtotals);
    if subtotals[i] > 0 { ProductOrder(SplitTotal(subtotals), 500, subtotals[i]); }
  }

  lemma PriceArithmetic(s: int, t: int, n: int, split: int)
    requires 0 < s && 0 < t && (split - (n - 1)) * t <= 500 * s && 10 * t * (n - 1) <= s * (9 * t - 5000)
    ensures split <= s - s / 10
  {
    assert (split - (n - 1)) * t == split * t - (n - 1) * t;
    assert 10 * t * (n - 1) == 10 * ((n - 1) * t);
    assert s * (9 * t - 5000) == 9 * (s * t) - 5000 * s;
    assert (10 * split) * t == 10 * (split * t) && (9 * s) * t == 9 * (s * t);
    ProductOrder(9 * s, 10 * split - 1, t);
    ProductOrder(10 * split, 9 * s, t);
  }

  /** SAVE5 then SAVE10 takes 110 cents off a line of 100. */
  lemma OverDiscountExample()
    ensures FinalTally([100], 0, [SAVE5, SAVE10]).perItem == [110]
    ensures FinalTally([100], 0, [SAVE10, SAVE5]).perItem == [100]
  {
    hide FinalTally, Split;
    var s := [100];
    ClosedForm(s, 0, [SAVE5, SAVE10]);
    ClosedForm(s, 0, [SAVE10, SAVE5]);
    assert [SAVE5, SAVE10][1..] == [SAVE10] && [SAVE10, SAVE5][1..] == [SAVE5];
    assert [SAVE10][1..] == [] && [SAVE5][1..] == [];
    assert OrderFrom([SAVE10], OnlyFive) == FiveThenTen && OrderFrom([SAVE5], OnlyTen) == TenThenFive;
    assert OrderOf([SAVE5, SAVE10]) == FiveThenTen && OrderOf([SAVE10, SAVE5]) == TenThenFive;
    OneLineSplit(100);
    OneLineSplit(90);
    assert Available(s, Zero(1)) == [100] && Tenths(s) == [10] && Available(s, [10]) == [90];
  }

  lemma OneLineSplit(x: int)
    requires 0 <= x <= 500
    ensures Split([x]) == [x]
  {
    hide Split, Share;
    SplitIsExact([x]);
    assert Sum([x]) == SumTo([x], 0) + x;
    var r := Split([x]);
    assert Sum(r) == SumTo(r, 0) + r[0];
    assert r == [r[0]];
  }
}
