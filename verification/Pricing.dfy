/** Discount outcome, line totals and order totals of a cart (src/service.rs). */
module Pricing {
  import opened Wrappers
  import opened Text
  import opened Sums
  import opened Integers
  import opened Models
  import opened Discounts

  // ---------- Specification

  function LineSubtotal(item: LineItem): int { item.item.price * item.quantity }

  function LineSubtotals(items: seq<LineItem>): (r: seq<int>)
    ensures |r| == |items|
  {
    seq(|items|, i requires 0 <= i < |items| => LineSubtotal(items[i]))
  }

  function LineTotals(subtotal: int, discount: int): seq<Total> {
    [Total("subtotal", Some("Subtotal"), subtotal)] +
    (if discount > 0 then [Total("items_discount", Some("Items discount"), discount)] else []) +
    [Total("total", Some("Total"), Max(subtotal - discount, 0))]
  }

  function WithDiscount(item: LineItem, discount: int): LineItem {
    item.(totals := LineTotals(LineSubtotal(item), discount))
  }

  function WithDiscounts(items: seq<LineItem>, perItem: seq<int>): (r: seq<LineItem>)
    requires |perItem| == |items|
    ensures |r| == |items|
  {
    seq(|items|, i requires 0 <= i < |items| => WithDiscount(items[i], perItem[i]))
  }

  datatype Outcome = Outcome(
    lines: seq<LineItem>, discounts: Option<DiscountsObject>, itemsDiscount: int, orderDiscount: int)

  function LegacyOutcome(items: seq<LineItem>, codes: seq<string>, cost: int, hadCodes: bool): Outcome {
    var t := FinalTally(LineSubtotals(items), cost, codes);
    var reported := if hadCodes then Some(codes) else None;
    var applied := if t.applied == [] then None else Some(t.applied);
    Outcome(
      WithDiscounts(items, t.perItem),
      if reported.Some? || applied.Some? then Some(DiscountsObject(reported, applied)) else None,
      Sum(t.perItem), t.orderDiscount)
  }

  function UpperChar(c: char): char {
    if 'a' <= c <= 'z' then (c as int - 'a' as int + 'A' as int) as char else c
  }

  function Upper(s: string): (r: string)
    ensures |r| == |s|
  {
    seq(|s|, i requires 0 <= i < |s| => UpperChar(s[i]))
  }

  /** Codes trimmed and in upper case, without the empty ones. */
  function NormalizeCodes(raw: seq<string>): seq<string> {
    if raw == [] then [] else
    var code := Upper(Trim(raw[0]));
    (if code == "" then [] else [code]) + NormalizeCodes(raw[1..])
  }

  /** `u` is `s` with the letters a to z, 32 places above A to Z, replaced by those. */
  ghost predicate IsUpperOf(u: string, s: string) {
    |u| == |s| && forall i :: 0 <= i < |s| ==>
      if 'a' <= s[i] <= 'z' then u[i] as int == s[i] as int - 32 else u[i] == s[i]
  }

  lemma UpperOf(s: string)
    ensures IsUpperOf(Upper(s), s) && (Upper(s) == "" <==> s == "")
  {
  }

  /** The codes are the raw ones at these positions, trimmed and in upper case, and only blank ones are left out. */
  ghost predicate CodesAt(codes: seq<string>, raw: seq<string>, at: seq<nat>) {
    |at| == |codes| && (forall k, l :: 0 <= k < l < |at| ==> at[k] < at[l]) &&
    (forall k :: 0 <= k < |at| ==> at[k] < |raw| && !IsBlank(raw[at[k]]) && IsUpperOf(codes[k], Trim(raw[at[k]]))) &&
    forall i: nat :: i < |raw| && !IsBlank(raw[i]) ==> i in at
  }

  lemma {:induction false} NormalizeSnoc(raw: seq<string>, x: string)
    ensures NormalizeCodes(raw + [x]) == NormalizeCodes(raw) + if Upper(Trim(x)) == "" then [] else [Upper(Trim(x))]
  {
    hide Trim, Upper;
    if raw == [] {
      assert [x][1..] == [];
    } else {
      assert (raw + [x])[1..] == raw[1..] + [x];
      NormalizeSnoc(raw[1..], x);
    }
  }

  lemma CodeBehind(codes: seq<string>, code: string, raw: seq<string>, x: string, at: seq<nat>)
    requires CodesAt(codes, raw, at) && IsUpperOf(code, Trim(x))
    ensures IsBlank(x) ==> CodesAt(codes, raw + [x], at)
    ensures !IsBlank(x) ==> CodesAt(codes + [code], raw + [x], at + [|raw|])
  {
    hide IsBlank, IsUpperOf, Trim;
  }

  /** Every code that is not blank is applied, in the order in which they were entered. */
  lemma {:induction false} CodesAreThoseEntered(raw: seq<string>) returns (at: seq<nat>)
    ensures CodesAt(NormalizeCodes(raw), raw, at)
  {
    hide Trim, Upper, IsUpperOf;
    at := [];
    if raw != [] {
      var n := |raw| - 1;
      var x := raw[n];
      at := CodesAreThoseEntered(raw[..n]);
      assert raw == raw[..n] + [x];
      NormalizeSnoc(raw[..n], x);
      UpperOf(Trim(x));
      CodeBehind(NormalizeCodes(raw[..n]), Upper(Trim(x)), raw[..n], x, at);
      if !IsBlank(x) { at := at + [n]; }
    }
  }

  function DiscountOutcome(items: seq<LineItem>, discounts: Option<DiscountsObject>, cost: int): Outcome {
    match discounts
    case None => Outcome(items, None, 0, 0)
    case Some(d) =>
      LegacyOutcome(items, NormalizeCodes(if d.codes.Some? then d.codes.value else []), cost, d.codes.Some?)
  }

  function Taxable(subtotal: int, itemsDiscount: int, cost: int, orderDiscount: int): int {
    Max(subtotal - itemsDiscount + cost - orderDiscount, 0)
  }

  function Tax(taxable: int, bps: int): int { TruncDiv(taxable * bps, 10_000) }

  function PositiveEntry(kind: string, text: string, amount: int): seq<Total> {
    if amount > 0 then [Total(kind, Some(text), amount)] else []
  }

  function OrderTotals(subtotal: int, itemsDiscount: int, cost: int, orderDiscount: int, bps: int): seq<Total> {
    var taxable := Taxable(subtotal, itemsDiscount, cost, orderDiscount);
    var tax := Tax(taxable, bps);
    [Total("subtotal", Some("Subtotal"), subtotal)] +
    PositiveEntry("items_discount", "Items discount", itemsDiscount) +
    PositiveEntry("fulfillment", "Fulfillment", cost) +
    PositiveEntry("discount", "Discount", orderDiscount) +
    PositiveEntry("tax", "Tax", tax) +
    [Total("total", Some("Total"), Max(taxable + tax, 0))]
  }

  // ---------- The loops of the program

  predicate InI64(x: int) { -I64_MAX - 1 <= x <= I64_MAX }

  /** Prices for which no product or sum of the discount code leaves the 64-bit range. */
  predicate PricesFit(subtotals: seq<int>) {
    (forall i :: 0 <= i < |subtotals| ==> -I64_MAX <= subtotals[i] * 10) &&
    500 * Sum(Available(subtotals, Zero(|subtotals|))) <= I64_MAX
  }

  lemma ProductsFit(subtotals: seq<int>, taken: seq<int>, i: nat)
    requires PricesFit(subtotals) && |taken| == |subtotals| && NonNegative(taken) && i < |subtotals|
    ensures InI64(subtotals[i] * 10)
    ensures var a := Available(subtotals, taken);
      0 <= a[i] && 0 <= Sum(a) && InI64(Sum(a)) && 0 <= SplitTotal(a) <= 500 && InI64(SplitTotal(a) * a[i])
  {
    hide SumTo;
    var a, all := Available(subtotals, taken), Available(subtotals, Zero(|subtotals|));
    SumMonotone(a, all, |all|);
    SumBounds(a, i, |a|);
    SumBounds(all, i, |all|);
    ProductOrder(SplitTotal(a), 500, a[i] + 1);
    assert SplitTotal(a) * (a[i] + 1) == SplitTotal(a) * a[i] + SplitTotal(a);
    if subtotals[i] > 0 { assert subtotals[i] == all[i]; }
  }

  method Save10(subtotals: seq<int>, taken: seq<int>)
      returns (perItem: seq<int>, amount: int, allocations: seq<Allocation>)
    requires |taken| == |subtotals| && NonNegative(taken) && PricesFit(subtotals)
    ensures perItem == Plus(taken, Tenths(subtotals))
    ensures amount == Sum(Tenths(subtotals))
    ensures allocations == LineAllocations(Tenths(subtotals), |subtotals|)
  {
    hide LinePath, Sum, Available, PricesFit;
    ghost var tenths := Tenths(subtotals);
    perItem, amount, allocations := taken, 0, [];
    for i := 0 to |subtotals|
      invariant |perItem| == |subtotals|
      invariant forall k :: 0 <= k < |subtotals| ==> perItem[k] == taken[k] + if k < i then tenths[k] else 0
      invariant amount == SumTo(tenths, i)
      invariant allocations == LineAllocations(tenths, i)
    {
      ProductsFit(subtotals, taken, i);
      assert InI64(subtotals[i] * 10);
      var discount := TruncDiv(subtotals[i] * 10, 100);
      if discount > 0 {
        perItem := perItem[i := perItem[i] + discount];
        amount := amount + discount;
        allocations := allocations + [Allocation(LinePath(i), discount)];
      }
    }
    assert amount == Sum(tenths) by { SumIsSumTo(tenths); }
  }

  lemma SumIsSumTo(s: seq<int>)
    ensures Sum(s) == SumTo(s, |s|)
  {
  }

  /** Floored shares, and how much they allocate. */
  method ShareOut(available: seq<int>) returns (allocations: seq<int>, spent: int)
    requires Sum(available) > 0 && NonNegative(available)
    ensures allocations == Shares(available) && spent == Sum(Shares(available))
  {
    hide TruncDiv, SplitTotal, Sum;
    allocations, spent := Zero(|available|), 0;
    for i := 0 to |available|
      invariant |allocations| == |available|
      invariant forall k :: 0 <= k < |available| ==> allocations[k] == if k < i then Share(available, k) else 0
      invariant spent == SumTo(Shares(available), i)
    {
      if available[i] != 0 {
        var share := TruncDiv(SplitTotal(available) * available[i], Sum(available));
        allocations := allocations[i := share];
        spent := spent + share;
      }
    }
    SumIsSumTo(Shares(available));
  }

  /** Hands the remainder to the lines in turn, each taking what it has room for, until it is spent. */
  method SpendRemainder(available: seq<int>, shares: seq<int>, leftover: int) returns (allocations: seq<int>)
    requires NonNegative(available) && shares == Shares(available)
    requires leftover == Leftover(available) && 0 <= leftover
    ensures allocations == Split(available)
  {
    hide Share, Leftover, Rooms;
    allocations := shares;
    var remainder := leftover;
    var i := 0;
    while i < |available| && remainder > 0
      invariant i <= |available| == |allocations|
      invariant remainder == Max(0, leftover - SumTo(Rooms(available), i))
      invariant forall k :: 0 <= k < |available| ==>
        allocations[k] == if k < i then Split(available)[k] else shares[k]
    {
      RoomIsThere(available, i);
      if available[i] > allocations[i] {
        var add := Min(remainder, available[i] - allocations[i]);
        allocations := allocations[i := allocations[i] + add];
        remainder := remainder - add;
      }
      i := i + 1;
    }
    forall k | i <= k < |available| ensures Split(available)[k] == shares[k] {
      RoomsGrow(available, i, k);
      RoomIsThere(available, k);
    }
  }

  lemma {:induction false} RoomsGrow(available: seq<int>, i: nat, k: nat)
    requires NonNegative(available) && i <= k <= |available|
    ensures SumTo(Rooms(available), i) <= SumTo(Rooms(available), k)
  {
    hide Rooms;
    if i < k {
      RoomsGrow(available, i, k - 1);
      RoomIsThere(available, k - 1);
    }
  }

  method Save5(subtotals: seq<int>, taken: seq<int>)
      returns (perItem: seq<int>, amount: int, applied: seq<Allocation>)
    requires |taken| == |subtotals| && NonNegative(taken) && PricesFit(subtotals)
    ensures var split := Split(Available(subtotals, taken));
      perItem == Plus(taken, split) && amount == Sum(split) && applied == LineAllocations(split, |split|)
  {
    hide LinePath, Sum, PricesFit, Available, Split, SplitTotal, Shares;
    var available := Available(subtotals, taken);
    perItem, amount, applied := taken, 0, [];
    AvailableNonNegative(subtotals, taken);
    SplitIsExact(available);
    forall i | 0 <= i < |subtotals| ensures InI64(Sum(available)) && InI64(SplitTotal(available) * available[i]) {
      ProductsFit(subtotals, taken, i);
    }
    if Sum(available) <= 0 {
      NothingToSplit(subtotals, taken);
      return;
    }
    var allocations, spent := ShareOut(available);
    var split := SpendRemainder(available, allocations, SplitTotal(available) - spent);
    for i := 0 to |split|
      invariant |perItem| == |subtotals|
      invariant forall k :: 0 <= k < |subtotals| ==> perItem[k] == taken[k] + if k < i then split[k] else 0
      invariant amount == SumTo(split, i)
      invariant applied == LineAllocations(split, i)
    {
      if split[i] != 0 {
        perItem := perItem[i := perItem[i] + split[i]];
        amount := amount + split[i];
        applied := applied + [Allocation(LinePath(i), split[i])];
      }
    }
    SumIsSumTo(split);
  }

  lemma AvailableNonNegative(subtotals: seq<int>, taken: seq<int>)
    requires |taken| == |subtotals|
    ensures NonNegative(Available(subtotals, taken))
  {
  }

  lemma NothingToSplit(subtotals: seq<int>, taken: seq<int>)
    requires |taken| == |subtotals| && Sum(Available(subtotals, taken)) <= 0
    ensures var split := Split(Available(subtotals, taken));
      taken == Plus(taken, split) && Sum(split) == 0 && LineAllocations(split, |split|) == []
  {
    hide Split, Share, SumTo, LineAllocations;
    var a := Available(subtotals, taken);
    SplitIsExact(a);
    SumBounds(a, 0, |a|);
    SumZero(a);
    forall i | 0 <= i < |a| ensures Split(a)[i] == 0 { SumBounds(a, i, |a|); }
    NoAllocations(Split(a), |a|);
  }

  lemma {:induction false} NoAllocations(s: seq<int>, n: nat)
    requires n <= |s| && forall i :: 0 <= i < |s| ==> s[i] == 0
    ensures LineAllocations(s, n) == []
  {
    if n > 0 { NoAllocations(s, n - 1); }
  }

  method ApplyLegacyDiscounts(items: seq<LineItem>, codes: seq<string>, cost: int, hadCodes: bool)
      returns (r: Outcome)
    requires PricesFit(LineSubtotals(items))
    ensures r == LegacyOutcome(items, codes, cost, hadCodes)
  {
    hide LinePath, Sum, PricesFit, Available, Split, Tenths, LineAllocations, LineSubtotal, Plus, WithDiscount,
      LineSubtotals;
    var subtotals := LineSubtotals(items);
    var perItem, applied, orderDiscount := Zero(|items|), [], 0;
    var seen: set<string> := {};
    ghost var start := Tally(perItem, applied, orderDiscount);
    DiscountsAreConserved(subtotals, cost, []);
    for i := 0 to |codes|
      invariant |perItem| == |subtotals| && NonNegative(perItem)
      invariant ApplyCodes(subtotals, cost, start, codes, {}) ==
        ApplyCodes(subtotals, cost, Tally(perItem, applied, orderDiscount), codes[i..], seen)
    {
      var code := codes[i];
      assert codes[i..][0] == code && codes[i..][1..] == codes[i + 1..];
      if code !in seen {
        seen := seen + {code};
        ghost var before := Tally(perItem, applied, orderDiscount);
        assert applied + [] == applied;
        TenthsNonNegative(subtotals);
        AvailableNonNegative(subtotals, perItem);
        SplitIsExact(Available(subtotals, perItem));
        PlusNonNegative(perItem, Tenths(subtotals));
        PlusNonNegative(perItem, Split(Available(subtotals, perItem)));
        if code == SAVE10 {
          var taken, amount, allocations := Save10(subtotals, perItem);
          perItem := taken;
          if amount > 0 {
            applied := applied + [AppliedDiscount(code, "Save 10%", amount, 1, allocations)];
          }
        } else if code == SAVE5 {
          var taken, amount, allocations := Save5(subtotals, perItem);
          perItem := taken;
          if amount > 0 {
            applied := applied + [AppliedDiscount(code, "Save $5", amount, 2, allocations)];
          }
        } else if code == SHIPFREE {
          if cost > 0 {
            orderDiscount := orderDiscount + cost;
            applied := applied +
              [AppliedDiscount(code, "Free shipping", cost, 3, [Allocation("$.totals.fulfillment", cost)])];
          }
        }
        assert Tally(perItem, applied, orderDiscount) == ApplyCode(subtotals, cost, before, code);
      }
    }
    var lines := items;
    for i := 0 to |items|
      invariant |lines| == |items|
      invariant forall k :: 0 <= k < |items| ==>
        lines[k] == if k < i then WithDiscount(items[k], perItem[k]) else items[k]
    {
      lines := lines[i := WithDiscount(lines[i], perItem[i])];
    }
    var reported := if hadCodes then Some(codes) else None;
    var some := if applied == [] then None else Some(applied);
    r := Outcome(lines, if reported.Some? || some.Some? then Some(DiscountsObject(reported, some)) else None,
      Sum(perItem), orderDiscount);
  }

  lemma PlusNonNegative(s: seq<int>, t: seq<int>)
    requires |s| == |t|
    ensures NonNegative(s) && NonNegative(t) ==> NonNegative(Plus(s, t))
  {
  }

  /** Amounts for which no intermediate result of the totals leaves the 64-bit range. */
  predicate AmountsFit(subtotal: int, itemsDiscount: int, cost: int, orderDiscount: int, bps: int) {
    var taxable := Taxable(subtotal, itemsDiscount, cost, orderDiscount);
    InI64(subtotal) && InI64(subtotal - itemsDiscount) && InI64(subtotal - itemsDiscount + cost) &&
    InI64(subtotal - itemsDiscount + cost - orderDiscount) && InI64(taxable * bps) && InI64(taxable + Tax(taxable, bps))
  }

  /** Pushes the entries one by one, leaving out those that are not positive. */
  method CalculateTotals(items: seq<LineItem>, itemsDiscount: int, cost: int, orderDiscount: int, bps: int)
      returns (totals: seq<Total>)
    requires AmountsFit(Sum(LineSubtotals(items)), itemsDiscount, cost, orderDiscount, bps)
    ensures totals == OrderTotals(Sum(LineSubtotals(items)), itemsDiscount, cost, orderDiscount, bps)
  {
    hide SumTo, LineSubtotals, InI64, Max;
    var subtotal := Sum(LineSubtotals(items));
    totals := [Total("subtotal", Some("Subtotal"), subtotal)];
    ghost var first := totals;
    if itemsDiscount > 0 { totals := totals + [Total("items_discount", Some("Items discount"), itemsDiscount)]; }
    assert totals == first + PositiveEntry("items_discount", "Items discount", itemsDiscount);
    ghost var second := totals;
    if cost > 0 { totals := totals + [Total("fulfillment", Some("Fulfillment"), cost)]; }
    assert totals == second + PositiveEntry("fulfillment", "Fulfillment", cost);
    ghost var third := totals;
    if orderDiscount > 0 { totals := totals + [Total("discount", Some("Discount"), orderDiscount)]; }
    assert totals == third + PositiveEntry("discount", "Discount", orderDiscount);
    assert InI64(subtotal - itemsDiscount + cost - orderDiscount);
    var taxable := Max(subtotal - itemsDiscount + cost - orderDiscount, 0);
    assert InI64(taxable * bps);
    var tax := TruncDiv(taxable * bps, 10_000);
    ghost var fourth := totals;
    if tax > 0 { totals := totals + [Total("tax", Some("Tax"), tax)]; }
    assert totals == fourth + PositiveEntry("tax", "Tax", tax);
    assert InI64(taxable + tax);
    totals := totals + [Total("total", Some("Total"), Max(taxable + tax, 0))];
  }

  // ---------- What the entries say

  /** The amounts listed under `kind`, in order. */
  function AmountsOf(totals: seq<Total>, kind: string): seq<int> {
    if totals == [] then []
    else if totals[0].kind == kind then [totals[0].amount] + AmountsOf(totals[1..], kind)
    else AmountsOf(totals[1..], kind)
  }

  lemma {:induction false} AmountsConcat(a: seq<Total>, b: seq<Total>, kind: string)
    ensures AmountsOf(a + b, kind) == AmountsOf(a, kind) + AmountsOf(b, kind)
  {
    if a == [] {
      assert a + b == b;
    } else {
      assert (a + b)[1..] == a[1..] + b && (a + b)[0] == a[0];
      AmountsConcat(a[1..], b, kind);
      assert AmountsOf(a + b, kind) ==
        (if a[0].kind == kind then [a[0].amount] + AmountsOf(a[1..] + b, kind) else AmountsOf(a[1..] + b, kind));
    }
  }

  /** An amount is listed when it is positive. */
  function Listing(amount: int): seq<int> { if amount > 0 then [amount] else [] }

  lemma AmountsOfOne(kind: string, text: string, amount: int, wanted: string)
    ensures AmountsOf([Total(kind, Some(text), amount)], wanted) == if kind == wanted then [amount] else []
    ensures AmountsOf(PositiveEntry(kind, text, amount), wanted) == if kind == wanted then Listing(amount) else []
  {
  }

  lemma LineEntriesOf(subtotal: int, discount: int, kind: string)
    ensures AmountsOf(LineTotals(subtotal, discount), kind) ==
        if kind == "subtotal" then [subtotal]
        else if kind == "items_discount" then Listing(discount)
        else if kind == "total" then [if subtotal < discount then 0 else subtotal - discount]
        else []
  {
    hide AmountsOf;
    var total := Max(subtotal - discount, 0);
    var e1 := [Total("subtotal", Some("Subtotal"), subtotal)];
    var e2 := PositiveEntry("items_discount", "Items discount", discount);
    AmountsConcat(e1, e2, kind);
    AmountsConcat(e1 + e2, [Total("total", Some("Total"), total)], kind);
    AmountsOfOne("subtotal", "Subtotal", subtotal, kind);
    AmountsOfOne("items_discount", "Items discount", discount, kind);
    AmountsOfOne("total", "Total", total, kind);
    assert LineTotals(subtotal, discount) == e1 + e2 + [Total("total", Some("Total"), total)];
  }

  /**
   A line lists what it costs before and after its discount, which is listed only when there is one; the total is never
   negative.
   */
  lemma LineEntries(subtotal: int, discount: int)
    ensures var t := LineTotals(subtotal, discount);
      AmountsOf(t, "subtotal") == [subtotal] && AmountsOf(t, "items_discount") == Listing(discount) &&
      AmountsOf(t, "total") == [if subtotal < discount then 0 else subtotal - discount]
  {
    hide AmountsOf, LineTotals, Listing;
    LineEntriesOf(subtotal, discount, "subtotal");
    LineEntriesOf(subtotal, discount, "items_discount");
    LineEntriesOf(subtotal, discount, "total");
  }

  /** What the entries of a line are called. */
  lemma LineTexts(subtotal: int, discount: int, k: nat)
    requires k < |LineTotals(subtotal, discount)|
    ensures var t := LineTotals(subtotal, discount)[k];
      (t.kind, t.displayText) in {("subtotal", Some("Subtotal")), ("items_discount", Some("Items discount")),
        ("total", Some("Total"))}
  {
  }

  lemma OrderEntriesOf(subtotal: int, itemsDiscount: int, cost: int, orderDiscount: int, bps: int, kind: string)
    ensures var taxable := Taxable(subtotal, itemsDiscount, cost, orderDiscount);
      AmountsOf(OrderTotals(subtotal, itemsDiscount, cost, orderDiscount, bps), kind) ==
        if kind == "subtotal" then [subtotal]
        else if kind == "items_discount" then Listing(itemsDiscount)
        else if kind == "fulfillment" then Listing(cost)
        else if kind == "discount" then Listing(orderDiscount)
        else if kind == "tax" then Listing(Tax(taxable, bps))
        else if kind == "total" then [Max(taxable + Tax(taxable, bps), 0)]
        else []
  {
    hide AmountsOf, PositiveEntry, Listing, Max, Tax, Taxable;
    var taxable := Taxable(subtotal, itemsDiscount, cost, orderDiscount);
    var tax := Tax(taxable, bps);
    var total := Max(taxable + tax, 0);
    var e1 := [Total("subtotal", Some("Subtotal"), subtotal)];
    var e2 := e1 + PositiveEntry("items_discount", "Items discount", itemsDiscount);
    var e3 := e2 + PositiveEntry("fulfillment", "Fulfillment", cost);
    var e4 := e3 + PositiveEntry("discount", "Discount", orderDiscount);
    var e5 := e4 + PositiveEntry("tax", "Tax", tax);
    AmountsConcat(e1, PositiveEntry("items_discount", "Items discount", itemsDiscount), kind);
    AmountsConcat(e2, PositiveEntry("fulfillment", "Fulfillment", cost), kind);
    AmountsConcat(e3, PositiveEntry("discount", "Discount", orderDiscount), kind);
    AmountsConcat(e4, PositiveEntry("tax", "Tax", tax), kind);
    AmountsConcat(e5, [Total("total", Some("Total"), total)], kind);
    AmountsOfOne("subtotal", "Subtotal", subtotal, kind);
    AmountsOfOne("items_discount", "Items discount", itemsDiscount, kind);
    AmountsOfOne("fulfillment", "Fulfillment", cost, kind);
    AmountsOfOne("discount", "Discount", orderDiscount, kind);
    AmountsOfOne("tax", "Tax", tax, kind);
    AmountsOfOne("total", "Total", total, kind);
  }

  /** What the entries of an order say: subtotal and total always, the others when they are positive. */
  ghost predicate EntriesAre(t: seq<Total>, subtotal: int, itemsDiscount: int, cost: int, orderDiscount: int, tax: int,
      total: int)
  {
    AmountsOf(t, "subtotal") == [subtotal] && AmountsOf(t, "items_discount") == Listing(itemsDiscount) &&
    AmountsOf(t, "fulfillment") == Listing(cost) && AmountsOf(t, "discount") == Listing(orderDiscount) &&
    AmountsOf(t, "tax") == Listing(tax) && AmountsOf(t, "total") == [total]
  }

  lemma OrderEntriesAre(subtotal: int, itemsDiscount: int, cost: int, orderDiscount: int, bps: int)
    ensures var taxable := Taxable(subtotal, itemsDiscount, cost, orderDiscount);
      EntriesAre(OrderTotals(subtotal, itemsDiscount, cost, orderDiscount, bps), subtotal, itemsDiscount, cost,
        orderDiscount, Tax(taxable, bps), Max(taxable + Tax(taxable, bps), 0))
  {
    hide AmountsOf, Listing, Tax, Taxable, Max, OrderTotals;
    OrderEntriesOf(subtotal, itemsDiscount, cost, orderDiscount, bps, "subtotal");
    OrderEntriesOf(subtotal, itemsDiscount, cost, orderDiscount, bps, "items_discount");
    OrderEntriesOf(subtotal, itemsDiscount, cost, orderDiscount, bps, "fulfillment");
    OrderEntriesOf(subtotal, itemsDiscount, cost, orderDiscount, bps, "discount");
    OrderEntriesOf(subtotal, itemsDiscount, cost, orderDiscount, bps, "tax");
    OrderEntriesOf(subtotal, itemsDiscount, cost, orderDiscount, bps, "total");
  }

  /**
   The tax is the share of `bps` ten-thousandths, rounded towards zero, of what remains of the subtotal after discounts
   and fulfillment, and the total is what remains and the tax; neither falls below zero.
   */
  lemma OrderEntries(subtotal: int, itemsDiscount: int, cost: int, orderDiscount: int, bps: int)
    ensures var x := subtotal - itemsDiscount + cost - orderDiscount;
      var rest := if x < 0 then 0 else x;
      var due := rest + TruncDiv(rest * bps, 10_000);
      EntriesAre(OrderTotals(subtotal, itemsDiscount, cost, orderDiscount, bps), subtotal, itemsDiscount, cost,
        orderDiscount, TruncDiv(rest * bps, 10_000), if due < 0 then 0 else due)
  {
    hide EntriesAre, OrderTotals, TruncDiv;
    OrderEntriesAre(subtotal, itemsDiscount, cost, orderDiscount, bps);
  }

  // ---------- What the totals promise

  /** The sign with which an entry counts towards the total. */
  function Sign(kind: string): int {
    if kind == "items_discount" || kind == "discount" then -1 else if kind == "total" then 0 else 1
  }

  function SignedSum(totals: seq<Total>): int {
    if totals == [] then 0 else Sign(totals[0].kind) * totals[0].amount + SignedSum(totals[1..])
  }

  lemma {:induction false} SignedSumConcat(a: seq<Total>, b: seq<Total>)
    ensures SignedSum(a + b) == SignedSum(a) + SignedSum(b)
  {
    if a == [] {
      assert a + b == b;
    } else {
      assert (a + b)[1..] == a[1..] + b;
      SignedSumConcat(a[1..], b);
    }
  }

  lemma EntrySum(kind: string, text: string, amount: int)
    ensures SignedSum(PositiveEntry(kind, text, amount)) == Sign(kind) * Max(amount, 0)
    ensures SignedSum([Total(kind, Some(text), amount)]) == Sign(kind) * amount
  {
    assert [Total(kind, Some(text), amount)][1..] == [];
  }

  lemma OrderTotalsSum(subtotal: int, itemsDiscount: int, cost: int, orderDiscount: int, bps: int)
    ensures SignedSum(OrderTotals(subtotal, itemsDiscount, cost, orderDiscount, bps)) ==
      subtotal - Max(itemsDiscount, 0) + Max(cost, 0) - Max(orderDiscount, 0) +
      Max(Tax(Taxable(subtotal, itemsDiscount, cost, orderDiscount), bps), 0)
  {
    hide SignedSum, PositiveEntry, Tax, Taxable, Max;
    var taxable := Taxable(subtotal, itemsDiscount, cost, orderDiscount);
    var tax := Tax(taxable, bps);
    var e1 := [Total("subtotal", Some("Subtotal"), subtotal)];
    var e2 := PositiveEntry("items_discount", "Items discount", itemsDiscount);
    var e3 := PositiveEntry("fulfillment", "Fulfillment", cost);
    var e4 := PositiveEntry("discount", "Discount", orderDiscount);
    var e5 := PositiveEntry("tax", "Tax", tax);
    var e6 := [Total("total", Some("Total"), Max(taxable + tax, 0))];
    EntrySum("subtotal", "Subtotal", subtotal);
    EntrySum("items_discount", "Items discount", itemsDiscount);
    EntrySum("fulfillment", "Fulfillment", cost);
    EntrySum("discount", "Discount", orderDiscount);
    EntrySum("tax", "Tax", tax);
    EntrySum("total", "Total", Max(taxable + tax, 0));
    SignedSumConcat(e1, e2);
    SignedSumConcat(e1 + e2, e3);
    SignedSumConcat(e1 + e2 + e3, e4);
    SignedSumConcat(e1 + e2 + e3 + e4, e5);
    SignedSumConcat(e1 + e2 + e3 + e4 + e5, e6);
  }

  /** The amount of the entry that ends a list of totals. */
  function FinalAmount(totals: seq<Total>): int
    requires totals != []
  {
    totals[|totals| - 1].amount
  }

  /** With a non-negative rate the tax is the taxable amount times the rate, rounded down. */
  lemma TaxIsFloor(taxable: int, bps: int)
    requires 0 <= taxable && 0 <= bps
    ensures 0 <= Tax(taxable, bps) && Tax(taxable, bps) * 10_000 <= taxable * bps
    ensures taxable * bps < (Tax(taxable, bps) + 1) * 10_000
  {
    assert 0 <= taxable * bps;
  }

  /**
   The emitted total is the signed sum of the other emitted entries, entries left out counting as zero,
   exactly when no clamp is at work: the cost is not negative and neither is the amount before tax, or what
   the listed entries come to happens to be zero.
   */
  lemma TotalsAddUp(subtotal: int, itemsDiscount: int, cost: int, orderDiscount: int, bps: int)
    requires 0 <= itemsDiscount && 0 <= orderDiscount && 0 <= bps
    ensures var totals := OrderTotals(subtotal, itemsDiscount, cost, orderDiscount, bps);
      var before := subtotal - itemsDiscount + cost - orderDiscount;
      FinalAmount(totals) == SignedSum(totals) <==>
        if before >= 0 then cost >= 0 else subtotal - itemsDiscount + Max(cost, 0) - orderDiscount == 0
  {
    hide SignedSum, Tax;
    OrderTotalsSum(subtotal, itemsDiscount, cost, orderDiscount, bps);
    TaxIsFloor(Taxable(subtotal, itemsDiscount, cost, orderDiscount), bps);
    TaxOfNothing(bps);
  }

  lemma TaxOfNothing(bps: int)
    ensures Tax(0, bps) == 0
  {
  }

  function LineTotalAmounts(items: seq<LineItem>, perItem: seq<int>): (r: seq<int>)
    requires |perItem| == |items|
    ensures |r| == |items|
  {
    seq(|items|, i requires 0 <= i < |items| => FinalAmount(WithDiscount(items[i], perItem[i]).totals))
  }

  /** The line totals add up to the subtotal less the items discount exactly when no line is over-discounted. */
  lemma LineTotalsAddUp(items: seq<LineItem>, perItem: seq<int>)
    requires |perItem| == |items|
    ensures Sum(LineTotalAmounts(items, perItem)) == Sum(LineSubtotals(items)) - Sum(perItem) <==>
      NoOverDiscount(LineSubtotals(items), perItem)
  {
    hide SumTo, LineSubtotal;
    var n, s, t := |items|, LineSubtotals(items), LineTotalAmounts(items, perItem);
    SumPlus(s, perItem, n);
    var m := Minus(s, perItem);
    forall i | 0 <= i < n ensures m[i] <= t[i] && (m[i] == t[i] <==> perItem[i] <= s[i]) {
      assert t[i] == Max(s[i] - perItem[i], 0);
    }
    SumMonotone(m, t, n);
  }

  /**
   A cart with non-negative prices, fulfillment cost and tax rate on which no line is over-discounted adds up
   twice: the line totals to the subtotal less the items discount, and the entries of the order to its total.
   */
  lemma CartAddsUp(items: seq<LineItem>, codes: seq<string>, cost: int, hadCodes: bool, bps: int)
    requires NonNegative(LineSubtotals(items)) && 0 <= cost && 0 <= bps
    requires OrderOf(codes) != FiveThenTen || forall i :: 0 <= i < |items| ==>
      Split(LineSubtotals(items))[i] <= LineSubtotals(items)[i] - LineSubtotals(items)[i] / 10
    ensures var o := LegacyOutcome(items, codes, cost, hadCodes);
      var subtotal := Sum(LineSubtotals(items));
      var totals := OrderTotals(subtotal, o.itemsDiscount, cost, o.orderDiscount, bps);
      0 <= o.itemsDiscount <= subtotal && 0 <= o.orderDiscount <= cost &&
      FinalAmount(totals) == SignedSum(totals) &&
      Sum(LineTotalAmounts(items, FinalTally(LineSubtotals(items), cost, codes).perItem)) == subtotal - o.itemsDiscount
  {
    hide SumTo, LineSubtotals, FinalTally, Split, OrderOf, SignedSum, LineTotalAmounts, WithDiscounts, Tax;
    var s := LineSubtotals(items);
    var t := FinalTally(s, cost, codes);
    LineDiscountBound(s, cost, codes);
    ClosedForm(s, cost, codes);
    DiscountsAreConserved(s, cost, codes);
    SumMonotone(t.perItem, s, |s|);
    SumBounds(t.perItem, 0, |s|);
    SumZero(t.perItem);
    TotalsAddUp(Sum(s), Sum(t.perItem), cost, t.orderDiscount, bps);
    LineTotalsAddUp(items, t.perItem);
  }
}
