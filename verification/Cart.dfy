/**
 Evaluation of a cart (src/service.rs, src/validation.rs, src/catalog.rs): lines, fulfillment, discounts and totals.
 */
module Cart {
  import opened Wrappers
  import opened Text
  import opened Sums
  import opened Models
  import opened Discounts
  import opened Pricing
  import opened Fulfillments

  type Catalog = map<string, Product>

  // ---------- Validation

  predicate IsLetter(c: char) { 'a' <= c <= 'z' || 'A' <= c <= 'Z' }

  function CurrencyError(currency: string): Option<ServiceError> {
    var t := Trim(currency);
    if |t| != 3 || exists i :: 0 <= i < |t| && !IsLetter(t[i]) then
      Some(InvalidInput("Currency must be a 3-letter ISO 4217 code"))
    else None
  }

  function NormalCurrency(currency: string): string { Upper(Trim(currency)) }

  /** The first thing wrong with a requested line, in the order the program looks for it. */
  function LineError(catalog: Catalog, x: LineItemInput, currency: string): (e: Option<ServiceError>)
    ensures e.None? ==> x.itemId in catalog && 0 < x.quantity
  {
    if x.quantity <= 0 then Some(InvalidInput("Quantity must be greater than 0"))
    else if x.itemId !in catalog then Some(InvalidInput("Unknown item id " + x.itemId))
    else
      var p := catalog[x.itemId];
      if x.quantity > p.inventory then
        Some(InvalidInput("Item " + x.itemId + " has only " + IntText(p.inventory) + " units remaining"))
      else if Upper(p.currency) != currency then
        Some(InvalidInput("Item " + p.id + " uses currency " + p.currency + ", expected " + currency))
      else None
  }

  function LinesError(catalog: Catalog, s: seq<LineItemInput>, currency: string): Option<ServiceError> {
    if s == [] then None else FirstOf(LineError(catalog, s[0], currency), LinesError(catalog, s[1..], currency))
  }

  /** Every requested item is in the catalog, in a positive quantity. */
  predicate Orderable(catalog: Catalog, s: seq<LineItemInput>) {
    forall i :: 0 <= i < |s| ==> s[i].itemId in catalog && 0 < s[i].quantity
  }

  lemma {:induction false} NoErrorOrderable(catalog: Catalog, s: seq<LineItemInput>, currency: string)
    requires LinesError(catalog, s, currency).None?
    ensures Orderable(catalog, s)
  {
    hide LineError;
    if s != [] { NoErrorOrderable(catalog, s[1..], currency); }
  }

  /** A line can be ordered: a known item with enough stock, in the currency of the cart. */
  predicate CanOrder(catalog: Catalog, x: LineItemInput, currency: string) {
    0 < x.quantity && x.itemId in catalog && x.quantity <= catalog[x.itemId].inventory &&
    Upper(catalog[x.itemId].currency) == currency
  }

  /** Line `i` is the first that cannot be ordered, and its fault is the one reported. */
  ghost predicate IsFirstFault(catalog: Catalog, s: seq<LineItemInput>, currency: string, i: int) {
    0 <= i < |s| && LinesError(catalog, s, currency) == LineError(catalog, s[i], currency) &&
    !CanOrder(catalog, s[i], currency) && forall k :: 0 <= k < i ==> CanOrder(catalog, s[k], currency)
  }

  /** Lines are accepted exactly when each can be ordered; otherwise the first that cannot is reported. */
  lemma {:induction false} LinesAcceptedIff(catalog: Catalog, s: seq<LineItemInput>, currency: string)
    ensures LinesError(catalog, s, currency).None? <==> forall i :: 0 <= i < |s| ==> CanOrder(catalog, s[i], currency)
    ensures LinesError(catalog, s, currency).Some? ==> exists i :: IsFirstFault(catalog, s, currency, i)
  {
    hide Upper;
    if s != [] {
      LinesAcceptedIff(catalog, s[1..], currency);
      assert LineError(catalog, s[0], currency).None? <==> CanOrder(catalog, s[0], currency);
      if LinesError(catalog, s[1..], currency).Some? && CanOrder(catalog, s[0], currency) {
        var i :| IsFirstFault(catalog, s[1..], currency, i);
        assert IsFirstFault(catalog, s, currency, i + 1) by {
          assert forall k :: 0 < k < i + 1 ==> s[k] == s[1..][k - 1];
        }
      } else if !CanOrder(catalog, s[0], currency) {
        assert IsFirstFault(catalog, s, currency, 0);
      }
    }
  }

  // ---------- Lines

  /** The trimmed identifier of the request, or one from the supply. */
  function LineId(id: Option<string>, n: nat): (r: (string, nat))
    ensures n <= r.1
  {
    if Missing(id) then (FreshId("li_", n), n + 1) else (Trim(id.value), n)
  }

  function NewLine(catalog: Catalog, x: LineItemInput, id: string): LineItem
    requires x.itemId in catalog
  {
    var p := catalog[x.itemId];
    var item := Item(p.id, p.title, p.price, p.imageUrl, x.itemExtra);
    var line := LineItem(id, item, x.quantity, [], x.parentId, x.extra);
    WithDiscount(line, 0)
  }

  function NewLines(catalog: Catalog, s: seq<LineItemInput>, n: nat): (r: (seq<LineItem>, nat))
    requires Orderable(catalog, s)
    ensures |r.0| == |s| && n <= r.1
    decreases s
  {
    if s == [] then ([], n) else
    var (id, n1) := LineId(s[0].id, n);
    var (rest, n2) := NewLines(catalog, s[1..], n1);
    ([NewLine(catalog, s[0], id)] + rest, n2)
  }

  method BuildLineItems(catalog: Catalog, items: seq<LineItemInput>, currency: string, supply: nat)
      returns (r: Result<seq<LineItem>, ServiceError>, n: nat)
    ensures r.Err? <==> LinesError(catalog, items, currency).Some?
    ensures r.Err? ==> r.error == LinesError(catalog, items, currency).value
    ensures r.Ok? ==> Orderable(catalog, items)
    ensures r.Ok? ==> r.value == NewLines(catalog, items, supply).0 && n == NewLines(catalog, items, supply).1
  {
    hide LineError, NewLine, LineId;
    n := supply;
    var lines: seq<LineItem> := [];
    ghost var all := LinesError(catalog, items, currency);
    if all.None? { NoErrorOrderable(catalog, items, currency); }
    for i := 0 to |items|
      invariant all == LinesError(catalog, items[i..], currency)
      invariant all.None? ==> Orderable(catalog, items[i..]) && Orderable(catalog, items)
      invariant all.None? ==> NewLines(catalog, items, supply).0 == lines + NewLines(catalog, items[i..], n).0
      invariant all.None? ==> NewLines(catalog, items, supply).1 == NewLines(catalog, items[i..], n).1
    {
      var e := LineError(catalog, items[i], currency);
      assert items[i..][1..] == items[i + 1..];
      if e.Some? { return Err(e.value), n; }
      var (id, n') := LineId(items[i].id, n);
      lines := lines + [NewLine(catalog, items[i], id)];
      n := n';
    }
    r := Ok(lines);
  }

  function LineIdsOf(s: seq<LineItem>): (r: seq<string>)
    ensures |r| == |s|
  {
    seq(|s|, i requires 0 <= i < |s| => s[i].id)
  }

  // ---------- The whole cart

  datatype Evaluation = Evaluation(
    lines: seq<LineItem>, fulfillment: Option<Fulfillment>, discounts: Option<DiscountsObject>, totals: seq<Total>,
    next: nat)

  function Evaluate(cfg: Config, lines: seq<LineItem>, fulfillment: Option<Fulfillment>,
      discounts: Option<DiscountsObject>, n: nat): Evaluation
  {
    var (f, n') := BuiltOptional(fulfillment, LineIdsOf(lines), n);
    var o := DiscountOutcome(lines, discounts, Cost(f));
    Evaluation(o.lines, f, o.discounts,
      OrderTotals(Sum(LineSubtotals(o.lines)), o.itemsDiscount, Cost(f), o.orderDiscount, cfg.taxBps), n')
  }

  /** No intermediate amount of the evaluation leaves the 64-bit range. */
  predicate EvaluationFits(cfg: Config, lines: seq<LineItem>, fulfillment: Option<Fulfillment>,
      discounts: Option<DiscountsObject>, n: nat)
  {
    var cost := Cost(BuiltOptional(fulfillment, LineIdsOf(lines), n).0);
    var o := DiscountOutcome(lines, discounts, cost);
    PricesFit(LineSubtotals(lines)) &&
    AmountsFit(Sum(LineSubtotals(o.lines)), o.itemsDiscount, cost, o.orderDiscount, cfg.taxBps)
  }

  method ApplyDiscounts(lines: seq<LineItem>, discounts: Option<DiscountsObject>, cost: int) returns (o: Outcome)
    requires PricesFit(LineSubtotals(lines))
    ensures o == DiscountOutcome(lines, discounts, cost)
  {
    hide LegacyOutcome, PricesFit;
    if discounts.None? { return Outcome(lines, None, 0, 0); }
    var hadCodes := discounts.value.codes.Some?;
    var raw := if hadCodes then discounts.value.codes.value else [];
    o := ApplyLegacyDiscounts(lines, NormalizeCodes(raw), cost, hadCodes);
  }

  method EvaluateCart(cfg: Config, lines: seq<LineItem>, fulfillment: Option<Fulfillment>,
      discounts: Option<DiscountsObject>, supply: nat) returns (e: Evaluation)
    requires EvaluationFits(cfg, lines, fulfillment, discounts, supply)
    ensures e == Evaluate(cfg, lines, fulfillment, discounts, supply)
  {
    hide PricesFit, AmountsFit, BuiltOptional, Cost, OrderTotals, DiscountOutcome, LineSubtotals, Sum, LineIdsOf;
    var f, cost, n := BuildFulfillment(fulfillment, LineIdsOf(lines), supply);
    var o := ApplyDiscounts(lines, discounts, cost);
    var totals := CalculateTotals(o.lines, o.itemsDiscount, cost, o.orderDiscount, cfg.taxBps);
    e := Evaluation(o.lines, f, o.discounts, totals, n);
  }

  // ---------- An evaluated cart is a fixed point

  lemma {:induction false} TrimEndTwice(s: string)
    ensures TrimEnd(TrimEnd(s)) == TrimEnd(s)
    ensures TrimEnd(s) <= s
    ensures TrimEnd(s) != "" ==> !IsSpace(TrimEnd(s)[|TrimEnd(s)| - 1])
  {
    if s != "" && IsSpace(s[|s| - 1]) { TrimEndTwice(s[..|s| - 1]); }
  }

  lemma {:induction false} TrimStartEnds(s: string)
    ensures TrimStart(s) != "" ==> !IsSpace(TrimStart(s)[0])
  {
    if s != "" && IsSpace(s[0]) { TrimStartEnds(s[1..]); }
  }

  lemma UpperKeepsTrimmed(s: string)
    ensures Trim(Upper(Trim(s))) == Upper(Trim(s))
  {
    var t := Trim(s);
    var u := Upper(t);
    TrimStartEnds(s);
    TrimEndTwice(TrimStart(s));
    if t != "" {
      assert t[0] == TrimStart(s)[0];
      assert !IsSpace(t[0]) && !IsSpace(t[|t| - 1]);
      assert !IsSpace(u[0]) && !IsSpace(u[|u| - 1]);
      assert TrimStart(u) == u && TrimEnd(u) == u;
    }
  }

  lemma UpperTwice(s: string)
    ensures Upper(Upper(s)) == Upper(s)
  {
  }

  /** Normalizing codes twice is normalizing them once. */
  lemma {:induction false} NormalizeCodesTwice(raw: seq<string>)
    ensures NormalizeCodes(NormalizeCodes(raw)) == NormalizeCodes(raw)
  {
    hide Trim, Upper;
    if raw != [] {
      NormalizeCodesTwice(raw[1..]);
      var code := Upper(Trim(raw[0]));
      UpperKeepsTrimmed(raw[0]);
      UpperTwice(Trim(raw[0]));
      var rest := NormalizeCodes(raw[1..]);
      assert ([code] + rest)[1..] == rest;
      assert [] + rest == rest;
    }
  }

  /** Totals of a line do not depend on the totals it had before. */
  lemma WithDiscountsAgain(lines: seq<LineItem>, first: seq<int>, again: seq<int>)
    requires |first| == |lines| && |again| == |lines|
    ensures WithDiscounts(WithDiscounts(lines, first), again) == WithDiscounts(lines, again)
    ensures LineSubtotals(WithDiscounts(lines, first)) == LineSubtotals(lines)
  {
    hide LineTotals;
    assert forall i :: 0 <= i < |lines| ==> LineSubtotal(WithDiscount(lines[i], first[i])) == LineSubtotal(lines[i]);
  }

  /** Lines that carry the totals of an undiscounted line. */
  ghost predicate Undiscounted(lines: seq<LineItem>) {
    forall i :: 0 <= i < |lines| ==> lines[i] == WithDiscount(lines[i], 0)
  }

  /**
   Discounting what was discounted changes nothing: the codes are reported in the form in which they are
   applied, and line totals are always computed afresh.
   */
  lemma OutcomeTwice(lines: seq<LineItem>, discounts: Option<DiscountsObject>, cost: int)
    requires Undiscounted(lines)
    ensures var o := DiscountOutcome(lines, discounts, cost);
      DiscountOutcome(o.lines, o.discounts, cost) == o && LineSubtotals(o.lines) == LineSubtotals(lines) &&
      (o.discounts.None? ==> Undiscounted(o.lines))
  {
    hide FinalTally, WithDiscount, LineSubtotals, Sum, NormalizeCodes;
    if discounts.Some? {
      var d := discounts.value;
      var raw := if d.codes.Some? then d.codes.value else [];
      var codes := NormalizeCodes(raw);
      NormalizeCodesTwice(raw);
      var t := FinalTally(LineSubtotals(lines), cost, codes);
      WithDiscountsAgain(lines, t.perItem, t.perItem);
      if d.codes.None? { NoCodesNoDiscount(lines, cost); }
    }
  }

  lemma NoCodesNoDiscount(lines: seq<LineItem>, cost: int)
    requires Undiscounted(lines)
    ensures NormalizeCodes([]) == []
    ensures LegacyOutcome(lines, [], cost, false) == Outcome(lines, None, 0, 0)
  {
    hide WithDiscount, LineSubtotals;
    var t := FinalTally(LineSubtotals(lines), cost, []);
    assert t.perItem == Zero(|lines|) && t.applied == [] && t.orderDiscount == 0;
    SumPlus(t.perItem, t.perItem, |lines|);
    assert WithDiscounts(lines, t.perItem) == lines;
  }

  lemma {:induction false} NewLinesUndiscounted(catalog: Catalog, s: seq<LineItemInput>, n: nat)
    requires Orderable(catalog, s)
    ensures Undiscounted(NewLines(catalog, s, n).0)
    decreases s
  {
    hide LineTotals, LineId, Missing;
    if s != [] { NewLinesUndiscounted(catalog, s[1..], LineId(s[0].id, n).1); }
  }
}
