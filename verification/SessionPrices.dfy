/**
 What a stored session costs and what it says (src/service.rs), told from its lines, codes and fulfillment, and from the
 request that created or updated it.
 */
module SessionPrices {
  import opened Wrappers
  import opened Text
  import opened Sums
  import opened Integers
  import opened Models
  import opened Discounts
  import opened Pricing
  import opened Fulfillments
  import opened FulfillmentCosts
  import opened FulfillmentMeaning
  import opened Status
  import opened Cart
  import opened CartFacts
  import opened Checkouts
  import opened SessionFacts

  // ---------- The amounts of a session

  /** What each line costs before discounts: its price times its quantity. */
  function LineCosts(lines: seq<LineItem>): (r: seq<int>)
    ensures |r| == |lines|
  {
    seq(|lines|, i requires 0 <= i < |lines| => lines[i].item.price * lines[i].quantity)
  }

  /** The codes a session reports. */
  function ReportedCodes(c: Checkout): seq<string> {
    if c.discounts.Some? && c.discounts.value.codes.Some? then c.discounts.value.codes.value else []
  }

  /** The entries of a line of this cost with this discount. */
  ghost predicate LinePriced(line: LineItem, cost: int, discount: int) {
    AmountsOf(line.totals, "subtotal") == [cost] && AmountsOf(line.totals, "items_discount") == Listing(discount) &&
    AmountsOf(line.totals, "total") == [if cost < discount then 0 else cost - discount]
  }

  ghost predicate LinesPriced(lines: seq<LineItem>, perItem: seq<int>) {
    |perItem| == |lines| && forall i :: 0 <= i < |lines| ==>
      LinePriced(lines[i], lines[i].item.price * lines[i].quantity, perItem[i])
  }

  /** What the codes take off the lines of these costs, which are not negative. */
  ghost predicate TakenOff(costs: seq<int>, codes: seq<string>, perItem: seq<int>) {
    |perItem| == |costs| && NonNegative(perItem) &&
    ("SAVE5" !in codes ==> forall i :: 0 <= i < |costs| ==>
      perItem[i] == if "SAVE10" in codes then costs[i] / 10 else 0) &&
    Sum(perItem) == (if "SAVE10" in codes then Sum(FloorTenths(costs)) else 0) +
      (if "SAVE5" !in codes then 0
       else UpToFive(if TenFirst(codes) then Sum(costs) - Sum(FloorTenths(costs)) else Sum(costs)))
  }

  /** The entries of the session: what its lines cost, their discounts, fulfillment, its discount, tax and total. */
  ghost predicate TotalsPriced(totals: seq<Total>, subtotal: int, itemsDiscount: int, cost: int, orderDiscount: int,
      bps: int)
  {
    var x := subtotal - itemsDiscount + cost - orderDiscount;
    var rest := if x < 0 then 0 else x;
    var due := rest + TruncDiv(rest * bps, 10_000);
    EntriesAre(totals, subtotal, itemsDiscount, cost, orderDiscount, TruncDiv(rest * bps, 10_000),
      if due < 0 then 0 else due)
  }

  ghost predicate PricedFrom(cfg: Config, c: Checkout, perItem: seq<int>, cost: int) {
    LinesPriced(c.lineItems, perItem) && IsCost(c.fulfillment, cost) &&
    (NonNegative(LineCosts(c.lineItems)) ==> TakenOff(LineCosts(c.lineItems), ReportedCodes(c), perItem)) &&
    TotalsPriced(c.totals, Sum(LineCosts(c.lineItems)), Sum(perItem), cost,
      if "SHIPFREE" in ReportedCodes(c) && cost > 0 then cost else 0, cfg.taxBps)
  }

  lemma CostsAreSubtotals(lines: seq<LineItem>)
    ensures LineSubtotals(lines) == LineCosts(lines)
  {
  }

  lemma CodesAsReported(c: Checkout, cost: int)
    requires DiscountOutcome(c.lineItems, c.discounts, cost).discounts == c.discounts
    ensures CodesOf(c.discounts) == ReportedCodes(c)
  {
    hide FinalTally, LineSubtotals, WithDiscounts, NormalizeCodes, Sum;
  }

  lemma DiscountedLinesPriced(lines: seq<LineItem>, perItem: seq<int>)
    requires |perItem| == |lines| && WithDiscounts(lines, perItem) == lines
    ensures LinesPriced(lines, perItem)
  {
    hide LineTotals, AmountsOf, Listing;
    forall i | 0 <= i < |lines|
      ensures LinePriced(lines[i], lines[i].item.price * lines[i].quantity, perItem[i])
    {
      assert WithDiscounts(lines, perItem)[i] == WithDiscount(lines[i], perItem[i]);
      LineEntries(lines[i].item.price * lines[i].quantity, perItem[i]);
    }
  }

  lemma TallyTakesOff(costs: seq<int>, cost: int, codes: seq<string>)
    ensures var t := FinalTally(costs, cost, codes);
      NonNegative(costs) ==> TakenOff(costs, codes, t.perItem)
    ensures FinalTally(costs, cost, codes).orderDiscount == if "SHIPFREE" in codes && cost > 0 then cost else 0
  {
    hide FinalTally, TenFirst, Sum, OrderOf, PerItem;
    ClosedForm(costs, cost, codes);
    if NonNegative(costs) {
      CodesTakeOff(costs, cost, codes);
      DiscountsAreConserved(costs, cost, codes);
    }
  }

  /**
   The amounts of a stored session: every line costs its price times its quantity, less what the reported codes take
   off; the session the sum of its lines, and the fulfillment options selected, less the codes, plus tax.
   */
  lemma StoredSessionIsPriced(cfg: Config, catalog: Catalog, c: Checkout)
    requires CartConsistent(cfg, catalog, c)
    ensures exists perItem, cost :: PricedFrom(cfg, c, perItem, cost)
  {
    hide LegacyOutcome, LineSubtotals, DiscountOutcome, Cost, CodesOf, ReportedCodes, LinesSold, NormalFor, FinalTally,
      OrderTotals, Sum, WithDiscounts, Undiscounted, LinesPriced, TakenOff, TotalsPriced, IsCost, NonNegative;
    var cost := Cost(c.fulfillment);
    var codes := ReportedCodes(c);
    CodesAsReported(c, cost);
    CostsAreSubtotals(c.lineItems);
    var costs := LineCosts(c.lineItems);
    var t := FinalTally(costs, cost, codes);
    DiscountedLines(c.lineItems, c.discounts, cost);
    DiscountedLinesPriced(c.lineItems, t.perItem);
    CostMeans(c.fulfillment);
    TallyTakesOff(costs, cost, codes);
    OutcomeOfCodes(c.lineItems, c.discounts, cost);
    OutcomeAmounts(c.lineItems, codes, cost, c.discounts.Some? && c.discounts.value.codes.Some?);
    TotalsArePriced(Sum(costs), Sum(t.perItem), cost, t.orderDiscount, cfg.taxBps);
    assert PricedFrom(cfg, c, t.perItem, cost);
  }

  lemma OutcomeAmounts(lines: seq<LineItem>, codes: seq<string>, cost: int, hadCodes: bool)
    ensures var o, t := LegacyOutcome(lines, codes, cost, hadCodes), FinalTally(LineSubtotals(lines), cost, codes);
      o.itemsDiscount == Sum(t.perItem) && o.orderDiscount == t.orderDiscount
  {
    hide LineSubtotals, FinalTally, WithDiscounts, Sum;
  }

  lemma TotalsArePriced(subtotal: int, itemsDiscount: int, cost: int, orderDiscount: int, bps: int)
    ensures TotalsPriced(OrderTotals(subtotal, itemsDiscount, cost, orderDiscount, bps), subtotal, itemsDiscount, cost,
      orderDiscount, bps)
  {
    hide OrderTotals, EntriesAre, TruncDiv;
    OrderEntries(subtotal, itemsDiscount, cost, orderDiscount, bps);
  }

  // ---------- The session of a request

  /** What the lines asked for cost, at the prices of the catalog. */
  function AskedCosts(catalog: Catalog, s: seq<LineItemInput>): (r: seq<int>)
    ensures |r| == |s|
  {
    seq(|s|, i requires 0 <= i < |s| =>
      if s[i].itemId in catalog then catalog[s[i].itemId].price * s[i].quantity else 0)
  }

  /**
   The session has the lines asked for, each listing its price in the catalog times the quantity asked for as its
   subtotal, and lists the sum of these as its own.
   */
  ghost predicate Answers(catalog: Catalog, s: seq<LineItemInput>, c: Checkout) {
    AreAskedFor(catalog, s, c.lineItems) &&
    (forall i :: 0 <= i < |s| ==>
      AmountsOf(c.lineItems[i].totals, "subtotal") == [catalog[s[i].itemId].price * s[i].quantity]) &&
    AmountsOf(c.totals, "subtotal") == [Sum(AskedCosts(catalog, s))]
  }

  lemma PricedAnswers(cfg: Config, catalog: Catalog, s: seq<LineItemInput>, c: Checkout, perItem: seq<int>, cost: int)
    requires PricedFrom(cfg, c, perItem, cost) && AreAskedFor(catalog, s, c.lineItems)
    ensures Answers(catalog, s, c)
  {
    hide Sum, TakenOff, IsCost, AmountsOf, Trim, IsBlank;
    assert LineCosts(c.lineItems) == AskedCosts(catalog, s);
    forall i | 0 <= i < |s|
      ensures AmountsOf(c.lineItems[i].totals, "subtotal") == [catalog[s[i].itemId].price * s[i].quantity]
    {
      assert LinePriced(c.lineItems[i], c.lineItems[i].item.price * c.lineItems[i].quantity, perItem[i]);
      assert IsAskedFor(catalog, s[i], c.lineItems[i]);
    }
  }

  lemma RequestIsAnswered(cfg: Config, catalog: Catalog, q: CartRequest, fulfillment: Option<Fulfillment>,
      discounts: Option<DiscountsObject>, n: nat)
    requires Orderable(catalog, q.lineItems)
    ensures AreAskedFor(catalog, q.lineItems, EvaluateRequest(cfg, catalog, q, fulfillment, discounts, n).lines)
  {
    hide Evaluate, NewLines, AreAskedFor, Orderable;
    NewLinesAreAskedFor(catalog, q.lineItems, n);
    EvaluationKeepsAskedFor(catalog, q.lineItems, NewLines(catalog, q.lineItems, n).0, cfg, fulfillment, discounts,
      NewLines(catalog, q.lineItems, n).1);
  }

  /** Codes are those asked for that are not blank, trimmed and in upper case. */
  ghost predicate CodesFrom(asked: Option<DiscountsObject>, c: Checkout) {
    if asked.None? || asked.value.codes.None? then ReportedCodes(c) == []
    else exists at :: CodesAt(ReportedCodes(c), asked.value.codes.value, at)
  }

  /** What was asked for is normalized for the lines of the session, known by their ids. */
  ghost predicate FulfilledFrom(asked: Option<Fulfillment>, c: Checkout) {
    c.fulfillment.Some? == asked.Some? &&
    (asked.Some? ==> FulfillmentFrom(asked.value, c.fulfillment.value, IdsOf(c.lineItems)))
  }

  function IdsOf(lines: seq<LineItem>): (r: seq<string>)
    ensures r == LineIdsOf(lines)
  {
    seq(|lines|, i requires 0 <= i < |lines| => lines[i].id)
  }

  /** The request selects an instrument, or keeps the selection of the session, or there is just one to select. */
  ghost predicate PaidFrom(cfg: Config, q: PaymentRequest, was: Option<Payment>, p: Payment) {
    p.handlers == cfg.handlers && p.extra == q.extra &&
    p.instruments == (
      if q.instruments.Some? || q.selected.Some? || was.None? then q.instruments else was.value.instruments) &&
    p.selected ==
      if q.selected.Some? then q.selected
      else if was.Some? && was.value.selected.Some? then was.value.selected
      else if p.instruments.Some? && |p.instruments.value| == 1 then Some(p.instruments.value[0].id)
      else None
  }

  /** What a session takes from the request, and from the session it replaces. */
  ghost predicate SessionFrom(cfg: Config, catalog: Catalog, q: CartRequest, was: Option<Checkout>, c: Checkout) {
    Answers(catalog, q.lineItems, c) &&
    IsUpperOf(c.currency, Trim(q.currency)) && c.links == cfg.links && c.order.None? &&
    c.buyer == (if q.buyer.Some? || was.None? then q.buyer else was.value.buyer) &&
    CodesFrom(if q.discounts.Some? || was.None? then q.discounts else was.value.discounts, c) &&
    FulfilledFrom(if q.fulfillment.Some? || was.None? then q.fulfillment else was.value.fulfillment, c) &&
    PaidFrom(cfg, q.payment, if was.None? then None else Some(was.value.payment), c.payment)
  }

  lemma EvaluatedCodes(cfg: Config, lines: seq<LineItem>, fulfillment: Option<Fulfillment>,
      asked: Option<DiscountsObject>, n: nat, c: Checkout)
    requires c.discounts == Evaluate(cfg, lines, fulfillment, asked, n).discounts
    ensures CodesFrom(asked, c)
  {
    hide FinalTally, LineSubtotals, WithDiscounts, NormalizeCodes, Sum, BuiltOptional, OrderTotals, Cost, CodesAt;
    if asked.Some? && asked.value.codes.Some? {
      var at := CodesAreThoseEntered(asked.value.codes.value);
      assert ReportedCodes(c) == NormalizeCodes(asked.value.codes.value);
    }
  }

  lemma EvaluatedFulfillment(cfg: Config, catalog: Catalog, lines: seq<LineItem>, asked: Option<Fulfillment>,
      discounts: Option<DiscountsObject>, n: nat, c: Checkout)
    requires c.fulfillment == Evaluate(cfg, lines, asked, discounts, n).fulfillment
    requires c.lineItems == Evaluate(cfg, lines, asked, discounts, n).lines
    ensures FulfilledFrom(asked, c)
  {
    hide DiscountOutcome, Built, OrderTotals, Cost, LineIdsOf, FulfillmentFrom, LineSubtotals, Sum;
    OutcomeKeeps(catalog, lines, discounts, Cost(c.fulfillment));
    if asked.Some? { BuiltMeans(asked.value, LineIdsOf(lines), n); }
  }

  lemma PaymentMeans(cfg: Config, q: PaymentRequest, was: Option<Payment>)
    ensures PaidFrom(cfg, q, was, AutoSelect(PaymentFor(cfg, q, was)))
  {
  }

  /** The cart of a session evaluated from the request. */
  lemma EvaluatedAnswers(cfg: Config, catalog: Catalog, q: CartRequest, fulfillment: Option<Fulfillment>,
      discounts: Option<DiscountsObject>, n: nat, c: Checkout)
    requires Orderable(catalog, q.lineItems) && CartConsistent(cfg, catalog, c)
    requires var e := EvaluateRequest(cfg, catalog, q, fulfillment, discounts, n);
      c.lineItems == e.lines && c.fulfillment == e.fulfillment && c.discounts == e.discounts
    ensures Answers(catalog, q.lineItems, c) && CodesFrom(discounts, c) && FulfilledFrom(fulfillment, c)
  {
    hide Evaluate, NewLines, Priced, NormalFor, LinesSold, Answers, AreAskedFor, PricedFrom, Orderable, CodesFrom,
      FulfilledFrom;
    var (lines, n1) := NewLines(catalog, q.lineItems, n);
    RequestIsAnswered(cfg, catalog, q, fulfillment, discounts, n);
    StoredSessionIsPriced(cfg, catalog, c);
    var perItem, cost :| PricedFrom(cfg, c, perItem, cost);
    PricedAnswers(cfg, catalog, q.lineItems, c, perItem, cost);
    EvaluatedCodes(cfg, lines, fulfillment, discounts, n1, c);
    EvaluatedFulfillment(cfg, catalog, lines, fulfillment, discounts, n1, c);
  }

  /** A created session has everything the request asks for, at the prices of the catalog. */
  lemma NewSessionMeans(cfg: Config, catalog: Catalog, q: CartRequest, expiry: string, n: nat)
    requires Orderable(catalog, q.lineItems)
    ensures var c := NewSession(cfg, catalog, q, expiry, n).0;
      SessionFrom(cfg, catalog, q, None, c) && c.expiresAt == expiry && c.extra == q.extra
  {
    hide Consistent, EvaluateRequest, WithStatus, AuthorizationFor, PaymentFor, NormalCurrency, Orderable, FreshId,
      UcpMeta.ResponseMeta, Answers, CodesFrom, FulfilledFrom, PaidFrom, IsUpperOf, AutoSelect;
    NewSessionIsConsistent(cfg, catalog, q, expiry, n);
    var c := NewSession(cfg, catalog, q, expiry, n).0;
    ConsistentCart(cfg, catalog, c);
    var e := EvaluateRequest(cfg, catalog, q, q.fulfillment, q.discounts, n);
    StatusChangesOnly(cfg, Draft(cfg, e, FreshId("chk_", e.next), q.buyer, NormalCurrency(q.currency),
      PaymentFor(cfg, q.payment, None), expiry, q.extra));
    EvaluatedAnswers(cfg, catalog, q, q.fulfillment, q.discounts, n, c);
    PaymentMeans(cfg, q.payment, None);
    CurrencyAcceptedIff(q.currency);
  }

  lemma ConsistentCart(cfg: Config, catalog: Catalog, c: Checkout)
    requires Consistent(cfg, catalog, c)
    ensures CartConsistent(cfg, catalog, c)
  {
  }

  /** An updated session has what the request asks for, and keeps of the session what the request leaves out. */
  lemma UpdatedSessionMeans(cfg: Config, catalog: Catalog, was: Checkout, q: CartRequest, n: nat)
    requires Orderable(catalog, q.lineItems)
    ensures var c := UpdatedSession(cfg, catalog, was, q, n).0;
      SessionFrom(cfg, catalog, q, Some(was), c) && c.expiresAt == was.expiresAt &&
      forall k :: (k in c.extra <==> k in q.extra || k in was.extra) &&
        (k in c.extra ==> c.extra[k] == if k in q.extra then q.extra[k] else was.extra[k])
  {
    hide Consistent, EvaluateRequest, WithStatus, AuthorizationFor, PaymentFor, NormalCurrency, Orderable, FreshId,
      UcpMeta.ResponseMeta, Answers, CodesFrom, FulfilledFrom, PaidFrom, IsUpperOf, AutoSelect;
    UpdatedSessionIsConsistent(cfg, catalog, was, q, n);
    var c := UpdatedSession(cfg, catalog, was, q, n).0;
    ConsistentCart(cfg, catalog, c);
    var f, d := FirstOf(q.fulfillment, was.fulfillment), FirstOf(q.discounts, was.discounts);
    var e := EvaluateRequest(cfg, catalog, q, f, d, n);
    StatusChangesOnly(cfg, Draft(cfg, e, was.id, FirstOf(q.buyer, was.buyer), NormalCurrency(q.currency),
      PaymentFor(cfg, q.payment, Some(was.payment)), was.expiresAt, was.extra + q.extra));
    EvaluatedAnswers(cfg, catalog, q, f, d, n, c);
    PaymentMeans(cfg, q.payment, Some(was.payment));
    CurrencyAcceptedIff(q.currency);
  }
}
