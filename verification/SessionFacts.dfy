/**
 What every stored session satisfies (src/service.rs): evaluating it again, as a cart, for its status or for its
 authorization, gives back what is stored.
 */
module SessionFacts {
  import opened Wrappers
  import opened Sums
  import opened Integers
  import opened Models
  import opened Discounts
  import opened Pricing
  import opened Fulfillments
  import opened FulfillmentFacts
  import opened Status
  import opened UcpMeta
  import opened Cart
  import opened Checkouts

  // ---------- The invariant

  /** A product of the catalog, at its price. */
  ghost predicate IsSold(catalog: Catalog, item: Item) {
    exists k :: k in catalog && var p := catalog[k];
      item == Item(p.id, p.title, p.price, p.imageUrl, item.extra)
  }

  ghost predicate LinesSold(catalog: Catalog, lines: seq<LineItem>) {
    forall i :: 0 <= i < |lines| ==> 0 < lines[i].quantity && IsSold(catalog, lines[i].item)
  }

  /** Line totals, reported discounts and totals are those the lines, codes and fulfillment call for. */
  ghost predicate Priced(cfg: Config, lines: seq<LineItem>, fulfillment: Option<Fulfillment>,
      discounts: Option<DiscountsObject>, totals: seq<Total>)
  {
    var cost := Cost(fulfillment);
    var o := DiscountOutcome(lines, discounts, cost);
    o.lines == lines && o.discounts == discounts && (discounts.None? ==> Undiscounted(lines)) &&
    totals == OrderTotals(Sum(LineSubtotals(lines)), o.itemsDiscount, cost, o.orderDiscount, cfg.taxBps)
  }

  ghost predicate NormalFor(fulfillment: Option<Fulfillment>, lines: seq<LineItem>) {
    fulfillment.Some? ==> IsNormal(fulfillment.value, LineIdsOf(lines))
  }

  ghost predicate CartConsistent(cfg: Config, catalog: Catalog, c: Checkout) {
    Priced(cfg, c.lineItems, c.fulfillment, c.discounts, c.totals) && NormalFor(c.fulfillment, c.lineItems) &&
    LinesSold(catalog, c.lineItems)
  }

  /** The authorization, if it is a signature, covers a session that was not canceled. */
  ghost predicate SignedOpen(a: Option<Authorization>) {
    a.Some? && a.value.Signature? ==> a.value.body.status != Canceled
  }

  ghost predicate StatusConsistent(cfg: Config, c: Checkout) {
    if c.status == Completed then
      c.order.Some? && c.messages.None? && c.continueUrl.None? && IsReady(c) && c.ap2 == AuthorizationFor(cfg, c)
    else if c.status == Canceled then
      c.order.None? && c.messages.None? && c.ap2.Some? == AuthorizationFor(cfg, c).Some? && SignedOpen(c.ap2) &&
      (cfg.ap2Authorization.Some? ==> c.ap2 == AuthorizationFor(cfg, c))
    else Settled(cfg, c) && c.order.None? && c.ap2 == AuthorizationFor(cfg, c)
  }

  ghost predicate Consistent(cfg: Config, catalog: Catalog, c: Checkout) {
    CartConsistent(cfg, catalog, c) && MetaAgrees(cfg, c) && StatusConsistent(cfg, c)
  }

  // ---------- Carts

  lemma WithDiscountsKeeps(catalog: Catalog, lines: seq<LineItem>, perItem: seq<int>)
    requires |perItem| == |lines|
    ensures LineIdsOf(WithDiscounts(lines, perItem)) == LineIdsOf(lines)
    ensures LinesSold(catalog, lines) ==> LinesSold(catalog, WithDiscounts(lines, perItem))
  {
    hide LineTotals, IsSold;
  }

  lemma OutcomeKeeps(catalog: Catalog, lines: seq<LineItem>, discounts: Option<DiscountsObject>, cost: int)
    ensures var o := DiscountOutcome(lines, discounts, cost);
      LineIdsOf(o.lines) == LineIdsOf(lines) && (LinesSold(catalog, lines) ==> LinesSold(catalog, o.lines))
  {
    hide WithDiscounts, FinalTally, LinesSold, LineIdsOf, NormalizeCodes, LineSubtotals, Sum;
    if discounts.Some? {
      var codes := NormalizeCodes(if discounts.value.codes.Some? then discounts.value.codes.value else []);
      WithDiscountsKeeps(catalog, lines, FinalTally(LineSubtotals(lines), cost, codes).perItem);
    }
  }

  /** An evaluated cart is priced and normal, whatever the request said about totals, discounts and fulfillment. */
  lemma EvaluatedIsConsistent(cfg: Config, catalog: Catalog, lines: seq<LineItem>, fulfillment: Option<Fulfillment>,
      discounts: Option<DiscountsObject>, n: nat)
    requires Undiscounted(lines) && LinesSold(catalog, lines)
    ensures var e := Evaluate(cfg, lines, fulfillment, discounts, n);
      Priced(cfg, e.lines, e.fulfillment, e.discounts, e.totals) && NormalFor(e.fulfillment, e.lines) &&
      LinesSold(catalog, e.lines)
  {
    hide DiscountOutcome, Built, IsNormal, Cost, OrderTotals, LineSubtotals, Sum, LineIdsOf, LinesSold, Undiscounted;
    var f := BuiltOptional(fulfillment, LineIdsOf(lines), n).0;
    if fulfillment.Some? { BuiltIsNormal(fulfillment.value, LineIdsOf(lines), n); }
    OutcomeTwice(lines, discounts, Cost(f));
    OutcomeKeeps(catalog, lines, discounts, Cost(f));
  }

  lemma {:induction false} NewLinesSold(catalog: Catalog, s: seq<LineItemInput>, n: nat)
    requires Orderable(catalog, s)
    ensures LinesSold(catalog, NewLines(catalog, s, n).0)
    decreases s
  {
    hide LineId, IsSold;
    if s != [] {
      NewLineSold(catalog, s[0], LineId(s[0].id, n).0);
      NewLinesSold(catalog, s[1..], LineId(s[0].id, n).1);
    }
  }

  lemma NewLineSold(catalog: Catalog, x: LineItemInput, id: string)
    requires x.itemId in catalog
    ensures IsSold(catalog, NewLine(catalog, x, id).item)
  {
    hide LineTotals;
    assert x.itemId in catalog;
  }

  lemma RequestIsConsistent(cfg: Config, catalog: Catalog, q: CartRequest, fulfillment: Option<Fulfillment>,
      discounts: Option<DiscountsObject>, n: nat)
    requires Orderable(catalog, q.lineItems)
    ensures var e := EvaluateRequest(cfg, catalog, q, fulfillment, discounts, n);
      Priced(cfg, e.lines, e.fulfillment, e.discounts, e.totals) && NormalFor(e.fulfillment, e.lines) &&
      LinesSold(catalog, e.lines)
  {
    hide Evaluate, NewLines, LinesSold, Undiscounted, Priced, NormalFor, Orderable;
    NewLinesUndiscounted(catalog, q.lineItems, n);
    NewLinesSold(catalog, q.lineItems, n);
    var (lines, n1) := NewLines(catalog, q.lineItems, n);
    EvaluatedIsConsistent(cfg, catalog, lines, fulfillment, discounts, n1);
  }

  /** A stored session is a fixed point of evaluation: nothing is priced, discounted or normalized differently later. */
  lemma SessionIsFixedPoint(cfg: Config, catalog: Catalog, c: Checkout, n: nat)
    requires CartConsistent(cfg, catalog, c)
    ensures Evaluate(cfg, c.lineItems, c.fulfillment, c.discounts, n) ==
      Evaluation(c.lineItems, c.fulfillment, c.discounts, c.totals, n)
  {
    hide DiscountOutcome, Built, IsNormal, Cost, OrderTotals, LineSubtotals, Sum, LineIdsOf, LinesSold, RealignAll;
    if c.fulfillment.Some? {
      RebuiltNormal(c.fulfillment.value, LineIdsOf(c.lineItems), LineIdsOf(c.lineItems), n);
    }
  }

  // ---------- Sessions

  /** A draft, evaluated for its status and signed, is consistent when its cart is. */
  lemma DraftIsConsistent(cfg: Config, catalog: Catalog, e: Evaluation, id: string, buyer: Option<Buyer>,
      currency: string, payment: Payment, expiresAt: string, extra: Extra)
    requires Priced(cfg, e.lines, e.fulfillment, e.discounts, e.totals) && NormalFor(e.fulfillment, e.lines)
    requires LinesSold(catalog, e.lines)
    ensures var c := Signed(cfg, WithStatus(cfg, Draft(cfg, e, id, buyer, currency, payment, expiresAt, extra)));
      Consistent(cfg, catalog, c) && !Terminal(c.status) && c.id == id
  {
    hide Priced, NormalFor, LinesSold, StatusConsistent, ResponseMeta, WithStatus, AuthorizationFor, HasConsent;
    var draft := Draft(cfg, e, id, buyer, currency, payment, expiresAt, extra);
    StatusChangesOnly(cfg, draft);
    SignedIsStatusConsistent(cfg, draft);
  }

  /** What the status evaluator leaves alone. */
  lemma StatusChangesOnly(cfg: Config, c: Checkout)
    ensures var r := WithStatus(cfg, c);
      r.payment == AutoSelect(c.payment) &&
      r == c.(payment := r.payment, status := r.status, messages := r.messages, continueUrl := r.continueUrl) &&
      !Terminal(r.status)
  {
    hide DueMessages, Escalates, AutoSelect;
  }

  lemma SignedIsStatusConsistent(cfg: Config, draft: Checkout)
    requires draft.order.None?
    ensures var c := Signed(cfg, WithStatus(cfg, draft));
      StatusConsistent(cfg, c) && (c.ap2.Some? ==> cfg.ap2Enabled)
  {
    hide WithStatus, Settled;
    StatusIsStable(cfg, draft);
    StatusChangesOnly(cfg, draft);
    SignedStaysSettled(cfg, WithStatus(cfg, draft));
  }

  lemma SignedStaysSettled(cfg: Config, c: Checkout)
    requires Settled(cfg, c)
    ensures Settled(cfg, Signed(cfg, c))
    ensures AuthorizationFor(cfg, Signed(cfg, c)) == Signed(cfg, c).ap2
  {
    hide DueMessages, Escalates, AutoSelect;
  }

  lemma NewSessionIsConsistent(cfg: Config, catalog: Catalog, q: CartRequest, expiry: string, n: nat)
    requires Orderable(catalog, q.lineItems)
    ensures var (c, n') := NewSession(cfg, catalog, q, expiry, n);
      Consistent(cfg, catalog, c) && !Terminal(c.status) && n < n' && c.id == FreshId("chk_", n' - 1)
  {
    hide Priced, NormalFor, LinesSold, Evaluate, NewLines, WithStatus, Signed, Draft, Consistent, Orderable, FreshId,
      PaymentFor;
    var e := EvaluateRequest(cfg, catalog, q, q.fulfillment, q.discounts, n);
    RequestIsConsistent(cfg, catalog, q, q.fulfillment, q.discounts, n);
    SupplyGrows(cfg, catalog, q, q.fulfillment, q.discounts, n);
    DraftIsConsistent(cfg, catalog, e, FreshId("chk_", e.next), q.buyer, NormalCurrency(q.currency),
      PaymentFor(cfg, q.payment, None), expiry, q.extra);
  }

  lemma SupplyGrows(cfg: Config, catalog: Catalog, q: CartRequest, fulfillment: Option<Fulfillment>,
      discounts: Option<DiscountsObject>, n: nat)
    requires Orderable(catalog, q.lineItems)
    ensures n <= EvaluateRequest(cfg, catalog, q, fulfillment, discounts, n).next
  {
    hide NewLines, BuiltOptional, DiscountOutcome, OrderTotals, Cost, Sum, LineSubtotals;
  }

  lemma UpdatedSessionIsConsistent(cfg: Config, catalog: Catalog, was: Checkout, q: CartRequest, n: nat)
    requires Orderable(catalog, q.lineItems)
    ensures var (c, n') := UpdatedSession(cfg, catalog, was, q, n);
      Consistent(cfg, catalog, c) && !Terminal(c.status) && n <= n' && c.id == was.id
  {
    hide Priced, NormalFor, LinesSold, Evaluate, NewLines, WithStatus, Signed, Draft, Consistent, Orderable, PaymentFor;
    var f, d := FirstOf(q.fulfillment, was.fulfillment), FirstOf(q.discounts, was.discounts);
    var e := EvaluateRequest(cfg, catalog, q, f, d, n);
    RequestIsConsistent(cfg, catalog, q, f, d, n);
    SupplyGrows(cfg, catalog, q, f, d, n);
    DraftIsConsistent(cfg, catalog, e, was.id, FirstOf(q.buyer, was.buyer), NormalCurrency(q.currency),
      PaymentFor(cfg, q.payment, Some(was.payment)), was.expiresAt, was.extra + q.extra);
  }

  lemma CompletedSessionIsConsistent(cfg: Config, catalog: Catalog, c: Checkout, q: CompleteRequest, now: int,
      orderId: string)
    requires Consistent(cfg, catalog, c) && CompleteError(cfg, c, q, now).None?
    ensures var d := CompletedSession(cfg, PaidSession(cfg, c, q.data), orderId);
      Consistent(cfg, catalog, d) && d.status == Completed && d.id == c.id && d.order.value.id == orderId &&
      d.lineItems == c.lineItems && d.totals == c.totals && d.fulfillment == c.fulfillment &&
      d.payment.selected == Some(q.data.id)
  {
    hide Priced, NormalFor, LinesSold, MandateError, InstrumentError, DueMessages, IsReady, WithInstrument,
      ResponseMeta, Escalates;
    var x := c.(payment := WithInstrument(c.payment, q.data));
    var paid := PaidSession(cfg, c, q.data);
    StatusIsStable(cfg, x);
    StatusMeans(cfg, paid);
    var d := CompletedSession(cfg, paid, orderId);
    assert IsReady(d) by { SameReadiness(paid, d); }
    assert WithInstrument(c.payment, q.data).selected == Some(q.data.id) by { InstrumentSelected(c.payment, q.data); }
  }

  lemma SameReadiness(c: Checkout, d: Checkout)
    requires d.buyer == c.buyer && d.payment == c.payment && d.fulfillment == c.fulfillment
    ensures IsReady(c) <==> IsReady(d)
  {
    hide MethodIsReady, CanPay;
  }

  /** The instrument of the request is selected, replaces at most the instrument with its id, and all others stay. */
  lemma InstrumentSelected(p: Payment, x: Instrument)
    ensures var r := WithInstrument(p, x);
      var s := if p.instruments.Some? then p.instruments.value else [];
      r.selected == Some(x.id) && Selected(r).Some? && r.instruments.value[Selected(r).value] == x &&
      |r.instruments.value| == |s| + (if Selected(r).value == |s| then 1 else 0) &&
      forall k :: 0 <= k < |s| && k != Selected(r).value ==> r.instruments.value[k] == s[k]
  {
    var s := if p.instruments.Some? then p.instruments.value else [];
    var i := FindInstrument(s, x.id);
    var t := WithInstrument(p, x).instruments.value;
    assert t[i] == x;
    assert forall k :: 0 <= k < i ==> t[k].id != x.id;
  }

  lemma CanceledSessionIsConsistent(cfg: Config, catalog: Catalog, c: Checkout)
    requires Consistent(cfg, catalog, c) && !Terminal(c.status)
    ensures Consistent(cfg, catalog, CanceledSession(c))
  {
    hide Priced, NormalFor, LinesSold, WithStatus, ResponseMeta;
  }

  // ---------- What follows for a single session

  /**
   The authorization of a stored session verifies as long as the session is not canceled; a canceled session keeps
   its old signature, which no longer covers it, so there only a configured text verifies.
   */
  lemma AuthorizationVerifiesIff(cfg: Config, catalog: Catalog, c: Checkout)
    requires Consistent(cfg, catalog, c) && cfg.ap2Enabled && (cfg.ap2Authorization.Some? || cfg.ap2Key.Some?)
    ensures AuthorizationError(cfg, c).None? <==> c.status != Canceled || cfg.ap2Authorization.Some?
  {
    hide Priced, NormalFor, LinesSold, WithStatus, ResponseMeta, IsReady;
  }

  /**
   A signature covers the session as stored, so on the response shown to a platform it verifies exactly when nothing was
   negotiated or the negotiated set covers the session.
   */
  lemma ProjectionVerifiesIff(cfg: Config, catalog: Catalog, c: Checkout, negotiated: Option<Negotiated>)
    requires Consistent(cfg, catalog, c) && cfg.ap2Enabled && cfg.ap2Authorization.None? && cfg.ap2Key.Some?
    requires c.status != Canceled
    ensures AuthorizationError(cfg, Projected(c, negotiated)).None? <==>
      negotiated.None? || Covers(cfg, c, negotiated.value)
  {
    hide Priced, NormalFor, LinesSold, WithStatus, ResponseMeta, IsReady, RefNames, RetainNamed, Covers;
    var r := Projected(c, negotiated);
    if negotiated.Some? { ProjectionChangesNothingIff(cfg, c, negotiated.value); }
    if AuthorizationError(cfg, r).None? {
      assert r.ap2 == c.ap2;
      assert c.(ap2 := None) == r.(ap2 := None);
      assert r == r.(ap2 := None).(ap2 := r.ap2) == c.(ap2 := None).(ap2 := c.ap2) == c;
    }
  }

  /** Prices that are not negative give subtotals that are not. */
  lemma SubtotalsNonNegative(catalog: Catalog, lines: seq<LineItem>)
    requires LinesSold(catalog, lines) && forall k :: k in catalog ==> 0 <= catalog[k].price
    ensures NonNegative(LineSubtotals(lines))
  {
    forall i | 0 <= i < |lines| ensures 0 <= LineSubtotals(lines)[i] {
      assert IsSold(catalog, lines[i].item);
      ProductOrder(0, lines[i].item.price, lines[i].quantity);
    }
  }

  function CodesOf(d: Option<DiscountsObject>): seq<string> {
    if d.Some? && d.value.codes.Some? then NormalizeCodes(d.value.codes.value) else []
  }

  lemma OutcomeOfCodes(lines: seq<LineItem>, discounts: Option<DiscountsObject>, cost: int)
    requires DiscountOutcome(lines, discounts, cost).lines == lines
    ensures var o := DiscountOutcome(lines, discounts, cost);
      var l := LegacyOutcome(lines, CodesOf(discounts), cost, discounts.Some? && discounts.value.codes.Some?);
      o.itemsDiscount == l.itemsDiscount && o.orderDiscount == l.orderDiscount
  {
    hide LegacyOutcome, LineSubtotals, FinalTally, WithDiscounts;
    if discounts.None? { NothingOff(lines, cost); }
  }

  lemma NothingOff(lines: seq<LineItem>, cost: int)
    ensures var o := LegacyOutcome(lines, [], cost, false); o.itemsDiscount == 0 && o.orderDiscount == 0
  {
    hide WithDiscounts, LineSubtotals;
    var z := Zero(|lines|);
    SumPlus(z, z, |lines|);
    assert FinalTally(LineSubtotals(lines), cost, []).perItem == z;
  }

  /** What a list of totals says under `kind`; nothing counts as zero. */
  function EntryAmount(totals: seq<Total>, kind: string): int {
    var amounts := AmountsOf(totals, kind);
    if amounts == [] then 0 else amounts[0]
  }

  lemma TotalsEntries(subtotal: int, itemsDiscount: int, cost: int, orderDiscount: int, bps: int)
    requires 0 <= itemsDiscount
    ensures var totals := OrderTotals(subtotal, itemsDiscount, cost, orderDiscount, bps);
      EntryAmount(totals, "subtotal") == subtotal && EntryAmount(totals, "items_discount") == itemsDiscount
  {
    hide OrderTotals, AmountsOf, Tax, Taxable, Max;
    OrderEntriesAre(subtotal, itemsDiscount, cost, orderDiscount, bps);
  }

  /** What the lines say under their last entry, their total. */
  function StoredLineTotals(lines: seq<LineItem>): (r: seq<int>)
    ensures |r| == |lines|
  {
    seq(|lines|, i requires 0 <= i < |lines| => if lines[i].totals == [] then 0 else FinalAmount(lines[i].totals))
  }

  lemma StoredIsComputed(lines: seq<LineItem>, perItem: seq<int>)
    requires |perItem| == |lines| && WithDiscounts(lines, perItem) == lines
    ensures StoredLineTotals(lines) == LineTotalAmounts(lines, perItem)
  {
    hide LineTotals, FinalAmount;
    forall i | 0 <= i < |lines| ensures lines[i] == WithDiscount(lines[i], perItem[i]) && lines[i].totals != [] {
      assert WithDiscounts(lines, perItem)[i] == WithDiscount(lines[i], perItem[i]);
      LineHasTotals(lines[i], perItem[i]);
    }
  }

  lemma LineHasTotals(line: LineItem, discount: int)
    ensures WithDiscount(line, discount).totals != []
  {
  }

  /** No line of the cart is discounted by more than it costs, by the codes it has. */
  ghost predicate NotOverDiscounted(c: Checkout) {
    OrderOf(CodesOf(c.discounts)) != FiveThenTen || forall i :: 0 <= i < |c.lineItems| ==>
      Split(LineSubtotals(c.lineItems))[i] <= LineSubtotals(c.lineItems)[i] - LineSubtotals(c.lineItems)[i] / 10
  }

  /** The response adds up: its total over the other entries, and the totals of its lines. */
  ghost predicate AddsUp(c: Checkout) {
    c.totals != [] && FinalAmount(c.totals) == SignedSum(c.totals) &&
    Sum(StoredLineTotals(c.lineItems)) == EntryAmount(c.totals, "subtotal") - EntryAmount(c.totals, "items_discount")
  }

  lemma DiscountedLines(lines: seq<LineItem>, discounts: Option<DiscountsObject>, cost: int)
    requires DiscountOutcome(lines, discounts, cost).lines == lines
    requires discounts.None? ==> Undiscounted(lines)
    ensures var perItem := FinalTally(LineSubtotals(lines), cost, CodesOf(discounts)).perItem;
      WithDiscounts(lines, perItem) == lines
  {
    hide FinalTally, LineSubtotals, Sum, NormalizeCodes, WithDiscount;
    if discounts.None? {
      NoTally(LineSubtotals(lines), cost);
      assert WithDiscounts(lines, Zero(|lines|)) == lines;
    } else if discounts.value.codes.None? {
      assert NormalizeCodes([]) == [] by { NoCodes(); }
    }
  }

  lemma NoCodes()
    ensures NormalizeCodes([]) == []
  {
  }

  lemma NoTally(subtotals: seq<int>, cost: int)
    ensures FinalTally(subtotals, cost, []).perItem == Zero(|subtotals|)
  {
  }

  /**
   A stored session adds up, line by line and as a whole, when prices, tax rate and fulfillment cost are not negative
   and no line is over-discounted, which only SAVE5 before SAVE10 can bring about.
   */
  lemma SessionAddsUp(cfg: Config, catalog: Catalog, c: Checkout)
    requires CartConsistent(cfg, catalog, c) && 0 <= cfg.taxBps && 0 <= Cost(c.fulfillment)
    requires forall k :: k in catalog ==> 0 <= catalog[k].price
    requires NotOverDiscounted(c)
    ensures AddsUp(c)
  {
    hide LegacyOutcome, LineSubtotals, DiscountOutcome, Split, OrderOf, SignedSum, Tax, Cost, CodesOf, LinesSold,
      NormalFor,
      FinalTally, StoredLineTotals, LineTotalAmounts, EntryAmount, Sum, WithDiscounts, Undiscounted;
    SubtotalsNonNegative(catalog, c.lineItems);
    var cost, codes := Cost(c.fulfillment), CodesOf(c.discounts);
    var hadCodes := c.discounts.Some? && c.discounts.value.codes.Some?;
    OutcomeOfCodes(c.lineItems, c.discounts, cost);
    CartAddsUp(c.lineItems, codes, cost, hadCodes, cfg.taxBps);
    var o := LegacyOutcome(c.lineItems, codes, cost, hadCodes);
    TotalsEntries(Sum(LineSubtotals(c.lineItems)), o.itemsDiscount, cost, o.orderDiscount, cfg.taxBps);
    DiscountedLines(c.lineItems, c.discounts, cost);
    StoredIsComputed(c.lineItems, FinalTally(LineSubtotals(c.lineItems), cost, codes).perItem);
  }

  // ---------- Empty carts

  lemma EvaluatedLines(cfg: Config, catalog: Catalog, q: CartRequest, fulfillment: Option<Fulfillment>,
      discounts: Option<DiscountsObject>, n: nat)
    requires Orderable(catalog, q.lineItems)
    ensures |EvaluateRequest(cfg, catalog, q, fulfillment, discounts, n).lines| == |q.lineItems|
  {
    hide NewLines, BuiltOptional, FinalTally, Cost, OrderTotals, LineSubtotals, Sum, NormalizeCodes, Orderable;
  }

  /** A session has as many lines as the request that created or updated it asked for. */
  lemma LinesAsAsked(cfg: Config, catalog: Catalog, c: Checkout, q: CartRequest, expiry: string, n: nat)
    requires Orderable(catalog, q.lineItems)
    ensures |NewSession(cfg, catalog, q, expiry, n).0.lineItems| == |q.lineItems|
    ensures |UpdatedSession(cfg, catalog, c, q, n).0.lineItems| == |q.lineItems|
  {
    hide EvaluateRequest, WithStatus, AuthorizationFor, PaymentFor, NormalCurrency, Orderable, FreshId, ResponseMeta;
    EvaluatedLines(cfg, catalog, q, q.fulfillment, q.discounts, n);
    var e := EvaluateRequest(cfg, catalog, q, q.fulfillment, q.discounts, n);
    StatusChangesOnly(cfg, Draft(cfg, e, FreshId("chk_", e.next), q.buyer, NormalCurrency(q.currency),
      PaymentFor(cfg, q.payment, None), expiry, q.extra));
    var f, d := FirstOf(q.fulfillment, c.fulfillment), FirstOf(q.discounts, c.discounts);
    EvaluatedLines(cfg, catalog, q, f, d, n);
    StatusChangesOnly(cfg, Draft(cfg, EvaluateRequest(cfg, catalog, q, f, d, n), c.id, FirstOf(q.buyer, c.buyer),
      NormalCurrency(q.currency), PaymentFor(cfg, q.payment, Some(c.payment)), c.expiresAt, c.extra + q.extra));
  }

  /**
   An empty cart is always refused when a session is created, and accepted by an update exactly when the currency is
   good and the session open; the session is then empty.
   */
  lemma EmptyCartOnlyRefusedOnCreate(cfg: Config, catalog: Catalog, c: Checkout, q: CartRequest, n: nat)
    requires q.lineItems == []
    ensures CreateError(catalog, q).Some?
    ensures UpdateError(catalog, c, q).None? <==> CurrencyError(q.currency).None? && !Terminal(c.status)
    ensures UpdatedSession(cfg, catalog, c, q, n).0.lineItems == []
  {
    hide CurrencyError, UpdatedSession, NormalCurrency;
    LinesAsAsked(cfg, catalog, c, q, "", n);
  }
}
