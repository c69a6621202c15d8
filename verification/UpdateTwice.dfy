/** Sending the same update twice (src/service.rs): what the second one leaves as it is. */
module UpdateTwice {
  import opened Wrappers
  import opened Text
  import opened Sums
  import opened Models
  import opened Discounts
  import opened Pricing
  import opened Fulfillments
  import opened FulfillmentFacts
  import opened FulfillmentStability
  import opened Status
  import opened UcpMeta
  import opened Cart
  import opened Store
  import opened Checkouts
  import opened SessionFacts
  import opened Runs

  // ---------- Lines

  /** The same lines, but for their identifiers. */
  ghost predicate SameButIds(a: seq<LineItem>, b: seq<LineItem>) {
    |a| == |b| && forall i :: 0 <= i < |a| ==> a[i] == b[i].(id := a[i].id)
  }

  predicate AllNamed(s: seq<LineItemInput>) { forall i :: 0 <= i < |s| ==> !Missing(s[i].id) }

  lemma {:induction false} NewLinesAlike(catalog: Catalog, s: seq<LineItemInput>, n: nat, k: nat)
    requires Orderable(catalog, s)
    ensures SameButIds(NewLines(catalog, s, n).0, NewLines(catalog, s, k).0)
    ensures AllNamed(s) ==> NewLines(catalog, s, n).0 == NewLines(catalog, s, k).0
    decreases s
  {
    hide Missing, LineTotals, FreshId, Trim;
    if s != [] { NewLinesAlike(catalog, s[1..], LineId(s[0].id, n).1, LineId(s[0].id, k).1); }
  }

  lemma SameSubtotals(a: seq<LineItem>, b: seq<LineItem>)
    requires SameButIds(a, b)
    ensures LineSubtotals(a) == LineSubtotals(b)
  {
  }

  lemma DiscountedAlike(a: seq<LineItem>, b: seq<LineItem>, perItem: seq<int>)
    requires SameButIds(a, b) && |perItem| == |a|
    ensures SameButIds(WithDiscounts(a, perItem), WithDiscounts(b, perItem))
  {
    hide LineTotals;
  }

  // ---------- Discounts

  /** The same amounts and the same report, on lines that differ only in their identifiers. */
  ghost predicate OutcomesAlike(o: Outcome, p: Outcome) {
    SameButIds(o.lines, p.lines) && o.discounts == p.discounts && o.itemsDiscount == p.itemsDiscount &&
    o.orderDiscount == p.orderDiscount
  }

  lemma LegacyAlike(a: seq<LineItem>, b: seq<LineItem>, codes: seq<string>, cost: int, hadCodes: bool)
    requires SameButIds(a, b)
    ensures OutcomesAlike(LegacyOutcome(a, codes, cost, hadCodes), LegacyOutcome(b, codes, cost, hadCodes))
  {
    hide SameButIds, WithDiscounts, FinalTally, LineSubtotals, Sum;
    SameSubtotals(a, b);
    assert |a| == |LineSubtotals(a)|;
    DiscountedAlike(a, b, FinalTally(LineSubtotals(a), cost, codes).perItem);
  }

  lemma OutcomeAlike(a: seq<LineItem>, b: seq<LineItem>, d: Option<DiscountsObject>, cost: int)
    requires SameButIds(a, b)
    ensures OutcomesAlike(DiscountOutcome(a, d, cost), DiscountOutcome(b, d, cost))
  {
    hide SameButIds, LegacyOutcome, NormalizeCodes;
    if d.Some? {
      LegacyAlike(a, b, NormalizeCodes(if d.value.codes.Some? then d.value.codes.value else []), cost,
        d.value.codes.Some?);
    }
  }

  /** Discounts asked for in the words of the report give the same outcome. */
  lemma ReportedAlike(a: seq<LineItem>, b: seq<LineItem>, d: Option<DiscountsObject>, cost: int)
    requires SameButIds(a, b) && Undiscounted(a) && Undiscounted(b)
    ensures OutcomesAlike(DiscountOutcome(a, d, cost), DiscountOutcome(b, DiscountOutcome(a, d, cost).discounts, cost))
  {
    hide SameButIds, FinalTally, WithDiscounts, LineSubtotals, Sum, NormalizeCodes, Undiscounted;
    if d.Some? {
      var raw := if d.value.codes.Some? then d.value.codes.value else [];
      NormalizeCodesTwice(raw);
      if d.value.codes.None? { NoCodesNoDiscount(a, cost); }
    }
    OutcomeAlike(a, b, DiscountOutcome(a, d, cost).discounts, cost);
  }

  // ---------- The cart

  ghost predicate EvaluationsAlike(e: Evaluation, f: Evaluation) {
    SameButIds(e.lines, f.lines) && Alike(e.fulfillment, f.fulfillment) &&
    e.discounts == f.discounts && e.totals == f.totals
  }

  /** Two evaluations of lines that differ in their identifiers, on fulfillments and discounts that come to the same. */
  lemma EvaluateAlike(cfg: Config, a: seq<LineItem>, b: seq<LineItem>, fa: Option<Fulfillment>, fb: Option<Fulfillment>,
      da: Option<DiscountsObject>, db: Option<DiscountsObject>, n: nat, k: nat)
    requires SameButIds(a, b) && Undiscounted(a) && Undiscounted(b)
    requires Alike(BuiltOptional(fa, LineIdsOf(a), n).0, BuiltOptional(fb, LineIdsOf(b), k).0)
    requires db == da || db == Evaluate(cfg, a, fa, da, n).discounts
    ensures EvaluationsAlike(Evaluate(cfg, a, fa, da, n), Evaluate(cfg, b, fb, db, k))
  {
    hide SameButIds, Undiscounted, BuiltOptional, DiscountOutcome, LineIdsOf, Cost, Methods, MethodsMessages, Sum,
      OrderTotals, LineSubtotals;
    var cost := Cost(BuiltOptional(fa, LineIdsOf(a), n).0);
    if db == da { OutcomeAlike(a, b, da, cost); } else { ReportedAlike(a, b, da, cost); }
    SameSubtotals(DiscountOutcome(a, da, cost).lines, DiscountOutcome(b, db, cost).lines);
  }

  lemma AlikeNone()
    ensures Alike(None, None)
  {
  }

  lemma AlikeFlips(f: Option<Fulfillment>, g: Option<Fulfillment>)
    requires Alike(f, g)
    ensures Alike(g, f)
  {
    hide Cost, Methods, MethodsMessages;
  }

  lemma NamesKnownLater(f: Fulfillment, n: nat, later: nat)
    requires NamesKnown(f, n) && n <= later
    ensures NamesKnown(f, later)
  {
    hide MethodNamesKnown;
    if f.methods.Some? {
      forall i | 0 <= i < |f.methods.value| ensures MethodNamesKnown(f.methods.value[i], later) {
        NamesStayKnown(f.methods.value[i], n, later);
      }
    }
  }

  /** The fulfillment of the second update comes to that of the first: sent again, or inherited from it. */
  lemma FulfillmentAlike(f: Option<Fulfillment>, existing: Option<Fulfillment>, given: seq<string>,
      ids1: seq<string>, n1: nat, ids2: seq<string>, n2: nat)
    requires f.Some? ==> NamesKnown(f.value, n1) && n1 <= n2
    requires existing.Some? ==> IsNormal(existing.value, given)
    ensures var first := BuiltOptional(FirstOf(f, existing), ids1, n1).0;
      var second := BuiltOptional(FirstOf(f, first), ids2, n2).0;
      Alike(first, second) && (f.None? && ids1 == ids2 ==> first == second)
  {
    hide Built, IsNormal, NamesKnown, Alike, Cost, RealignAll;
    AlikeNone();
    if f.Some? {
      NamesKnownLater(f.value, n1, n2);
      BuiltAlike(f.value, ids1, n1, ids2, n2);
    } else if existing.Some? {
      var g := Built(existing.value, ids1, n1).0;
      BuiltIsNormal(existing.value, ids1, n1);
      RebuiltAlike(g, ids1, ids2, n2);
      RebuiltNormal(g, ids1, ids2, n2);
      AlikeFlips(Some(Built(g, ids2, n2).0), Some(g));
    }
  }

  // ---------- The session

  /** The same session but for identifiers in its lines and fulfillment and for what its authorization covers. */
  ghost predicate SessionsAlike(c: Checkout, d: Checkout) {
    d == c.(lineItems := d.lineItems, fulfillment := d.fulfillment, ap2 := d.ap2) &&
    SameButIds(c.lineItems, d.lineItems) && Alike(c.fulfillment, d.fulfillment)
  }

  lemma PaymentTwice(cfg: Config, q: PaymentRequest, existing: Payment)
    ensures var first := AutoSelect(PaymentFor(cfg, q, Some(existing)));
      AutoSelect(PaymentFor(cfg, q, Some(first))) == first
  {
  }

  /** Drafts that agree on all the status looks at, and differ in payment only before selection, end alike. */
  lemma StatusAlike(cfg: Config, x: Checkout, y: Checkout)
    requires y == x.(lineItems := y.lineItems, fulfillment := y.fulfillment, payment := y.payment)
    requires AutoSelect(x.payment) == AutoSelect(y.payment) && Alike(x.fulfillment, y.fulfillment)
    ensures var c, d := WithStatus(cfg, x), WithStatus(cfg, y);
      d == c.(lineItems := y.lineItems, fulfillment := y.fulfillment)
    ensures x.lineItems == y.lineItems && x.fulfillment == y.fulfillment ==> WithStatus(cfg, x) == WithStatus(cfg, y)
  {
    hide AutoSelect, Methods, MethodsMessages, Cost, Escalates, EmailMessages, PaymentMessages;
  }

  lemma ExtraTwice(e: Extra, q: Extra)
    ensures (e + q) + q == e + q
  {
  }

  lemma SessionTwice(cfg: Config, e: Evaluation, f: Evaluation, id: string, buyer: Option<Buyer>, currency: string,
      p: Payment, r: Payment, expiresAt: string, extra: Extra)
    requires EvaluationsAlike(e, f) && AutoSelect(p) == AutoSelect(r)
    ensures var c := Signed(cfg, WithStatus(cfg, Draft(cfg, e, id, buyer, currency, p, expiresAt, extra)));
      var d := Signed(cfg, WithStatus(cfg, Draft(cfg, f, id, buyer, currency, r, expiresAt, extra)));
      SessionsAlike(c, d) && c.lineItems == e.lines && d.lineItems == f.lines &&
      c.fulfillment == e.fulfillment && d.fulfillment == f.fulfillment && c.discounts == e.discounts &&
      c.payment == AutoSelect(p) && c.buyer == buyer && c.expiresAt == expiresAt && c.extra == extra && c.id == id &&
      (e.lines == f.lines && e.fulfillment == f.fulfillment ==> c == d)
  {
    hide WithStatus, ResponseMeta, AutoSelect, SameButIds, Cost, Methods, MethodsMessages, AuthorizationFor;
    var x := Draft(cfg, e, id, buyer, currency, p, expiresAt, extra);
    var y := Draft(cfg, f, id, buyer, currency, r, expiresAt, extra);
    StatusAlike(cfg, x, y);
    StatusChangesOnly(cfg, x);
    StatusChangesOnly(cfg, y);
  }

  /** Whether two updates by the same request evaluate alike. */
  lemma RequestTwice(cfg: Config, catalog: Catalog, q: CartRequest, existing: Checkout, n: nat)
    requires Orderable(catalog, q.lineItems) && NormalFor(existing.fulfillment, existing.lineItems)
    requires q.fulfillment.Some? ==> NamesKnown(q.fulfillment.value, n)
    ensures
      var e := EvaluateRequest(cfg, catalog, q,
        FirstOf(q.fulfillment, existing.fulfillment), FirstOf(q.discounts, existing.discounts), n);
      var f := EvaluateRequest(cfg, catalog, q,
        FirstOf(q.fulfillment, e.fulfillment), FirstOf(q.discounts, e.discounts), e.next);
      EvaluationsAlike(e, f) &&
      (q.fulfillment.None? && AllNamed(q.lineItems) ==> e.lines == f.lines && e.fulfillment == f.fulfillment)
  {
    hide NewLines, Evaluate, Undiscounted, SameButIds, AllNamed, IsNormal, NamesKnown, BuiltOptional, Alike,
      LineIdsOf, Orderable;
    var fin, din := FirstOf(q.fulfillment, existing.fulfillment), FirstOf(q.discounts, existing.discounts);
    var e := EvaluateRequest(cfg, catalog, q, fin, din, n);
    var (a, n1) := NewLines(catalog, q.lineItems, n);
    var (b, n2) := NewLines(catalog, q.lineItems, e.next);
    NewLinesAlike(catalog, q.lineItems, n, e.next);
    NewLinesUndiscounted(catalog, q.lineItems, n);
    NewLinesUndiscounted(catalog, q.lineItems, e.next);
    SupplyOfEvaluation(cfg, a, fin, din, n1);
    SupplyOfEvaluation(cfg, b, FirstOf(q.fulfillment, e.fulfillment), FirstOf(q.discounts, e.discounts), n2);
    if q.fulfillment.Some? { NamesKnownLater(q.fulfillment.value, n, n1); }
    FulfillmentAlike(q.fulfillment, existing.fulfillment, LineIdsOf(existing.lineItems), LineIdsOf(a), n1,
      LineIdsOf(b), n2);
    EvaluateAlike(cfg, a, b, fin, FirstOf(q.fulfillment, e.fulfillment), din, FirstOf(q.discounts, e.discounts), n1,
      n2);
    if q.fulfillment.None? && AllNamed(q.lineItems) {
      SameLines(cfg, a, fin, FirstOf(q.fulfillment, e.fulfillment), din, FirstOf(q.discounts, e.discounts), n1, n2);
    }
  }

  lemma SupplyOfEvaluation(cfg: Config, lines: seq<LineItem>, f: Option<Fulfillment>, d: Option<DiscountsObject>,
      n: nat)
    ensures var e := Evaluate(cfg, lines, f, d, n);
      n <= e.next && e.fulfillment == BuiltOptional(f, LineIdsOf(lines), n).0
  {
    hide BuiltOptional, DiscountOutcome, OrderTotals, Cost, Sum, LineSubtotals, LineIdsOf;
  }

  /** On the very same lines and fulfillment the second evaluation gives the very same lines. */
  lemma SameLines(cfg: Config, a: seq<LineItem>, fa: Option<Fulfillment>, fb: Option<Fulfillment>,
      da: Option<DiscountsObject>, db: Option<DiscountsObject>, n: nat, k: nat)
    requires Undiscounted(a) && BuiltOptional(fa, LineIdsOf(a), n).0 == BuiltOptional(fb, LineIdsOf(a), k).0
    requires db == da || db == Evaluate(cfg, a, fa, da, n).discounts
    ensures Evaluate(cfg, a, fa, da, n).lines == Evaluate(cfg, a, fb, db, k).lines
  {
    hide BuiltOptional, LineIdsOf, Cost, Sum, OrderTotals, LineSubtotals, Undiscounted, FinalTally, WithDiscounts,
      NormalizeCodes;
    var cost := Cost(BuiltOptional(fa, LineIdsOf(a), n).0);
    if db != da && da.Some? {
      var raw := if da.value.codes.Some? then da.value.codes.value else [];
      NormalizeCodesTwice(raw);
      if da.value.codes.None? { NoCodesNoDiscount(a, cost); }
    }
  }

  /**
   Update is idempotent: the same update sent twice leaves totals, discounts, payment, buyer, messages, status,
   capabilities and every other field as after the first, and lines and fulfillment as well but for the identifiers of
   what the request left unnamed. When the request names its lines and leaves the fulfillment to the session, the two
   sessions are equal.
   */
  lemma UpdateTwiceIsOnce(cfg: Config, catalog: Catalog, c: Checkout, q: CartRequest, n: nat)
    requires Orderable(catalog, q.lineItems) && NormalFor(c.fulfillment, c.lineItems)
    requires q.fulfillment.Some? ==> NamesKnown(q.fulfillment.value, n)
    ensures var (first, n1) := UpdatedSession(cfg, catalog, c, q, n);
      var second := UpdatedSession(cfg, catalog, first, q, n1).0;
      SessionsAlike(first, second) && (q.fulfillment.None? && AllNamed(q.lineItems) ==> first == second)
  {
    hide EvaluateRequest, Draft, WithStatus, Signed, EvaluationsAlike, AllNamed, NamesKnown, NormalFor, AutoSelect,
      PaymentFor, SessionsAlike, NormalCurrency, Orderable;
    RequestTwice(cfg, catalog, q, c, n);
    var e := EvaluateRequest(cfg, catalog, q,
      FirstOf(q.fulfillment, c.fulfillment), FirstOf(q.discounts, c.discounts), n);
    var (first, n1) := UpdatedSession(cfg, catalog, c, q, n);
    var f := EvaluateRequest(cfg, catalog, q,
      FirstOf(q.fulfillment, e.fulfillment), FirstOf(q.discounts, e.discounts), n1);
    var p := PaymentFor(cfg, q.payment, Some(c.payment));
    PaymentTwice(cfg, q.payment, c.payment);
    SelectedOnce(p);
    ExtraTwice(c.extra, q.extra);
    SessionTwice(cfg, e, f, c.id, FirstOf(q.buyer, c.buyer), NormalCurrency(q.currency), p,
      PaymentFor(cfg, q.payment, Some(AutoSelect(p))), c.expiresAt, c.extra + q.extra);
  }

  lemma SelectedOnce(p: Payment)
    ensures AutoSelect(AutoSelect(p)) == AutoSelect(p)
  {
  }

  /**
   For the service: when an update succeeded and the session is still there, the same update succeeds again, alike.
   */
  lemma UpdateTwiceInService(cfg: Config, catalog: Catalog, w: World, id: string, q: CartRequest, t: Clock,
      later: Clock)
    requires Sane(cfg, catalog, w) && t.now <= later.now <= t.now + cfg.ttl
    requires q.fulfillment.Some? ==> NamesKnown(q.fulfillment.value, w.supply)
    requires UpdateStep(cfg, catalog, w, id, id, q, t).reply.Ok?
    ensures var first := UpdateStep(cfg, catalog, w, id, id, q, t);
      var second := UpdateStep(cfg, catalog, first.world, id, id, q, later);
      second.reply.Ok? && SessionsAlike(first.reply.value, second.reply.value) &&
      second.world.orders == w.orders &&
      (q.fulfillment.None? && AllNamed(q.lineItems) ==> first.reply == second.reply)
  {
    hide UpdatedSession, SessionsAlike, AllNamed, NamesKnown, CartError, Sane, Consistent, Issued;
    var c := Live(w.sessions, id, t.now).value;
    OpenHasNoOrder(cfg, catalog, w, id, t.now);
    assert NormalFor(c.fulfillment, c.lineItems) by { ConsistentIsNormal(cfg, catalog, c); }
    UpdateTwiceIsOnce(cfg, catalog, c, q, w.supply);
    UpdatedSessionIsConsistent(cfg, catalog, c, q, w.supply);
  }

  lemma ConsistentIsNormal(cfg: Config, catalog: Catalog, c: Checkout)
    requires Consistent(cfg, catalog, c)
    ensures NormalFor(c.fulfillment, c.lineItems)
  {
    hide Priced, LinesSold, NormalFor, StatusConsistent, MetaAgrees;
  }
}
