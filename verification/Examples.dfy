/** Requests the service can receive on which a property it does not promise fails (src/service.rs, src/ucp_meta.rs). */
module Examples {
  import opened Wrappers
  import opened Text
  import opened Sums
  import opened Models
  import opened Pricing
  import opened Fulfillments
  import opened FulfillmentStability
  import opened Status
  import opened UcpMeta
  import opened Cart
  import opened Store
  import opened Checkouts
  import opened SessionFacts
  import opened Runs
  import opened RunFacts

  // ---------- A session that is created and stored

  const SHOP := Config("2026-01-11", "https://shop.example", 0, 600, [], [], false, false, true, None, Some("key"))

  const MUG := Product("mug", "Mug", 1000, "USD", None, 5)

  const CATALOG: Catalog := map["mug" := MUG]

  /** One mug, for a buyer and with a fulfillment to choose. */
  function OneMug(buyer: Option<Buyer>, fulfillment: Option<Fulfillment>): CartRequest {
    CartRequest([LineItemInput(Some("a"), "mug", map[], 1, None, map[])], buyer, "USD",
      PaymentRequest(None, None, map[]), fulfillment, None, map[])
  }

  lemma MugIsAccepted(buyer: Option<Buyer>, fulfillment: Option<Fulfillment>)
    ensures CreateError(CATALOG, OneMug(buyer, fulfillment)).None?
  {
    hide LinesError, LineError, Upper;
    var s := OneMug(buyer, fulfillment).lineItems;
    DollarsAreNormal();
    LinesAcceptedIff(CATALOG, s, "USD");
    assert CanOrder(CATALOG, s[0], "USD");
  }

  lemma DollarsAreNormal()
    ensures CurrencyError("USD").None? && NormalCurrency("USD") == "USD" && Upper("USD") == "USD"
  {
    assert TrimStart("USD") == "USD" && TrimEnd("USD") == "USD";
    assert Upper("USD") == "USD";
  }

  function Creation(q: CartRequest, t: Clock): Call { Call(Create(q), t) }

  /** A cart that is accepted is stored as it is answered. */
  lemma CreatedIsStored(cfg: Config, catalog: Catalog, q: CartRequest, t: Clock)
    requires CreateError(catalog, q).None?
    ensures var w := WorldAfter(cfg, catalog, [Creation(q, t)], 1);
      var c := NewSession(cfg, catalog, q, t.expiry, 0).0;
      c.id in w.sessions.cache && w.sessions.cache[c.id] == Cached(c, Some(t.now + cfg.ttl)) && !Terminal(c.status)
  {
    hide CreateError, NewSession, Consistent;
    var run := [Creation(q, t)];
    assert run[0] == Creation(q, t) && WorldAfter(cfg, catalog, run, 0) == START;
    NewSessionIsConsistent(cfg, catalog, q, t.expiry, 0);
  }

  /** What the service makes of one mug. */
  function MugSession(buyer: Option<Buyer>, fulfillment: Option<Fulfillment>, t: Clock): Checkout {
    MugIsAccepted(buyer, fulfillment);
    NewSession(SHOP, CATALOG, OneMug(buyer, fulfillment), t.expiry, 0).0
  }

  lemma MugIsStored(buyer: Option<Buyer>, fulfillment: Option<Fulfillment>, t: Clock)
    ensures var w := WorldAfter(SHOP, CATALOG, [Creation(OneMug(buyer, fulfillment), t)], 1);
      var c := MugSession(buyer, fulfillment, t);
      c.id in w.sessions.cache && w.sessions.cache[c.id].checkout == c && !Terminal(c.status)
  {
    hide NewSession, WorldAfter;
    MugIsAccepted(buyer, fulfillment);
    CreatedIsStored(SHOP, CATALOG, OneMug(buyer, fulfillment), t);
  }

  lemma MugCarries(buyer: Option<Buyer>, fulfillment: Option<Fulfillment>, t: Clock)
    ensures var c := MugSession(buyer, fulfillment, t);
      Consistent(SHOP, CATALOG, c) && c.buyer == buyer && c.fulfillment.Some? == fulfillment.Some? && c.discounts.None?
  {
    hide Consistent, WithStatus, AuthorizationFor, Built, NewLines, OrderTotals;
    MugIsAccepted(buyer, fulfillment);
    var q := OneMug(buyer, fulfillment);
    NewSessionIsConsistent(SHOP, CATALOG, q, t.expiry, 0);
    var e := EvaluateRequest(SHOP, CATALOG, q, fulfillment, None, 0);
    StatusChangesOnly(SHOP, Draft(SHOP, e, FreshId("chk_", e.next), buyer, NormalCurrency(q.currency),
      PaymentFor(SHOP, q.payment, None), t.expiry, q.extra));
  }

  // ---------- A projection that voids a signature

  /** A stored session, and a platform that negotiated nothing, to which its signature does not verify. */
  lemma ProjectionVoidsSignature(t: Clock)
    ensures var c := MugSession(None, None, t);
      var w := WorldAfter(SHOP, CATALOG, [Creation(OneMug(None, None), t)], 1);
      c.id in w.sessions.cache && w.sessions.cache[c.id].checkout == c &&
      AuthorizationError(SHOP, c).None? &&
      AuthorizationError(SHOP, Projected(c, Some(Negotiated(SHOP.ucpVersion, [])))).Some?
  {
    hide MugSession, WorldAfter, Consistent, Projected, AuthorizationError, RefNames, ResponseMeta;
    var c := MugSession(None, None, t);
    MugIsStored(None, None, t);
    MugCarries(None, None, t);
    AuthorizationVerifiesIff(SHOP, CATALOG, c);
    ProjectionVerifiesIff(SHOP, CATALOG, c, Some(Negotiated(SHOP.ucpVersion, [])));
    ConsistentTells(SHOP, CATALOG, c);
    CheckoutIsListed(SHOP, c);
    assert RefNames([]) == {} by { OneName("", ""); }
  }

  lemma CheckoutIsListed(cfg: Config, c: Checkout)
    requires MetaAgrees(cfg, c)
    ensures CHECKOUT in RefNames(c.ucp.capabilities)
    ensures c.fulfillment.Some? ==> FULFILLMENT in RefNames(c.ucp.capabilities)
  {
    hide RefNames, ResponseMeta;
    MetaNames(cfg, c.fulfillment.Some?, c.discounts.Some?, HasConsent(c.buyer), cfg.ap2Enabled);
  }

  // ---------- A canceled session with a stale signature

  lemma SecondCall(cfg: Config, catalog: Catalog, first: Call, second: Call)
    ensures WorldAfter(cfg, catalog, [first, second], 2) ==
      Handle(cfg, catalog, WorldAfter(cfg, catalog, [first], 1), second).world
  {
    hide Handle;
    var run := [first, second];
    assert run[0] == first == [first][0] && run[1] == second;
    assert WorldAfter(cfg, catalog, run, 0) == START == WorldAfter(cfg, catalog, [first], 0);
    assert WorldAfter(cfg, catalog, run, 1) == WorldAfter(cfg, catalog, [first], 1);
  }

  /** Canceling an open session that has not expired stores it canceled. */
  lemma CancelStores(cfg: Config, w: World, id: string, now: int)
    requires Live(w.sessions, id, now).Some?
    requires Live(w.sessions, id, now).value.id == id && !Terminal(Live(w.sessions, id, now).value.status)
    ensures var s := CancelStep(cfg, w, id, now).world.sessions;
      id in s.cache && s.cache[id].checkout == CanceledSession(Live(w.sessions, id, now).value)
  {
  }

  lemma CanceledIsStored(t: Clock)
    ensures var c := MugSession(None, None, t);
      var w := WorldAfter(SHOP, CATALOG, [Creation(OneMug(None, None), t), Call(Cancel(c.id), t)], 2);
      c.id in w.sessions.cache && w.sessions.cache[c.id].checkout == CanceledSession(c)
  {
    hide MugSession, CreateError, Consistent, WorldAfter, CancelStep, NewSession;
    var c := MugSession(None, None, t);
    var create := Creation(OneMug(None, None), t);
    MugSessionIs(None, None, t);
    CreatedIsStored(SHOP, CATALOG, OneMug(None, None), t);
    SecondCall(SHOP, CATALOG, create, Call(Cancel(c.id), t));
    CancelStores(SHOP, WorldAfter(SHOP, CATALOG, [create], 1), c.id, t.now);
  }

  lemma MugSessionIs(buyer: Option<Buyer>, fulfillment: Option<Fulfillment>, t: Clock)
    ensures CreateError(CATALOG, OneMug(buyer, fulfillment)).None?
    ensures MugSession(buyer, fulfillment, t) == NewSession(SHOP, CATALOG, OneMug(buyer, fulfillment), t.expiry, 0).0
  {
    hide NewSession, CreateError;
    MugIsAccepted(buyer, fulfillment);
  }

  /** Create, then cancel: the stored session has a signature, which no longer verifies. */
  lemma CanceledKeepsStaleSignature(t: Clock)
    ensures var c := MugSession(None, None, t);
      var w := WorldAfter(SHOP, CATALOG, [Creation(OneMug(None, None), t), Call(Cancel(c.id), t)], 2);
      c.id in w.sessions.cache && w.sessions.cache[c.id].checkout.ap2.Some? &&
      AuthorizationError(SHOP, w.sessions.cache[c.id].checkout).Some?
  {
    hide MugSession, WorldAfter, Consistent, AuthorizationError;
    var c := MugSession(None, None, t);
    CanceledIsStored(t);
    MugIsStored(None, None, t);
    MugCarries(None, None, t);
    CanceledSessionIsConsistent(SHOP, CATALOG, c);
    AuthorizationVerifiesIff(SHOP, CATALOG, c);
    AuthorizationVerifiesIff(SHOP, CATALOG, CanceledSession(c));
    assert c.ap2.Some? by { VerifiedIsThere(SHOP, c); }
  }

  lemma VerifiedIsThere(cfg: Config, c: Checkout)
    requires AuthorizationError(cfg, c).None?
    ensures c.ap2.Some?
  {
  }

  // ---------- Responses that list too little or too much

  /** A buyer's consent is stored and shown by a shop that does not offer consent, and not listed. */
  lemma ConsentShownUnlisted(t: Clock)
    ensures var buyer := Some(Buyer(None, Some(Consent(None, None, Some(true), None)), map[]));
      var c := MugSession(buyer, None, t);
      var w := WorldAfter(SHOP, CATALOG, [Creation(OneMug(buyer, None), t)], 1);
      c.id in w.sessions.cache && w.sessions.cache[c.id].checkout == c &&
      HasConsent(Projected(c, None).buyer) && !Lists(Projected(c, None), BUYER_CONSENT)
  {
    hide MugSession, WorldAfter, Consistent, Lists, ResponseMeta;
    var buyer := Some(Buyer(None, Some(Consent(None, None, Some(true), None)), map[]));
    MugIsStored(buyer, None, t);
    MugCarries(buyer, None, t);
    ConsistentTells(SHOP, CATALOG, MugSession(buyer, None, t));
    ProjectionAgrees(SHOP, MugSession(buyer, None, t), None);
  }

  /**
   Shown to a platform that negotiated fulfillment but not checkout, a session lists the extension without its parent.
   */
  lemma ParentMissing(t: Clock)
    ensures var f := Some(Fulfillment(None, None));
      var c := MugSession(None, f, t);
      var w := WorldAfter(SHOP, CATALOG, [Creation(OneMug(None, f), t)], 1);
      c.id in w.sessions.cache && w.sessions.cache[c.id].checkout == c &&
      !ParentsListed(SHOP,
        Projected(c, Some(Negotiated(SHOP.ucpVersion, [CapabilityRef(FULFILLMENT, SHOP.ucpVersion)]))))
  {
    hide MugSession, WorldAfter, Consistent, RefNames, ParentsListed, Projected, ResponseMeta;
    var f := Some(Fulfillment(None, None));
    var c := MugSession(None, f, t);
    MugIsStored(None, f, t);
    MugCarries(None, f, t);
    ConsistentTells(SHOP, CATALOG, c);
    CheckoutIsListed(SHOP, c);
    OneName(FULFILLMENT, SHOP.ucpVersion);
    FulfillmentIsOffered();
    ParentsListedIff(SHOP, c, Some(Negotiated(SHOP.ucpVersion, [CapabilityRef(FULFILLMENT, SHOP.ucpVersion)])));
    assert IsExtension(SHOP, FULFILLMENT) && Lists(c, FULFILLMENT);
  }

  lemma FulfillmentIsOffered()
    ensures IsExtension(SHOP, FULFILLMENT)
  {
    assert BusinessCapabilities(SHOP)[1].name == FULFILLMENT;
  }

  // ---------- A negative fulfillment cost

  /** One way to ship, at minus one dollar. */
  function Refund(): Fulfillment {
    var option := ShippingOption(Some("x"), Some("x"), None, [Total("total", None, -100)], map[]);
    var group := Group(Some("g"), [], Some([option]), Some("x"), map[]);
    Fulfillment(Some([DeliveryMethod(Some("m"), SHIPPING, [], None, None, Some([group]), map[])]), None)
  }

  lemma RefundCosts(lineIds: seq<string>, n: nat)
    ensures Cost(Some(Built(Refund(), lineIds, n).0)) == -100
  {
    hide EnsureId, LineIds, NormalGroups, GroupsCost, NormalDestinations, AvailableMethods, IsBlank, NormalMethods,
      MethodsCost;
    var m := Refund().methods.value[0];
    OneMethod(m, lineIds, n);
    var r := NormalMethod(m, lineIds, n).0;
    OneMethodCost(r);
    var g := m.groups.value[0];
    OneGroup(g, r.lineItemIds, EnsureId(m.id, "fm_", n).1);
    RefundGroupCosts(g, r.lineItemIds, EnsureId(m.id, "fm_", n).1);
  }

  lemma OneMethodCost(m: DeliveryMethod)
    ensures MethodsCost([m]) == if m.groups.Some? then GroupsCost(m.groups.value) else 0
  {
    hide GroupsCost;
    assert [m][1..] == [];
  }

  lemma RefundGroupCosts(g: Group, lineIds: seq<string>, n: nat)
    requires g == Refund().methods.value[0].groups.value[0]
    ensures GroupCost(NormalGroup(g, lineIds, n).0) == -100
  {
    hide LineIds, IsBlank, FindOption;
    var n1 := EnsureId(g.id, "grp_", n).1;
    var options := NormalOptions(g.options.value, 0, n1).0;
    FirstOptionTotals(g.options.value, 0, n1);
    assert |options| == 1;
    assert options[0].totals == [Total("total", None, -100)];
  }

  /** A stored session whose totals do not add up, because its only shipping option costs less than zero. */
  lemma NegativeCostDoesNotAddUp(t: Clock)
    ensures var f := Some(Refund());
      var c := MugSession(None, f, t);
      var w := WorldAfter(SHOP, CATALOG, [Creation(OneMug(None, f), t)], 1);
      c.id in w.sessions.cache && w.sessions.cache[c.id].checkout == c &&
      Cost(c.fulfillment) == -100 && c.totals != [] && FinalAmount(c.totals) != SignedSum(c.totals)
  {
    hide MugSession, WorldAfter, Consistent, Cost, SignedSum, OrderTotals, Refund;
    var f := Some(Refund());
    var c := MugSession(None, f, t);
    MugIsStored(None, f, t);
    RefundTotals(t);
    TotalsAddUp(1000, 0, -100, 0, 0);
    TotalsThere(1000, 0, -100, 0, 0);
  }

  lemma TotalsThere(subtotal: int, itemsDiscount: int, cost: int, orderDiscount: int, bps: int)
    ensures OrderTotals(subtotal, itemsDiscount, cost, orderDiscount, bps) != []
  {
    hide Tax, Taxable, PositiveEntry;
  }

  lemma RefundTotals(t: Clock)
    ensures var c := MugSession(None, Some(Refund()), t);
      Cost(c.fulfillment) == -100 && c.totals == OrderTotals(1000, 0, -100, 0, 0)
  {
    hide WithStatus, AuthorizationFor, Built, Cost, OrderTotals, Refund, NewLines, LineSubtotals, Sum;
    var f := Some(Refund());
    MugIsAccepted(None, f);
    var q := OneMug(None, f);
    var e := EvaluateRequest(SHOP, CATALOG, q, f, None, 0);
    StatusChangesOnly(SHOP, Draft(SHOP, e, FreshId("chk_", e.next), None, NormalCurrency(q.currency),
      PaymentFor(SHOP, q.payment, None), t.expiry, q.extra));
    var (lines, n1) := NewLines(CATALOG, q.lineItems, 0);
    RefundCosts(LineIdsOf(lines), n1);
    MugSubtotal(q);
  }

  lemma MugSubtotal(q: CartRequest)
    requires Orderable(CATALOG, q.lineItems) && |q.lineItems| == 1
    requires q.lineItems[0].itemId == "mug" && q.lineItems[0].quantity == 1
    ensures Sum(LineSubtotals(NewLines(CATALOG, q.lineItems, 0).0)) == 1000
  {
    hide LineId, LineTotals;
    var lines := NewLines(CATALOG, q.lineItems, 0).0;
    assert lines[0].item.price == 1000 && lines[0].quantity == 1;
    var s := LineSubtotals(lines);
    assert s[0] == 1000 && SumTo(s, 0) == 0 && SumTo(s, 1) == 1000;
  }

  // ---------- An empty session

  /** No lines, and all else as before. */
  function Nothing(): CartRequest {
    CartRequest([], None, "USD", PaymentRequest(None, None, map[]), None, None, map[])
  }

  lemma UpdateStores(cfg: Config, catalog: Catalog, w: World, id: string, q: CartRequest, t: Clock)
    requires Live(w.sessions, id, t.now).Some? && UpdateError(catalog, Live(w.sessions, id, t.now).value, q).None?
    requires Live(w.sessions, id, t.now).value.id == id
    ensures var s := UpdateStep(cfg, catalog, w, id, id, q, t).world.sessions;
      var c := UpdatedSession(cfg, catalog, Live(w.sessions, id, t.now).value, q, w.supply).0;
      id in s.cache && s.cache[id].checkout == c
  {
    hide UpdatedSession, CartError, Consistent;
    UpdatedSessionIsConsistent(cfg, catalog, Live(w.sessions, id, t.now).value, q, w.supply);
  }

  /** Create one mug, then update without lines: the stored session is empty. */
  lemma EmptySessionIsStored(t: Clock)
    ensures var c := MugSession(None, None, t);
      var w := WorldAfter(SHOP, CATALOG, [Creation(OneMug(None, None), t), Call(Update(c.id, c.id, Nothing()), t)], 2);
      c.id in w.sessions.cache && w.sessions.cache[c.id].checkout.lineItems == []
  {
    hide MugSession, CreateError, Consistent, WorldAfter, UpdateStep, NewSession, UpdatedSession, CurrencyError,
      UpdateError;
    var c := MugSession(None, None, t);
    var create := Creation(OneMug(None, None), t);
    var w := WorldAfter(SHOP, CATALOG, [create], 1);
    MugSessionIs(None, None, t);
    CreatedIsStored(SHOP, CATALOG, OneMug(None, None), t);
    SecondCall(SHOP, CATALOG, create, Call(Update(c.id, c.id, Nothing()), t));
    DollarsAreNormal();
    EmptyCartOnlyRefusedOnCreate(SHOP, CATALOG, c, Nothing(), w.supply);
    UpdateStores(SHOP, CATALOG, w, c.id, Nothing(), t);
  }
}
