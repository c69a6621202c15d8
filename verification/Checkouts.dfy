/** The checkout session service (src/service.rs): create, get, update, complete and cancel. */
module Checkouts {
  import opened Wrappers
  import opened Text
  import opened Models
  import opened Fulfillments
  import opened Status
  import opened UcpMeta
  import opened Cart
  import opened Store
  import opened OrderBuilder
  import Json

  // ---------- Requests

  datatype CartRequest = CartRequest(
    lineItems: seq<LineItemInput>, buyer: Option<Buyer>, currency: string, payment: PaymentRequest,
    fulfillment: Option<Fulfillment>, discounts: Option<DiscountsObject>, extra: Extra)

  /** What a mandate with a good signature says. */
  datatype Claims = Claims(
    expires: Option<int>, checkoutId: Option<string>, bodyId: Option<string>, bodyAuthorization: Option<Authorization>)

  /** Payment data, and the outcome of checking the signature of the mandate when one is required. */
  datatype CompleteRequest = CompleteRequest(data: Instrument, mandate: Option<Result<Claims, ServiceError>>)

  /** The clock, read once for a request: seconds, the same as text, and the text of the session's expiry. */
  datatype Clock = Clock(now: nat, text: string, expiry: string)

  // ---------- Parts of a session

  /** A request that selects no instrument keeps the selection, and with it the instruments, of the session. */
  function PaymentFor(cfg: Config, q: PaymentRequest, existing: Option<Payment>): Payment {
    if q.selected.None? && existing.Some? then
      Payment(cfg.handlers, existing.value.selected, FirstOf(q.instruments, existing.value.instruments), q.extra)
    else Payment(cfg.handlers, q.selected, q.instruments, q.extra)
  }

  method BuildPaymentResponse(cfg: Config, q: PaymentRequest, existing: Option<Payment>) returns (p: Payment)
    ensures p == PaymentFor(cfg, q, existing)
  {
    p := Payment(cfg.handlers, q.selected, q.instruments, q.extra);
    if p.selected.None? && existing.Some? {
      p := p.(selected := existing.value.selected);
      if p.instruments.None? { p := p.(instruments := existing.value.instruments); }
    }
  }

  /** The authorization covers the session without its authorization. */
  function AuthorizationFor(cfg: Config, c: Checkout): Option<Authorization> {
    if !cfg.ap2Enabled then None
    else if cfg.ap2Authorization.Some? then Some(StaticText(cfg.ap2Authorization.value))
    else if cfg.ap2Key.Some? then Some(Signature(cfg.ap2Key.value, c.(ap2 := None)))
    else None
  }

  function Signed(cfg: Config, c: Checkout): Checkout { c.(ap2 := AuthorizationFor(cfg, c)) }

  /** What the service holds against the authorization of a session it is asked to complete. */
  function AuthorizationError(cfg: Config, c: Checkout): Option<ServiceError> {
    if c.ap2.None? then Some(InvalidInput("ap2.merchant_authorization is required"))
    else if cfg.ap2Authorization.Some? then
      if c.ap2.value == StaticText(cfg.ap2Authorization.value) then None
      else Some(InvalidInput("ap2.merchant_authorization mismatch"))
    else if cfg.ap2Key.None? then Some(InvalidInput("ap2 signing key is not configured"))
    else if c.ap2.value == Signature(cfg.ap2Key.value, c.(ap2 := None)) then None
    else Some(InvalidInput("signature verification failed"))
  }

  function ClaimsError(c: Checkout, claims: Claims, now: int): Option<ServiceError> {
    if claims.expires.Some? && claims.expires.value <= now then Some(InvalidInput("ap2.checkout_mandate is expired"))
    else if claims.checkoutId.Some? && claims.checkoutId.value != c.id then
      Some(InvalidInput("ap2.checkout_mandate checkout_id mismatch"))
    else if claims.bodyId.Some? && claims.bodyId.value != c.id then
      Some(InvalidInput("ap2.checkout_mandate checkout mismatch"))
    else if claims.bodyAuthorization.Some? && c.ap2.Some? && claims.bodyAuthorization != c.ap2 then
      Some(InvalidInput("ap2.checkout_mandate merchant_authorization mismatch"))
    else None
  }

  function MandateError(cfg: Config, c: Checkout, mandate: Option<Result<Claims, ServiceError>>, now: int):
      Option<ServiceError>
  {
    if mandate.None? then None
    else if mandate.value.Err? then Some(mandate.value.error)
    else FirstOf(ClaimsError(c, mandate.value.value, now), AuthorizationError(cfg, c))
  }

  predicate IsCardCredential(credential: Json.Value) {
    credential.Obj? &&
    ((exists i :: 0 <= i < |credential.members| && credential.members[i].key == "type" &&
        credential.members[i].value == Json.Str("card")) ||
     exists i :: 0 <= i < |credential.members| && credential.members[i].key == "card_number_type")
  }

  function InstrumentError(x: Instrument): Option<ServiceError> {
    if IsBlank(x.id) then Some(InvalidInput("payment_data.id is required"))
    else if x.credential.Some? && IsCardCredential(x.credential.value) then
      Some(InvalidInput("payment_data.credential must be tokenized; card credentials are not permitted"))
    else None
  }

  /** The instrument replaces the first one with its id or is added, and is selected. */
  function WithInstrument(p: Payment, x: Instrument): Payment {
    var s := if p.instruments.Some? then p.instruments.value else [];
    var i := FindInstrument(s, x.id);
    p.(instruments := Some(if i < |s| then s[i := x] else s + [x]), selected := Some(x.id))
  }

  method AttachPaymentData(payment: Payment, data: Instrument) returns (r: Result<Payment, ServiceError>)
    ensures r ==
      if InstrumentError(data).Some? then Err(InstrumentError(data).value) else Ok(WithInstrument(payment, data))
  {
    hide IsBlank;
    if IsBlank(data.id) { return Err(InvalidInput("payment_data.id is required")); }
    if data.credential.Some? && IsCardCredential(data.credential.value) {
      return Err(InvalidInput("payment_data.credential must be tokenized; card credentials are not permitted"));
    }
    var p := payment;
    if p.instruments.None? { p := p.(instruments := Some([])); }
    var i := FindInstrument(p.instruments.value, data.id);
    if i < |p.instruments.value| {
      p := p.(instruments := Some(p.instruments.value[i := data]));
    } else {
      p := p.(instruments := Some(p.instruments.value + [data]));
    }
    r := Ok(p.(selected := Some(data.id)));
  }

  // ---------- Sessions as values

  predicate Terminal(s: Models.Status) { s == Completed || s == Canceled }

  function CartError(catalog: Catalog, q: CartRequest): (e: Option<ServiceError>)
    ensures e.None? ==> Orderable(catalog, q.lineItems)
  {
    var e := FirstOf(CurrencyError(q.currency), LinesError(catalog, q.lineItems, NormalCurrency(q.currency)));
    assert e.None? ==> Orderable(catalog, q.lineItems) by {
      if e.None? { NoErrorOrderable(catalog, q.lineItems, NormalCurrency(q.currency)); }
    }
    e
  }

  /** A session before its status is evaluated. */
  function Draft(cfg: Config, e: Evaluation, id: string, buyer: Option<Buyer>, currency: string, payment: Payment,
      expiresAt: string, extra: Extra): Checkout
  {
    Checkout(
      ResponseMeta(cfg, e.fulfillment.Some?, e.discounts.Some?, HasConsent(buyer), cfg.ap2Enabled),
      id, e.lines, buyer, Incomplete, currency, e.totals, e.discounts, e.fulfillment, None, cfg.links, expiresAt, None,
      payment, None, None, extra)
  }

  function CreateError(catalog: Catalog, q: CartRequest): (e: Option<ServiceError>)
    ensures e.None? ==> Orderable(catalog, q.lineItems)
  {
    if q.lineItems == [] then Some(InvalidInput("line_items must contain at least one item")) else CartError(catalog, q)
  }

  function EvaluateRequest(cfg: Config, catalog: Catalog, q: CartRequest, fulfillment: Option<Fulfillment>,
      discounts: Option<DiscountsObject>, n: nat): Evaluation
    requires Orderable(catalog, q.lineItems)
  {
    var (lines, n1) := NewLines(catalog, q.lineItems, n);
    Evaluate(cfg, lines, fulfillment, discounts, n1)
  }

  function NewSession(cfg: Config, catalog: Catalog, q: CartRequest, expiry: string, n: nat): (r: (Checkout, nat))
    requires Orderable(catalog, q.lineItems)
  {
    var e := EvaluateRequest(cfg, catalog, q, q.fulfillment, q.discounts, n);
    var draft := Draft(cfg, e, FreshId("chk_", e.next), q.buyer, NormalCurrency(q.currency),
      PaymentFor(cfg, q.payment, None), expiry, q.extra);
    (Signed(cfg, WithStatus(cfg, draft)), e.next + 1)
  }

  function UpdateError(catalog: Catalog, c: Checkout, q: CartRequest): (e: Option<ServiceError>)
    ensures e.None? ==> Orderable(catalog, q.lineItems)
  {
    if Terminal(c.status) then Some(InvalidState("Checkout session cannot be updated")) else CartError(catalog, q)
  }

  function UpdatedSession(cfg: Config, catalog: Catalog, c: Checkout, q: CartRequest, n: nat): (r: (Checkout, nat))
    requires Orderable(catalog, q.lineItems)
  {
    var e := EvaluateRequest(cfg, catalog, q,
      FirstOf(q.fulfillment, c.fulfillment), FirstOf(q.discounts, c.discounts), n);
    var draft := Draft(cfg, e, c.id, FirstOf(q.buyer, c.buyer), NormalCurrency(q.currency),
      PaymentFor(cfg, q.payment, Some(c.payment)), c.expiresAt, c.extra + q.extra);
    (Signed(cfg, WithStatus(cfg, draft)), e.next)
  }

  function CompleteError(cfg: Config, c: Checkout, q: CompleteRequest, now: int): Option<ServiceError> {
    if c.status == Completed then Some(InvalidState("Checkout session already completed"))
    else if c.status == Canceled then Some(InvalidState("Checkout session is canceled"))
    else if c.status != ReadyForComplete then Some(InvalidState("Checkout session is not ready for completion"))
    else if MandateError(cfg, c, q.mandate, now).Some? then MandateError(cfg, c, q.mandate, now)
    else if InstrumentError(q.data).Some? then InstrumentError(q.data)
    else if WithStatus(cfg, c.(payment := WithInstrument(c.payment, q.data))).status != ReadyForComplete then
      Some(InvalidState("Checkout session is not ready for completion"))
    else None
  }

  /** The session as it is ordered. */
  function PaidSession(cfg: Config, c: Checkout, data: Instrument): Checkout {
    WithStatus(cfg, c.(payment := WithInstrument(c.payment, data)))
  }

  function CompletedSession(cfg: Config, c: Checkout, orderId: string): Checkout {
    Signed(cfg, c.(order := Some(OrderConfirmation(orderId, cfg.baseUrl + "/orders/" + orderId)), status := Completed,
                   messages := None, continueUrl := None))
  }

  function CancelError(c: Checkout): Option<ServiceError> {
    if Terminal(c.status) then Some(InvalidState("Checkout session cannot be canceled")) else None
  }

  function CanceledSession(c: Checkout): Checkout { c.(status := Canceled, messages := None) }

  // ---------- Requests as steps of the whole service

  /** All sessions, the supply of identifiers, and the orders announced so far. */
  datatype World = World(sessions: Contents, supply: nat, orders: seq<Order>)

  datatype Step = Step(reply: Result<Checkout, ServiceError>, world: World)

  function NoSession(id: string): ServiceError { NotFound("Checkout " + id + " not found") }

  /** The error, with nothing changed but an expired session dropped. */
  function Failed(w: World, id: string, now: int, e: ServiceError): Step {
    Step(Err(e), w.(sessions := LookedUp(w.sessions, id, now)))
  }

  /** The session is stored anew. */
  function Saved(cfg: Config, w: World, c: Checkout, now: int): Step {
    Step(Ok(c), w.(sessions := Inserted(w.sessions, c, Some(cfg.ttl), now)))
  }

  function CreateStep(cfg: Config, catalog: Catalog, w: World, q: CartRequest, t: Clock): Step {
    var e := CreateError(catalog, q);
    if e.Some? then Step(Err(e.value), w) else
    var (c, n) := NewSession(cfg, catalog, q, t.expiry, w.supply);
    Saved(cfg, w.(supply := n), c, t.now)
  }

  function GetStep(w: World, id: string, now: int): Step {
    var c := Live(w.sessions, id, now);
    if c.None? then Failed(w, id, now, NoSession(id)) else Step(Ok(c.value), w)
  }

  function UpdateStep(cfg: Config, catalog: Catalog, w: World, id: string, bodyId: string, q: CartRequest, t: Clock):
      Step
  {
    if id != bodyId then Step(Err(InvalidInput("Checkout id does not match URL")), w) else
    var found := Live(w.sessions, id, t.now);
    if found.None? then Failed(w, id, t.now, NoSession(id)) else
    var e := UpdateError(catalog, found.value, q);
    if e.Some? then Step(Err(e.value), w) else
    var (c, n) := UpdatedSession(cfg, catalog, found.value, q, w.supply);
    Saved(cfg, w.(supply := n), c, t.now)
  }

  function CompleteStep(cfg: Config, w: World, id: string, q: CompleteRequest, t: Clock): Step {
    var found := Live(w.sessions, id, t.now);
    if found.None? then Failed(w, id, t.now, NoSession(id)) else
    var e := CompleteError(cfg, found.value, q, t.now);
    if e.Some? then Step(Err(e.value), w) else
    var paid := PaidSession(cfg, found.value, q.data);
    var orderId := FreshId("order_", w.supply);
    var (order, n) := OrderFor(cfg, paid, orderId, t.text, w.supply + 1);
    Saved(cfg, w.(supply := n, orders := w.orders + [order]), CompletedSession(cfg, paid, orderId), t.now)
  }

  function CancelStep(cfg: Config, w: World, id: string, now: int): Step {
    var found := Live(w.sessions, id, now);
    if found.None? then Failed(w, id, now, NoSession(id)) else
    var e := CancelError(found.value);
    if e.Some? then Step(Err(e.value), w) else Saved(cfg, w, CanceledSession(found.value), now)
  }

  // ---------- The service

  /** No amount of the evaluated request leaves the 64-bit range. */
  predicate RequestFits(cfg: Config, catalog: Catalog, q: CartRequest, fulfillment: Option<Fulfillment>,
      discounts: Option<DiscountsObject>, n: nat)
  {
    CartError(catalog, q).None? ==>
      var (lines, n1) := NewLines(catalog, q.lineItems, n);
      EvaluationFits(cfg, lines, fulfillment, discounts, n1)
  }

  class CheckoutService {
    const cfg: Config
    const catalog: Catalog
    const store: CheckoutStore
    var supply: nat
    var orders: seq<Order>

    ghost function Value(): World
      reads this, store
    {
      World(store.Value(), supply, orders)
    }

    constructor (cfg: Config, catalog: Catalog)
      ensures fresh(store) && this.cfg == cfg && this.catalog == catalog && Value() == World(EMPTY, 0, [])
    {
      this.cfg, this.catalog := cfg, catalog;
      store := new CheckoutStore();
      supply, orders := 0, [];
    }

    /** Lines, fulfillment, discounts and totals of a request; no field changes. */
    method EvaluateFields(q: CartRequest, fulfillment: Option<Fulfillment>, discounts: Option<DiscountsObject>)
        returns (r: Result<Evaluation, ServiceError>)
      requires RequestFits(cfg, catalog, q, fulfillment, discounts, supply)
      ensures var e := CartError(catalog, q);
        if e.Some? then r == Err(e.value)
        else r == Ok(EvaluateRequest(cfg, catalog, q, fulfillment, discounts, supply))
    {
      hide LinesError, NewLines, Evaluate, EvaluationFits, CurrencyError, NormalCurrency;
      var e := CurrencyError(q.currency);
      if e.Some? { return Err(e.value); }
      var lines, n := BuildLineItems(catalog, q.lineItems, NormalCurrency(q.currency), supply);
      if lines.Err? { return Err(lines.error); }
      var v := EvaluateCart(cfg, lines.value, fulfillment, discounts, n);
      r := Ok(v);
    }

    method CreateCheckout(q: CartRequest, t: Clock) returns (r: Result<Checkout, ServiceError>)
      requires RequestFits(cfg, catalog, q, q.fulfillment, q.discounts, supply)
      modifies this, store
      ensures Step(r, Value()) == CreateStep(cfg, catalog, old(Value()), q, t)
    {
      hide CartError, EvaluateRequest, RequestFits, WithStatus, AuthorizationFor, NormalCurrency, Orderable;
      if q.lineItems == [] { return Err(InvalidInput("line_items must contain at least one item")); }
      var e := EvaluateFields(q, q.fulfillment, q.discounts);
      if e.Err? { return Err(e.error); }
      var payment := BuildPaymentResponse(cfg, q.payment, None);
      var checkout := Draft(cfg, e.value, FreshId("chk_", e.value.next), q.buyer, NormalCurrency(q.currency), payment,
        t.expiry, q.extra);
      supply := e.value.next + 1;
      checkout := ApplyStatus(cfg, checkout);
      checkout := checkout.(ap2 := AuthorizationFor(cfg, checkout));
      store.Insert(checkout, Some(cfg.ttl), t.now);
      r := Ok(checkout);
    }

    method GetCheckout(id: string, now: int) returns (r: Result<Checkout, ServiceError>)
      modifies store
      ensures Step(r, Value()) == GetStep(old(Value()), id, now)
    {
      var found := store.Get(id, now);
      if found.None? { return Err(NoSession(id)); }
      r := Ok(found.value);
    }

    method UpdateCheckout(id: string, bodyId: string, q: CartRequest, t: Clock)
        returns (r: Result<Checkout, ServiceError>)
      requires forall c :: Live(store.Value(), id, t.now) == Some(c) ==>
        RequestFits(cfg, catalog, q, FirstOf(q.fulfillment, c.fulfillment), FirstOf(q.discounts, c.discounts), supply)
      modifies this, store
      ensures Step(r, Value()) == UpdateStep(cfg, catalog, old(Value()), id, bodyId, q, t)
    {
      hide CartError, EvaluateRequest, RequestFits, WithStatus, AuthorizationFor, NormalCurrency, Orderable, PaymentFor;
      if id != bodyId { return Err(InvalidInput("Checkout id does not match URL")); }
      var found := GetCheckout(id, t.now);
      if found.Err? { return found; }
      var existing := found.value;
      if existing.status == Completed || existing.status == Canceled {
        return Err(InvalidState("Checkout session cannot be updated"));
      }
      var e := EvaluateFields(q,
        FirstOf(q.fulfillment, existing.fulfillment), FirstOf(q.discounts, existing.discounts));
      if e.Err? { return Err(e.error); }
      var payment := BuildPaymentResponse(cfg, q.payment, Some(existing.payment));
      var checkout := Draft(cfg, e.value, existing.id, FirstOf(q.buyer, existing.buyer), NormalCurrency(q.currency),
        payment, existing.expiresAt, existing.extra + q.extra);
      supply := e.value.next;
      checkout := ApplyStatus(cfg, checkout);
      checkout := checkout.(ap2 := AuthorizationFor(cfg, checkout));
      store.Insert(checkout, Some(cfg.ttl), t.now);
      r := Ok(checkout);
    }

    method CompleteCheckout(id: string, q: CompleteRequest, t: Clock) returns (r: Result<Checkout, ServiceError>)
      modifies this, store
      ensures Step(r, Value()) == CompleteStep(cfg, old(Value()), id, q, t)
    {
      hide WithStatus, AuthorizationFor, OrderFor, MandateError, InstrumentError, WithInstrument;
      var found := GetCheckout(id, t.now);
      if found.Err? { return found; }
      var checkout := found.value;
      if checkout.status == Completed { return Err(InvalidState("Checkout session already completed")); }
      if checkout.status == Canceled { return Err(InvalidState("Checkout session is canceled")); }
      if checkout.status != ReadyForComplete {
        return Err(InvalidState("Checkout session is not ready for completion"));
      }
      var e := MandateError(cfg, checkout, q.mandate, t.now);
      if e.Some? { return Err(e.value); }
      var payment := AttachPaymentData(checkout.payment, q.data);
      if payment.Err? { return Err(payment.error); }
      checkout := checkout.(payment := payment.value);
      checkout := ApplyStatus(cfg, checkout);
      if checkout.status != ReadyForComplete {
        return Err(InvalidState("Checkout session is not ready for completion"));
      }
      var orderId := FreshId("order_", supply);
      var order, n := BuildOrder(cfg, checkout, orderId, t.text, supply + 1);
      checkout := checkout.(order := Some(OrderConfirmation(orderId, cfg.baseUrl + "/orders/" + orderId)));
      checkout := checkout.(status := Completed, messages := None, continueUrl := None);
      checkout := checkout.(ap2 := AuthorizationFor(cfg, checkout));
      store.Insert(checkout, Some(cfg.ttl), t.now);
      supply := n;
      orders := orders + [order];
      r := Ok(checkout);
    }

    method CancelCheckout(id: string, now: int) returns (r: Result<Checkout, ServiceError>)
      modifies store
      ensures Step(r, Value()) == CancelStep(cfg, old(Value()), id, now)
    {
      var found := GetCheckout(id, now);
      if found.Err? { return found; }
      var checkout := found.value;
      if checkout.status == Completed || checkout.status == Canceled {
        return Err(InvalidState("Checkout session cannot be canceled"));
      }
      checkout := checkout.(status := Canceled, messages := None);
      store.Insert(checkout, Some(cfg.ttl), now);
      r := Ok(checkout);
    }

    /** Remembers what was negotiated for a session. */
    method RecordNegotiated(id: string, n: Negotiated)
      modifies store
      ensures Value() == old(Value()).(sessions := Recorded(old(Value()).sessions, id, n))
    {
      store.SetNegotiated(id, n);
    }
  }
}
