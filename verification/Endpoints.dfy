/**
 The three protocols in front of the checkout service (src/idempotency.rs, src/main.rs, src/mcp.rs, src/a2a.rs): each
 asks its store first, then the service, and keeps the answer.
 */
module Endpoints {
  import opened Wrappers
  import opened Text
  import opened Models
  import opened UcpMeta
  import opened Cart
  import opened Store
  import opened Checkouts
  import opened Runs
  import opened RequestHash
  import Json
  import R = Replay

  // ---------- Requests and answers

  /** A request to the service itself. */
  type Action = r: Request | !r.Negotiate? witness Get("")

  datatype Verb = ToCreate | ToGet | ToUpdate | ToComplete | ToCancel

  /** What is asked for, if it could be read, or if there was anything to read at all. */
  datatype Body = Readable(action: Action) | Garbled(verb: Verb, reason: string) | Absent(verb: Verb, reason: string)

  /** The part of a request its hash is taken of. */
  datatype Payload =
    | HttpPayload(verb: string, path: string, text: string)
    | McpPayload(verb: string, params: Json.Value)
    | A2aPayload(message: Json.Value)

  function HashOf(x: Payload): string {
    match x
    case HttpPayload(verb, path, text) => HttpPreimage(verb, path, text)
    case McpPayload(verb, params) => McpPreimage(verb, params)
    case A2aPayload(message) => A2aPreimage(message)
  }

  /** A request as it arrives: with the key it carries, its payload, and what the platform negotiated. */
  datatype Incoming = Incoming(
    key: Option<string>, payload: Payload, body: Body, negotiated: Option<Negotiated>, t: Clock)

  datatype Answer = Shown(checkout: Checkout) | Failed(error: ServiceError) | Unreadable(reason: string)

  function VerbOf(b: Body): Verb {
    match b
    case Garbled(verb, _) => verb
    case Absent(verb, _) => verb
    case Readable(Create(_)) => ToCreate
    case Readable(Update(_, _, _)) => ToUpdate
    case Readable(Complete(_, _)) => ToComplete
    case Readable(Cancel(_)) => ToCancel
    case Readable(_) => ToGet
  }

  // ---------- Keys

  const MAX_BODY_BYTES := 1_048_576

  /** Header values are visible ASCII characters, spaces and tabs. */
  predicate IsLegible(key: string) { forall i :: 0 <= i < |key| ==> ' ' <= key[i] <= '~' || key[i] == '\t' }

  function HttpKeyFault(q: Incoming): Option<string> {
    if q.key.None? then None
    else if !IsLegible(q.key.value) then Some("Idempotency-Key header must be valid ASCII")
    else if IsBlank(q.key.value) then Some("Idempotency-Key header must be a non-empty string")
    else if VerbOf(q.body) != ToGet && q.payload.HttpPayload? && |q.payload.text| > MAX_BODY_BYTES then
      Some("Request body exceeds 1048576 bytes")
    else None
  }

  /** Why a request is turned down before its key is looked up. */
  function KeyFault(p: R.Policy, q: Incoming): Option<string> {
    match p
    case Http => HttpKeyFault(q)
    case Mcp =>
      if q.body.Absent? then Some(q.body.reason)
      else if q.key.None? && VerbOf(q.body) in {ToComplete, ToCancel} then Some("Missing idempotency_key in params")
      else None
    case A2a =>
      if q.body.Absent? then Some(q.body.reason) else if q.key.None? then Some("Missing messageId") else None
  }

  /** The key under which a request is guarded. HTTP trims it; reading is guarded in A2A only. */
  function KeyOf(p: R.Policy, q: Incoming): Option<string> {
    if q.key.None? || KeyFault(p, q).Some? then None
    else if p == R.A2a then q.key
    else if VerbOf(q.body) == ToGet then None
    else if p == R.Http then Some(Trim(q.key.value))
    else q.key
  }

  /** Status of an HTTP answer. */
  function HttpStatus(a: Answer): nat {
    match a
    case Shown(_) => 200
    case Failed(InvalidInput(_)) => 400
    case Failed(NotFound(_)) => 404
    case Failed(InvalidState(_)) => 405
    case Unreadable(_) => 422
  }

  /** HTTP keeps answers below 500, MCP those to requests it could read, A2A all. */
  predicate Kept(p: R.Policy, b: Body, a: Answer) {
    match p
    case Http => HttpStatus(a) < 500
    case Mcp => b.Readable?
    case A2a => true
  }

  // ---------- The service behind them

  /** A mandate is required when the platform negotiated it, or by default when it negotiated nothing. */
  predicate MandateRequired(cfg: Config, negotiated: Option<Negotiated>) {
    if negotiated.Some? then HasCapability(negotiated.value, AP2_MANDATE) else cfg.ap2Enabled
  }

  function WithRequirement(cfg: Config, q: CompleteRequest, negotiated: Option<Negotiated>): CompleteRequest {
    if !MandateRequired(cfg, negotiated) then q.(mandate := None)
    else if q.mandate.Some? then q
    else q.(mandate := Some(Err(InvalidInput("ap2.checkout_mandate is required"))))
  }

  function Prepared(cfg: Config, r: Action, negotiated: Option<Negotiated>): Action {
    match r
    case Complete(id, q) => Complete(id, WithRequirement(cfg, q, negotiated))
    case _ => r
  }

  /** The service acts; when it succeeds, the negotiation is recorded and the session shown as negotiated. */
  function Acted(cfg: Config, catalog: Catalog, w: World, q: Incoming, r: Action): (Answer, World) {
    var s := Handle(cfg, catalog, w, Call(Prepared(cfg, r, q.negotiated), q.t));
    match s.reply
    case Err(e) => (Failed(e), s.world)
    case Ok(c) =>
      (Shown(Projected(c, q.negotiated)),
       if q.negotiated.Some? then Recording(s.world, c.id, q.negotiated.value) else s.world)
  }

  function Answered(cfg: Config, catalog: Catalog, w: World, q: Incoming): (Answer, World) {
    if q.body.Readable? then Acted(cfg, catalog, w, q, q.body.action) else (Unreadable(q.body.reason), w)
  }

  // ---------- One request

  type Entries = map<string, R.Record<Answer>>

  datatype Effect = Effect(reply: R.Reply<Answer>, entries: Entries, world: World)

  function RecordFor(q: Incoming, a: Answer): R.Record<Answer> { R.Record(HashOf(q.payload), a, q.t.now) }

  function Received(p: R.Policy, ttl: nat, cfg: Config, catalog: Catalog, m: Entries, w: World, q: Incoming): Effect {
    if KeyFault(p, q).Some? then Effect(R.Refused(KeyFault(p, q).value), m, w) else
    var key := KeyOf(p, q);
    if key.None? then
      var (a, w') := Answered(cfg, catalog, w, q);
      Effect(R.Served(a), m, w')
    else
      var m' := R.AfterLookup(p, m, key.value, q.t.now, ttl);
      var again := R.ReplayOf(R.Found(m, key.value, q.t.now, ttl), HashOf(q.payload));
      if again.Some? then Effect(again.value, m', w) else
      var (a, w') := Answered(cfg, catalog, w, q);
      Effect(R.Served(a),
        if Kept(p, q.body, a) then R.AfterInsert(p, m', key.value, RecordFor(q, a), q.t.now, ttl) else m', w')
  }

  // ---------- The handlers

  /** No amount leaves the 64-bit range when the service acts on the request. */
  ghost predicate Affordable(cfg: Config, catalog: Catalog, w: World, q: Incoming) {
    match q.body
    case Readable(Create(cart)) => RequestFits(cfg, catalog, cart, cart.fulfillment, cart.discounts, w.supply)
    case Readable(Update(id, _, cart)) =>
      forall c :: Live(w.sessions, id, q.t.now) == Some(c) ==>
        RequestFits(cfg, catalog, cart, FirstOf(cart.fulfillment, c.fulfillment), FirstOf(cart.discounts, c.discounts),
          w.supply)
    case _ => true
  }

  method Act(service: CheckoutService, q: Incoming, r: Action) returns (a: Answer)
    requires q.body == Readable(r) && Affordable(service.cfg, service.catalog, service.Value(), q)
    modifies service, service.store
    ensures a == Acted(service.cfg, service.catalog, old(service.Value()), q, r).0
    ensures service.Value() == Acted(service.cfg, service.catalog, old(service.Value()), q, r).1
  {
    hide CreateStep, UpdateStep, CompleteStep, CancelStep, GetStep, RequestFits, Projected, MandateRequired;
    var reply: Result<Checkout, ServiceError>;
    match r {
      case Create(cart) => reply := service.CreateCheckout(cart, q.t);
      case Get(id) => reply := service.GetCheckout(id, q.t.now);
      case Update(id, bodyId, cart) => reply := service.UpdateCheckout(id, bodyId, cart, q.t);
      case Complete(id, data) =>
        reply := service.CompleteCheckout(id, WithRequirement(service.cfg, data, q.negotiated), q.t);
      case Cancel(id) => reply := service.CancelCheckout(id, q.t.now);
    }
    if reply.Err? { return Failed(reply.error); }
    if q.negotiated.Some? { service.RecordNegotiated(reply.value.id, q.negotiated.value); }
    var shown := ApplyNegotiatedCheckout(reply.value, q.negotiated);
    a := Shown(shown);
  }

  class HttpEndpoint {
    const service: CheckoutService
    const store: R.IdempotencyStore<Answer>

    constructor (service: CheckoutService, store: R.IdempotencyStore<Answer>)
      ensures this.service == service && this.store == store
    {
      this.service, this.store := service, store;
    }

    /** The middleware around the routes: replay, refuse, or run the request and keep answers below 500. */
    method Handle(q: Incoming) returns (reply: R.Reply<Answer>)
      requires Affordable(service.cfg, service.catalog, service.Value(), q)
      modifies service, service.store, store
      ensures Effect(reply, store.entries, service.Value()) ==
        Received(R.Http, store.ttl, service.cfg, service.catalog, old(store.entries), old(service.Value()), q)
    {
      hide Acted, Affordable, Trim, IsBlank, HashOf, IsLegible, HttpKeyFault;
      var fault := CheckKey(q);
      if fault.Some? { return R.Refused(fault.value); }
      var guarded := q.key.Some? && VerbOf(q.body) != ToGet;
      if guarded {
        var record := store.Get(Trim(q.key.value), q.t.now);
        if record.Some? {
          return if record.value.hash != HashOf(q.payload) then R.Conflict else R.Replayed(record.value.response);
        }
      }
      var a: Answer;
      if q.body.Readable? {
        a := Act(service, q, q.body.action);
      } else {
        a := Unreadable(q.body.reason);
      }
      if guarded && HttpStatus(a) < 500 { store.Insert(Trim(q.key.value), RecordFor(q, a), q.t.now); }
      reply := R.Served(a);
    }
  }

  /** The checks of the key header, and of the size of a body that has to be buffered. */
  method CheckKey(q: Incoming) returns (fault: Option<string>)
    ensures fault == HttpKeyFault(q)
  {
    hide IsBlank, IsLegible;
    if q.key.None? { return None; }
    if !IsLegible(q.key.value) { return Some("Idempotency-Key header must be valid ASCII"); }
    if IsBlank(q.key.value) { return Some("Idempotency-Key header must be a non-empty string"); }
    if VerbOf(q.body) == ToGet { return None; }
    if q.payload.HttpPayload? && |q.payload.text| > MAX_BODY_BYTES { return
      Some("Request body exceeds 1048576 bytes"); }
    fault := None;
  }

  class McpHandler {
    const service: CheckoutService
    const store: R.McpStore<Answer>

    constructor (service: CheckoutService, store: R.McpStore<Answer>)
      ensures this.service == service && this.store == store
    {
      this.service, this.store := service, store;
    }

    /** Create and update work without a key, complete and cancel demand one, get ignores it. */
    method Handle(q: Incoming) returns (reply: R.Reply<Answer>)
      requires Affordable(service.cfg, service.catalog, service.Value(), q)
      modifies service, service.store, store
      ensures Effect(reply, store.entries, service.Value()) ==
        Received(R.Mcp, store.ttl, service.cfg, service.catalog, old(store.entries), old(service.Value()), q)
    {
      hide Acted, Affordable, HashOf;
      if q.body.Absent? { return R.Refused(q.body.reason); }
      var verb := VerbOf(q.body);
      if q.key.None? && verb in {ToComplete, ToCancel} { return R.Refused("Missing idempotency_key in params"); }
      var guarded := q.key.Some? && verb != ToGet;
      if guarded {
        var again := store.IdempotencyReplay(q.key.value, HashOf(q.payload), q.t.now);
        if again.Some? { return again.value; }
      }
      if q.body.Garbled? { return R.Served(Unreadable(q.body.reason)); }
      var a := Act(service, q, q.body.action);
      if guarded { store.StoreIdempotency(q.key.value, HashOf(q.payload), a, q.t.now); }
      reply := R.Served(a);
    }
  }

  // ---------- A2A messages

  /** A checkout in a message: its id, and the cart if it could be read. */
  datatype CheckoutPart = CheckoutPart(id: Option<string>, cart: Result<CartRequest, string>)

  /** What one part of a message says, or all of them together. */
  datatype Part = Part(
    action: Option<string>, checkoutId: Option<string>, checkout: Option<CheckoutPart>,
    payment: Option<Result<Instrument, string>>, mandate: Option<Result<Claims, ServiceError>>)

  /** A message: its id, the context it names or begins, and its parts, if it has content. */
  datatype A2aMessage = A2aMessage(
    id: Option<string>, context: string, payload: Payload, parts: Option<seq<Part>>, negotiated: Option<Negotiated>,
    t: Clock)

  const SILENT := Part(None, None, None, None, None)

  /** Later parts override earlier ones, except for the checkout id, where the first counts. */
  function Merge(p: Part, x: Part): Part {
    Part(FirstOf(x.action, p.action), FirstOf(p.checkoutId, x.checkoutId), FirstOf(x.checkout, p.checkout),
      FirstOf(x.payment, p.payment), FirstOf(x.mandate, p.mandate))
  }

  /** The first `n` parts together. */
  function Merged(parts: seq<Part>, n: nat): Part
    requires n <= |parts|
  {
    if n == 0 then SILENT else Merge(Merged(parts, n - 1), parts[n - 1])
  }

  method FromParts(parts: seq<Part>) returns (p: Part)
    ensures p == Merged(parts, |parts|)
  {
    p := SILENT;
    for i := 0 to |parts|
      invariant p == Merged(parts, i)
    {
      var x := parts[i];
      if x.action.Some? { p := p.(action := x.action); }
      if p.checkoutId.None? { p := p.(checkoutId := x.checkoutId); }
      if x.checkout.Some? { p := p.(checkout := x.checkout); }
      if x.payment.Some? { p := p.(payment := x.payment); }
      if x.mandate.Some? { p := p.(mandate := x.mandate); }
    }
  }

  function CheckoutIdOf(x: Option<CheckoutPart>): Option<string> { if x.Some? then x.value.id else None }

  /** The action of a message: the one it names, or the one its parts suggest. */
  function ResolveAction(p: Part): Option<string> {
    if p.action.Some? then p.action
    else if p.payment.Some? then Some("complete_checkout")
    else if p.checkout.Some? then
      if CheckoutIdOf(p.checkout).Some? then Some("update_checkout") else Some("create_checkout")
    else None
  }

  /** The checkout a message speaks of itself. */
  function OwnId(p: Part): Option<string> { FirstOf(p.checkoutId, CheckoutIdOf(p.checkout)) }

  /** Failing that, the one its context is about. */
  function TargetId(p: Part, current: Option<string>): Option<string> { FirstOf(OwnId(p), current) }

  function CreateBody(p: Part): Body {
    match p.checkout
    case None => Garbled(ToCreate, "Missing a2a.ucp.checkout payload")
    case Some(x) => if x.cart.Err? then Garbled(ToCreate, x.cart.error) else Readable(Create(x.cart.value))
  }

  /** The payload's own id decides; it is given the target only when it has none. */
  function UpdateBody(p: Part, target: Option<string>): Body {
    match p.checkout
    case None => Garbled(ToUpdate, "Missing a2a.ucp.checkout payload")
    case Some(x) =>
      if target.None? then Garbled(ToUpdate, "Missing checkout_id")
      else if x.cart.Err? then Garbled(ToUpdate, x.cart.error)
      else
        var id := FirstOf(x.id, target).value;
        Readable(Update(id, id, x.cart.value))
  }

  function CompleteBody(p: Part, target: Option<string>): Body {
    if target.None? then Garbled(ToComplete, "Missing checkout_id") else
    match p.payment
    case None => Garbled(ToComplete, "Missing payment_data")
    case Some(Err(e)) => Garbled(ToComplete, e)
    case Some(Ok(x)) => Readable(Complete(target.value, CompleteRequest(x, p.mandate)))
  }

  /** What a message with these parts asks for in a context that is about `current`. */
  function Dispatched(p: Part, current: Option<string>): Body {
    var action := ResolveAction(p);
    if action.None? then Garbled(ToGet, "Missing action in message") else
    var target := TargetId(p, current);
    if action.value == "create_checkout" then CreateBody(p)
    else if action.value == "get_checkout" then
      if target.None? then Garbled(ToGet, "Missing checkout_id") else Readable(Get(target.value))
    else if action.value == "update_checkout" then UpdateBody(p, target)
    else if action.value == "complete_checkout" then CompleteBody(p, target)
    else if action.value == "cancel_checkout" then
      if target.None? then Garbled(ToCancel, "Missing checkout_id") else Readable(Cancel(target.value))
    else Garbled(ToGet, "Unknown action: " + action.value)
  }

  lemma NeverAbsent(p: Part, current: Option<string>)
    ensures !Dispatched(p, current).Absent?
  {
  }

  type Contexts = map<string, string>

  function CurrentIn(contexts: Contexts, context: string): Option<string> {
    if context in contexts then Some(contexts[context]) else None
  }

  /** A message read in its context. */
  function Asked(contexts: Contexts, m: A2aMessage): Incoming {
    Incoming(m.id, m.payload,
      if m.parts.None? then Absent(ToGet, "Missing message content")
      else Dispatched(Merged(m.parts.value, |m.parts.value|), CurrentIn(contexts, m.context)),
      m.negotiated, m.t)
  }

  /** A context is about the checkout it was last shown. */
  function ContextsAfter(contexts: Contexts, m: A2aMessage, reply: R.Reply<Answer>): Contexts {
    if reply.Served? && reply.response.Shown? then contexts[m.context := reply.response.checkout.id] else contexts
  }

  class A2aHandler {
    const service: CheckoutService
    const store: R.A2aStore<Answer>
    var contextCheckouts: Contexts

    constructor (service: CheckoutService, store: R.A2aStore<Answer>)
      ensures this.service == service && this.store == store && contextCheckouts == map[]
    {
      this.service, this.store := service, store;
      contextCheckouts := map[];
    }

    /** Every message needs an id; every answer is kept under it, and a checkout shown is what its context is about. */
    method HandleSendMessage(m: A2aMessage) returns (reply: R.Reply<Answer>)
      requires Affordable(service.cfg, service.catalog, service.Value(), Asked(contextCheckouts, m))
      modifies this, service, service.store, store
      ensures Effect(reply, store.messageCache, service.Value()) ==
        Received(R.A2a, store.ttl, service.cfg, service.catalog, old(store.messageCache), old(service.Value()),
          Asked(old(contextCheckouts), m))
      ensures contextCheckouts == ContextsAfter(old(contextCheckouts), m, reply)
    {
      hide Acted, Affordable, HashOf, Dispatched, Merged;
      if m.parts.None? { return R.Refused("Missing message content"); }
      NeverAbsent(Merged(m.parts.value, |m.parts.value|), CurrentIn(contextCheckouts, m.context));
      if m.id.None? { return R.Refused("Missing messageId"); }
      var again := store.IdempotencyReplay(m.id.value, HashOf(m.payload), m.t.now);
      if again.Some? {
        return again.value;
      }
      var parsed := FromParts(m.parts.value);
      var q := Incoming(m.id, m.payload, Dispatched(parsed, CurrentIn(contextCheckouts, m.context)), m.negotiated, m.t);
      var a: Answer;
      if q.body.Readable? {
        a := Act(service, q, q.body.action);
        if a.Shown? { contextCheckouts := contextCheckouts[m.context := a.checkout.id]; }
      } else {
        a := Unreadable(q.body.reason);
      }
      store.StoreIdempotency(m.id.value, HashOf(m.payload), a, m.t.now);
      reply := R.Served(a);
    }
  }
}
