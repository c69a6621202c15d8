/**
 What reaches the service through the protocols (src/idempotency.rs, src/main.rs, src/mcp.rs, src/a2a.rs): the keys that
 guard a request, the mandate it needs, and what a message asks for.
 */
module EndpointFacts {
  import opened Wrappers
  import opened Text
  import opened Models
  import opened UcpMeta
  import opened Cart
  import opened Checkouts
  import opened Completion
  import opened Runs
  import opened Endpoints
  import R = Replay

  // ---------- Keys

  /** The request only reads. */
  predicate OnlyReads(b: Body) { if b.Readable? then b.action.Get? else b.verb == ToGet }

  /** The request completes or cancels a session, or would if it could be read. */
  predicate Finishes(b: Body) {
    if b.Readable? then b.action.Complete? || b.action.Cancel? else b.verb == ToComplete || b.verb == ToCancel
  }

  /** Visible ASCII characters, spaces and tabs. */
  ghost predicate IsHeaderText(key: string) {
    forall i :: 0 <= i < |key| ==> key[i] == '\t' || 32 <= key[i] as int <= 126
  }

  /**
   When a request is turned down before its key is looked up: over HTTP for an unreadable or blank key, or for a body of
   more than 1 MiB under a key; over MCP without parameters, or without key when it completes or cancels; over A2A
   without content or message id.
   */
  lemma FaultIff(p: R.Policy, q: Incoming)
    ensures KeyFault(p, q).Some? <==>
      match p
      case Http => q.key.Some? && (
        !IsHeaderText(q.key.value) || IsBlank(q.key.value) ||
        (!OnlyReads(q.body) && q.payload.HttpPayload? && |q.payload.text| > 1_048_576))
      case Mcp => q.body.Absent? || (q.key.None? && Finishes(q.body))
      case A2a => q.body.Absent? || q.key.None?
  {
    hide IsBlank;
  }

  /** Which requests are guarded, and by which key: over HTTP and MCP all but those that only read. */
  lemma GuardedIff(p: R.Policy, q: Incoming)
    ensures KeyOf(p, q).Some? <==> q.key.Some? && KeyFault(p, q).None? && (p == R.A2a || !OnlyReads(q.body))
    ensures KeyOf(p, q).Some? ==> KeyOf(p, q).value == if p == R.Http then Trim(q.key.value) else q.key.value
  {
    hide KeyFault, Trim;
  }

  /** Every answer has a status below 500, so every answer under a key is kept. */
  lemma HttpStatusMeans(a: Answer)
    ensures HttpStatus(a) == 200 <==> a.Shown?
    ensures HttpStatus(a) == 400 <==> a.Failed? && a.error.InvalidInput?
    ensures HttpStatus(a) == 404 <==> a.Failed? && a.error.NotFound?
    ensures HttpStatus(a) == 405 <==> a.Failed? && a.error.InvalidState?
    ensures HttpStatus(a) in {200, 400, 404, 405, 422}
  {
  }

  // ---------- Mandates

  /** The platform negotiated mandates; or it negotiated nothing, and the service has AP2 switched on. */
  ghost predicate DemandsMandate(cfg: Config, negotiated: Option<Negotiated>) {
    if negotiated.None? then cfg.ap2Enabled
    else
      exists i :: 0 <= i < |negotiated.value.capabilities| &&
        negotiated.value.capabilities[i].name == "dev.ucp.shopping.ap2_mandate"
  }

  /** A mandate is checked exactly when it is demanded, and nothing else about the request changes. */
  lemma RequirementMeans(cfg: Config, q: CompleteRequest, negotiated: Option<Negotiated>)
    ensures var r := WithRequirement(cfg, q, negotiated);
      r.data == q.data && (r.mandate.Some? <==> DemandsMandate(cfg, negotiated)) &&
      (DemandsMandate(cfg, negotiated) && q.mandate.Some? ==> r.mandate == q.mandate) &&
      (DemandsMandate(cfg, negotiated) && q.mandate.None? ==> r.mandate.value.Err?)
  {
  }

  /**
   A completion that reaches the service after any run is answered with a session exactly when the session is found and
   ready, the instrument usable, and, if a mandate is demanded, there is a good one.
   */
  lemma CompletionShownIff(cfg: Config, catalog: Catalog, calls: seq<Call>, q: Incoming, id: string,
      data: CompleteRequest)
    requires q.body == Readable(Complete(id, data))
    ensures var w := WorldAfter(cfg, catalog, calls, |calls|);
      Answered(cfg, catalog, w, q).0.Shown? <==>
        id in w.sessions.cache &&
        var (c, deadline) := (w.sessions.cache[id].checkout, w.sessions.cache[id].deadline);
        (deadline.Some? ==> q.t.now <= deadline.value) && c.status == ReadyForComplete && IsUsable(data.data) &&
        (DemandsMandate(cfg, q.negotiated) ==>
          data.mandate.Some? && data.mandate.value.Ok? && ClaimsHold(data.mandate.value.value, c, q.t.now) &&
          cfg.ap2Enabled && (cfg.ap2Authorization.Some? || cfg.ap2Key.Some?))
  {
    hide WorldAfter, CompleteStep, IsUsable, ClaimsHold, DemandsMandate, WithRequirement, Projected;
    RequirementMeans(cfg, data, q.negotiated);
    ReachableCompletesIff(cfg, catalog, calls, id, WithRequirement(cfg, data, q.negotiated), q.t);
  }

  // ---------- Messages

  /** The message is about this checkout: it names it, or its cart does, or failing both its context is about it. */
  ghost predicate IsAbout(p: Part, current: Option<string>, id: string) {
    if p.checkoutId.Some? then p.checkoutId.value == id
    else if p.checkout.Some? && p.checkout.value.id.Some? then p.checkout.value.id.value == id
    else current == Some(id)
  }

  /** A message without named action completes when it has payment data, and otherwise updates or creates its cart. */
  predicate AsksTo(p: Part, action: string) {
    if p.action.Some? then p.action.value == action
    else if p.payment.Some? then action == "complete_checkout"
    else if p.checkout.Some? && p.checkout.value.id.Some? then action == "update_checkout"
    else p.checkout.Some? && action == "create_checkout"
  }

  ghost predicate IsCart(p: Part, cart: CartRequest) { p.checkout.Some? && p.checkout.value.cart == Ok(cart) }

  lemma AsksIff(p: Part)
    ensures forall action :: ResolveAction(p) == Some(action) <==> AsksTo(p, action)
  {
  }

  lemma TargetMeans(p: Part, current: Option<string>)
    ensures forall id :: TargetId(p, current) == Some(id) <==> IsAbout(p, current, id)
  {
  }

  lemma BodiesOfCarts(p: Part, target: Option<string>)
    ensures CreateBody(p).Garbled? || (CreateBody(p).Readable? && CreateBody(p).action.Create?)
    ensures UpdateBody(p, target).Garbled? || (UpdateBody(p, target).Readable? && UpdateBody(p, target).action.Update?)
    ensures CompleteBody(p, target).Garbled? ||
      (CompleteBody(p, target).Readable? && CompleteBody(p, target).action.Complete?)
  {
  }

  lemma CreateBodyIff(p: Part, cart: CartRequest)
    ensures CreateBody(p) == Readable(Create(cart)) <==> IsCart(p, cart)
  {
  }

  lemma UpdateBodyIff(p: Part, current: Option<string>, id: string, bodyId: string, cart: CartRequest)
    ensures UpdateBody(p, TargetId(p, current)) == Readable(Update(id, bodyId, cart)) <==>
      IsCart(p, cart) && id == bodyId && TargetId(p, current).Some? &&
      (if p.checkout.value.id.Some? then id == p.checkout.value.id.value else TargetId(p, current) == Some(id))
  {
  }

  lemma CompleteBodyIff(p: Part, current: Option<string>, id: string, x: CompleteRequest)
    ensures CompleteBody(p, TargetId(p, current)) == Readable(Complete(id, x)) <==>
      TargetId(p, current) == Some(id) && p.payment == Some(Ok(x.data)) && x.mandate == p.mandate
  {
  }

  ghost predicate AsksOnlyTo(p: Part, action: string) { forall a :: AsksTo(p, a) ==> a == action }

  /** At most one of the five actions is asked for, and it decides. */
  lemma DispatchedByAction(p: Part, current: Option<string>)
    ensures var d, target := Dispatched(p, current), TargetId(p, current);
      if AsksTo(p, "create_checkout") then d == CreateBody(p) && AsksOnlyTo(p, "create_checkout")
      else if AsksTo(p, "update_checkout") then d == UpdateBody(p, target) && AsksOnlyTo(p, "update_checkout")
      else if AsksTo(p, "complete_checkout") then d == CompleteBody(p, target) && AsksOnlyTo(p, "complete_checkout")
      else if AsksTo(p, "get_checkout") then
        d == (if target.Some? then Readable(Get(target.value)) else Garbled(ToGet, "Missing checkout_id")) &&
        AsksOnlyTo(p, "get_checkout")
      else if AsksTo(p, "cancel_checkout") then
        d == if target.Some? then Readable(Cancel(target.value)) else Garbled(ToCancel, "Missing checkout_id")
      else d.Garbled?
  {
    hide CreateBody, UpdateBody, CompleteBody, ResolveAction, TargetId, AsksTo;
    AsksIff(p);
  }

  /** What a message asks for, action by action; a message that asks for none of these is garbled. */
  lemma DispatchedIff(p: Part, current: Option<string>, r: Action)
    ensures Dispatched(p, current) == Readable(r) <==>
      match r
      case Create(cart) => AsksTo(p, "create_checkout") && IsCart(p, cart)
      case Get(id) => AsksTo(p, "get_checkout") && IsAbout(p, current, id)
      case Update(id, bodyId, cart) =>
        AsksTo(p, "update_checkout") && IsCart(p, cart) && id == bodyId && (exists k :: IsAbout(p, current, k)) &&
        (if p.checkout.value.id.Some? then id == p.checkout.value.id.value else IsAbout(p, current, id))
      case Complete(id, x) =>
        AsksTo(p, "complete_checkout") && IsAbout(p, current, id) && p.payment == Some(Ok(x.data)) &&
        x.mandate == p.mandate
      case Cancel(id) => AsksTo(p, "cancel_checkout") && IsAbout(p, current, id)
  {
    hide CreateBody, UpdateBody, CompleteBody, Dispatched, AsksTo, TargetId, IsCart, IsAbout;
    TargetMeans(p, current);
    DispatchedByAction(p, current);
    BodiesOfCarts(p, TargetId(p, current));
    match r
    case Create(cart) => CreateBodyIff(p, cart);
    case Update(id, bodyId, cart) => UpdateBodyIff(p, current, id, bodyId, cart);
    case Complete(id, x) => CompleteBodyIff(p, current, id, x);
    case _ =>
  }
}
