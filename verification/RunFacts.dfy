/** What holds throughout every run of the checkout service (src/service.rs, src/store.rs, src/ucp_meta.rs). */
module RunFacts {
  import opened Wrappers
  import opened Models
  import opened Fulfillments
  import opened Status
  import opened Negotiation
  import opened UcpMeta
  import opened Pricing
  import opened Cart
  import opened CartFacts
  import opened Store
  import opened Orders
  import opened OrderBuilder
  import opened Checkouts
  import opened SessionFacts
  import opened SessionPrices
  import opened Runs

  ghost predicate Ordered(calls: seq<Call>) { forall i, j :: 0 <= i < j < |calls| ==> calls[i].t.now <= calls[j].t.now }

  // ---------- Sessions

  /** What the status of a session says about it. */
  ghost predicate StatusTells(c: Checkout) {
    match c.status
    case Completed => c.order.Some? && IsReady(c) && c.messages.None? && c.continueUrl.None?
    case Canceled => c.order.None? && c.messages.None?
    case _ =>
      c.order.None? && (c.status == ReadyForComplete <==> IsReady(c)) && (c.messages.None? <==> IsReady(c)) &&
      (c.status == RequiresEscalation <==> AwaitsDestination(c)) && (c.continueUrl.Some? <==> AwaitsDestination(c))
  }

  lemma ConsistentTells(cfg: Config, catalog: Catalog, c: Checkout)
    requires Consistent(cfg, catalog, c)
    ensures StatusTells(c) && (!Terminal(c.status) ==> Settled(cfg, c)) && MetaAgrees(cfg, c)
  {
    hide CartConsistent, IsReady, AwaitsDestination, WithStatus, MetaAgrees;
    if !Terminal(c.status) { StatusMeans(cfg, c); }
  }

  /**
   After any run every stored session is consistent: an open one is a fixed point of the status evaluator, the status
   says exactly what is missing, and its cart evaluated again gives the same lines, fulfillment, discounts and
   totals.
   */
  lemma ReachableSessionsAreConsistent(cfg: Config, catalog: Catalog, calls: seq<Call>, id: string, n: nat)
    requires id in WorldAfter(cfg, catalog, calls, |calls|).sessions.cache
    ensures var c := WorldAfter(cfg, catalog, calls, |calls|).sessions.cache[id].checkout;
      c.id == id && StatusTells(c) && (!Terminal(c.status) ==> Settled(cfg, c)) && LinesSold(catalog, c.lineItems) &&
      Evaluate(cfg, c.lineItems, c.fulfillment, c.discounts, n) ==
        Evaluation(c.lineItems, c.fulfillment, c.discounts, c.totals, n)
  {
    hide WorldAfter, Evaluate, Priced, NormalFor, StatusConsistent, MetaAgrees, StatusTells, Settled, LinesSold,
      Issued, Linked, OrdersSane;
    RunIsSane(cfg, catalog, calls, |calls|);
    var c := WorldAfter(cfg, catalog, calls, |calls|).sessions.cache[id].checkout;
    ConsistentTells(cfg, catalog, c);
    SessionIsFixedPoint(cfg, catalog, c, n);
  }

  /** Whatever was negotiated, the response for a session of any run lists what its body carries. */
  lemma ReachableResponsesAgree(cfg: Config, catalog: Catalog, calls: seq<Call>, id: string,
      negotiated: Option<Negotiated>)
    requires id in WorldAfter(cfg, catalog, calls, |calls|).sessions.cache
    ensures var r := Projected(WorldAfter(cfg, catalog, calls, |calls|).sessions.cache[id].checkout, negotiated);
      (Lists(r, FULFILLMENT) <==> r.fulfillment.Some?) && (Lists(r, DISCOUNT) <==> r.discounts.Some?) &&
      (r.ap2.Some? ==> Lists(r, AP2_MANDATE)) &&
      ((Lists(r, BUYER_CONSENT) <==> HasConsent(r.buyer)) <==>
        (cfg.consentEnabled ||
         !ShowsConsent(WorldAfter(cfg, catalog, calls, |calls|).sessions.cache[id].checkout, negotiated)))
  {
    hide WorldAfter, Consistent, Issued, Linked, OrdersSane, Projected, Lists, MetaAgrees;
    RunIsSane(cfg, catalog, calls, |calls|);
    var c := WorldAfter(cfg, catalog, calls, |calls|).sessions.cache[id].checkout;
    ConsistentTells(cfg, catalog, c);
    ProjectionAgrees(cfg, c, negotiated);
  }

  /** Nor does it list an extension without its parent, when the set was negotiated with a platform. */
  lemma ReachableParentsListed(cfg: Config, catalog: Catalog, calls: seq<Call>, id: string, platform: seq<Capability>,
      version: string)
    requires id in WorldAfter(cfg, catalog, calls, |calls|).sessions.cache
    ensures ParentsListed(cfg, Projected(WorldAfter(cfg, catalog, calls, |calls|).sessions.cache[id].checkout,
      Some(Negotiated(version, CapabilitiesToRefs(Intersect(BusinessCapabilities(cfg), platform))))))
  {
    hide WorldAfter, Consistent, Issued, Linked, OrdersSane, Projected, MetaAgrees, ParentsListed, Intersect,
      BusinessCapabilities, CapabilitiesToRefs;
    RunIsSane(cfg, catalog, calls, |calls|);
    var c := WorldAfter(cfg, catalog, calls, |calls|).sessions.cache[id].checkout;
    ConsistentTells(cfg, catalog, c);
    NegotiatedParentsListed(cfg, c, platform, version);
  }

  /** Every session of a run adds up when its cost is not negative and none of its lines is over-discounted. */
  lemma ReachableTotalsAddUp(cfg: Config, catalog: Catalog, calls: seq<Call>, id: string)
    requires id in WorldAfter(cfg, catalog, calls, |calls|).sessions.cache
    requires 0 <= cfg.taxBps && forall k :: k in catalog ==> 0 <= catalog[k].price
    ensures var c := WorldAfter(cfg, catalog, calls, |calls|).sessions.cache[id].checkout;
      0 <= Cost(c.fulfillment) && NotOverDiscounted(c) ==> AddsUp(c)
  {
    hide WorldAfter, MetaAgrees, StatusConsistent, CartConsistent, Issued, Linked, OrdersSane, Cost,
      NotOverDiscounted, AddsUp;
    RunIsSane(cfg, catalog, calls, |calls|);
    var c := WorldAfter(cfg, catalog, calls, |calls|).sessions.cache[id].checkout;
    if 0 <= Cost(c.fulfillment) && NotOverDiscounted(c) { SessionAddsUp(cfg, catalog, c); }
  }

  /**
   The authorization of every session of a run verifies, unless the session was canceled and the text is not
   configured.
   */
  lemma ReachableAuthorizationVerifiesIff(cfg: Config, catalog: Catalog, calls: seq<Call>, id: string)
    requires id in WorldAfter(cfg, catalog, calls, |calls|).sessions.cache
    requires cfg.ap2Enabled && (cfg.ap2Authorization.Some? || cfg.ap2Key.Some?)
    ensures var c := WorldAfter(cfg, catalog, calls, |calls|).sessions.cache[id].checkout;
      AuthorizationError(cfg, c).None? <==> c.status != Canceled || cfg.ap2Authorization.Some?
  {
    hide WorldAfter, Consistent, Issued, Linked, OrdersSane, AuthorizationError;
    RunIsSane(cfg, catalog, calls, |calls|);
    AuthorizationVerifiesIff(cfg, catalog, WorldAfter(cfg, catalog, calls, |calls|).sessions.cache[id].checkout);
  }

  /**
   The response for a session of any run verifies exactly when nothing was negotiated or the set covers the session.
   */
  lemma ReachableProjectionVerifiesIff(cfg: Config, catalog: Catalog, calls: seq<Call>, id: string,
      negotiated: Option<Negotiated>)
    requires id in WorldAfter(cfg, catalog, calls, |calls|).sessions.cache
    requires cfg.ap2Enabled && cfg.ap2Authorization.None? && cfg.ap2Key.Some?
    ensures var c := WorldAfter(cfg, catalog, calls, |calls|).sessions.cache[id].checkout;
      c.status != Canceled ==>
        (AuthorizationError(cfg, Projected(c, negotiated)).None? <==>
          negotiated.None? || Covers(cfg, c, negotiated.value))
  {
    hide WorldAfter, Consistent, Issued, Linked, OrdersSane, AuthorizationError, Projected, Covers;
    RunIsSane(cfg, catalog, calls, |calls|);
    var c := WorldAfter(cfg, catalog, calls, |calls|).sessions.cache[id].checkout;
    if c.status != Canceled { ProjectionVerifiesIff(cfg, catalog, c, negotiated); }
  }

  // ---------- Orders

  /**
   Over any run a checkout has at most one order; while its session is stored, that session is completed under the
   order's id with the same lines, quantities and totals; and a stored completed session has an order.
   */
  lemma OneOrderPerCheckout(cfg: Config, catalog: Catalog, calls: seq<Call>)
    ensures var w := WorldAfter(cfg, catalog, calls, |calls|);
      (forall i, j :: 0 <= i < j < |w.orders| ==> w.orders[i].checkoutId != w.orders[j].checkoutId) &&
      (forall i :: 0 <= i < |w.orders| ==> Sound(w.orders[i]) && CountersMatch(w.orders[i])) &&
      (forall i :: 0 <= i < |w.orders| && w.orders[i].checkoutId in w.sessions.cache ==>
        IsOrderOf(w.orders[i], w.sessions.cache[w.orders[i].checkoutId].checkout)) &&
      (forall id :: id in w.sessions.cache && w.sessions.cache[id].checkout.status == Completed ==>
        exists i :: 0 <= i < |w.orders| && w.orders[i].checkoutId == id)
  {
    hide WorldAfter, SessionsSane, IsOrderOf, Sound, CountersMatch, Issued;
    RunIsSane(cfg, catalog, calls, |calls|);
  }

  /** A request announces an order exactly when it completes a session, and then just the one. */
  lemma StepOrders(cfg: Config, catalog: Catalog, w: World, call: Call)
    ensures var s := Handle(cfg, catalog, w, call);
      if call.request.Complete? && s.reply.Ok? then
        |s.world.orders| == |w.orders| + 1 && w.orders <= s.world.orders &&
        s.reply.value.status == Completed && s.reply.value.order.Some? &&
        s.reply.value.order.value.id == s.world.orders[|w.orders|].id
      else s.world.orders == w.orders
  {
    hide CreateError, NewSession, UpdateError, UpdatedSession, Live, LookedUp, Inserted, CompleteError, PaidSession,
      OrderFor, FreshId;
    match call.request
    case Complete(id, q) =>
      if Live(w.sessions, id, call.t.now).Some? {
        var paid := PaidSession(cfg, Live(w.sessions, id, call.t.now).value, q.data);
        OrderCarriesId(cfg, paid, FreshId("order_", w.supply), call.t.text, w.supply + 1);
      }
    case _ =>
  }

  lemma OrderCarriesId(cfg: Config, c: Checkout, orderId: string, now: string, n: nat)
    ensures OrderFor(cfg, c, orderId, now, n).0.id == orderId
  {
    hide InitialEvents;
  }

  lemma {:induction false} OrdersOnlyGrow(cfg: Config, catalog: Catalog, calls: seq<Call>, m: nat, n: nat)
    requires m <= n <= |calls|
    ensures WorldAfter(cfg, catalog, calls, m).orders <= WorldAfter(cfg, catalog, calls, n).orders
  {
    hide Handle;
    if m < n {
      OrdersOnlyGrow(cfg, catalog, calls, m, n - 1);
      StepOrders(cfg, catalog, WorldAfter(cfg, catalog, calls, n - 1), calls[n - 1]);
    }
  }

  // ---------- Errors and terminal sessions

  /** A request that fails leaves every live session, and the orders, as they were. */
  lemma ErrorsChangeNothing(cfg: Config, catalog: Catalog, w: World, call: Call, id: string, later: int)
    requires Handle(cfg, catalog, w, call).reply.Err? && call.t.now <= later
    ensures var next := Handle(cfg, catalog, w, call).world;
      Live(next.sessions, id, later) == Live(w.sessions, id, later) &&
      next.orders == w.orders && next.supply == w.supply
  {
    hide CreateError, NewSession, UpdateError, UpdatedSession, CompleteError, PaidSession, OrderFor, FreshId,
      CompletedSession, CancelError, CanceledSession;
  }

  // ---------- What a step stores

  predicate Changes(r: Request) { r.Create? || r.Update? || r.Complete? || r.Cancel? }

  /** A change that succeeds stores the session it answers with: under a new identifier, or in place of an open one. */
  ghost predicate StoresReply(cfg: Config, w: World, call: Call, s: Step) {
    s.reply.Ok? && s.world.sessions == Inserted(w.sessions, s.reply.value, Some(cfg.ttl), call.t.now) &&
    var id := s.reply.value.id;
    if call.request.Create? then id !in w.sessions.cache && !Issued("chk_", id, w.supply)
    else id in w.sessions.cache && !Terminal(w.sessions.cache[id].checkout.status)
  }

  lemma CreateStores(cfg: Config, catalog: Catalog, w: World, call: Call)
    requires Sane(cfg, catalog, w) && call.request.Create? && Handle(cfg, catalog, w, call).reply.Ok?
    ensures StoresReply(cfg, w, call, Handle(cfg, catalog, w, call))
  {
    hide Issued, CreateError, NewSession, FreshId, Consistent, Linked, OrdersSane;
    var (q, t) := (call.request.cart, call.t);
    var (c, n) := NewSession(cfg, catalog, q, t.expiry, w.supply);
    NewSessionIsConsistent(cfg, catalog, q, t.expiry, w.supply);
    FreshIsNew("chk_", n - 1);
    if Issued("chk_", c.id, w.supply) { IssuedLater("chk_", c.id, w.supply, n - 1); }
  }

  lemma UpdateStores(cfg: Config, catalog: Catalog, w: World, call: Call)
    requires Sane(cfg, catalog, w) && call.request.Update? && Handle(cfg, catalog, w, call).reply.Ok?
    ensures StoresReply(cfg, w, call, Handle(cfg, catalog, w, call))
  {
    hide Sane, Issued, CartError, UpdatedSession, Consistent, Expired;
    var id := call.request.id;
    OpenHasNoOrder(cfg, catalog, w, id, call.t.now);
    UpdatedSessionIsConsistent(cfg, catalog, Live(w.sessions, id, call.t.now).value, call.request.cart, w.supply);
  }

  lemma CompleteStores(cfg: Config, catalog: Catalog, w: World, call: Call)
    requires Sane(cfg, catalog, w) && call.request.Complete? && Handle(cfg, catalog, w, call).reply.Ok?
    ensures StoresReply(cfg, w, call, Handle(cfg, catalog, w, call))
  {
    hide Sane, Issued, CompleteError, PaidSession, CompletedSession, OrderFor, FreshId, Consistent, Expired;
    var id := call.request.id;
    OpenHasNoOrder(cfg, catalog, w, id, call.t.now);
    var c := Live(w.sessions, id, call.t.now).value;
    CompletableIsOpen(cfg, c, call.request.data, call.t.now);
    CompletedSessionIsConsistent(cfg, catalog, c, call.request.data, call.t.now, FreshId("order_", w.supply));
  }

  lemma ChangesStore(cfg: Config, catalog: Catalog, w: World, call: Call)
    requires Sane(cfg, catalog, w) && Changes(call.request) && Handle(cfg, catalog, w, call).reply.Ok?
    ensures StoresReply(cfg, w, call, Handle(cfg, catalog, w, call))
  {
    hide Sane, Issued, Consistent, CreateStep, UpdateStep, CompleteStep, Expired, Inserted;
    match call.request
    case Create(q) => CreateStores(cfg, catalog, w, call);
    case Update(id, bodyId, q) => UpdateStores(cfg, catalog, w, call);
    case Complete(id, q) => CompleteStores(cfg, catalog, w, call);
    case Cancel(id) => OpenHasNoOrder(cfg, catalog, w, id, call.t.now);
  }

  /** Any other request stores nothing: at most an expired session is dropped, or a negotiation recorded. */
  lemma OthersStoreNothing(cfg: Config, catalog: Catalog, w: World, call: Call)
    requires !Changes(call.request) || Handle(cfg, catalog, w, call).reply.Err?
    ensures var s := Handle(cfg, catalog, w, call).world.sessions;
      if call.request.Negotiate? then s == Recorded(w.sessions, call.request.id, call.request.negotiated)
      else s == w.sessions || exists id :: s == LookedUp(w.sessions, id, call.t.now)
  {
    hide CreateError, NewSession, UpdateError, UpdatedSession, CompleteError, PaidSession, OrderFor, FreshId,
      CompletedSession, CancelError, CanceledSession, Inserted, LookedUp, Recorded;
  }

  lemma StepTouches(cfg: Config, catalog: Catalog, w: World, call: Call, id: string)
    requires Sane(cfg, catalog, w)
    requires Issued("chk_", id, w.supply) && (id in w.sessions.cache ==> Terminal(w.sessions.cache[id].checkout.status))
    ensures var next := Handle(cfg, catalog, w, call).world;
      id in next.sessions.cache ==>
        id in w.sessions.cache && next.sessions.cache[id].checkout == w.sessions.cache[id].checkout
  {
    hide Sane, Consistent, Issued, Handle, Expired;
    if Changes(call.request) && Handle(cfg, catalog, w, call).reply.Ok? {
      ChangesStore(cfg, catalog, w, call);
    } else {
      OthersStoreNothing(cfg, catalog, w, call);
    }
  }

  /**
   Completed and canceled are final: for the rest of the run the session stays as it is, until it expires for good.
   */
  lemma {:induction false} TerminalIsFinal(cfg: Config, catalog: Catalog, calls: seq<Call>, m: nat, n: nat, id: string)
    requires m <= n <= |calls|
    requires var s := WorldAfter(cfg, catalog, calls, m).sessions;
      id in s.cache && Terminal(s.cache[id].checkout.status)
    ensures Issued("chk_", id, WorldAfter(cfg, catalog, calls, n).supply)
    ensures var s, t := WorldAfter(cfg, catalog, calls, m).sessions, WorldAfter(cfg, catalog, calls, n).sessions;
      id in t.cache ==> t.cache[id].checkout == s.cache[id].checkout
  {
    hide Handle, Consistent, Issued, Linked, OrdersSane;
    RunIsSane(cfg, catalog, calls, m);
    if m < n {
      TerminalIsFinal(cfg, catalog, calls, m, n - 1, id);
      var w := WorldAfter(cfg, catalog, calls, n - 1);
      RunIsSane(cfg, catalog, calls, n - 1);
      StepTouches(cfg, catalog, w, calls[n - 1], id);
      StepKeepsSane(cfg, catalog, w, calls[n - 1]);
      IssuedLater("chk_", id, w.supply, WorldAfter(cfg, catalog, calls, n).supply);
    }
  }

  // ---------- How long a session is found

  /** The session of the last change among the first `n` requests that was answered with it, and when that was. */
  function LastSaved(cfg: Config, catalog: Catalog, calls: seq<Call>, n: nat, id: string): Option<(Checkout, int)>
    requires n <= |calls|
  {
    if n == 0 then None else
    var reply := Handle(cfg, catalog, WorldAfter(cfg, catalog, calls, n - 1), calls[n - 1]).reply;
    if Changes(calls[n - 1].request) && reply.Ok? && reply.value.id == id then Some((reply.value, calls[n - 1].t.now))
    else LastSaved(cfg, catalog, calls, n - 1, id)
  }

  /** What a step does to the cache: it saves the session it answers with, or drops one that has expired. */
  lemma StepCaches(cfg: Config, catalog: Catalog, w: World, call: Call, id: string)
    requires Sane(cfg, catalog, w)
    ensures var s := Handle(cfg, catalog, w, call);
      var cache := s.world.sessions.cache;
      if Changes(call.request) && s.reply.Ok? && s.reply.value.id == id then
        id in cache && cache[id] == Cached(s.reply.value, Some(call.t.now + cfg.ttl))
      else if id in cache then id in w.sessions.cache && cache[id] == w.sessions.cache[id]
      else id in w.sessions.cache ==> Expired(w.sessions.cache[id], call.t.now)
  {
    hide Sane, Consistent, Issued, Handle;
    if Changes(call.request) && Handle(cfg, catalog, w, call).reply.Ok? {
      ChangesStore(cfg, catalog, w, call);
    } else {
      OthersStoreNothing(cfg, catalog, w, call);
    }
  }

  lemma {:induction false} CacheIsLastSaved(cfg: Config, catalog: Catalog, calls: seq<Call>, n: nat, id: string)
    requires n <= |calls| && Ordered(calls)
    ensures var cache, last := WorldAfter(cfg, catalog, calls, n).sessions.cache, LastSaved(cfg, catalog, calls, n, id);
      if id in cache then last.Some? && cache[id] == Cached(last.value.0, Some(last.value.1 + cfg.ttl))
      else last.Some? ==> n > 0 && last.value.1 + cfg.ttl < calls[n - 1].t.now
  {
    hide Handle, Sane;
    if n > 0 {
      CacheIsLastSaved(cfg, catalog, calls, n - 1, id);
      RunIsSane(cfg, catalog, calls, n - 1);
      StepCaches(cfg, catalog, WorldAfter(cfg, catalog, calls, n - 1), calls[n - 1], id);
    }
  }

  /**
   A session is found exactly until the time to live after the last request that changed it, whenever lookups
   happened to drop expired sessions; what is found is what that request was answered with.
   */
  lemma FoundUntilExpiry(cfg: Config, catalog: Catalog, calls: seq<Call>, id: string, now: int)
    requires Ordered(calls) && (calls != [] ==> calls[|calls| - 1].t.now <= now)
    ensures var last := LastSaved(cfg, catalog, calls, |calls|, id);
      GetStep(WorldAfter(cfg, catalog, calls, |calls|), id, now).reply ==
        if last.Some? && now <= last.value.1 + cfg.ttl then Ok(last.value.0)
        else Err(NotFound("Checkout " + id + " not found"))
  {
    hide WorldAfter, LastSaved;
    CacheIsLastSaved(cfg, catalog, calls, |calls|, id);
  }

  // ---------- The lines a session has

  predicate BringsCart(r: Request) { r.Create? || r.Update? }

  /** The last create or update among the first `n` requests that was answered with this session. */
  function LastCart(cfg: Config, catalog: Catalog, calls: seq<Call>, n: nat, id: string): (r: Option<Request>)
    requires n <= |calls|
    ensures r.Some? ==> BringsCart(r.value)
  {
    if n == 0 then None else
    var reply := Handle(cfg, catalog, WorldAfter(cfg, catalog, calls, n - 1), calls[n - 1]).reply;
    if BringsCart(calls[n - 1].request) && reply.Ok? && reply.value.id == id then Some(calls[n - 1].request)
    else LastCart(cfg, catalog, calls, n - 1, id)
  }

  /**
   A create or update answers with the lines it asks for, and a create with some; other changes keep lines and totals.
   */
  ghost predicate LinesFollow(catalog: Catalog, w: World, call: Call, s: Step) {
    s.reply.Ok? ==>
      (BringsCart(call.request) ==> Answers(catalog, call.request.cart.lineItems, s.reply.value)) &&
      (call.request.Create? ==> call.request.cart.lineItems != []) &&
      (call.request.Complete? || call.request.Cancel? ==>
        var id := s.reply.value.id;
        id in w.sessions.cache && s.reply.value.lineItems == w.sessions.cache[id].checkout.lineItems &&
        s.reply.value.totals == w.sessions.cache[id].checkout.totals)
  }

  lemma CreateAnswers(cfg: Config, catalog: Catalog, q: CartRequest, expiry: string, n: nat)
    requires Orderable(catalog, q.lineItems)
    ensures Answers(catalog, q.lineItems, NewSession(cfg, catalog, q, expiry, n).0)
  {
    hide NewSession, Answers, Orderable, CodesFrom, FulfilledFrom, PaidFrom;
    NewSessionMeans(cfg, catalog, q, expiry, n);
  }

  lemma UpdateAnswers(cfg: Config, catalog: Catalog, was: Checkout, q: CartRequest, n: nat)
    requires Orderable(catalog, q.lineItems)
    ensures Answers(catalog, q.lineItems, UpdatedSession(cfg, catalog, was, q, n).0)
  {
    hide UpdatedSession, Answers, Orderable, CodesFrom, FulfilledFrom, PaidFrom;
    UpdatedSessionMeans(cfg, catalog, was, q, n);
  }

  lemma CartLines(cfg: Config, catalog: Catalog, w: World, call: Call)
    requires BringsCart(call.request)
    ensures LinesFollow(catalog, w, call, Handle(cfg, catalog, w, call))
  {
    hide CartError, NewSession, UpdatedSession, Live, Inserted, LookedUp, Answers;
    if Handle(cfg, catalog, w, call).reply.Ok? {
      if call.request.Create? {
        CreateAnswers(cfg, catalog, call.request.cart, call.t.expiry, w.supply);
      } else {
        var c := Live(w.sessions, call.request.id, call.t.now).value;
        UpdateAnswers(cfg, catalog, c, call.request.cart, w.supply);
      }
    }
  }

  lemma CompletedLines(cfg: Config, catalog: Catalog, w: World, call: Call)
    requires Sane(cfg, catalog, w) && call.request.Complete?
    ensures LinesFollow(catalog, w, call, Handle(cfg, catalog, w, call))
  {
    hide Sane, Issued, CompleteError, PaidSession, CompletedSession, OrderFor, FreshId, Consistent, Expired;
    var id, t := call.request.id, call.t;
    if Handle(cfg, catalog, w, call).reply.Ok? {
      OpenHasNoOrder(cfg, catalog, w, id, t.now);
      var c := Live(w.sessions, id, t.now).value;
      CompletedSessionIsConsistent(cfg, catalog, c, call.request.data, t.now, FreshId("order_", w.supply));
    }
  }

  lemma StepLines(cfg: Config, catalog: Catalog, w: World, call: Call)
    requires Sane(cfg, catalog, w)
    ensures LinesFollow(catalog, w, call, Handle(cfg, catalog, w, call))
  {
    hide Sane, Issued, Consistent, CreateStep, UpdateStep, CompleteStep, Expired, Inserted;
    match call.request
    case Create(_) => CartLines(cfg, catalog, w, call);
    case Update(_, _, _) => CartLines(cfg, catalog, w, call);
    case Complete(_, _) => CompletedLines(cfg, catalog, w, call);
    case Cancel(id) =>
      if Live(w.sessions, id, call.t.now).Some? { OpenHasNoOrder(cfg, catalog, w, id, call.t.now); }
    case _ =>
  }

  lemma SameCartAnswers(catalog: Catalog, s: seq<LineItemInput>, c: Checkout, d: Checkout)
    requires Answers(catalog, s, c) && d.lineItems == c.lineItems && d.totals == c.totals
    ensures Answers(catalog, s, d)
  {
    hide AmountsOf, AreAskedFor;
  }

  lemma {:induction false} LinesAreLastCart(cfg: Config, catalog: Catalog, calls: seq<Call>, n: nat, id: string)
    requires n <= |calls| && id in WorldAfter(cfg, catalog, calls, n).sessions.cache
    ensures var last := LastCart(cfg, catalog, calls, n, id);
      last.Some? && (last.value.Create? ==> last.value.cart.lineItems != []) &&
      Answers(catalog, last.value.cart.lineItems, WorldAfter(cfg, catalog, calls, n).sessions.cache[id].checkout)
  {
    hide Handle, Sane, Answers;
    var w := WorldAfter(cfg, catalog, calls, n - 1);
    RunIsSane(cfg, catalog, calls, n - 1);
    StepCaches(cfg, catalog, w, calls[n - 1], id);
    StepLines(cfg, catalog, w, calls[n - 1]);
    if id in w.sessions.cache {
      LinesAreLastCart(cfg, catalog, calls, n - 1, id);
      var last := LastCart(cfg, catalog, calls, n - 1, id).value;
      var d := WorldAfter(cfg, catalog, calls, n).sessions.cache[id].checkout;
      if d.lineItems == w.sessions.cache[id].checkout.lineItems && d.totals == w.sessions.cache[id].checkout.totals {
        SameCartAnswers(catalog, last.cart.lineItems, w.sessions.cache[id].checkout, d);
      }
    }
  }

  /**
   After any run a stored session has the lines of the last cart it was given: in the quantities asked for, at the
   prices of the catalog, which its subtotals and the subtotal of the whole list.
   */
  lemma SessionAnswersLastCart(cfg: Config, catalog: Catalog, calls: seq<Call>, id: string)
    requires id in WorldAfter(cfg, catalog, calls, |calls|).sessions.cache
    ensures var last := LastCart(cfg, catalog, calls, |calls|, id);
      last.Some? &&
      Answers(catalog, last.value.cart.lineItems, WorldAfter(cfg, catalog, calls, |calls|).sessions.cache[id].checkout)
  {
    hide WorldAfter, LastCart, Answers;
    LinesAreLastCart(cfg, catalog, calls, |calls|, id);
  }

  /** And all its amounts are those its lines, codes and fulfillment call for. */
  lemma ReachableSessionsArePriced(cfg: Config, catalog: Catalog, calls: seq<Call>, id: string)
    requires id in WorldAfter(cfg, catalog, calls, |calls|).sessions.cache
    ensures exists perItem, cost ::
      PricedFrom(cfg, WorldAfter(cfg, catalog, calls, |calls|).sessions.cache[id].checkout, perItem, cost)
  {
    hide WorldAfter, MetaAgrees, StatusConsistent, CartConsistent, Issued, Linked, OrdersSane, PricedFrom;
    RunIsSane(cfg, catalog, calls, |calls|);
    StoredSessionIsPriced(cfg, catalog, WorldAfter(cfg, catalog, calls, |calls|).sessions.cache[id].checkout);
  }

  lemma AnswersCount(catalog: Catalog, s: seq<LineItemInput>, c: Checkout)
    requires Answers(catalog, s, c)
    ensures |c.lineItems| == |s|
  {
    hide AmountsOf;
  }

  /**
   After any run a stored session is empty exactly when the last cart it was given is that of an update without lines.
   */
  lemma EmptyExactlyAfterEmptyUpdate(cfg: Config, catalog: Catalog, calls: seq<Call>, id: string)
    requires id in WorldAfter(cfg, catalog, calls, |calls|).sessions.cache
    ensures var c := WorldAfter(cfg, catalog, calls, |calls|).sessions.cache[id].checkout;
      var last := LastCart(cfg, catalog, calls, |calls|, id);
      last.Some? && |c.lineItems| == |last.value.cart.lineItems| &&
      (c.lineItems == [] <==> last.value.Update? && last.value.cart.lineItems == [])
  {
    hide WorldAfter, LastCart, Answers;
    LinesAreLastCart(cfg, catalog, calls, |calls|, id);
    AnswersCount(catalog, LastCart(cfg, catalog, calls, |calls|, id).value.cart.lineItems,
      WorldAfter(cfg, catalog, calls, |calls|).sessions.cache[id].checkout);
  }

  // ---------- What was negotiated

  /** The negotiation last recorded for a session that was stored then. */
  function LastNegotiated(cfg: Config, catalog: Catalog, calls: seq<Call>, n: nat, id: string): Option<Negotiated>
    requires n <= |calls|
  {
    if n == 0 then None else
    var r := calls[n - 1].request;
    if r.Negotiate? && r.id == id && id in WorldAfter(cfg, catalog, calls, n - 1).sessions.cache then Some(r.negotiated)
    else LastNegotiated(cfg, catalog, calls, n - 1, id)
  }

  lemma StepNegotiates(cfg: Config, catalog: Catalog, w: World, call: Call, id: string)
    requires Sane(cfg, catalog, w)
    ensures var next := Handle(cfg, catalog, w, call).world.sessions;
      id in next.cache ==> (
        (id in w.sessions.cache || !Issued("chk_", id, w.supply)) &&
        NegotiatedFor(next, id) ==
          if call.request.Negotiate? && call.request.id == id &&
            id in w.sessions.cache then Some(call.request.negotiated)
          else NegotiatedFor(w.sessions, id))
  {
    hide Consistent, Issued, Handle, Expired, Linked, OrdersSane;
    if Changes(call.request) && Handle(cfg, catalog, w, call).reply.Ok? {
      ChangesStore(cfg, catalog, w, call);
    } else {
      OthersStoreNothing(cfg, catalog, w, call);
    }
  }

  /** The negotiated set of a stored session is the one last recorded for it: changes of the session never lose it. */
  lemma {:induction false} NegotiationIsKept(cfg: Config, catalog: Catalog, calls: seq<Call>, n: nat, id: string)
    requires n <= |calls|
    ensures var w := WorldAfter(cfg, catalog, calls, n);
      (id in w.sessions.cache ==> NegotiatedFor(w.sessions, id) == LastNegotiated(cfg, catalog, calls, n, id)) &&
      (!Issued("chk_", id, w.supply) ==> LastNegotiated(cfg, catalog, calls, n, id).None?)
  {
    hide Handle, Consistent, Issued, Linked, OrdersSane;
    if n > 0 {
      NegotiationIsKept(cfg, catalog, calls, n - 1, id);
      var w := WorldAfter(cfg, catalog, calls, n - 1);
      RunIsSane(cfg, catalog, calls, n - 1);
      StepNegotiates(cfg, catalog, w, calls[n - 1], id);
      StepKeepsSane(cfg, catalog, w, calls[n - 1]);
      if Issued("chk_", id, w.supply) { IssuedLater("chk_", id, w.supply, WorldAfter(cfg, catalog, calls, n).supply); }
    }
  }
}
