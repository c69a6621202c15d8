/**
 Whole runs of the checkout service (src/service.rs, src/store.rs): any sequence of requests, each handled as one
 step, with a clock that does not run backwards.
 */
module Runs {
  import opened Wrappers
  import opened Text
  import opened Models
  import opened Fulfillments
  import opened Status
  import opened UcpMeta
  import opened Cart
  import opened Store
  import opened Orders
  import opened OrderBuilder
  import opened Checkouts
  import opened SessionFacts

  datatype Request =
    | Create(cart: CartRequest)
    | Get(id: string)
    | Update(id: string, bodyId: string, cart: CartRequest)
    | Complete(id: string, data: CompleteRequest)
    | Cancel(id: string)
    | Negotiate(id: string, negotiated: Negotiated)

  datatype Call = Call(request: Request, t: Clock)

  function Recording(w: World, id: string, n: Negotiated): World { w.(sessions := Recorded(w.sessions, id, n)) }

  /** The reply and the new state. Recording a negotiation has no reply of its own; it is shown the state as it is. */
  function Handle(cfg: Config, catalog: Catalog, w: World, call: Call): Step {
    match call.request
    case Create(q) => CreateStep(cfg, catalog, w, q, call.t)
    case Get(id) => GetStep(w, id, call.t.now)
    case Update(id, bodyId, q) => UpdateStep(cfg, catalog, w, id, bodyId, q, call.t)
    case Complete(id, q) => CompleteStep(cfg, w, id, q, call.t)
    case Cancel(id) => CancelStep(cfg, w, id, call.t.now)
    case Negotiate(id, n) =>
      var found := Live(w.sessions, id, call.t.now);
      Step(if found.Some? then Ok(found.value) else Err(NoSession(id)), Recording(w, id, n))
  }

  const START := World(EMPTY, 0, [])

  /** The state after the first `n` requests to a new service. */
  function WorldAfter(cfg: Config, catalog: Catalog, calls: seq<Call>, n: nat): World
    requires n <= |calls|
  {
    if n == 0 then START else Handle(cfg, catalog, WorldAfter(cfg, catalog, calls, n - 1), calls[n - 1]).world
  }

  // ---------- Identifiers

  /** The supply has handed out this identifier. */
  ghost predicate Issued(prefix: string, id: string, n: nat) { exists k: nat :: k < n && id == FreshId(prefix, k) }

  lemma FreshIsNew(prefix: string, n: nat)
    ensures !Issued(prefix, FreshId(prefix, n), n)
  {
    forall k: nat | k < n ensures FreshId(prefix, n) != FreshId(prefix, k) {
      NatTextValue(n);
      NatTextValue(k);
      var a, b := FreshId(prefix, n), FreshId(prefix, k);
      assert a[|prefix|..] == NatText(n) && b[|prefix|..] == NatText(k);
    }
  }

  lemma FreshIsIssued(prefix: string, k: nat, n: nat)
    requires k < n
    ensures Issued(prefix, FreshId(prefix, k), n)
  {
  }

  lemma IssuedLater(prefix: string, id: string, n: nat, later: nat)
    requires Issued(prefix, id, n) && n <= later
    ensures Issued(prefix, id, later)
  {
    hide FreshId;
  }

  // ---------- The invariant

  ghost predicate SessionsSane(cfg: Config, catalog: Catalog, s: Contents, supply: nat) {
    s.overlays.Keys == s.cache.Keys &&
    forall id :: id in s.cache ==>
      s.cache[id].checkout.id == id && Consistent(cfg, catalog, s.cache[id].checkout) && Issued("chk_", id, supply)
  }

  ghost predicate OrderSane(order: Order, supply: nat) {
    Issued("chk_", order.checkoutId, supply) && Issued("order_", order.id, supply) &&
    Sound(order) && CountersMatch(order)
  }

  ghost predicate OrdersSane(orders: seq<Order>, supply: nat) {
    (forall i :: 0 <= i < |orders| ==> OrderSane(orders[i], supply)) &&
    forall i, j :: 0 <= i < j < |orders| ==>
      orders[i].checkoutId != orders[j].checkoutId && orders[i].id != orders[j].id
  }

  /** The order is that of the session: completed under the order's id, with the same lines, quantities and totals. */
  ghost predicate IsOrderOf(order: Order, c: Checkout) {
    c.status == Completed && c.order.Some? && c.order.value.id == order.id && OrderMatches(order, c)
  }

  /** Stored sessions and announced orders agree: a session has an order exactly when it is completed. */
  ghost predicate Linked(s: Contents, orders: seq<Order>) {
    (forall i :: 0 <= i < |orders| && orders[i].checkoutId in s.cache ==>
       IsOrderOf(orders[i], s.cache[orders[i].checkoutId].checkout)) &&
    forall id :: id in s.cache && s.cache[id].checkout.status == Completed ==>
      exists i :: 0 <= i < |orders| && orders[i].checkoutId == id
  }

  ghost predicate Sane(cfg: Config, catalog: Catalog, w: World) {
    SessionsSane(cfg, catalog, w.sessions, w.supply) && OrdersSane(w.orders, w.supply) && Linked(w.sessions, w.orders)
  }

  // ---------- Every step keeps it

  lemma SupplyKeepsSane(cfg: Config, catalog: Catalog, w: World, n: nat)
    requires Sane(cfg, catalog, w) && w.supply <= n
    ensures Sane(cfg, catalog, w.(supply := n))
  {
    hide Consistent, Sound, CountersMatch, FreshId, Linked;
  }

  lemma SavingKeepsLinks(s: Contents, orders: seq<Order>, c: Checkout, ttl: nat, now: int)
    requires Linked(s, orders) && c.status != Completed
    requires forall i :: 0 <= i < |orders| ==> orders[i].checkoutId != c.id
    ensures Linked(Inserted(s, c, Some(ttl), now), orders)
  {
    hide IsOrderOf;
  }

  /** Saving a session that no order is announced for. */
  lemma SavingKeepsSane(cfg: Config, catalog: Catalog, w: World, c: Checkout, now: int)
    requires Sane(cfg, catalog, w) && Consistent(cfg, catalog, c) && c.status != Completed
    requires Issued("chk_", c.id, w.supply) && forall i :: 0 <= i < |w.orders| ==> w.orders[i].checkoutId != c.id
    ensures Sane(cfg, catalog, Saved(cfg, w, c, now).world)
  {
    hide Consistent, Issued, OrdersSane, IsOrderOf, SessionsSane, Linked, Inserted;
    SavingKeepsSessionsSane(cfg, catalog, w.sessions, w.supply, c, cfg.ttl, now);
    SavingKeepsLinks(w.sessions, w.orders, c, cfg.ttl, now);
  }

  lemma DroppingKeepsSane(cfg: Config, catalog: Catalog, w: World, id: string, now: int)
    requires Sane(cfg, catalog, w)
    ensures Sane(cfg, catalog, w.(sessions := LookedUp(w.sessions, id, now)))
  {
    hide Consistent, Issued, OrdersSane, IsOrderOf, Expired;
  }

  lemma RecordingKeepsSane(cfg: Config, catalog: Catalog, w: World, id: string, n: Negotiated)
    requires Sane(cfg, catalog, w)
    ensures Sane(cfg, catalog, Recording(w, id, n))
  {
    hide Consistent, Issued, OrdersSane, IsOrderOf;
  }

  /** No order is announced for a live session that is not completed. */
  lemma OpenHasNoOrder(cfg: Config, catalog: Catalog, w: World, id: string, now: int)
    requires Sane(cfg, catalog, w) && Live(w.sessions, id, now).Some?
    ensures var c := Live(w.sessions, id, now).value;
      c.id == id && Consistent(cfg, catalog, c) && Issued("chk_", id, w.supply) &&
      (c.status != Completed ==> forall i :: 0 <= i < |w.orders| ==> w.orders[i].checkoutId != id)
  {
    hide Consistent, Issued, OrdersSane, OrderMatches;
  }

  lemma CreateKeepsSane(cfg: Config, catalog: Catalog, w: World, q: CartRequest, t: Clock)
    requires Sane(cfg, catalog, w)
    ensures Sane(cfg, catalog, CreateStep(cfg, catalog, w, q, t).world)
    ensures w.supply <= CreateStep(cfg, catalog, w, q, t).world.supply
  {
    hide Consistent, Sane, CreateError, NewSession, FreshId;
    if CreateError(catalog, q).None? {
      var (c, n) := NewSession(cfg, catalog, q, t.expiry, w.supply);
      NewSessionIsConsistent(cfg, catalog, q, t.expiry, w.supply);
      SupplyKeepsSane(cfg, catalog, w, n - 1);
      OrdersAreOlder(cfg, catalog, w.(supply := n - 1));
      SupplyKeepsSane(cfg, catalog, w, n);
      FreshIsIssued("chk_", n - 1, n);
      SavingKeepsSane(cfg, catalog, w.(supply := n), c, t.now);
    }
  }

  lemma OrdersAreOlder(cfg: Config, catalog: Catalog, w: World)
    requires Sane(cfg, catalog, w)
    ensures forall i :: 0 <= i < |w.orders| ==> w.orders[i].checkoutId != FreshId("chk_", w.supply)
    ensures forall i :: 0 <= i < |w.orders| ==> w.orders[i].id != FreshId("order_", w.supply)
    ensures FreshId("chk_", w.supply) !in w.sessions.cache
  {
    hide Consistent, Sound, CountersMatch, FreshId, Linked;
    FreshIsNew("chk_", w.supply);
    FreshIsNew("order_", w.supply);
  }

  lemma UpdateKeepsSane(cfg: Config, catalog: Catalog, w: World, id: string, bodyId: string, q: CartRequest, t: Clock)
    requires Sane(cfg, catalog, w)
    ensures var r := UpdateStep(cfg, catalog, w, id, bodyId, q, t).world;
      Sane(cfg, catalog, r) && w.supply <= r.supply
  {
    hide Consistent, Sane, CartError, UpdatedSession, Live, LookedUp, Issued;
    if id == bodyId {
      var found := Live(w.sessions, id, t.now);
      if found.None? {
        DroppingKeepsSane(cfg, catalog, w, id, t.now);
      } else if UpdateError(catalog, found.value, q).None? {
        OpenHasNoOrder(cfg, catalog, w, id, t.now);
        var (c, n) := UpdatedSession(cfg, catalog, found.value, q, w.supply);
        UpdatedSessionIsConsistent(cfg, catalog, found.value, q, w.supply);
        SupplyKeepsSane(cfg, catalog, w, n);
        IssuedLater("chk_", id, w.supply, n);
        SavingKeepsSane(cfg, catalog, w.(supply := n), c, t.now);
      }
    }
  }

  lemma CancelKeepsSane(cfg: Config, catalog: Catalog, w: World, id: string, now: int)
    requires Sane(cfg, catalog, w)
    ensures Sane(cfg, catalog, CancelStep(cfg, w, id, now).world)
  {
    hide Consistent, Sane, Live, LookedUp, Issued;
    var found := Live(w.sessions, id, now);
    if found.None? {
      DroppingKeepsSane(cfg, catalog, w, id, now);
    } else if CancelError(found.value).None? {
      OpenHasNoOrder(cfg, catalog, w, id, now);
      CanceledSessionIsConsistent(cfg, catalog, found.value);
      SavingKeepsSane(cfg, catalog, w, CanceledSession(found.value), now);
    }
  }

  /** An order with new ids can be announced. */
  lemma AppendingKeepsSane(orders: seq<Order>, order: Order, n: nat)
    requires OrdersSane(orders, n) && OrderSane(order, n)
    requires forall i :: 0 <= i < |orders| ==> orders[i].checkoutId != order.checkoutId && orders[i].id != order.id
    ensures OrdersSane(orders + [order], n)
  {
    hide OrderSane;
  }

  /** The session is saved completed, and its order announced. */
  lemma CompletionLinks(s: Contents, orders: seq<Order>, order: Order, d: Checkout, ttl: nat, now: int)
    requires Linked(s, orders) && IsOrderOf(order, d) && order.checkoutId == d.id
    requires forall i :: 0 <= i < |orders| ==> orders[i].checkoutId != d.id
    ensures Linked(Inserted(s, d, Some(ttl), now), orders + [order])
  {
    hide IsOrderOf;
    var all := orders + [order];
    assert all[|orders|] == order;
    forall id | id in s.cache && s.cache[id].checkout.status == Completed
      ensures exists i :: 0 <= i < |all| && all[i].checkoutId == id
    {
      var i :| 0 <= i < |orders| && orders[i].checkoutId == id;
      assert all[i].checkoutId == id;
    }
  }

  lemma SavingKeepsSessionsSane(cfg: Config, catalog: Catalog, s: Contents, supply: nat, c: Checkout, ttl: nat,
      now: int)
    requires SessionsSane(cfg, catalog, s, supply) && Consistent(cfg, catalog, c) && Issued("chk_", c.id, supply)
    ensures SessionsSane(cfg, catalog, Inserted(s, c, Some(ttl), now), supply)
  {
    hide Consistent, Issued;
  }

  /** Saving a completed session together with its order. */
  lemma CompletionKeepsSane(cfg: Config, catalog: Catalog, w: World, d: Checkout, order: Order, n: nat, now: int)
    requires Sane(cfg, catalog, w) && Consistent(cfg, catalog, d)
    requires IsOrderOf(order, d) && Sound(order) && CountersMatch(order)
    requires Issued("chk_", d.id, w.supply) && forall i :: 0 <= i < |w.orders| ==> w.orders[i].checkoutId != d.id
    requires order.id == FreshId("order_", w.supply) && w.supply < n
    ensures Sane(cfg, catalog, Saved(cfg, w.(supply := n, orders := w.orders + [order]), d, now).world)
  {
    hide Consistent, Issued, Sound, CountersMatch, IsOrderOf, FreshId, SessionsSane, OrdersSane, Linked, Inserted;
    OrdersAreOlder(cfg, catalog, w);
    OrderNamesSession(order, d);
    SupplyKeepsSane(cfg, catalog, w, n);
    FreshIsIssued("order_", w.supply, n);
    IssuedLater("chk_", d.id, w.supply, n);
    AppendingKeepsSane(w.orders, order, n);
    CompletionLinks(w.sessions, w.orders, order, d, cfg.ttl, now);
    SavingKeepsSessionsSane(cfg, catalog, w.sessions, n, d, cfg.ttl, now);
  }

  lemma OrderNamesSession(order: Order, c: Checkout)
    requires IsOrderOf(order, c)
    ensures order.checkoutId == c.id
  {
  }

  lemma CompleteKeepsSane(cfg: Config, catalog: Catalog, w: World, id: string, q: CompleteRequest, t: Clock)
    requires Sane(cfg, catalog, w)
    ensures var r := CompleteStep(cfg, w, id, q, t).world; Sane(cfg, catalog, r) && w.supply <= r.supply
  {
    hide Consistent, Sane, Live, LookedUp, Issued, CompleteError, PaidSession, OrderFor, FreshId, CountersMatch,
      Sound, OrderMatches;
    var found := Live(w.sessions, id, t.now);
    if found.None? {
      DroppingKeepsSane(cfg, catalog, w, id, t.now);
    } else if CompleteError(cfg, found.value, q, t.now).None? {
      var c := found.value;
      OpenHasNoOrder(cfg, catalog, w, id, t.now);
      var orderId := FreshId("order_", w.supply);
      var paid := PaidSession(cfg, c, q.data);
      var (order, n) := OrderFor(cfg, paid, orderId, t.text, w.supply + 1);
      CompletableIsOpen(cfg, c, q, t.now);
      CompletedSessionIsConsistent(cfg, catalog, c, q, t.now, orderId);
      OrderOfPaid(cfg, catalog, c, q, t, orderId, w.supply + 1);
      CompletionKeepsSane(cfg, catalog, w, CompletedSession(cfg, paid, orderId), order, n, t.now);
    }
  }

  lemma CompletableIsOpen(cfg: Config, c: Checkout, q: CompleteRequest, now: int)
    requires CompleteError(cfg, c, q, now).None?
    ensures c.status == ReadyForComplete
  {
    hide MandateError, InstrumentError, WithStatus;
  }

  /** The order made from the paid session is the order of the completed one. */
  lemma OrderOfPaid(cfg: Config, catalog: Catalog, c: Checkout, q: CompleteRequest, t: Clock, orderId: string, n: nat)
    requires Consistent(cfg, catalog, c) && CompleteError(cfg, c, q, t.now).None?
    ensures var paid := PaidSession(cfg, c, q.data);
      var order := OrderFor(cfg, paid, orderId, t.text, n).0;
      IsOrderOf(order, CompletedSession(cfg, paid, orderId)) && order.id == orderId &&
      Sound(order) && CountersMatch(order)
  {
    hide Priced, NormalFor, CompleteError, IsSold, WithStatus, OrderFor, Sound, CountersMatch, StatusConsistent,
      MetaAgrees, AuthorizationFor;
    var paid := PaidSession(cfg, c, q.data);
    StatusChangesOnly(cfg, c.(payment := WithInstrument(c.payment, q.data)));
    NewOrderIsSound(cfg, paid, orderId, t.text, n);
  }

  lemma StepKeepsSane(cfg: Config, catalog: Catalog, w: World, call: Call)
    requires Sane(cfg, catalog, w)
    ensures var next := Handle(cfg, catalog, w, call).world; Sane(cfg, catalog, next) && w.supply <= next.supply
  {
    hide Sane, CreateStep, UpdateStep, CompleteStep, Live, LookedUp;
    match call.request
    case Create(q) => CreateKeepsSane(cfg, catalog, w, q, call.t);
    case Get(id) => DroppingKeepsSane(cfg, catalog, w, id, call.t.now);
    case Update(id, bodyId, q) => UpdateKeepsSane(cfg, catalog, w, id, bodyId, q, call.t);
    case Complete(id, q) => CompleteKeepsSane(cfg, catalog, w, id, q, call.t);
    case Cancel(id) => CancelKeepsSane(cfg, catalog, w, id, call.t.now);
    case Negotiate(id, n) => RecordingKeepsSane(cfg, catalog, w, id, n);
  }

  lemma {:induction false} RunIsSane(cfg: Config, catalog: Catalog, calls: seq<Call>, n: nat)
    requires n <= |calls|
    ensures Sane(cfg, catalog, WorldAfter(cfg, catalog, calls, n))
  {
    hide Handle, Consistent;
    if n > 0 {
      RunIsSane(cfg, catalog, calls, n - 1);
      StepKeepsSane(cfg, catalog, WorldAfter(cfg, catalog, calls, n - 1), calls[n - 1]);
    }
  }
}
