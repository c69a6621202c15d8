/** The order made from a completed session (src/service.rs). */
module OrderBuilder {
  import opened Wrappers
  import opened Models
  import opened Fulfillments
  import opened Status
  import opened UcpMeta
  import opened Orders

  function OrderLineOf(x: LineItem): OrderLine {
    OrderLine(x.id, x.item, Quantity(x.quantity, 0), x.totals, Processing, x.parentId, x.extra)
  }

  function OrderLines(s: seq<LineItem>): (r: seq<OrderLine>)
    ensures |r| == |s|
  {
    seq(|s|, i requires 0 <= i < |s| => OrderLineOf(s[i]))
  }

  /** Position of the first line with this id, or the number of lines. */
  function FindItem(s: seq<LineItem>, id: string): (i: nat)
    ensures i <= |s|
    ensures i < |s| ==> s[i].id == id && forall k :: 0 <= k < i ==> s[k].id != id
    ensures i == |s| ==> forall k :: 0 <= k < |s| ==> s[k].id != id
  {
    if s == [] || s[0].id == id then 0 else 1 + FindItem(s[1..], id)
  }

  /** Lines with these ids, at their full quantity; unknown ids are left out. */
  function RefsFor(ids: seq<string>, lines: seq<LineItem>): seq<LineRef> {
    if ids == [] then [] else
    var i := FindItem(lines, ids[0]);
    (if i < |lines| then [LineRef(ids[0], lines[i].quantity)] else []) + RefsFor(ids[1..], lines)
  }

  /** A method has somewhere to ship to when its chosen destination carries data. */
  predicate HasAddress(m: DeliveryMethod) {
    m.destinations.Some? && m.destinations.value != [] &&
    m.destinations.value[ChosenDestination(m.destinations.value, m.selectedDestination)].data != map[]
  }

  /** The events an order starts with: one for every method that has an address and lines. */
  function InitialEvents(methods: seq<DeliveryMethod>, lines: seq<LineItem>, now: string, n: nat):
      (r: (seq<OrderEvent>, nat))
    ensures n <= r.1
    decreases methods
  {
    if methods == [] then ([], n) else
    var refs := RefsFor(methods[0].lineItemIds, lines);
    if !HasAddress(methods[0]) || refs == [] then InitialEvents(methods[1..], lines, now, n)
    else
      var (rest, n') := InitialEvents(methods[1..], lines, now, n + 1);
      ([OrderEvent(FreshId("fev_", n), now, "processing", refs, None, None)] + rest, n')
  }

  function OrderFor(cfg: Config, c: Checkout, orderId: string, now: string, n: nat): (r: (Order, nat))
    ensures n <= r.1
  {
    var (events, n') := InitialEvents(Methods(c.fulfillment), c.lineItems, now, n);
    (Order(Meta(cfg.ucpVersion, [CapabilityRef(ORDER, cfg.ucpVersion)]), orderId, c.id,
       cfg.baseUrl + "/orders/" + orderId, OrderLines(c.lineItems), if events == [] then None else Some(events),
       c.totals, None),
     n')
  }

  method BuildOrderEvents(methods: seq<DeliveryMethod>, lines: seq<LineItem>, now: string, supply: nat)
      returns (events: seq<OrderEvent>, n: nat)
    ensures events == InitialEvents(methods, lines, now, supply).0 && n == InitialEvents(methods, lines, now, supply).1
  {
    hide HasAddress, FreshId, RefsFor;
    events, n := [], supply;
    for i := 0 to |methods|
      invariant InitialEvents(methods, lines, now, supply).0 == events + InitialEvents(methods[i..], lines, now, n).0
      invariant InitialEvents(methods, lines, now, supply).1 == InitialEvents(methods[i..], lines, now, n).1
    {
      assert methods[i..][1..] == methods[i + 1..];
      if !HasAddress(methods[i]) { continue; }
      var refs := RefsFor(methods[i].lineItemIds, lines);
      if refs == [] { continue; }
      events := events + [OrderEvent(FreshId("fev_", n), now, "processing", refs, None, None)];
      n := n + 1;
    }
  }

  method BuildOrder(cfg: Config, c: Checkout, orderId: string, now: string, supply: nat) returns (order: Order, n: nat)
    ensures order == OrderFor(cfg, c, orderId, now, supply).0 && n == OrderFor(cfg, c, orderId, now, supply).1
  {
    hide InitialEvents;
    var events;
    events, n := BuildOrderEvents(Methods(c.fulfillment), c.lineItems, now, supply);
    order := Order(Meta(cfg.ucpVersion, [CapabilityRef(ORDER, cfg.ucpVersion)]), orderId, c.id,
      cfg.baseUrl + "/orders/" + orderId, OrderLines(c.lineItems), if events == [] then None else Some(events),
      c.totals, None);
  }

  // ---------- A new order

  /** The order has the lines, quantities and totals of the session, with nothing fulfilled. */
  ghost predicate OrderMatches(order: Order, c: Checkout) {
    order.checkoutId == c.id && order.totals == c.totals && |order.lines| == |c.lineItems| &&
    forall i :: 0 <= i < |c.lineItems| ==>
      order.lines[i].id == c.lineItems[i].id && order.lines[i].item == c.lineItems[i].item &&
      order.lines[i].quantity.total == c.lineItems[i].quantity && order.lines[i].totals == c.lineItems[i].totals &&
      order.lines[i].parentId == c.lineItems[i].parentId && order.lines[i].extra == c.lineItems[i].extra
  }

  /** A reference names a line of the session at its full quantity. */
  predicate IsWhole(r: LineRef, lines: seq<LineItem>) {
    var i := FindItem(lines, r.id);
    i < |lines| && lines[i].quantity == r.quantity
  }

  ghost predicate AllWhole(refs: seq<LineRef>, lines: seq<LineItem>) {
    forall k :: 0 <= k < |refs| ==> IsWhole(refs[k], lines)
  }

  /** A first event: it announces some whole lines. */
  ghost predicate Announces(e: OrderEvent, lines: seq<LineItem>) {
    e.kind == "processing" && e.lines != [] && AllWhole(e.lines, lines)
  }

  ghost predicate AllAnnounce(events: seq<OrderEvent>, lines: seq<LineItem>) {
    forall k :: 0 <= k < |events| ==> Announces(events[k], lines)
  }

  lemma {:induction false} RefsAreWhole(ids: seq<string>, lines: seq<LineItem>)
    ensures AllWhole(RefsFor(ids, lines), lines)
  {
    hide FindItem;
    if ids != [] {
      RefsAreWhole(ids[1..], lines);
      var rest := RefsFor(ids[1..], lines);
      var i := FindItem(lines, ids[0]);
      if i < |lines| {
        var r := LineRef(ids[0], lines[i].quantity);
        assert IsWhole(r, lines);
        assert RefsFor(ids, lines) == [r] + rest;
      } else {
        assert RefsFor(ids, lines) == [] + rest == rest;
      }
    }
  }

  lemma {:induction false} InitialEventsFacts(methods: seq<DeliveryMethod>, lines: seq<LineItem>, now: string, n: nat)
    ensures AllAnnounce(InitialEvents(methods, lines, now, n).0, lines)
    decreases methods
  {
    hide AllWhole, HasAddress, FreshId, RefsFor;
    if methods != [] {
      RefsAreWhole(methods[0].lineItemIds, lines);
      InitialEventsFacts(methods[1..], lines, now, n);
      InitialEventsFacts(methods[1..], lines, now, n + 1);
    }
  }

  // ---------- Which events an order starts with

  /** Line `i` is the first with this id. */
  ghost predicate IsItem(lines: seq<LineItem>, id: string, i: int) {
    0 <= i < |lines| && lines[i].id == id && forall k :: 0 <= k < i ==> lines[k].id != id
  }

  ghost predicate IsKnown(lines: seq<LineItem>, id: string) { exists i :: 0 <= i < |lines| && lines[i].id == id }

  /** The references are the known ones among the ids, at these positions and in order, each at its full quantity. */
  ghost predicate RefsAt(refs: seq<LineRef>, ids: seq<string>, lines: seq<LineItem>, at: seq<nat>) {
    |at| == |refs| && (forall k, l :: 0 <= k < l < |at| ==> at[k] < at[l]) &&
    (forall k :: 0 <= k < |at| ==>
      at[k] < |ids| && refs[k].id == ids[at[k]] &&
      exists i :: IsItem(lines, refs[k].id, i) && refs[k].quantity == lines[i].quantity) &&
    forall j: nat :: j < |ids| && IsKnown(lines, ids[j]) ==> j in at
  }

  lemma {:induction false} RefsSnoc(ids: seq<string>, id: string, lines: seq<LineItem>)
    ensures RefsFor(ids + [id], lines) == RefsFor(ids, lines) +
      if FindItem(lines, id) < |lines| then [LineRef(id, lines[FindItem(lines, id)].quantity)] else []
  {
    hide FindItem;
    if ids == [] {
      assert [id][1..] == [];
    } else {
      assert (ids + [id])[1..] == ids[1..] + [id];
      RefsSnoc(ids[1..], id, lines);
    }
  }

  lemma RefBehind(refs: seq<LineRef>, ids: seq<string>, id: string, lines: seq<LineItem>, at: seq<nat>)
    requires RefsAt(refs, ids, lines, at)
    ensures !IsKnown(lines, id) ==> RefsAt(refs, ids + [id], lines, at)
    ensures forall i :: IsItem(lines, id, i) ==>
      RefsAt(refs + [LineRef(id, lines[i].quantity)], ids + [id], lines, at + [|ids|])
  {
    hide IsItem, IsKnown;
  }

  lemma {:induction false} RefsMean(ids: seq<string>, lines: seq<LineItem>) returns (at: seq<nat>)
    ensures RefsAt(RefsFor(ids, lines), ids, lines, at)
    ensures RefsFor(ids, lines) != [] <==> exists j :: 0 <= j < |ids| && IsKnown(lines, ids[j])
  {
    hide RefsAt;
    at := [];
    if ids == [] {
      NoRefs(lines);
    } else {
      var n := |ids| - 1;
      at := RefsMean(ids[..n], lines);
      assert ids == ids[..n] + [ids[n]];
      RefsSnoc(ids[..n], ids[n], lines);
      RefBehind(RefsFor(ids[..n], lines), ids[..n], ids[n], lines, at);
      var i := FindItem(lines, ids[n]);
      if i < |lines| {
        assert IsItem(lines, ids[n], i);
        at := at + [n];
      } else {
        assert RefsFor(ids[..n], lines) + [] == RefsFor(ids[..n], lines);
      }
    }
  }

  lemma NoRefs(lines: seq<LineItem>)
    ensures RefsAt([], [], lines, [])
  {
  }

  /** The method has a destination with data, and known lines. */
  ghost predicate Reaches(m: DeliveryMethod, lines: seq<LineItem>) {
    (exists k :: IsDestination(m, k) && m.destinations.value[k].data != map[]) &&
    exists j :: 0 <= j < |m.lineItemIds| && IsKnown(lines, m.lineItemIds[j])
  }

  lemma HasAddressIff(m: DeliveryMethod)
    ensures HasAddress(m) <==> exists k :: IsDestination(m, k) && m.destinations.value[k].data != map[]
  {
    hide ChosenDestination;
    if m.destinations.Some? && m.destinations.value != [] { ChosenDestinationMeans(m); }
  }

  ghost predicate IsFirstEvent(e: OrderEvent, m: DeliveryMethod, lines: seq<LineItem>, now: string) {
    e.kind == "processing" && e.occurredAt == now && e.tracking.None? && e.description.None? &&
    exists at :: RefsAt(e.lines, m.lineItemIds, lines, at)
  }

  /** The events are those of the methods at these positions, and of every method that reaches somewhere. */
  ghost predicate EventsAt(events: seq<OrderEvent>, methods: seq<DeliveryMethod>, lines: seq<LineItem>, now: string,
      at: seq<nat>)
  {
    |at| == |events| && (forall k, l :: 0 <= k < l < |at| ==> at[k] < at[l]) &&
    (forall k :: 0 <= k < |at| ==>
      at[k] < |methods| && Reaches(methods[at[k]], lines) && IsFirstEvent(events[k], methods[at[k]], lines, now)) &&
    forall i: nat :: i < |methods| && Reaches(methods[i], lines) ==> i in at
  }

  lemma {:induction false} EventsSnoc(methods: seq<DeliveryMethod>, m: DeliveryMethod, lines: seq<LineItem>,
      now: string, n: nat)
    ensures var (events, n') := InitialEvents(methods, lines, now, n);
      var refs := RefsFor(m.lineItemIds, lines);
      InitialEvents(methods + [m], lines, now, n).0 ==
        events + if !HasAddress(m) || refs == [] then []
                 else [OrderEvent(FreshId("fev_", n'), now, "processing", refs, None, None)]
    decreases methods
  {
    hide HasAddress, FreshId, RefsFor;
    var all := methods + [m];
    if methods == [] {
      assert all[1..] == [] && all[0] == m;
    } else {
      assert all[1..] == methods[1..] + [m] && all[0] == methods[0];
      EventsSnoc(methods[1..], m, lines, now, n);
      EventsSnoc(methods[1..], m, lines, now, n + 1);
    }
  }

  lemma EventBehind(events: seq<OrderEvent>, methods: seq<DeliveryMethod>, m: DeliveryMethod, lines: seq<LineItem>,
      now: string, at: seq<nat>)
    requires EventsAt(events, methods, lines, now, at)
    ensures !Reaches(m, lines) ==> EventsAt(events, methods + [m], lines, now, at)
    ensures forall e :: Reaches(m, lines) && IsFirstEvent(e, m, lines, now) ==>
      EventsAt(events + [e], methods + [m], lines, now, at + [|methods|])
  {
    hide Reaches, IsFirstEvent;
  }

  /** An order starts with one event for every method that has an address and lines, naming just those lines. */
  lemma {:induction false} EventsAreThoseOfMethods(methods: seq<DeliveryMethod>, lines: seq<LineItem>, now: string,
      n: nat) returns (at: seq<nat>)
    ensures EventsAt(InitialEvents(methods, lines, now, n).0, methods, lines, now, at)
    decreases |methods|
  {
    hide EventsAt, HasAddress, FreshId, RefsFor, IsDestination, RefsAt, IsKnown;
    at := [];
    if methods == [] {
      NoEvents(lines, now);
    } else {
      var last := |methods| - 1;
      var m := methods[last];
      at := EventsAreThoseOfMethods(methods[..last], lines, now, n);
      assert methods == methods[..last] + [m];
      EventsSnoc(methods[..last], m, lines, now, n);
      EventBehind(InitialEvents(methods[..last], lines, now, n).0, methods[..last], m, lines, now, at);
      HasAddressIff(m);
      var refsAt := RefsMean(m.lineItemIds, lines);
      var events := InitialEvents(methods[..last], lines, now, n).0;
      if Reaches(m, lines) {
        at := at + [last];
        var e := InitialEvents(methods, lines, now, n).0[|events|];
        assert RefsAt(e.lines, m.lineItemIds, lines, refsAt);
        assert IsFirstEvent(e, m, lines, now);
      } else {
        assert events + [] == events;
      }
    }
  }

  lemma NoEvents(lines: seq<LineItem>, now: string)
    ensures EventsAt([], [], lines, now, [])
  {
  }

  lemma {:induction false} ProcessingShipsNothing(events: seq<OrderEvent>, id: string)
    requires forall k :: 0 <= k < |events| ==> events[k].kind == "processing"
    ensures Shipped(events, id) == 0
  {
    hide Referenced;
    if events != [] { ProcessingShipsNothing(events[..|events| - 1], id); }
  }

  /**
   The log of an order starts with the events of the methods of the session, its permalink names it, and it lists the
   order capability at the version of the service.
   */
  lemma NewOrderAnnounces(cfg: Config, c: Checkout, orderId: string, now: string, n: nat) returns (at: seq<nat>)
    ensures var order := OrderFor(cfg, c, orderId, now, n).0;
      var methods := if c.fulfillment.Some? && c.fulfillment.value.methods.Some? then c.fulfillment.value.methods.value
        else [];
      EventsAt(Listed(order.events), methods, c.lineItems, now, at) && order.events != Some([]) &&
      order.permalink == cfg.baseUrl + "/orders/" + orderId && order.adjustments.None? &&
      order.ucp == Meta(cfg.ucpVersion, [CapabilityRef("dev.ucp.shopping.order", cfg.ucpVersion)])
  {
    hide InitialEvents, EventsAt;
    at := EventsAreThoseOfMethods(Methods(c.fulfillment), c.lineItems, now, n);
  }

  /**
   The order of a session with positive quantities matches it, starts with counters that agree with its log, and
   announces only whole lines of the session.
   */
  lemma NewOrderIsSound(cfg: Config, c: Checkout, orderId: string, now: string, n: nat)
    requires forall i :: 0 <= i < |c.lineItems| ==> 0 < c.lineItems[i].quantity
    ensures var order := OrderFor(cfg, c, orderId, now, n).0;
      OrderMatches(order, c) && order.id == orderId && Sound(order) && CountersMatch(order) &&
      AllAnnounce(Listed(order.events), c.lineItems)
  {
    hide InitialEvents, FindItem, Shipped, AllWhole, FindLine;
    var order := OrderFor(cfg, c, orderId, now, n).0;
    InitialEventsFacts(Methods(c.fulfillment), c.lineItems, now, n);
    var events := InitialEvents(Methods(c.fulfillment), c.lineItems, now, n).0;
    assert Listed(order.events) == events;
    forall i | 0 <= i < |order.lines| ensures Shipped(events, order.lines[i].id) == 0 {
      ProcessingShipsNothing(events, order.lines[i].id);
    }
  }
}
