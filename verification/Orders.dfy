/**
 Orders after checkout (src/order_api.rs): an append-only log of fulfillment events and adjustments, and the
 per-line counters kept beside it.
 */
module Orders {
  import opened Wrappers
  import opened Text
  import opened Integers
  import opened Models

  datatype EventRequest = EventRequest(
    kind: string, lines: seq<LineRef>, tracking: Option<string>, description: Option<string>)

  datatype AdjustmentRequest = AdjustmentRequest(
    kind: string, lines: Option<seq<LineRef>>, amount: Option<int>, description: Option<string>, status: Option<string>)

  // ---------- Validation

  predicate HasLine(lines: seq<OrderLine>, id: string) { exists i :: 0 <= i < |lines| && lines[i].id == id }

  /** The first thing wrong with the references, in the order the program looks for it. */
  function RefsError(lines: seq<OrderLine>, refs: seq<LineRef>, seen: set<string>): Option<ServiceError>
    decreases refs
  {
    if refs == [] then None
    else if IsBlank(refs[0].id) then Some(InvalidInput("line_items.id is required"))
    else if refs[0].quantity <= 0 then Some(InvalidInput("line_items.quantity must be greater than 0"))
    else if refs[0].id in seen then Some(InvalidInput("duplicate line_item id " + refs[0].id))
    else if !HasLine(lines, refs[0].id) then Some(InvalidInput("line_item " + refs[0].id + " not found on order"))
    else RefsError(lines, refs[1..], seen + {refs[0].id})
  }

  function LineRefsError(lines: seq<OrderLine>, refs: seq<LineRef>): Option<ServiceError> {
    if refs == [] then Some(InvalidInput("line_items must contain at least one item")) else RefsError(lines, refs, {})
  }

  method ValidateLineItemRefs(lines: seq<OrderLine>, refs: seq<LineRef>) returns (r: Option<ServiceError>)
    ensures r == LineRefsError(lines, refs)
  {
    hide IsBlank, HasLine;
    if refs == [] { return Some(InvalidInput("line_items must contain at least one item")); }
    var seen: set<string> := {};
    for i := 0 to |refs|
      invariant RefsError(lines, refs, {}) == RefsError(lines, refs[i..], seen)
    {
      var item := refs[i];
      assert refs[i..][1..] == refs[i + 1..];
      if IsBlank(item.id) { return Some(InvalidInput("line_items.id is required")); }
      if item.quantity <= 0 { return Some(InvalidInput("line_items.quantity must be greater than 0")); }
      if item.id in seen { return Some(InvalidInput("duplicate line_item id " + item.id)); }
      seen := seen + {item.id};
      if !HasLine(lines, item.id) { return Some(InvalidInput("line_item " + item.id + " not found on order")); }
    }
    r := None;
  }

  ghost predicate IsOnOrder(lines: seq<OrderLine>, id: string) { exists k :: 0 <= k < |lines| && lines[k].id == id }

  lemma HasLineIff(lines: seq<OrderLine>, id: string)
    ensures HasLine(lines, id) <==> IsOnOrder(lines, id)
  {
  }

  /** References the program accepts. */
  ghost predicate ValidRefs(lines: seq<OrderLine>, refs: seq<LineRef>) {
    (forall i :: 0 <= i < |refs| ==> !IsBlank(refs[i].id) && refs[i].quantity > 0 && IsOnOrder(lines, refs[i].id)) &&
    forall i, j :: 0 <= i < j < |refs| ==> refs[i].id != refs[j].id
  }

  lemma {:induction false} RefsErrorFacts(lines: seq<OrderLine>, refs: seq<LineRef>, seen: set<string>)
    ensures RefsError(lines, refs, seen).None? <==>
      ValidRefs(lines, refs) && forall i :: 0 <= i < |refs| ==> refs[i].id !in seen
    decreases refs
  {
    hide IsBlank, HasLine, IsOnOrder;
    if refs != [] {
      HasLineIff(lines, refs[0].id);
      RefsErrorFacts(lines, refs[1..], seen + {refs[0].id});
      assert refs == [refs[0]] + refs[1..];
    }
  }

  /**
   References are accepted exactly when there are some, each names a line of the order once, with a positive quantity.
   */
  lemma RefsAcceptedIff(lines: seq<OrderLine>, refs: seq<LineRef>)
    ensures LineRefsError(lines, refs).None? <==> refs != [] && ValidRefs(lines, refs)
  {
    RefsErrorFacts(lines, refs, {});
  }

  function EventError(order: Order, q: EventRequest): Option<ServiceError> {
    if IsBlank(q.kind) then Some(InvalidInput("fulfillment event type is required"))
    else LineRefsError(order.lines, q.lines)
  }

  function AdjustmentError(order: Order, q: AdjustmentRequest): Option<ServiceError> {
    if IsBlank(q.kind) then Some(InvalidInput("adjustment type is required"))
    else if q.amount.None? && (q.lines.None? || q.lines.value == []) then
      Some(InvalidInput("adjustment must include line_items or amount"))
    else
      var e := if q.lines.Some? then LineRefsError(order.lines, q.lines.value) else None;
      if e.Some? then e
      else if q.amount.Some? && q.amount.value < 0 then Some(InvalidInput("adjustment amount must be positive"))
      else None
  }

  /** An event is accepted exactly when it says what it is and its references are. */
  lemma EventAcceptedIff(order: Order, q: EventRequest)
    ensures EventError(order, q).None? <==> !IsBlank(q.kind) && q.lines != [] && ValidRefs(order.lines, q.lines)
  {
    hide IsBlank, LineRefsError, ValidRefs;
    RefsAcceptedIff(order.lines, q.lines);
  }

  /**
   An adjustment is accepted exactly when it says what it is and has lines or an amount, the lines if given are accepted
   as those of an event, and the amount if given is not negative.
   */
  lemma AdjustmentAcceptedIff(order: Order, q: AdjustmentRequest)
    ensures AdjustmentError(order, q).None? <==>
      !IsBlank(q.kind) && (q.lines.Some? || q.amount.Some?) &&
      (q.lines.Some? ==> q.lines.value != [] && ValidRefs(order.lines, q.lines.value)) &&
      (q.amount.Some? ==> 0 <= q.amount.value)
    ensures !IsBlank(q.kind) && q.amount.None? && (q.lines.Some? ==> q.lines.value == []) ==>
      AdjustmentError(order, q) == Some(InvalidInput("adjustment must include line_items or amount"))
  {
    hide IsBlank, LineRefsError, ValidRefs;
    if q.lines.Some? { RefsAcceptedIff(order.lines, q.lines.value); }
  }

  // ---------- Counters

  function CountOne(line: OrderLine, quantity: int): OrderLine {
    var sum := AddI32(line.quantity.fulfilled, quantity);
    var fulfilled := if sum < line.quantity.total then sum else line.quantity.total;
    line.(quantity := line.quantity.(fulfilled := fulfilled),
          status := if fulfilled >= line.quantity.total then Fulfilled
                    else if fulfilled > 0 then Partial
                    else line.status)
  }

  /** Position of the first line with this id, or the number of lines. */
  function FindLine(lines: seq<OrderLine>, id: string): (i: nat)
    ensures i <= |lines|
    ensures forall k :: 0 <= k < i ==> lines[k].id != id
    ensures i < |lines| ==> lines[i].id == id
  {
    if lines == [] || lines[0].id == id then 0 else 1 + FindLine(lines[1..], id)
  }

  function CountRef(lines: seq<OrderLine>, r: LineRef): (s: seq<OrderLine>)
    ensures |s| == |lines|
  {
    var i := FindLine(lines, r.id);
    if i < |lines| then lines[i := CountOne(lines[i], r.quantity)] else lines
  }

  /** Counts the first `n` references. */
  function CountRefs(lines: seq<OrderLine>, refs: seq<LineRef>, n: nat): (s: seq<OrderLine>)
    requires n <= |refs|
    ensures |s| == |lines|
  {
    if n == 0 then lines else CountRef(CountRefs(lines, refs, n - 1), refs[n - 1])
  }

  method UpdateLineItemQuantities(lines: seq<OrderLine>, refs: seq<LineRef>) returns (r: seq<OrderLine>)
    ensures r == CountRefs(lines, refs, |refs|)
  {
    r := lines;
    for n := 0 to |refs|
      invariant r == CountRefs(lines, refs, n)
    {
      var i := FindLine(r, refs[n].id);
      if i < |r| {
        var sum := AddI32(r[i].quantity.fulfilled, refs[n].quantity);
        var fulfilled := if sum < r[i].quantity.total then sum else r[i].quantity.total;
        var line := r[i].(quantity := r[i].quantity.(fulfilled := fulfilled));
        if fulfilled >= line.quantity.total {
          line := line.(status := Fulfilled);
        } else if fulfilled > 0 {
          line := line.(status := Partial);
        }
        r := r[i := line];
      }
    }
  }

  // ---------- Operations on an order

  predicate Ships(kind: string) { kind == "delivered" || kind == "shipped" }

  function Listed<T>(s: Option<seq<T>>): seq<T> { if s.Some? then s.value else [] }

  function AddEvent(order: Order, q: EventRequest, id: string, now: string): Result<Order, ServiceError> {
    var e := EventError(order, q);
    if e.Some? then Err(e.value) else
    Ok(order.(
      events := Some(Listed(order.events) + [OrderEvent(id, now, q.kind, q.lines, q.tracking, q.description)]),
      lines := if Ships(q.kind) then CountRefs(order.lines, q.lines, |q.lines|) else order.lines))
  }

  function AddAdjustmentTo(order: Order, q: AdjustmentRequest, id: string, now: string): Result<Order, ServiceError> {
    var e := AdjustmentError(order, q);
    if e.Some? then Err(e.value) else
    var status := if q.status.Some? then q.status.value else "completed";
    Ok(order.(adjustments := Some(Listed(order.adjustments) +
      [Adjustment(id, q.kind, now, status, q.lines, q.amount, q.description)])))
  }

  function TrimSlashes(s: string): string {
    if s != "" && s[|s| - 1] == '/' then TrimSlashes(s[..|s| - 1]) else s
  }

  /** Metadata of the running service put on an order whenever it is read. */
  function WithMeta(order: Order, version: string, baseUrl: string): Order {
    var base := TrimSlashes(baseUrl);
    order.(
      ucp := Meta(version, seq(|order.ucp.capabilities|, i requires 0 <= i < |order.ucp.capabilities| =>
        CapabilityRef(order.ucp.capabilities[i].name, version))),
      permalink := if base != "" && (IsBlank(order.permalink) || "https://example.com/orders/" <= order.permalink)
        then base + "/orders/" + order.id else order.permalink)
  }

  /** Orders by id, in memory. */
  class OrderService {
    var orders: map<string, Order>
    const version: string
    const baseUrl: string

    /** Orders are found under their own ids. */
    ghost predicate Valid()
      reads this
    {
      forall k :: k in orders ==> orders[k].id == k
    }

    constructor (version: string, baseUrl: string)
      ensures Valid() && orders == map[] && this.version == version && this.baseUrl == baseUrl
    {
      orders := map[];
      this.version := version;
      this.baseUrl := baseUrl;
    }

    method InsertOrder(order: Order)
      requires Valid()
      modifies this
      ensures Valid()
      ensures orders == old(orders)[order.id := WithMeta(order, version, baseUrl)]
    {
      orders := orders[order.id := WithMeta(order, version, baseUrl)];
    }

    method GetOrder(orderId: string) returns (r: Result<Order, ServiceError>)
      ensures r == if orderId in orders then Ok(WithMeta(orders[orderId], version, baseUrl))
                   else Err(NotFound("Order " + orderId + " not found"))
    {
      if orderId !in orders { return Err(NotFound("Order " + orderId + " not found")); }
      r := Ok(WithMeta(orders[orderId], version, baseUrl));
    }

    /** Nothing changes on an error; otherwise the order, found under its id, is replaced. */
    method AddFulfillmentEvent(orderId: string, q: EventRequest, eventId: string, now: string)
        returns (r: Result<Order, ServiceError>)
      requires Valid()
      modifies this
      ensures Valid()
      ensures r == if orderId in old(orders)
        then AddEvent(WithMeta(old(orders)[orderId], version, baseUrl), q, eventId, now)
        else Err(NotFound("Order " + orderId + " not found"))
      ensures orders == if r.Ok? then old(orders)[orderId := r.value] else old(orders)
    {
      var found := GetOrder(orderId);
      if found.Err? { return found; }
      var order := found.value;
      if IsBlank(q.kind) { return Err(InvalidInput("fulfillment event type is required")); }
      var e := ValidateLineItemRefs(order.lines, q.lines);
      if e.Some? { return Err(e.value); }
      var event := OrderEvent(eventId, now, q.kind, q.lines, q.tracking, q.description);
      if order.events.None? { order := order.(events := Some([])); }
      order := order.(events := Some(order.events.value + [event]));
      if Ships(q.kind) {
        var lines := UpdateLineItemQuantities(order.lines, q.lines);
        order := order.(lines := lines);
      }
      orders := orders[order.id := order];
      r := Ok(order);
    }

    method AddAdjustment(orderId: string, q: AdjustmentRequest, adjustmentId: string, now: string)
        returns (r: Result<Order, ServiceError>)
      requires Valid()
      modifies this
      ensures Valid()
      ensures r == if orderId in old(orders)
        then AddAdjustmentTo(WithMeta(old(orders)[orderId], version, baseUrl), q, adjustmentId, now)
        else Err(NotFound("Order " + orderId + " not found"))
      ensures orders == if r.Ok? then old(orders)[orderId := r.value] else old(orders)
    {
      var found := GetOrder(orderId);
      if found.Err? { return found; }
      var order := found.value;
      var e := AdjustmentError(order, q);
      if e.Some? { return Err(e.value); }
      var adjustment := Adjustment(adjustmentId, q.kind, now, if q.status.Some? then q.status.value else "completed",
        q.lines, q.amount, q.description);
      if order.adjustments.None? { order := order.(adjustments := Some([])); }
      order := order.(adjustments := Some(order.adjustments.value + [adjustment]));
      orders := orders[order.id := order];
      r := Ok(order);
    }
  }

  // ---------- Replay of the log

  /** Quantity of a line among the first `n` references. */
  function Referenced(refs: seq<LineRef>, id: string, n: nat): int
    requires n <= |refs|
  {
    if n == 0 then 0 else Referenced(refs, id, n - 1) + if refs[n - 1].id == id then refs[n - 1].quantity else 0
  }

  /** Quantity of a line shipped or delivered by the log. */
  function Shipped(events: seq<OrderEvent>, id: string): int {
    if events == [] then 0 else
    var e := events[|events| - 1];
    Shipped(events[..|events| - 1], id) +
      if e.kind == "shipped" || e.kind == "delivered" then Referenced(e.lines, id, |e.lines|) else 0
  }

  /** What the log says about line `i`. Only the first line with an id is ever counted. */
  function ReplayedCount(order: Order, i: nat): int
    requires i < |order.lines|
  {
    var line := order.lines[i];
    if FindLine(order.lines, line.id) == i then Min(line.quantity.total, Shipped(Listed(order.events), line.id)) else 0
  }

  function StatusOf(q: Quantity): LineStatus {
    if q.fulfilled >= q.total then Fulfilled else if q.fulfilled > 0 then Partial else Processing
  }

  /** Counters and statuses are those a replay of the log gives. */
  ghost predicate CountersMatch(order: Order) {
    forall i :: 0 <= i < |order.lines| ==>
      order.lines[i].quantity.fulfilled == ReplayedCount(order, i) &&
      order.lines[i].status == StatusOf(order.lines[i].quantity)
  }

  /** Quantities are 32-bit, as the type of the field says, and every line orders something. */
  ghost predicate Quantified(order: Order) {
    forall i :: 0 <= i < |order.lines| ==> 0 < order.lines[i].quantity.total <= I32_MAX
  }

  ghost predicate Quantities32(refs: seq<LineRef>) {
    forall i :: 0 <= i < |refs| ==> refs[i].quantity <= I32_MAX
  }

  /** Line `i` is the first with its id, the only one the program counts for that id. */
  predicate IsFirst(lines: seq<OrderLine>, i: nat)
    requires i < |lines|
  {
    FindLine(lines, lines[i].id) == i
  }

  /** Counting the references moves the counter of line `i` past the 32-bit range. */
  predicate Overflows(lines: seq<OrderLine>, refs: seq<LineRef>, i: nat)
    requires i < |lines|
  {
    IsFirst(lines, i) && lines[i].quantity.fulfilled + Referenced(refs, lines[i].id, |refs|) > I32_MAX
  }

  predicate Fits(lines: seq<OrderLine>, refs: seq<LineRef>) {
    forall i :: 0 <= i < |lines| ==> !Overflows(lines, refs, i)
  }

  lemma FindLineSame(lines: seq<OrderLine>, other: seq<OrderLine>, id: string)
    requires |lines| == |other| && forall i :: 0 <= i < |lines| ==> lines[i].id == other[i].id
    ensures FindLine(lines, id) == FindLine(other, id)
  {
  }

  lemma {:induction false} ReferencedFacts(refs: seq<LineRef>, id: string, n: nat)
    requires n <= |refs| && (forall a, b :: 0 <= a < b < |refs| ==> refs[a].id != refs[b].id)
    requires forall a :: 0 <= a < |refs| ==> 0 < refs[a].quantity <= I32_MAX
    ensures 0 <= Referenced(refs, id, n) <= I32_MAX
    ensures n < |refs| && refs[n].id == id ==> Referenced(refs, id, n) == 0
    ensures Referenced(refs, id, n) != 0 ==> exists k :: 0 <= k < n && refs[k].id == id
  {
    if n > 0 { ReferencedFacts(refs, id, n - 1); }
  }

  lemma {:induction false} CountRefsKeeps(lines: seq<OrderLine>, refs: seq<LineRef>, n: nat)
    requires n <= |refs|
    ensures forall j :: 0 <= j < |lines| ==>
      CountRefs(lines, refs, n)[j].id == lines[j].id &&
      CountRefs(lines, refs, n)[j].quantity.total == lines[j].quantity.total
  {
    if n > 0 { CountRefsKeeps(lines, refs, n - 1); }
  }

  predicate Acceptable(refs: seq<LineRef>) {
    (forall a, b :: 0 <= a < b < |refs| ==> refs[a].id != refs[b].id) &&
    forall a :: 0 <= a < |refs| ==> 0 < refs[a].quantity <= I32_MAX
  }

  /** Counting touches the first line with a referenced id, once, and no other. */
  lemma {:induction false} CountRefsLine(lines: seq<OrderLine>, refs: seq<LineRef>, n: nat, i: nat)
    requires n <= |refs| && i < |lines| && Acceptable(refs)
    ensures var quantity := Referenced(refs, lines[i].id, n);
      CountRefs(lines, refs, n)[i] ==
        if IsFirst(lines, i) && quantity != 0 then CountOne(lines[i], quantity) else lines[i]
  {
    hide FindLine, CountOne;
    if n > 0 {
      CountRefsLine(lines, refs, n - 1, i);
      CountRefsKeeps(lines, refs, n - 1);
      ReferencedFacts(refs, lines[i].id, n - 1);
      var t, r := CountRefs(lines, refs, n - 1), refs[n - 1];
      FindLineSame(lines, t, r.id);
      assert CountRefs(lines, refs, n) == CountRef(t, r);
      if r.id == lines[i].id {
        assert Referenced(refs, lines[i].id, n) == r.quantity;
      } else {
        assert FindLine(t, r.id) != i;
      }
    }
  }

  lemma CountOneIff(line: OrderLine, quantity: int, shipped: int)
    requires 0 < line.quantity.total <= I32_MAX && 0 < quantity <= I32_MAX && 0 <= shipped
    requires line.quantity.fulfilled == Min(line.quantity.total, shipped)
    ensures var counted := CountOne(line, quantity);
      if line.quantity.fulfilled + quantity <= I32_MAX then
        line.quantity.fulfilled <= counted.quantity.fulfilled == Min(line.quantity.total, shipped + quantity) &&
        counted.status == StatusOf(counted.quantity)
      else counted.quantity.fulfilled < 0
  {
  }

  ghost predicate LogNonNegative(order: Order) {
    forall i :: 0 <= i < |order.lines| ==> 0 <= Shipped(Listed(order.events), order.lines[i].id)
  }

  lemma AcceptedRefs(order: Order, q: EventRequest)
    requires EventError(order, q).None? && Quantities32(q.lines)
    ensures Acceptable(q.lines)
  {
    hide IsBlank, HasLine;
    RefsAcceptedIff(order.lines, q.lines);
  }

  lemma AddEventLine(order: Order, q: EventRequest, id: string, now: string, i: nat)
    requires Quantified(order) && CountersMatch(order) && LogNonNegative(order) && Quantities32(q.lines)
    requires AddEvent(order, q, id, now).Ok? && i < |order.lines|
    ensures var next := AddEvent(order, q, id, now).value;
      var line, counted := order.lines[i], next.lines[i];
      |next.lines| == |order.lines| && counted.id == line.id && counted.quantity.total == line.quantity.total &&
      IsFirst(next.lines, i) == IsFirst(order.lines, i) &&
      0 <= Shipped(Listed(next.events), line.id) &&
      (if q.kind in {"shipped", "delivered"} && Overflows(order.lines, q.lines, i) then counted.quantity.fulfilled < 0
       else (line.quantity.fulfilled <= counted.quantity.fulfilled == ReplayedCount(next, i) &&
             counted.status == StatusOf(counted.quantity)))
  {
    hide FindLine, CountOne, CountRefs, Referenced, EventError;
    var next := AddEvent(order, q, id, now).value;
    var events, refs := Listed(next.events), q.lines;
    assert events[..|events| - 1] == Listed(order.events);
    AcceptedRefs(order, q);
    ReferencedFacts(refs, order.lines[i].id, |refs|);
    if Ships(q.kind) {
      CountRefsLine(order.lines, refs, |refs|, i);
      CountRefsKeeps(order.lines, refs, |refs|);
      var quantity := Referenced(refs, order.lines[i].id, |refs|);
      if IsFirst(order.lines, i) && quantity != 0 {
        CountOneIff(order.lines[i], quantity, Shipped(Listed(order.events), order.lines[i].id));
      }
    }
    FindLineSame(order.lines, next.lines, order.lines[i].id);
  }

  /** What an order keeps through its life besides the counters. */
  ghost predicate Sound(order: Order) { Quantified(order) && LogNonNegative(order) }

  /**
   After an accepted event the counters are again those a replay of the log gives, exactly when the event moves no
   counter past the 32-bit range. Then no count decreases, and the log only grew at its end.
   */
  lemma AddEventReplays(order: Order, q: EventRequest, id: string, now: string)
    requires Sound(order) && CountersMatch(order) && Quantities32(q.lines) && AddEvent(order, q, id, now).Ok?
    ensures var next := AddEvent(order, q, id, now).value;
      Sound(next) && Listed(order.events) <= Listed(next.events) && next.adjustments == order.adjustments &&
      (CountersMatch(next) <==> (q.kind in {"shipped", "delivered"} ==> Fits(order.lines, q.lines))) &&
      (CountersMatch(next) ==> NoDecrease(order, next))
  {
    hide FindLine, CountOne, CountRefs, Referenced, EventError, Shipped, ReplayedCount, IsFirst, StatusOf, Overflows;
    var next := AddEvent(order, q, id, now).value;
    forall i | 0 <= i < |order.lines|
      ensures |next.lines| == |order.lines| && next.lines[i].id == order.lines[i].id
      ensures next.lines[i].quantity.total == order.lines[i].quantity.total
      ensures 0 <= Shipped(Listed(next.events), order.lines[i].id)
      ensures ReplayedCount(next, i) >= 0
      ensures
        if q.kind in {"shipped", "delivered"} && Overflows(order.lines, q.lines, i) then
          next.lines[i].quantity.fulfilled < 0
        else (order.lines[i].quantity.fulfilled <= next.lines[i].quantity.fulfilled == ReplayedCount(next, i) &&
              next.lines[i].status == StatusOf(next.lines[i].quantity))
    {
      AddEventLine(order, q, id, now, i);
      ReplayedNonNegative(next, i);
    }
    assert |next.lines| == |order.lines|;
  }

  lemma ReplayedNonNegative(order: Order, i: nat)
    requires i < |order.lines| && 0 < order.lines[i].quantity.total
    requires 0 <= Shipped(Listed(order.events), order.lines[i].id)
    ensures 0 <= ReplayedCount(order, i)
  {
    hide Shipped;
  }

  ghost predicate NoDecrease(order: Order, next: Order) {
    |next.lines| == |order.lines| && forall i :: 0 <= i < |order.lines| ==>
      order.lines[i].quantity.fulfilled <= next.lines[i].quantity.fulfilled
  }

  /** An adjustment is only recorded. */
  lemma AddAdjustmentRecords(order: Order, q: AdjustmentRequest, id: string, now: string)
    requires AddAdjustmentTo(order, q, id, now).Ok?
    ensures var next := AddAdjustmentTo(order, q, id, now).value;
      next.lines == order.lines && next.events == order.events &&
      Listed(order.adjustments) < Listed(next.adjustments) &&
      (CountersMatch(order) <==> CountersMatch(next)) && (Sound(order) <==> Sound(next))
  {
  }

  /** Reading an order changes neither its lines nor its logs. */
  lemma WithMetaKeeps(order: Order, version: string, baseUrl: string)
    ensures var read := WithMeta(order, version, baseUrl);
      read.id == order.id && read.lines == order.lines && read.events == order.events &&
      read.adjustments == order.adjustments && (CountersMatch(order) <==> CountersMatch(read)) &&
      (Sound(order) <==> Sound(read))
  {
  }

  /** The base without slashes at its end. */
  lemma {:induction false} TrimSlashesMeans(s: string) returns (n: nat)
    ensures n <= |s| && TrimSlashes(s) == s[..n] && (n > 0 ==> s[n - 1] != '/')
    ensures forall k :: n <= k < |s| ==> s[k] == '/'
  {
    n := |s|;
    if s != "" && s[|s| - 1] == '/' {
      n := TrimSlashesMeans(s[..|s| - 1]);
      assert forall k :: n <= k < |s| - 1 ==> s[k] == s[..|s| - 1][k];
    }
  }

  /**
   An order that is read carries the version of the service, on itself and its capabilities; a permalink that is
   blank or a placeholder is replaced by one under the base address, if there is one.
   */
  lemma WithMetaMeans(order: Order, version: string, baseUrl: string)
    ensures var read := WithMeta(order, version, baseUrl);
      var base := TrimSlashes(baseUrl);
      read.ucp.version == version && |read.ucp.capabilities| == |order.ucp.capabilities| &&
      (forall i :: 0 <= i < |read.ucp.capabilities| ==>
        read.ucp.capabilities[i].name == order.ucp.capabilities[i].name &&
        read.ucp.capabilities[i].version == version) &&
      read.permalink == if base == "" then order.permalink
        else if IsBlank(order.permalink) then base + "/orders/" + order.id
        else if |order.permalink| >= 27 && order.permalink[..27] == "https://example.com/orders/" then
          base + "/orders/" + order.id
        else order.permalink
  {
    hide IsBlank, TrimSlashes;
    assert |"https://example.com/orders/"| == 27;
  }

  // ---------- Runs

  datatype OrderOp =
    | FulfillmentOp(event: EventRequest, id: string, now: string)
    | AdjustmentOp(adjustment: AdjustmentRequest, id: string, now: string)

  function Apply(order: Order, op: OrderOp): Result<Order, ServiceError> {
    match op
    case FulfillmentOp(q, id, now) => AddEvent(order, q, id, now)
    case AdjustmentOp(q, id, now) => AddAdjustmentTo(order, q, id, now)
  }

  /** The stored order after an operation; a refused one changes nothing. */
  function Next(order: Order, version: string, baseUrl: string, op: OrderOp): Order {
    match Apply(WithMeta(order, version, baseUrl), op)
    case Ok(next) => next
    case Err(_) => order
  }

  /** The stored order after the first `n` operations. */
  function OrderAfter(order: Order, version: string, baseUrl: string, ops: seq<OrderOp>, n: nat): Order
    requires n <= |ops|
  {
    if n == 0 then order else Next(OrderAfter(order, version, baseUrl, ops, n - 1), version, baseUrl, ops[n - 1])
  }

  /** The operation is refused, or moves no counter past the 32-bit range. */
  predicate OpFits(order: Order, op: OrderOp) {
    op.FulfillmentOp? && op.event.kind in {"shipped", "delivered"} && EventError(order, op.event).None? ==>
      Fits(order.lines, op.event.lines)
  }

  ghost predicate Ops32(ops: seq<OrderOp>) {
    forall i :: 0 <= i < |ops| && ops[i].FulfillmentOp? ==> Quantities32(ops[i].event.lines)
  }

  lemma WithMetaFits(order: Order, version: string, baseUrl: string, op: OrderOp)
    ensures OpFits(WithMeta(order, version, baseUrl), op) == OpFits(order, op)
  {
    hide LineRefsError, Fits;
  }

  lemma RunStep(order: Order, version: string, baseUrl: string, op: OrderOp)
    requires Sound(order) && (op.FulfillmentOp? ==> Quantities32(op.event.lines))
    ensures var next := Next(order, version, baseUrl, op);
      Sound(next) &&
      Listed(order.events) <= Listed(next.events) && Listed(order.adjustments) <= Listed(next.adjustments) &&
      (CountersMatch(order) ==>
        (CountersMatch(next) <==> OpFits(order, op)) && (OpFits(order, op) ==> NoDecrease(order, next)))
  {
    hide CountersMatch, Fits, AdjustmentError, CountRefs, WithMeta, Shipped, LineRefsError;
    var read := WithMeta(order, version, baseUrl);
    WithMetaKeeps(order, version, baseUrl);
    WithMetaFits(order, version, baseUrl, op);
    match op
    case FulfillmentOp(q, id, now) =>
      if AddEvent(read, q, id, now).Ok? {
        AddEventIsSound(read, q, id, now);
        if CountersMatch(read) { AddEventReplays(read, q, id, now); }
      }
    case AdjustmentOp(q, id, now) =>
      if AddAdjustmentTo(read, q, id, now).Ok? { AddAdjustmentRecords(read, q, id, now); }
  }

  /** The log grows and stays sound even when a counter overflows. */
  lemma AddEventIsSound(order: Order, q: EventRequest, id: string, now: string)
    requires Sound(order) && Quantities32(q.lines) && AddEvent(order, q, id, now).Ok?
    ensures var next := AddEvent(order, q, id, now).value;
      Sound(next) && Listed(order.events) <= Listed(next.events) && next.adjustments == order.adjustments
  {
    hide CountRefs, EventError, Referenced;
    var next := AddEvent(order, q, id, now).value;
    var events := Listed(next.events);
    assert events[..|events| - 1] == Listed(order.events);
    AcceptedRefs(order, q);
    CountRefsKeeps(order.lines, q.lines, |q.lines|);
    forall i | 0 <= i < |order.lines| ensures 0 <= Shipped(events, order.lines[i].id) {
      ReferencedFacts(q.lines, order.lines[i].id, |q.lines|);
    }
  }

  lemma {:induction false} RunIsSound(order: Order, version: string, baseUrl: string, ops: seq<OrderOp>, n: nat)
    requires Sound(order) && Ops32(ops) && n <= |ops|
    ensures var after := OrderAfter(order, version, baseUrl, ops, n);
      Sound(after) && Listed(order.events) <= Listed(after.events) &&
        Listed(order.adjustments) <= Listed(after.adjustments)
  {
    hide Sound, Next, Quantities32;
    if n > 0 {
      RunIsSound(order, version, baseUrl, ops, n - 1);
      RunStep(OrderAfter(order, version, baseUrl, ops, n - 1), version, baseUrl, ops[n - 1]);
    }
  }

  lemma {:induction false} RunMatchesWhileFitting(order: Order, version: string, baseUrl: string, ops: seq<OrderOp>,
      n: nat)
    requires Sound(order) && CountersMatch(order) && Ops32(ops) && n <= |ops|
    requires forall k :: 0 <= k < n ==> OpFits(OrderAfter(order, version, baseUrl, ops, k), ops[k])
    ensures CountersMatch(OrderAfter(order, version, baseUrl, ops, n))
    ensures NoDecrease(order, OrderAfter(order, version, baseUrl, ops, n))
  {
    hide Sound, Next, CountersMatch, OpFits, Quantities32;
    if n > 0 {
      RunMatchesWhileFitting(order, version, baseUrl, ops, n - 1);
      RunIsSound(order, version, baseUrl, ops, n - 1);
      RunStep(OrderAfter(order, version, baseUrl, ops, n - 1), version, baseUrl, ops[n - 1]);
    }
  }

  ghost predicate MatchesThroughout(order: Order, version: string, baseUrl: string, ops: seq<OrderOp>) {
    forall n :: 0 <= n <= |ops| ==> CountersMatch(OrderAfter(order, version, baseUrl, ops, n))
  }

  ghost predicate FitsThroughout(order: Order, version: string, baseUrl: string, ops: seq<OrderOp>) {
    forall n :: 0 <= n < |ops| ==> OpFits(OrderAfter(order, version, baseUrl, ops, n), ops[n])
  }

  lemma MatchingFits(order: Order, version: string, baseUrl: string, ops: seq<OrderOp>, n: nat)
    requires Sound(order) && Ops32(ops) && n < |ops| && MatchesThroughout(order, version, baseUrl, ops)
    ensures OpFits(OrderAfter(order, version, baseUrl, ops, n), ops[n])
  {
    hide Sound, Next, CountersMatch, OpFits, Quantities32;
    RunIsSound(order, version, baseUrl, ops, n);
    var before := OrderAfter(order, version, baseUrl, ops, n);
    assert CountersMatch(before) && CountersMatch(OrderAfter(order, version, baseUrl, ops, n + 1));
    RunStep(before, version, baseUrl, ops[n]);
  }

  /**
   Over any sequence of operations, accepted or refused, the counters are at every moment those a replay of
   the log gives, exactly when no accepted event moves a counter past the 32-bit range. Counts never decrease
   while they match, and events and adjustments are only ever added at the end.
   */
  lemma CountersReplayTheLog(order: Order, version: string, baseUrl: string, ops: seq<OrderOp>)
    requires Sound(order) && CountersMatch(order) && Ops32(ops)
    ensures MatchesThroughout(order, version, baseUrl, ops) <==> FitsThroughout(order, version, baseUrl, ops)
    ensures FitsThroughout(order, version, baseUrl, ops) ==>
      NoDecrease(order, OrderAfter(order, version, baseUrl, ops, |ops|))
    ensures var last := OrderAfter(order, version, baseUrl, ops, |ops|);
      Listed(order.events) <= Listed(last.events) && Listed(order.adjustments) <= Listed(last.adjustments)
  {
    hide Sound, Next, CountersMatch, OpFits, Quantities32, OrderAfter;
    RunIsSound(order, version, baseUrl, ops, |ops|);
    if FitsThroughout(order, version, baseUrl, ops) {
      forall n | 0 <= n <= |ops| ensures CountersMatch(OrderAfter(order, version, baseUrl, ops, n)) {
        RunMatchesWhileFitting(order, version, baseUrl, ops, n);
      }
      RunMatchesWhileFitting(order, version, baseUrl, ops, |ops|);
    }
    if MatchesThroughout(order, version, baseUrl, ops) {
      forall n | 0 <= n < |ops| ensures OpFits(OrderAfter(order, version, baseUrl, ops, n), ops[n]) {
        MatchingFits(order, version, baseUrl, ops, n);
      }
    }
  }

  /** An order of one line for 2147483647 items. */
  function LargeOrder(item: Item): Order {
    var line := OrderLine("a", item, Quantity(I32_MAX, 0), [], Processing, None, map[]);
    Order(Meta("", []), "order", "chk", "", [line], None, [], None)
  }

  function Shipment(quantity: int): EventRequest { EventRequest("shipped", [LineRef("a", quantity)], None, None) }

  lemma ShipmentAccepted(order: Order, quantity: int)
    requires |order.lines| == 1 && order.lines[0].id == "a" && 0 < quantity
    ensures EventError(order, Shipment(quantity)).None?
  {
    hide RefsError, IsBlank;
    assert IsBlank("a") == false && IsBlank("shipped") == false by { NamesAreNotBlank(); }
    RefsAcceptedIff(order.lines, Shipment(quantity).lines);
    assert HasLine(order.lines, "a");
  }

  lemma NamesAreNotBlank()
    ensures !IsBlank("a") && !IsBlank("shipped")
  {
  }

  lemma {:induction false} OneRef(lines: seq<OrderLine>, quantity: int)
    requires |lines| == 1 && lines[0].id == "a"
    ensures CountRefs(lines, Shipment(quantity).lines, 1) == [CountOne(lines[0], quantity)]
  {
    var refs := Shipment(quantity).lines;
    assert CountRefs(lines, refs, 0) == lines && FindLine(lines, "a") == 0;
  }

  /**
   Two accepted shipments, of one item and of 2147483647, turn the counter of a line negative, though the counters of
   the order matched its log before.
   */
  lemma OverflowExample(item: Item, now: string)
    ensures Sound(LargeOrder(item)) && CountersMatch(LargeOrder(item))
    ensures var first := AddEvent(LargeOrder(item), Shipment(1), "e1", now);
      first.Ok? && CountersMatch(first.value) &&
      var second := AddEvent(first.value, Shipment(I32_MAX), "e2", now);
      second.Ok? && second.value.lines[0].quantity.fulfilled == -0x8000_0000 && !CountersMatch(second.value)
  {
    hide IsBlank, EventError, CountRefs, Referenced, Shipped, FindLine;
    var order := LargeOrder(item);
    LargeOrderMatches(item);
    ShipmentAccepted(order, 1);
    OneRef(order.lines, 1);
    var first := AddEvent(order, Shipment(1), "e1", now).value;
    AddEventReplays(order, Shipment(1), "e1", now);
    OneShipmentFits(order);
    ShipmentAccepted(first, I32_MAX);
    OneRef(first.lines, I32_MAX);
    AddEventReplays(first, Shipment(I32_MAX), "e2", now);
    var second := AddEvent(first, Shipment(I32_MAX), "e2", now).value;
    ReplayedNonNegative(second, 0);
  }

  lemma LargeOrderMatches(item: Item)
    ensures Sound(LargeOrder(item)) && CountersMatch(LargeOrder(item))
  {
  }

  lemma OneShipmentFits(order: Order)
    requires |order.lines| == 1 && order.lines[0].quantity.fulfilled == 0
    ensures Fits(order.lines, Shipment(1).lines)
  {
    var refs := Shipment(1).lines;
    assert Referenced(refs, order.lines[0].id, 0) == 0;
  }
}
