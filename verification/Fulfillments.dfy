/**
 The fulfillment normalizer (src/service.rs): fills in ids, line items, options and selections that a request
 leaves open. New identifiers come from a supply, a counter of which every value is used at most once.
 */
module Fulfillments {
  import opened Wrappers
  import opened Text
  import opened Models
  import Json

  // ---------- Identifiers

  function FreshId(prefix: string, n: nat): string { prefix + NatText(n) }

  predicate Missing(id: Option<string>) { id.None? || IsBlank(id.value) }

  /** Keeps an identifier, or takes one from the supply. */
  function EnsureId(id: Option<string>, prefix: string, n: nat): (r: (Option<string>, nat))
    ensures n <= r.1
  {
    if Missing(id) then (Some(FreshId(prefix, n)), n + 1) else (id, n)
  }

  predicate Within(ids: seq<string>, all: seq<string>) { forall i :: 0 <= i < |ids| ==> ids[i] in all }

  /** Line items of a method or group: kept when there are some and all are known. */
  function LineIds(ids: seq<string>, all: seq<string>): seq<string> {
    if ids == [] || !Within(ids, all) then all else ids
  }

  // ---------- The normalizer as functions

  const SHIPPING := "shipping"

  function DefaultOptions(): seq<ShippingOption> {
    [ShippingOption(Some("ship_standard"), Some("Standard Shipping"), Some("Arrives in 5-7 business days"),
       [Total("total", Some("Shipping"), 500)], map["carrier" := Json.Str("UPS")]),
     ShippingOption(Some("ship_express"), Some("Express Shipping"), Some("Arrives in 2-3 business days"),
       [Total("total", Some("Shipping"), 1500)], map["carrier" := Json.Str("FedEx")])]
  }

  function NormalOption(o: ShippingOption, index: nat, n: nat): (r: (ShippingOption, nat))
    ensures n <= r.1
  {
    var (id, n') := EnsureId(o.id, "opt_", n);
    (o.(id := id,
        title := if Missing(o.title) then Some("Fulfillment Option " + NatText(index + 1)) else o.title,
        totals := if o.totals == [] then [Total("total", Some("Fulfillment"), 0)] else o.totals),
     n')
  }

  function NormalOptions(s: seq<ShippingOption>, index: nat, n: nat): (r: (seq<ShippingOption>, nat))
    ensures |r.0| == |s| && n <= r.1
    decreases s
  {
    if s == [] then ([], n) else
    var (o, n1) := NormalOption(s[0], index, n);
    var (rest, n2) := NormalOptions(s[1..], index + 1, n1);
    ([o] + rest, n2)
  }

  function FirstOptionId(s: seq<ShippingOption>): Option<string> { if s == [] then None else s[0].id }

  function NormalGroup(g: Group, lineIds: seq<string>, n: nat): (r: (Group, nat))
    ensures n <= r.1
  {
    var (id, n1) := EnsureId(g.id, "grp_", n);
    var (options, n2) := NormalOptions(if g.options.None? then DefaultOptions() else g.options.value, 0, n1);
    (g.(id := id, lineItemIds := LineIds(g.lineItemIds, lineIds), options := Some(options),
        selectedOption := if g.selectedOption.None? then FirstOptionId(options) else g.selectedOption),
     n2)
  }

  function NormalGroups(s: seq<Group>, lineIds: seq<string>, n: nat): (r: (seq<Group>, nat))
    ensures |r.0| == |s| && n <= r.1
    decreases s
  {
    if s == [] then ([], n) else
    var (g, n1) := NormalGroup(s[0], lineIds, n);
    var (rest, n2) := NormalGroups(s[1..], lineIds, n1);
    ([g] + rest, n2)
  }

  function NormalDestinations(s: seq<Destination>, n: nat): (r: (seq<Destination>, nat))
    ensures |r.0| == |s| && n <= r.1
    decreases s
  {
    if s == [] then ([], n) else
    var (id, n1) := EnsureId(s[0].id, "dest_", n);
    var (rest, n2) := NormalDestinations(s[1..], n1);
    ([s[0].(id := id)] + rest, n2)
  }

  /** A single destination is selected when nothing is. */
  function SelectDestination(selected: Option<string>, destinations: Option<seq<Destination>>): Option<string> {
    if selected.None? && destinations.Some? && |destinations.value| == 1 then destinations.value[0].id else selected
  }

  /** The group of a method that has none. */
  function DefaultGroup(lineIds: seq<string>, n: nat): Group {
    Group(Some(FreshId("grp_", n)), lineIds, Some(DefaultOptions()), None, map[])
  }

  function NormalMethod(m: DeliveryMethod, lineIds: seq<string>, n: nat): (r: (DeliveryMethod, nat))
    ensures n <= r.1
  {
    var (id, n1) := EnsureId(m.id, "fm_", n);
    var ids := LineIds(m.lineItemIds, lineIds);
    var (destinations, n2) := if m.destinations.None? then (None, n1) else
      var (ds, k) := NormalDestinations(m.destinations.value, n1); (Some(ds), k);
    var (given, n3) := if m.groups.None? then ([DefaultGroup(ids, n2)], n2 + 1) else (m.groups.value, n2);
    var (groups, n4) := NormalGroups(given, ids, n3);
    (m.(id := id, kind := if IsBlank(m.kind) then SHIPPING else m.kind, lineItemIds := ids,
        destinations := destinations, selectedDestination := SelectDestination(m.selectedDestination, destinations),
        groups := Some(groups)),
     n4)
  }

  function NormalMethods(s: seq<DeliveryMethod>, lineIds: seq<string>, n: nat): (r: (seq<DeliveryMethod>, nat))
    ensures |r.0| == |s| && n <= r.1
    decreases s
  {
    if s == [] then ([], n) else
    var (m, n1) := NormalMethod(s[0], lineIds, n);
    var (rest, n2) := NormalMethods(s[1..], lineIds, n1);
    ([m] + rest, n2)
  }

  function DefaultMethod(lineIds: seq<string>, n: nat): DeliveryMethod {
    DeliveryMethod(Some(FreshId("fm_", n)), SHIPPING, lineIds, None, None, None, map[])
  }

  function AvailableMethods(s: seq<DeliveryMethod>): seq<AvailableMethod> {
    seq(|s|, i requires 0 <= i < |s| =>
      AvailableMethod(if s[i].id.Some? then s[i].id.value else "", s[i].kind, s[i].lineItemIds))
  }

  /** The normalized fulfillment and the supply that is left. */
  function Built(f: Fulfillment, lineIds: seq<string>, n: nat): (r: (Fulfillment, nat))
    ensures n <= r.1
  {
    var (given, n1) := if f.methods.None? then ([DefaultMethod(lineIds, n)], n + 1) else (f.methods.value, n);
    var (methods, n2) := NormalMethods(given, lineIds, n1);
    (Fulfillment(Some(methods), Some(AvailableMethods(methods))), n2)
  }

  function BuiltOptional(f: Option<Fulfillment>, lineIds: seq<string>, n: nat): (r: (Option<Fulfillment>, nat))
    ensures n <= r.1 && r.0.Some? == f.Some?
  {
    if f.None? then (None, n) else var (g, n') := Built(f.value, lineIds, n); (Some(g), n')
  }

  // ---------- Cost

  function SumAmounts(s: seq<Total>): int { if s == [] then 0 else s[0].amount + SumAmounts(s[1..]) }

  function FirstTotal(s: seq<Total>): Option<int> {
    if s == [] then None else if s[0].kind == "total" then Some(s[0].amount) else FirstTotal(s[1..])
  }

  function OptionTotal(totals: seq<Total>): int {
    if FirstTotal(totals).Some? then FirstTotal(totals).value else SumAmounts(totals)
  }

  function FindOption(s: seq<ShippingOption>, id: Option<string>): (i: nat)
    ensures i <= |s|
  {
    if s == [] || s[0].id == id then 0 else 1 + FindOption(s[1..], id)
  }

  /** Position of the first option with this id, or of the first option at all. */
  function ChosenOption(s: seq<ShippingOption>, id: Option<string>): (i: nat)
    requires s != []
    ensures i < |s|
  {
    var i := FindOption(s, id);
    if id.Some? && i < |s| then i else 0
  }

  function GroupCost(g: Group): int {
    if g.options.None? || g.options.value == [] then 0
    else OptionTotal(g.options.value[ChosenOption(g.options.value, g.selectedOption)].totals)
  }

  function GroupsCost(s: seq<Group>): int { if s == [] then 0 else GroupCost(s[0]) + GroupsCost(s[1..]) }

  function MethodsCost(s: seq<DeliveryMethod>): int {
    if s == [] then 0 else (if s[0].groups.Some? then GroupsCost(s[0].groups.value) else 0) + MethodsCost(s[1..])
  }

  function Cost(f: Option<Fulfillment>): int {
    if f.Some? && f.value.methods.Some? then MethodsCost(f.value.methods.value) else 0
  }

  // ---------- The loops of the program

  method BuildOption(option: ShippingOption, index: nat, supply: nat) returns (o: ShippingOption, n: nat)
    ensures o == NormalOption(option, index, supply).0 && n == NormalOption(option, index, supply).1
  {
    hide EnsureId, NatText, IsBlank;
    var (id, n') := EnsureId(option.id, "opt_", supply);
    o, n := option.(id := id), n';
    if Missing(o.title) { o := o.(title := Some("Fulfillment Option " + NatText(index + 1))); }
    if o.totals == [] { o := o.(totals := [Total("total", Some("Fulfillment"), 0)]); }
  }

  method BuildOptions(options: seq<ShippingOption>, supply: nat) returns (r: seq<ShippingOption>, n: nat)
    ensures r == NormalOptions(options, 0, supply).0 && n == NormalOptions(options, 0, supply).1
  {
    hide NormalOption;
    r, n := [], supply;
    for i := 0 to |options|
      invariant r + NormalOptions(options[i..], i, n).0 == NormalOptions(options, 0, supply).0
      invariant NormalOptions(options[i..], i, n).1 == NormalOptions(options, 0, supply).1
    {
      assert options[i..][1..] == options[i + 1..];
      var o;
      o, n := BuildOption(options[i], i, n);
      r := r + [o];
    }
  }

  method BuildGroup(group: Group, lineIds: seq<string>, supply: nat) returns (g: Group, n: nat)
    ensures g == NormalGroup(group, lineIds, supply).0 && n == NormalGroup(group, lineIds, supply).1
  {
    hide EnsureId, NormalOptions, DefaultOptions, LineIds, FirstOptionId;
    var (id, n1) := EnsureId(group.id, "grp_", supply);
    g := group.(id := id);
    g := g.(lineItemIds := LineIds(g.lineItemIds, lineIds));
    if g.options.None? { g := g.(options := Some(DefaultOptions())); }
    var options, n2 := BuildOptions(g.options.value, n1);
    g := g.(options := Some(options));
    if g.selectedOption.None? { g := g.(selectedOption := FirstOptionId(options)); }
    n := n2;
  }

  method BuildGroups(groups: seq<Group>, lineIds: seq<string>, supply: nat) returns (r: seq<Group>, n: nat)
    ensures r == NormalGroups(groups, lineIds, supply).0 && n == NormalGroups(groups, lineIds, supply).1
  {
    hide NormalGroup;
    r, n := [], supply;
    for i := 0 to |groups|
      invariant r + NormalGroups(groups[i..], lineIds, n).0 == NormalGroups(groups, lineIds, supply).0
      invariant NormalGroups(groups[i..], lineIds, n).1 == NormalGroups(groups, lineIds, supply).1
    {
      assert groups[i..][1..] == groups[i + 1..];
      var g;
      g, n := BuildGroup(groups[i], lineIds, n);
      r := r + [g];
    }
  }

  method BuildDestinations(destinations: seq<Destination>, supply: nat) returns (r: seq<Destination>, n: nat)
    ensures r == NormalDestinations(destinations, supply).0 && n == NormalDestinations(destinations, supply).1
  {
    hide EnsureId;
    r, n := [], supply;
    for i := 0 to |destinations|
      invariant r + NormalDestinations(destinations[i..], n).0 == NormalDestinations(destinations, supply).0
      invariant NormalDestinations(destinations[i..], n).1 == NormalDestinations(destinations, supply).1
    {
      assert destinations[i..][1..] == destinations[i + 1..];
      var (id, n') := EnsureId(destinations[i].id, "dest_", n);
      r, n := r + [destinations[i].(id := id)], n';
    }
  }

  method BuildMethod(given: DeliveryMethod, lineIds: seq<string>, supply: nat) returns (m: DeliveryMethod, n: nat)
    ensures m == NormalMethod(given, lineIds, supply).0 && n == NormalMethod(given, lineIds, supply).1
  {
    hide EnsureId, NormalGroups, NormalDestinations, LineIds, DefaultGroup, IsBlank;
    var (id, n1) := EnsureId(given.id, "fm_", supply);
    m := given.(id := id);
    if IsBlank(m.kind) { m := m.(kind := SHIPPING); }
    m := m.(lineItemIds := LineIds(m.lineItemIds, lineIds));
    n := n1;
    if m.destinations.Some? {
      var ds;
      ds, n := BuildDestinations(m.destinations.value, n);
      m := m.(destinations := Some(ds));
    }
    if m.selectedDestination.None? && m.destinations.Some? && |m.destinations.value| == 1 {
      m := m.(selectedDestination := m.destinations.value[0].id);
    }
    var groups: seq<Group>;
    if m.groups.None? {
      groups := [DefaultGroup(m.lineItemIds, n)];
      n := n + 1;
    } else {
      groups := m.groups.value;
    }
    groups, n := BuildGroups(groups, m.lineItemIds, n);
    m := m.(groups := Some(groups));
  }

  method BuildMethods(methods: seq<DeliveryMethod>, lineIds: seq<string>, supply: nat)
      returns (r: seq<DeliveryMethod>, n: nat)
    ensures r == NormalMethods(methods, lineIds, supply).0 && n == NormalMethods(methods, lineIds, supply).1
  {
    hide NormalMethod;
    r, n := [], supply;
    for i := 0 to |methods|
      invariant r + NormalMethods(methods[i..], lineIds, n).0 == NormalMethods(methods, lineIds, supply).0
      invariant NormalMethods(methods[i..], lineIds, n).1 == NormalMethods(methods, lineIds, supply).1
    {
      assert methods[i..][1..] == methods[i + 1..];
      var m;
      m, n := BuildMethod(methods[i], lineIds, n);
      r := r + [m];
    }
  }

  method BuildFulfillment(f: Option<Fulfillment>, lineIds: seq<string>, supply: nat)
      returns (r: Option<Fulfillment>, cost: int, n: nat)
    ensures r == BuiltOptional(f, lineIds, supply).0 && n == BuiltOptional(f, lineIds, supply).1 && cost == Cost(r)
  {
    hide NormalMethods, MethodsCost, AvailableMethods, DefaultMethod;
    if f.None? { return None, 0, supply; }
    var given, n1 := [], supply;
    if f.value.methods.None? {
      given, n1 := [DefaultMethod(lineIds, supply)], supply + 1;
    } else {
      given := f.value.methods.value;
    }
    var methods, n2 := BuildMethods(given, lineIds, n1);
    r := Some(Fulfillment(Some(methods), Some(AvailableMethods(methods))));
    cost := Cost(r);
    n := n2;
  }
}
