/**
 What the fulfillment normalizer guarantees (src/service.rs): a normal form reached in one pass, and a cost and
 status that do not depend on the identifiers it hands out.
 */
module FulfillmentFacts {
  import opened Wrappers
  import opened Text
  import opened Models
  import opened Fulfillments

  // ---------- New identifiers

  lemma {:induction false} TrimEndKeeps(s: string)
    requires s != "" && !IsSpace(s[0])
    ensures TrimEnd(s) != ""
  {
    if |s| > 1 && IsSpace(s[|s| - 1]) { TrimEndKeeps(s[..|s| - 1]); }
  }

  lemma NotBlank(s: string)
    requires s != "" && !IsSpace(s[0])
    ensures !IsBlank(s)
  {
    TrimEndKeeps(s);
  }

  lemma FreshIsPresent(prefix: string, n: nat)
    requires prefix != "" && !IsSpace(prefix[0])
    ensures !Missing(Some(FreshId(prefix, n)))
  {
    NotBlank(FreshId(prefix, n));
  }

  lemma EnsuredIsPresent(id: Option<string>, prefix: string, n: nat)
    requires prefix != "" && !IsSpace(prefix[0])
    ensures !Missing(EnsureId(id, prefix, n).0)
  {
    hide IsBlank, FreshId;
    FreshIsPresent(prefix, n);
  }

  lemma LineIdsIdempotent(ids: seq<string>, all: seq<string>)
    ensures LineIds(LineIds(ids, all), all) == LineIds(ids, all)
    ensures Within(LineIds(ids, all), all)
  {
  }

  // ---------- Normal form

  predicate IsNormalOption(o: ShippingOption) { !Missing(o.id) && !Missing(o.title) && o.totals != [] }

  predicate AllNormalOptions(s: seq<ShippingOption>) { forall i :: 0 <= i < |s| ==> IsNormalOption(s[i]) }

  predicate IsNormalGroup(g: Group, lineIds: seq<string>) {
    !Missing(g.id) && LineIds(g.lineItemIds, lineIds) == g.lineItemIds && g.options.Some? &&
    AllNormalOptions(g.options.value) && (g.selectedOption.Some? || g.options.value == [])
  }

  predicate AllNormalGroups(s: seq<Group>, lineIds: seq<string>) {
    forall i :: 0 <= i < |s| ==> IsNormalGroup(s[i], lineIds)
  }

  predicate AllNormalDestinations(s: seq<Destination>) { forall i :: 0 <= i < |s| ==> !Missing(s[i].id) }

  predicate IsNormalMethod(m: DeliveryMethod, lineIds: seq<string>) {
    !Missing(m.id) && !IsBlank(m.kind) && LineIds(m.lineItemIds, lineIds) == m.lineItemIds &&
    (m.destinations.Some? ==> AllNormalDestinations(m.destinations.value)) &&
    SelectDestination(m.selectedDestination, m.destinations) == m.selectedDestination &&
    m.groups.Some? && AllNormalGroups(m.groups.value, m.lineItemIds)
  }

  predicate AllNormalMethods(s: seq<DeliveryMethod>, lineIds: seq<string>) {
    forall i :: 0 <= i < |s| ==> IsNormalMethod(s[i], lineIds)
  }

  predicate IsNormal(f: Fulfillment, lineIds: seq<string>) {
    f.methods.Some? && AllNormalMethods(f.methods.value, lineIds) &&
    f.available == Some(AvailableMethods(f.methods.value))
  }

  lemma TitleIsPresent(index: nat)
    ensures !Missing(Some("Fulfillment Option " + NatText(index)))
  {
    NotBlank("Fulfillment Option " + NatText(index));
  }

  lemma {:induction false} OptionsAreNormal(s: seq<ShippingOption>, index: nat, n: nat)
    ensures AllNormalOptions(NormalOptions(s, index, n).0)
    decreases s
  {
    hide EnsureId, IsBlank, NatText;
    if s != [] {
      var (o, n1) := NormalOption(s[0], index, n);
      EnsuredIsPresent(s[0].id, "opt_", n);
      TitleIsPresent(index + 1);
      OptionsAreNormal(s[1..], index + 1, n1);
    }
  }

  lemma GroupIsNormal(g: Group, lineIds: seq<string>, n: nat)
    ensures IsNormalGroup(NormalGroup(g, lineIds, n).0, lineIds)
  {
    hide EnsureId, IsBlank, NormalOptions, LineIds, DefaultOptions;
    EnsuredIsPresent(g.id, "grp_", n);
    LineIdsIdempotent(g.lineItemIds, lineIds);
    OptionsAreNormal(if g.options.None? then DefaultOptions() else g.options.value, 0, EnsureId(g.id, "grp_", n).1);
  }

  lemma {:induction false} GroupsAreNormal(s: seq<Group>, lineIds: seq<string>, n: nat)
    ensures AllNormalGroups(NormalGroups(s, lineIds, n).0, lineIds)
    decreases s
  {
    hide NormalGroup, IsNormalGroup;
    if s != [] {
      GroupIsNormal(s[0], lineIds, n);
      GroupsAreNormal(s[1..], lineIds, NormalGroup(s[0], lineIds, n).1);
    }
  }

  lemma {:induction false} DestinationsAreNormal(s: seq<Destination>, n: nat)
    ensures AllNormalDestinations(NormalDestinations(s, n).0)
    decreases s
  {
    hide EnsureId, IsBlank;
    if s != [] {
      EnsuredIsPresent(s[0].id, "dest_", n);
      DestinationsAreNormal(s[1..], EnsureId(s[0].id, "dest_", n).1);
    }
  }

  lemma MethodIsNormal(m: DeliveryMethod, lineIds: seq<string>, n: nat)
    ensures IsNormalMethod(NormalMethod(m, lineIds, n).0, lineIds)
  {
    hide EnsureId, IsBlank, NormalGroups, NormalDestinations, LineIds, DefaultGroup;
    var r := NormalMethod(m, lineIds, n).0;
    var n1 := EnsureId(m.id, "fm_", n).1;
    EnsuredIsPresent(m.id, "fm_", n);
    NotBlank(SHIPPING);
    LineIdsIdempotent(m.lineItemIds, lineIds);
    if m.destinations.Some? { DestinationsAreNormal(m.destinations.value, n1); }
    var n2 := if m.destinations.None? then n1 else NormalDestinations(m.destinations.value, n1).1;
    if m.groups.None? {
      GroupsAreNormal([DefaultGroup(r.lineItemIds, n2)], r.lineItemIds, n2 + 1);
    } else {
      GroupsAreNormal(m.groups.value, r.lineItemIds, n2);
    }
  }

  lemma {:induction false} MethodsAreNormal(s: seq<DeliveryMethod>, lineIds: seq<string>, n: nat)
    ensures AllNormalMethods(NormalMethods(s, lineIds, n).0, lineIds)
    decreases s
  {
    hide NormalMethod, IsNormalMethod;
    if s != [] {
      MethodIsNormal(s[0], lineIds, n);
      MethodsAreNormal(s[1..], lineIds, NormalMethod(s[0], lineIds, n).1);
    }
  }

  lemma BuiltIsNormal(f: Fulfillment, lineIds: seq<string>, n: nat)
    ensures IsNormal(Built(f, lineIds, n).0, lineIds)
  {
    hide NormalMethods, AllNormalMethods, AvailableMethods, DefaultMethod;
    if f.methods.None? {
      MethodsAreNormal([DefaultMethod(lineIds, n)], lineIds, n + 1);
    } else {
      MethodsAreNormal(f.methods.value, lineIds, n);
    }
  }

  // ---------- A normal form is rebuilt as it is

  lemma {:induction false} NormalOptionsStay(s: seq<ShippingOption>, index: nat, n: nat)
    requires AllNormalOptions(s)
    ensures NormalOptions(s, index, n) == (s, n)
    decreases s
  {
    hide Missing;
    if s != [] {
      NormalOptionsStay(s[1..], index + 1, n);
      assert s == [s[0]] + s[1..];
    }
  }

  lemma NormalGroupStays(g: Group, given: seq<string>, lineIds: seq<string>, n: nat)
    requires IsNormalGroup(g, given)
    ensures NormalGroup(g, lineIds, n) == (g.(lineItemIds := LineIds(g.lineItemIds, lineIds)), n)
  {
    hide Missing, LineIds, NormalOptions, DefaultOptions, AllNormalOptions;
    NormalOptionsStay(g.options.value, 0, n);
  }

  /** Groups with their line items checked against other ones. */
  function Regroup(s: seq<Group>, lineIds: seq<string>): seq<Group> {
    if s == [] then [] else [s[0].(lineItemIds := LineIds(s[0].lineItemIds, lineIds))] + Regroup(s[1..], lineIds)
  }

  lemma {:induction false} NormalGroupsStay(s: seq<Group>, given: seq<string>, lineIds: seq<string>, n: nat)
    requires AllNormalGroups(s, given)
    ensures NormalGroups(s, lineIds, n) == (Regroup(s, lineIds), n)
    ensures GroupsCost(Regroup(s, lineIds)) == GroupsCost(s)
    ensures given == lineIds ==> Regroup(s, lineIds) == s
    decreases s
  {
    hide NormalGroup, LineIds, AllNormalOptions, OptionTotal, ChosenOption, Missing;
    if s != [] {
      NormalGroupStays(s[0], given, lineIds, n);
      NormalGroupsStay(s[1..], given, lineIds, n);
      assert s == [s[0]] + s[1..];
    }
  }

  lemma {:induction false} NormalDestinationsStay(s: seq<Destination>, n: nat)
    requires AllNormalDestinations(s)
    ensures NormalDestinations(s, n) == (s, n)
    decreases s
  {
    hide Missing;
    if s != [] {
      NormalDestinationsStay(s[1..], n);
      assert s == [s[0]] + s[1..];
    }
  }

  /** A method with its line items, and those of its groups, checked against other ones. */
  function Realign(m: DeliveryMethod, lineIds: seq<string>): DeliveryMethod {
    var ids := LineIds(m.lineItemIds, lineIds);
    m.(lineItemIds := ids, groups := if m.groups.Some? then Some(Regroup(m.groups.value, ids)) else None)
  }

  function RealignAll(s: seq<DeliveryMethod>, lineIds: seq<string>): seq<DeliveryMethod> {
    if s == [] then [] else [Realign(s[0], lineIds)] + RealignAll(s[1..], lineIds)
  }

  lemma NormalMethodStays(m: DeliveryMethod, given: seq<string>, lineIds: seq<string>, n: nat)
    requires IsNormalMethod(m, given)
    ensures NormalMethod(m, lineIds, n) == (Realign(m, lineIds), n)
    ensures Realign(m, lineIds).groups.Some? &&
      GroupsCost(Realign(m, lineIds).groups.value) == GroupsCost(m.groups.value)
    ensures given == lineIds ==> Realign(m, lineIds) == m
  {
    hide IsBlank, LineIds, NormalGroups, NormalDestinations, AllNormalGroups, AllNormalDestinations, DefaultGroup,
      GroupsCost, Regroup;
    if m.destinations.Some? { NormalDestinationsStay(m.destinations.value, n); }
    NormalGroupsStay(m.groups.value, m.lineItemIds, LineIds(m.lineItemIds, lineIds), n);
  }

  lemma {:induction false} NormalMethodsStay(s: seq<DeliveryMethod>, given: seq<string>, lineIds: seq<string>, n: nat)
    requires AllNormalMethods(s, given)
    ensures NormalMethods(s, lineIds, n) == (RealignAll(s, lineIds), n)
    ensures MethodsCost(RealignAll(s, lineIds)) == MethodsCost(s)
    ensures given == lineIds ==> RealignAll(s, lineIds) == s
    decreases s
  {
    hide NormalMethod, Realign, GroupsCost;
    if s != [] {
      assert IsNormalMethod(s[0], given);
      NormalMethodStays(s[0], given, lineIds, n);
      NormalMethodsStay(s[1..], given, lineIds, n);
      assert s == [s[0]] + s[1..];
      var r := RealignAll(s, lineIds);
      assert r[0] == Realign(s[0], lineIds) && r[1..] == RealignAll(s[1..], lineIds);
    }
  }

  /**
   The normalizer reaches a normal form in one pass: applied to its own output with the same line items it
   changes nothing, keeps the cost and takes no identifier from the supply.
   */
  lemma BuiltTwice(f: Fulfillment, lineIds: seq<string>, n: nat, later: nat)
    ensures var g := Built(f, lineIds, n).0; Built(g, lineIds, later) == (g, later)
  {
    hide NormalMethods, AllNormalMethods, AvailableMethods, Built, RealignAll, MethodsCost;
    BuiltIsNormal(f, lineIds, n);
    RebuiltNormal(Built(f, lineIds, n).0, lineIds, lineIds, later);
  }

  /**
   Rebuilding a normal form for other line items changes only line items: no identifier is taken, and the cost stays.
   */
  lemma RebuiltNormal(f: Fulfillment, given: seq<string>, lineIds: seq<string>, n: nat)
    requires IsNormal(f, given)
    ensures var (g, n') := Built(f, lineIds, n);
      n' == n && Cost(Some(g)) == Cost(Some(f)) && IsNormal(g, lineIds) &&
      g.methods == Some(RealignAll(f.methods.value, lineIds)) && (given == lineIds ==> g == f)
  {
    hide NormalMethods, AllNormalMethods, AvailableMethods, RealignAll, MethodsCost, DefaultMethod;
    BuiltIsNormal(f, lineIds, n);
    NormalMethodsStay(f.methods.value, given, lineIds, n);
  }

  /**
   In the output, methods ship lines of the checkout, groups lines of their method, and every group with
   options has one selected.
   */
  lemma BuiltIsConsistent(f: Fulfillment, lineIds: seq<string>, n: nat)
    ensures var g := Built(f, lineIds, n).0;
      g.methods.Some? && forall i :: 0 <= i < |g.methods.value| ==>
        var m := g.methods.value[i];
        Within(m.lineItemIds, lineIds) && m.groups.Some? &&
        forall j :: 0 <= j < |m.groups.value| ==>
          var h := m.groups.value[j];
          Within(h.lineItemIds, m.lineItemIds) && h.options.Some? && (h.options.value != [] ==> h.selectedOption.Some?)
  {
    hide Built, LineIds, Missing, AllNormalOptions, Within;
    BuiltIsNormal(f, lineIds, n);
    var g := Built(f, lineIds, n).0;
    forall i | 0 <= i < |g.methods.value|
      ensures var m := g.methods.value[i];
        Within(m.lineItemIds, lineIds) && m.groups.Some? &&
        forall j :: 0 <= j < |m.groups.value| ==>
          var h := m.groups.value[j];
          Within(h.lineItemIds, m.lineItemIds) && h.options.Some? && (h.options.value != [] ==> h.selectedOption.Some?)
    {
      var m := g.methods.value[i];
      assert IsNormalMethod(m, lineIds);
      LineIdsIdempotent(m.lineItemIds, lineIds);
      forall j | 0 <= j < |m.groups.value|
        ensures Within(m.groups.value[j].lineItemIds, m.lineItemIds) && IsNormalGroup(m.groups.value[j], m.lineItemIds)
      {
        LineIdsIdempotent(m.groups.value[j].lineItemIds, m.lineItemIds);
      }
    }
  }
}
