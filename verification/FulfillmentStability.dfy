/**
 Cost and status of a normalized fulfillment (src/service.rs) depend neither on the identifiers the supply hands
 out nor on the line items it is normalized for.
 */
module FulfillmentStability {
  import opened Wrappers
  import opened Text
  import opened Models
  import opened Fulfillments
  import opened FulfillmentFacts
  import opened Status

  /** The supply, at `n` or later, does not hand out this identifier. */
  ghost predicate Unissued(id: Option<string>, prefix: string, n: nat) {
    id.Some? ==> forall k: nat :: n <= k ==> id.value != FreshId(prefix, k)
  }

  /** A request names no identifier that the supply has still to hand out. */
  ghost predicate GroupNamesKnown(g: Group, n: nat) { Unissued(g.selectedOption, "opt_", n) }

  ghost predicate MethodNamesKnown(m: DeliveryMethod, n: nat) {
    Unissued(m.selectedDestination, "dest_", n) &&
    (m.groups.Some? ==> forall i :: 0 <= i < |m.groups.value| ==> GroupNamesKnown(m.groups.value[i], n))
  }

  ghost predicate NamesKnown(f: Fulfillment, n: nat) {
    f.methods.Some? ==> forall i :: 0 <= i < |f.methods.value| ==> MethodNamesKnown(f.methods.value[i], n)
  }

  // ---------- Options and groups

  /** The same totals at the same positions, and the same answer to a search for `id`. */
  ghost predicate OptionsAlike(a: seq<ShippingOption>, b: seq<ShippingOption>, id: Option<string>) {
    |a| == |b| && (id.Some? ==> FindOption(a, id) == FindOption(b, id)) &&
    forall i :: 0 <= i < |a| ==> a[i].totals == b[i].totals
  }

  lemma {:induction false} NormalOptionsAlike(s: seq<ShippingOption>, index: nat, n: nat, k: nat, id: Option<string>)
    requires Unissued(id, "opt_", n) && Unissued(id, "opt_", k)
    ensures OptionsAlike(NormalOptions(s, index, n).0, NormalOptions(s, index, k).0, id)
    decreases s
  {
    hide NatText, IsBlank, FreshId;
    if s != [] {
      var (a, n1) := NormalOption(s[0], index, n);
      var (b, k1) := NormalOption(s[0], index, k);
      NormalOptionsAlike(s[1..], index + 1, n1, k1, id);
      var x, y := NormalOptions(s[1..], index + 1, n1).0, NormalOptions(s[1..], index + 1, k1).0;
      assert ([a] + x)[1..] == x && ([b] + y)[1..] == y;
    }
  }

  /** A search for the first identifier ends at the first option. */
  lemma FirstIsFound(s: seq<ShippingOption>)
    requires s != []
    ensures ChosenOption(s, FirstOptionId(s)) == 0
  {
  }

  lemma NormalGroupAlike(g: Group, idsN: seq<string>, n: nat, idsK: seq<string>, k: nat)
    requires GroupNamesKnown(g, n) && GroupNamesKnown(g, k)
    ensures GroupCost(NormalGroup(g, idsN, n).0) == GroupCost(NormalGroup(g, idsK, k).0)
  {
    hide NormalOptions, DefaultOptions, LineIds, OptionTotal, FirstOptionId, FindOption, FreshId, IsBlank;
    var given := if g.options.None? then DefaultOptions() else g.options.value;
    var n1, k1 := EnsureId(g.id, "grp_", n).1, EnsureId(g.id, "grp_", k).1;
    NormalOptionsAlike(given, 0, n1, k1, g.selectedOption);
    var a, b := NormalOptions(given, 0, n1).0, NormalOptions(given, 0, k1).0;
    if g.selectedOption.None? && a != [] {
      FirstIsFound(a);
      FirstIsFound(b);
    }
  }

  lemma {:induction false} NormalGroupsAlike(s: seq<Group>, idsN: seq<string>, n: nat, idsK: seq<string>, k: nat)
    requires forall i :: 0 <= i < |s| ==> GroupNamesKnown(s[i], n) && GroupNamesKnown(s[i], k)
    ensures GroupsCost(NormalGroups(s, idsN, n).0) == GroupsCost(NormalGroups(s, idsK, k).0)
    decreases s
  {
    hide NormalGroup, GroupCost, FreshId;
    if s != [] {
      var (a, n1) := NormalGroup(s[0], idsN, n);
      var (b, k1) := NormalGroup(s[0], idsK, k);
      NormalGroupAlike(s[0], idsN, n, idsK, k);
      NormalGroupsAlike(s[1..], idsN, n1, idsK, k1);
      var x, y := NormalGroups(s[1..], idsN, n1).0, NormalGroups(s[1..], idsK, k1).0;
      assert ([a] + x)[1..] == x && ([b] + y)[1..] == y;
    }
  }

  // ---------- Destinations and methods

  /** The same data at the same positions, and the same answer to a search for `id`. */
  ghost predicate DestinationsAlike(a: seq<Destination>, b: seq<Destination>, id: Option<string>) {
    |a| == |b| && (id.Some? ==> FindDestination(a, id) == FindDestination(b, id)) &&
    forall i :: 0 <= i < |a| ==> a[i].data == b[i].data
  }

  lemma {:induction false} NormalDestinationsAlike(s: seq<Destination>, n: nat, k: nat, id: Option<string>)
    requires Unissued(id, "dest_", n) && Unissued(id, "dest_", k)
    ensures DestinationsAlike(NormalDestinations(s, n).0, NormalDestinations(s, k).0, id)
    decreases s
  {
    hide NatText, IsBlank, FreshId;
    if s != [] {
      var (a, n1) := EnsureId(s[0].id, "dest_", n);
      var (b, k1) := EnsureId(s[0].id, "dest_", k);
      NormalDestinationsAlike(s[1..], n1, k1, id);
      var x, y := NormalDestinations(s[1..], n1).0, NormalDestinations(s[1..], k1).0;
      assert ([s[0].(id := a)] + x)[1..] == x && ([s[0].(id := b)] + y)[1..] == y;
    }
  }

  /** What cost and status read of a method. */
  ghost predicate MethodsAlike(a: DeliveryMethod, b: DeliveryMethod) {
    a.kind == b.kind && DestinationChosen(a) == DestinationChosen(b) &&
    (DestinationChosen(a) ==> NameMissing(a) == NameMissing(b)) &&
    a.groups.Some? && b.groups.Some? && GroupsCost(a.groups.value) == GroupsCost(b.groups.value)
  }

  /** Selection of a destination gives the same answers on destinations that are alike. */
  lemma SelectionAlike(m: DeliveryMethod, a: DeliveryMethod, b: DeliveryMethod)
    requires a.destinations.Some? == b.destinations.Some?
    requires a.destinations.Some? ==>
      DestinationsAlike(a.destinations.value, b.destinations.value, m.selectedDestination)
    requires a.destinations.Some? ==>
      AllNormalDestinations(a.destinations.value) && AllNormalDestinations(b.destinations.value)
    requires a.selectedDestination == SelectDestination(m.selectedDestination, a.destinations)
    requires b.selectedDestination == SelectDestination(m.selectedDestination, b.destinations)
    ensures DestinationChosen(a) == DestinationChosen(b) && (DestinationChosen(a) ==> NameMissing(a) == NameMissing(b))
  {
    hide IsBlank;
    if m.selectedDestination.None? && a.destinations.Some? && |a.destinations.value| == 1 {
      PresentIsNotEmpty(a.selectedDestination);
      PresentIsNotEmpty(b.selectedDestination);
      assert ChosenDestination(a.destinations.value, a.selectedDestination) == 0;
      assert ChosenDestination(b.destinations.value, b.selectedDestination) == 0;
    }
  }

  lemma PresentIsNotEmpty(id: Option<string>)
    requires !Missing(id)
    ensures id.value != ""
  {
  }

  lemma NormalMethodAlike(m: DeliveryMethod, idsN: seq<string>, n: nat, idsK: seq<string>, k: nat)
    requires MethodNamesKnown(m, n) && MethodNamesKnown(m, k)
    ensures MethodsAlike(NormalMethod(m, idsN, n).0, NormalMethod(m, idsK, k).0)
  {
    hide NormalGroups, NormalDestinations, LineIds, GroupsCost, FreshId, IsBlank, DefaultOptions, SelectDestination,
      DestinationChosen, NameMissing, FindDestination, AllNormalDestinations;
    var a, b := NormalMethod(m, idsN, n).0, NormalMethod(m, idsK, k).0;
    var n1, k1 := EnsureId(m.id, "fm_", n).1, EnsureId(m.id, "fm_", k).1;
    var n2, k2 := n1, k1;
    if m.destinations.Some? {
      NormalDestinationsAlike(m.destinations.value, n1, k1, m.selectedDestination);
      DestinationsAreNormal(m.destinations.value, n1);
      DestinationsAreNormal(m.destinations.value, k1);
      n2, k2 := NormalDestinations(m.destinations.value, n1).1, NormalDestinations(m.destinations.value, k1).1;
    }
    SelectionAlike(m, a, b);
    if m.groups.None? {
      DefaultGroupAlike(a.lineItemIds, n2, b.lineItemIds, k2);
    } else {
      NormalGroupsAlike(m.groups.value, a.lineItemIds, n2, b.lineItemIds, k2);
    }
  }

  lemma DefaultGroupAlike(idsN: seq<string>, n: nat, idsK: seq<string>, k: nat)
    ensures GroupsCost(NormalGroups([DefaultGroup(idsN, n)], idsN, n + 1).0) ==
      GroupsCost(NormalGroups([DefaultGroup(idsK, k)], idsK, k + 1).0)
  {
    hide NormalGroup, GroupCost, FreshId, DefaultOptions;
    var g, h := DefaultGroup(idsN, n), DefaultGroup(idsK, k);
    DefaultGroupCost(g, idsN, n + 1);
    DefaultGroupCost(h, idsK, k + 1);
    OneGroup(g, idsN, n + 1);
    OneGroup(h, idsK, k + 1);
  }

  lemma OneGroup(g: Group, lineIds: seq<string>, n: nat)
    ensures GroupsCost(NormalGroups([g], lineIds, n).0) == GroupCost(NormalGroup(g, lineIds, n).0)
  {
    hide NormalGroup, GroupCost;
    var (a, n1) := NormalGroup(g, lineIds, n);
    assert [g][1..] == [];
    assert [a] + [] == [a] && [a][1..] == [];
  }

  /** The default group costs what the first default option costs. */
  lemma DefaultGroupCost(g: Group, lineIds: seq<string>, n: nat)
    requires g.options == Some(DefaultOptions()) && g.selectedOption == None
    ensures GroupCost(NormalGroup(g, lineIds, n).0) == OptionTotal(DefaultOptions()[0].totals)
  {
    hide LineIds, NormalOptions, FirstOptionId, IsBlank, OptionTotal, FindOption;
    var n1 := EnsureId(g.id, "grp_", n).1;
    var options := NormalOptions(DefaultOptions(), 0, n1).0;
    FirstOptionTotals(DefaultOptions(), 0, n1);
    FirstIsFound(options);
  }

  lemma FirstOptionTotals(s: seq<ShippingOption>, index: nat, n: nat)
    requires s != [] && s[0].totals != []
    ensures NormalOptions(s, index, n).0[0].totals == s[0].totals
  {
    hide EnsureId, NatText, Missing;
  }

  ghost predicate ListsAlike(s: seq<DeliveryMethod>, t: seq<DeliveryMethod>) {
    |s| == |t| && forall i :: 0 <= i < |s| ==> MethodsAlike(s[i], t[i])
  }

  lemma {:induction false} NormalMethodsAlike(s: seq<DeliveryMethod>, idsN: seq<string>, n: nat, idsK: seq<string>,
      k: nat)
    requires forall i :: 0 <= i < |s| ==> MethodNamesKnown(s[i], n) && MethodNamesKnown(s[i], k)
    ensures ListsAlike(NormalMethods(s, idsN, n).0, NormalMethods(s, idsK, k).0)
    decreases s
  {
    hide NormalMethod, MethodsAlike, Unissued;
    if s != [] {
      var (a, n1) := NormalMethod(s[0], idsN, n);
      var (b, k1) := NormalMethod(s[0], idsK, k);
      NormalMethodAlike(s[0], idsN, n, idsK, k);
      forall i | 1 <= i < |s| ensures MethodNamesKnown(s[i], n1) && MethodNamesKnown(s[i], k1) {
        NamesStayKnown(s[i], n, n1);
        NamesStayKnown(s[i], k, k1);
      }
      NormalMethodsAlike(s[1..], idsN, n1, idsK, k1);
    }
  }

  lemma NamesStayKnown(m: DeliveryMethod, n: nat, later: nat)
    requires MethodNamesKnown(m, n) && n <= later
    ensures MethodNamesKnown(m, later)
  {
    hide FreshId;
  }

  // ---------- The whole fulfillment

  lemma {:induction false} CostAlike(s: seq<DeliveryMethod>, t: seq<DeliveryMethod>)
    requires ListsAlike(s, t)
    ensures MethodsCost(s) == MethodsCost(t)
  {
    hide GroupsCost, DestinationChosen, NameMissing;
    if s != [] {
      assert MethodsAlike(s[0], t[0]);
      CostAlike(s[1..], t[1..]);
    }
  }

  lemma {:induction false} MessagesAlike(s: seq<DeliveryMethod>, t: seq<DeliveryMethod>, n: nat)
    requires ListsAlike(s, t) && n <= |s|
    ensures MethodsMessages(s, n) == MethodsMessages(t, n)
  {
    hide GroupsCost, DestinationChosen, NameMissing, MethodPath;
    if n > 0 {
      MessagesAlike(s, t, n - 1);
      assert MethodsAlike(s[n - 1], t[n - 1]);
    }
  }

  /** The same cost and the same messages. */
  ghost predicate Alike(f: Option<Fulfillment>, g: Option<Fulfillment>) {
    f.Some? == g.Some? && Cost(f) == Cost(g) && |Methods(f)| == |Methods(g)| &&
    MethodsMessages(Methods(f), |Methods(f)|) == MethodsMessages(Methods(g), |Methods(g)|)
  }

  lemma ListsAlikeAlike(f: Fulfillment, g: Fulfillment)
    requires f.methods.Some? && g.methods.Some? && ListsAlike(f.methods.value, g.methods.value)
    ensures Alike(Some(f), Some(g))
  {
    hide MethodsCost, MethodsMessages, MethodsAlike;
    CostAlike(f.methods.value, g.methods.value);
    MessagesAlike(f.methods.value, g.methods.value, |f.methods.value|);
  }

  /**
   Normalizing a request twice, for any line items and at any two points of the supply, gives the same cost and the
   same messages, unless the request selects an option or destination by an identifier not handed out yet.
   */
  lemma BuiltAlike(f: Fulfillment, idsN: seq<string>, n: nat, idsK: seq<string>, k: nat)
    requires NamesKnown(f, n) && NamesKnown(f, k)
    ensures Alike(Some(Built(f, idsN, n).0), Some(Built(f, idsK, k).0))
  {
    hide NormalMethods, AvailableMethods, Unissued, ListsAlike, Alike;
    if f.methods.Some? {
      NormalMethodsAlike(f.methods.value, idsN, n, idsK, k);
    } else {
      DefaultMethodAlike(idsN, n, idsK, k);
    }
    ListsAlikeAlike(Built(f, idsN, n).0, Built(f, idsK, k).0);
  }

  lemma DefaultMethodAlike(idsN: seq<string>, n: nat, idsK: seq<string>, k: nat)
    ensures ListsAlike(NormalMethods([DefaultMethod(idsN, n)], idsN, n + 1).0,
                       NormalMethods([DefaultMethod(idsK, k)], idsK, k + 1).0)
  {
    hide NormalMethod, MethodsAlike, FreshId;
    var a, b := DefaultMethod(idsN, n), DefaultMethod(idsK, k);
    SameButIds(a, b, idsN, n + 1, idsK, k + 1);
    OneMethod(a, idsN, n + 1);
    OneMethod(b, idsK, k + 1);
  }

  lemma OneMethod(m: DeliveryMethod, lineIds: seq<string>, n: nat)
    ensures NormalMethods([m], lineIds, n).0 == [NormalMethod(m, lineIds, n).0]
  {
    hide NormalMethod;
    assert [m][1..] == [];
  }

  lemma SameButIds(m: DeliveryMethod, p: DeliveryMethod, idsN: seq<string>, n: nat, idsK: seq<string>, k: nat)
    requires m.groups.None? && m.destinations.None? && m.selectedDestination.None?
    requires p == m.(id := p.id, lineItemIds := p.lineItemIds)
    ensures MethodsAlike(NormalMethod(m, idsN, n).0, NormalMethod(p, idsK, k).0)
  {
    hide NormalGroups, GroupsCost, LineIds, FreshId, IsBlank, DefaultGroup;
    var a, b := NormalMethod(m, idsN, n).0, NormalMethod(p, idsK, k).0;
    DefaultGroupAlike(a.lineItemIds, EnsureId(m.id, "fm_", n).1, b.lineItemIds, EnsureId(p.id, "fm_", k).1);
  }

  /** Rebuilding a normal form for other line items keeps cost and messages. */
  lemma {:induction false} RealignedAlike(s: seq<DeliveryMethod>, given: seq<string>, lineIds: seq<string>)
    requires AllNormalMethods(s, given)
    ensures ListsAlike(RealignAll(s, lineIds), s)
  {
    hide GroupsCost, LineIds, Regroup, DestinationChosen, NameMissing, IsBlank, SelectDestination,
      AllNormalDestinations, AllNormalGroups;
    if s != [] {
      assert IsNormalMethod(s[0], given);
      NormalMethodStays(s[0], given, lineIds, 0);
      assert MethodsAlike(Realign(s[0], lineIds), s[0]) by { RealignKeeps(s[0], lineIds); }
      RealignedAlike(s[1..], given, lineIds);
    }
  }

  lemma RealignKeeps(m: DeliveryMethod, lineIds: seq<string>)
    ensures var r := Realign(m, lineIds);
      r.kind == m.kind && DestinationChosen(r) == DestinationChosen(m) && NameMissing(r) == NameMissing(m)
  {
    hide LineIds, Regroup;
  }

  lemma RebuiltAlike(f: Fulfillment, given: seq<string>, lineIds: seq<string>, n: nat)
    requires IsNormal(f, given)
    ensures Alike(Some(Built(f, lineIds, n).0), Some(f))
  {
    hide Built, AllNormalMethods, AvailableMethods, RealignAll, ListsAlike, Alike, Cost;
    RebuiltNormal(f, given, lineIds, n);
    RealignedAlike(f.methods.value, given, lineIds);
    ListsAlikeAlike(Built(f, lineIds, n).0, f);
  }
}
