/**
 What the fulfillment normalizer makes of a request (src/service.rs), field by field: what is given is kept, and what is
 missing is filled in.
 */
module FulfillmentMeaning {
  import opened Wrappers
  import opened Text
  import opened Models
  import opened Fulfillments
  import opened FulfillmentFacts
  import Json

  /** A given identifier is kept, and otherwise there is a new one. */
  ghost predicate IdFrom(given: Option<string>, r: Option<string>) {
    r.Some? && !IsBlank(r.value) && (given.Some? && !IsBlank(given.value) ==> r == given)
  }

  /** Line items are kept when there are some and all are known. */
  ghost predicate LinesFrom(given: seq<string>, r: seq<string>, known: seq<string>) {
    r == if given != [] && (forall k :: 0 <= k < |given| ==> given[k] in known) then given else known
  }

  ghost predicate OptionFrom(given: ShippingOption, r: ShippingOption, index: nat) {
    IdFrom(given.id, r.id) && r.description == given.description && r.extra == given.extra &&
    r.title == (if given.title.Some? && !IsBlank(given.title.value) then given.title
                else Some("Fulfillment Option " + NatText(index + 1))) &&
    r.totals == if given.totals == [] then [Total("total", Some("Fulfillment"), 0)] else given.totals
  }

  /** Standard shipping for $5, and express shipping for $15. */
  ghost predicate AreDefaults(s: seq<ShippingOption>) {
    |s| == 2 && s[0].id == Some("ship_standard") && s[1].id == Some("ship_express") &&
    s[0].title == Some("Standard Shipping") && s[1].title == Some("Express Shipping") &&
    s[0].description == Some("Arrives in 5-7 business days") &&
    s[1].description == Some("Arrives in 2-3 business days") &&
    s[0].totals == [Total("total", Some("Shipping"), 500)] && s[1].totals == [Total("total", Some("Shipping"), 1500)] &&
    s[0].extra == map["carrier" := Json.Str("UPS")] && s[1].extra == map["carrier" := Json.Str("FedEx")]
  }

  ghost predicate OptionsFrom(given: seq<ShippingOption>, r: seq<ShippingOption>, index: nat) {
    |r| == |given| && forall i :: 0 <= i < |given| ==> OptionFrom(given[i], r[i], index + i)
  }

  /** A group without options gets the default ones, and one without selection its first option. */
  ghost predicate GroupFrom(given: Group, r: Group, known: seq<string>) {
    IdFrom(given.id, r.id) && LinesFrom(given.lineItemIds, r.lineItemIds, known) && r.extra == given.extra &&
    r.options.Some? &&
    (if given.options.Some? then OptionsFrom(given.options.value, r.options.value, 0)
     else AreDefaults(r.options.value)) &&
    r.selectedOption ==
      if given.selectedOption.Some? then given.selectedOption
      else if r.options.value == [] then None
      else r.options.value[0].id
  }

  ghost predicate GroupsFrom(given: seq<Group>, r: seq<Group>, known: seq<string>) {
    |r| == |given| && forall j :: 0 <= j < |given| ==> GroupFrom(given[j], r[j], known)
  }

  ghost predicate DestinationsFrom(given: seq<Destination>, r: seq<Destination>) {
    |r| == |given| && forall k :: 0 <= k < |given| ==> IdFrom(given[k].id, r[k].id) && r[k].data == given[k].data
  }

  /** A group, or a method, of which nothing is given. */
  const NO_GROUP := Group(None, [], None, None, map[])
  const NO_METHOD := DeliveryMethod(None, "", [], None, None, None, map[])

  /** A method ships unless it says otherwise; it has at least one group, and the only destination is selected. */
  ghost predicate MethodFrom(given: DeliveryMethod, r: DeliveryMethod, known: seq<string>) {
    IdFrom(given.id, r.id) && r.kind == (if IsBlank(given.kind) then "shipping" else given.kind) &&
    LinesFrom(given.lineItemIds, r.lineItemIds, known) && r.extra == given.extra &&
    r.destinations.Some? == given.destinations.Some? &&
    (given.destinations.Some? ==> DestinationsFrom(given.destinations.value, r.destinations.value)) &&
    r.selectedDestination == (
      if given.selectedDestination.Some? then given.selectedDestination
      else if r.destinations.Some? && |r.destinations.value| == 1 then r.destinations.value[0].id
      else None) &&
    r.groups.Some? &&
    GroupsFrom(if given.groups.Some? then given.groups.value else [NO_GROUP], r.groups.value, r.lineItemIds)
  }

  ghost predicate MethodsFrom(given: seq<DeliveryMethod>, r: seq<DeliveryMethod>, known: seq<string>) {
    |r| == |given| && forall i :: 0 <= i < |given| ==> MethodFrom(given[i], r[i], known)
  }

  /** Every method is announced as available under its id, type and line items. */
  ghost predicate Announced(methods: seq<DeliveryMethod>, available: seq<AvailableMethod>) {
    |available| == |methods| && forall i :: 0 <= i < |methods| ==>
      Some(available[i].id) == methods[i].id && available[i].kind == methods[i].kind &&
      available[i].lineItemIds == methods[i].lineItemIds
  }

  ghost predicate FulfillmentFrom(given: Fulfillment, r: Fulfillment, known: seq<string>) {
    r.methods.Some? && r.available.Some? && Announced(r.methods.value, r.available.value) &&
    MethodsFrom(if given.methods.Some? then given.methods.value else [NO_METHOD], r.methods.value, known)
  }

  // ---------- The normalizer does this

  lemma EnsureIdMeans(id: Option<string>, prefix: string, n: nat)
    requires prefix != "" && !IsSpace(prefix[0])
    ensures IdFrom(id, EnsureId(id, prefix, n).0)
  {
    hide IsBlank, FreshId;
    FreshIsPresent(prefix, n);
  }

  lemma LineIdsMean(ids: seq<string>, all: seq<string>)
    ensures LinesFrom(ids, LineIds(ids, all), all)
  {
  }

  lemma {:induction false} OptionsMean(s: seq<ShippingOption>, index: nat, n: nat)
    ensures OptionsFrom(s, NormalOptions(s, index, n).0, index)
    decreases s
  {
    hide EnsureId, IsBlank, NatText, IdFrom;
    if s != [] {
      var (o, n1) := NormalOption(s[0], index, n);
      EnsureIdMeans(s[0].id, "opt_", n);
      OptionsMean(s[1..], index + 1, n1);
      assert OptionFrom(s[0], o, index);
      var r := NormalOptions(s, index, n).0;
      forall i | 0 <= i < |s| ensures OptionFrom(s[i], r[i], index + i) {
        if i > 0 { assert OptionFrom(s[1..][i - 1], r[1..][i - 1], index + 1 + (i - 1)); }
      }
    }
  }

  lemma IdStays(id: Option<string>, r: Option<string>)
    requires id.Some? && !IsBlank(id.value) && IdFrom(id, r)
    ensures r == id
  {
  }

  lemma DefaultsStay(index: nat, n: nat)
    ensures AreDefaults(NormalOptions(DefaultOptions(), index, n).0)
  {
    hide EnsureId, NatText, IdFrom, IsBlank;
    OptionsMean(DefaultOptions(), index, n);
    var d, r := DefaultOptions(), NormalOptions(DefaultOptions(), index, n).0;
    assert OptionFrom(d[0], r[0], index + 0) && OptionFrom(d[1], r[1], index + 1);
    NotBlank("ship_standard");
    NotBlank("ship_express");
    NotBlank("Standard Shipping");
    NotBlank("Express Shipping");
    IdStays(d[0].id, r[0].id);
    IdStays(d[1].id, r[1].id);
  }

  lemma GroupMeans(g: Group, lineIds: seq<string>, n: nat)
    ensures GroupFrom(g, NormalGroup(g, lineIds, n).0, lineIds)
  {
    hide EnsureId, IdFrom, NormalOptions, DefaultOptions, LineIds, LinesFrom, OptionFrom, AreDefaults;
    EnsureIdMeans(g.id, "grp_", n);
    LineIdsMean(g.lineItemIds, lineIds);
    var n1 := EnsureId(g.id, "grp_", n).1;
    if g.options.Some? { OptionsMean(g.options.value, 0, n1); } else { DefaultsStay(0, n1); }
  }

  lemma {:induction false} GroupsMean(s: seq<Group>, lineIds: seq<string>, n: nat)
    ensures GroupsFrom(s, NormalGroups(s, lineIds, n).0, lineIds)
    decreases s
  {
    hide NormalGroup, GroupFrom;
    if s != [] {
      GroupMeans(s[0], lineIds, n);
      GroupsMean(s[1..], lineIds, NormalGroup(s[0], lineIds, n).1);
    }
  }

  /** The group of a method that has none is what becomes of one of which nothing is given. */
  lemma DefaultGroupMeans(lineIds: seq<string>, k: nat, n: nat)
    ensures GroupsFrom([NO_GROUP], NormalGroups([DefaultGroup(lineIds, k)], lineIds, n).0, lineIds)
  {
    hide IsBlank, FreshId, NormalGroups, NormalOptions, OptionsFrom, AreDefaults, LinesFrom;
    var d := DefaultGroup(lineIds, k);
    var r := NormalGroups([d], lineIds, n).0;
    GroupsMean([d], lineIds, n);
    assert GroupFrom([d][0], r[0], lineIds);
    FreshIsPresent("grp_", k);
    assert LinesFrom(NO_GROUP.lineItemIds, r[0].lineItemIds, lineIds) by { SelfLines(d.lineItemIds, r[0], lineIds); }
    assert AreDefaults(r[0].options.value) by { DefaultGroupOptions(d, lineIds, n); }
  }

  lemma SelfLines(ids: seq<string>, r: Group, known: seq<string>)
    requires LinesFrom(known, r.lineItemIds, known)
    ensures LinesFrom([], r.lineItemIds, known)
  {
  }

  lemma DefaultGroupOptions(d: Group, lineIds: seq<string>, n: nat)
    requires d.options == Some(DefaultOptions())
    ensures NormalGroups([d], lineIds, n).0[0].options.Some?
    ensures AreDefaults(NormalGroups([d], lineIds, n).0[0].options.value)
  {
    hide EnsureId, NormalOptions, AreDefaults, LineIds, DefaultOptions;
    DefaultsStay(0, EnsureId(d.id, "grp_", n).1);
    assert NormalGroups([d], lineIds, n).0[0] == NormalGroup(d, lineIds, n).0;
  }

  lemma {:induction false} DestinationsMean(s: seq<Destination>, n: nat)
    ensures DestinationsFrom(s, NormalDestinations(s, n).0)
    decreases s
  {
    hide EnsureId, IdFrom;
    if s != [] {
      EnsureIdMeans(s[0].id, "dest_", n);
      DestinationsMean(s[1..], EnsureId(s[0].id, "dest_", n).1);
    }
  }

  lemma MethodMeans(m: DeliveryMethod, lineIds: seq<string>, n: nat)
    ensures MethodFrom(m, NormalMethod(m, lineIds, n).0, lineIds)
  {
    hide EnsureId, IdFrom, IsBlank, NormalGroups, NormalDestinations, LineIds, LinesFrom, DefaultGroup, GroupFrom;
    var r := NormalMethod(m, lineIds, n).0;
    var n1 := EnsureId(m.id, "fm_", n).1;
    EnsureIdMeans(m.id, "fm_", n);
    LineIdsMean(m.lineItemIds, lineIds);
    if m.destinations.Some? { DestinationsMean(m.destinations.value, n1); }
    var n2 := if m.destinations.None? then n1 else NormalDestinations(m.destinations.value, n1).1;
    if m.groups.Some? { GroupsMean(m.groups.value, r.lineItemIds, n2); }
    else { DefaultGroupMeans(r.lineItemIds, n2, n2 + 1); }
  }

  lemma {:induction false} MethodsMean(s: seq<DeliveryMethod>, lineIds: seq<string>, n: nat)
    ensures MethodsFrom(s, NormalMethods(s, lineIds, n).0, lineIds)
    decreases s
  {
    hide NormalMethod, MethodFrom;
    if s != [] {
      MethodMeans(s[0], lineIds, n);
      MethodsMean(s[1..], lineIds, NormalMethod(s[0], lineIds, n).1);
    }
  }

  lemma DefaultMethodMeans(lineIds: seq<string>, k: nat, n: nat)
    ensures MethodsFrom([NO_METHOD], NormalMethods([DefaultMethod(lineIds, k)], lineIds, n).0, lineIds)
  {
    hide IsBlank, FreshId, NormalMethods, GroupsFrom, DestinationsFrom;
    var d := DefaultMethod(lineIds, k);
    var r := NormalMethods([d], lineIds, n).0;
    MethodsMean([d], lineIds, n);
    assert MethodFrom([d][0], r[0], lineIds);
    FreshIsPresent("fm_", k);
    NotBlank("shipping");
    BlankIff("");
  }

  /** Whatever the request leaves open is filled in, and what it says is kept. */
  lemma BuiltMeans(f: Fulfillment, lineIds: seq<string>, n: nat)
    ensures FulfillmentFrom(f, Built(f, lineIds, n).0, lineIds)
  {
    hide NormalMethods, DefaultMethod, MethodFrom;
    if f.methods.Some? { MethodsMean(f.methods.value, lineIds, n); } else { DefaultMethodMeans(lineIds, n, n + 1); }
    var methods := Built(f, lineIds, n).0.methods.value;
    forall i | 0 <= i < |methods| ensures methods[i].id.Some? {
      var given := if f.methods.Some? then f.methods.value else [NO_METHOD];
      MethodHasId(given[i], methods[i], lineIds);
    }
  }

  lemma MethodHasId(given: DeliveryMethod, r: DeliveryMethod, known: seq<string>)
    requires MethodFrom(given, r, known)
    ensures r.id.Some?
  {
  }

  // ---------- New identifiers are distinct

  lemma FreshInjective(prefix: string, j: nat, k: nat)
    requires FreshId(prefix, j) == FreshId(prefix, k)
    ensures j == k
  {
    hide NatText, DigitsValue;
    NatTextValue(j);
    NatTextValue(k);
    assert FreshId(prefix, j)[|prefix|..] == NatText(j) && FreshId(prefix, k)[|prefix|..] == NatText(k);
  }

  ghost predicate IsNew(id: Option<string>, prefix: string, lo: nat, hi: nat) {
    exists k: nat :: lo <= k < hi && id == Some(FreshId(prefix, k))
  }

  /** Each missing identifier is replaced by one of its own. */
  ghost predicate NewAreDistinct(given: seq<Option<string>>, r: seq<Option<string>>, prefix: string, lo: nat, hi: nat) {
    |r| == |given| &&
    (forall i :: 0 <= i < |r| && Missing(given[i]) ==> IsNew(r[i], prefix, lo, hi)) &&
    forall i, j :: 0 <= i < j < |r| && Missing(given[i]) && Missing(given[j]) ==> r[i] != r[j]
  }

  lemma NewLater(id: Option<string>, prefix: string, lo: nat, hi: nat, low: nat, high: nat)
    requires IsNew(id, prefix, lo, hi) && low <= lo && hi <= high
    ensures IsNew(id, prefix, low, high)
  {
    hide FreshId;
  }

  lemma NewDiffer(x: Option<string>, y: Option<string>, prefix: string, lo: nat, mid: nat, hi: nat)
    requires IsNew(x, prefix, lo, mid) && IsNew(y, prefix, mid, hi)
    ensures x != y
  {
    hide FreshId;
    if x == y {
      var j: nat :| lo <= j < mid && x == Some(FreshId(prefix, j));
      var k: nat :| mid <= k < hi && y == Some(FreshId(prefix, k));
      FreshInjective(prefix, j, k);
    }
  }

  lemma DistinctCons(g: Option<string>, x: Option<string>, given: seq<Option<string>>, r: seq<Option<string>>,
      prefix: string, lo: nat, mid: nat, hi: nat)
    requires (Missing(g) ==> IsNew(x, prefix, lo, mid)) && NewAreDistinct(given, r, prefix, mid, hi) && lo <= mid <= hi
    ensures NewAreDistinct([g] + given, [x] + r, prefix, lo, hi)
  {
    hide IsNew, Missing;
    if Missing(g) { NewLater(x, prefix, lo, mid, lo, hi); }
    forall i | 0 <= i < |r| && Missing(given[i])
      ensures IsNew(r[i], prefix, lo, hi) && (Missing(g) ==> x != r[i])
    {
      NewLater(r[i], prefix, mid, hi, lo, hi);
      if Missing(g) { NewDiffer(x, r[i], prefix, lo, mid, hi); }
    }
  }

  lemma EnsuredIsNew(id: Option<string>, prefix: string, n: nat, upto: nat)
    requires EnsureId(id, prefix, n).1 <= upto
    ensures Missing(id) ==> IsNew(EnsureId(id, prefix, n).0, prefix, n, upto)
  {
    hide FreshId, IsBlank;
  }

  function OptionIds(s: seq<ShippingOption>): (r: seq<Option<string>>)
    ensures |r| == |s|
  {
    seq(|s|, i requires 0 <= i < |s| => s[i].id)
  }

  function GroupIds(s: seq<Group>): (r: seq<Option<string>>)
    ensures |r| == |s|
  {
    seq(|s|, i requires 0 <= i < |s| => s[i].id)
  }

  function DestinationIds(s: seq<Destination>): (r: seq<Option<string>>)
    ensures |r| == |s|
  {
    seq(|s|, i requires 0 <= i < |s| => s[i].id)
  }

  function MethodIds(s: seq<DeliveryMethod>): (r: seq<Option<string>>)
    ensures |r| == |s|
  {
    seq(|s|, i requires 0 <= i < |s| => s[i].id)
  }

  /** New options of a group have identifiers of their own, so that a selection is unambiguous. */
  lemma {:induction false} OptionIdsAreDistinct(s: seq<ShippingOption>, index: nat, n: nat)
    ensures var (r, n') := NormalOptions(s, index, n);
      NewAreDistinct(OptionIds(s), OptionIds(r), "opt_", n, n')
    decreases s
  {
    hide EnsureId, Missing, NewAreDistinct, NatText;
    if s == [] {
      assert NewAreDistinct(OptionIds(s), OptionIds(s), "opt_", n, n) by { NothingNew("opt_", n); }
    } else {
      var (o, n1) := NormalOption(s[0], index, n);
      var (rest, n2) := NormalOptions(s[1..], index + 1, n1);
      OptionIdsAreDistinct(s[1..], index + 1, n1);
      EnsuredIsNew(s[0].id, "opt_", n, n1);
      DistinctCons(s[0].id, o.id, OptionIds(s[1..]), OptionIds(rest), "opt_", n, n1, n2);
      assert OptionIds(s) == [s[0].id] + OptionIds(s[1..]);
      assert OptionIds([o] + rest) == [o.id] + OptionIds(rest);
    }
  }

  lemma NothingNew(prefix: string, n: nat)
    ensures NewAreDistinct([], [], prefix, n, n)
  {
  }

  lemma {:induction false} DestinationIdsAreDistinct(s: seq<Destination>, n: nat)
    ensures var (r, n') := NormalDestinations(s, n);
      NewAreDistinct(DestinationIds(s), DestinationIds(r), "dest_", n, n')
    decreases s
  {
    hide EnsureId, Missing, NewAreDistinct;
    if s == [] {
      assert NewAreDistinct(DestinationIds(s), DestinationIds(s), "dest_", n, n) by { NothingNew("dest_", n); }
    } else {
      var (id, n1) := EnsureId(s[0].id, "dest_", n);
      var (rest, n2) := NormalDestinations(s[1..], n1);
      DestinationIdsAreDistinct(s[1..], n1);
      EnsuredIsNew(s[0].id, "dest_", n, n1);
      DistinctCons(s[0].id, id, DestinationIds(s[1..]), DestinationIds(rest), "dest_", n, n1, n2);
      assert DestinationIds(s) == [s[0].id] + DestinationIds(s[1..]);
      assert DestinationIds([s[0].(id := id)] + rest) == [id] + DestinationIds(rest);
    }
  }

  lemma GroupIdIsNew(g: Group, lineIds: seq<string>, n: nat)
    ensures var (r, n') := NormalGroup(g, lineIds, n); Missing(g.id) ==> IsNew(r.id, "grp_", n, n')
  {
    hide EnsureId, Missing, IsNew, NormalOptions, DefaultOptions, LineIds;
    EnsuredIsNew(g.id, "grp_", n, NormalGroup(g, lineIds, n).1);
  }

  lemma {:induction false} GroupIdsAreDistinct(s: seq<Group>, lineIds: seq<string>, n: nat)
    ensures var (r, n') := NormalGroups(s, lineIds, n);
      NewAreDistinct(GroupIds(s), GroupIds(r), "grp_", n, n')
    decreases s
  {
    hide NormalGroup, Missing, NewAreDistinct, IsNew;
    if s == [] {
      assert NewAreDistinct(GroupIds(s), GroupIds(s), "grp_", n, n) by { NothingNew("grp_", n); }
    } else {
      var (g, n1) := NormalGroup(s[0], lineIds, n);
      var (rest, n2) := NormalGroups(s[1..], lineIds, n1);
      GroupIdsAreDistinct(s[1..], lineIds, n1);
      GroupIdIsNew(s[0], lineIds, n);
      DistinctCons(s[0].id, g.id, GroupIds(s[1..]), GroupIds(rest), "grp_", n, n1, n2);
      assert GroupIds(s) == [s[0].id] + GroupIds(s[1..]);
      assert GroupIds([g] + rest) == [g.id] + GroupIds(rest);
    }
  }

  lemma MethodIdIsNew(m: DeliveryMethod, lineIds: seq<string>, n: nat)
    ensures var (r, n') := NormalMethod(m, lineIds, n); Missing(m.id) ==> IsNew(r.id, "fm_", n, n')
  {
    hide EnsureId, Missing, IsNew, NormalGroups, NormalDestinations, LineIds, IsBlank, DefaultGroup;
    EnsuredIsNew(m.id, "fm_", n, NormalMethod(m, lineIds, n).1);
  }

  lemma {:induction false} MethodIdsAreDistinct(s: seq<DeliveryMethod>, lineIds: seq<string>, n: nat)
    ensures var (r, n') := NormalMethods(s, lineIds, n);
      NewAreDistinct(MethodIds(s), MethodIds(r), "fm_", n, n')
    decreases s
  {
    hide NormalMethod, Missing, NewAreDistinct, IsNew;
    if s == [] {
      assert NewAreDistinct(MethodIds(s), MethodIds(s), "fm_", n, n) by { NothingNew("fm_", n); }
    } else {
      var (m, n1) := NormalMethod(s[0], lineIds, n);
      var (rest, n2) := NormalMethods(s[1..], lineIds, n1);
      MethodIdsAreDistinct(s[1..], lineIds, n1);
      MethodIdIsNew(s[0], lineIds, n);
      DistinctCons(s[0].id, m.id, MethodIds(s[1..]), MethodIds(rest), "fm_", n, n1, n2);
      assert MethodIds(s) == [s[0].id] + MethodIds(s[1..]);
      assert MethodIds([m] + rest) == [m.id] + MethodIds(rest);
    }
  }
}
