/**
 What fulfillment costs (src/service.rs), told by positions: the option charged for in every group, its amount, and the
 sum over all groups of all methods.
 */
module FulfillmentCosts {
  import opened Wrappers
  import opened Sums
  import opened Models
  import opened Fulfillments

  /** Option `k` is the first with the selected id; or no option has that id, and `k` is the first of all. */
  ghost predicate IsCharged(g: Group, k: int) {
    g.options.Some? && 0 <= k < |g.options.value| &&
    ((g.selectedOption.Some? && g.options.value[k].id == g.selectedOption &&
        forall j :: 0 <= j < k ==> g.options.value[j].id != g.selectedOption) ||
     (k == 0 && (g.selectedOption.Some? ==>
        forall j :: 0 <= j < |g.options.value| ==> g.options.value[j].id != g.selectedOption)))
  }

  ghost predicate IsFirstTotal(totals: seq<Total>, k: int) {
    0 <= k < |totals| && totals[k].kind == "total" && forall j :: 0 <= j < k ==> totals[j].kind != "total"
  }

  function Amounts(totals: seq<Total>): (r: seq<int>)
    ensures |r| == |totals|
  {
    seq(|totals|, i requires 0 <= i < |totals| => totals[i].amount)
  }

  /** The amount of the first entry that is a total; or none is, and the amount is the sum of all entries. */
  ghost predicate IsAmountOf(totals: seq<Total>, amount: int) {
    (exists k :: IsFirstTotal(totals, k) && totals[k].amount == amount) ||
    ((forall j :: 0 <= j < |totals| ==> totals[j].kind != "total") && amount == Sum(Amounts(totals)))
  }

  ghost predicate IsGroupCost(g: Group, amount: int) {
    if g.options.None? || g.options.value == [] then amount == 0
    else exists k :: IsCharged(g, k) && IsAmountOf(g.options.value[k].totals, amount)
  }

  ghost predicate AreGroupCosts(groups: seq<Group>, amounts: seq<int>) {
    |amounts| == |groups| && forall j :: 0 <= j < |groups| ==> IsGroupCost(groups[j], amounts[j])
  }

  ghost predicate IsMethodCost(m: DeliveryMethod, amount: int) {
    exists amounts :: AreGroupCosts(if m.groups.Some? then m.groups.value else [], amounts) && amount == Sum(amounts)
  }

  ghost predicate AreMethodCosts(methods: seq<DeliveryMethod>, amounts: seq<int>) {
    |amounts| == |methods| && forall i :: 0 <= i < |methods| ==> IsMethodCost(methods[i], amounts[i])
  }

  /** The sum over all methods of the sums over their groups. */
  ghost predicate IsCost(f: Option<Fulfillment>, cost: int) {
    exists amounts ::
      AreMethodCosts(if f.Some? && f.value.methods.Some? then f.value.methods.value else [], amounts) &&
      cost == Sum(amounts)
  }

  // ---------- The cost of the program is this one

  lemma {:induction false} SumCons(x: int, s: seq<int>, n: nat)
    requires n <= |s|
    ensures SumTo([x] + s, n + 1) == x + SumTo(s, n)
  {
    if n > 0 { SumCons(x, s, n - 1); } else { assert SumTo([x] + s, 0) == 0; }
  }

  lemma {:induction false} FirstTotalMeans(s: seq<Total>)
    ensures FirstTotal(s).None? <==> forall j :: 0 <= j < |s| ==> s[j].kind != "total"
    ensures FirstTotal(s).Some? ==> exists k :: IsFirstTotal(s, k) && s[k].amount == FirstTotal(s).value
  {
    if s != [] {
      FirstTotalMeans(s[1..]);
      if s[0].kind == "total" {
        assert IsFirstTotal(s, 0);
      } else {
        assert s == [s[0]] + s[1..];
        if FirstTotal(s).Some? {
          var k :| IsFirstTotal(s[1..], k) && s[1..][k].amount == FirstTotal(s).value;
          assert IsFirstTotal(s, k + 1) by { assert forall j :: 0 < j < k + 1 ==> s[j] == s[1..][j - 1]; }
        }
      }
    }
  }

  lemma {:induction false} SumAmountsMeans(s: seq<Total>)
    ensures SumAmounts(s) == Sum(Amounts(s))
  {
    if s != [] {
      SumAmountsMeans(s[1..]);
      SumCons(s[0].amount, Amounts(s[1..]), |s| - 1);
      assert Amounts(s) == [s[0].amount] + Amounts(s[1..]);
    }
  }

  lemma OptionTotalMeans(totals: seq<Total>)
    ensures IsAmountOf(totals, OptionTotal(totals))
  {
    hide Sum, SumAmounts, FirstTotal, IsFirstTotal;
    FirstTotalMeans(totals);
    SumAmountsMeans(totals);
  }

  lemma {:induction false} FindOptionMeans(s: seq<ShippingOption>, id: Option<string>)
    ensures forall j :: 0 <= j < FindOption(s, id) ==> s[j].id != id
    ensures FindOption(s, id) < |s| ==> s[FindOption(s, id)].id == id
  {
    if s != [] { FindOptionMeans(s[1..], id); }
  }

  lemma GroupCostMeans(g: Group)
    ensures IsGroupCost(g, GroupCost(g))
  {
    hide OptionTotal, IsAmountOf, FindOption;
    if g.options.Some? && g.options.value != [] {
      FindOptionMeans(g.options.value, g.selectedOption);
      var k := ChosenOption(g.options.value, g.selectedOption);
      OptionTotalMeans(g.options.value[k].totals);
      assert IsCharged(g, k);
    }
  }

  function GroupCosts(s: seq<Group>): (r: seq<int>)
    ensures |r| == |s|
  {
    seq(|s|, i requires 0 <= i < |s| => GroupCost(s[i]))
  }

  lemma {:induction false} GroupsCostMeans(s: seq<Group>)
    ensures AreGroupCosts(s, GroupCosts(s)) && GroupsCost(s) == Sum(GroupCosts(s))
  {
    hide GroupCost, IsGroupCost;
    if s != [] {
      GroupsCostMeans(s[1..]);
      GroupCostMeans(s[0]);
      SumCons(GroupCost(s[0]), GroupCosts(s[1..]), |s| - 1);
      assert GroupCosts(s) == [GroupCost(s[0])] + GroupCosts(s[1..]);
    }
  }

  function MethodCost(m: DeliveryMethod): int { if m.groups.Some? then GroupsCost(m.groups.value) else 0 }

  lemma MethodCostMeans(m: DeliveryMethod)
    ensures IsMethodCost(m, MethodCost(m))
  {
    hide AreGroupCosts, GroupsCost, GroupCosts;
    var s := if m.groups.Some? then m.groups.value else [];
    GroupsCostMeans(s);
    NoGroups();
    assert AreGroupCosts(s, GroupCosts(s));
  }

  lemma NoGroups()
    ensures GroupsCost([]) == 0
  {
  }

  function MethodCosts(s: seq<DeliveryMethod>): (r: seq<int>)
    ensures |r| == |s|
  {
    seq(|s|, i requires 0 <= i < |s| => MethodCost(s[i]))
  }

  lemma {:induction false} MethodsCostMeans(s: seq<DeliveryMethod>)
    ensures AreMethodCosts(s, MethodCosts(s)) && MethodsCost(s) == Sum(MethodCosts(s))
  {
    hide GroupsCost, IsMethodCost;
    if s != [] {
      MethodsCostMeans(s[1..]);
      MethodCostMeans(s[0]);
      SumCons(MethodCost(s[0]), MethodCosts(s[1..]), |s| - 1);
      assert MethodCosts(s) == [MethodCost(s[0])] + MethodCosts(s[1..]);
    }
  }

  /** Fulfillment costs the sum over all groups of what the selected option, or failing that the first, amounts to. */
  lemma CostMeans(f: Option<Fulfillment>)
    ensures IsCost(f, Cost(f))
  {
    hide AreMethodCosts, MethodsCost, MethodCosts;
    var s := if f.Some? && f.value.methods.Some? then f.value.methods.value else [];
    MethodsCostMeans(s);
    NoMethods();
    assert AreMethodCosts(s, MethodCosts(s));
  }

  lemma NoMethods()
    ensures MethodsCost([]) == 0
  {
  }

  // ---------- There is only one

  lemma GroupCostUnique(g: Group, a: int, b: int)
    requires IsGroupCost(g, a) && IsGroupCost(g, b)
    ensures a == b
  {
    hide Sum, Amounts;
    if g.options.Some? && g.options.value != [] {
      var k :| IsCharged(g, k) && IsAmountOf(g.options.value[k].totals, a);
      var l :| IsCharged(g, l) && IsAmountOf(g.options.value[l].totals, b);
      assert k == l;
      AmountUnique(g.options.value[k].totals, a, b);
    }
  }

  lemma AmountUnique(totals: seq<Total>, a: int, b: int)
    requires IsAmountOf(totals, a) && IsAmountOf(totals, b)
    ensures a == b
  {
    hide Sum, Amounts;
    if exists k :: IsFirstTotal(totals, k) && totals[k].amount == a {
      var k :| IsFirstTotal(totals, k) && totals[k].amount == a;
      if exists l :: IsFirstTotal(totals, l) && totals[l].amount == b {
        var l :| IsFirstTotal(totals, l) && totals[l].amount == b;
        assert k == l;
      }
    }
  }

  lemma MethodCostUnique(m: DeliveryMethod, a: int, b: int)
    requires IsMethodCost(m, a) && IsMethodCost(m, b)
    ensures a == b
  {
    hide IsGroupCost, Sum;
    var groups := if m.groups.Some? then m.groups.value else [];
    var x :| AreGroupCosts(groups, x) && a == Sum(x);
    var y :| AreGroupCosts(groups, y) && b == Sum(y);
    forall j | 0 <= j < |groups| ensures x[j] == y[j] { GroupCostUnique(groups[j], x[j], y[j]); }
    assert x == y;
  }

  /** The description fixes the cost: it is the cost of the program and no other. */
  lemma IsCostIff(f: Option<Fulfillment>, cost: int)
    ensures IsCost(f, cost) <==> cost == Cost(f)
  {
    hide IsMethodCost, Sum, Cost;
    CostMeans(f);
    if IsCost(f, cost) {
      var methods := if f.Some? && f.value.methods.Some? then f.value.methods.value else [];
      var x :| AreMethodCosts(methods, x) && cost == Sum(x);
      var y :| AreMethodCosts(methods, y) && Cost(f) == Sum(y);
      forall i | 0 <= i < |methods| ensures x[i] == y[i] { MethodCostUnique(methods[i], x[i], y[i]); }
      assert x == y;
    }
  }
}
