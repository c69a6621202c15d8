/**
 What a cart costs, told from the request and the catalog (src/service.rs, src/validation.rs, src/catalog.rs).
 */
module CartFacts {
  import opened Wrappers
  import opened Text
  import opened Sums
  import opened Models
  import opened Pricing
  import opened Fulfillments
  import opened FulfillmentFacts
  import opened FulfillmentMeaning
  import opened Cart

  // ---------- Currencies

  predicate IsLatin(c: char) { 'a' <= c <= 'z' || 'A' <= c <= 'Z' }

  /** A currency is accepted exactly when, trimmed, it is three Latin letters; it is then used in upper case. */
  lemma CurrencyAcceptedIff(currency: string)
    ensures CurrencyError(currency).None? <==>
      |Trim(currency)| == 3 && forall i :: 0 <= i < 3 ==> IsLatin(Trim(currency)[i])
    ensures IsUpperOf(NormalCurrency(currency), Trim(currency))
  {
    hide Trim, Upper;
    UpperOf(Trim(currency));
  }

  // ---------- Lines

  /** The line the request asks for: the product at the price of the catalog, in the quantity asked for. */
  ghost predicate IsAskedFor(catalog: Catalog, x: LineItemInput, line: LineItem) {
    x.itemId in catalog && line.quantity == x.quantity && line.parentId == x.parentId && line.extra == x.extra &&
    line.item.id == catalog[x.itemId].id && line.item.title == catalog[x.itemId].title &&
    line.item.price == catalog[x.itemId].price && line.item.imageUrl == catalog[x.itemId].imageUrl &&
    line.item.extra == x.itemExtra &&
    (x.id.Some? && !IsBlank(x.id.value) ==> line.id == Trim(x.id.value)) && !IsBlank(line.id)
  }

  ghost predicate AreAskedFor(catalog: Catalog, s: seq<LineItemInput>, lines: seq<LineItem>) {
    |lines| == |s| && forall i :: 0 <= i < |s| ==> IsAskedFor(catalog, s[i], lines[i])
  }

  lemma TrimKeepsPresent(s: string)
    requires !IsBlank(s)
    ensures !IsBlank(Trim(s))
  {
    hide Trim;
    var i, j := TrimMeans(s);
    assert s[i..j][0] == s[i];
    BlankIff(Trim(s));
  }

  lemma LineIdMeans(id: Option<string>, n: nat)
    ensures id.Some? && !IsBlank(id.value) ==> LineId(id, n).0 == Trim(id.value)
    ensures !IsBlank(LineId(id, n).0)
  {
    hide IsBlank, Trim, FreshId;
    if Missing(id) { FreshIsPresent("li_", n); } else { TrimKeepsPresent(id.value); }
  }

  lemma NewLineIsAskedFor(catalog: Catalog, x: LineItemInput, n: nat)
    requires x.itemId in catalog
    ensures IsAskedFor(catalog, x, NewLine(catalog, x, LineId(x.id, n).0))
  {
    hide LineTotals, LineId, IsBlank, Trim;
    LineIdMeans(x.id, n);
  }

  lemma {:induction false} NewLinesAreAskedFor(catalog: Catalog, s: seq<LineItemInput>, n: nat)
    requires Orderable(catalog, s)
    ensures AreAskedFor(catalog, s, NewLines(catalog, s, n).0)
    decreases s
  {
    hide LineId, NewLine, IsAskedFor;
    if s != [] {
      NewLineIsAskedFor(catalog, s[0], n);
      NewLinesAreAskedFor(catalog, s[1..], LineId(s[0].id, n).1);
    }
  }

  function GivenIds(s: seq<LineItemInput>): (r: seq<Option<string>>)
    ensures |r| == |s|
  {
    seq(|s|, i requires 0 <= i < |s| => s[i].id)
  }

  function NewIds(s: seq<LineItem>): (r: seq<Option<string>>)
    ensures |r| == |s|
  {
    seq(|s|, i requires 0 <= i < |s| => Some(s[i].id))
  }

  lemma LineIdIsNew(id: Option<string>, n: nat)
    ensures Missing(id) ==> IsNew(Some(LineId(id, n).0), "li_", n, LineId(id, n).1)
  {
    hide FreshId, IsBlank, Trim;
  }

  /** Lines that come without an identifier each get one of their own. */
  lemma {:induction false} LineIdsAreDistinct(catalog: Catalog, s: seq<LineItemInput>, n: nat)
    requires Orderable(catalog, s)
    ensures var (r, n') := NewLines(catalog, s, n); NewAreDistinct(GivenIds(s), NewIds(r), "li_", n, n')
    decreases s
  {
    hide LineId, LineTotals, Missing, NewAreDistinct, IsNew;
    if s == [] {
      assert NewAreDistinct(GivenIds(s), NewIds([]), "li_", n, n) by { NothingNew("li_", n); }
    } else {
      var (id, n1) := LineId(s[0].id, n);
      var (rest, n2) := NewLines(catalog, s[1..], n1);
      LineIdsAreDistinct(catalog, s[1..], n1);
      LineIdIsNew(s[0].id, n);
      DistinctCons(s[0].id, Some(id), GivenIds(s[1..]), NewIds(rest), "li_", n, n1, n2);
      var line := NewLine(catalog, s[0], id);
      assert GivenIds(s) == [s[0].id] + GivenIds(s[1..]);
      assert NewIds([line] + rest) == [Some(id)] + NewIds(rest);
    }
  }

  /** Discounting changes nothing but the totals of lines. */
  lemma DiscountsKeepAskedFor(catalog: Catalog, s: seq<LineItemInput>, lines: seq<LineItem>, perItem: seq<int>)
    requires AreAskedFor(catalog, s, lines) && |perItem| == |lines|
    ensures AreAskedFor(catalog, s, WithDiscounts(lines, perItem))
  {
    hide LineTotals, IsBlank, Trim;
  }

  lemma EvaluationKeepsAskedFor(catalog: Catalog, s: seq<LineItemInput>, lines: seq<LineItem>, cfg: Config,
      fulfillment: Option<Fulfillment>, discounts: Option<DiscountsObject>, n: nat)
    requires AreAskedFor(catalog, s, lines)
    ensures AreAskedFor(catalog, s, Evaluate(cfg, lines, fulfillment, discounts, n).lines)
  {
    hide WithDiscounts, AreAskedFor, BuiltOptional, Cost, OrderTotals, LineSubtotals, Sum, NormalizeCodes;
    var cost := Cost(BuiltOptional(fulfillment, LineIdsOf(lines), n).0);
    if discounts.Some? {
      var codes := NormalizeCodes(if discounts.value.codes.Some? then discounts.value.codes.value else []);
      DiscountsKeepAskedFor(catalog, s, lines, Discounts.FinalTally(LineSubtotals(lines), cost, codes).perItem);
    }
  }
}
