/**
 The capabilities a response lists, and its projection to a negotiated set (src/ucp_meta.rs, src/service.rs).
 */
module UcpMeta {
  import opened Wrappers
  import opened Models
  import opened Negotiation

  const CHECKOUT := "dev.ucp.shopping.checkout"
  const ORDER := "dev.ucp.shopping.order"
  const FULFILLMENT := "dev.ucp.shopping.fulfillment"
  const DISCOUNT := "dev.ucp.shopping.discount"
  const AP2_MANDATE := "dev.ucp.shopping.ap2_mandate"
  const IDENTITY_LINKING := "dev.ucp.common.identity_linking"
  const BUYER_CONSENT := "dev.ucp.shopping.buyer_consent"

  datatype Negotiated = Negotiated(version: string, capabilities: seq<CapabilityRef>)

  /** What the discovery document offers. */
  function BusinessCapabilities(cfg: Config): seq<Capability> {
    var v := cfg.ucpVersion;
    [Capability(CHECKOUT, v, None), Capability(FULFILLMENT, v, Some(CHECKOUT)),
     Capability(DISCOUNT, v, Some(CHECKOUT)), Capability(ORDER, v, None)] +
    (if cfg.identityEnabled then [Capability(IDENTITY_LINKING, v, None)] else []) +
    (if cfg.consentEnabled then [Capability(BUYER_CONSENT, v, Some(CHECKOUT))] else []) +
    (if cfg.ap2Enabled then [Capability(AP2_MANDATE, v, Some(CHECKOUT))] else [])
  }

  function ResponseMeta(cfg: Config, fulfillment: bool, discount: bool, consent: bool, ap2: bool): Meta {
    var v := cfg.ucpVersion;
    Meta(v,
      [CapabilityRef(CHECKOUT, v)] +
      (if fulfillment then [CapabilityRef(FULFILLMENT, v)] else []) +
      (if discount then [CapabilityRef(DISCOUNT, v)] else []) +
      (if consent && cfg.consentEnabled then [CapabilityRef(BUYER_CONSENT, v)] else []) +
      (if ap2 && cfg.ap2Enabled then [CapabilityRef(AP2_MANDATE, v)] else []))
  }

  function RefNames(s: seq<CapabilityRef>): set<string> { set i | 0 <= i < |s| :: s[i].name }

  predicate HasCapability(n: Negotiated, name: string) { name in RefNames(n.capabilities) }

  function RetainNamed(s: seq<CapabilityRef>, names: set<string>): seq<CapabilityRef> {
    if s == [] then [] else (if s[0].name in names then [s[0]] else []) + RetainNamed(s[1..], names)
  }

  predicate HasConsent(buyer: Option<Buyer>) { buyer.Some? && buyer.value.consent.Some? }

  /** The response shown to a platform: nothing it did not negotiate. */
  function Projected(c: Checkout, negotiated: Option<Negotiated>): Checkout {
    match negotiated
    case None => c
    case Some(n) =>
      var allowed := RefNames(n.capabilities);
      c.(ucp := Meta(n.version, RetainNamed(c.ucp.capabilities, allowed)),
         ap2 := if AP2_MANDATE in allowed then c.ap2 else None,
         fulfillment := if FULFILLMENT in allowed then c.fulfillment else None,
         discounts := if DISCOUNT in allowed then c.discounts else None,
         buyer := if BUYER_CONSENT in allowed || c.buyer.None? then c.buyer
                  else Some(c.buyer.value.(consent := None)))
  }

  /** Changes the response field by field. */
  method ApplyNegotiatedCheckout(checkout: Checkout, negotiated: Option<Negotiated>) returns (r: Checkout)
    ensures r == Projected(checkout, negotiated)
  {
    r := checkout;
    if negotiated.None? { return; }
    r := r.(ucp := r.ucp.(version := negotiated.value.version));
    var allowed := RefNames(negotiated.value.capabilities);
    r := r.(ucp := r.ucp.(capabilities := RetainNamed(r.ucp.capabilities, allowed)));
    if AP2_MANDATE !in allowed { r := r.(ap2 := None); }
    if FULFILLMENT !in allowed { r := r.(fulfillment := None); }
    if DISCOUNT !in allowed { r := r.(discounts := None); }
    if BUYER_CONSENT !in allowed && r.buyer.Some? {
      r := r.(buyer := Some(r.buyer.value.(consent := None)));
    }
  }

  /** The capabilities of a session as the service builds them from its body. */
  ghost predicate MetaAgrees(cfg: Config, c: Checkout) {
    c.ucp == ResponseMeta(cfg, c.fulfillment.Some?, c.discounts.Some?, HasConsent(c.buyer), cfg.ap2Enabled) &&
    (c.ap2.Some? ==> cfg.ap2Enabled)
  }

  ghost predicate Lists(c: Checkout, name: string) { name in RefNames(c.ucp.capabilities) }

  lemma {:induction false} RetainNamedNames(s: seq<CapabilityRef>, names: set<string>)
    ensures RefNames(RetainNamed(s, names)) == RefNames(s) * names
  {
    var r := RetainNamed(s, names);
    if s != [] {
      RetainNamedNames(s[1..], names);
      RefNamesCons(s[0], s[1..]);
      RefNamesCons(s[0], RetainNamed(s[1..], names));
      assert s == [s[0]] + s[1..];
    }
  }

  lemma RefNamesCons(r: CapabilityRef, s: seq<CapabilityRef>)
    ensures RefNames([r] + s) == {r.name} + RefNames(s)
    ensures [] + s == s
  {
    var t := [r] + s;
    assert forall i :: 0 <= i < |s| ==> t[i + 1] == s[i];
    forall n | n in {r.name} + RefNames(s) ensures n in RefNames(t) {
      if n == r.name { assert t[0].name == n; } else {
        var i :| 0 <= i < |s| && s[i].name == n;
        assert t[i + 1].name == n;
      }
    }
  }

  lemma MetaNames(cfg: Config, f: bool, d: bool, b: bool, a: bool)
    ensures RefNames(ResponseMeta(cfg, f, d, b, a).capabilities) ==
      {CHECKOUT} + (if f then {FULFILLMENT} else {}) + (if d then {DISCOUNT} else {}) +
      (if b && cfg.consentEnabled then {BUYER_CONSENT} else {}) + (if a && cfg.ap2Enabled then {AP2_MANDATE} else {})
  {
    hide RefNames;
    var v := cfg.ucpVersion;
    var s1 := [CapabilityRef(CHECKOUT, v)];
    var s2 := if f then [CapabilityRef(FULFILLMENT, v)] else [];
    var s3 := if d then [CapabilityRef(DISCOUNT, v)] else [];
    var s4 := if b && cfg.consentEnabled then [CapabilityRef(BUYER_CONSENT, v)] else [];
    var s5 := if a && cfg.ap2Enabled then [CapabilityRef(AP2_MANDATE, v)] else [];
    RefNamesConcat(s1, s2);
    RefNamesConcat(s1 + s2, s3);
    RefNamesConcat(s1 + s2 + s3, s4);
    RefNamesConcat(s1 + s2 + s3 + s4, s5);
    OneName(CHECKOUT, v);
    OneName(FULFILLMENT, v);
    OneName(DISCOUNT, v);
    OneName(BUYER_CONSENT, v);
    OneName(AP2_MANDATE, v);
  }

  /** What a response lists, by name: checkout always, the others when the body has them and the service offers them. */
  lemma MetaMeans(cfg: Config, f: bool, d: bool, b: bool, a: bool)
    ensures var m := ResponseMeta(cfg, f, d, b, a);
      m.version == cfg.ucpVersion &&
      (forall i :: 0 <= i < |m.capabilities| ==> m.capabilities[i].version == cfg.ucpVersion) &&
      RefNames(m.capabilities) ==
        {"dev.ucp.shopping.checkout"} + (if f then {"dev.ucp.shopping.fulfillment"} else {}) +
        (if d then {"dev.ucp.shopping.discount"} else {}) +
        (if b && cfg.consentEnabled then {"dev.ucp.shopping.buyer_consent"} else {}) +
        (if a && cfg.ap2Enabled then {"dev.ucp.shopping.ap2_mandate"} else {})
  {
    hide RefNames;
    MetaNames(cfg, f, d, b, a);
  }

  lemma OneName(name: string, v: string)
    ensures RefNames([CapabilityRef(name, v)]) == {name} && RefNames([]) == {}
  {
    RefNamesCons(CapabilityRef(name, v), []);
    assert [CapabilityRef(name, v)] + [] == [CapabilityRef(name, v)];
  }

  lemma RefNamesConcat(a: seq<CapabilityRef>, b: seq<CapabilityRef>)
    ensures RefNames(a + b) == RefNames(a) + RefNames(b)
  {
    var t := a + b;
    assert forall i :: 0 <= i < |b| ==> t[|a| + i] == b[i];
    forall n | n in RefNames(a) + RefNames(b) ensures n in RefNames(t) {
      if n in RefNames(a) {
        var i :| 0 <= i < |a| && a[i].name == n;
        assert t[i].name == n;
      } else {
        var i :| 0 <= i < |b| && b[i].name == n;
        assert t[|a| + i].name == n;
      }
    }
  }

  /** The response to a session would carry consent: the session does, and the platform did not leave it out. */
  predicate ShowsConsent(c: Checkout, negotiated: Option<Negotiated>) {
    HasConsent(c.buyer) && (negotiated.None? || HasCapability(negotiated.value, BUYER_CONSENT))
  }

  /**
   A projected response lists fulfillment and discount exactly when its body carries them, and AP2 whenever
   AP2 data is present. It lists consent exactly when its body carries it if and only if the service offers consent, or
   the session has none, or the platform did not negotiate it.
   */
  lemma ProjectionAgrees(cfg: Config, c: Checkout, negotiated: Option<Negotiated>)
    requires MetaAgrees(cfg, c)
    ensures var r := Projected(c, negotiated);
      (Lists(r, FULFILLMENT) <==> r.fulfillment.Some?) &&
      (Lists(r, DISCOUNT) <==> r.discounts.Some?) &&
      (r.ap2.Some? ==> Lists(r, AP2_MANDATE)) &&
      ((Lists(r, BUYER_CONSENT) <==> HasConsent(r.buyer)) <==> cfg.consentEnabled || !ShowsConsent(c, negotiated))
  {
    hide RefNames, ResponseMeta, RetainNamed;
    MetaNames(cfg, c.fulfillment.Some?, c.discounts.Some?, HasConsent(c.buyer), cfg.ap2Enabled);
    if negotiated.Some? { RetainNamedNames(c.ucp.capabilities, RefNames(negotiated.value.capabilities)); }
  }

  /** No listed capability of the business is listed without the parent it extends. */
  ghost predicate ParentsListed(cfg: Config, c: Checkout) {
    forall i :: 0 <= i < |BusinessCapabilities(cfg)| && Lists(c, BusinessCapabilities(cfg)[i].name) ==>
      var p := BusinessCapabilities(cfg)[i].parent; p.Some? ==> Lists(c, p.value)
  }

  ghost predicate Offers(cfg: Config, name: string) {
    exists i :: 0 <= i < |BusinessCapabilities(cfg)| && BusinessCapabilities(cfg)[i].name == name
  }

  /** What the discovery document offers, by name, each at the version of the service. */
  lemma BusinessMeans(cfg: Config, name: string)
    ensures Offers(cfg, name) <==>
      name == "dev.ucp.shopping.checkout" || name == "dev.ucp.shopping.fulfillment" ||
      name == "dev.ucp.shopping.discount" || name == "dev.ucp.shopping.order" ||
      (cfg.identityEnabled && name == "dev.ucp.common.identity_linking") ||
      (cfg.consentEnabled && name == "dev.ucp.shopping.buyer_consent") ||
      (cfg.ap2Enabled && name == "dev.ucp.shopping.ap2_mandate")
    ensures forall i :: 0 <= i < |BusinessCapabilities(cfg)| ==>
      BusinessCapabilities(cfg)[i].version == cfg.ucpVersion
  {
    var s := BusinessCapabilities(cfg);
    assert s[0].name == CHECKOUT && s[1].name == FULFILLMENT && s[2].name == DISCOUNT && s[3].name == ORDER;
    assert cfg.identityEnabled ==> s[4].name == IDENTITY_LINKING;
    var k := if cfg.identityEnabled then 5 else 4;
    assert cfg.consentEnabled ==> s[k].name == BUYER_CONSENT;
    assert cfg.ap2Enabled ==> s[|s| - 1].name == AP2_MANDATE;
  }

  lemma ParentIsCheckout(cfg: Config, i: nat)
    requires i < |BusinessCapabilities(cfg)|
    ensures var b := BusinessCapabilities(cfg)[i];
      b.parent == (if b.name in {FULFILLMENT, DISCOUNT, BUYER_CONSENT, AP2_MANDATE} then Some(CHECKOUT) else None)
  {
  }

  lemma RefsKeepNames(s: seq<Capability>)
    ensures RefNames(CapabilitiesToRefs(s)) == Names(s)
  {
    var r := CapabilitiesToRefs(s);
    forall n | n in Names(s) ensures n in RefNames(r) {
      var i :| 0 <= i < |s| && s[i].name == n;
      assert r[i].name == n;
    }
  }

  /** An extension of checkout that the business offers. */
  ghost predicate IsExtension(cfg: Config, name: string) {
    name in {FULFILLMENT, DISCOUNT, BUYER_CONSENT, AP2_MANDATE} && Offers(cfg, name)
  }

  /** What a projection lists: what the session lists, as far as it was negotiated. */
  lemma ListedAfter(c: Checkout, negotiated: Option<Negotiated>, name: string)
    ensures Lists(Projected(c, negotiated), name) <==>
      Lists(c, name) && (negotiated.None? || HasCapability(negotiated.value, name))
  {
    hide RefNames, RetainNamed;
    if negotiated.Some? { RetainNamedNames(c.ucp.capabilities, RefNames(negotiated.value.capabilities)); }
  }

  /** Parents are listed exactly when checkout is, or no extension. */
  lemma ParentsOfListed(cfg: Config, r: Checkout)
    ensures ParentsListed(cfg, r) <==> Lists(r, CHECKOUT) || forall e :: IsExtension(cfg, e) ==> !Lists(r, e)
  {
    hide RefNames, BusinessCapabilities, Lists;
    forall i | 0 <= i < |BusinessCapabilities(cfg)|
      ensures var b := BusinessCapabilities(cfg)[i];
        b.parent == (if b.name in {FULFILLMENT, DISCOUNT, BUYER_CONSENT, AP2_MANDATE} then Some(CHECKOUT) else None)
    {
      ParentIsCheckout(cfg, i);
    }
  }

  /**
   A projection lists parents exactly when nothing was negotiated, or checkout was, or no extension the session lists
   was.
   */
  lemma ParentsListedIff(cfg: Config, c: Checkout, negotiated: Option<Negotiated>)
    requires MetaAgrees(cfg, c)
    ensures ParentsListed(cfg, Projected(c, negotiated)) <==>
      negotiated.None? || HasCapability(negotiated.value, CHECKOUT) ||
      forall e :: IsExtension(cfg, e) && Lists(c, e) ==> !HasCapability(negotiated.value, e)
  {
    hide RefNames, ResponseMeta, IsExtension, ParentsListed, Projected, HasCapability, HasConsent;
    MetaNames(cfg, c.fulfillment.Some?, c.discounts.Some?, HasConsent(c.buyer), cfg.ap2Enabled);
    ParentsOfListed(cfg, Projected(c, negotiated));
    forall e: string { ListedAfter(c, negotiated, e); }
  }

  /**
   Whatever the platform offers, a response projected to the negotiated set never lists an extension without its
   parent.
   */
  lemma NegotiatedParentsListed(cfg: Config, c: Checkout, platform: seq<Capability>, version: string)
    requires MetaAgrees(cfg, c)
    ensures ParentsListed(cfg,
      Projected(c, Some(Negotiated(version, CapabilitiesToRefs(Intersect(BusinessCapabilities(cfg), platform))))))
  {
    hide RefNames, ResponseMeta, RetainNamed, BusinessCapabilities, Intersect, CapabilitiesToRefs, IsSublist;
    var business := BusinessCapabilities(cfg);
    var s := Intersect(business, platform);
    var n := Negotiated(version, CapabilitiesToRefs(s));
    IntersectIsGreatest(business, platform);
    SublistFacts(s, business);
    RefsKeepNames(s);
    MetaNames(cfg, c.fulfillment.Some?, c.discounts.Some?, HasConsent(c.buyer), cfg.ap2Enabled);
    RetainNamedNames(c.ucp.capabilities, Names(s));
    forall e | e in {FULFILLMENT, DISCOUNT, BUYER_CONSENT, AP2_MANDATE} && e in Names(s)
      ensures CHECKOUT in Names(s)
    {
      var j :| 0 <= j < |s| && s[j].name == e;
      assert s[j] in business;
      var k :| 0 <= k < |business| && business[k] == s[j];
      ParentIsCheckout(cfg, k);
    }
    forall i | 0 <= i < |business| { ParentIsCheckout(cfg, i); }
  }

  // ---------- When a projection changes nothing

  /** The set holds everything the session lists or carries, at the version of the service. */
  predicate Covers(cfg: Config, c: Checkout, n: Negotiated) {
    n.version == cfg.ucpVersion && RefNames(c.ucp.capabilities) <= RefNames(n.capabilities) &&
    (HasConsent(c.buyer) ==> HasCapability(n, BUYER_CONSENT))
  }

  lemma {:induction false} RetainAll(s: seq<CapabilityRef>, names: set<string>)
    ensures RetainNamed(s, names) == s <==> RefNames(s) <= names
  {
    if s != [] {
      RetainAll(s[1..], names);
      RefNamesCons(s[0], s[1..]);
      RetainedAtMost(s[1..], names);
      assert s == [s[0]] + s[1..];
    } else {
      assert RefNames(s) == {};
    }
  }

  lemma {:induction false} RetainedAtMost(s: seq<CapabilityRef>, names: set<string>)
    ensures |RetainNamed(s, names)| <= |s|
  {
    if s != [] { RetainedAtMost(s[1..], names); }
  }

  /** A projection shows the whole session exactly when the negotiated set covers it. */
  lemma ProjectionChangesNothingIff(cfg: Config, c: Checkout, n: Negotiated)
    requires MetaAgrees(cfg, c)
    ensures Projected(c, Some(n)) == c <==> Covers(cfg, c, n)
  {
    hide RefNames, ResponseMeta, RetainNamed;
    MetaNames(cfg, c.fulfillment.Some?, c.discounts.Some?, HasConsent(c.buyer), cfg.ap2Enabled);
    RetainAll(c.ucp.capabilities, RefNames(n.capabilities));
    assert c.ucp.version == cfg.ucpVersion by { MetaVersion(cfg, c); }
  }

  lemma MetaVersion(cfg: Config, c: Checkout)
    requires MetaAgrees(cfg, c)
    ensures c.ucp.version == cfg.ucpVersion
  {
  }
}
