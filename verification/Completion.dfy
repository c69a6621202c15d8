/**
 Which completions the service accepts (src/service.rs): the instrument, the mandate and the authorization, written out.
 */
module Completion {
  import opened Wrappers
  import opened Text
  import opened Models
  import opened Status
  import opened UcpMeta
  import opened Cart
  import opened Store
  import opened Checkouts
  import opened SessionFacts
  import opened Runs
  import Json

  // ---------- Instruments

  /** A credential that carries card data itself: its type says so, or it names the kind of its card number. */
  ghost predicate CarriesCard(credential: Json.Value) {
    credential.Obj? &&
    ((exists i :: 0 <= i < |credential.members| && credential.members[i] == Json.Keyed("type", Json.Str("card"))) ||
     exists i :: 0 <= i < |credential.members| && credential.members[i].key == "card_number_type")
  }

  /** An instrument has an identifier and a credential, if any, without card data; a card its brand and last digits. */
  ghost predicate IsUsable(x: Instrument) {
    !IsBlank(x.id) && (x.credential.Some? ==> !CarriesCard(x.credential.value)) &&
    (x.kind == "card" ==>
      x.brand.Some? && !IsBlank(x.brand.value) && x.lastDigits.Some? && !IsBlank(x.lastDigits.value))
  }

  lemma InstrumentAcceptedIff(x: Instrument)
    ensures InstrumentError(x).None? <==>
      !IsBlank(x.id) && (x.credential.Some? ==> !CarriesCard(x.credential.value))
  {
    hide IsBlank;
  }

  // ---------- Authorizations

  /** The session carries the configured text, or failing that a signature of the session without it. */
  ghost predicate IsAuthorized(cfg: Config, c: Checkout) {
    if cfg.ap2Authorization.Some? then c.ap2 == Some(StaticText(cfg.ap2Authorization.value))
    else cfg.ap2Key.Some? && c.ap2 == Some(Signature(cfg.ap2Key.value, c.(ap2 := None)))
  }

  lemma AuthorizationAcceptedIff(cfg: Config, c: Checkout)
    ensures AuthorizationError(cfg, c).None? <==> IsAuthorized(cfg, c)
  {
  }

  /** A session is authorized exactly when AP2 is switched on and there is a text or a key. */
  lemma SignedIsAuthorizedIff(cfg: Config, c: Checkout)
    ensures IsAuthorized(cfg, Signed(cfg, c)) <==>
      cfg.ap2Enabled && (cfg.ap2Authorization.Some? || cfg.ap2Key.Some?)
    ensures !cfg.ap2Enabled ==> Signed(cfg, c).ap2.None?
    ensures cfg.ap2Authorization.None? && cfg.ap2Key.None? ==> Signed(cfg, c).ap2.None?
  {
  }

  // ---------- Mandates

  /** The mandate has not expired, and names this session and its authorization as far as it names any. */
  ghost predicate ClaimsHold(claims: Claims, c: Checkout, now: int) {
    (claims.expires.Some? ==> now < claims.expires.value) &&
    (claims.checkoutId.Some? ==> claims.checkoutId.value == c.id) &&
    (claims.bodyId.Some? ==> claims.bodyId.value == c.id) &&
    (claims.bodyAuthorization.Some? ==> claims.bodyAuthorization == c.ap2)
  }

  /** No mandate is demanded; or there is one whose signature is good, whose claims hold, of an authorized session. */
  ghost predicate IsMandated(cfg: Config, c: Checkout, mandate: Option<Result<Claims, ServiceError>>, now: int) {
    mandate.Some? ==> mandate.value.Ok? && ClaimsHold(mandate.value.value, c, now) && IsAuthorized(cfg, c)
  }

  lemma MandateAcceptedIff(cfg: Config, c: Checkout, mandate: Option<Result<Claims, ServiceError>>, now: int)
    ensures MandateError(cfg, c, mandate, now).None? <==> IsMandated(cfg, c, mandate, now)
  {
    hide AuthorizationError, IsAuthorized;
    AuthorizationAcceptedIff(cfg, c);
    if mandate.Some? && mandate.value.Ok? && IsAuthorized(cfg, c) { AuthorizedHasText(cfg, c); }
  }

  lemma AuthorizedHasText(cfg: Config, c: Checkout)
    requires IsAuthorized(cfg, c)
    ensures c.ap2.Some?
  {
  }

  // ---------- Completions

  /** With an instrument attached a ready session stays ready exactly when the instrument can be paid with. */
  lemma PaidIsReadyIff(cfg: Config, c: Checkout, x: Instrument)
    requires IsReady(c)
    ensures PaidSession(cfg, c, x).status == ReadyForComplete <==> Sufficient(x)
  {
    hide WithStatus, WithInstrument, MethodIsReady, CanPay, Settled;
    var y := c.(payment := WithInstrument(c.payment, x));
    var paid := PaidSession(cfg, c, x);
    StatusIsStable(cfg, y);
    StatusMeans(cfg, paid);
    StatusChangesOnly(cfg, y);
    CanPayWith(c.payment, x);
    assert paid.payment == WithInstrument(c.payment, x) by { SelectionStays(c.payment, x); }
  }

  ghost predicate Sufficient(x: Instrument) {
    x.kind == "card" ==>
      x.brand.Some? && !IsBlank(x.brand.value) && x.lastDigits.Some? && !IsBlank(x.lastDigits.value)
  }

  lemma SelectionStays(p: Payment, x: Instrument)
    ensures AutoSelect(WithInstrument(p, x)) == WithInstrument(p, x)
  {
    hide FindInstrument;
  }

  lemma CanPayWith(p: Payment, x: Instrument)
    ensures CanPay(WithInstrument(p, x)) <==> Sufficient(x)
  {
    hide FindInstrument, IsBlank;
    var r := WithInstrument(p, x);
    InstrumentSelected(p, x);
    var k := Selected(r).value;
    assert IsInstrument(r, k);
    assert forall l :: IsInstrument(r, l) ==> l == k;
  }

  /** The session can be completed with this payment and mandate. */
  ghost predicate CanComplete(cfg: Config, c: Checkout, q: CompleteRequest, now: int) {
    c.status == ReadyForComplete && IsUsable(q.data) && IsMandated(cfg, c, q.mandate, now)
  }

  lemma CompletableIff(cfg: Config, catalog: Catalog, c: Checkout, q: CompleteRequest, now: int)
    requires Consistent(cfg, catalog, c)
    ensures CompleteError(cfg, c, q, now).None? <==> CanComplete(cfg, c, q, now)
  {
    hide CartConsistent, MetaAgrees, MandateError, InstrumentError, WithStatus, WithInstrument, IsMandated, IsReady,
      IsBlank, CarriesCard;
    MandateAcceptedIff(cfg, c, q.mandate, now);
    InstrumentAcceptedIff(q.data);
    if c.status == ReadyForComplete {
      StatusMeans(cfg, c);
      PaidIsReadyIff(cfg, c, q.data);
    }
  }

  /**
   A completion succeeds exactly when the session is found and ready, the instrument is usable, and the mandate, if one
   is demanded, is good: its signature verified, not expired, for this session and its authorization, which in turn
   verifies.
   */
  lemma CompletesIff(cfg: Config, catalog: Catalog, w: World, id: string, q: CompleteRequest, t: Clock)
    requires Sane(cfg, catalog, w)
    ensures CompleteStep(cfg, w, id, q, t).reply.Ok? <==>
      id in w.sessions.cache && !Expired(w.sessions.cache[id], t.now) &&
      CanComplete(cfg, w.sessions.cache[id].checkout, q, t.now)
  {
    hide Sane, Consistent, CompleteError, PaidSession, CompletedSession, OrderBuilder.OrderFor, Issued, Expired,
      CanComplete;
    if Live(w.sessions, id, t.now).Some? {
      OpenHasNoOrder(cfg, catalog, w, id, t.now);
      CompletableIff(cfg, catalog, w.sessions.cache[id].checkout, q, t.now);
    }
  }

  /** The same after any run; there the session is authorized exactly when AP2 is configured. */
  lemma ReachableCompletesIff(cfg: Config, catalog: Catalog, calls: seq<Call>, id: string, q: CompleteRequest, t: Clock)
    ensures var w := WorldAfter(cfg, catalog, calls, |calls|);
      CompleteStep(cfg, w, id, q, t).reply.Ok? <==>
        id in w.sessions.cache &&
        var (c, deadline) := (w.sessions.cache[id].checkout, w.sessions.cache[id].deadline);
        (deadline.Some? ==> t.now <= deadline.value) && c.status == ReadyForComplete && IsUsable(q.data) &&
        (q.mandate.Some? ==>
          q.mandate.value.Ok? && ClaimsHold(q.mandate.value.value, c, t.now) &&
          cfg.ap2Enabled && (cfg.ap2Authorization.Some? || cfg.ap2Key.Some?))
  {
    hide WorldAfter, Sane, Consistent, CompleteStep, IsUsable, ClaimsHold, IsAuthorized, Issued;
    RunIsSane(cfg, catalog, calls, |calls|);
    var w := WorldAfter(cfg, catalog, calls, |calls|);
    CompletesIff(cfg, catalog, w, id, q, t);
    if Live(w.sessions, id, t.now).Some? {
      OpenHasNoOrder(cfg, catalog, w, id, t.now);
      ReadyIsAuthorizedIff(cfg, catalog, w.sessions.cache[id].checkout);
    }
  }

  lemma ReadyIsAuthorizedIff(cfg: Config, catalog: Catalog, c: Checkout)
    requires Consistent(cfg, catalog, c)
    ensures c.status == ReadyForComplete ==>
      (IsAuthorized(cfg, c) <==> cfg.ap2Enabled && (cfg.ap2Authorization.Some? || cfg.ap2Key.Some?))
  {
    hide CartConsistent, MetaAgrees, WithStatus, IsReady;
    if c.status == ReadyForComplete { SignedIsAuthorizedIff(cfg, c); }
  }
}
