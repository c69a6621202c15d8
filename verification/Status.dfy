/** The status of a checkout session (src/service.rs): what is still missing, and what follows from it. */
module Status {
  import opened Wrappers
  import opened Text
  import opened Models
  import opened Fulfillments

  // ---------- The program

  /** The only instrument is selected when nothing is. */
  function AutoSelect(p: Payment): Payment {
    if p.selected.None? && p.instruments.Some? && |p.instruments.value| == 1 then
      p.(selected := Some(p.instruments.value[0].id))
    else p
  }

  /** Position of the first instrument with this id, or the number of instruments. */
  function FindInstrument(s: seq<Instrument>, id: string): (i: nat)
    ensures i <= |s|
    ensures forall k :: 0 <= k < i ==> s[k].id != id
    ensures i < |s| ==> s[i].id == id
  {
    if s == [] || s[0].id == id then 0 else 1 + FindInstrument(s[1..], id)
  }

  /** Position of the selected instrument, if there is one. */
  function Selected(p: Payment): (r: Option<nat>)
    ensures r.Some? ==> p.selected.Some? && p.instruments.Some? && r.value < |p.instruments.value|
    ensures r.Some? ==> p.instruments.value[r.value].id == p.selected.value
  {
    if p.selected.None? || p.instruments.None? then None else
    var i := FindInstrument(p.instruments.value, p.selected.value);
    if i < |p.instruments.value| then Some(i) else None
  }

  predicate IsIncompleteCard(x: Instrument) {
    x.kind == "card" && (Missing(x.brand) || Missing(x.lastDigits))
  }

  function EmailMessages(b: Option<Buyer>): seq<Message> {
    if b.Some? && b.value.email.Some? then []
    else [Message("missing", "$.buyer.email", "Buyer email is required", Recoverable)]
  }

  function PaymentMessages(p: Payment): seq<Message> {
    match Selected(p)
    case None =>
      [Message("missing_payment", "$.payment.selected_instrument_id",
         "A selected payment instrument is required", Recoverable)]
    case Some(i) =>
      if IsIncompleteCard(p.instruments.value[i]) then
        [Message("missing", "$.payment.instruments[" + NatText(i) + "]",
           "Card payment instruments require brand and last_digits", Recoverable)]
      else []
  }

  predicate KnownKind(kind: string) { kind == "shipping" || kind == "pickup" }

  predicate DestinationChosen(m: DeliveryMethod) { m.selectedDestination.Some? && m.selectedDestination.value != "" }

  function FindDestination(s: seq<Destination>, id: Option<string>): (i: nat)
    ensures i <= |s|
  {
    if s == [] || s[0].id == id then 0 else 1 + FindDestination(s[1..], id)
  }

  /** Position of the first destination with this id, or of the first destination at all. */
  function ChosenDestination(s: seq<Destination>, id: Option<string>): (i: nat)
    requires s != []
    ensures i < |s|
  {
    var i := FindDestination(s, id);
    if id.Some? && i < |s| then i else 0
  }

  function NameOf(d: Destination): string {
    if "name" in d.data && d.data["name"].Str? then d.data["name"].s else ""
  }

  predicate NameMissing(m: DeliveryMethod) {
    m.selectedDestination.Some? && m.destinations.Some? && m.destinations.value != [] &&
    IsBlank(NameOf(m.destinations.value[ChosenDestination(m.destinations.value, m.selectedDestination)]))
  }

  function MethodPath(i: nat, field: string): string { "$.fulfillment.methods[" + NatText(i) + "]." + field }

  function MethodMessages(m: DeliveryMethod, i: nat): seq<Message> {
    if !KnownKind(m.kind) then
      [Message("invalid", MethodPath(i, "type"), "Fulfillment method type must be shipping or pickup", Recoverable)]
    else if !DestinationChosen(m) then
      [Message("missing_destination", MethodPath(i, "selected_destination_id"), "Fulfillment destination is required",
         RequiresBuyerInput)]
    else if m.kind == "pickup" && NameMissing(m) then
      [Message("missing", MethodPath(i, "destinations"), "Pickup destinations require a name", Recoverable)]
    else []
  }

  /** Messages of the first `n` methods. */
  function MethodsMessages(s: seq<DeliveryMethod>, n: nat): seq<Message>
    requires n <= |s|
  {
    if n == 0 then [] else MethodsMessages(s, n - 1) + MethodMessages(s[n - 1], n - 1)
  }

  function Methods(f: Option<Fulfillment>): seq<DeliveryMethod> {
    if f.Some? && f.value.methods.Some? then f.value.methods.value else []
  }

  function DueMessages(b: Option<Buyer>, p: Payment, f: Option<Fulfillment>): seq<Message> {
    EmailMessages(b) + PaymentMessages(p) + MethodsMessages(Methods(f), |Methods(f)|)
  }

  predicate Escalates(s: seq<Message>) { exists i :: 0 <= i < |s| && s[i].severity == RequiresBuyerInput }

  function WithStatus(cfg: Config, c: Checkout): Checkout {
    var p := AutoSelect(c.payment);
    var due := DueMessages(c.buyer, p, c.fulfillment);
    if due == [] then c.(payment := p, status := ReadyForComplete, messages := None, continueUrl := None)
    else if Escalates(due) then
      c.(payment := p, status := RequiresEscalation, messages := Some(due),
         continueUrl := Some(cfg.baseUrl + "/checkout/" + c.id))
    else c.(payment := p, status := Incomplete, messages := Some(due), continueUrl := None)
  }

  /** Collects the messages in a list and sets the status fields. */
  method ApplyStatus(cfg: Config, checkout: Checkout) returns (c: Checkout)
    ensures c == WithStatus(cfg, checkout)
  {
    hide MethodMessages, PaymentMessages, EmailMessages;
    c := checkout.(payment := AutoSelect(checkout.payment));
    var messages := EmailMessages(c.buyer);
    messages := messages + PaymentMessages(c.payment);
    ghost var first := messages;
    var methods := Methods(c.fulfillment);
    for i := 0 to |methods|
      invariant messages == first + MethodsMessages(methods, i)
    {
      messages := messages + MethodMessages(methods[i], i);
    }
    var requiresEscalation := Escalates(messages);
    if messages == [] {
      c := c.(status := ReadyForComplete, messages := None, continueUrl := None);
    } else if requiresEscalation {
      c := c.(status := RequiresEscalation, messages := Some(messages),
        continueUrl := Some(cfg.baseUrl + "/checkout/" + c.id));
    } else {
      c := c.(status := Incomplete, messages := Some(messages), continueUrl := None);
    }
  }

  // ---------- What the status means

  /** Destination `k` is the first with the selected id; or none has that id, and `k` is the first of all. */
  ghost predicate IsDestination(m: DeliveryMethod, k: int) {
    m.destinations.Some? && 0 <= k < |m.destinations.value| &&
    ((m.selectedDestination.Some? && m.destinations.value[k].id == m.selectedDestination &&
        forall j :: 0 <= j < k ==> m.destinations.value[j].id != m.selectedDestination) ||
     (k == 0 && (m.selectedDestination.Some? ==>
        forall j :: 0 <= j < |m.destinations.value| ==> m.destinations.value[j].id != m.selectedDestination)))
  }

  predicate HasName(d: Destination) {
    "name" in d.data && d.data["name"].Str? && !IsBlank(d.data["name"].s)
  }

  /** A method of a known type whose destination is chosen; one to pick up at has a name, if it is among those given. */
  ghost predicate MethodIsReady(m: DeliveryMethod) {
    m.kind in {"shipping", "pickup"} && m.selectedDestination.Some? && m.selectedDestination.value != "" &&
    (m.kind == "pickup" ==> forall k :: IsDestination(m, k) ==> HasName(m.destinations.value[k]))
  }

  predicate AwaitsBuyer(m: DeliveryMethod) {
    m.kind in {"shipping", "pickup"} && (m.selectedDestination.None? || m.selectedDestination.value == "")
  }

  /** Instrument `k` is the first with the selected id. */
  ghost predicate IsInstrument(p: Payment, k: int) {
    p.selected.Some? && p.instruments.Some? && 0 <= k < |p.instruments.value| &&
    p.instruments.value[k].id == p.selected.value &&
    forall j :: 0 <= j < k ==> p.instruments.value[j].id != p.selected.value
  }

  predicate Filled(s: Option<string>) { s.Some? && !IsBlank(s.value) }

  /** An instrument is selected, and if it is a card, its brand and last digits are known. */
  ghost predicate CanPay(p: Payment) {
    exists k :: IsInstrument(p, k) &&
      var x := p.instruments.value[k];
      x.kind == "card" ==> Filled(x.brand) && Filled(x.lastDigits)
  }

  /** Everything a completion needs: an email, a usable instrument, and a destination for every method. */
  ghost predicate IsReady(c: Checkout) {
    c.buyer.Some? && c.buyer.value.email.Some? && CanPay(c.payment) &&
    (c.fulfillment.Some? && c.fulfillment.value.methods.Some? ==>
      var s := c.fulfillment.value.methods.value;
      forall k :: 0 <= k < |s| ==> MethodIsReady(s[k]))
  }

  /** A method of a known kind has no destination. */
  ghost predicate AwaitsDestination(c: Checkout) {
    c.fulfillment.Some? && c.fulfillment.value.methods.Some? &&
    var s := c.fulfillment.value.methods.value;
    exists k :: 0 <= k < |s| && AwaitsBuyer(s[k])
  }

  lemma {:induction false} FindDestinationMeans(s: seq<Destination>, id: Option<string>)
    ensures forall j :: 0 <= j < FindDestination(s, id) ==> s[j].id != id
    ensures FindDestination(s, id) < |s| ==> s[FindDestination(s, id)].id == id
  {
    if s != [] { FindDestinationMeans(s[1..], id); }
  }

  lemma ChosenDestinationMeans(m: DeliveryMethod)
    requires m.destinations.Some? && m.destinations.value != []
    ensures forall k :: IsDestination(m, k) <==> k == ChosenDestination(m.destinations.value, m.selectedDestination)
  {
    hide FindDestination;
    FindDestinationMeans(m.destinations.value, m.selectedDestination);
  }

  lemma NameMissingIff(m: DeliveryMethod)
    requires m.selectedDestination.Some?
    ensures NameMissing(m) <==> exists k :: IsDestination(m, k) && !HasName(m.destinations.value[k])
  {
    hide IsBlank, ChosenDestination;
    EmptyIsBlank();
    if m.destinations.Some? && m.destinations.value != [] { ChosenDestinationMeans(m); }
  }

  lemma EmptyIsBlank()
    ensures IsBlank("")
  {
  }

  /** A message of this code about a field of method `i`, and no other message. */
  ghost predicate Tells(s: seq<Message>, code: string, i: nat, field: string) {
    |s| == 1 && s[0].code == code && s[0].path == "$.fulfillment.methods[" + NatText(i) + "]." + field &&
    s[0].severity == if field == "selected_destination_id" then RequiresBuyerInput else Recoverable
  }

  /** What is told about a method: its type is unknown, its destination missing, or the name of that. */
  lemma MethodMessagesFacts(m: DeliveryMethod, i: nat)
    ensures MethodMessages(m, i) == [] <==> MethodIsReady(m)
    ensures m.kind !in {"shipping", "pickup"} <==> Tells(MethodMessages(m, i), "invalid", i, "type")
    ensures AwaitsBuyer(m) <==> Tells(MethodMessages(m, i), "missing_destination", i, "selected_destination_id")
    ensures m.kind in {"shipping", "pickup"} && !AwaitsBuyer(m) && !MethodIsReady(m) <==>
      Tells(MethodMessages(m, i), "missing", i, "destinations")
    ensures Escalates(MethodMessages(m, i)) <==> AwaitsBuyer(m)
  {
    hide NameMissing, HasName, IsDestination, NatText;
    if DestinationChosen(m) { NameMissingIff(m); }
    var s := MethodMessages(m, i);
    if AwaitsBuyer(m) { assert s[0].severity == RequiresBuyerInput; }
  }

  lemma {:induction false} MethodsMessagesFacts(s: seq<DeliveryMethod>, n: nat)
    requires n <= |s|
    ensures MethodsMessages(s, n) == [] <==> forall k :: 0 <= k < n ==> MethodIsReady(s[k])
    ensures Escalates(MethodsMessages(s, n)) <==> exists k :: 0 <= k < n && AwaitsBuyer(s[k])
  {
    hide MethodMessages, MethodIsReady, AwaitsBuyer, Escalates;
    if n > 0 {
      MethodsMessagesFacts(s, n - 1);
      MethodMessagesFacts(s[n - 1], n - 1);
      EscalatesConcat(MethodsMessages(s, n - 1), MethodMessages(s[n - 1], n - 1));
    } else {
      NothingEscalates();
    }
  }

  lemma NothingEscalates()
    ensures !Escalates([])
  {
  }

  lemma EscalatesConcat(a: seq<Message>, b: seq<Message>)
    ensures Escalates(a + b) <==> Escalates(a) || Escalates(b)
  {
    var s := a + b;
    if Escalates(a) {
      var i :| 0 <= i < |a| && a[i].severity == RequiresBuyerInput;
      assert s[i].severity == RequiresBuyerInput;
    }
    if Escalates(b) {
      var i :| 0 <= i < |b| && b[i].severity == RequiresBuyerInput;
      assert s[|a| + i].severity == RequiresBuyerInput;
    }
  }

  /** A session that agrees with the status evaluator. */
  ghost predicate Settled(cfg: Config, c: Checkout) { WithStatus(cfg, c) == c }

  /** Evaluating the status twice is evaluating it once. */
  lemma StatusIsStable(cfg: Config, c: Checkout)
    ensures Settled(cfg, WithStatus(cfg, c))
  {
    hide DueMessages;
    assert AutoSelect(AutoSelect(c.payment)) == AutoSelect(c.payment);
  }

  /**
   In a settled session the status says what is missing: ready exactly when nothing is, escalated exactly when the
   buyer still has to choose a destination; and the messages and continue link are there exactly then.
   */
  lemma StatusMeans(cfg: Config, c: Checkout)
    requires Settled(cfg, c)
    ensures c.status == ReadyForComplete <==> IsReady(c)
    ensures c.status == RequiresEscalation <==> AwaitsDestination(c)
    ensures c.status in {ReadyForComplete, RequiresEscalation, Incomplete}
    ensures c.messages.None? <==> c.status == ReadyForComplete
    ensures c.continueUrl.Some? <==> c.status == RequiresEscalation
  {
    hide MethodsMessages, Selected, MethodIsReady, AwaitsBuyer, IsIncompleteCard, Escalates, EmailMessages,
      PaymentMessages;
    var s := Methods(c.fulfillment);
    MethodsMessagesFacts(s, |s|);
    EarlyMessages(c.buyer, c.payment);
    EscalatesConcat(EmailMessages(c.buyer) + PaymentMessages(c.payment), MethodsMessages(s, |s|));
  }

  ghost predicate Names(s: seq<Message>, code: string, path: string) {
    |s| == 1 && s[0].code == code && s[0].path == path
  }

  /** What is told about the buyer and the payment: no email, no instrument selected, or a card that lacks something. */
  lemma EarlyMessages(b: Option<Buyer>, p: Payment)
    ensures EmailMessages(b) == [] <==> b.Some? && b.value.email.Some?
    ensures EmailMessages(b) != [] ==> Names(EmailMessages(b), "missing", "$.buyer.email")
    ensures PaymentMessages(p) == [] <==> CanPay(p)
    ensures (forall k :: !IsInstrument(p, k)) <==>
      Names(PaymentMessages(p), "missing_payment", "$.payment.selected_instrument_id")
    ensures forall k :: IsInstrument(p, k) && PaymentMessages(p) != [] ==>
      Names(PaymentMessages(p), "missing", "$.payment.instruments[" + NatText(k) + "]")
    ensures !Escalates(EmailMessages(b) + PaymentMessages(p))
  {
    hide IsIncompleteCard, FindInstrument, NatText;
    if Selected(p).Some? {
      var k := Selected(p).value;
      assert IsInstrument(p, k);
      assert forall l :: IsInstrument(p, l) ==> l == k;
      CompleteCard(p.instruments.value[k]);
    }
  }

  lemma CompleteCard(x: Instrument)
    ensures IsIncompleteCard(x) <==> x.kind == "card" && !(Filled(x.brand) && Filled(x.lastDigits))
  {
  }
}
