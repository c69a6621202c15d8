/**
 The entities of a checkout session (src/models.rs).

 Fields the modelled code only copies (names, addresses, card art, expiry dates) are part of `extra`.
 Amounts are in minor units.
 */
module Models {
  import opened Wrappers
  import Json

  type Extra = map<string, Json.Value>

  /** Quantities are 32-bit. */
  type Int32 = x: int | -0x8000_0000 <= x < 0x8000_0000

  datatype Total = Total(kind: string, displayText: Option<string>, amount: int)

  datatype Item = Item(id: string, title: string, price: int, imageUrl: Option<string>, extra: Extra)

  datatype LineItem = LineItem(
    id: string, item: Item, quantity: Int32, totals: seq<Total>, parentId: Option<string>, extra: Extra)

  datatype LineItemInput = LineItemInput(
    id: Option<string>, itemId: string, itemExtra: Extra, quantity: Int32, parentId: Option<string>, extra: Extra)

  datatype Product = Product(
    id: string, title: string, price: int, currency: string, imageUrl: Option<string>, inventory: int)

  datatype Consent = Consent(
    analytics: Option<bool>, preferences: Option<bool>, marketing: Option<bool>, saleOfData: Option<bool>)

  datatype Buyer = Buyer(email: Option<string>, consent: Option<Consent>, extra: Extra)

  datatype Instrument = Instrument(
    id: string, handlerId: string, kind: string, brand: Option<string>, lastDigits: Option<string>,
    credential: Option<Json.Value>, extra: Extra)

  datatype PaymentRequest = PaymentRequest(
    selected: Option<string>, instruments: Option<seq<Instrument>>, extra: Extra)

  datatype Payment = Payment(
    handlers: seq<string>, selected: Option<string>, instruments: Option<seq<Instrument>>, extra: Extra)

  datatype Allocation = Allocation(path: string, amount: int)

  datatype AppliedDiscount = AppliedDiscount(
    code: string, title: string, amount: int, priority: int, allocations: seq<Allocation>)

  datatype DiscountsObject = DiscountsObject(codes: Option<seq<string>>, applied: Option<seq<AppliedDiscount>>)

  datatype Destination = Destination(id: Option<string>, data: Extra)

  datatype ShippingOption = ShippingOption(
    id: Option<string>, title: Option<string>, description: Option<string>, totals: seq<Total>, extra: Extra)

  datatype Group = Group(
    id: Option<string>, lineItemIds: seq<string>, options: Option<seq<ShippingOption>>,
    selectedOption: Option<string>, extra: Extra)

  datatype DeliveryMethod = DeliveryMethod(
    id: Option<string>, kind: string, lineItemIds: seq<string>, destinations: Option<seq<Destination>>,
    selectedDestination: Option<string>, groups: Option<seq<Group>>, extra: Extra)

  datatype AvailableMethod = AvailableMethod(id: string, kind: string, lineItemIds: seq<string>)

  datatype Fulfillment = Fulfillment(
    methods: Option<seq<DeliveryMethod>>, available: Option<seq<AvailableMethod>>)

  datatype CapabilityRef = CapabilityRef(name: string, version: string)

  datatype Meta = Meta(version: string, capabilities: seq<CapabilityRef>)

  datatype Severity = Recoverable | RequiresBuyerInput

  datatype Message = Message(code: string, path: string, content: string, severity: Severity)

  datatype Status = Incomplete | RequiresEscalation | ReadyForComplete | Completed | Canceled

  datatype OrderConfirmation = OrderConfirmation(id: string, permalink: string)

  datatype Checkout = Checkout(
    ucp: Meta, id: string, lineItems: seq<LineItem>, buyer: Option<Buyer>, status: Status, currency: string,
    totals: seq<Total>, discounts: Option<DiscountsObject>, fulfillment: Option<Fulfillment>,
    messages: Option<seq<Message>>, links: seq<string>, expiresAt: string, continueUrl: Option<string>,
    payment: Payment, ap2: Option<Authorization>, order: Option<OrderConfirmation>, extra: Extra)

  /** The merchant's authorization: a configured text, or a signature of the session without its authorization. */
  datatype Authorization = StaticText(text: string) | Signature(key: string, body: Checkout)

  /** Settings of the service. */
  datatype Config = Config(
    ucpVersion: string, baseUrl: string, taxBps: int, ttl: nat, handlers: seq<string>, links: seq<string>,
    identityEnabled: bool, consentEnabled: bool, ap2Enabled: bool,
    ap2Authorization: Option<string>, ap2Key: Option<string>)

  datatype ServiceError = InvalidInput(message: string) | NotFound(message: string) | InvalidState(message: string)

  // ---------- Orders

  datatype Quantity = Quantity(total: int, fulfilled: int)

  datatype LineStatus = Processing | Partial | Fulfilled

  datatype OrderLine = OrderLine(
    id: string, item: Item, quantity: Quantity, totals: seq<Total>, status: LineStatus, parentId: Option<string>,
    extra: Extra)

  datatype LineRef = LineRef(id: string, quantity: int)

  datatype OrderEvent = OrderEvent(
    id: string, occurredAt: string, kind: string, lines: seq<LineRef>, tracking: Option<string>,
    description: Option<string>)

  datatype Adjustment = Adjustment(
    id: string, kind: string, occurredAt: string, status: string, lines: Option<seq<LineRef>>, amount: Option<int>,
    description: Option<string>)

  datatype Order = Order(
    ucp: Meta, id: string, checkoutId: string, permalink: string, lines: seq<OrderLine>,
    events: Option<seq<OrderEvent>>, totals: seq<Total>, adjustments: Option<seq<Adjustment>>)
}
