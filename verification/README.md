# Verified model of the UCP checkout handler

A Dafny 4.11 model of the checkout library's core, and proofs about it. `dafny verify dfyconfig.toml` checks
everything.

The modules follow the program:

- **Canonical JSON** (`Utf16`, `Decimal`, `Json`, `JsonNumbers`, `JsonReader`, `Canonical`, `FloatText`): the RFC 8785 printer under every
  signature and replay hash. Its text is unambiguous: a reader recovers the value, number rewriting is exact,
  member order does not matter.
- **Pricing** (`Integers`, `Sums`, `Discounts`, `Pricing`, `Cart`, `CartFacts`): the proportional $5 split with its remainder
  pass, stacked codes, totals and tax, with conservation, bounds, and explicit 64-bit limits on every product.
- **Checkout sessions** (`Models`, `Fulfillments`, `FulfillmentFacts`, `FulfillmentStability`, `FulfillmentCosts`,
  `FulfillmentMeaning`, `Status`, `Store`, `OrderBuilder`, `Checkouts`, `SessionFacts`, `SessionPrices`, `Runs`, `RunFacts`,
  `Completion`, `UpdateTwice`): the store, the service and its normalizer and status evaluator.
  `Runs` states one invariant over every run of requests; `RunFacts` and `UpdateTwice` draw the conclusions.
- **Negotiation** (`Negotiation`, `UcpMeta`): the pruning loop as a greatest fixpoint, and responses that agree with it.
- **Orders** (`Orders`): an event log with counters that equal a replay of it.
- **Replay** (`Replay`, `RequestHash`, `Endpoints`, `EndpointFacts`, `EndpointRuns`): three stores that evict differently and
  mean the same, the protocols that ask them before they ask the service, and runs of all three over one service.
- **Examples** (`Examples`): requests on which properties the service does not promise fail.
- **Redirects** (`Redirect`): a printer whose parameters can be read back.

A stateful object is a class; each of its methods is proved against functions on values (`World`, `Contents`, `Order`,
maps of records), and the theorems are about those functions. Requests are handled one at a time, each as one step that
reads the clock once. New identifiers come from a counter that is never reused; time, the text of time stamps and the outcome of
checking a mandate's signature are parameters.

What those functions mean is stated without them, by positions, amounts and constants: what a request is charged for
(`CartFacts`, `FulfillmentCosts`, `FulfillmentMeaning`, `SessionPrices`), which completions are accepted (`Completion`), what
reaches the service (`EndpointFacts`), and beside the functions themselves elsewhere.

What was found not to hold of the code, each with the exact condition under which it does and an input on which it fails:

- SAVE5 entered before SAVE10 can take more off a line than it costs (`Discounts.LineDiscountBound`, `OverDiscountExample`; in
  terms of prices `SmallCartBound` and, one way, `PriceBound` and `LargeCartBound`).
- A negative fulfillment cost makes the totals list not add up (`Pricing.TotalsAddUp`, `Examples.NegativeCostDoesNotAddUp`).
- With consent switched off a response can carry consent it does not list (`UcpMeta.ProjectionAgrees`,
  `Examples.ConsentShownUnlisted`).
- A negotiated set without checkout would list extensions without their parent (`UcpMeta.ParentsListedIff`,
  `Examples.ParentMissing`); the negotiation never produces one (`UcpMeta.NegotiatedParentsListed`).
- A canceled session keeps the signature of the open one, which no longer covers it (`SessionFacts.AuthorizationVerifiesIff`,
  `Examples.CanceledKeepsStaleSignature`).
- The signature of a session does not cover the response shown to a platform, unless the negotiated set covers the session
  (`SessionFacts.ProjectionVerifiesIff`, `Examples.ProjectionVoidsSignature`).
- Fulfilled counts wrap at 32 bits (`Orders.CountersReplayTheLog`, `OverflowExample`).
- Numerically equal numbers can have different canonical text (`FloatText.FloatPrintsLikeIntegerIff`, `FloatOneExample`).
- Sessions can be empty: create refuses an empty cart, update accepts it (`SessionFacts.EmptyCartOnlyRefusedOnCreate`); a stored
  session is empty exactly when its last cart came from an update without lines (`RunFacts.EmptyExactlyAfterEmptyUpdate`,
  `Examples.EmptySessionIsStored`).

## Model

| member | source | states |
|---|---|---|
| `Decimal.ParseKeepsValue` | src/crypto.rs:396-425 | The sign, digits, point position and exponent split off a decimal text denote the same rational as the text itself |
| `Decimal.ExpandedIsExact` | src/crypto.rs:336-363 | Writing a number without exponent keeps its value exactly; the text has no exponent, no zero at the end of a fraction, no dangling point, and no leading zero the input did not have |
| `Decimal.InExponentFormIsExact` | src/crypto.rs:365-394 | Writing a number with an exponent keeps its value exactly; the text has one digit before the point, no superfluous zero at either end, and a signed exponent |
| `Decimal.NormalizeIsExact` | src/crypto.rs:318-334 | Rewriting the exponent of a number keeps its value exactly |
| `Decimal.DecimalsAreAccepted` | src/crypto.rs:396-425 | Every sign, digits, point, digits and exponent that JSON can write is number text, split into just these parts, unless it is too long for 32-bit positions |
| `Decimal.PositionsFit` | src/crypto.rs:336-425 | No digit position computed for such text leaves the 32-bit range |
| `Decimal.ExpandExponent` | src/crypto.rs:336-363 | The string-buffer procedure computes the expanded form |
| `Decimal.PopZeros` | src/crypto.rs:354-361 | The loop removes exactly the zeros at the end of a fraction, then a point left dangling |
| `Decimal.ToExponent` | src/crypto.rs:365-394 | The string-buffer procedure computes the exponent form |
| `Decimal.RemoveZeros` | src/crypto.rs:371-377 | The two loops remove exactly the zeros in front, moving the point, and the zeros at the end |
| `Utf16.CompareUtf16` | src/crypto.rs:301-316 | Stepping through two strings by code unit gives Less, Greater or Equal exactly when the code units are lexicographically smaller, larger or the strings identical |
| `Utf16.UnitsMean` | src/crypto.rs:301-316 | A character of the basic plane is its own unit, any other a high and a low surrogate that hold its upper and lower ten bits |
| `Utf16.CompareIsLexicographic` | src/crypto.rs:301-316 | The comparison is the lexicographic order on code units, in both directions |
| `Utf16.EncodeInjective` | src/crypto.rs:301-316 | Different strings have different UTF-16 code units, also across surrogate pairs |
| `Utf16.CompareTotal` | src/crypto.rs:301-316 | Keys are totally ordered: equal only when identical, antisymmetric and transitive |
| `Json.CanonicalizeString` | src/crypto.rs:279-299 | The loop over a string builds its escaped, quoted text |
| `Json.EscapeKinds` | src/crypto.rs:279-299 | Printable characters other than the quote and backslash are not escaped, the seven with a short escape get it, and the other control characters lower-case hexadecimal |
| `Json.CanonicalIsPrintOfNormal` | src/crypto.rs:224-244 | Sorting members while printing is printing the value whose members were sorted at every depth |
| `JsonNumbers.NumberTextIsExact` | src/crypto.rs:246-277 | The canonical text of a number denotes exactly that number and holds no character that could end it early |
| `FloatText.ExponentExactlyWhenExtreme` | src/crypto.rs:246-334 | A non-zero double has an exponent in its canonical text exactly when it is below 10^-6 or at least 10^21 in magnitude; there it is signed, without leading zeros, and in between text that came without one stays as it is, and other text is written out |
| `FloatText.FloatPrintsLikeIntegerIff` | src/crypto.rs:246-277 | A double equal to an integer prints like it exactly when both are zero, or the integer is below 10^21 in magnitude and the double is written with an exponent and no leading zero, or in the very text of the integer |
| `FloatText.FloatOneExample` | src/crypto.rs:246-277 | The double 1.0 and the integer 1 are equal and print differently |
| `FloatText.ExpandedIntegerText` | src/crypto.rs:336-363 | A number with an exponent that is a non-zero integer expands to the text of that integer exactly when its digits have no leading zero |
| `JsonReader.ReadEscaped` | src/crypto.rs:279-299 | An escaped string never closes early, and unescaping it by section 7 of RFC 8259 gives the string back |
| `JsonReader.ReadPrinted` | src/crypto.rs:224-244 | A reader for JSON text, started at a printed value of any depth with any text behind it, reads back that value and stops behind it |
| `Canonical.SortFacts` | src/crypto.rs:234-241 | Sorting orders the members by key and keeps exactly the same members |
| `Canonical.SortedUnique` | src/crypto.rs:234-241 | There is only one sorted sequence of given members |
| `Canonical.CanonicalRoundTrip` | src/crypto.rs:219-244 | Reading canonical text gives the value with sorted members and canonical numbers |
| `Canonical.CanonicalDeterminesValue` | src/crypto.rs:219-244 | Two JSON values of any depth with the same canonical text are equal up to member order and numeric equality of numbers |
| `Canonical.CanonicalIgnoresOrder` | src/crypto.rs:219-244 | Reordering object members at any depth does not change the canonical text |
| `RequestHash.McpHashIdentifies` | src/mcp.rs:207-214 | MCP requests hashed from the same text have the same method and equivalent parameters |
| `RequestHash.McpHashIgnoresOrder` | src/mcp.rs:207-214 | Parameters that differ only in member order hash alike, in MCP and A2A |
| `RequestHash.A2aHashIdentifies` | src/a2a.rs:909-915 | A2A messages hashed from the same text are equivalent |
| `RequestHash.HttpHashIdentifies` | src/idempotency.rs:73-85 | HTTP requests hashed from the same text have the same method, path and body |
| `Discounts.SplitIsExact` | src/service.rs:1202-1248 | SAVE5 allocates precisely min(500, what is available); no line receives more than it has available or less than its floored share |
| `Discounts.LeftoverBounds` | src/service.rs:1218-1240 | What the floored shares leave over is smaller than the number of lines with something available |
| `Discounts.DiscountsAreConserved` | src/service.rs:1158-1312 | For every list of codes the applied amounts add up to the item discounts plus the order discount, every applied amount is positive and the sum of its allocations |
| `Discounts.ClosedForm` | src/service.rs:1158-1285 | Line discounts depend on the codes only through which of SAVE10 and SAVE5 occur and which comes first; the order discount only on whether SHIPFREE occurs |
| `Discounts.CodesTakeOff` | src/service.rs:1158-1285 | In numbers: SAVE10 takes the floored tenth off every line, SAVE5 500 cents or all there is, which after SAVE10 is what that left, SHIPFREE the fulfillment cost, and other codes nothing |
| `Discounts.AllocationsNameLines` | src/service.rs:1174-1267 | The allocations name exactly the lines that get something, in order, by path and amount |
| `Discounts.NoiseChangesNothing` | src/service.rs:1168-1173 | Inserting an unknown or repeated code changes nothing: not the line and order discounts, not the discounts reported with their amounts and allocations |
| `Discounts.LineDiscountBound` | src/service.rs:1174-1267 | A line discount is at most the line plus a tenth of it, and within the line exactly when SAVE10 comes first, only one is used, or every part of the split leaves room for the tenth |
| `Discounts.SmallCartBound` | src/service.rs:1174-1267 | A cart of at most $5 is over-discounted by SAVE5 then SAVE10 exactly when some line costs ten cents or more |
| `Discounts.PriceBound` | src/service.rs:1174-1267 | By prices alone: a cart above $5.55 is not over-discounted when every line has room for its tenth, its share of $5 and one cent for each other line |
| `Discounts.LargeCartBound` | src/service.rs:1174-1267 | A cart of at least $10 in which no line costs less than three cents per line is never over-discounted |
| `Discounts.OverDiscountExample` | src/service.rs:1174-1267 | SAVE5 then SAVE10 takes 110 off a line of 100; the other order takes 100 |
| `Pricing.ProductsFit` | src/service.rs:1174-1240 | Under the stated bound on prices no product of the discount code leaves the 64-bit range |
| `Pricing.Save10` | src/service.rs:1174-1201 | The loop takes a tenth off every line and reports amount and allocations of exactly that |
| `Pricing.ShareOut` | src/service.rs:1218-1226 | The first pass hands out the floored shares and what it spends is their sum |
| `Pricing.SpendRemainder` | src/service.rs:1228-1240 | The remainder pass ends with the exact split |
| `Pricing.Save5` | src/service.rs:1202-1267 | The whole SAVE5 branch adds the exact split to the lines and reports it |
| `Pricing.ApplyLegacyDiscounts` | src/service.rs:1151-1312 | The loop over codes computes the tally of the first occurrence of each code, rewrites the line totals and reports codes and applied discounts |
| `Pricing.CalculateTotals` | src/service.rs:1314-1386 | The entries pushed one by one are the order totals, and no intermediate amount leaves the 64-bit range |
| `Pricing.LineEntries` | src/service.rs:954-979 | A line lists its subtotal, its discount when there is one, and as its total what is left, at least zero |
| `Pricing.OrderEntries` | src/service.rs:1314-1386 | The entries of an order: subtotal and total always, the others when positive; tax is the share of the rate in what is left after discounts and fulfillment, and the total is that with tax, neither below zero |
| `Pricing.CodesAreThoseEntered` | src/service.rs:991-997 | The codes applied are those entered that are not blank, in order, trimmed and in upper case |
| `Pricing.TaxIsFloor` | src/service.rs:1415-1417 | Tax is the floor of taxable amount times basis points over 10000 |
| `Pricing.TotalsAddUp` | src/service.rs:1314-1386 | The emitted total is the signed sum of the other emitted entries exactly when no clamp is at work |
| `Pricing.LineTotalsAddUp` | src/service.rs:954-979 | The line totals add up to the subtotal less the items discount exactly when no line is over-discounted |
| `Pricing.CartAddsUp` | src/service.rs:1151-1386 | A cart with non-negative prices, cost and rate, not over-discounted, adds up over its lines and over its totals |
| `Fulfillments.BuildOptions` | src/service.rs:1574-1592 | The loop over options fills in ids, titles and totals, taking new ids in order |
| `Fulfillments.BuildGroup` | src/service.rs:1560-1600 | A group gets an id, line items, options and a selection |
| `Fulfillments.BuildGroups` | src/service.rs:1560-1602 | The loop over groups normalizes each, taking new ids in order |
| `Fulfillments.BuildDestinations` | src/service.rs:1534-1540 | The loop over destinations gives an id to each that has none |
| `Fulfillments.BuildMethod` | src/service.rs:1518-1603 | A method gets an id, type, line items, destination, selection and groups |
| `Fulfillments.BuildMethods` | src/service.rs:1518-1603 | The loop over methods normalizes each, taking new ids in order |
| `Fulfillments.BuildFulfillment` | src/service.rs:1491-1622 | The whole normalizer: methods, available methods and the cost of the selected options |
| `FulfillmentCosts.IsCostIff` | src/service.rs:1800-1827 | The cost is exactly the sum, over all groups of all methods, of the option with the selected id, or failing that the first: its first total, or the sum of its entries if it has none |
| `FulfillmentMeaning.BuiltMeans` | src/service.rs:1491-1725 | Field by field, what the request gives is kept and what it leaves open is filled in: ids, line items, types, default options of 500 and 1500 cents, titles, totals and selections |
| `FulfillmentMeaning.OptionIdsAreDistinct` | src/service.rs:1574-1592 | Options of a group that come without an id each get one of their own, so a selection is unambiguous |
| `FulfillmentMeaning.DestinationIdsAreDistinct` | src/service.rs:1534-1540 | So do the destinations of a method |
| `FulfillmentMeaning.GroupIdsAreDistinct` | src/service.rs:1560-1602 | So do the groups of a method |
| `FulfillmentMeaning.MethodIdsAreDistinct` | src/service.rs:1518-1603 | So do the methods |
| `FulfillmentFacts.BuiltIsNormal` | src/service.rs:1491-1622 | The output is in normal form: ids, types, line items, options and selections are all present |
| `FulfillmentFacts.BuiltTwice` | src/service.rs:1491-1622 | Run on its own output with the same line items the normalizer changes nothing and takes no new id |
| `FulfillmentFacts.RebuiltNormal` | src/service.rs:1491-1622 | Run on a normal form with other line items it changes only line items, takes no id and keeps the cost |
| `FulfillmentFacts.BuiltIsConsistent` | src/service.rs:1521-1600 | Method line ids are checkout line ids, group line ids are among those of their method, and every group with options has a selection |
| `FulfillmentStability.BuiltAlike` | src/service.rs:1491-1622 | Normalizing a request for any line items and with any new ids gives the same cost and the same status messages |
| `FulfillmentStability.RebuiltAlike` | src/service.rs:1491-1622 | Normalizing a stored fulfillment again for other line items keeps cost and status messages |
| `Status.ApplyStatus` | src/service.rs:1853-2005 | The message list is collected in the order of the program, and status, messages, selection and continue link follow from it |
| `Status.StatusIsStable` | src/service.rs:1853-2029 | Evaluating the status twice is evaluating it once |
| `Status.StatusMeans` | src/service.rs:1853-2005 | In an evaluated session ready means exactly that email, usable instrument and destinations are there, escalated exactly that a method awaits a destination; messages and continue link are there exactly then |
| `Status.MethodMessagesFacts` | src/service.rs:1909-1979 | A method is told to have an unknown type, no destination, or a place to pick up at without name, each exactly when it has, under its index; only the missing destination escalates |
| `Status.EarlyMessages` | src/service.rs:1857-1907 | A missing email, a missing instrument and a card without brand or last digits are each reported exactly when they occur, the card under its index |
| `Cart.LinesAcceptedIff` | src/service.rs:905-923 | Requested lines are accepted exactly when each is a known item in stock, in positive quantity and in the currency; otherwise the first fault is reported |
| `CartFacts.CurrencyAcceptedIff` | src/validation.rs:3-11 | A currency is accepted exactly when trimmed it is three Latin letters, and used in upper case |
| `Cart.BuildLineItems` | src/service.rs:905-952 | The loop stops at the first faulty line with its error, and otherwise builds every line |
| `CartFacts.NewLinesAreAskedFor` | src/service.rs:905-952 | Line i is the product of the catalog requested there, at its price, in the quantity, with the parent, extra fields and trimmed id of the request |
| `CartFacts.LineIdsAreDistinct` | src/service.rs:905-952 | Lines that come without an id each get one that no other new line has |
| `Cart.ApplyDiscounts` | src/service.rs:981-1022 | Codes are trimmed, put in upper case and emptied of blanks before they are applied |
| `Cart.EvaluateCart` | src/service.rs:254-275 | Fulfillment, discounts and totals of a cart, each computed from the one before |
| `Cart.NormalizeCodesTwice` | src/service.rs:998-1002 | Normalizing discount codes twice is normalizing them once |
| `Cart.OutcomeTwice` | src/service.rs:981-1022 | Discounting lines already discounted, by the codes already reported, changes nothing |
| `Store.CheckoutStore.Insert` | src/store.rs:98-157 | The session replaces the one with its id under a new deadline, and what was negotiated for it stays |
| `Store.CheckoutStore.Get` | src/store.rs:163-217 | A session is returned up to its deadline; later it is dropped from cache and overlay |
| `Store.CheckoutStore.SetNegotiated` | src/store.rs:220-231 | A negotiated set is recorded for a known session only |
| `Store.CheckoutStore.Remove` | src/store.rs:253-263 | The session leaves cache and overlay |
| `Store.OverlaysFollowTheCache` | src/store.rs:98-263 | After any operations a negotiated set is kept for exactly the cached sessions |
| `Store.LookupFindsLastInsert` | src/store.rs:98-217 | However expired sessions were dropped, a lookup finds exactly the last insert while its deadline has not passed |
| `OrderBuilder.BuildOrderEvents` | src/service.rs:2116-2168 | The loop over methods skips those without address or lines and announces the others |
| `OrderBuilder.BuildOrder` | src/service.rs:2070-2099 | The order carries the lines, totals and first events of the session |
| `OrderBuilder.NewOrderAnnounces` | src/service.rs:2070-2196 | The log of a new order holds one event for exactly those methods whose chosen destination has data and that have known lines, each naming just those lines at full quantity |
| `OrderBuilder.NewOrderIsSound` | src/service.rs:2070-2177 | A new order has the ids, items, quantities and totals of the session, counters that agree with its log, and events that name whole lines of it |
| `Checkouts.BuildPaymentResponse` | src/service.rs:1829-1851 | A request without a selection keeps the selection of the session, and its instruments unless it brings its own |
| `Checkouts.AttachPaymentData` | src/service.rs:2031-2064 | Blank ids and card credentials are refused; otherwise the instrument is put in place and selected |
| `Checkouts.CheckoutService.EvaluateFields` | src/service.rs:254-275 | Currency, then lines are validated; then the cart is evaluated |
| `Checkouts.CheckoutService.CreateCheckout` | src/service.rs:243-313 | Reply and whole new state of create |
| `Checkouts.CheckoutService.GetCheckout` | src/service.rs:316-321 | Reply and whole new state of get |
| `Checkouts.CheckoutService.UpdateCheckout` | src/service.rs:344-427 | Reply and whole new state of update, with what is inherited from the session |
| `Checkouts.CheckoutService.CompleteCheckout` | src/service.rs:446-524 | Reply and whole new state of complete, including the order announced |
| `Completion.InstrumentAcceptedIff` | src/service.rs:121-133 | An instrument is accepted exactly when it has an id and its credential carries no card data |
| `Completion.AuthorizationAcceptedIff` | src/service.rs:874-903 | An authorization is accepted exactly when it is the configured text or, without one, a signature of the session without it |
| `Completion.MandateAcceptedIff` | src/service.rs:761-872 | A demanded mandate is accepted exactly when its signature was, it has not expired, it names this session and its authorization as far as it names any, and the authorization verifies |
| `Completion.CompletesIff` | src/service.rs:446-524 | A completion succeeds exactly when the session is found and ready, the instrument has an id, no card credential and, if a card, brand and last digits, and the mandate, if demanded, is good |
| `Completion.ReachableCompletesIff` | src/service.rs:446-524 | The same after any run, where the authorization verifies exactly when AP2 is on and has a text or a key |
| `Checkouts.CheckoutService.CancelCheckout` | src/service.rs:527-543 | Reply and whole new state of cancel |
| `SessionFacts.EvaluatedIsConsistent` | src/service.rs:254-275 | Whatever a request says, the evaluated cart is priced as its lines, codes and fulfillment call for, and normal |
| `SessionFacts.SessionIsFixedPoint` | src/service.rs:344-427 | Evaluating a stored session again gives the same lines, fulfillment, discounts and totals and takes no id |
| `SessionFacts.NewSessionIsConsistent` | src/service.rs:243-313 | A created session is consistent, open, and has a new id |
| `SessionFacts.UpdatedSessionIsConsistent` | src/service.rs:344-427 | An updated session is consistent and open under its old id |
| `SessionFacts.CompletedSessionIsConsistent` | src/service.rs:446-524 | A completed session is consistent, lacks nothing, and has the lines, totals and fulfillment it had before |
| `SessionFacts.CanceledSessionIsConsistent` | src/service.rs:527-543 | A canceled session is consistent |
| `SessionFacts.InstrumentSelected` | src/service.rs:2051-2063 | The instrument sent is the one selected, replaces at most the one with its id, and every other stays in place |
| `SessionFacts.AuthorizationVerifiesIff` | src/service.rs:874-902 | The stored authorization verifies exactly when the session is not canceled or the authorization is a configured text |
| `SessionFacts.ProjectionVerifiesIff` | src/ucp_meta.rs:22-55 | On the response shown to a platform the signature verifies exactly when nothing was negotiated or the negotiated set covers the session: same version, every listed capability, and consent if carried |
| `SessionFacts.SessionAddsUp` | src/service.rs:1151-1386 | A stored session adds up, line totals to subtotal less items discount and entries to the total, when prices, rate and cost are not negative and no line is over-discounted |
| `SessionFacts.LinesAsAsked` | src/service.rs:905-952 | A session has as many lines as the request that created or updated it |
| `SessionPrices.StoredSessionIsPriced` | src/service.rs:954-1386 | Every line of a stored session lists its price times its quantity less what the reported codes take off; the session the sum of its lines, the cost of the options selected when positive, its discounts, tax and total |
| `SessionPrices.NewSessionMeans` | src/service.rs:243-313 | A created session has the lines asked for at catalog prices times the quantities asked for, listed as subtotals with their sum, and the codes, fulfillment, payment, buyer and currency asked for |
| `SessionPrices.UpdatedSessionMeans` | src/service.rs:344-427 | An updated session has the lines asked for, so priced, and of buyer, codes, fulfillment and selected instrument what the request gives or failing that what the session had |
| `SessionFacts.EmptyCartOnlyRefusedOnCreate` | src/service.rs:247-251 | An empty cart is always refused by create, and accepted by update exactly when the currency is good and the session open; the session is then empty |
| `Runs.FreshIsNew` | src/service.rs:286 | A new identifier differs from all handed out before |
| `Runs.CreateKeepsSane` | src/service.rs:243-313 | Create keeps the invariant of the service |
| `Runs.UpdateKeepsSane` | src/service.rs:344-427 | Update keeps the invariant of the service |
| `Runs.CompleteKeepsSane` | src/service.rs:446-524 | Complete keeps the invariant of the service |
| `Runs.CancelKeepsSane` | src/service.rs:527-543 | Cancel keeps the invariant of the service |
| `Runs.RunIsSane` | src/service.rs:243-543 | The invariant of the service holds after every run |
| `RunFacts.ReachableSessionsAreConsistent` | src/service.rs:243-543 | After any run an open session is a fixed point of the status evaluator and of cart evaluation; ready holds exactly when no message is due, escalation exactly when a destination is awaited; completed sessions have an order |
| `RunFacts.ReachableResponsesAgree` | src/ucp_meta.rs:22-55 | After any run and for any negotiated set a response lists fulfillment and discount exactly when it carries them, AP2 when AP2 data is present, and consent exactly when carried if and only if the service offers consent, the session has none, or it was not negotiated |
| `RunFacts.ReachableParentsListed` | src/ucp_meta.rs:22-55 | After any run a response projected to a negotiated set lists no extension without its parent |
| `RunFacts.ReachableTotalsAddUp` | src/service.rs:1151-1386 | After any run a session adds up, over its lines and over its totals, when its cost is not negative and no line is over-discounted |
| `RunFacts.ReachableProjectionVerifiesIff` | src/ucp_meta.rs:22-55 | After any run the signature of a session not canceled verifies on its response exactly when nothing was negotiated or the set covers the session |
| `RunFacts.ReachableAuthorizationVerifiesIff` | src/service.rs:874-902 | After any run the authorization of a session verifies exactly when the session is not canceled or the authorization is a configured text |
| `RunFacts.OneOrderPerCheckout` | src/service.rs:446-524 | Over any run a checkout has at most one order; the stored session is completed under its id with the same lines, quantities and totals; a stored completed session has one |
| `RunFacts.StepOrders` | src/service.rs:500-524 | Only a completion announces an order, exactly one, under the id it answers with |
| `RunFacts.OrdersOnlyGrow` | src/service.rs:519-521 | Announced orders are never changed or withdrawn |
| `RunFacts.ErrorsChangeNothing` | src/service.rs:243-543 | A request that fails leaves every live session and the announced orders unchanged |
| `RunFacts.ChangesStore` | src/service.rs:243-543 | A change that succeeds stores exactly the session it answers with, under a new id or in place of an open session |
| `RunFacts.OthersStoreNothing` | src/service.rs:316-341 | Every other request stores no session |
| `RunFacts.TerminalIsFinal` | src/service.rs:353-360 | A completed or canceled session never changes again; once expired it does not return |
| `RunFacts.FoundUntilExpiry` | src/store.rs:163-217 | A session is found exactly until the time to live after the last request that changed it, as that request was answered |
| `RunFacts.NegotiationIsKept` | src/store.rs:120-147 | The negotiated set of a stored session is the one last recorded for it, across all changes |
| `RunFacts.EmptyExactlyAfterEmptyUpdate` | src/service.rs:344-427 | After any run a stored session has as many lines as the last accepted create or update of it, and none exactly when that was an update without lines |
| `RunFacts.SessionAnswersLastCart` | src/service.rs:905-979 | After any run a stored session has the lines of the last cart it was given, each listing catalog price times quantity asked for, and lists their sum |
| `RunFacts.ReachableSessionsArePriced` | src/service.rs:954-1386 | After any run the amounts of a stored session are those its lines, codes and selected options call for |
| `UpdateTwice.UpdateTwiceIsOnce` | src/service.rs:344-427 | Sending the same update twice leaves totals, discounts, payment, buyer, messages, status and capabilities as after the first, and the whole session when lines are named and fulfillment is inherited |
| `UpdateTwice.UpdateTwiceInService` | src/service.rs:344-427 | In the service: the second update succeeds while the session lives, answers alike and announces nothing |
| `UpdateTwice.PaymentTwice` | src/service.rs:1829-1851 | Inheriting payment and selecting the only instrument is stable under repetition |
| `Negotiation.IntersectCapabilities` | src/negotiation.rs:332-372 | The retain loop terminates and computes the pruned list |
| `Negotiation.IntersectIsGreatest` | src/negotiation.rs:332-372 | The result is the greatest sub-list of the name-matched business capabilities in which every parent is present |
| `Negotiation.GreatestIsUnique` | src/negotiation.rs:332-372 | There is only one such list |
| `Negotiation.IntersectIsMonotone` | src/negotiation.rs:332-372 | More platform names never lose a capability, and only the names matter |
| `Negotiation.PlatformOrderIsIrrelevant` | src/negotiation.rs:332-372 | Order and repetition of platform entries do not matter |
| `Negotiation.IntersectIsIdempotent` | src/negotiation.rs:332-372 | Negotiating the result again changes nothing |
| `UcpMeta.RefsKeepNames` | src/negotiation.rs:375-383 | The references name exactly the negotiated capabilities |
| `UcpMeta.ApplyNegotiatedCheckout` | src/ucp_meta.rs:22-55 | The field-by-field change is the projection to the negotiated set |
| `UcpMeta.MetaNames` | src/service.rs:673-717 | A session lists checkout, and each extension exactly when it is included and offered |
| `UcpMeta.MetaMeans` | src/service.rs:673-717 | A response lists checkout and, by name, the extensions its body has and the service offers, all at the version of the service |
| `UcpMeta.BusinessMeans` | src/service.rs:654-667 | The service offers exactly checkout, fulfillment, discount and order, and the others as configured, all at its version |
| `UcpMeta.ProjectionAgrees` | src/ucp_meta.rs:22-55 | A response lists fulfillment and discount exactly when it carries them, AP2 when data is present; for consent if and only if the service offers it, the session has none, or it was not negotiated |
| `UcpMeta.ParentsListedIff` | src/ucp_meta.rs:22-55 | For an arbitrary set parents are listed exactly when nothing was negotiated, checkout was, or no extension the session lists was |
| `UcpMeta.ProjectionChangesNothingIff` | src/ucp_meta.rs:22-55 | A response is the whole session exactly when the negotiated set has its version, its listed capabilities, and consent if carried |
| `UcpMeta.NegotiatedParentsListed` | src/ucp_meta.rs:22-55 | For a set the negotiation produced parents are always listed |
| `Orders.ValidateLineItemRefs` | src/order_api.rs:569-607 | The loop reports the first fault of the references |
| `Orders.RefsAcceptedIff` | src/order_api.rs:569-607 | References are accepted exactly when there are some, each names a line once and has a positive quantity |
| `Orders.EventAcceptedIff` | src/order_api.rs:517-529 | An event is accepted exactly when its type is not blank and its references are accepted |
| `Orders.AdjustmentAcceptedIff` | src/order_api.rs:531-567 | An adjustment is accepted exactly when its type is not blank, it has lines or an amount, the lines given are accepted and the amount given is not negative |
| `Orders.UpdateLineItemQuantities` | src/order_api.rs:483-498 | The loop counts every reference on the first line with its id |
| `Orders.OrderService.AddFulfillmentEvent` | src/order_api.rs:405-444 | On an error nothing changes; otherwise the event is appended and counted |
| `Orders.OrderService.AddAdjustment` | src/order_api.rs:447-480 | On an error nothing changes; otherwise the adjustment is appended |
| `Orders.AddEventReplays` | src/order_api.rs:405-498 | After an event the counters equal a replay of the log exactly when no counter passes the 32-bit range; then no count decreases and the log only grew |
| `Orders.AddAdjustmentRecords` | src/order_api.rs:447-480 | An adjustment is appended and touches no counter |
| `Orders.WithMetaKeeps` | src/order_api.rs:500-515 | Stamping metadata touches neither lines nor logs |
| `Orders.WithMetaMeans` | src/order_api.rs:500-515 | An order that is read carries the version of the service throughout, and its permalink is replaced exactly when it is blank or a placeholder and a base address is configured |
| `Orders.CountersReplayTheLog` | src/order_api.rs:405-498 | Over any sequence of events and adjustments counters and statuses equal a replay of the log throughout exactly when no event passes the 32-bit range; both logs only grow |
| `Orders.OverflowExample` | src/order_api.rs:405-498 | Two accepted shipments, of 1 and of 2147483647, turn the counter of an order line negative, though it matched the log before |
| `Examples.NegativeCostDoesNotAddUp` | src/service.rs:1491-1622 | A stored session whose only shipping option costs less than zero, and whose totals do not add up |
| `Examples.CanceledKeepsStaleSignature` | src/service.rs:527-543 | Create then cancel stores a session with a signature that does not verify |
| `Examples.ProjectionVoidsSignature` | src/ucp_meta.rs:22-55 | A stored session whose signature verifies, and a negotiated set for which it does not on the response |
| `Examples.ConsentShownUnlisted` | src/ucp_meta.rs:50-54 | A stored session whose response carries consent and does not list it |
| `Examples.ParentMissing` | src/ucp_meta.rs:22-55 | A stored session and a negotiated set without checkout for which an extension is listed without its parent |
| `Examples.EmptySessionIsStored` | src/service.rs:344-427 | Creating a session and updating it without lines stores an empty session |
| `Replay.IdempotencyStore.Get` | src/idempotency.rs:43-65 | A record at most the time to live old is returned, an older one evicted |
| `Replay.IdempotencyStore.Insert` | src/idempotency.rs:67-71 | Expired records are purged, then the record is stored |
| `Replay.McpStore.IdempotencyReplay` | src/mcp.rs:216-241 | Expired records are purged, then a record is replayed or a conflict reported |
| `Replay.McpStore.StoreIdempotency` | src/mcp.rs:243-259 | Expired records are purged, then the answer is stored |
| `Replay.A2aStore.IdempotencyReplay` | src/a2a.rs:917-941 | An expired record is evicted on lookup; a live one is replayed or a conflict reported |
| `Replay.A2aStore.StoreIdempotency` | src/a2a.rs:943-958 | The answer is stored |
| `Replay.PoliciesMeanTheSame` | src/idempotency.rs:43-71 | All three eviction policies answer every lookup with the latest insert under the key exactly when its age is at most the time to live |
| `Endpoints.Act` | src/mcp.rs:328-344 | The service acts, the negotiation is recorded, and the session is shown as negotiated |
| `Endpoints.CheckKey` | src/idempotency.rs:98-161 | The first fault of the key header or of the size of the body, in the order the middleware looks for it |
| `Endpoints.HttpEndpoint.Handle` | src/idempotency.rs:88-247 | Reply, entries and service state of an HTTP request: refused key, replay, conflict, or the service, whose answer is kept below 500 |
| `Endpoints.McpHandler.Handle` | src/mcp.rs:261-779 | Reply, entries and service state of an MCP request, with and without a key |
| `Endpoints.FromParts` | src/a2a.rs:982-1030 | The loop over parts collects what they say: later parts override, except that the first checkout id counts |
| `Endpoints.A2aHandler.HandleSendMessage` | src/a2a.rs:536-710 | Reply, entries, service state and contexts of an A2A message, its action chosen from its parts and its context |
| `EndpointFacts.FaultIff` | src/idempotency.rs:98-155 | When a request is turned down before its key is looked up, for each of the three protocols |
| `EndpointFacts.GuardedIff` | src/idempotency.rs:98-140 | Which requests are guarded and by which key: all but those that only read, over HTTP by the trimmed key, and over A2A every message |
| `EndpointFacts.RequirementMeans` | src/ucp_meta.rs:13-20 | A mandate is checked exactly when it was negotiated, or nothing was and AP2 is on |
| `EndpointFacts.CompletionShownIff` | src/service.rs:446-524 | Through any protocol after any run a completion is answered with a session exactly when it is found and ready, the instrument usable, and a good mandate there if one is demanded |
| `EndpointFacts.DispatchedIff` | src/a2a.rs:577-650 | What a message asks for: the action it names, or completion when it has payment data, or else its cart, on the checkout it names, its cart names or its context is about |
| `EndpointRuns.OnlyReachingChanges` | src/a2a.rs:575-709 | Only a request that reaches the service changes it |
| `EndpointRuns.ReachingIsKept` | src/a2a.rs:575-709 | In every protocol what reaches the service under a key is kept, errors included |
| `EndpointRuns.ContextIsLastShown` | src/a2a.rs:960-968 | A context is about the checkout last shown in it by a message answered afresh |
| `EndpointRuns.MessageContinues` | src/a2a.rs:592-611 | A message that can be read and names no checkout acts on the one last shown in its context |
| `EndpointRuns.KeptWhileLive` | src/mcp.rs:216-259 | Over any run of all three protocols a kept answer stays in its store while it lives |
| `EndpointRuns.Origin` | src/mcp.rs:243-259 | Every record of a store is an answer kept earlier under its protocol and key |
| `EndpointRuns.ReplayWithinWindow` | src/mcp.rs:296-349 | Within the time to live of a kept answer a request under its key does not reach the service and leaves it unchanged; it gets that answer, or a conflict for another payload |
| `EndpointRuns.ServedExactlyWhen` | src/a2a.rs:569-709 | A guarded request is answered afresh exactly when no answer kept under its key is alive |
| `EndpointRuns.AtMostOncePerWindow` | src/mcp.rs:551-677 | A key reaches the service at most once within the time to live, successfully or not, whatever else arrives; the others get the answer of that request, or a conflict |
| `EndpointRuns.SameRequestIsReplayed` | src/mcp.rs:207-241 | Within the time to live the same request up to member order gets the answer again, and only a request for the same does |
| `EndpointRuns.OneOrderPerKey` | src/mcp.rs:551-677 | Under one key the service announces at most one order within the time to live |
| `EndpointRuns.SystemIsSane` | src/mcp.rs:261-779 | Whatever arrives over whichever protocol, the service keeps its invariant |
| `Redirect.EncodeComponent` | src/oauth.rs:425-444 | The loop over bytes builds the percent-encoding |
| `Redirect.EncodeByteMeans` | src/oauth.rs:425-451 | Letters, digits and four marks stand for themselves, every other byte as a percent sign and two upper-case hexadecimal digits |
| `Redirect.BuildRedirectUri` | src/oauth.rs:382-416 | The string-buffer procedure builds the redirect URI or refuses a blank one |
| `Redirect.DecodeEncoded` | src/oauth.rs:425-451 | Percent-decoding inverts the encoder on every byte string |
| `Redirect.RedirectRoundTrip` | src/oauth.rs:382-451 | Reading the built URI gives the original path, query as a prefix and fragment, and the exact code and state, for every base |

## Left out

- Transports, authentication, configuration, profile fetching and webhook delivery: network and environment.
- The paths that call the commerce engine (tax, promotions, shipping rates, carts, inventory): the service runs in memory.
- Concurrent requests: the program reads a session and later writes it without holding a lock, so the run theorems are about
  requests handled one after the other.
- Hash functions, JWS, base64 and signature arithmetic: a digest is the text it is taken of, a signature the key with what it covers.
- The JWT of a mandate: the outcome of its signature check is a parameter; its claims and the merchant authorization are modelled.
- UTF-8 encoding of canonical text, and the shortest-decimal printing of doubles: a double is its decimal text.
- Upper-casing of letters beyond ASCII in discount codes and currencies.
- Delivery-time estimates of the default shipping options, and the expectations listed on an order.
- The in-progress status of completion, which the code never assigns.
- Message type and content-type constants, and fields the code only copies: they are in `extra` or dropped.
- Random identifiers: a counter stands for them, so a collision with an identifier chosen by a client is not modelled.
- JSON-RPC framing, the ids of replies and tasks, and new context ids.
- Endpoints.HttpEndpoint.Handle: the reading of a body into a request, and an answer that cannot be buffered, are not modelled; what
  could be read is part of the request.
- Endpoints.McpHandler.Handle: the reading of parameters into a request is not modelled; what could be read, or the text of the
  error, is part of the request.
- Endpoints.A2aHandler.HandleSendMessage: the reading of JSON parts into their fields is not modelled; the fields, and whether a cart
  or payment could be read, are part of the message.
- The projection of orders to a negotiated set, discovery document and protocol-version check: straight field copies.
- Errors of the commerce engine, the only ones of the service with a status of 500 or above.
- OAuth codes and tokens: a smaller copy of the timed maps.
- UpdateTwice.UpdateTwiceIsOnce: as random identifiers cannot be guessed, a request must not select an option or destination by an identifier not handed out yet.
- Pricing.ApplyLegacyDiscounts: amounts beyond 64 bits, on which the program wraps, are excluded by a stated bound.
- Pricing.CalculateTotals: amounts beyond 64 bits are excluded by a stated bound.
- Checkouts.CheckoutService.CreateCheckout: amounts beyond 64 bits are excluded by a bound on the evaluated request.
- Checkouts.CheckoutService.UpdateCheckout: amounts beyond 64 bits are excluded by a bound on the evaluated request.
- Decimal.ExpandedIsExact: text that is no number, or whose digit positions leave the 32-bit range, is excluded; no double has such text.
- Decimal.InExponentFormIsExact: the same text is excluded.
- Decimal.NormalizeIsExact: the same text is excluded.
- Decimal.ParseKeepsValue: the same text is excluded.
