# Shop checkout: order creation, payment verification and the browser cart

This project models, in Dafny, the two pieces of logic of a small storefront
that carry real decisions:

- the **server's order flow** (`server/server.js`): the order-creation
  handler (`POST /api/order/create`) validates the body against its zod
  schema, checks the id format of every trimmed productId, looks the ids up
  in the product catalogue, prices every line from the catalogue, asks the
  payment gateway (Razorpay) for an order, and only then stores a `pending`
  order. The payment-verification handler (`POST /api/payment/verify`)
  recomputes the gateway's HMAC-SHA256 signature over `orderId|paymentId`
  and, on a match, marks the order with that gateway id `paid`;
- the **browser cart** (`client/src/cartContext.jsx`): a list of lines with
  the functional updates `add`, `remove`, `inc`, `dec` and the `totalPaise`
  sum.

Layout, one module per file:

- `outcomes.dfy` (`Outcomes`): `Option` and `Result`.
- `text.dfy` (`Text`): JavaScript's `trim` and `filter`.
- `schema.dfy` (`Schema`): `CreateOrderSchema` as a function from the raw
  JSON body to the parsed request or the list of zod issues.
- `pricing.dfy` (`Pricing`): id checks, catalogue lookup, subtotal and
  line snapshots, and the pricing loop as a method.
- `signature.dfy` (`Signature`): the signed message and the expected
  signature.
- `server.dfy` (`Server`): the order documents, the checks before the
  gateway call (`Check`), verification as a transition of the order store
  (`Verify`), and the class `Shop`. `Shop` holds the catalogue and the
  orders collection. Its methods `CreateOrder` and `VerifyPayment` change
  the store the way the two handlers do.
- `checkout.dfy` (`Checkout`): an end-to-end client of `Shop`. Two units of
  a 500-paise product make a 1000-paise order. A forged callback is
  refused. The genuine one marks the order paid. A replay answers the same.
  A signed callback for an unknown gateway order is not found.
- `cart.dfy` (`Cart`): the cart reducer as functions over `seq<Line>`.

The library checks and outside services are parameters of the model: the
`Shop` object is built with `mongoose.Types.ObjectId.isValid`, zod's
`email()` check, the HMAC-SHA256 hex digest and the key secret, and
`CreateOrder` receives the gateway as a function from amount and currency to
the gateway's reply. The orders collection is a sequence in insertion order;
an order's `_id` is its position, and `findOneAndUpdate` matches the first
order with the gateway id.

Behaviours of the code that the model keeps as they are:

- A missing product answers 400 (server/server.js:216).
- A gateway failure answers 400: the catch-all at server/server.js:259-263
  answers 422 only to an error carrying an `errors` property (a zod error
  does) and 400 to any other; the gateway's rejection carries none.
- Duplicate productId lines are priced separately, not merged.
- The paid update at server/server.js:137-141 filters on `rp_order_id`
  only, with no condition on the status. A second correctly signed callback
  for a paid order therefore replaces its payment id and signature
  (`PaidOrderPaymentReplaced`).
- The payment handler is registered twice (server/server.js:120 and 291).
  Express dispatches to the first, which is the one modelled.

## Model

| member | source | states |
|---|---|---|
| `Text.Trim` | server/server.js:206 | `trim` leaves no whitespace at either end of the id |
| `Text.TrimIsSlice` | server/server.js:206 | `trim` removes whitespace only, and only at the two ends: the result is a contiguous slice of the id |
| `Text.TrimIdentityIff` | server/server.js:206 | trimming changes an id exactly when it starts or ends with whitespace |
| `Text.TrimIdempotent` | server/server.js:206 | trimming twice is trimming once |
| `Text.Keep` | server/server.js:207 | `filter` never yields more elements than it is given |
| `Text.KeepMembers` | server/server.js:207 | `filter` keeps exactly the elements satisfying the predicate, and is empty exactly when none does |
| `Text.KeepCounts` | server/server.js:214 | `filter` keeps each accepted element as often as it occurs, and never a rejected one |
| `Text.KeepAppend` | server/server.js:214 | `filter` keeps order: filtering a concatenation gives the filtered parts, concatenated |
| `Schema.Parse` | server/server.js:185-204 | a body parses exactly when it is valid: at least one item, each with a string productId and a positive whole qty, and every address field present with its minimum length and a valid email. A refused body yields its non-empty issue list. A parsed one keeps every line's productId and qty in order, and its address is the client's address object as `ToAddress` reads it |
| `Schema.ToLine` | server/server.js:186-188 | a parsed line keeps the client's productId string unchanged and a qty that is the client's number, a whole number of at least 1 |
| `Schema.ToAddress` | server/server.js:190-199 | every parsed address field is the client's string, untrimmed; an absent `line2` becomes `""`; the result meets every minimum length and the email check |
| `Schema.Issues` | server/server.js:185-200 | zod reports no issue exactly for the bodies the schema accepts, and every issue under `items` comes before every issue under `address` |
| `Schema.ItemsIssues` | server/server.js:186-189 | the issues under `items` are empty exactly for a non-empty array of valid lines, and every one has an `items` path |
| `Schema.AddressIssues` | server/server.js:190-199 | the issues under `address` are empty exactly for an address object meeting every field's check, and every one has an `address` path |
| `Schema.ItemIssuesEmptyIff` | server/server.js:186-188 | one element of `items` reports no issue exactly when its productId is a string and its qty a positive whole number |
| `Schema.ItemsIssuesFromEmptyIff` | server/server.js:186-189 | the item issues are empty exactly when every item is valid |
| `Schema.EmptyItemsRejected` | server/server.js:189 | an empty `items` array is refused with a `too_small` issue on `items` |
| `Schema.BadQtyReported` | server/server.js:188 | a fractional qty is reported as not an integer, and a qty of zero or less as not positive, at that line's index |
| `Schema.ParseIgnoresClientPrice` | server/server.js:185-189 | a price the client attaches to a line never changes what the schema yields |
| `Pricing.TrimIds` | server/server.js:206 | one checked line per request line; line by line, every id is trimmed and every qty kept. That each id is the trim of the request's is `TrimIdsKeysEachLine`'s |
| `Pricing.TrimIdsKeysEachLine` | server/server.js:206 | element by element: the keyed line's productId is `trim` of the request's and its qty is the request's |
| `Pricing.InvalidIds` | server/server.js:207-208 | the invalid list holds exactly the ids failing the format check; it is empty exactly when every id passes |
| `Pricing.InvalidIdsKeepRepeats` | server/server.js:207-209 | a bad id appears in the error as many times as the request carries it; a good one never |
| `Pricing.Lookup` | server/server.js:212-213 | the looked-up map holds exactly the requested ids present in the catalogue, with their catalogue rows |
| `Pricing.MissingIds` | server/server.js:214-215 | the missing list holds exactly the requested ids the lookup did not return; it is empty exactly when every id was found |
| `Pricing.MissingIdsKeepRepeats` | server/server.js:214-216 | a missing id appears in the error as many times as the request carries it; a found one never |
| `Pricing.InvalidIdsInOrder` | server/server.js:207-209 | the invalid ids are reported in request order: those of a request's first part come before those of the rest |
| `Pricing.MissingIdsInOrder` | server/server.js:214-216 | the missing ids are joined in request order: those of a request's first part come before those of the rest |
| `Pricing.NoneMissingIffAllFound` | server/server.js:214-221 | an empty missing list is the same as every line resolving to a looked-up product |
| `Pricing.PriceLines` | server/server.js:219-224 | the loop yields one snapshot per request line, in order, and the subtotal of catalogue price times qty over all lines |
| `Pricing.Snapshot` | server/server.js:220-224 | one order item per request line |
| `Pricing.SnapshotCopiesCatalogue` | server/server.js:220-224 | each order item has its line's productId and qty and the catalogue row's title and price |
| `Pricing.SubtotalNonNegative` | server/server.js:219-224 | with no negative catalogue price, the subtotal is never negative |
| `Pricing.SubtotalIsItemsTotal` | server/server.js:219-235 | the stored subtotal equals the sum of the stored item snapshots |
| `Pricing.SubtotalAppend` | server/server.js:219-224 | lines are priced independently: the subtotal of two carts joined is the sum of their subtotals |
| `Pricing.DuplicateLinesCountedSeparately` | server/server.js:219-224 | two lines for the same product are each charged and each snapshotted; they are not merged |
| `Pricing.PricesComeFromCatalogue` | server/server.js:221-223 | subtotal and snapshot depend only on the catalogue rows of the requested ids |
| `Pricing.PriceAsWritten` | server/server.js:220-222 | as written, pricing succeeds exactly when every untrimmed productId is a looked-up key |
| `Pricing.AsWrittenAgreesOnTrimmedIds` | server/server.js:206-222 | for ids that arrive trimmed, the lookup as written and the lookup by trimmed id give the same snapshot |
| `Pricing.PaddedIdFailsAsWritten` | server/server.js:206-222 | for the id `" p1"` the trimmed id `p1` is in the catalogue, so nothing is missing, yet the lookup as written fails; looked up by its trimmed id, the line is priced at 1000 |
| `Signature.Message` | server/server.js:129 | the signed message is the order id, one `|`, then the payment id |
| `Signature.MessageDeterminesPair` | server/server.js:127-132 | for order ids without `|`, a message names exactly one (order, payment) pair |
| `Signature.SeparatorInOrderIdIsAmbiguous` | server/server.js:129 | with a `|` inside an order id, two different pairs share one message and so one signature |
| `Server.FirstWithGatewayId` | server/server.js:137-138 | the matched order is the first stored with that gateway id; no match means no order has it |
| `Server.MatchDependsOnlyOnGatewayIds` | server/server.js:137-138 | which order is matched depends only on the gateway ids stored, not on status or payment fields |
| `Server.MarkPaid` | server/server.js:139 | the update sets status `paid`, the payment id and the signature, and keeps items, address, subtotal and gateway id |
| `Server.Verify` | server/server.js:120-145 | The response is decided in order. A missing or empty field answers "Missing fields", exactly then. With all three present, a signature differing from the HMAC of `orderId|paymentId` answers "Invalid signature", exactly then. With a correct signature, the answer is not-found exactly when no order has the gateway id. Otherwise it is success, naming the first order with that id, and only that order is changed. Any response but success leaves the store as it was |
| `Server.VerifiedOrderIsPaid` | server/server.js:136-144 | after a match the order is paid with the callback's payment id and signature, and its items and subtotal are unchanged |
| `Server.VerifyPreservesInvariant` | server/server.js:136-141 | verification keeps every stored order well formed: subtotal equals its items, each qty at least 1, pending exactly when unpaid |
| `Server.VerifyReplayIdempotent` | server/server.js:137-144 | replaying a callback gives the same response and leaves the store as the first call left it |
| `Server.PaidOrderPaymentReplaced` | server/server.js:137-141 | a second correctly signed callback for a paid order answers success and overwrites its payment id and signature |
| `Server.Check` | server/server.js:204-217 | Checks run in order: schema, then id format, then lookup. A body failing the schema gets exactly the schema's issue list, and only such a body gets a schema rejection. A body passing it gets the outcome of the id checks on its parsed lines and address. A request passing all three has trimmed, valid ids, and every one resolves to a catalogue row |
| `Server.Resolve` | server/server.js:206-217 | After the schema, the request passes exactly when no trimmed id fails the format check and none is missing from the catalogue. Otherwise it is refused with the non-empty list of ids failing the format check, if any. Failing that, it is refused with the non-empty list of ids the lookup misses. A request passing both keeps its trimmed lines, each resolving to a catalogue row |
| `Server.EarlyRejectionIgnoresCatalogue` | server/server.js:204-212 | a schema or id-format rejection is the same whatever the catalogue holds: it is decided before any lookup |
| `Server.MissingProductsListed` | server/server.js:212-217 | a not-found rejection lists exactly the well-formed trimmed ids absent from the catalogue |
| `Server.PendingOrder` | server/server.js:219-238 | a newly stored order is well formed: pending, with no payment id or signature. Its items are the catalogue snapshots, one per request line, with the line's productId and qty and the catalogue's title and price. Its subtotal equals its items' sum |
| `Server.CreateResult.HttpStatus` | server/server.js:209-262 | the order handler answers 200 exactly on creation, 422 exactly on a schema rejection, and 400 on every other failure |
| `Server.VerifyResult.HttpStatus` | server/server.js:124-144 | the verify handler answers 200 exactly on success, 404 exactly when no order matches, and 400 for a missing field or a bad signature |
| `Server.Shop.CreateOrder` | server/server.js:202-264 | A failed check answers with that check's rejection, stores nothing and never asks the gateway. A passed check asks the gateway exactly once, for the subtotal. A gateway refusal stores nothing either. Otherwise exactly one `pending` order is appended, with the catalogue snapshots, the parsed address, the subtotal and the gateway's order id. The response carries that order's id and the gateway order |
| `Server.Shop.PlaceOrder` | server/server.js:219-257 | after the checks: the gateway is asked exactly once, for the subtotal; a gateway refusal answers with its message and stores nothing; an issued gateway order for the subtotal appends exactly one pending order built from the catalogue snapshots, and the response names it |
| `Server.Shop.VerifyPayment` | server/server.js:120-145 | response and new store are those of `Verify` on the old store, and every order stays well formed |
| `Cart.Add` | client/src/cartContext.jsx:9-28 | after `add` the cart holds the product's id; it grows by one line exactly when the id was new |
| `Cart.AddExisting` | client/src/cartContext.jsx:11-15 | adding a product already in the cart bumps that line's qty by one; every other line and the order stay |
| `Cart.AddNew` | client/src/cartContext.jsx:17-26 | adding a new product appends exactly one line `{id, title, pricePaise, img, qty: 1}` at the end |
| `Cart.AddPreservesValid` | client/src/cartContext.jsx:9-27 | `add` keeps ids unique and every qty at least 1 |
| `Cart.Inc` | client/src/cartContext.jsx:32-35 | `inc` keeps the number of lines, and each line's id and price |
| `Cart.IncBumps` | client/src/cartContext.jsx:32-35 | `inc` adds one unit to the line with that id; every other line and the order stay |
| `Cart.IncUnknownIsIdentity` | client/src/cartContext.jsx:32-35 | `inc` of an id not in the cart leaves it unchanged |
| `Cart.IncPreservesValid` | client/src/cartContext.jsx:32-35 | `inc` keeps ids unique and every qty at least 1 |
| `Cart.Dec` | client/src/cartContext.jsx:37-42 | `dec` keeps the number of lines and each line's id and price, and leaves every matching line with at least one unit |
| `Cart.DecPreservesValid` | client/src/cartContext.jsx:37-42 | `dec` keeps ids unique and every qty at least 1 |
| `Cart.DecClamped` | client/src/cartContext.jsx:37-42 | `dec` keeps the number of lines; a matching line is the same line with its qty lowered by one, except that a line at 1 stays at 1; every other line is unchanged |
| `Cart.DecAtOneIsIdentity` | client/src/cartContext.jsx:40 | `dec` on a line holding one unit changes nothing, so repeating it is idempotent |
| `Cart.Remove` | client/src/cartContext.jsx:30 | `remove(id)` leaves no line with that id, never adds a line and never lengthens the cart |
| `Cart.RemovePreservesValid` | client/src/cartContext.jsx:30 | after `remove(id)` no line has that id, and the cart stays valid |
| `Cart.RemoveKeepsUniqueIds` | client/src/cartContext.jsx:30 | `remove` keeps the ids of the remaining lines unique |
| `Cart.RemoveLine` | client/src/cartContext.jsx:30 | with unique ids, removing the line at position k leaves the lines before and after it, in their order |
| `Cart.RemoveAbsent` | client/src/cartContext.jsx:30 | removing an id no line has leaves the cart unchanged |
| `Cart.TotalEmpty` | client/src/cartContext.jsx:44-47 | the total of the empty cart is 0 |
| `Cart.TotalNonNegative` | client/src/cartContext.jsx:44-47 | with no negative price or qty on any line, the total is never negative |
| `Cart.TotalAppend` | client/src/cartContext.jsx:44-47 | the total of two carts joined is the sum of their totals |
| `Cart.TotalAround` | client/src/cartContext.jsx:44-47 | the total is the lines before k, plus line k's price times qty, plus the lines after k |
| `Cart.PriceOfAbsent` | client/src/cartContext.jsx:32-47 | an id no line has contributes no price to what `inc` adds to the total |
| `Cart.PriceOfUnique` | client/src/cartContext.jsx:32-47 | with unique ids, the price `inc` adds for a line's id is that line's price |
| `Cart.TotalInc` | client/src/cartContext.jsx:32-47 | `inc` raises the total by the price of the bumped line, and by nothing for an unknown id |
| `Cart.TotalAdd` | client/src/cartContext.jsx:9-47 | `add` raises the total by one unit: at the product's price for a new line, at the price already on the cart's line for that id otherwise |
| `Cart.TotalRemove` | client/src/cartContext.jsx:30-47 | with unique ids, `remove` lowers the total by exactly that line's price times qty |
| `Cart.RunPreservesValid` | client/src/cartContext.jsx:9-42 | any sequence of `add`, `remove`, `inc`, `dec` keeps ids unique and every qty at least 1 |
| `Cart.EveryCartValid` | client/src/cartContext.jsx:7-42 | every cart reachable from the empty one has unique ids and quantities of at least 1 |
| `Cart.Count` | client/src/component/Navbar.jsx:8 | with quantities of at least 1, the navigation bar's item count is at least the number of lines |

## Findings

| source | as written | input that shows it | evidently intended | confidence | as-written member | corrected member |
|---|---|---|---|---|---|---|
| server/server.js:221 | each line is looked up with `byId.get(i.productId)`, the untrimmed id. Validation and the catalogue query (lines 206-214) used the trimmed id | a line whose productId is a valid id with a leading space, e.g. `" p1"` (`Pricing.PaddedIdFailsAsWritten`). It passes both checks, then reading `pricePaise` of `undefined` throws, and the request ends in a 400 | look each line up by the trimmed id the checks approved | medium, not executed | `Pricing.PriceAsWritten` | `Server.Check` |

`CreateOrder` uses the corrected lookup. `Check` keys every line by its
trimmed id, and its contract guarantees that every line of a request that
passed the checks resolves to a catalogue row. For ids that arrive already
trimmed, which is what the shop's own client sends, the two lookups agree
(`Pricing.AsWrittenAgreesOnTrimmedIds`).

## Left out

- HMAC-SHA256, `ObjectId.isValid` and zod's `email()` are not modelled
  inside. They are function parameters: the model captures only the
  message `orderId + "|" + paymentId` and the equality test.
- MongoDB and Razorpay are not called. The catalogue is a map and the
  orders collection a sequence, and neither ever fails. Errors thrown by
  `Product.find` or `Order.create` (also answered with 400, since they
  carry no `errors` property) are not
  modelled.
- The gateway is a function of amount and currency. The receipt
  `"rcpt_" + Date.now()` depends on the clock and is left out.
- Mongoose casts the ids of the `$in` query to ObjectIds, so an upper-case
  hex id would be found and then reported missing by `byId.has`. The model
  looks ids up by exact string. A document's `_id` is modelled as its
  position in the collection.
- JSON numbers are exact reals and integers here. Double-precision rounding
  of quantities, prices and subtotals beyond 2^53 is not modelled.
- zod's `min` counts UTF-16 code units; the model counts Unicode scalar
  values. Elements of `items` that are not objects are not modelled.
- Verify fields that are present but not strings are not modelled. Such a
  value would be coerced by `+`; a field is either absent/null or a string.
- Concurrency: each handler runs as one atomic step on the store, so
  interleavings of concurrent callbacks are not modelled.
- Timestamps (`createdAt`, `updatedAt`) are not modelled.
- Best-effort emails (server/server.js:241-254 and 317-331) never change the
  outcome and are not modelled. So are the second registration of the
  verify handler, the other routes (`/api/orders`, `/api/qr`, `/api/_seed`,
  `/api/products`, `/api/_debug`, `/test-email`) and the server setup.
- The React side is modelled only in `cartContext.jsx`'s list updates:
  `useState` scheduling, `useMemo` and the UI components are not modelled.
