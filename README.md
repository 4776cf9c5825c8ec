# Checkout payment flow: order intent and webhook reconciliation

A Dafny model of the two request handlers of a storefront's Razorpay checkout.

- **Order-intent builder** (`app/api/create-razorpay-order/route.ts`, module `OrderIntent`). It validates a cart and a customer. It computes the charge in paise as 100 × Σ price·quantity and builds the gateway's order options: currency "INR", a time-derived receipt, and a notes bag holding the customer's fields and the item list. It makes one call to the gateway and maps the outcome to 200, 400 or 500. Every response carries the same cross-origin header set; `OPTIONS` answers 204.
- **Webhook reconciler** (`app/api/webhooks/route.ts`, module `Webhook`). Each delivery is checked against the HMAC-SHA256 of its raw body and is then parsed. On `"order.paid"` only, it inserts one Order and then upserts the Customer keyed by `clerkId`. An existing customer gets the new id appended to its orders; otherwise a new customer is created with that id alone. Any failure maps to 500.

Files:

- `shared.dfy` (`Shared`): the option type, the notes' item record, the gateway's order handle and the HTTP response.
- `order_intent.dfy` (`OrderIntent`): the builder, written as pure functions. This is the source's form: guards, a `reduce`, a `map` and an object literal. The gateway is a function parameter. `Post` returns the response together with the list of options it sent to the gateway, so "the gateway is not called" is stated as that list being empty. The current time is a parameter.
- `order_store.dfy` (`OrderStore`): an in-memory stand-in for the Order and Customer collections.
  - It holds an append-only order sequence, a `clerkId` → customer map and a fresh-id supply.
  - The pure transitions are `AddOrder` and `PutCustomer`.
  - Class `Database` has methods for the order save, the customer lookup and the customer save. Each method takes a flag that makes that operation fail.
- `webhook.dfy` (`Webhook`): the reconciler.
  - `Config` holds the secret and three collaborators as function values: the keyed hash `hmac(secret, body)`, the envelope decoder and the item-list decoder.
  - `Receive` gives the response and the new store for one delivery.
  - `HandleWebhook` performs the same steps one at a time against a `Database` (save the order, look up the customer, save it) and is proved to end in the state `Receive` gives.
- `end_to_end.dfy` (`EndToEnd`): what the webhook records when the gateway echoes the builder's options back faithfully.

Collaborators taken as parameters:

- the `hmac` function;
- both JSON decoders (`None` means parsing threw);
- the gateway reply;
- `Date.now()`;
- one `Faults` value per delivery: connect, order save, lookup, customer save.

Facts about the code that the model keeps as written:

- A cart of one line priced 500 with quantity 2 sends 100000 paise, because the code multiplies the major-unit total by 100 (`OrderIntent.ExampleAmount`).
- The signature comparison is a plain `!==`, not a constant-time one; the model compares for equality.
- The builder never writes `street`, `city`, `state`, `postal_code` or `country` into the notes, yet the webhook reads them. In the model these fields are optional. `EndToEnd.PaidOrderMatchesCheckout` shows that an order created through the builder therefore has an empty shipping address.

## Model

| member | source | states |
|---|---|---|
| OrderIntent.Validate | app/api/create-razorpay-order/route.ts:23-29 | the cart guard is checked first: "no items" exactly when `cartItems` is missing, not an array or empty; "incomplete customer" exactly when the cart is present and the customer or any of `clerkId`, `email`, `name`, `shippingRate` is missing or empty; no rejection otherwise |
| OrderIntent.EmptyCartRejected | app/api/create-razorpay-order/route.ts:23-25 | a missing, non-array or empty cart gives 400 "No items in cart" with the CORS headers and no gateway call, whatever the customer (so the cart error wins over the customer error) |
| OrderIntent.IncompleteCustomerRejected | app/api/create-razorpay-order/route.ts:27-29 | with a cart present, a missing customer or a missing/empty `clerkId`, `email`, `name` or `shippingRate` gives 400 "Incomplete customer information" and no gateway call |
| OrderIntent.UnreadableRequestFails | app/api/create-razorpay-order/route.ts:21-61 | a body that is not JSON, or a cart entry without its `item` object (the total's read throws), gives 500 and no gateway call |
| OrderIntent.CalculateTotalAmount | app/api/create-razorpay-order/route.ts:60-62 | `calculateTotalAmount` as the left fold of price × quantity from 0; with prices ≥ 0 and quantities ≥ 1 the total is ≥ 0 (proved by induction through the recursive call's contract); `TotalOfConcat` and `TotalOfSingleton` pin down its value as the sum Σ price·quantity |
| OrderIntent.TotalOfConcat | app/api/create-razorpay-order/route.ts:60-62 | the total of a concatenation of carts is the sum of their totals |
| OrderIntent.TotalOfSingleton | app/api/create-razorpay-order/route.ts:60-62 | a single-line cart totals price × quantity |
| OrderIntent.EncodeItems | app/api/create-razorpay-order/route.ts:42-47 | the item list has the cart's length and order; each entry copies product id and quantity; a missing or empty color/size becomes "N/A" and a present one is kept |
| OrderIntent.DecimalString | app/api/create-razorpay-order/route.ts:36 | the timestamp in the receipt is rendered as a non-empty string of decimal digits that reads back (left to right, base 10) as the timestamp itself, one digit exactly when it is below 10, and with no leading zero |
| OrderIntent.ReceiptsDistinct | app/api/create-razorpay-order/route.ts:36 | two different timestamps give two different receipts |
| OrderIntent.BuildOrderOptions | app/api/create-razorpay-order/route.ts:31-49 | the order options: amount = 100 × `CalculateTotalAmount`, hence a whole number of major units; currency "INR"; a receipt made of "receipt_order_" followed by digits reading back as the timestamp; notes with the customer's `clerkId`, `name`, `email`, `shippingRate` unchanged and the `EncodeItems` list. `ValidRequestCallsGatewayOnce` shows these are exactly what is sent |
| OrderIntent.ValidRequestCallsGatewayOnce | app/api/create-razorpay-order/route.ts:31-53 | a valid request makes exactly one gateway call: amount = 100 × total, currency "INR", receipt "receipt_order_" + timestamp, the notes carry `clerkId`, `name`, `email`, `shippingRate` unchanged and the encoded items; a created order is returned verbatim with 200, a failed call gives 500 |
| OrderIntent.Post | app/api/create-razorpay-order/route.ts:19-58 | every response carries the CORS header set; status is 200, 400 or 500; at most one gateway call, none on 400; 200 exactly when one call was made and it succeeded, with that call's order as the body |
| OrderIntent.Options | app/api/create-razorpay-order/route.ts:9-17 | `OPTIONS` answers 204 with no body and the CORS header set |
| OrderIntent.ExampleAmount | app/api/create-razorpay-order/route.ts:31-62 | one line priced 500 with quantity 2 sends 100000 minor units and one item entry with "N/A" color and size |
| OrderStore.AddOrderFresh | app/api/webhooks/route.ts:45-53 | inserting an order (`AddOrder`) appends exactly one order after the unchanged earlier ones, under an id no stored order has and no customer refers to; it keeps the store well formed and leaves customers unchanged |
| OrderStore.PutCustomerOnlyThatKey | app/api/webhooks/route.ts:66 | saving a customer (`PutCustomer`) stores it under its `clerkId` and leaves every other customer and all orders unchanged; the store stays well formed when the customer refers only to handed-out order ids |
| OrderStore.Database.SaveOrder | app/api/webhooks/route.ts:53 | on success the order is appended with the supply's next id, which is returned; on failure nothing changes |
| OrderStore.Database.FindCustomer | app/api/webhooks/route.ts:55 | a lookup by `clerkId` finds the customer stored under that key, reports none when there is none, and reports a failure when the store fails |
| OrderStore.Database.SaveCustomer | app/api/webhooks/route.ts:66 | on success the customer is stored under its `clerkId`, on failure nothing changes; orders never change. The stand-in store accepts only documents that refer to handed-out order ids |
| Webhook.SignatureValid | app/api/webhooks/route.ts:13-18 | the signature header equals `hmac(secret, rawBody)`; an absent header never passes |
| Webhook.Linked | app/api/webhooks/route.ts:55-64 | the customer document to save ends with the new id. A found customer keeps its `clerkId`, name and email, and its earlier orders precede the id. Otherwise a new document carries the notes' `clerkId`, name and email with orders [id] |
| Webhook.Receive | app/api/webhooks/route.ts:8-74 | one delivery as a function of the store before it. The response is 200 "Order created" or 500. The orders either stay as they were or gain exactly one order under the supply's next id after the unchanged earlier ones. Nothing is written unless the delivery is correctly signed, parses and is "order.paid". A customer is written only on 200. A well-formed store stays well formed. The lemmas below characterise each path |
| Webhook.TotalAmount | app/api/webhooks/route.ts:50 | a present, non-zero `amount` gives a total t with t × 100 = amount; an absent or zero amount gives 0 |
| Webhook.ReadPayment | app/api/webhooks/route.ts:25-41 | an "order.paid" event yields the data to record exactly when its entity and notes are present and its item list parses |
| Webhook.HandleWebhook | app/api/webhooks/route.ts:8-74 | the step-by-step handler (order save, customer lookup, push or create, customer save) ends with the response and store state that `Receive` gives, and keeps the store well formed |
| Webhook.InvalidSignatureChangesNothing | app/api/webhooks/route.ts:13-20 | a signature other than `hmac(secret, rawBody)`, or no signature header, gives 500 and changes neither the orders nor the customers |
| Webhook.MalformedPayloadChangesNothing | app/api/webhooks/route.ts:22 | a correctly signed body that does not parse gives 500 and no write |
| Webhook.OtherEventsIgnored | app/api/webhooks/route.ts:24-69 | a correctly signed event of any type other than "order.paid" gives 200 and no write |
| Webhook.FailureBeforeOrderSaveChangesNothing | app/api/webhooks/route.ts:25-53 | on "order.paid", a missing entity or notes, an unparsable item list, a failed connection or a failed order save gives 500 and no write |
| Webhook.PaidEventRecordsOrder | app/api/webhooks/route.ts:27-66 | on a well-formed "order.paid" with no store failure, the result is 200 and exactly one order is appended. Its id is fresh among the stored orders and among the ids customers refer to; its `customerClerkId`, `products`, address, `shippingRate` and `totalAmount` are taken from the event. An existing customer keeps its name and email and its orders become old ++ [id]; otherwise a customer is created from the notes with orders [id]. The id ends up in that customer's list; every other customer is unchanged |
| Webhook.RedeliveryDuplicatesOrder | app/api/webhooks/route.ts:45-66 | the same "order.paid" processed twice adds two orders with identical fields and distinct ids, and the customer's list gains both ids in order: there is no de-duplication |
| Webhook.RedeliveryOnEmptyDatabase | app/api/webhooks/route.ts:45-66 | running the handler twice on an empty database with the same paid delivery leaves orders 0 and 1 with the same fields read from the event, and a single customer whose list is [0, 1] |
| Webhook.CustomerFailureKeepsOrder | app/api/webhooks/route.ts:53-72 | a failed customer lookup or customer save after the order save gives 500, the new order stays in the store (no rollback) and customers are unchanged |
| Webhook.ExampleTotal | app/api/webhooks/route.ts:50 | an amount of 100000 is recorded as a total of 1000 |
| EndToEnd.TotalSurvivesGateway | app/api/create-razorpay-order/route.ts:31 | dividing the builder's amount, 100 × total, by 100 on the webhook side gives back the cart total exactly |
| EndToEnd.PaidOrderMatchesCheckout | app/api/webhooks/route.ts:27-66 | when the gateway echoes the builder's options and decoding inverts encoding, the recorded order carries the request's `clerkId`, `shippingRate`, encoded items and cart total, with an empty address, and the customer's list ends with its id |

## Left out

- HMAC-SHA256 (RFC 2104 with SHA-256 from FIPS 180-4) is not computed: it is the function `hmac` in `Webhook.Config`. The comparison is plain equality, as in the source.
- `JSON.parse` and `JSON.stringify` are not modelled. The envelope decoder and the item-list decoder are functions in `Webhook.Config` that may fail. The builder's item list stays structured; `EndToEnd` takes an `encode` function with `decode(encode(xs)) = xs` as a hypothesis.
- The Razorpay client and its network call are not modelled; the gateway is a function `OrderOptions -> GatewayReply`. The unused `razorpay` import of the webhook route is dropped.
- MongoDB, the Mongoose models and their schemas (`lib/models/Order`, `lib/models/Customer`) are not part of this model: the in-memory `Database` replaces them. Schema defaults are left out, such as a creation timestamp and schema validation. A Mongoose document updated in place by `customer.orders.push` is modelled as a value that is changed and then written back.
- Order ids are taken from the store's counter when the insert succeeds. Mongoose creates the ObjectId when the document is constructed, but a failed save leaves nothing observable.
- `Date.now()` is the parameter `now`.
- JavaScript number semantics are not modelled. Prices, quantities and amounts are integers; the webhook's `amount / 100` is exact rational division (`real`), stated as t × 100 = amount. A fractional price would give a non-integer amount in the source; this model cannot express one.
- Values of the wrong JavaScript type are not modelled. Examples are a non-string `clerkId`, a non-numeric price or quantity, and a numeric event type.
- Missing values are modelled only for these: `cartItems` (also when not an array), `customer` and its `clerkId`, `email`, `name` and `shippingRate`, a cart entry's `item`, `color` and `size`, the webhook's signature header, `payload.payment.entity`, `notes`, `amount` and the five address fields.
- A cart entry whose `item` lacks `price` or `_id`, or that lacks `quantity`, is not modelled. Every field of `Product` and `CartItem.quantity` is mandatory in the model. In the source such an entry makes the amount `NaN` or leaves fields undefined, and the gateway is still called.
- `OrderStore.Database.constructor` builds an empty store. It has no counterpart in the source, where `connectToDB()` reaches a store that already holds data. It serves `Webhook.RedeliveryOnEmptyDatabase`; `HandleWebhook` accepts any store satisfying `Valid()`, and `Faults.connect` stands for a failed connection.
- Webhook notes missing `clerkId`, `name`, `email`, `shippingRate` or `orderItems` are not modelled; these are strings in the model because the builder always writes them. Only the address fields are optional.
- `console.log` logging, environment-variable loading, HTTP plumbing beyond status, body and headers, and concurrent deliveries are not modelled.
