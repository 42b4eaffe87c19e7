# Storefront services: catalog, cart and payment

This project models the three back-end services of a small storefront and
proves properties of the model:

- **Catalog** (`catalog.dfy`): a constant table of five products and lookups
  in it by id.
- **Payment** (`payment.dfy`): `POST /process` checks the request. It then
  either returns a simulated failure from a fixed table of four, or appends
  a completed record to an append-only log. `GET /payments/<order_id>` reads
  the log.
- **Cart** (`cart.dfy`): one cart per user in a keyed store.
  `POST /cart/<user_id>/add` upserts a line by product id and recomputes the
  total. `POST /cart/<user_id>/checkout` runs a fixed decision chain: the
  empty-cart check, the chaos gate, the payment call, and clearing the cart
  exactly when payment answers 200.
- **Storefront** (`storefront.dfy`): how the cart reads the other services'
  replies, a checkout that runs through both stateful services, and three
  worked examples written as client code.

The model keeps the services' own form. The cart store and the payment log
are classes whose fields the handlers reassign: `CartStore.carts` is a
`map`, and `PaymentProcessor.processed` is a `seq`. The search for an
existing cart line is a loop (`Cart.FindItem`). The catalog, the cart total
and the payment lookup are functions.

Random or remote outcomes are inputs:

- `Cart.CatalogReply`: the product, any non-200 status, or a transport error (which includes a body that is not JSON).
- `Cart.PaymentReply`: a status with the `order_id` of a JSON body, a timeout, or another transport error. A reply whose body is not JSON is a transport error, because decoding it raises a request exception (services/cart/app.py:125, 140 and 145; the catalog's reply likewise at lines 50 and 93).
- `chaos`: the checkout's 5% roll.
- `Payment.Draw`: the payment's failure roll and which table entry was chosen.
- `orderId`: the uuid of a new order.

The cart's Redis backing and its in-memory dictionary are modelled as one
map. After a successful payment the model stores an empty cart, as the
in-memory backing does. `Cart.DeleteMatchesReset` proves that deleting the
key instead, as the Redis backing does, looks the same to both
`GET /cart/<user_id>` and checkout.

Two details of the code shape the model:

- The add handler does not validate `quantity` (services/cart/app.py:44,
  66, 72). A line may have quantity 0 or below, and a total may be negative
  (`Cart.NegativeQuantityGivesNegativeTotal`). When every added line has a
  positive price and a quantity of at least one, every line stays positive
  and a non-empty cart's total is positive (`Cart.PositiveTotal`,
  `Cart.AddLineKeepsPositive`).
- The payment service rejects a falsy `amount`, not only a missing one
  (services/payment/app.py:33). So a checkout of a cart whose total is 0
  gets the payment service's 400 passed through.

The catalog is modelled from its code.

## Model

| member | source | states |
|---|---|---|
| `Catalog.TableWellFormed` | services/catalog/app.py:10-16 | the table's ids are 1..5 in order, no two are equal, and every price is a positive integer |
| `Catalog.FindProduct` | services/catalog/app.py:36 | the result is none exactly when no entry has the id; otherwise it is the first entry with that id |
| `Catalog.FindProductUnique` | services/catalog/app.py:10-16 | with distinct ids, looking up an entry's id yields exactly that entry, so the lookup is deterministic |
| `Catalog.GetProduct` | services/catalog/app.py:34-39 | 200 with a table entry carrying the id exactly when one exists, otherwise 404 |
| `Catalog.GetProductReturnsEntry` | services/catalog/app.py:36-38 | every table entry is what `GET /products/<id>` returns for its id |
| `Catalog.GetProducts` | services/catalog/app.py:22-32 | the listing is the whole table, and `total` is its length, 5 |
| `Payment.FailureTable` | services/payment/app.py:41-54 | a simulated failure has a code in {504, 402, 503, 400}, each with its own message |
| `Payment.SuccessStatus` | services/payment/app.py:33-76 | the service answers 200 exactly when the payment was processed |
| `Payment.FindPayment` | services/payment/app.py:80 | none exactly when no record has the order id; otherwise a record with that id that is at or before every record with it, which makes it the first |
| `Payment.FindAppendedPayment` | services/payment/app.py:57-80 | after appending a record whose order id is new, looking that id up yields that record |
| `Payment.FindAfterAppend` | services/payment/app.py:67-80 | appending a record changes no earlier lookup result, except a miss on the new record's own id |
| `Payment.PaymentProcessor.constructor` | services/payment/app.py:21 | the log starts empty |
| `Payment.PaymentProcessor.ProcessPayment` | services/payment/app.py:27-76 | falsy `user_id` or `amount` gives 400 and no append; a drawn failure gives that table entry and no append; otherwise exactly one record `{order_id, user_id, amount, "completed"}` is appended at the end, and the reply carries its order id and amount; the old log is always a prefix of the new one |
| `Payment.PaymentProcessor.GetPayment` | services/payment/app.py:78-83 | 404 exactly when no record has the order id, otherwise 200 with the first such record |
| `Payment.PayThenLookUp` | services/payment/app.py:56-83 | a successful payment under a fresh order id is read back by that id with the same order id and amount |
| `Cart.Lookup` | services/cart/app.py:33-37 | the stored cart if there is one, else the cart with no items and total 0 |
| `Cart.CartStore.GetCart` | services/cart/app.py:31-38 | `GET /cart/<user_id>` shows the stored cart or the empty default and stores nothing; a shown cart satisfies the cart invariant |
| `Cart.DeleteMatchesReset` | services/cart/app.py:126-129 | deleting a user's cart and storing an empty one give the same cart view and the same checkout emptiness test for every user |
| `Cart.TotalAppend` | services/cart/app.py:75-77 | appending a line raises the total by its price times its quantity |
| `Cart.TotalIncrement` | services/cart/app.py:65-77 | raising one line's quantity by q raises the total by that line's price times q |
| `Cart.AddExistingLine` | services/cart/app.py:62-66 | adding a product already in the cart raises only the first matching line's quantity; the line count and all other lines are unchanged |
| `Cart.AddNewLine` | services/cart/app.py:67-73 | adding a product not in the cart appends exactly the new line at the end |
| `Cart.AddLineKeepsUnique` | services/cart/app.py:62-73 | adding keeps the lines' product ids distinct |
| `Cart.PositiveTotal` | services/cart/app.py:75-77 | lines with positive prices and quantities give a non-negative total, positive if any line exists |
| `Cart.AddLineKeepsPositive` | services/cart/app.py:62-73 | adding a line with positive price and quantity keeps every line positive |
| `Cart.NegativeQuantityGivesNegativeTotal` | services/cart/app.py:44-77 | an unchecked quantity of -1 gives a consistent cart whose total is -999 |
| `Cart.FindItem` | services/cart/app.py:62-63 | the index of the first line with the product id, or none exactly when no line has it |
| `Cart.StoreConsistent` | services/cart/app.py:80-83 | storing a consistent cart keeps every stored cart consistent |
| `Cart.CartStore.constructor` | services/cart/app.py:25 | the store starts with no carts and satisfies the invariant |
| `Cart.CartStore.AddToCart` | services/cart/app.py:40-93 | when the catalog finds the product, the user's cart becomes the upsert of the line (the catalog's name and price, quantity default 1) with the total recomputed, and only that user's entry changes; any other catalog status gives 404, and a transport error gives 503, both with the store unchanged; every stored cart keeps total = sum of price x quantity and distinct product ids |
| `Cart.CartStore.Checkout` | services/cart/app.py:95-146 | an absent or empty cart gives 400, then the chaos gate gives 503, both without a payment call and with the store unchanged; otherwise `{user_id, total, line count}` is sent, and 200 clears the cart and returns the order id and the pre-checkout total; any other status is passed through, a timeout gives 504 and a transport error 503, all three with the store unchanged; the store changes exactly when checkout succeeds |
| `Storefront.CatalogReplyOf` | services/cart/app.py:48-50 | the cart takes a product exactly from a 200 catalog reply |
| `Storefront.KnownProductIsFound` | services/cart/app.py:48-50 | a table product reaches the cart with its own name and positive price |
| `Storefront.UnknownProductIsNotFound` | services/cart/app.py:90-91 | an id missing from the table reaches the cart as not found, so the add gives 404 |
| `Storefront.PaymentReplyOf` | services/cart/app.py:123-141 | the cart sees status 200 exactly for a processed payment, and then its order id |
| `Storefront.PlaceOrder` | services/cart/app.py:112-146 | a cart is consumed only together with exactly one new payment record for its user, its total and the returned order id; with the reply delivered, a new record always consumes the cart, a drawn failure passes its table code through, and a falsy user id or zero total passes 400 through, both keeping the cart and recording nothing; a refused connection, the chaos gate and an empty cart record nothing; a timeout after an approved payment leaves the payment recorded and the cart not consumed, so there the source breaks the link between payment and clearing the cart |

## Left out

- The gateway service is not part of this model. It forwards requests, maps exceptions to statuses, measures elapsed time and sets CORS headers.
- `/health` and `/metrics` on every service are left out. They report random counters and floating-point averages.
- `POST /simulate-failure` is left out. It sleeps for 30 seconds or ends the process.
- Latency is left out: the failure rates, the latency ranges, `time.sleep`, and the catalog's random 2-second delay. The model cannot see them. Their outcomes are inputs: `Payment.Draw`, `chaos`, and the timeout cases of `Cart.PaymentReply` and `Storefront.Hop`.
- Redis is left out: connecting to it, JSON-encoding carts into it, and the choice between the two backings. Both backings are one map.
- Flask routing and JSON parsing are left out. A missing request body, a `product_id` that is not an integer, a `quantity` that is not an integer, or a non-integer `amount` is outside the model. Only integer ids, quantities and amounts are modelled.
- Concurrent requests are left out. The code has no locking, so two adds for one user can lose an update, and nothing is modelled there.
- uuid generation is left out. A new order id is an input.
- The `version` field of every reply and of every payment record is left out. It is deployment configuration.
- Cart.CartStore.Checkout: on a propagated payment failure the model keeps the status but not the payment's JSON reply, which is passed on as `details`, nor the exception text in the 503 and 504 messages. A payment reply whose body is not JSON is the `TransportError` input (503), even when its status is 200, and then the cart is not cleared.
- Payment.PaymentProcessor.ProcessPayment: the record and the reply omit `processing_time`, a float drawn from the latency range, and the success message, which names the version. The request's `items` field is not read by the service and is not modelled there.
- Storefront.PlaceOrder: a timeout is modelled as happening either before or after the payment service handles the request. The model does not cover a reply that arrives after the cart has given up.
