# Café POS payments and cart — a Dafny model

This project models two parts of a café / pool-hall point-of-sale system:

- **The payment ledger** behind the backend's payment routes
  (`backend/routes/PaymentRoute.ts`). A checkout validates a request for an
  Order or a Booking. It derives the amount and line items from that subject,
  builds the gateway order reference `TYPE-id-timestamp`, and stores a
  Pending payment. The gateway's webhook then reports a transaction status.
  The reconciler maps that status to a payment status and overwrites the
  payment's status fields. On Success it marks the linked order `Paid` or the
  linked booking `InProgress`. A cancel forces the payment to Cancelled. A
  status lookup only reads.
- **The POS cart** of the café screen (`frontend/app/routes/Cafe.tsx`):
  adding a product, changing a line's quantity, the cart total, the product
  grid filter and the empty-cart guard before an order is posted.

Files:

- `wrappers.dfy`: `Option`, for the source's `null` / `undefined`.
- `text.dfy`: ASCII lower-casing, substring search, and decimal rendering of
  integers with its inverse parser.
- `cafe.dfy` (module `Cafe`): the cart operations, written as functions on
  sequences.
- `payment_model.dfy` (module `PaymentModel`): the records and the pure parts
  of the payment routes:
  - the status mapping;
  - the reference string and a parser that reads it back;
  - amounts, computed by truncating decimals;
  - gateway line items.
- `payment_route.dfy` (module `PaymentRoute`): the store and the handlers.
  - The store is a payments map, the unique index from gateway reference to
    payment id, and the orders and bookings.
  - Each handler is a function from the old store to the new store and the
    HTTP reply. Lemmas state its properties.
  - The class `Ledger` keeps the store in fields. Its methods implement the
    handlers step by step and are proved equal to those functions. Each
    method also keeps the store's invariant `Consistent`.

The gateway SDK calls are inputs to the handlers:
- the token from `createTransaction`;
- the fields `coreApi.transaction.notification` returns after verifying;
- the answer to `cancel`.

In each case None means "the call threw". The clock (`Date.now()`,
`new Date()`) is a `now` parameter. Environment variables are an `Env`
value, where an empty string means unset.

The model follows the code on these points, where another reading is possible:

- A `capture` whose fraud status is neither `challenge` nor `accept` is set
  to `Pending`, the handler's initial value. Read as a total status table, an
  unmatched capture would be `Failed`; the code never assigns that on this path.
- A notification whose verification call throws gets a 500. There is no
  separate "unauthenticated" reply.
- `paidAt` is written on every notification: the time on Success, null
  otherwise. A later non-Success notification therefore clears it. A cancel
  does not touch it, so a cancelled payment may still carry the `paidAt` of
  an earlier Success.
- `transactionId` and `paymentMethod` are passed to the update as the
  gateway returned them. A field the gateway left out is `undefined`, which
  the ORM treats as "leave unchanged", so the model keeps the old value in
  that case.
- The reference embeds `orderId || bookingId`. A Booking request that also
  carries a truthy `orderId` gets a reference that names the order id, while
  the stored payment links the booking (`ReferencePrefersOrderId`).

## Model

| member | source | states |
|---|---|---|
| `Cafe.FindItem` | frontend/app/routes/Cafe.tsx:155 | the position of the first cart line for the product; None exactly when no line has that product |
| `Cafe.AddToCart` | frontend/app/routes/Cafe.tsx:153-165 | no contract of its own; its two branches are stated by `AddToCartExisting` and `AddToCartNew`, its invariant by `AddToCartWellFormed` and its effect on the total by `AddToCartTotal` |
| `Cafe.AddToCartExisting` | frontend/app/routes/Cafe.tsx:155-161 | in a well-formed cart, adding a product already present gives the same cart with that one line's quantity raised by 1: length and every other line unchanged |
| `Cafe.AddToCartNew` | frontend/app/routes/Cafe.tsx:153-165 | adding a product not in the cart appends `{productId, quantity: 1, product}` at the end and keeps the existing lines as they were |
| `Cafe.AddToCartWellFormed` | frontend/app/routes/Cafe.tsx:153-165 | adding to the cart keeps product ids distinct and every quantity at least 1 |
| `Cafe.RemoveProduct` | frontend/app/routes/Cafe.tsx:169 | the filtered cart holds exactly the lines of the old cart whose product differs, and is no longer |
| `Cafe.UpdateCartQuantity` | frontend/app/routes/Cafe.tsx:167-177 | no contract of its own; stated by `UpdateToZeroRemoves`, `UpdatePositiveSets` and `UpdateWellFormed` |
| `Cafe.UpdateToZeroRemoves` | frontend/app/routes/Cafe.tsx:167-169 | a quantity of 0 or less cuts the product's line out of a well-formed cart and keeps the rest in order (`cart[..k] + cart[k+1..]`); for an absent product, the cart is unchanged |
| `Cafe.RemoveExisting` | frontend/app/routes/Cafe.tsx:169 | removing a product's single line from a well-formed cart yields the cart without exactly that position |
| `Cafe.UpdatePositiveSets` | frontend/app/routes/Cafe.tsx:170-175 | a positive quantity replaces only that product's quantity (length and other lines unchanged); for an absent product, the cart is unchanged |
| `Cafe.UpdateWellFormed` | frontend/app/routes/Cafe.tsx:167-177 | a quantity update keeps product ids distinct and quantities at least 1 |
| `Cafe.FindProduct` | frontend/app/routes/Cafe.tsx:181 | the first catalogue entry with the id, if one exists; None exactly when none does |
| `Cafe.LineTotal` | frontend/app/routes/Cafe.tsx:181-182 | no contract of its own; a line contributes its catalogue price times its quantity, or 0 for an unlisted product (used by `CartTotalReplace`, `RemoveTotal`) |
| `Cafe.CartTotal` | frontend/app/routes/Cafe.tsx:179-184 | no contract of its own; stated by `CartTotalAppend`, `CartTotalReplace`, `CartTotalNonNegative`, `AddToCartTotal` and `RemoveTotal` |
| `Cafe.CartTotalAppend` | frontend/app/routes/Cafe.tsx:179-184 | sum decomposition: the total of two carts concatenated is the sum of their totals |
| `Cafe.CartTotalReplace` | frontend/app/routes/Cafe.tsx:179-184 | replacing one line changes the total by the difference of the two lines' contributions |
| `Cafe.CartTotalNonNegative` | frontend/app/routes/Cafe.tsx:179-184 | for a well-formed cart and a catalogue with non-negative prices, the total is never below 0, and the empty cart totals exactly 0 |
| `Cafe.AddToCartTotal` | frontend/app/routes/Cafe.tsx:153-184 | adding a product raises the total by its catalogue price, or by 0 for a product the catalogue does not list |
| `Cafe.RemoveTotal` | frontend/app/routes/Cafe.tsx:167-184 | removing a product's line lowers the total by exactly that line's price times quantity |
| `Cafe.FilteredProducts` | frontend/app/routes/Cafe.tsx:341-345 | the grid is an order-preserving subsequence of the catalogue holding exactly the products that match the search term and category, each matching entry as many times as the catalogue lists it |
| `Cafe.Matches` | frontend/app/routes/Cafe.tsx:342-344 | no contract of its own; its meaning against an independent substring definition is stated in both directions by `FilteredMatchesSearch` and `SearchMatchIsShown` |
| `Cafe.FilteredMatchesSearch` | frontend/app/routes/Cafe.tsx:342-343 | each shown product's lower-cased name contains the lower-cased search term as a substring; with a category selected (a truthy id), the product is in it |
| `Cafe.SearchMatchIsShown` | frontend/app/routes/Cafe.tsx:341-345 | a catalogue product whose lower-cased name contains the lower-cased search term as a substring, and whose category matches a truthy selection, is shown |
| `Cafe.FilterNothing` | frontend/app/routes/Cafe.tsx:341-345 | an empty search term with no category (null or 0) shows the whole catalogue |
| `Cafe.CreateOrder` | frontend/app/routes/Cafe.tsx:186-210 | an empty cart, and only an empty cart, is refused with "Cart is empty" and posts nothing; otherwise one request line per cart line; the empty customer name is omitted and any other name is posted as entered |
| `Cafe.CreateOrderLinesDistinct` | frontend/app/routes/Cafe.tsx:203-209 | a non-empty well-formed cart posts lines with distinct product ids and quantities of at least 1 |
| `PaymentModel.Reconcile` | backend/routes/PaymentRoute.ts:214-243 | paidAt is set (to the clock) iff the status is Success; Success iff capture+accept or settlement; Challenge iff capture+challenge |
| `PaymentModel.ReconcileFollowsTable` | backend/routes/PaymentRoute.ts:218-243 | on every input, the status agrees with the first-match table (capture+challenge, capture+accept, settlement, cancel, deny, expire, pending); an uncovered input gives Failed, except an uncovered capture, which gives Pending |
| `PaymentModel.CaptureRows` | backend/routes/PaymentRoute.ts:218-226 | on a capture the table yields Challenge for a challenge fraud status, Success for accept, and no row otherwise |
| `PaymentModel.OtherRows` | backend/routes/PaymentRoute.ts:227-243 | on any other transaction status the table yields Success for settlement, Cancelled for cancel or deny, Expired for expire, Pending for pending, and no row otherwise |
| `PaymentModel.CaptureFallsThroughToPending` | backend/routes/PaymentRoute.ts:214-226 | a capture whose fraud status is neither challenge nor accept, or is absent, matches no table row and yields Pending with no paidAt |
| `PaymentModel.Reference` | backend/routes/PaymentRoute.ts:123 | no contract of its own; stated by `ReferenceRoundTrip` and `ReferenceInjective` |
| `PaymentModel.IdAndTime` | backend/routes/PaymentRoute.ts:123 | no contract of its own; the `id-timestamp` tail, read back by `ParseIdAndTimeRoundTrip` |
| `PaymentModel.ReferenceRoundTrip` | backend/routes/PaymentRoute.ts:123 | the reference `TYPE-id-timestamp` parses back to its kind, id (including a negative id) and timestamp |
| `PaymentModel.ParseIdAndTimeRoundTrip` | backend/routes/PaymentRoute.ts:123 | the `id-timestamp` tail splits at its last dash back into the id (including a negative id) and the timestamp |
| `PaymentModel.ReferenceInjective` | backend/routes/PaymentRoute.ts:123 | two references are equal only if kind, id and timestamp are all equal |
| `PaymentModel.Truncate` | backend/routes/PaymentRoute.ts:87 | `parseInt` of a decimal keeps its integer part, truncating toward zero |
| `PaymentModel.CustomerName` | backend/routes/PaymentRoute.ts:88 | a present non-empty name is kept; a null or empty name becomes "Customer" |
| `PaymentModel.OrderItemDetails` | backend/routes/PaymentRoute.ts:89-94 | one gateway line item per order line, carrying the product id and name, the truncated price and the quantity |
| `PaymentModel.OrderAmount` | backend/routes/PaymentRoute.ts:87 | no contract of its own; the truncated order total, stated through `Truncate` and `OrderItemsMatchAmount` |
| `PaymentModel.BookingAmount` | backend/routes/PaymentRoute.ts:109 | no contract of its own; the truncated booking price, 0 when the price is null, stated through `Truncate` and `BookingItemsMatchAmount` |
| `PaymentModel.BookingItemDetails` | backend/routes/PaymentRoute.ts:111-116 | no contract of its own; `PaymentRoute.BookingCheckoutItems` states that a booking checkout sends exactly these items for the booking amount, and `BookingItemsMatchAmount` that they add up to it |
| `PaymentModel.OrderItemsMatchAmount` | backend/routes/PaymentRoute.ts:87-94 | if an order's line prices are whole numbers and its total is their sum, the line items add up to the gross amount sent |
| `PaymentModel.BookingItemsMatchAmount` | backend/routes/PaymentRoute.ts:109-116 | a booking's single line item always adds up to the gross amount |
| `PaymentRoute.PrepareCheckout` | backend/routes/PaymentRoute.ts:59-142 | a missing server or client key gives 500 whatever the store holds; the checkout is prepared exactly when both keys are set and the request names an Order with a truthy orderId of a stored order or a Booking with a truthy bookingId of a stored booking; on success, the reference is `TYPE-(orderId or bookingId)-now` |
| `PaymentRoute.FinishUrl` | backend/routes/PaymentRoute.ts:140 | no contract of its own; the frontend URL, or `http://localhost:5174` when unset, followed by `/payment/success` |
| `PaymentRoute.NewPayment` | backend/routes/PaymentRoute.ts:148-159 | no contract of its own; the inserted row, stated field by field by `CreateInsertsPendingPayment` |
| `PaymentRoute.CreatePayment` | backend/routes/PaymentRoute.ts:54-175 | every error reply leaves the store unchanged; a missing key gives 500 before any lookup; a validation or lookup error is passed on as is; a thrown `createTransaction` gives 500; the reply is ok exactly when validation and lookup pass, the gateway answers and the reference is new |
| `PaymentRoute.CreateRejectsInvalidRequest` | backend/routes/PaymentRoute.ts:70-120 | a type other than Order with a truthy orderId or Booking with a truthy bookingId gives 400 and stores nothing |
| `PaymentRoute.CreateRejectsMissingSubject` | backend/routes/PaymentRoute.ts:70-107 | a valid request for an order or booking that does not exist gives 404 and stores nothing |
| `PaymentRoute.CreateInsertsPendingPayment` | backend/routes/PaymentRoute.ts:148-159 | a successful checkout inserts one payment under the next id. It is Pending, with the subject's truncated total as amount, only the id matching its type set, the expected reference (which was new) and no transaction, method or paidAt. The index gains that reference; nothing else changes |
| `PaymentRoute.OrderCheckoutItems` | backend/routes/PaymentRoute.ts:87-140 | an order checkout sends the truncated order total as gross amount, one line item per order line (`OrderItemDetails`) and the order's customer name, or "Customer"; the finish URL is `FinishUrl`, the email the fixed customer address, and secure card handling is on |
| `PaymentRoute.BookingCheckoutItems` | backend/routes/PaymentRoute.ts:109-140 | a booking checkout sends the booking amount (`BookingAmount`, null price as 0) as gross amount and exactly `BookingItemDetails` for it: a single line item for the table, named `<table> - <hours> jam`, priced at the gross amount with quantity 1; and the booking's customer name, or "Customer"; the finish URL is `FinishUrl`, the email the fixed customer address, and secure card handling is on |
| `PaymentRoute.ReferencePrefersOrderId` | backend/routes/PaymentRoute.ts:123 | a Booking request that also carries a truthy orderId links the booking but its reference names the orderId |
| `PaymentRoute.CreatePreservesConsistency` | backend/routes/PaymentRoute.ts:148-159 | checkout preserves the store invariant: exclusive order/booking links, a unique reference index in both directions, ids below the counter |
| `PaymentRoute.HandleNotification` | backend/routes/PaymentRoute.ts:178-278 | a missing server key gives 500 before verification or lookup. A thrown verification gives 500. An unknown reference gives 404. Every error leaves the store unchanged. The reply is ok exactly when the reference names a stored payment |
| `PaymentRoute.Notified` | backend/routes/PaymentRoute.ts:246-254 | no contract of its own; stated by `NotificationUpdatesOnlyMatchedPayment` |
| `PaymentRoute.Cascade` | backend/routes/PaymentRoute.ts:257-271 | no contract of its own; stated by `NotificationCascade` |
| `PaymentRoute.NotificationUpdatesOnlyMatchedPayment` | backend/routes/PaymentRoute.ts:246-254 | only the matched payment changes, and only status, transactionId, paymentMethod and paidAt. paidAt is set iff the new status is Success. Amount, reference, links, token and creation time are unchanged |
| `PaymentRoute.NotificationCascade` | backend/routes/PaymentRoute.ts:257-271 | orders and bookings change only on Success: the linked order becomes Paid and the linked booking InProgress; no other order or booking changes |
| `PaymentRoute.NotificationIdempotent` | backend/routes/PaymentRoute.ts:246-271 | delivering the same notification again at the same clock gives the same store and the same reply |
| `PaymentRoute.NotificationPreservesConsistency` | backend/routes/PaymentRoute.ts:246-271 | notification handling preserves the store invariant, including "paidAt only on Success or Cancelled" |
| `PaymentRoute.CancelPayment` | backend/routes/PaymentRoute.ts:320-361 | an unknown payment gives 404 before the key check; then a missing server key gives 500, and a thrown gateway cancel gives 500; every error leaves the store unchanged; the reply is ok exactly when the payment exists, the key is set and the gateway answers, and then carries the payment id and the gateway's order id and transaction status |
| `PaymentRoute.CancelSetsOnlyStatus` | backend/routes/PaymentRoute.ts:343-346 | a successful cancel sets only that payment's status to Cancelled; there is no cascade to orders or bookings, and every other field is unchanged |
| `PaymentRoute.CancelPreservesConsistency` | backend/routes/PaymentRoute.ts:343-346 | cancelling preserves the store invariant |
| `PaymentRoute.Linked` | backend/routes/PaymentRoute.ts:287-290 | the included order or booking is present exactly when the link is set and the record exists |
| `PaymentRoute.PaymentStatus` | backend/routes/PaymentRoute.ts:281-317 | 404 exactly when the payment id is unknown; otherwise the reply reports that payment's id, status, amount, type, reference, transaction id, method, paidAt and createdAt, with the linked order and booking present exactly when linked and stored |
| `PaymentRoute.StatusShowsOneSubject` | backend/routes/PaymentRoute.ts:297-309 | in a consistent store, an Order payment's reply carries no booking and a Booking payment's no order, and paidAt appears only on Success or Cancelled |
| `PaymentRoute.SettlementPaysOrder` | backend/routes/PaymentRoute.ts:227-262 | an order checkout followed by a settlement for its reference leaves the payment Success, paid at the notification's clock, and the order Paid |
| `PaymentRoute.Ledger.Create` | backend/routes/PaymentRoute.ts:54-175 | the stored state and the reply are exactly those `CreatePayment` gives, and the invariant holds afterwards |
| `PaymentRoute.Ledger.Notify` | backend/routes/PaymentRoute.ts:178-278 | the stored state and the reply are exactly those `HandleNotification` gives, and the invariant holds afterwards |
| `PaymentRoute.Ledger.Cancel` | backend/routes/PaymentRoute.ts:320-361 | the stored state and the reply are exactly those `CancelPayment` gives, and the invariant holds afterwards |
| `PaymentRoute.Ledger.Status` | backend/routes/PaymentRoute.ts:281-317 | reads only (no modifies clause); the reply is `PaymentStatus` of the current state |

## Left out

- The gateway SDK (`snap.createTransaction`, `coreApi.transaction.notification`, `coreApi.transaction.cancel`): foreign library calls. Their results are inputs, and signature verification is not modelled.
- The clock: `Date.now()` and `new Date()` are a `now` parameter. One value serves as the reference timestamp, `createdAt` and `paidAt` within a request.
- Database access: the ORM is replaced by the in-model store and treated as infallible. A write that fails for reasons other than a duplicate reference is not modelled. The duplicate-reference insert is modelled as the 500 it produces.
- Request parsing: `parseInt` of the `:paymentId` URL parameter and non-numeric JSON ids are left out. Ids are integers, and JSON truthiness of an id is "present and not 0".
- `PaymentModel.Truncate`: models `parseInt(decimal.toString())` for plain decimal notation only. Exponent notation for very large or very small decimals (which `parseInt` stops reading at the `e`) is not modelled.
- The JWT `authenticate` middleware, the static `/payment/methods` list, `/payment/config` and the `/payment/history` query: no logic beyond a lookup or a constant.
- Logging (`console.log` / `console.error`), the `details` text of a 500 reply, and the `message` field of the 200 replies of create (`backend/routes/PaymentRoute.ts:162`) and cancel (`:349`) and of the missing-keys 500 (`:62`). The model keeps the status code and the `error` message.
- Concurrency between simultaneous notifications or checkouts: the source has no locking, and each handler is modelled as one atomic step.
- `PaymentRoute.PaymentStatus`: the reply's `order` is the model's whole order record, including its lines, and its `booking` has the table's id and name flattened in. The ORM's `include` of order and booking returns neither the order lines nor the pool table, so the reply shape is richer than the source's on those two fields.
- `Cafe.FilteredProducts`: `toLowerCase` is modelled for ASCII letters only. Unicode case mapping is not modelled.
- `Cafe.CartTotalNonNegative`: prices and totals are whole numbers (rupiah). The float arithmetic of `parseFloat` is not modelled.
- Cafe.tsx network and browser plumbing: the `fetch*` functions, `handlePayment`, loading the gateway script and config, the category and product form handlers, image reading, rendering and `formatCurrency`. Catalogue fields the cart logic does not read (description, image URL) are dropped.
- What `createOrder` does after its guard (loading flags, the order POST, clearing the cart, starting payment) is browser and network plumbing. The model stops at the request body it posts.
- `backend/seed.js`: fixed inserts only, with no logic.
