/**
 * The payment endpoints (backend/routes/PaymentRoute.ts) over an in-memory
 * store that stands in for the database: payments keyed by id, the unique
 * index from gateway reference to payment id, and the orders and bookings a
 * payment can settle.
 *
 * Each handler is specified by a function from the store before the request
 * to the store after it and the HTTP reply (`CreatePayment`,
 * `HandleNotification`, `CancelPayment`, `PaymentStatus`); the class
 * `Ledger` holds the store in fields and implements the handlers as methods
 * proved against those functions. The gateway's answers (transaction token,
 * verified notification, cancel confirmation) and the clock are inputs.
 */
module PaymentRoute {
  import opened Wrappers
  import opened PaymentModel

  /** Environment variables the routes read; an empty string is an unset variable. */
  datatype Env = Env(serverKey: string, clientKey: string, frontendUrl: string)

  /** Body of `POST /payment/create`; an id missing from the JSON is None. */
  datatype CreateRequest = CreateRequest(orderId: Option<int>, bookingId: Option<int>, paymentType: string)

  /** JavaScript truthiness of an optional numeric id: present and not 0. */
  predicate Truthy(id: Option<int>) {
    id.Some? && id.value != 0
  }

  /** What checkout sends to the gateway's `createTransaction`. */
  datatype TransactionRequest = TransactionRequest(
    reference: string, grossAmount: int, firstName: string, email: string,
    items: seq<ItemDetail>, secure: bool, finishUrl: string)

  /** The gateway's answer to `createTransaction`. */
  datatype GatewayToken = GatewayToken(token: string, redirectUrl: string)

  /** The fields of a notification after the gateway has verified it. */
  datatype StatusResponse = StatusResponse(
    orderId: string, transactionStatus: string, fraudStatus: Option<string>,
    transactionId: Option<string>, paymentType: Option<string>)

  /** The gateway's answer to a cancel request. */
  datatype CancelResponse = CancelResponse(orderId: Option<string>, transactionStatus: Option<string>)

  /** An HTTP reply: a 200 with a body, or an error status with its message. */
  datatype Reply<T> = Ok(body: T) | Error(code: int, error: string)

  datatype Store = Store(
    payments: map<int, Payment>,
    references: map<string, int>,
    orders: map<int, OrderRecord>,
    bookings: map<int, BookingRecord>,
    nextId: int)

  /** A handler's effect: the store afterwards and the reply sent. */
  datatype Step<T> = Step(store: Store, reply: Reply<T>)

  /**
   * The store's invariant: ids are assigned from 1 below `nextId`, every
   * payment satisfies the order/booking exclusivity, `paidAt` is only left set
   * on a successful or cancelled payment, and `references` is exactly the
   * unique index of the payments' gateway references.
   */
  ghost predicate Consistent(s: Store) {
    && s.nextId >= 1
    && (forall id :: id in s.payments ==> 1 <= id < s.nextId && s.payments[id].id == id)
    && (forall id :: id in s.payments ==> Exclusive(s.payments[id]))
    && (forall id :: id in s.payments && s.payments[id].paidAt.Some? ==>
          s.payments[id].status == Success || s.payments[id].status == Cancelled)
    && (forall id :: id in s.payments ==>
          s.payments[id].reference in s.references && s.references[s.payments[id].reference] == id)
    && (forall r :: r in s.references ==>
          s.references[r] in s.payments && s.payments[s.references[r]].reference == r)
    && (forall k :: k in s.orders ==> s.orders[k].id == k)
    && (forall k :: k in s.bookings ==> s.bookings[k].id == k)
  }

  // ---------------------------------------------------------------------
  // POST /payment/create (PaymentRoute.ts:54-175)
  // ---------------------------------------------------------------------

  const KEYS_MISSING := "Midtrans API keys not configured"
  const CREATE_FAILED := "Failed to create payment transaction"
  const CUSTOMER_EMAIL := "customer@poll8cafe.com"

  /** `${FRONTEND_URL || 'http://localhost:5174'}/payment/success`. */
  function FinishUrl(env: Env): string {
    (if env.frontendUrl == "" then "http://localhost:5174" else env.frontendUrl) + "/payment/success"
  }

  /** `orderId || bookingId`: the id written into the reference. */
  function ReferenceId(req: CreateRequest): int
    requires Truthy(req.orderId) || Truthy(req.bookingId)
  {
    if Truthy(req.orderId) then req.orderId.value else req.bookingId.value
  }

  /** Everything checkout settles before it calls the gateway. */
  datatype Prepared = Prepared(kind: Kind, subjectId: int, request: TransactionRequest)

  /** Configuration check, request validation, subject lookup, amount, line items and reference. */
  function PrepareCheckout(s: Store, env: Env, req: CreateRequest, now: nat): (r: Reply<Prepared>)
    ensures env.serverKey == "" || env.clientKey == "" ==> r == Error(500, KEYS_MISSING)
    ensures r.Ok? ==> (Truthy(req.orderId) || Truthy(req.bookingId)) && r.body.request.reference == Reference(r.body.kind, ReferenceId(req), now)
    ensures r.Ok? <==> (
      && env.serverKey != "" && env.clientKey != ""
      && ((req.paymentType == "Order" && Truthy(req.orderId) && req.orderId.value in s.orders)
          || (req.paymentType == "Booking" && Truthy(req.bookingId) && req.bookingId.value in s.bookings)))
  {
    if env.serverKey == "" || env.clientKey == "" then Error(500, KEYS_MISSING)
    else if req.paymentType == "Order" && Truthy(req.orderId) then
      var id := req.orderId.value;
      if id !in s.orders then Error(404, "Order not found")
      else
        var order := s.orders[id];
        var amount := OrderAmount(order);
        Ok(Prepared(Order, id, TransactionRequest(
          Reference(Order, ReferenceId(req), now), amount, CustomerName(order.customerName),
          CUSTOMER_EMAIL, OrderItemDetails(order.items), true, FinishUrl(env))))
    else if req.paymentType == "Booking" && Truthy(req.bookingId) then
      var id := req.bookingId.value;
      if id !in s.bookings then Error(404, "Booking not found")
      else
        var booking := s.bookings[id];
        var amount := BookingAmount(booking);
        Ok(Prepared(Booking, id, TransactionRequest(
          Reference(Booking, ReferenceId(req), now), amount, CustomerName(booking.customerName),
          CUSTOMER_EMAIL, BookingItemDetails(booking, amount), true, FinishUrl(env))))
    else Error(400, "Invalid payment type or missing ID")
  }

  /** The row `payment.create` inserts. */
  function NewPayment(id: int, prep: Prepared, gateway: GatewayToken, now: nat): Payment {
    Payment(
      id,
      if prep.kind == Order then Some(prep.subjectId) else None,
      if prep.kind == Booking then Some(prep.subjectId) else None,
      prep.kind, prep.request.grossAmount, Pending, prep.request.reference,
      gateway.token, gateway.redirectUrl, None, None, None, now)
  }

  /** The 200 body of a checkout: payment id, token, redirect URL and reference. */
  datatype Created = Created(paymentId: int, token: string, redirectUrl: string, reference: string)

  /**
   * The whole checkout. `gateway` is what `createTransaction` returned (None
   * when it threw); an insert whose reference is already taken breaks the
   * unique index and fails like a gateway error.
   */
  function CreatePayment(s: Store, env: Env, req: CreateRequest, gateway: Option<GatewayToken>, now: nat): (r: Step<Created>)
    ensures r.reply.Error? ==> r.store == s
    ensures env.serverKey == "" || env.clientKey == "" ==> r == Step(s, Error(500, KEYS_MISSING))
    ensures PrepareCheckout(s, env, req, now).Error? ==>
      r.reply == Error(PrepareCheckout(s, env, req, now).code, PrepareCheckout(s, env, req, now).error)
    ensures PrepareCheckout(s, env, req, now).Ok? && gateway.None? ==> r == Step(s, Error(500, CREATE_FAILED))
    ensures r.reply.Ok? <==>
      PrepareCheckout(s, env, req, now).Ok? && gateway.Some?
      && PrepareCheckout(s, env, req, now).body.request.reference !in s.references
  {
    match PrepareCheckout(s, env, req, now)
    case Error(code, message) => Step(s, Error(code, message))
    case Ok(prep) =>
      if gateway.None? || prep.request.reference in s.references then Step(s, Error(500, CREATE_FAILED))
      else
        var p := NewPayment(s.nextId, prep, gateway.value, now);
        Step(s.(payments := s.payments[p.id := p], references := s.references[p.reference := p.id], nextId := s.nextId + 1),
             Ok(Created(p.id, p.token, p.redirectUrl, p.reference)))
  }

  /** Missing ids, an unknown payment type, or a type whose id is falsy: 400, nothing stored. */
  lemma CreateRejectsInvalidRequest(s: Store, env: Env, req: CreateRequest, gateway: Option<GatewayToken>, now: nat)
    requires env.serverKey != "" && env.clientKey != ""
    requires !(req.paymentType == "Order" && Truthy(req.orderId))
    requires !(req.paymentType == "Booking" && Truthy(req.bookingId))
    ensures CreatePayment(s, env, req, gateway, now) == Step(s, Error(400, "Invalid payment type or missing ID"))
  {
  }

  /** A subject that does not exist: 404, nothing stored. */
  lemma CreateRejectsMissingSubject(s: Store, env: Env, req: CreateRequest, gateway: Option<GatewayToken>, now: nat)
    requires env.serverKey != "" && env.clientKey != ""
    ensures req.paymentType == "Order" && Truthy(req.orderId) && req.orderId.value !in s.orders ==>
      CreatePayment(s, env, req, gateway, now) == Step(s, Error(404, "Order not found"))
    ensures req.paymentType == "Booking" && Truthy(req.bookingId) && req.bookingId.value !in s.bookings ==>
      CreatePayment(s, env, req, gateway, now) == Step(s, Error(404, "Booking not found"))
  {
  }

  /**
   * A successful checkout inserts one Pending payment under the next id, with
   * the subject's truncated total as amount, the id of the subject matching
   * its type, the reference `TYPE-(orderId||bookingId)-now`, and no gateway
   * outcome yet; nothing else in the store changes.
   */
  lemma CreateInsertsPendingPayment(s: Store, env: Env, req: CreateRequest, gateway: Option<GatewayToken>, now: nat)
    requires CreatePayment(s, env, req, gateway, now).reply.Ok?
    ensures var r := CreatePayment(s, env, req, gateway, now);
      var p := r.store.payments[s.nextId];
      && s.nextId in r.store.payments
      && r.reply.body == Created(s.nextId, gateway.value.token, gateway.value.redirectUrl, p.reference)
      && p.id == s.nextId && p.status == Pending && p.createdAt == now
      && p.transactionId.None? && p.paymentMethod.None? && p.paidAt.None?
      && p.token == gateway.value.token && p.redirectUrl == gateway.value.redirectUrl
      && Exclusive(p)
      && p.reference == Reference(p.kind, ReferenceId(req), now)
      && p.reference !in s.references
      && (p.kind == Order ==>
            req.paymentType == "Order" && p.orderId == req.orderId && req.orderId.value in s.orders
            && p.amount == OrderAmount(s.orders[req.orderId.value]))
      && (p.kind == Booking ==>
            req.paymentType == "Booking" && p.bookingId == req.bookingId && req.bookingId.value in s.bookings
            && p.amount == BookingAmount(s.bookings[req.bookingId.value]))
      && r.store.payments == s.payments[s.nextId := p]
      && r.store.references == s.references[p.reference := s.nextId]
      && r.store.orders == s.orders && r.store.bookings == s.bookings
      && r.store.nextId == s.nextId + 1
  {
  }

  /**
   * An order checkout sends one line item per order line and the order's
   * customer name, or "Customer" when it has none.
   */
  lemma OrderCheckoutItems(s: Store, env: Env, req: CreateRequest, now: nat)
    requires PrepareCheckout(s, env, req, now).Ok? && PrepareCheckout(s, env, req, now).body.kind == Order
    ensures req.orderId.Some? && req.orderId.value in s.orders
    ensures var request := PrepareCheckout(s, env, req, now).body.request;
      var order := s.orders[req.orderId.value];
      && request.items == OrderItemDetails(order.items)
      && request.firstName == CustomerName(order.customerName)
      && request.grossAmount == OrderAmount(order)
      && request.finishUrl == FinishUrl(env)
      && request.email == CUSTOMER_EMAIL && request.secure
  {
  }

  /**
   * A booking checkout sends one line item (the table, priced at the whole
   * amount, quantity 1) and the booking's customer name, or "Customer".
   */
  lemma BookingCheckoutItems(s: Store, env: Env, req: CreateRequest, now: nat)
    requires PrepareCheckout(s, env, req, now).Ok? && PrepareCheckout(s, env, req, now).body.kind == Booking
    ensures req.bookingId.Some? && req.bookingId.value in s.bookings
    ensures var request := PrepareCheckout(s, env, req, now).body.request;
      var booking := s.bookings[req.bookingId.value];
      && |request.items| == 1
      && request.items[0].price == request.grossAmount
      && request.items[0].quantity == 1
      && request.items[0].id == booking.tableId
      && ItemsTotal(request.items) == request.grossAmount
      && request.firstName == CustomerName(booking.customerName)
      && request.grossAmount == BookingAmount(booking)
      && request.items == BookingItemDetails(booking, BookingAmount(booking))
      && request.finishUrl == FinishUrl(env)
      && request.email == CUSTOMER_EMAIL && request.secure
  {
    BookingItemsMatchAmount(s.bookings[req.bookingId.value]);
  }

  /**
   * When a Booking request also carries a truthy orderId, the reference names
   * that orderId, while the stored payment links the booking.
   */
  lemma ReferencePrefersOrderId(s: Store, env: Env, req: CreateRequest, gateway: Option<GatewayToken>, now: nat)
    requires CreatePayment(s, env, req, gateway, now).reply.Ok?
    requires req.paymentType == "Booking" && Truthy(req.orderId)
    ensures var p := CreatePayment(s, env, req, gateway, now).store.payments[s.nextId];
      && p.bookingId == req.bookingId && p.orderId.None?
      && ParseReference(p.reference) == Some(ReferenceParts(Booking, req.orderId.value, now))
  {
    CreateInsertsPendingPayment(s, env, req, gateway, now);
    ReferenceRoundTrip(Booking, req.orderId.value, now);
  }

  lemma CreatePreservesConsistency(s: Store, env: Env, req: CreateRequest, gateway: Option<GatewayToken>, now: nat)
    requires Consistent(s)
    ensures Consistent(CreatePayment(s, env, req, gateway, now).store)
  {
    var r := CreatePayment(s, env, req, gateway, now);
    if r.reply.Ok? {
      CreateInsertsPendingPayment(s, env, req, gateway, now);
      InsertPaymentConsistent(s, r.store.payments[s.nextId]);
    }
  }

  /** Inserting an unpaid, well-linked payment under the next id and a fresh reference keeps the store consistent. */
  lemma InsertPaymentConsistent(s: Store, p: Payment)
    requires Consistent(s)
    requires p.id == s.nextId && Exclusive(p) && p.paidAt.None? && p.reference !in s.references
    ensures Consistent(s.(payments := s.payments[p.id := p], references := s.references[p.reference := p.id], nextId := s.nextId + 1))
  {
    var t := s.(payments := s.payments[p.id := p], references := s.references[p.reference := p.id], nextId := s.nextId + 1);
    assert s.nextId !in s.payments;
    forall q | q in t.references
      ensures t.references[q] in t.payments && t.payments[t.references[q]].reference == q
    {
      if q != p.reference {
        assert s.references[q] != s.nextId;
      }
    }
  }

  // ---------------------------------------------------------------------
  // POST /payment/notification (PaymentRoute.ts:178-278)
  // ---------------------------------------------------------------------

  const SERVER_KEY_MISSING := "Midtrans server key not configured"
  const NOTIFICATION_FAILED := "Failed to process payment notification"
  const PAYMENT_NOT_FOUND := "Payment not found"

  /**
   * The payment row after `payment.update`: status and paidAt are written
   * (paidAt possibly to null); transactionId and paymentMethod are written
   * when the gateway supplied them, and a field given as `undefined` is left
   * as it was. Every other field is kept.
   */
  function Notified(p: Payment, n: StatusResponse, d: Decision): Payment {
    p.(status := d.status,
       transactionId := if n.transactionId.Some? then n.transactionId else p.transactionId,
       paymentMethod := if n.paymentType.Some? then n.paymentType else p.paymentMethod,
       paidAt := d.paidAt)
  }

  /** On Success, the linked order (if it exists) becomes `Paid` and the linked booking `InProgress`. */
  function Cascade(s: Store, p: Payment, status: Status): Store {
    if status != Success then s
    else
      var orders :=
        if p.orderId.Some? && p.orderId.value in s.orders
        then s.orders[p.orderId.value := s.orders[p.orderId.value].(status := "Paid")]
        else s.orders;
      var bookings :=
        if p.bookingId.Some? && p.bookingId.value in s.bookings
        then s.bookings[p.bookingId.value := s.bookings[p.bookingId.value].(status := "InProgress")]
        else s.bookings;
      s.(orders := orders, bookings := bookings)
  }

  /**
   * The notification webhook. `verified` is what the gateway's verification
   * returned (None when it threw); `now` is the clock for `paidAt`.
   */
  function HandleNotification(s: Store, env: Env, verified: Option<StatusResponse>, now: nat): (r: Step<string>)
    ensures r.reply.Error? ==> r.store == s
    ensures env.serverKey == "" ==> r == Step(s, Error(500, SERVER_KEY_MISSING))
    ensures env.serverKey != "" && verified.None? ==> r == Step(s, Error(500, NOTIFICATION_FAILED))
    ensures env.serverKey != "" && verified.Some? && verified.value.orderId !in s.references ==>
      r == Step(s, Error(404, PAYMENT_NOT_FOUND))
    ensures r.reply.Ok? <==>
      env.serverKey != "" && verified.Some? && verified.value.orderId in s.references
      && s.references[verified.value.orderId] in s.payments
  {
    if env.serverKey == "" then Step(s, Error(500, SERVER_KEY_MISSING))
    else if verified.None? then Step(s, Error(500, NOTIFICATION_FAILED))
    else
      var n := verified.value;
      if n.orderId !in s.references || s.references[n.orderId] !in s.payments then Step(s, Error(404, PAYMENT_NOT_FOUND))
      else
        var id := s.references[n.orderId];
        var p := s.payments[id];
        var d := Reconcile(n.transactionStatus, n.fraudStatus, now);
        Step(Cascade(s.(payments := s.payments[id := Notified(p, n, d)]), p, d.status), Ok("ok"))
  }

  /**
   * An accepted notification rewrites only status, transactionId,
   * paymentMethod and paidAt of the matched payment; `paidAt` is set exactly
   * when the new status is Success, so a later non-Success notification
   * clears it. No other payment and no index entry moves.
   */
  lemma NotificationUpdatesOnlyMatchedPayment(s: Store, env: Env, n: StatusResponse, now: nat)
    requires HandleNotification(s, env, Some(n), now).reply.Ok?
    ensures var s' := HandleNotification(s, env, Some(n), now).store;
      var id := s.references[n.orderId];
      var p, p' := s.payments[id], s'.payments[id];
      var d := Reconcile(n.transactionStatus, n.fraudStatus, now);
      && s'.payments.Keys == s.payments.Keys
      && (forall other :: other in s.payments && other != id ==> s'.payments[other] == s.payments[other])
      && p'.status == d.status
      && (n.transactionId.Some? ==> p'.transactionId == n.transactionId)
      && (n.transactionId.None? ==> p'.transactionId == p.transactionId)
      && (n.paymentType.Some? ==> p'.paymentMethod == n.paymentType)
      && (n.paymentType.None? ==> p'.paymentMethod == p.paymentMethod)
      && (p'.paidAt.Some? <==> p'.status == Success)
      && (p'.paidAt.Some? ==> p'.paidAt.value == now)
      && p'.id == p.id && p'.amount == p.amount && p'.reference == p.reference
      && p'.orderId == p.orderId && p'.bookingId == p.bookingId && p'.kind == p.kind
      && p'.token == p.token && p'.redirectUrl == p.redirectUrl && p'.createdAt == p.createdAt
      && s'.references == s.references && s'.nextId == s.nextId
  {
  }

  /**
   * Orders and bookings change only when the new status is Success: then the
   * payment's order (if any) is `Paid` and its booking (if any) `InProgress`,
   * and no other order or booking changes.
   */
  lemma NotificationCascade(s: Store, env: Env, n: StatusResponse, now: nat)
    requires HandleNotification(s, env, Some(n), now).reply.Ok?
    ensures var s' := HandleNotification(s, env, Some(n), now).store;
      var p := s.payments[s.references[n.orderId]];
      var success := Reconcile(n.transactionStatus, n.fraudStatus, now).status == Success;
      && s'.orders.Keys == s.orders.Keys && s'.bookings.Keys == s.bookings.Keys
      && (!success ==> s'.orders == s.orders && s'.bookings == s.bookings)
      && (success && p.orderId.Some? && p.orderId.value in s.orders ==>
            s'.orders[p.orderId.value] == s.orders[p.orderId.value].(status := "Paid"))
      && (success && p.bookingId.Some? && p.bookingId.value in s.bookings ==>
            s'.bookings[p.bookingId.value] == s.bookings[p.bookingId.value].(status := "InProgress"))
      && (forall k :: k in s.orders && Some(k) != p.orderId ==> s'.orders[k] == s.orders[k])
      && (forall k :: k in s.bookings && Some(k) != p.bookingId ==> s'.bookings[k] == s.bookings[k])
  {
  }

  /** A redelivered notification, handled at the same clock, leaves the store as the first delivery left it. */
  lemma NotificationIdempotent(s: Store, env: Env, verified: Option<StatusResponse>, now: nat)
    ensures var once := HandleNotification(s, env, verified, now);
      HandleNotification(once.store, env, verified, now) == once
  {
    var once := HandleNotification(s, env, verified, now);
    if once.reply.Ok? {
      var n := verified.value;
      var id := s.references[n.orderId];
      var p := s.payments[id];
      var d := Reconcile(n.transactionStatus, n.fraudStatus, now);
      var s1 := s.(payments := s.payments[id := Notified(p, n, d)]);
      assert once.store == Cascade(s1, p, d.status);
      var p1 := once.store.payments[id];
      assert p1 == Notified(p, n, d);
      assert Notified(p1, n, d) == p1;
      assert p1.orderId == p.orderId && p1.bookingId == p.bookingId;
      var s2 := once.store.(payments := once.store.payments[id := Notified(p1, n, d)]);
      assert s2 == once.store;
      assert Cascade(once.store, p1, d.status) == once.store;
    }
  }

  /**
   * Replacing a payment by one with the same id, reference and links, whose
   * paidAt is only set on Success or Cancelled, keeps the store consistent.
   */
  lemma ReplacePaymentConsistent(s: Store, id: int, q: Payment)
    requires Consistent(s) && id in s.payments
    requires q.id == id && q.reference == s.payments[id].reference
    requires q.kind == s.payments[id].kind && q.orderId == s.payments[id].orderId && q.bookingId == s.payments[id].bookingId
    requires q.paidAt.Some? ==> q.status == Success || q.status == Cancelled
    ensures Consistent(s.(payments := s.payments[id := q]))
  {
  }

  /** Changing only the status of orders and bookings keeps the store consistent. */
  lemma SubjectStatusConsistent(s: Store, orders: map<int, OrderRecord>, bookings: map<int, BookingRecord>)
    requires Consistent(s)
    requires orders.Keys == s.orders.Keys && bookings.Keys == s.bookings.Keys
    requires forall k :: k in orders ==> orders[k].id == s.orders[k].id
    requires forall k :: k in bookings ==> bookings[k].id == s.bookings[k].id
    ensures Consistent(s.(orders := orders, bookings := bookings))
  {
  }

  lemma NotificationPreservesConsistency(s: Store, env: Env, verified: Option<StatusResponse>, now: nat)
    requires Consistent(s)
    ensures Consistent(HandleNotification(s, env, verified, now).store)
  {
    var r := HandleNotification(s, env, verified, now);
    if r.reply.Ok? {
      var n := verified.value;
      var id := s.references[n.orderId];
      var p := s.payments[id];
      var d := Reconcile(n.transactionStatus, n.fraudStatus, now);
      var s1 := s.(payments := s.payments[id := Notified(p, n, d)]);
      ReplacePaymentConsistent(s, id, Notified(p, n, d));
      var s2 := Cascade(s1, p, d.status);
      assert r.store == s2;
      if d.status == Success {
        SubjectStatusConsistent(s1, s2.orders, s2.bookings);
        assert s2 == s1.(orders := s2.orders, bookings := s2.bookings);
      }
    }
  }

  // ---------------------------------------------------------------------
  // POST /payment/cancel/:paymentId (PaymentRoute.ts:320-361)
  // ---------------------------------------------------------------------

  const CANCEL_FAILED := "Failed to cancel payment"

  /** The 200 body of a cancel: the payment id and what the gateway echoed. */
  datatype CancelReply = CancelReply(paymentId: int, orderId: Option<string>, transactionStatus: Option<string>)

  /**
   * Cancelling a payment. The payment is looked up before the key check;
   * `gateway` is the gateway's cancel answer (None when it threw).
   */
  function CancelPayment(s: Store, env: Env, paymentId: int, gateway: Option<CancelResponse>): (r: Step<CancelReply>)
    ensures r.reply.Error? ==> r.store == s
    ensures paymentId !in s.payments ==> r == Step(s, Error(404, PAYMENT_NOT_FOUND))
    ensures paymentId in s.payments && env.serverKey == "" ==> r == Step(s, Error(500, SERVER_KEY_MISSING))
    ensures paymentId in s.payments && env.serverKey != "" && gateway.None? ==> r == Step(s, Error(500, CANCEL_FAILED))
    ensures r.reply.Ok? <==> paymentId in s.payments && env.serverKey != "" && gateway.Some?
    ensures r.reply.Ok? ==> r.reply.body == CancelReply(paymentId, gateway.value.orderId, gateway.value.transactionStatus)
  {
    if paymentId !in s.payments then Step(s, Error(404, PAYMENT_NOT_FOUND))
    else if env.serverKey == "" then Step(s, Error(500, SERVER_KEY_MISSING))
    else if gateway.None? then Step(s, Error(500, CANCEL_FAILED))
    else
      Step(s.(payments := s.payments[paymentId := s.payments[paymentId].(status := Cancelled)]),
           Ok(CancelReply(paymentId, gateway.value.orderId, gateway.value.transactionStatus)))
  }

  /**
   * A successful cancel sets only the payment's status to Cancelled, whatever
   * it was; orders, bookings, the index and every other field stay as they were.
   */
  lemma CancelSetsOnlyStatus(s: Store, env: Env, paymentId: int, gateway: Option<CancelResponse>)
    requires CancelPayment(s, env, paymentId, gateway).reply.Ok?
    ensures var s' := CancelPayment(s, env, paymentId, gateway).store;
      && paymentId in s.payments
      && s'.payments == s.payments[paymentId := s.payments[paymentId].(status := Cancelled)]
      && s'.payments[paymentId].status == Cancelled
      && s'.orders == s.orders && s'.bookings == s.bookings
      && s'.references == s.references && s'.nextId == s.nextId
  {
  }

  lemma CancelPreservesConsistency(s: Store, env: Env, paymentId: int, gateway: Option<CancelResponse>)
    requires Consistent(s)
    ensures Consistent(CancelPayment(s, env, paymentId, gateway).store)
  {
    if CancelPayment(s, env, paymentId, gateway).reply.Ok? {
      ReplacePaymentConsistent(s, paymentId, s.payments[paymentId].(status := Cancelled));
    }
  }

  // ---------------------------------------------------------------------
  // GET /payment/status/:paymentId (PaymentRoute.ts:281-317)
  // ---------------------------------------------------------------------

  /** The 200 body of a status lookup: the payment's public fields and its linked subject. */
  datatype StatusView = StatusView(
    id: int, status: Status, amount: int, kind: Kind, reference: string,
    transactionId: Option<string>, paymentMethod: Option<string>, paidAt: Option<nat>, createdAt: nat,
    order: Option<OrderRecord>, booking: Option<BookingRecord>)

  /** A linked record, or None when the link is unset or dangling. */
  function Linked<T>(link: Option<int>, table: map<int, T>): (r: Option<T>)
    ensures r.Some? <==> link.Some? && link.value in table
    ensures r.Some? ==> r.value == table[link.value]
  {
    if link.Some? && link.value in table then Some(table[link.value]) else None
  }

  function PaymentStatus(s: Store, paymentId: int): (r: Reply<StatusView>)
    ensures r.Error? <==> paymentId !in s.payments
    ensures r.Error? ==> r == Error(404, PAYMENT_NOT_FOUND)
    ensures r.Ok? ==>
      var p := s.payments[paymentId];
      && r.body.id == p.id && r.body.status == p.status && r.body.amount == p.amount
      && r.body.kind == p.kind && r.body.reference == p.reference
      && r.body.transactionId == p.transactionId && r.body.paymentMethod == p.paymentMethod
      && r.body.paidAt == p.paidAt && r.body.createdAt == p.createdAt
      && (r.body.order.Some? <==> p.orderId.Some? && p.orderId.value in s.orders)
      && (r.body.order.Some? ==> r.body.order.value == s.orders[p.orderId.value])
      && (r.body.booking.Some? <==> p.bookingId.Some? && p.bookingId.value in s.bookings)
      && (r.body.booking.Some? ==> r.body.booking.value == s.bookings[p.bookingId.value])
  {
    if paymentId !in s.payments then Error(404, PAYMENT_NOT_FOUND)
    else
      var p := s.payments[paymentId];
      Ok(StatusView(p.id, p.status, p.amount, p.kind, p.reference, p.transactionId, p.paymentMethod,
                    p.paidAt, p.createdAt, Linked(p.orderId, s.orders), Linked(p.bookingId, s.bookings)))
  }

  /**
   * In a consistent store, a status reply carries at most one subject, the one
   * matching the payment's type, and reports paidAt only on Success or Cancelled.
   */
  lemma StatusShowsOneSubject(s: Store, paymentId: int)
    requires Consistent(s) && paymentId in s.payments
    ensures var v := PaymentStatus(s, paymentId).body;
      && (v.kind == Order ==> v.booking.None?)
      && (v.kind == Booking ==> v.order.None?)
      && (v.paidAt.Some? ==> v.status == Success || v.status == Cancelled)
  {
    assert Exclusive(s.payments[paymentId]);
  }

  // ---------------------------------------------------------------------
  // End to end
  // ---------------------------------------------------------------------

  /**
   * An order checkout followed by a settlement notification for its reference
   * leaves the payment Success, paid at the notification's clock, and the
   * order `Paid`.
   */
  lemma SettlementPaysOrder(
    s: Store, env: Env, req: CreateRequest, gateway: Option<GatewayToken>, now: nat,
    n: StatusResponse, later: nat)
    requires Consistent(s)
    requires req.paymentType == "Order"
    requires CreatePayment(s, env, req, gateway, now).reply.Ok?
    requires n.orderId == CreatePayment(s, env, req, gateway, now).reply.body.reference
    requires n.transactionStatus == "settlement"
    ensures var s1 := CreatePayment(s, env, req, gateway, now).store;
      var s2 := HandleNotification(s1, env, Some(n), later);
      var oid := req.orderId.value;
      && s2.reply.Ok?
      && s2.store.payments[s.nextId].status == Success
      && s2.store.payments[s.nextId].paidAt == Some(later)
      && oid in s2.store.orders && s2.store.orders[oid].status == "Paid"
  {
    var s1 := CreatePayment(s, env, req, gateway, now).store;
    CreateInsertsPendingPayment(s, env, req, gateway, now);
    CreatePreservesConsistency(s, env, req, gateway, now);
    var p := s1.payments[s.nextId];
    assert p.kind == Order;
    assert s1.references[n.orderId] == s.nextId;
    NotificationUpdatesOnlyMatchedPayment(s1, env, n, later);
    NotificationCascade(s1, env, n, later);
  }

  // ---------------------------------------------------------------------
  // The ledger as the server holds it
  // ---------------------------------------------------------------------

  class Ledger {
    var payments: map<int, Payment>
    var references: map<string, int>
    var orders: map<int, OrderRecord>
    var bookings: map<int, BookingRecord>
    var nextId: int

    function State(): Store
      reads this
    {
      Store(payments, references, orders, bookings, nextId)
    }

    /** An empty payment table over the given orders and bookings. */
    constructor (orders: map<int, OrderRecord>, bookings: map<int, BookingRecord>)
      requires forall k :: k in orders ==> orders[k].id == k
      requires forall k :: k in bookings ==> bookings[k].id == k
      ensures State() == Store(map[], map[], orders, bookings, 1)
      ensures Consistent(State())
    {
      this.payments := map[];
      this.references := map[];
      this.orders := orders;
      this.bookings := bookings;
      this.nextId := 1;
    }

    method Create(env: Env, req: CreateRequest, gateway: Option<GatewayToken>, now: nat) returns (reply: Reply<Created>)
      requires Consistent(State())
      modifies this
      ensures State() == CreatePayment(old(State()), env, req, gateway, now).store
      ensures reply == CreatePayment(old(State()), env, req, gateway, now).reply
      ensures Consistent(State())
    {
      CreatePreservesConsistency(State(), env, req, gateway, now);
      var prepared := PrepareCheckout(State(), env, req, now);
      if prepared.Error? {
        return Error(prepared.code, prepared.error);
      }
      var prep := prepared.body;
      if gateway.None? || prep.request.reference in references {
        return Error(500, CREATE_FAILED);
      }
      var payment := NewPayment(nextId, prep, gateway.value, now);
      payments := payments[payment.id := payment];
      references := references[payment.reference := payment.id];
      nextId := nextId + 1;
      reply := Ok(Created(payment.id, payment.token, payment.redirectUrl, payment.reference));
    }

    method Notify(env: Env, verified: Option<StatusResponse>, now: nat) returns (reply: Reply<string>)
      requires Consistent(State())
      modifies this
      ensures State() == HandleNotification(old(State()), env, verified, now).store
      ensures reply == HandleNotification(old(State()), env, verified, now).reply
      ensures Consistent(State())
    {
      NotificationPreservesConsistency(State(), env, verified, now);
      if env.serverKey == "" {
        return Error(500, SERVER_KEY_MISSING);
      }
      if verified.None? {
        return Error(500, NOTIFICATION_FAILED);
      }
      var n := verified.value;
      if n.orderId !in references || references[n.orderId] !in payments {
        return Error(404, PAYMENT_NOT_FOUND);
      }
      var id := references[n.orderId];
      var payment := payments[id];
      var decision := Reconcile(n.transactionStatus, n.fraudStatus, now);
      payments := payments[id := Notified(payment, n, decision)];
      if decision.status == Success {
        if payment.orderId.Some? && payment.orderId.value in orders {
          var orderId := payment.orderId.value;
          orders := orders[orderId := orders[orderId].(status := "Paid")];
        }
        if payment.bookingId.Some? && payment.bookingId.value in bookings {
          var bookingId := payment.bookingId.value;
          bookings := bookings[bookingId := bookings[bookingId].(status := "InProgress")];
        }
      }
      reply := Ok("ok");
    }

    method Cancel(env: Env, paymentId: int, gateway: Option<CancelResponse>) returns (reply: Reply<CancelReply>)
      requires Consistent(State())
      modifies this
      ensures State() == CancelPayment(old(State()), env, paymentId, gateway).store
      ensures reply == CancelPayment(old(State()), env, paymentId, gateway).reply
      ensures Consistent(State())
    {
      CancelPreservesConsistency(State(), env, paymentId, gateway);
      if paymentId !in payments {
        return Error(404, PAYMENT_NOT_FOUND);
      }
      if env.serverKey == "" {
        return Error(500, SERVER_KEY_MISSING);
      }
      if gateway.None? {
        return Error(500, CANCEL_FAILED);
      }
      payments := payments[paymentId := payments[paymentId].(status := Cancelled)];
      reply := Ok(CancelReply(paymentId, gateway.value.orderId, gateway.value.transactionStatus));
    }

    /** Reads only: the status endpoint changes nothing. */
    method Status(paymentId: int) returns (reply: Reply<StatusView>)
      ensures reply == PaymentStatus(State(), paymentId)
      ensures reply.Ok? ==> paymentId in payments && reply.body.status == payments[paymentId].status
    {
      if paymentId !in payments {
        return Error(404, PAYMENT_NOT_FOUND);
      }
      var p := payments[paymentId];
      reply := Ok(StatusView(p.id, p.status, p.amount, p.kind, p.reference, p.transactionId, p.paymentMethod,
                             p.paidAt, p.createdAt, Linked(p.orderId, orders), Linked(p.bookingId, bookings)));
    }
  }
}
