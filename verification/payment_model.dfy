/**
 * The pure parts of the payment routes (backend/routes/PaymentRoute.ts):
 * the entities the ledger stores, the mapping from a gateway notification to
 * a payment status, the gateway order reference, and the amount and line
 * items a checkout sends to the gateway.
 */
module PaymentModel {
  import opened Wrappers
  import Text

  /** `paymentType` of a payment: what it pays for. */
  datatype Kind = Order | Booking

  datatype Status = Pending | Success | Failed | Cancelled | Expired | Challenge

  /** A café order as the payment routes read it. `totalAmount` and line prices are decimals. */
  datatype OrderLineRecord = OrderLineRecord(productId: int, productName: string, price: real, quantity: int)
  datatype OrderRecord = OrderRecord(
    id: int, customerName: Option<string>, totalAmount: real, status: string, items: seq<OrderLineRecord>)

  /** A pool-table booking, with the table it books flattened in. A null `totalPrice` is None. */
  datatype BookingRecord = BookingRecord(
    id: int, customerName: Option<string>, totalPrice: Option<real>,
    tableId: int, tableName: string, durationHours: int, status: string)

  /**
   * One payment row. `reference` is the gateway order id (`midtransOrderId`);
   * `token` and `redirectUrl` are what the gateway returned at checkout.
   */
  datatype Payment = Payment(
    id: int,
    orderId: Option<int>,
    bookingId: Option<int>,
    kind: Kind,
    amount: int,
    status: Status,
    reference: string,
    token: string,
    redirectUrl: string,
    transactionId: Option<string>,
    paymentMethod: Option<string>,
    paidAt: Option<nat>,
    createdAt: nat)

  /** Exactly one of `orderId` / `bookingId` is set, the one matching the payment's kind. */
  predicate Exclusive(p: Payment) {
    match p.kind
    case Order => p.orderId.Some? && p.bookingId.None?
    case Booking => p.bookingId.Some? && p.orderId.None?
  }

  // ---------------------------------------------------------------------
  // Status mapping (PaymentRoute.ts:214-243)
  // ---------------------------------------------------------------------

  /** The new status and the new `paidAt` a notification leads to. */
  datatype Decision = Decision(status: Status, paidAt: Option<nat>)

  /**
   * The if-chain over the verified `transaction_status` and `fraud_status`.
   * `newStatus` starts out `Pending`, so a `capture` whose fraud status is
   * neither `challenge` nor `accept` (or is absent) stays `Pending`.
   */
  function Reconcile(transactionStatus: string, fraudStatus: Option<string>, now: nat): (d: Decision)
    ensures d.paidAt.Some? <==> d.status == Success
    ensures d.paidAt.Some? ==> d.paidAt.value == now
    ensures d.status == Success <==>
      (transactionStatus == "capture" && fraudStatus == Some("accept")) || transactionStatus == "settlement"
    ensures d.status == Challenge <==> transactionStatus == "capture" && fraudStatus == Some("challenge")
  {
    if transactionStatus == "capture" then
      if fraudStatus == Some("challenge") then Decision(Challenge, None)
      else if fraudStatus == Some("accept") then Decision(Success, Some(now))
      else Decision(Pending, None)
    else if transactionStatus == "settlement" then Decision(Success, Some(now))
    else if transactionStatus == "cancel" || transactionStatus == "deny" then Decision(Cancelled, None)
    else if transactionStatus == "expire" then Decision(Expired, None)
    else if transactionStatus == "pending" then Decision(Pending, None)
    else Decision(Failed, None)
  }

  /** A row of the status table; a `fraud` of None matches any fraud status. */
  datatype Row = Row(transaction: string, fraud: Option<string>, status: Status)

  /**
   * The gateway's transaction statuses and the payment status each one maps
   * to, first match wins. Read as a total table, an input no row covers would
   * be Failed; the code keeps Pending for an uncovered capture.
   */
  const STATUS_TABLE: seq<Row> := [
    Row("capture", Some("challenge"), Challenge),
    Row("capture", Some("accept"), Success),
    Row("settlement", None, Success),
    Row("cancel", None, Cancelled),
    Row("deny", None, Cancelled),
    Row("expire", None, Expired),
    Row("pending", None, Pending)
  ]

  /** Whether `row` matches the given transaction and fraud status. */
  predicate RowMatches(row: Row, transactionStatus: string, fraudStatus: Option<string>) {
    row.transaction == transactionStatus && (row.fraud.None? || row.fraud == fraudStatus)
  }

  function Lookup(table: seq<Row>, transactionStatus: string, fraudStatus: Option<string>): Option<Status> {
    if table == [] then None
    else if RowMatches(table[0], transactionStatus, fraudStatus) then Some(table[0].status)
    else Lookup(table[1..], transactionStatus, fraudStatus)
  }

  /** One step of the first-match scan over the status table, from row `i` on. */
  lemma LookupStep(i: nat, transactionStatus: string, fraudStatus: Option<string>)
    requires i < |STATUS_TABLE|
    ensures Lookup(STATUS_TABLE[i..], transactionStatus, fraudStatus) ==
      if RowMatches(STATUS_TABLE[i], transactionStatus, fraudStatus) then Some(STATUS_TABLE[i].status)
      else Lookup(STATUS_TABLE[i + 1..], transactionStatus, fraudStatus)
  {
    assert STATUS_TABLE[i..][0] == STATUS_TABLE[i];
    assert STATUS_TABLE[i..][1..] == STATUS_TABLE[i + 1..];
  }

  /**
   * The if-chain agrees with the table on every input the table covers; an
   * input no row covers is `Failed`, except a `capture` that no capture row
   * matches, which is `Pending`.
   */
  lemma ReconcileFollowsTable(transactionStatus: string, fraudStatus: Option<string>, now: nat)
    ensures Reconcile(transactionStatus, fraudStatus, now).status ==
      match Lookup(STATUS_TABLE, transactionStatus, fraudStatus)
      case Some(s) => s
      case None => if transactionStatus == "capture" then Pending else Failed
  {
    var ts, fs := transactionStatus, fraudStatus;
    if ts == "capture" {
      CaptureRows(fs);
    } else {
      OtherRows(ts, fs);
    }
  }

  /** The table on a `capture`: the two capture rows decide, nothing else matches. */
  lemma CaptureRows(fraudStatus: Option<string>)
    ensures Lookup(STATUS_TABLE, "capture", fraudStatus) ==
      if fraudStatus == Some("challenge") then Some(Challenge)
      else if fraudStatus == Some("accept") then Some(Success)
      else None
  {
    var fs := fraudStatus;
    assert STATUS_TABLE[0..] == STATUS_TABLE;
    LookupStep(0, "capture", fs);
    LookupStep(1, "capture", fs);
    if fs != Some("challenge") && fs != Some("accept") {
      LaterRowsMiss("capture", fs);
    }
  }

  /** Rows 2 to 6 only match the transaction status they name. */
  lemma LaterRowsMiss(transactionStatus: string, fraudStatus: Option<string>)
    requires transactionStatus !in {"settlement", "cancel", "deny", "expire", "pending"}
    ensures Lookup(STATUS_TABLE[2..], transactionStatus, fraudStatus) == None
  {
    var ts, fs := transactionStatus, fraudStatus;
    LookupStep(2, ts, fs);
    LookupStep(3, ts, fs);
    LookupStep(4, ts, fs);
    LookupStep(5, ts, fs);
    LookupStep(6, ts, fs);
    assert STATUS_TABLE[7..] == [];
  }

  /** The table on anything but a `capture`: the capture rows never match. */
  lemma OtherRows(transactionStatus: string, fraudStatus: Option<string>)
    requires transactionStatus != "capture"
    ensures Lookup(STATUS_TABLE, transactionStatus, fraudStatus) ==
      if transactionStatus == "settlement" then Some(Success)
      else if transactionStatus == "cancel" || transactionStatus == "deny" then Some(Cancelled)
      else if transactionStatus == "expire" then Some(Expired)
      else if transactionStatus == "pending" then Some(Pending)
      else None
  {
    var ts, fs := transactionStatus, fraudStatus;
    assert STATUS_TABLE[0..] == STATUS_TABLE;
    LookupStep(0, ts, fs);
    LookupStep(1, ts, fs);
    if ts !in {"settlement", "cancel", "deny", "expire", "pending"} {
      LaterRowsMiss(ts, fs);
    } else {
      LookupStep(2, ts, fs);
      LookupStep(3, ts, fs);
      LookupStep(4, ts, fs);
      LookupStep(5, ts, fs);
      LookupStep(6, ts, fs);
    }
  }

  /** A `capture` without a `challenge` or `accept` fraud status leaves the initial `Pending`, not `Failed`. */
  lemma CaptureFallsThroughToPending(fraudStatus: Option<string>, now: nat)
    requires fraudStatus != Some("challenge") && fraudStatus != Some("accept")
    ensures Lookup(STATUS_TABLE, "capture", fraudStatus).None?
    ensures Reconcile("capture", fraudStatus, now) == Decision(Pending, None)
  {
    CaptureRows(fraudStatus);
  }

  // ---------------------------------------------------------------------
  // The gateway order reference (PaymentRoute.ts:123)
  // ---------------------------------------------------------------------

  /** `paymentType.toUpperCase()` for the two payment types that pass validation. */
  function KindTag(kind: Kind): string {
    match kind
    case Order => "ORDER"
    case Booking => "BOOKING"
  }

  /** `${TYPE}-${id}-${Date.now()}`. */
  function Reference(kind: Kind, subjectId: int, timestamp: nat): string {
    KindTag(kind) + "-" + IdAndTime(subjectId, timestamp)
  }

  /** The `<id>-<timestamp>` tail of a reference. */
  function IdAndTime(subjectId: int, timestamp: nat): string {
    Text.IntToString(subjectId) + "-" + Text.NatToString(timestamp)
  }

  datatype ReferenceParts = ReferenceParts(kind: Kind, subjectId: int, timestamp: nat)

  /** Position of the last `c` in `s`. */
  function LastIndexOf(s: string, c: char): (r: Option<nat>)
    ensures r.Some? ==> r.value < |s| && s[r.value] == c
    ensures r.Some? ==> forall j :: r.value < j < |s| ==> s[j] != c
    ensures r.None? ==> forall j :: 0 <= j < |s| ==> s[j] != c
  {
    if s == [] then None
    else if s[|s| - 1] == c then Some(|s| - 1)
    else LastIndexOf(s[..|s| - 1], c)
  }

  /** Reads a reference back into its kind, subject id and timestamp. */
  function ParseReference(s: string): Option<ReferenceParts> {
    if "ORDER-" <= s then ParseIdAndTime(Order, s[6..])
    else if "BOOKING-" <= s then ParseIdAndTime(Booking, s[8..])
    else None
  }

  /** Splits `<id>-<timestamp>` at its last dash; the id may carry a minus sign. */
  function ParseIdAndTime(kind: Kind, rest: string): Option<ReferenceParts> {
    match LastIndexOf(rest, '-')
    case None => None
    case Some(k) =>
      var idText, timeText := rest[..k], rest[k + 1..];
      if Text.IsIntText(idText) && |timeText| > 0 && Text.AllDigits(timeText)
      then Some(ReferenceParts(kind, Text.ParseInt(idText), Text.ParseNat(timeText)))
      else None
  }

  /** The last dash of `<a>-<digits>` is the one after `a`. */
  lemma {:induction false} LastDashBeforeDigits(a: string, digits: string)
    requires Text.AllDigits(digits)
    ensures LastIndexOf(a + "-" + digits, '-') == Some(|a|)
    decreases |digits|
  {
    var s := a + "-" + digits;
    if digits != [] {
      var init := digits[..|digits| - 1];
      assert s[..|s| - 1] == a + "-" + init;
      assert s[|s| - 1] == digits[|digits| - 1];
      LastDashBeforeDigits(a, init);
    }
  }

  lemma ParseIdAndTimeRoundTrip(kind: Kind, subjectId: int, timestamp: nat)
    ensures ParseIdAndTime(kind, IdAndTime(subjectId, timestamp)) == Some(ReferenceParts(kind, subjectId, timestamp))
  {
    var idText := Text.IntToString(subjectId);
    var timeText := Text.NatToString(timestamp);
    var rest := idText + "-" + timeText;
    LastDashBeforeDigits(idText, timeText);
    assert rest[..|idText|] == idText;
    assert rest[|idText| + 1..] == timeText;
    Text.ParseIntRoundTrip(subjectId);
    Text.ParseNatRoundTrip(timestamp);
  }

  /** The tag in front of a reference selects the kind and leaves the rest to parse. */
  lemma ParseAfterTag(kind: Kind, rest: string)
    ensures ParseReference(KindTag(kind) + "-" + rest) == ParseIdAndTime(kind, rest)
  {
    var s := KindTag(kind) + "-" + rest;
    match kind
    case Order =>
      assert s[..6] == "ORDER-";
      assert s[6..] == rest;
    case Booking =>
      assert s[..8] == "BOOKING-";
      assert s[8..] == rest;
      assert s[0] == 'B';
  }

  /** The reference carries its kind, subject id and timestamp recoverably. */
  lemma ReferenceRoundTrip(kind: Kind, subjectId: int, timestamp: nat)
    ensures ParseReference(Reference(kind, subjectId, timestamp)) == Some(ReferenceParts(kind, subjectId, timestamp))
  {
    ParseAfterTag(kind, IdAndTime(subjectId, timestamp));
    ParseIdAndTimeRoundTrip(kind, subjectId, timestamp);
  }

  /** Different (kind, subject, timestamp) triples never share a reference. */
  lemma ReferenceInjective(k1: Kind, id1: int, t1: nat, k2: Kind, id2: int, t2: nat)
    requires Reference(k1, id1, t1) == Reference(k2, id2, t2)
    ensures k1 == k2 && id1 == id2 && t1 == t2
  {
    ReferenceRoundTrip(k1, id1, t1);
    ReferenceRoundTrip(k2, id2, t2);
  }

  // ---------------------------------------------------------------------
  // Amounts and line items (PaymentRoute.ts:87-94, 109-116)
  // ---------------------------------------------------------------------

  /** `parseInt(x.toString())` on a decimal: the integer part, truncating toward zero. */
  function Truncate(x: real): (r: int)
    ensures x >= 0.0 ==> 0 <= r && r as real <= x < r as real + 1.0
    ensures x < 0.0 ==> r <= 0 && r as real - 1.0 < x <= r as real
  {
    if x >= 0.0 then x.Floor else -((-x).Floor)
  }

  /** One entry of the gateway's `item_details`. */
  datatype ItemDetail = ItemDetail(id: int, price: int, quantity: int, name: string)

  function OrderAmount(order: OrderRecord): int {
    Truncate(order.totalAmount)
  }

  /** `parseInt((booking.totalPrice || 0).toString())`: a null price is 0. */
  function BookingAmount(booking: BookingRecord): int {
    Truncate(booking.totalPrice.GetOr(0.0))
  }

  /** `order.orderItems.map(...)`: one entry per line, with the truncated line price. */
  function OrderItemDetails(items: seq<OrderLineRecord>): (r: seq<ItemDetail>)
    ensures |r| == |items|
    ensures forall i :: 0 <= i < |items| ==>
      r[i] == ItemDetail(items[i].productId, Truncate(items[i].price), items[i].quantity, items[i].productName)
  {
    if items == [] then []
    else
      var first := ItemDetail(items[0].productId, Truncate(items[0].price), items[0].quantity, items[0].productName);
      [first] + OrderItemDetails(items[1..])
  }

  /** The single synthetic entry of a booking: the table, its duration, the whole amount once. */
  function BookingItemDetails(booking: BookingRecord, amount: int): seq<ItemDetail> {
    [ItemDetail(booking.tableId, amount, 1,
                booking.tableName + " - " + Text.IntToString(booking.durationHours) + " jam")]
  }

  /** `order.customerName || "Customer"`: null and the empty name both fall back. */
  function CustomerName(name: Option<string>): (r: string)
    ensures r != ""
    ensures name.Some? && name.value != "" ==> r == name.value
    ensures !(name.Some? && name.value != "") ==> r == "Customer"
  {
    if name.Some? && name.value != "" then name.value else "Customer"
  }

  /** Sum of price times quantity over gateway line items. */
  function ItemsTotal(items: seq<ItemDetail>): int {
    if items == [] then 0 else items[0].price * items[0].quantity + ItemsTotal(items[1..])
  }

  /** Sum of price times quantity over an order's lines, in decimals. */
  function LinesTotal(lines: seq<OrderLineRecord>): real {
    if lines == [] then 0.0 else lines[0].price * lines[0].quantity as real + LinesTotal(lines[1..])
  }

  /** Every line price is a whole number of rupiah. */
  predicate WholePrices(lines: seq<OrderLineRecord>) {
    forall i :: 0 <= i < |lines| ==> lines[i].price == lines[i].price.Floor as real
  }

  /** For a whole price, the truncated line total equals the decimal one. */
  lemma WholeLineTotal(line: OrderLineRecord)
    requires line.price == line.price.Floor as real
    ensures (Truncate(line.price) * line.quantity) as real == line.price * line.quantity as real
  {
    var t := Truncate(line.price);
    assert t == line.price.Floor;
    assert t as real == line.price;
  }

  lemma {:induction false} ItemsTotalOfWholeLines(lines: seq<OrderLineRecord>)
    requires WholePrices(lines)
    ensures ItemsTotal(OrderItemDetails(lines)) as real == LinesTotal(lines)
  {
    if lines != [] {
      var details := OrderItemDetails(lines);
      assert WholePrices(lines[1..]) by {
        forall i | 0 <= i < |lines[1..]|
          ensures lines[1..][i].price == lines[1..][i].price.Floor as real
        {
          assert lines[1..][i] == lines[i + 1];
        }
      }
      ItemsTotalOfWholeLines(lines[1..]);
      WholeLineTotal(lines[0]);
      assert details[1..] == OrderItemDetails(lines[1..]);
      assert details[0].price * details[0].quantity == Truncate(lines[0].price) * lines[0].quantity;
    }
  }

  /**
   * When an order's lines carry whole prices and its total is their sum, the
   * line items sent to the gateway add up to the gross amount sent with them.
   */
  lemma OrderItemsMatchAmount(order: OrderRecord)
    requires WholePrices(order.items)
    requires order.totalAmount == LinesTotal(order.items)
    ensures ItemsTotal(OrderItemDetails(order.items)) == OrderAmount(order)
  {
    ItemsTotalOfWholeLines(order.items);
    var t := ItemsTotal(OrderItemDetails(order.items));
    assert order.totalAmount == t as real;
    assert Truncate(t as real) == t;
  }

  /** A booking's one line item always adds up to the gross amount. */
  lemma BookingItemsMatchAmount(booking: BookingRecord)
    ensures ItemsTotal(BookingItemDetails(booking, BookingAmount(booking))) == BookingAmount(booking)
  {
  }
}
