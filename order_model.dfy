/** The order schema (src/models/order.js): line items, statuses and their defaults. */
module OrderModel {
  import opened Wrappers
  import opened Ids

  datatype OrderStatus = Processing | Completed | Cancelled

  datatype PaymentStatus = Pending | Paid | Failed

  const DefaultStatus: OrderStatus := Processing

  const DefaultPaymentStatus: PaymentStatus := Pending

  /** `estimatedTimeRemaining` defaults to ten minutes, in milliseconds. */
  const DefaultEstimatedTimeRemaining: int := 10 * 60 * 1000

  function StatusName(s: OrderStatus): string {
    match s
    case Processing => "processing"
    case Completed => "completed"
    case Cancelled => "cancelled"
  }

  /** The three values `status` may take, as the admin endpoint checks them. */
  function ParseStatus(s: string): (r: Option<OrderStatus>)
    ensures r.Some? ==> StatusName(r.value) == s
    ensures r.None? ==> forall st: OrderStatus :: StatusName(st) != s
  {
    if s == "processing" then Some(Processing)
    else if s == "completed" then Some(Completed)
    else if s == "cancelled" then Some(Cancelled)
    else None
  }

  lemma StatusRoundTrip(st: OrderStatus)
    ensures ParseStatus(StatusName(st)) == Some(st)
  {
  }

  /** One purchased line; all three fields are required. */
  datatype OrderLine = OrderLine(menuItemId: Id, quantity: int, priceAtPurchase: int)

  /** An order; the optional string fields are `None` until set. */
  datatype Order = Order(
    userId: Id,
    items: seq<OrderLine>,
    totalPrice: int,
    status: OrderStatus,
    paymentStatus: PaymentStatus,
    estimatedTimeRemaining: int,
    transactionId: Option<string>,
    razorpayOrderId: Option<string>,
    razorpayPaymentId: Option<string>,
    razorpaySignature: Option<string>,
    notes: Option<string>)

  /** The sum of `priceAtPurchase * quantity` over the lines. */
  function LinesTotal(lines: seq<OrderLine>): int {
    if lines == [] then 0 else lines[0].priceAtPurchase * lines[0].quantity + LinesTotal(lines[1..])
  }

  /** `Order.create` given only the required fields: every default from the schema applies. */
  function NewOrder(userId: Id, items: seq<OrderLine>, totalPrice: int): (o: Order)
    ensures o.userId == userId && o.items == items && o.totalPrice == totalPrice
    ensures o.status == DefaultStatus && o.paymentStatus == DefaultPaymentStatus
    ensures o.estimatedTimeRemaining == 600000
    ensures o.transactionId.None? && o.razorpayOrderId.None? && o.razorpayPaymentId.None?
    ensures o.razorpaySignature.None? && o.notes.None?
  {
    Order(userId, items, totalPrice, DefaultStatus, DefaultPaymentStatus, DefaultEstimatedTimeRemaining,
      None, None, None, None, None)
  }
}
