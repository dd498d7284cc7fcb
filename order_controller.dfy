/**
 * Order placement and administration (src/controllers/orderController.js): the cart is
 * priced from the catalog, a gateway order is requested, the order is stored and the
 * cart emptied.
 */
module OrderController {
  import opened Wrappers
  import opened Ids
  import opened Errors
  import opened Http
  import opened CartModel
  import opened MenuModel
  import opened OrderModel
  import opened Store

  /** Every line's menu item is still in the catalog, so `populate` finds its price. */
  predicate AllPriced(lines: seq<CartLine>, menu: map<Id, MenuItem>) {
    forall k :: 0 <= k < |lines| ==> lines[k].menuItemId in menu
  }

  /** The `reduce` of line 21: `sum + price * quantity` from the first line to the last, from 0. */
  function CartTotal(lines: seq<CartLine>, menu: map<Id, MenuItem>): (r: int)
    requires AllPriced(lines, menu)
    ensures (forall k :: 0 <= k < |lines| ==> lines[k].quantity >= 0 && menu[lines[k].menuItemId].price >= 0) ==> r >= 0
    ensures |lines| == 1 ==> r == menu[lines[0].menuItemId].price * lines[0].quantity
  {
    if lines == [] then 0
    else
      var last := lines[|lines| - 1];
      CartTotal(lines[..|lines| - 1], menu) + menu[last.menuItemId].price * last.quantity
  }

  /** The `map` of lines 24-28: one order line per cart line, priced at the catalog price. */
  function Snapshot(lines: seq<CartLine>, menu: map<Id, MenuItem>): (r: seq<OrderLine>)
    requires AllPriced(lines, menu)
    ensures |r| == |lines|
    ensures forall k :: 0 <= k < |r| ==>
      r[k].menuItemId == lines[k].menuItemId && r[k].quantity == lines[k].quantity &&
      r[k].priceAtPurchase == menu[lines[k].menuItemId].price
  {
    seq(|lines|, k requires 0 <= k < |lines| =>
      OrderLine(lines[k].menuItemId, lines[k].quantity, menu[lines[k].menuItemId].price))
  }

  lemma {:induction false} LinesTotalAppend(lines: seq<OrderLine>, x: OrderLine)
    ensures LinesTotal(lines + [x]) == LinesTotal(lines) + x.priceAtPurchase * x.quantity
  {
    if lines != [] {
      assert (lines + [x])[1..] == lines[1..] + [x];
      LinesTotalAppend(lines[1..], x);
    }
  }

  /** The stored total is the sum of `priceAtPurchase * quantity` over the stored lines. */
  lemma {:induction false} SnapshotTotal(lines: seq<CartLine>, menu: map<Id, MenuItem>)
    requires AllPriced(lines, menu)
    ensures LinesTotal(Snapshot(lines, menu)) == CartTotal(lines, menu)
  {
    if lines != [] {
      var n := |lines| - 1;
      var init := lines[..n];
      assert AllPriced(init, menu);
      assert Snapshot(lines, menu) == Snapshot(init, menu) + [Snapshot(lines, menu)[n]];
      SnapshotTotal(init, menu);
      LinesTotalAppend(Snapshot(init, menu), Snapshot(lines, menu)[n]);
    }
  }

  /** What `razorpay.orders.create` is asked for: an amount in paise, a currency, a receipt. */
  datatype GatewayRequest = GatewayRequest(amount: int, currency: string, receipt: string)

  /** What the gateway call gives back: an order with some `id`, no order, or an exception. */
  datatype GatewayReply = Issued(id: string) | NoOrder | Threw

  /** The request for a cart worth `total` rupees. */
  function GatewayRequestFor(total: int, receipt: string): (r: GatewayRequest)
    ensures r.amount == total * 100 && r.currency == "INR" && r.receipt == receipt
  {
    GatewayRequest(total * 100, "INR", receipt)
  }

  /** The document `Order.create` stores at lines 49-57: defaults plus the explicit fields. */
  function PlacedOrder(userId: Id, items: seq<OrderLine>, total: int, gatewayId: string): (o: Order)
    ensures o.userId == userId && o.items == items && o.totalPrice == total
    ensures o.status == Processing && o.paymentStatus == Pending
    ensures o.transactionId == Some("") && o.razorpayOrderId == Some(gatewayId)
    ensures o.razorpayPaymentId.None? && o.razorpaySignature.None?
    ensures o.estimatedTimeRemaining == DefaultEstimatedTimeRemaining
  {
    NewOrder(userId, items, total).(transactionId := Some(""), razorpayOrderId := Some(gatewayId))
  }

  /**
   * `createOrder`. The receipt (built from the clock) and the gateway are parameters.
   * Every failure leaves the store as it was.
   */
  method CreateOrder(s: Store, userId: Id, gateway: GatewayRequest -> GatewayReply, receipt: string) returns (o: Outcome)
    requires s.Valid()
    modifies s
    ensures s.Valid()
    ensures s.menu == old(s.menu) && s.users == old(s.users)
    ensures PaidKept(old(s.orders), s.orders)
    ensures userId !in old(s.carts) || old(s.carts)[userId].items == [] ==>
      o == Fail(400, "Cart is empty, cannot create order") && unchanged(s)
    ensures userId in old(s.carts) && old(s.carts)[userId].items != [] && !AllPriced(old(s.carts)[userId].items, old(s.menu)) ==>
      o == Fail(500, "Error creating order") && unchanged(s)
    ensures userId in old(s.carts) && old(s.carts)[userId].items != [] && AllPriced(old(s.carts)[userId].items, old(s.menu)) ==>
      var lines := old(s.carts)[userId].items;
      var total := CartTotal(lines, old(s.menu));
      var reply := gateway(GatewayRequestFor(total, receipt));
      && (reply.Threw? ==> o == Fail(500, "Error creating order") && unchanged(s))
      && (reply.NoOrder? || reply == Issued("") ==> o == Fail(500, "Failed to create Razorpay order") && unchanged(s))
      && (reply.Issued? && reply.id != "" ==>
            && o == Reply(201, "Order created, proceed to payment")
            && old(s.nextId) !in old(s.orders)
            && s.orders == old(s.orders)[old(s.nextId) := PlacedOrder(userId, Snapshot(lines, old(s.menu)), total, reply.id)]
            && s.carts == old(s.carts)[userId := Cart(userId, [])])
  {
    if userId !in s.carts || s.carts[userId].items == [] {
      return Fail(400, "Cart is empty, cannot create order");
    }
    var lines := s.carts[userId].items;
    if !AllPriced(lines, s.menu) {
      return Fail(500, "Error creating order");
    }
    var total := CartTotal(lines, s.menu);
    var items := Snapshot(lines, s.menu);
    var reply := gateway(GatewayRequestFor(total, receipt));
    if reply.Threw? {
      return Fail(500, "Error creating order");
    }
    if reply.NoOrder? || reply.id == "" {
      return Fail(500, "Failed to create Razorpay order");
    }
    SnapshotTotal(lines, s.menu);
    var id := s.FreshId();
    s.orders := s.orders[id := PlacedOrder(userId, items, total, reply.id)];
    s.carts := s.carts[userId := Cart(userId, [])];
    o := Reply(201, "Order created, proceed to payment");
  }

  /** The ids of the orders placed by `userId`. */
  function OrdersOf(orders: map<Id, Order>, userId: Id): set<Id> {
    set k | k in orders && orders[k].userId == userId
  }

  /** `getUserOrders`: a user without orders gets 404, never an empty list. */
  function GetUserOrders(orders: map<Id, Order>, userId: Id): (o: Outcome)
    ensures o.Respond? <==> exists k :: k in orders && orders[k].userId == userId
    ensures o.Respond? ==> o == Reply(200, "User orders fetched successfully")
    ensures !o.Respond? ==> o == Fail(404, "No orders found for this user") && Status(o) == 404
  {
    if OrdersOf(orders, userId) == {} then
      assert forall k :: k in orders && orders[k].userId == userId ==> k in OrdersOf(orders, userId);
      Fail(404, "No orders found for this user")
    else
      Reply(200, "User orders fetched successfully")
  }

  /**
   * `updateOrderStatus`: a malformed id makes the lookup throw (500), an unknown id is
   * reported before the status is looked at, and only `status` changes.
   */
  method UpdateOrderStatus(s: Store, id: RequestId, status: string) returns (o: Outcome)
    requires s.Valid()
    modifies s
    ensures s.Valid()
    ensures s.carts == old(s.carts) && s.menu == old(s.menu) && s.users == old(s.users) && s.nextId == old(s.nextId)
    ensures PaidKept(old(s.orders), s.orders)
    ensures id.Malformed? ==> o == Respond(500, Some(false), "Failed to update order status") && unchanged(s)
    ensures id.Valid? && id.id !in old(s.orders) ==> o == Respond(404, Some(false), "Order not found") && unchanged(s)
    ensures id.Valid? && id.id in old(s.orders) && ParseStatus(status).None? ==>
      o == Respond(400, Some(false), "Invalid status") && unchanged(s)
    ensures id.Valid? && id.id in old(s.orders) && ParseStatus(status).Some? ==>
      && o == Respond(200, Some(true), "Order status updated successfully")
      && s.orders == old(s.orders)[id.id := old(s.orders)[id.id].(status := ParseStatus(status).value)]
  {
    if id.Malformed? {
      return Respond(500, Some(false), "Failed to update order status");
    }
    var k := id.id;
    if k !in s.orders {
      return Respond(404, Some(false), "Order not found");
    }
    var parsed := ParseStatus(status);
    if parsed.None? {
      return Respond(400, Some(false), "Invalid status");
    }
    s.orders := s.orders[k := s.orders[k].(status := parsed.value)];
    o := Respond(200, Some(true), "Order status updated successfully");
  }
}
