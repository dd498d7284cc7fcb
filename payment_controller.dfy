/**
 * Payment settlement (src/controllers/paymentController.js): the client confirms a
 * payment with a signature over the gateway's order and payment ids, or the gateway
 * reports a captured payment through a signed webhook. Either way the order becomes paid.
 */
module PaymentController {
  import opened Wrappers
  import opened Ids
  import opened Http
  import opened CartModel
  import opened OrderModel
  import opened Store

  /** `hmac.update(order_id + "|" + payment_id)`: the text the client signature covers. */
  function SignedText(orderRef: string, paymentRef: string): (r: string)
    ensures |r| == |orderRef| + 1 + |paymentRef|
    ensures r[..|orderRef|] == orderRef && r[|orderRef|] == '|' && r[|orderRef| + 1..] == paymentRef
  {
    orderRef + "|" + paymentRef
  }

  /** With no `|` in the gateway's order id, the signed text determines both ids. */
  lemma SignedTextInjective(o1: string, p1: string, o2: string, p2: string)
    requires '|' !in o1 && '|' !in o2
    requires SignedText(o1, p1) == SignedText(o2, p2)
    ensures o1 == o2 && p1 == p2
  {
    var t := SignedText(o1, p1);
    if |o1| != |o2| {
      assert false;
    }
    assert o1 == t[..|o1|] == o2;
  }

  /** Lines 88-90: paid, with the confirmed payment id and signature; nothing else changes. */
  function Settle(o: Order, paymentRef: string, signature: string): (r: Order)
    ensures r.paymentStatus == Paid && r.razorpayPaymentId == Some(paymentRef) && r.razorpaySignature == Some(signature)
    ensures r.(paymentStatus := o.paymentStatus, razorpayPaymentId := o.razorpayPaymentId, razorpaySignature := o.razorpaySignature) == o
  {
    o.(paymentStatus := Paid, razorpayPaymentId := Some(paymentRef), razorpaySignature := Some(signature))
  }

  /** Lines 153-154: paid, with the captured payment id; the signature is not touched. */
  function Capture(o: Order, paymentRef: string): (r: Order)
    ensures r.paymentStatus == Paid && r.razorpayPaymentId == Some(paymentRef)
    ensures r.(paymentStatus := o.paymentStatus, razorpayPaymentId := o.razorpayPaymentId) == o
  {
    o.(paymentStatus := Paid, razorpayPaymentId := Some(paymentRef))
  }

  /** The stored orders whose gateway order id is `orderRef`; `findOne` returns one of them. */
  function Matching(orders: map<Id, Order>, orderRef: string): set<Id> {
    set k | k in orders && orders[k].razorpayOrderId == Some(orderRef)
  }

  /**
   * `verifyPayment`. The HMAC-SHA256 hex digest is the parameter `hmac`, keyed with the
   * key secret. The response bodies carry no `success` field.
   */
  method VerifyPayment(s: Store, orderRef: string, paymentRef: string, signature: string,
                       keySecret: string, hmac: (string, string) -> string)
    returns (o: Outcome, settled: Option<Id>)
    requires s.Valid()
    modifies s
    ensures s.Valid()
    ensures s.menu == old(s.menu) && s.users == old(s.users) && s.nextId == old(s.nextId)
    ensures PaidKept(old(s.orders), s.orders)
    ensures Matching(old(s.orders), orderRef) == {} ==>
      o == Respond(404, None, "Order not found!") && settled.None? && unchanged(s)
    ensures Matching(old(s.orders), orderRef) != {} && hmac(keySecret, SignedText(orderRef, paymentRef)) != signature ==>
      o == Respond(401, None, "Payment verification failed!") && settled.None? && unchanged(s)
    ensures settled.Some? ==>
      var k := settled.value;
      && k in Matching(old(s.orders), orderRef)
      && hmac(keySecret, SignedText(orderRef, paymentRef)) == signature
      && o == Respond(200, None, "Payment Verified")
      && s.orders == old(s.orders)[k := Settle(old(s.orders)[k], paymentRef, signature)]
      && s.carts == old(s.carts) - {old(s.orders)[k].userId}
    ensures Matching(old(s.orders), orderRef) != {} && hmac(keySecret, SignedText(orderRef, paymentRef)) == signature ==>
      settled.Some?
  {
    if Matching(s.orders, orderRef) == {} {
      return Respond(404, None, "Order not found!"), None;
    }
    var k :| k in Matching(s.orders, orderRef);
    if hmac(keySecret, SignedText(orderRef, paymentRef)) != signature {
      return Respond(401, None, "Payment verification failed!"), None;
    }
    var order := s.orders[k];
    s.orders := s.orders[k := Settle(order, paymentRef, signature)];
    s.carts := s.carts - {order.userId};
    o, settled := Respond(200, None, "Payment Verified"), Some(k);
  }

  /** The captured payment inside `payload.payment.entity`. */
  datatype PaymentEntity = PaymentEntity(orderRef: string, paymentRef: string)

  /** A webhook body: its `event` name and, when the payload has one, the payment entity. */
  datatype WebhookEvent = WebhookEvent(name: string, entity: Option<PaymentEntity>)

  const CapturedEvent: string := "payment.captured"

  /**
   * `handleWebhook`. The header is `None` when absent; `signedBody` stands for the
   * serialised body the signature is computed over. A captured event without a payment
   * entity makes the destructuring throw (500).
   */
  method HandleWebhook(s: Store, header: Option<string>, signedBody: string, event: WebhookEvent,
                       webhookSecret: string, hmac: (string, string) -> string)
    returns (o: Outcome, captured: Option<Id>)
    requires s.Valid()
    modifies s
    ensures s.Valid()
    ensures s.carts == old(s.carts) && s.menu == old(s.menu) && s.users == old(s.users) && s.nextId == old(s.nextId)
    ensures PaidKept(old(s.orders), s.orders)
    ensures header.None? || header == Some("") ==>
      o == Respond(400, Some(false), "Missing Razorpay signature") && captured.None? && unchanged(s)
    ensures header.Some? && header.value != "" && hmac(webhookSecret, signedBody) != header.value ==>
      o == Respond(400, Some(false), "Invalid webhook signature") && captured.None? && unchanged(s)
    ensures header.Some? && header.value != "" && hmac(webhookSecret, signedBody) == header.value ==>
      && (event.name != CapturedEvent ==>
            o == Respond(200, Some(true), "Webhook processed successfully") && captured.None? && unchanged(s))
      && (event.name == CapturedEvent && event.entity.None? ==>
            o == Respond(500, Some(false), "Server error processing webhook") && captured.None? && unchanged(s))
      && (event.name == CapturedEvent && event.entity.Some? &&
          Matching(old(s.orders), event.entity.value.orderRef) == {} ==>
            o == Respond(404, Some(false), "Order not found") && captured.None? && unchanged(s))
      && (event.name == CapturedEvent && event.entity.Some? &&
          Matching(old(s.orders), event.entity.value.orderRef) != {} ==>
            captured.Some? && o == Respond(200, Some(true), "Webhook processed successfully"))
    ensures captured.Some? ==>
      var k := captured.value;
      && event.name == CapturedEvent && event.entity.Some?
      && k in Matching(old(s.orders), event.entity.value.orderRef)
      && s.orders == old(s.orders)[k := Capture(old(s.orders)[k], event.entity.value.paymentRef)]
  {
    if header.None? || header.value == "" {
      return Respond(400, Some(false), "Missing Razorpay signature"), None;
    }
    if hmac(webhookSecret, signedBody) != header.value {
      return Respond(400, Some(false), "Invalid webhook signature"), None;
    }
    captured := None;
    if event.name == CapturedEvent {
      if event.entity.None? {
        return Respond(500, Some(false), "Server error processing webhook"), None;
      }
      var entity := event.entity.value;
      if Matching(s.orders, entity.orderRef) == {} {
        return Respond(404, Some(false), "Order not found"), None;
      }
      var k :| k in Matching(s.orders, entity.orderRef);
      s.orders := s.orders[k := Capture(s.orders[k], entity.paymentRef)];
      captured := Some(k);
    }
    o := Respond(200, Some(true), "Webhook processed successfully");
  }

  // ---------------------------------------------------------------------------
  // The life of one order, as a sequence of the writes the handlers make to it

  /** A write to one stored order: a client confirmation, a captured webhook, an admin status change. */
  datatype OrderWrite = Confirmed(paymentRef: string, signature: string) | CapturedBy(paymentRef: string) | StatusSet(status: OrderStatus)

  function Apply(o: Order, w: OrderWrite): Order {
    match w
    case Confirmed(p, sg) => Settle(o, p, sg)
    case CapturedBy(p) => Capture(o, p)
    case StatusSet(st) => o.(status := st)
  }

  /** The order after the writes, oldest first. */
  function Replay(o: Order, ws: seq<OrderWrite>): Order {
    if ws == [] then o else Apply(Replay(o, ws[..|ws| - 1]), ws[|ws| - 1])
  }

  /** The payment id the last payment write recorded, if any. */
  function LastPaymentRef(ws: seq<OrderWrite>): Option<string> {
    if ws == [] then None
    else match ws[|ws| - 1]
      case Confirmed(p, _) => Some(p)
      case CapturedBy(p) => Some(p)
      case StatusSet(_) => LastPaymentRef(ws[..|ws| - 1])
  }

  /** Once paid, an order stays paid whatever is written to it afterwards. */
  lemma {:induction false} PaidIsAbsorbing(o: Order, ws: seq<OrderWrite>)
    requires o.paymentStatus == Paid
    ensures Replay(o, ws).paymentStatus == Paid
  {
    if ws != [] {
      PaidIsAbsorbing(o, ws[..|ws| - 1]);
    }
  }

  /** No write produces `failed`: an order that was not failed never becomes failed. */
  lemma {:induction false} NeverFailed(o: Order, ws: seq<OrderWrite>)
    requires o.paymentStatus != Failed
    ensures Replay(o, ws).paymentStatus != Failed
  {
    if ws != [] {
      NeverFailed(o, ws[..|ws| - 1]);
    }
  }

  /** A payment write makes the order paid: status `pending` never follows a payment. */
  lemma {:induction false} PaidAfterPayment(o: Order, ws: seq<OrderWrite>)
    requires LastPaymentRef(ws).Some?
    ensures Replay(o, ws).paymentStatus == Paid
  {
    var n := |ws| - 1;
    if ws[n].StatusSet? {
      PaidAfterPayment(o, ws[..n]);
    }
  }

  /** The stored payment id is the latest one written; there is no already-paid guard. */
  lemma {:induction false} LatestPaymentRefKept(o: Order, ws: seq<OrderWrite>)
    ensures Replay(o, ws).razorpayPaymentId == if LastPaymentRef(ws).Some? then LastPaymentRef(ws) else o.razorpayPaymentId
  {
    if ws != [] {
      LatestPaymentRefKept(o, ws[..|ws| - 1]);
    }
  }

  /** Payment writes never touch what was bought, by whom, for how much, or the gateway order. */
  lemma {:induction false} PurchaseUnchanged(o: Order, ws: seq<OrderWrite>)
    ensures var r := Replay(o, ws);
      r.userId == o.userId && r.items == o.items && r.totalPrice == o.totalPrice &&
      r.razorpayOrderId == o.razorpayOrderId && r.transactionId == o.transactionId
  {
    if ws != [] {
      PurchaseUnchanged(o, ws[..|ws| - 1]);
    }
  }

  /** Confirming the same order twice leaves it paid with the second confirmation's ids. */
  lemma ConfirmTwice(o: Order, p1: string, s1: string, p2: string, s2: string)
    ensures var r := Replay(o, [Confirmed(p1, s1), Confirmed(p2, s2)]);
      r.paymentStatus == Paid && r.razorpayPaymentId == Some(p2) && r.razorpaySignature == Some(s2)
  {
    assert [Confirmed(p1, s1), Confirmed(p2, s2)][..1] == [Confirmed(p1, s1)];
    assert [Confirmed(p1, s1)][..0] == [];
  }
}
