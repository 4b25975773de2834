/**
 * The order and payment workflow of BACKEND/Routes/RazorpayRouter.js:
 * create-order, payment verification, webhook reconciliation, order lookup
 * and the order listing. Each handler is one atomic step over the ledger.
 */
module RazorpayRouter {
  import opened Base
  import opened ProductModel
  import opened OrderModel
  import opened Pricing
  import opened Paging
  import opened OrderLedger

  /** HMAC-SHA256 in hex, keyed by the first argument, over the second; its inside is not modelled. */
  type Hmac = (string, string) -> string

  /** The customer details of a create-order request, each field as the client sent it. */
  datatype CustomerInput = CustomerInput(
    name: Option<string>, email: Option<string>, phone: Option<string>, address: Option<AddressInput>)

  /** The `notes` of a gateway checkout request. */
  datatype CheckoutNotes = CheckoutNotes(orderId: string, customerName: string, customerEmail: string)

  /** The checkout order requested from the payment gateway. */
  datatype CheckoutRequest = CheckoutRequest(amount: int, currency: string, receipt: string, notes: CheckoutNotes)

  /** The checkout order the gateway returns. */
  datatype GatewayOrder = GatewayOrder(id: string, amount: int, currency: string)

  /** The payment gateway client: it creates a checkout order, or fails. */
  type Gateway = CheckoutRequest -> Option<GatewayOrder>

  /** The success reply of create-order. */
  datatype CheckoutReply = CheckoutReply(
    key: Option<string>, gatewayOrderId: string, amount: int, currency: string, orderId: string)

  /** The fields of a payment-verification request. */
  datatype VerifyRequest = VerifyRequest(
    razorpayOrderId: Option<string>, razorpayPaymentId: Option<string>,
    razorpaySignature: Option<string>, orderId: Option<string>)

  /** The `order` of a successful verification reply. */
  datatype Confirmation = Confirmation(orderId: string, status: Status, total: int)

  /** The `payload.payment.entity` of a webhook event. */
  datatype PaymentEntity = PaymentEntity(id: string, orderId: string)

  /** A parsed webhook body: the event name and its payment entity, if the payload has one. */
  datatype WebhookEvent = WebhookEvent(event: string, payment: Option<PaymentEntity>)

  /** One page of the order listing and its `pagination` summary. */
  datatype OrderPage = OrderPage(orders: seq<Order>, current: nat, pages: nat, total: nat)

  const ItemsRequired := ApiError(400, "Items are required")
  const CustomerRequired := ApiError(400, "Customer details (name, email, phone) are required")
  const CreateFailed := ApiError(500, "Failed to create order")
  const DetailsRequired := ApiError(400, "All payment details are required")
  const OrderNotFound := ApiError(404, "Order not found")
  const VerificationFailed := ApiError(400, "Payment verification failed")
  const VerifyFailed := ApiError(500, "Failed to verify payment")
  const InvalidSignature := ApiError(400, "Invalid signature")
  const WebhookFailed := ApiError(500, "Webhook processing failed")

  /** The customer check of create-order: details present, with a name, an email and a phone. */
  predicate CustomerComplete(c: Option<CustomerInput>)
  {
    c.Some? && Truthy(c.value.name) && Truthy(c.value.email) && Truthy(c.value.phone)
  }

  /** The customer details as stored on the order. */
  function StoredCustomer(c: CustomerInput): Customer
    requires c.name.Some? && c.email.Some? && c.phone.Some?
  {
    Customer(c.name.value, c.email.value, c.phone.value, StoredAddress(c.address))
  }

  /** The checkout request for an order total: the amount in paise, in rupees, with the order id as receipt. */
  function CheckoutFor(total: int, orderId: string, c: CustomerInput): CheckoutRequest
    requires c.name.Some? && c.email.Some?
  {
    CheckoutRequest(total * 100, DefaultCurrency, orderId, CheckoutNotes(orderId, c.name.value, c.email.value))
  }

  /** The string the payment signature is computed over. */
  function SignedPayload(razorpayOrderId: string, razorpayPaymentId: string): string
  {
    razorpayOrderId + "|" + razorpayPaymentId
  }

  /** Every field the verification handler checks is present and non-empty. */
  predicate VerifyRequestComplete(req: VerifyRequest)
  {
    && Truthy(req.razorpayOrderId) && Truthy(req.razorpayPaymentId)
    && Truthy(req.razorpaySignature) && Truthy(req.orderId)
  }

  /**
   * POST /api/razorpay/create-order. Checks the cart and the customer, prices
   * the cart, asks the gateway for a checkout order of the total in paise,
   * and saves a `pending` order. Any failure leaves the ledger as it was.
   */
  method CreateOrder(ledger: Ledger, catalog: map<ProductId, Product>, items: Option<seq<CartItem>>,
                     customer: Option<CustomerInput>, orderId: string, key: Option<string>, gateway: Gateway)
    returns (r: Result<CheckoutReply>)
    requires ledger.Valid()
    modifies ledger
    ensures ledger.Valid()
    ensures r.Err? ==> ledger.orders == old(ledger.orders)
    ensures items.None? || items.value == [] ==> r == Err(ItemsRequired)
    ensures items.Some? && items.value != [] && !CustomerComplete(customer) ==> r == Err(CustomerRequired)
    ensures items.Some? && items.value != [] && CustomerComplete(customer) && !AllKnown(catalog, items.value) ==>
              exists k: nat :: FirstUnknownAt(catalog, items.value, k) && r == Err(ProductNotFound(items.value[k].productId))
    ensures items.Some? && items.value != [] && CustomerComplete(customer) && AllKnown(catalog, items.value) ==>
              var subtotal := Subtotal(catalog, items.value);
              var req := CheckoutFor(subtotal + FreeShipping, orderId, customer.value);
              if gateway(req).None? then r == Err(CreateFailed)
              else
                var gw := gateway(req).value;
                var o := NewOrder(orderId, gw.id, StoredCustomer(customer.value),
                                  seq(|items.value|, i requires 0 <= i < |items.value| =>
                                    Snapshot(items.value[i].productId, catalog[items.value[i].productId], items.value[i].quantity)),
                                  subtotal);
                if CanInsert(old(ledger.orders), o) then
                  && ledger.orders == old(ledger.orders) + [o]
                  && r == Ok(CheckoutReply(key, gw.id, gw.amount, gw.currency, orderId))
                else r == Err(CreateFailed)
  {
    if items.None? || |items.value| == 0 {
      return Err(ItemsRequired);
    }
    if !CustomerComplete(customer) {
      return Err(CustomerRequired);
    }
    var priced := PriceCart(catalog, items.value);
    if priced.Err? {
      return Err(priced.error);
    }
    var subtotal := priced.value.subtotal;
    var total := subtotal + FreeShipping;
    var req := CheckoutFor(total, orderId, customer.value);
    var reply := gateway(req);
    if reply.None? {
      return Err(CreateFailed);
    }
    var gw := reply.value;
    var order := NewOrder(orderId, gw.id, StoredCustomer(customer.value), priced.value.items, subtotal);
    assert order.items == seq(|items.value|, i requires 0 <= i < |items.value| =>
                                Snapshot(items.value[i].productId, catalog[items.value[i].productId], items.value[i].quantity));
    if !CanInsert(ledger.orders, order) {
      return Err(CreateFailed);
    }
    ledger.orders := ledger.orders + [order];
    r := Ok(CheckoutReply(key, gw.id, gw.amount, gw.currency, orderId));
  }

  /**
   * POST /api/razorpay/verify-payment. A missing field gives 400 and an
   * unknown order 404, both without a change. Otherwise the order's status is
   * overwritten whatever it was: `paid` with the payment id and signature
   * recorded when the signature is the HMAC of `razorpayOrderId|paymentId`
   * under the key secret, `failed` (and nothing else changed) when it is not.
   * An unset key secret makes the HMAC throw: 500, no change.
   */
  method VerifyPayment(ledger: Ledger, req: VerifyRequest, keySecret: Option<string>, hmac: Hmac)
    returns (r: Result<Confirmation>)
    requires ledger.Valid()
    modifies ledger
    ensures ledger.Valid()
    ensures SameCreationFieldsAll(old(ledger.orders), ledger.orders)
    ensures !VerifyRequestComplete(req) ==> r == Err(DetailsRequired) && ledger.orders == old(ledger.orders)
    ensures VerifyRequestComplete(req) ==>
              match FindFirst(old(ledger.orders), HasOrderId(req.orderId.value))
              case None => r == Err(OrderNotFound) && ledger.orders == old(ledger.orders)
              case Some(i) =>
                var o := old(ledger.orders)[i];
                if keySecret.None? then r == Err(VerifyFailed) && ledger.orders == old(ledger.orders)
                else if hmac(keySecret.value, SignedPayload(req.razorpayOrderId.value, req.razorpayPaymentId.value))
                        == req.razorpaySignature.value then
                  && ledger.orders == old(ledger.orders)[i := o.(razorpayPaymentId := req.razorpayPaymentId,
                                                                 razorpaySignature := req.razorpaySignature,
                                                                 status := Paid)]
                  && r == Ok(Confirmation(o.orderId, Paid, o.pricing.total))
                else
                  && ledger.orders == old(ledger.orders)[i := o.(status := Failed)]
                  && r == Err(VerificationFailed)
  {
    if !VerifyRequestComplete(req) {
      return Err(DetailsRequired);
    }
    var found := FindFirst(ledger.orders, HasOrderId(req.orderId.value));
    if found.None? {
      return Err(OrderNotFound);
    }
    var i := found.value;
    if keySecret.None? {
      return Err(VerifyFailed);
    }
    var expected := hmac(keySecret.value, SignedPayload(req.razorpayOrderId.value, req.razorpayPaymentId.value));
    var order := ledger.orders[i];
    if expected == req.razorpaySignature.value {
      order := order.(razorpayPaymentId := req.razorpayPaymentId, razorpaySignature := req.razorpaySignature, status := Paid);
      ledger.orders := ledger.orders[i := order];
      SameCreationFieldsKeepValid(old(ledger.orders), ledger.orders);
      r := Ok(Confirmation(order.orderId, order.status, order.pricing.total));
    } else {
      order := order.(status := Failed);
      ledger.orders := ledger.orders[i := order];
      SameCreationFieldsKeepValid(old(ledger.orders), ledger.orders);
      r := Err(VerificationFailed);
    }
  }

  /**
   * POST /api/razorpay/webhook. The header signature must be the HMAC of the
   * raw body under the webhook secret, or the reply is 400 with no change.
   * Then `payment.captured` marks the first order carrying the payment's
   * gateway order id `paid` and records the payment id, `payment.failed`
   * marks it `failed`, and any other event, or no such order, changes nothing;
   * each of these replies success. An unset secret, a body that is not JSON
   * (`parsed` is None) or a payment event without a payment entity makes the
   * handler throw: 500, no change.
   */
  method Webhook(ledger: Ledger, rawBody: string, signature: Option<string>, webhookSecret: Option<string>,
                 parsed: Option<WebhookEvent>, hmac: Hmac)
    returns (r: Result<()>)
    requires ledger.Valid()
    modifies ledger
    ensures ledger.Valid()
    ensures SameCreationFieldsAll(old(ledger.orders), ledger.orders)
    ensures webhookSecret.None? ==> r == Err(WebhookFailed) && ledger.orders == old(ledger.orders)
    ensures webhookSecret.Some? && signature != Some(hmac(webhookSecret.value, rawBody)) ==>
              r == Err(InvalidSignature) && ledger.orders == old(ledger.orders)
    ensures webhookSecret.Some? && signature == Some(hmac(webhookSecret.value, rawBody)) ==>
              if parsed.None? then r == Err(WebhookFailed) && ledger.orders == old(ledger.orders)
              else if parsed.value.event != "payment.captured" && parsed.value.event != "payment.failed" then
                r == Ok(()) && ledger.orders == old(ledger.orders)
              else if parsed.value.payment.None? then
                r == Err(WebhookFailed) && ledger.orders == old(ledger.orders)
              else
                var p := parsed.value.payment.value;
                r == Ok(()) &&
                match FindFirst(old(ledger.orders), HasGatewayOrderId(p.orderId))
                case None => ledger.orders == old(ledger.orders)
                case Some(i) =>
                  var o := old(ledger.orders)[i];
                  ledger.orders == old(ledger.orders)[i := if parsed.value.event == "payment.captured"
                                                             then o.(razorpayPaymentId := Some(p.id), status := Paid)
                                                             else o.(status := Failed)]
  {
    if webhookSecret.None? {
      return Err(WebhookFailed);
    }
    var expected := hmac(webhookSecret.value, rawBody);
    if signature != Some(expected) {
      return Err(InvalidSignature);
    }
    if parsed.None? {
      return Err(WebhookFailed);
    }
    var event := parsed.value;
    if event.event == "payment.captured" {
      if event.payment.None? {
        return Err(WebhookFailed);
      }
      var payment := event.payment.value;
      var found := FindFirst(ledger.orders, HasGatewayOrderId(payment.orderId));
      if found.Some? {
        var order := ledger.orders[found.value];
        order := order.(razorpayPaymentId := Some(payment.id), status := Paid);
        ledger.orders := ledger.orders[found.value := order];
        SameCreationFieldsKeepValid(old(ledger.orders), ledger.orders);
      }
    } else if event.event == "payment.failed" {
      if event.payment.None? {
        return Err(WebhookFailed);
      }
      var payment := event.payment.value;
      var found := FindFirst(ledger.orders, HasGatewayOrderId(payment.orderId));
      if found.Some? {
        var order := ledger.orders[found.value];
        order := order.(status := Failed);
        ledger.orders := ledger.orders[found.value := order];
        SameCreationFieldsKeepValid(old(ledger.orders), ledger.orders);
      }
    }
    r := Ok(());
  }

  /**
   * GET /api/razorpay/order/:orderId: the stored order with that id, or 404.
   * Expanding the product references for display is not modelled.
   */
  method GetOrder(ledger: Ledger, orderId: string) returns (r: Result<Order>)
    requires ledger.Valid()
    ensures r.Ok? <==> exists i :: 0 <= i < |ledger.orders| && ledger.orders[i].orderId == orderId
    ensures r.Ok? ==> r.value in ledger.orders && r.value.orderId == orderId
    ensures r.Err? ==> r.error == OrderNotFound
  {
    var found := FindFirst(ledger.orders, HasOrderId(orderId));
    if found.None? {
      return Err(OrderNotFound);
    }
    r := Ok(ledger.orders[found.value]);
  }

  /** Every order on a page of the listing is a stored order that passes the status filter. */
  lemma PageOfMatching(orders: seq<Order>, status: Option<string>, skip: nat, limit: nat)
    ensures forall o :: o in Window(NewestFirst(Matching(orders, status)), skip, limit) ==>
              o in orders && (Truthy(status) ==> StatusName(o.status) == status.value)
  {
    var matching := Matching(orders, status);
    var shown := Window(NewestFirst(matching), skip, limit);
    forall o | o in shown ensures o in matching {
      var k :| 0 <= k < |shown| && shown[k] == o;
      assert o == matching[|matching| - 1 - (skip + k)];
    }
  }

  /** The listing's query defaults: page 1, ten orders a page. */
  const DefaultPage: nat := 1
  const DefaultLimit: nat := 10

  /** A query parameter, or its default when the query leaves it out. */
  function QueryOr(q: Option<nat>, default: nat): nat
  {
    if q.Some? then q.value else default
  }

  /**
   * GET /api/razorpay/orders: the orders with the requested status (all when
   * none is given), newest first, page `page` (default 1) of `limit` entries
   * (default 10), with the total and the page count.
   */
  method ListOrders(ledger: Ledger, status: Option<string>, page: Option<nat>, limit: Option<nat>) returns (r: OrderPage)
    requires (page.None? || page.value >= 1) && (limit.None? || limit.value >= 1)
    ensures var p := QueryOr(page, DefaultPage);
            var l := QueryOr(limit, DefaultLimit);
            && r.total == |Matching(ledger.orders, status)|
            && r.pages * l >= r.total && (r.pages == 0 || (r.pages - 1) * l < r.total)
            && r.current == p
            && r.orders == Window(NewestFirst(Matching(ledger.orders, status)), Skip(p, l), l)
            && |r.orders| <= l
            && (r.orders != [] <==> p <= r.pages)
    ensures forall o :: o in r.orders ==> o in ledger.orders
    ensures Truthy(status) ==> forall o :: o in r.orders ==> StatusName(o.status) == status.value
    ensures Truthy(status) ==> r.total == CountStatus(ledger.orders, status.value)
    ensures !Truthy(status) ==> r.total == |ledger.orders|
  {
    if Truthy(status) {
      WithStatusCount(ledger.orders, status.value);
    }
    var p := QueryOr(page, DefaultPage);
    var l := QueryOr(limit, DefaultLimit);
    var matching := Matching(ledger.orders, status);
    var sorted := NewestFirst(matching);
    var shown := Window(sorted, Skip(p, l), l);
    var total := |matching|;
    PageNonEmptyIff(sorted, p, l);
    PageOfMatching(ledger.orders, status, Skip(p, l), l);
    r := OrderPage(shown, p, PageCount(total, l), total);
  }

  /**
   * Status writes are unguarded: a second verification of an order already
   * `paid`, with a signature that does not match, turns it `failed`.
   */
  method PaidOrderCanFail(o: Order, keySecret: string, hmac: Hmac, razorpayOrderId: string, paymentId: string)
    returns (first: Result<Confirmation>, second: Result<Confirmation>, after: Order)
    requires OrderValid(o)
    requires razorpayOrderId != [] && paymentId != []
    requires hmac(keySecret, SignedPayload(razorpayOrderId, paymentId)) != []
    ensures first.Ok? && first.value.status == Paid
    ensures second == Err(VerificationFailed)
    ensures after.status == Failed
    ensures after.razorpayPaymentId == Some(paymentId) && after.pricing == o.pricing && after.items == o.items
  {
    var ledger := new Ledger();
    ledger.orders := [o];
    var good := hmac(keySecret, SignedPayload(razorpayOrderId, paymentId));
    first := VerifyPayment(ledger, VerifyRequest(Some(razorpayOrderId), Some(paymentId), Some(good), Some(o.orderId)),
                           Some(keySecret), hmac);
    second := VerifyPayment(ledger, VerifyRequest(Some(razorpayOrderId), Some(paymentId), Some(good + "0"), Some(o.orderId)),
                            Some(keySecret), hmac);
    after := ledger.orders[0];
  }

  /**
   * The client confirmation and the webhook can disagree: an order confirmed
   * `paid` by verification becomes `failed` when a `payment.failed` event for
   * its gateway order arrives later.
   */
  method WebhookOverridesVerification(o: Order, keySecret: string, webhookSecret: string, hmac: Hmac,
                                      paymentId: string, rawBody: string)
    returns (after: Order)
    requires OrderValid(o)
    requires paymentId != []
    requires hmac(keySecret, SignedPayload(o.razorpayOrderId, paymentId)) != []
    ensures after.status == Failed
    ensures after.razorpayPaymentId == Some(paymentId) && after.pricing == o.pricing
  {
    var ledger := new Ledger();
    ledger.orders := [o];
    var good := hmac(keySecret, SignedPayload(o.razorpayOrderId, paymentId));
    var confirmed := VerifyPayment(ledger, VerifyRequest(Some(o.razorpayOrderId), Some(paymentId), Some(good), Some(o.orderId)),
                                   Some(keySecret), hmac);
    var event := WebhookEvent("payment.failed", Some(PaymentEntity(paymentId, o.razorpayOrderId)));
    var acknowledged := Webhook(ledger, rawBody, Some(hmac(webhookSecret, rawBody)), Some(webhookSecret), Some(event), hmac);
    after := ledger.orders[0];
  }
}
