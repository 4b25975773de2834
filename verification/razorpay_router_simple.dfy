/**
 * BACKEND/Routes/RazorpayRouterSimple.js, the development twin of the
 * Razorpay router: the same create-order with a mock gateway that always
 * succeeds, and a verification that marks the order paid without any check.
 * Its order lookup and listing are those of the Razorpay router.
 */
module RazorpayRouterSimple {
  import opened Base
  import opened ProductModel
  import opened OrderModel
  import opened Pricing
  import opened OrderLedger
  import opened RazorpayRouter

  /** The publishable key the mock router returns. */
  const MockKey: string := "rzp_test_key"

  /** The mock gateway order id, `order_mock_` followed by the current time in milliseconds. */
  function MockGatewayOrderId(now: string): string
  {
    "order_mock_" + now
  }

  /** The mock gateway: it always returns a checkout order with the given id, the requested amount and currency. */
  function MockGateway(id: string): Gateway
  {
    (req: CheckoutRequest) => Some(GatewayOrder(id, req.amount, req.currency))
  }

  /**
   * POST /api/razorpay/create-order, mock version. The same checks and
   * pricing as the real handler; the checkout order is `order_mock_<now>`
   * for the total in paise, in rupees, and the order is saved `pending` with
   * that id as its gateway order id.
   */
  method CreateMockOrder(ledger: Ledger, catalog: map<ProductId, Product>, items: Option<seq<CartItem>>,
                         customer: Option<CustomerInput>, orderId: string, now: string)
    returns (r: Result<CheckoutReply>)
    requires ledger.Valid()
    modifies ledger
    ensures ledger.Valid()
    ensures r.Err? ==> ledger.orders == old(ledger.orders)
    ensures items.None? || items.value == [] ==> r == Err(ItemsRequired)
    ensures items.Some? && items.value != [] && !CustomerComplete(customer) ==> r == Err(CustomerRequired)
    ensures items.Some? && items.value != [] && CustomerComplete(customer) && !AllKnown(catalog, items.value) ==>
              exists k: nat :: FirstUnknownAt(catalog, items.value, k) && r == Err(ProductNotFound(items.value[k].productId))
    ensures items.Some? && items.value != [] && CustomerComplete(customer) && AllKnown(catalog, items.value) ==>
              var subtotal := Subtotal(catalog, items.value);
              var o := NewOrder(orderId, MockGatewayOrderId(now), StoredCustomer(customer.value),
                                seq(|items.value|, i requires 0 <= i < |items.value| =>
                                  Snapshot(items.value[i].productId, catalog[items.value[i].productId], items.value[i].quantity)),
                                subtotal);
              if CanInsert(old(ledger.orders), o) then
                && ledger.orders == old(ledger.orders) + [o]
                && r == Ok(CheckoutReply(Some(MockKey), MockGatewayOrderId(now), subtotal * 100, DefaultCurrency, orderId))
              else r == Err(CreateFailed)
  {
    r := CreateOrder(ledger, catalog, items, customer, orderId, Some(MockKey), MockGateway(MockGatewayOrderId(now)));
  }

  /**
   * POST /api/razorpay/verify-payment, mock version: an unknown order gives
   * 404 and changes nothing; otherwise the order becomes `paid` and the
   * supplied payment id and signature are copied onto it unchecked, whatever
   * its status was.
   */
  method MockVerifyPayment(ledger: Ledger, orderId: string, razorpayPaymentId: Option<string>,
                           razorpaySignature: Option<string>)
    returns (r: Result<Confirmation>)
    requires ledger.Valid()
    modifies ledger
    ensures ledger.Valid()
    ensures SameCreationFieldsAll(old(ledger.orders), ledger.orders)
    ensures match FindFirst(old(ledger.orders), HasOrderId(orderId))
            case None => r == Err(OrderNotFound) && ledger.orders == old(ledger.orders)
            case Some(i) =>
              var o := old(ledger.orders)[i];
              && ledger.orders == old(ledger.orders)[i := o.(razorpayPaymentId := razorpayPaymentId,
                                                             razorpaySignature := razorpaySignature,
                                                             status := Paid)]
              && r == Ok(Confirmation(o.orderId, Paid, o.pricing.total))
  {
    var found := FindFirst(ledger.orders, HasOrderId(orderId));
    if found.None? {
      return Err(OrderNotFound);
    }
    var order := ledger.orders[found.value];
    order := order.(razorpayPaymentId := razorpayPaymentId, razorpaySignature := razorpaySignature, status := Paid);
    ledger.orders := ledger.orders[found.value := order];
    SameCreationFieldsKeepValid(old(ledger.orders), ledger.orders);
    r := Ok(Confirmation(order.orderId, order.status, order.pricing.total));
  }
}
