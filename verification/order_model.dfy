/** The Order record of BACKEND/Model/Order.js: fields, status enum, bounds and defaults. */
module OrderModel {
  import opened Base
  import opened ProductModel

  /** The `status` enum. */
  datatype Status = Pending | Paid | Failed | Cancelled | Refunded

  /** The schema's default status. */
  const DefaultStatus: Status := Pending

  /** Shipping charged on every order ("free shipping"). */
  const FreeShipping: int := 0

  /** The schema's default currency, also the one every order is priced in. */
  const DefaultCurrency: string := "INR"

  /** The schema's default country of a shipping address. */
  const DefaultCountry: string := "India"

  /** The string stored for a status. */
  function StatusName(s: Status): string
  {
    match s
    case Pending => "pending"
    case Paid => "paid"
    case Failed => "failed"
    case Cancelled => "cancelled"
    case Refunded => "refunded"
  }

  /** Distinct statuses are stored as distinct strings, so a filter on the name selects one status. */
  lemma StatusNameInjective(s: Status, t: Status)
    ensures StatusName(s) == StatusName(t) ==> s == t
  {
  }

  /**
   * A shipping address as the client sends it; every part is optional. The
   * country tells an absent key from a JSON `null`, because the schema
   * default replaces only the former.
   */
  datatype AddressInput = AddressInput(
    street: Option<string>, city: Option<string>, state: Option<string>,
    pincode: Option<string>, country: Field<string>)

  /** A stored shipping address; a part that is None holds no value (missing or `null`). */
  datatype Address = Address(
    street: Option<string>, city: Option<string>, state: Option<string>,
    pincode: Option<string>, country: Option<string>)

  datatype Customer = Customer(name: string, email: string, phone: string, address: Address)

  /** A line item: a snapshot of the product at order time, not a live reference. */
  datatype OrderItem = OrderItem(
    productId: ProductId,
    name: string,
    price: int,
    discountPrice: int,
    quantity: int,
    imageUrl: Option<string>)

  datatype Pricing = Pricing(subtotal: int, shipping: int, total: int, currency: string)

  datatype Order = Order(
    orderId: string,
    razorpayOrderId: string,
    razorpayPaymentId: Option<string>,
    customer: Customer,
    items: seq<OrderItem>,
    pricing: Pricing,
    status: Status,
    paymentMethod: string,
    notes: string,
    razorpaySignature: Option<string>)

  /**
   * The address the schema stores: every part as given; the country is
   * `India` when it is left out (also when no address is supplied), kept
   * `null` when it is sent as `null`, and stored as given otherwise.
   */
  function StoredAddress(a: Option<AddressInput>): (r: Address)
    ensures a.None? ==> r.street.None? && r.city.None? && r.state.None? && r.pincode.None?
    ensures a.Some? ==> r.street == a.value.street && r.city == a.value.city
                        && r.state == a.value.state && r.pincode == a.value.pincode
    ensures a.None? ==> r.country == Some(DefaultCountry)
    ensures a.Some? ==> r.country == match a.value.country
                                     case Absent => Some(DefaultCountry)
                                     case Null => None
                                     case Given(c) => Some(c)
  {
    if a.None? then Address(None, None, None, None, Some(DefaultCountry))
    else
      var c := match a.value.country
               case Absent => Some(DefaultCountry)
               case Null => None
               case Given(c) => Some(c);
      Address(a.value.street, a.value.city, a.value.state, a.value.pincode, c)
  }

  /** The schema's `required` and `min: 1` on a line item. */
  predicate ItemValid(it: OrderItem)
  {
    it.productId != [] && it.name != [] && it.quantity >= 1
  }

  /** The schema's `required` on the customer's name, email and phone. */
  predicate CustomerValid(c: Customer)
  {
    c.name != [] && c.email != [] && c.phone != []
  }

  /** What Mongoose validates before it saves an order. */
  predicate OrderValid(o: Order)
  {
    && o.orderId != []
    && o.razorpayOrderId != []
    && CustomerValid(o.customer)
    && forall i :: 0 <= i < |o.items| ==> ItemValid(o.items[i])
  }

  /** The unique index on `orderId`. */
  predicate UniqueOrderIds(orders: seq<Order>)
  {
    forall i, j :: 0 <= i < j < |orders| ==> orders[i].orderId != orders[j].orderId
  }

  /**
   * A new order as the create-order handlers build it: status `pending`,
   * pricing `{subtotal, 0, subtotal + 0, 'INR'}`, and the defaults for the
   * fields the handlers leave out (no payment id or signature yet, payment
   * method `razorpay`, empty notes).
   */
  function NewOrder(orderId: string, razorpayOrderId: string, customer: Customer,
                    items: seq<OrderItem>, subtotal: int): (o: Order)
    ensures o.status == DefaultStatus
    ensures o.pricing.total == o.pricing.subtotal + o.pricing.shipping
    ensures o.pricing.subtotal == subtotal && o.pricing.shipping == FreeShipping
    ensures o.pricing.currency == DefaultCurrency
    ensures o.razorpayPaymentId.None? && o.razorpaySignature.None?
    ensures o.orderId == orderId && o.razorpayOrderId == razorpayOrderId
    ensures o.customer == customer && o.items == items
  {
    Order(orderId, razorpayOrderId, None, customer, items,
          Pricing(subtotal, FreeShipping, subtotal + FreeShipping, DefaultCurrency),
          DefaultStatus, "razorpay", "", None)
  }

  /**
   * Verify and webhook change only the status and the payment identifiers of
   * an order; everything set at creation (ids, customer, items, pricing)
   * stays. Kept by any sequence of such changes.
   */
  predicate SameCreationFields(a: Order, b: Order)
  {
    && a.orderId == b.orderId
    && a.razorpayOrderId == b.razorpayOrderId
    && a.customer == b.customer
    && a.items == b.items
    && a.pricing == b.pricing
    && a.paymentMethod == b.paymentMethod
    && a.notes == b.notes
  }
}
