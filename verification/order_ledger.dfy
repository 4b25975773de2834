/**
 * The order collection the handlers read and write, in insertion order:
 * `findOne` returns the first stored order that matches, and `save` runs the
 * schema's validation and the unique index on `orderId`.
 */
module OrderLedger {
  import opened Base
  import opened OrderModel

  class Ledger {
    /** The stored orders, oldest first. */
    var orders: seq<Order>

    /** Every stored order passed validation, and no two share an `orderId`. */
    ghost predicate Valid()
      reads this
    {
      && UniqueOrderIds(orders)
      && forall i :: 0 <= i < |orders| ==> OrderValid(orders[i])
    }

    constructor ()
      ensures Valid() && orders == []
    {
      orders := [];
    }
  }

  /** Position of the first stored order that `matches` accepts. */
  function FindFirst(orders: seq<Order>, matches: Order -> bool): (r: Option<nat>)
    ensures r.Some? ==> r.value < |orders| && matches(orders[r.value])
    ensures r.Some? ==> forall j :: 0 <= j < r.value ==> !matches(orders[j])
    ensures r.None? ==> forall j :: 0 <= j < |orders| ==> !matches(orders[j])
  {
    if |orders| == 0 then None
    else if matches(orders[0]) then Some(0)
    else match FindFirst(orders[1..], matches)
      case None => None
      case Some(i) => Some(i + 1)
  }

  /** The `findOne({ orderId })` filter. */
  function HasOrderId(orderId: string): Order -> bool
  {
    (o: Order) => o.orderId == orderId
  }

  /** The `findOne({ razorpayOrderId })` filter. */
  function HasGatewayOrderId(razorpayOrderId: string): Order -> bool
  {
    (o: Order) => o.razorpayOrderId == razorpayOrderId
  }

  /** With unique order ids, the lookup by `orderId` finds the one order carrying it. */
  lemma FindByOrderIdIsUnique(orders: seq<Order>, k: nat)
    requires UniqueOrderIds(orders) && k < |orders|
    ensures FindFirst(orders, HasOrderId(orders[k].orderId)) == Some(k)
  {
    assert HasOrderId(orders[k].orderId)(orders[k]);
  }

  /** What `save` accepts for a new order: it passes validation and its `orderId` is not taken. */
  predicate CanInsert(orders: seq<Order>, o: Order)
  {
    && OrderValid(o)
    && forall i :: 0 <= i < |orders| ==> orders[i].orderId != o.orderId
  }

  /** Orders at the same positions agree on every field set at creation. */
  predicate SameCreationFieldsAll(a: seq<Order>, b: seq<Order>)
  {
    && |a| == |b|
    && forall i :: 0 <= i < |a| ==> SameCreationFields(a[i], b[i])
  }

  /**
   * Changing the status and payment identifiers of stored orders keeps the
   * ledger valid: ids stay unique and every order stays schema-valid.
   */
  lemma SameCreationFieldsKeepValid(a: seq<Order>, b: seq<Order>)
    requires SameCreationFieldsAll(a, b)
    requires UniqueOrderIds(a) && forall i :: 0 <= i < |a| ==> OrderValid(a[i])
    ensures UniqueOrderIds(b) && forall i :: 0 <= i < |b| ==> OrderValid(b[i])
  {
  }

  /** The orders whose status is stored as `name`, oldest first. */
  function WithStatus(orders: seq<Order>, name: string): (r: seq<Order>)
    ensures |r| <= |orders|
    ensures forall o :: o in r <==> o in orders && StatusName(o.status) == name
  {
    if orders == [] then []
    else
      var rest := WithStatus(orders[1..], name);
      assert forall o :: o in orders <==> o == orders[0] || o in orders[1..];
      if StatusName(orders[0].status) == name then [orders[0]] + rest else rest
  }

  /** Filtering a ledger in two parts filters each part, in stored order. */
  lemma {:induction false} WithStatusAppend(a: seq<Order>, b: seq<Order>, name: string)
    ensures WithStatus(a + b, name) == WithStatus(a, name) + WithStatus(b, name)
  {
    if a == [] {
      assert a + b == b;
    } else {
      assert (a + b)[1..] == a[1..] + b;
      WithStatusAppend(a[1..], b, name);
    }
  }

  /** One order is kept exactly when its status is `name`. */
  lemma WithStatusSingle(o: Order, name: string)
    ensures WithStatus([o], name) == if StatusName(o.status) == name then [o] else []
  {
    assert [o][1..] == [];
  }

  /** `countDocuments` of the status query, counted from the newest order back. */
  function CountStatus(orders: seq<Order>, name: string): nat
  {
    if orders == [] then 0
    else CountStatus(orders[..|orders| - 1], name) + (if StatusName(orders[|orders| - 1].status) == name then 1 else 0)
  }

  /** The filter keeps exactly as many orders as `countDocuments` counts. */
  lemma {:induction false} WithStatusCount(orders: seq<Order>, name: string)
    ensures |WithStatus(orders, name)| == CountStatus(orders, name)
  {
    if orders != [] {
      var n := |orders| - 1;
      assert orders == orders[..n] + [orders[n]];
      WithStatusAppend(orders[..n], [orders[n]], name);
      WithStatusSingle(orders[n], name);
      WithStatusCount(orders[..n], name);
    }
  }

  /** The `find(query)` filter of the listing: all orders, or those with the given status when one is given. */
  function Matching(orders: seq<Order>, status: Option<string>): seq<Order>
  {
    if Truthy(status) then WithStatus(orders, status.value) else orders
  }

  /** The `sort({ createdAt: -1 })` of the listing: newest first. */
  function NewestFirst(orders: seq<Order>): (r: seq<Order>)
    ensures |r| == |orders|
    ensures forall i :: 0 <= i < |r| ==> r[i] == orders[|orders| - 1 - i]
  {
    if orders == [] then [] else NewestFirst(orders[1..]) + [orders[0]]
  }
}
