/**
 * Cart pricing shared by both create-order handlers (the Razorpay router and
 * its mock twin run the same loop): the effective unit price, the subtotal,
 * and the line-item snapshots.
 */
module Pricing {
  import opened Base
  import opened ProductModel
  import opened OrderModel

  /** One requested cart line: a product id and a quantity, as the client sends them. */
  datatype CartItem = CartItem(productId: ProductId, quantity: int)

  /** What the pricing loop produces: the subtotal and the processed line items. */
  datatype PricedCart = PricedCart(subtotal: int, items: seq<OrderItem>)

  /** The 400 reply for a cart line whose product does not exist. */
  function ProductNotFound(id: ProductId): ApiError
  {
    ApiError(400, "Product with ID " + id + " not found")
  }

  /**
   * The unit price charged: never more than the list price, and either the
   * list price or a positive discount price.
   */
  function EffectivePrice(p: Product): (r: int)
    ensures r <= p.price
    ensures r == p.price || (0 < r && r == p.discountPrice)
  {
    if p.discountPrice > 0 && p.discountPrice < p.price then p.discountPrice else p.price
  }

  /** The discount is applied exactly when `0 < discountPrice < price`. */
  lemma DiscountAppliesIff(p: Product)
    ensures EffectivePrice(p) < p.price <==> 0 < p.discountPrice < p.price
    ensures EffectivePrice(p) < p.price ==> EffectivePrice(p) == p.discountPrice
  {
  }

  /** A discount of 0, equal to the list price, or above it leaves the list price. */
  lemma DiscountBoundaries(p: Product)
    ensures p.discountPrice == 0 ==> EffectivePrice(p) == p.price
    ensures p.discountPrice == p.price ==> EffectivePrice(p) == p.price
    ensures p.discountPrice > p.price ==> EffectivePrice(p) == p.price
  {
  }

  /** Every cart line names a product of the catalog. */
  predicate AllKnown(catalog: map<ProductId, Product>, items: seq<CartItem>)
  {
    forall i :: 0 <= i < |items| ==> items[i].productId in catalog
  }

  /** Line `k` is the first whose product is missing from the catalog. */
  predicate FirstUnknownAt(catalog: map<ProductId, Product>, items: seq<CartItem>, k: nat)
  {
    && k < |items|
    && items[k].productId !in catalog
    && forall j :: 0 <= j < k ==> items[j].productId in catalog
  }

  /** The sum over the cart of effective price times quantity. */
  function Subtotal(catalog: map<ProductId, Product>, items: seq<CartItem>): int
    requires AllKnown(catalog, items)
  {
    if items == [] then 0
    else
      var last := items[|items| - 1];
      Subtotal(catalog, items[..|items| - 1]) + EffectivePrice(catalog[last.productId]) * last.quantity
  }

  /** The sum over the cart of list price times quantity, as if no discount applied. */
  function ListSubtotal(catalog: map<ProductId, Product>, items: seq<CartItem>): int
    requires AllKnown(catalog, items)
  {
    if items == [] then 0
    else
      var last := items[|items| - 1];
      ListSubtotal(catalog, items[..|items| - 1]) + catalog[last.productId].price * last.quantity
  }

  /** The snapshot of a product taken for one cart line. */
  function Snapshot(id: ProductId, p: Product, quantity: int): OrderItem
  {
    OrderItem(id, p.name, p.price, p.discountPrice, quantity, p.imageUrl)
  }

  /** The subtotal of two carts one after the other is the sum of their subtotals. */
  lemma {:induction false} SubtotalAppend(catalog: map<ProductId, Product>, a: seq<CartItem>, b: seq<CartItem>)
    requires AllKnown(catalog, a) && AllKnown(catalog, b)
    ensures AllKnown(catalog, a + b)
    ensures Subtotal(catalog, a + b) == Subtotal(catalog, a) + Subtotal(catalog, b)
    decreases |b|
  {
    assert AllKnown(catalog, a + b) by {
      forall i | 0 <= i < |a + b| ensures (a + b)[i].productId in catalog {
        if i >= |a| { assert (a + b)[i] == b[i - |a|]; }
      }
    }
    if b == [] {
      assert a + b == a;
    } else {
      var b' := b[..|b| - 1];
      assert (a + b)[..|a + b| - 1] == a + b';
      assert AllKnown(catalog, b');
      SubtotalAppend(catalog, a, b');
    }
  }

  /**
   * With list prices and discounts of a schema-valid catalog and quantities
   * of at least 1, the subtotal lies between 0 and the undiscounted subtotal.
   */
  lemma {:induction false} SubtotalBounds(catalog: map<ProductId, Product>, items: seq<CartItem>)
    requires AllKnown(catalog, items)
    requires forall id :: id in catalog ==> SchemaValid(catalog[id])
    requires forall i :: 0 <= i < |items| ==> items[i].quantity >= 1
    ensures 0 <= Subtotal(catalog, items) <= ListSubtotal(catalog, items)
  {
    if items != [] {
      var last := items[|items| - 1];
      var init := items[..|items| - 1];
      assert AllKnown(catalog, init);
      SubtotalBounds(catalog, init);
      var p := catalog[last.productId];
      assert SchemaValid(p);
      assert 0 <= EffectivePrice(p) <= p.price;
      MulMonotone(0, EffectivePrice(p), last.quantity);
      MulMonotone(EffectivePrice(p), p.price, last.quantity);
    }
  }

  /**
   * The pricing loop of create-order: walks the cart in order, looks each
   * product up, stops with a 400 at the first unknown product, and otherwise
   * accumulates the subtotal and pushes one snapshot per line, in cart order.
   */
  method PriceCart(catalog: map<ProductId, Product>, items: seq<CartItem>) returns (r: Result<PricedCart>)
    ensures r.Ok? <==> AllKnown(catalog, items)
    ensures r.Ok? ==> r.value.subtotal == Subtotal(catalog, items)
    ensures r.Ok? ==> |r.value.items| == |items|
    ensures r.Ok? ==> forall i :: 0 <= i < |items| ==>
              r.value.items[i] == Snapshot(items[i].productId, catalog[items[i].productId], items[i].quantity)
    ensures r.Err? ==> exists k: nat :: FirstUnknownAt(catalog, items, k) && r.error == ProductNotFound(items[k].productId)
  {
    var subtotal := 0;
    var processed: seq<OrderItem> := [];
    var n := 0;
    while n < |items|
      invariant 0 <= n <= |items|
      invariant AllKnown(catalog, items[..n])
      invariant subtotal == Subtotal(catalog, items[..n])
      invariant |processed| == n
      invariant forall i :: 0 <= i < n ==>
                  processed[i] == Snapshot(items[i].productId, catalog[items[i].productId], items[i].quantity)
    {
      var item := items[n];
      if item.productId !in catalog {
        assert FirstUnknownAt(catalog, items, n) by {
          forall j | 0 <= j < n ensures items[j].productId in catalog {
            assert items[..n][j] == items[j];
          }
        }
        return Err(ProductNotFound(item.productId));
      }
      var product := catalog[item.productId];
      var itemPrice := EffectivePrice(product);
      subtotal := subtotal + itemPrice * item.quantity;
      processed := processed + [Snapshot(item.productId, product, item.quantity)];
      assert items[..n + 1][..n] == items[..n];
      n := n + 1;
    }
    assert items[..n] == items;
    r := Ok(PricedCart(subtotal, processed));
  }

  /**
   * The worked example: two units at 100 and one unit of a product listed at
   * 50 and discounted to 40 cost 240.
   */
  lemma WorkedExample(a: Product, b: Product)
    requires a.price == 100 && a.discountPrice == 0
    requires b.price == 50 && b.discountPrice == 40
    ensures var catalog := map["a" := a, "b" := b];
            var cart := [CartItem("a", 2), CartItem("b", 1)];
            AllKnown(catalog, cart) && Subtotal(catalog, cart) == 240
  {
    var catalog := map["a" := a, "b" := b];
    var cart := [CartItem("a", 2), CartItem("b", 1)];
    assert cart[..1] == [CartItem("a", 2)] && cart[..1][..0] == [];
    assert EffectivePrice(a) == 100 && EffectivePrice(b) == 40;
    assert Subtotal(catalog, cart[..1]) == 200;
  }
}
