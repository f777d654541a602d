/** The cart records and the two derivations the checkout makes from a cart:
    its total price and the order items sent with a new order
    (ecommerce-client/src/utils/cartHandlers.ts). */
module CartHandlers {
  import opened Wrappers

  /** An amount of money in minor units (cents). */
  type Cents = int

  /** A product as it sits in the cart (IProduct). `id` and `quantity` are optional
      fields of the record; a line added by the cart store always carries a quantity. */
  datatype Product = Product(
    id: Option<int>,
    name: string,
    description: string,
    image: string,
    price: Cents,
    quantity: Option<int>)

  /** A line of an order (IOrderItem): `id` stays absent until the order ledger stores it. */
  datatype OrderItem = OrderItem(
    id: Option<int>,
    order_id: int,
    product_id: Option<int>,
    product_name: string,
    quantity: int,
    unit_price: Cents)

  /** The quantity a line counts for: `product.quantity || 1`, so an absent
      quantity and a quantity of 0 (both falsy) count as 1. */
  function EffectiveQuantity(p: Product): (q: int)
    ensures q != 0
    ensures q == 1 || p.quantity == Some(q)
    ensures p.quantity.Some? && p.quantity.value != 0 ==> q == p.quantity.value
  {
    match p.quantity
    case Some(n) => if n != 0 then n else 1
    case None => 1
  }

  /** What one line costs: unit price times the quantity it counts for. */
  function LineTotal(p: Product): int {
    p.price * EffectiveQuantity(p)
  }

  /** Reference definition of a cart's worth: the sum over its lines of price × quantity. */
  function LinesTotal(cart: seq<Product>): int {
    if cart == [] then 0 else LineTotal(cart[0]) + LinesTotal(cart[1..])
  }

  /** The `reduce` of calculateTotalPrice: a left fold that adds each line to an accumulator. */
  function SumFrom(acc: int, cart: seq<Product>): int
    decreases |cart|
  {
    if cart == [] then acc else SumFrom(acc + LineTotal(cart[0]), cart[1..])
  }

  /** The left fold from any accumulator adds the reference sum to it. */
  lemma {:induction false} SumFromAddsLinesTotal(acc: int, cart: seq<Product>)
    ensures SumFrom(acc, cart) == acc + LinesTotal(cart)
    decreases |cart|
  {
    if cart != [] {
      SumFromAddsLinesTotal(acc + LineTotal(cart[0]), cart[1..]);
    }
  }

  /** calculateTotalPrice: the fold started at 0. Its result is the reference sum
      Σ price × (quantity || 1), and in particular 0 for the empty cart. */
  function CalculateTotalPrice(cart: seq<Product>): (total: int)
    ensures total == LinesTotal(cart)
    ensures cart == [] ==> total == 0
  {
    SumFromAddsLinesTotal(0, cart);
    SumFrom(0, cart)
  }

  /** The reference sum splits over a concatenation. */
  lemma {:induction false} LinesTotalAppend(a: seq<Product>, b: seq<Product>)
    ensures LinesTotal(a + b) == LinesTotal(a) + LinesTotal(b)
  {
    if a == [] {
      assert a + b == b;
    } else {
      assert (a + b)[1..] == a[1..] + b;
      LinesTotalAppend(a[1..], b);
    }
  }

  /** The total of two carts put together is the sum of their totals. */
  lemma TotalOfConcatenation(a: seq<Product>, b: seq<Product>)
    ensures CalculateTotalPrice(a + b) == CalculateTotalPrice(a) + CalculateTotalPrice(b)
  {
    LinesTotalAppend(a, b);
  }

  /** The order item a cart line becomes. */
  function ToOrderItem(p: Product): OrderItem {
    OrderItem(None, 0, p.id, p.name, EffectiveQuantity(p), p.price)
  }

  /** mapCartToOrderItems: one order item per cart line, in cart order, each a
      not-yet-stored item (no id, order 0) that snapshots the product's id, name,
      price and the quantity the line counts for. */
  function MapCartToOrderItems(cart: seq<Product>): (items: seq<OrderItem>)
    ensures |items| == |cart|
    ensures forall i :: 0 <= i < |cart| ==>
      && items[i].id == None
      && items[i].order_id == 0
      && items[i].product_id == cart[i].id
      && items[i].product_name == cart[i].name
      && items[i].quantity == EffectiveQuantity(cart[i])
      && items[i].unit_price == cart[i].price
  {
    if cart == [] then [] else [ToOrderItem(cart[0])] + MapCartToOrderItems(cart[1..])
  }

  /** What an order's items are worth: Σ quantity × unit_price. */
  function ItemsTotal(items: seq<OrderItem>): int {
    if items == [] then 0 else items[0].quantity * items[0].unit_price + ItemsTotal(items[1..])
  }

  /** The central invariant of order creation: the items derived from a cart are
      worth exactly the cart's total price. */
  lemma {:induction false} OrderItemsTotalIsCartTotal(cart: seq<Product>)
    ensures ItemsTotal(MapCartToOrderItems(cart)) == CalculateTotalPrice(cart)
  {
    if cart != [] {
      OrderItemsTotalIsCartTotal(cart[1..]);
      var items := MapCartToOrderItems(cart);
      assert items[1..] == MapCartToOrderItems(cart[1..]);
    }
  }
}
