/** The order-list reads of the client (ecommerce-client/src/services/orderServices.ts):
    fetchAllOrders, which defaults a missing `order_items` to the empty list, and
    fetchAllOrdersWithItems, which fetches each order's details and degrades only the
    order whose details fail to an empty item list. The list fetch and the per-order
    detail fetches are inputs: a Reply, and a function from order id to Reply. */
module OrderServices {
  import opened Wrappers
  import opened CartHandlers

  /** An order as the ledger lists it (IOrder); `order_items` may be absent. */
  datatype Order = Order(
    id: int,
    customer_id: int,
    total_price: Cents,
    payment_status: string,
    payment_id: string,
    order_status: string,
    order_items: Option<seq<OrderItem>>)

  /** What GET /orders/{id} answers for one order: its `order_items`, which may be absent. */
  type DetailReply = Reply<Option<seq<OrderItem>>>

  /** The `map` of fetchAllOrders: same orders in the same order, each with its items
      kept when present and set to the empty list when absent, every other field as it was. */
  function DefaultItems(orders: seq<Order>): (r: seq<Order>)
    ensures |r| == |orders|
    ensures forall i :: 0 <= i < |orders| ==>
      && r[i].order_items.Some?
      && (orders[i].order_items.Some? ==> r[i] == orders[i])
      && (orders[i].order_items.None? ==> r[i] == orders[i].(order_items := Some([])))
  {
    if orders == [] then []
    else [orders[0].(order_items := Some(orders[0].order_items.GetOr([])))] + DefaultItems(orders[1..])
  }

  /** fetchAllOrders: a failed list fetch is rethrown as it is; otherwise the listed
      orders with their items defaulted. */
  function FetchAllOrders(listed: Reply<seq<Order>>): (r: Reply<seq<Order>>)
    ensures listed.Failed? ==> r == listed
    ensures listed.Ok? ==> r.Ok? && |r.value| == |listed.value|
    ensures listed.Ok? ==> forall i :: 0 <= i < |listed.value| ==>
      r.value[i] == listed.value[i].(order_items := Some(listed.value[i].order_items.GetOr([])))
  {
    match listed
    case Failed(_) => listed
    case Ok(orders) => Ok(DefaultItems(orders))
  }

  /** The items one order ends up with: the detail's items, or the empty list when the
      detail has none or its fetch failed. */
  function ItemsFrom(detail: DetailReply): seq<OrderItem> {
    match detail
    case Ok(items) => items.GetOr([])
    case Failed(_) => []
  }

  /** The fan-out of fetchAllOrdersWithItems, one detail fetch per order: one result per
      order, in the same order, each the order with only its items replaced by what its
      own detail fetch gave. */
  function WithItems(orders: seq<Order>, fetchDetail: int -> DetailReply): (r: seq<Order>)
    ensures |r| == |orders|
    ensures forall i :: 0 <= i < |orders| ==>
      r[i] == orders[i].(order_items := Some(ItemsFrom(fetchDetail(orders[i].id))))
  {
    if orders == [] then []
    else
      [orders[0].(order_items := Some(ItemsFrom(fetchDetail(orders[0].id))))]
      + WithItems(orders[1..], fetchDetail)
  }

  /** fetchAllOrdersWithItems: a failed list fetch is rethrown rather than answered with
      a partial list; otherwise every listed order comes back enriched. */
  function FetchAllOrdersWithItems(listed: Reply<seq<Order>>, fetchDetail: int -> DetailReply): (r: Reply<seq<Order>>)
    ensures listed.Failed? ==> r == listed
    ensures listed.Ok? ==> r.Ok? && |r.value| == |listed.value|
    ensures listed.Ok? ==> forall i :: 0 <= i < |listed.value| ==>
      r.value[i] == listed.value[i].(order_items := Some(ItemsFrom(fetchDetail(listed.value[i].id))))
  {
    match listed
    case Failed(_) => listed
    case Ok(orders) => Ok(WithItems(orders, fetchDetail))
  }

  /** An order whose detail fetch fails keeps all its other fields and gets no items. */
  lemma FailedDetailGivesNoItems(orders: seq<Order>, fetchDetail: int -> DetailReply, k: int)
    requires 0 <= k < |orders| && fetchDetail(orders[k].id).Failed?
    ensures WithItems(orders, fetchDetail)[k] == orders[k].(order_items := Some([]))
  {
  }

  /** An order whose detail fetch succeeds gets the detail's items, or none when absent. */
  lemma FetchedDetailGivesItsItems(orders: seq<Order>, fetchDetail: int -> DetailReply, k: int)
    requires 0 <= k < |orders| && fetchDetail(orders[k].id).Ok?
    ensures WithItems(orders, fetchDetail)[k].order_items == Some(fetchDetail(orders[k].id).value.GetOr([]))
  {
  }

  /** Failures are independent: two runs whose detail fetches answer alike for one
      order give that order the same result, whatever the other fetches did. */
  lemma DetailFailureIsolated(orders: seq<Order>, f: int -> DetailReply, g: int -> DetailReply, k: int)
    requires 0 <= k < |orders| && f(orders[k].id) == g(orders[k].id)
    ensures WithItems(orders, f)[k] == WithItems(orders, g)[k]
  {
  }

  /** The list holds order 9 and its detail fetch fails: the result still holds order 9,
      with no items. */
  lemma FailingOrderNineScenario(order9: Order, others: seq<Order>, fetchDetail: int -> DetailReply)
    requires order9.id == 9 && fetchDetail(9).Failed?
    ensures var r := FetchAllOrdersWithItems(Ok([order9] + others), fetchDetail);
      r.Ok? && r.value[0] == order9.(order_items := Some([]))
  {
  }
}
