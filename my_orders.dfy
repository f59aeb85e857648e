/**
 * The signed-in order history (src/app/orders/my-orders/page.tsx): cancel
 * eligibility, the status configuration with its fallback, the details of an
 * expanded order and the one-at-a-time expand toggle.
 */
module MyOrders {
  import opened Wrappers

  /** The page remembered as the post-login target when there is no session. */
  const OwnPath := "/orders/my-orders"
  const LoadFailedNotice := "Không thể tải danh sách đơn hàng"
  const CancelledNotice := "Đã hủy đơn hàng thành công"
  const CancelFailedNotice := "Không thể hủy đơn hàng. Vui lòng thử lại."

  const Cancellable: set<string> := {"paid", "awaiting_payment", "pending"}

  /** canCancelOrder */
  predicate CanCancel(status: string) {
    status == "paid" || status == "awaiting_payment" || status == "pending"
  }

  lemma CanCancelExactly(status: string)
    ensures CanCancel(status) <==> status in Cancellable
  {
  }

  datatype StatusStyle = StatusStyle(caption: string, color: string)

  const StatusConfig: map<string, StatusStyle> := map[
    "pending" := StatusStyle("Chờ xác nhận", "bg-yellow-100 text-yellow-700"),
    "awaiting_payment" := StatusStyle("Chờ thanh toán", "bg-orange-100 text-orange-700"),
    "paid" := StatusStyle("Đã thanh toán", "bg-blue-100 text-blue-700"),
    "processing" := StatusStyle("Đang xử lý", "bg-purple-100 text-purple-700"),
    "shipping" := StatusStyle("Đang giao hàng", "bg-cyan-100 text-cyan-700"),
    "delivered" := StatusStyle("Đã giao hàng", "bg-green-100 text-green-700"),
    "cancelled" := StatusStyle("Đã hủy", "bg-red-100 text-red-700"),
    "refunded" := StatusStyle("Đã hoàn tiền", "bg-gray-100 text-gray-700")]

  /** `statusConfig[order.status] || statusConfig.pending` */
  function StyleOf(status: string): (st: StatusStyle)
    ensures status in StatusConfig ==> st == StatusConfig[status]
    ensures status !in StatusConfig ==> st == StatusConfig["pending"]
  {
    if status in StatusConfig then StatusConfig[status] else StatusConfig["pending"]
  }

  datatype OrderItem = OrderItem(productId: int, productName: string, quantity: int, price: int)

  datatype Order = Order(id: int, orderCode: string, status: string, totalAmount: int, items: seq<OrderItem>)

  /** loadOrders: the list is replaced only when the reply carries one; a failure or an empty
      reply keeps the previous list, and a failure raises a notice. */
  datatype ListReply = Listed(orders: Option<seq<Order>>) | ListFailed

  function Loaded(previous: seq<Order>, reply: ListReply): (r: (seq<Order>, Option<string>))
    ensures reply.Listed? && reply.orders.Some? ==> r.0 == reply.orders.value && r.1.None?
    ensures reply.Listed? && reply.orders.None? ==> r.0 == previous && r.1.None?
    ensures reply.ListFailed? ==> r.0 == previous && r.1 == Some(LoadFailedNotice)
  {
    match reply
    case Listed(orders) => (if orders.Some? then orders.value else previous, None)
    case ListFailed => (previous, Some(LoadFailedNotice))
  }

  /** handleCancelOrder, for a user who answers the confirmation and a cancel request that
      succeeds or fails: the notice shown, whether the list is reloaded. */
  datatype CancelOutcome = CancelOutcome(sentRequest: bool, notice: Option<string>, reload: bool)

  function CancelOrder(confirmed: bool, succeeded: bool): (c: CancelOutcome)
    ensures !confirmed ==> c == CancelOutcome(false, None, false)
    ensures confirmed ==> c.sentRequest && (c.reload <==> succeeded)
    ensures confirmed ==> c.notice == Some(if succeeded then CancelledNotice else CancelFailedNotice)
  {
    if !confirmed then CancelOutcome(false, None, false)
    else if succeeded then CancelOutcome(true, Some(CancelledNotice), true)
    else CancelOutcome(true, Some(CancelFailedNotice), false)
  }

  /** What an expanded order shows below its header: the amount of each item, in order, and
      whether the cancel action is offered. */
  datatype Details = Details(amounts: seq<int>, offersCancel: bool)

  /** The details block of `order` (`isExpanded && ...`): none while it is collapsed. */
  function DetailsOf(expanded: Option<int>, order: Order): (d: Option<Details>)
    ensures d.Some? <==> expanded == Some(order.id)
    ensures d.Some? ==> |d.value.amounts| == |order.items|
    ensures d.Some? ==> forall i :: 0 <= i < |order.items| ==>
      d.value.amounts[i] == order.items[i].price * order.items[i].quantity
    ensures d.Some? ==> (d.value.offersCancel <==> order.status in Cancellable)
  {
    if expanded == Some(order.id) then
      Some(Details(seq(|order.items|, i requires 0 <= i < |order.items| => order.items[i].price * order.items[i].quantity),
                   CanCancel(order.status)))
    else None
  }

  /** The list's orders are told apart by their ids (they are the list's React keys). */
  predicate DistinctIds(orders: seq<Order>) {
    forall i, j :: 0 <= i < j < |orders| ==> orders[i].id != orders[j].id
  }

  /** Clicking an order header: the open order closes, any other opens in its place. */
  function Toggle(expanded: Option<int>, clicked: int): (r: Option<int>)
    ensures r == Some(clicked) <==> expanded != Some(clicked)
    ensures r.None? <==> expanded == Some(clicked)
  {
    if expanded == Some(clicked) then None else Some(clicked)
  }

  /** Clicking the same header twice leaves that order open exactly when it was open before;
      any other expanded order has been closed. */
  lemma ToggleTwice(expanded: Option<int>, clicked: int)
    ensures Toggle(Toggle(expanded, clicked), clicked) == if expanded == Some(clicked) then expanded else None
  {
  }

  /** At most one order of a list shows its details at any time. */
  lemma AtMostOneExpanded(expanded: Option<int>, orders: seq<Order>)
    requires DistinctIds(orders)
    ensures forall i, j ::
      (0 <= i < |orders| && 0 <= j < |orders| &&
       DetailsOf(expanded, orders[i]).Some? && DetailsOf(expanded, orders[j]).Some?) ==> i == j
  {
    forall i, j | 0 <= i < j < |orders|
      ensures DetailsOf(expanded, orders[i]).None? || DetailsOf(expanded, orders[j]).None?
    {
      assert orders[i].id != orders[j].id;
    }
  }

  /** Clicking the header of order c: afterwards exactly order c shows its details if it was
      collapsed, and no order does if it was open. */
  lemma ToggleShowsDetails(expanded: Option<int>, orders: seq<Order>, c: int)
    requires DistinctIds(orders)
    requires 0 <= c < |orders|
    ensures forall k :: 0 <= k < |orders| ==>
      (DetailsOf(Toggle(expanded, orders[c].id), orders[k]).Some? <==>
       k == c && DetailsOf(expanded, orders[c]).None?)
  {
    forall k | 0 <= k < |orders|
      ensures DetailsOf(Toggle(expanded, orders[c].id), orders[k]).Some? <==>
              k == c && DetailsOf(expanded, orders[c]).None?
    {
      if k < c {
        assert orders[k].id != orders[c].id;
      } else if c < k {
        assert orders[c].id != orders[k].id;
      }
    }
  }
}
