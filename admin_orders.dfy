/**
 * The admin order list (src/app/admin/orders/page.tsx): page count, search
 * filter on the order number, clamped paging, the two-item preview and the
 * status badge with its fallback.
 */
module AdminOrders {
  import opened Wrappers
  import opened Text

  /** The page's mount effect: without an admin token it leaves for the admin login page. */
  datatype MountAction = ToAdminLogin | LoadOrders

  function OnMount(adminToken: Option<string>): (a: MountAction)
    ensures a == ToAdminLogin <==> adminToken.None? || adminToken.value == ""
  {
    if adminToken.None? || adminToken.value == "" then ToAdminLogin else LoadOrders
  }

  datatype OrderLine = OrderLine(name: string, quantity: int)

  datatype Order = Order(id: int, orderNumber: string, totalPayment: int, status: string, items: seq<OrderLine>)

  /** `Math.ceil(total / limit)`; a zero limit gives no finite page count (NaN or Infinity). */
  function TotalPages(total: nat, limit: nat): (pages: Option<nat>)
    ensures pages.None? <==> limit == 0
    ensures pages.Some? ==> (pages.value - 1) * limit < total <= pages.value * limit || (total == 0 && pages.value == 0)
  {
    if limit == 0 then None else Some((total + limit - 1) / limit)
  }

  /** `orderNumber.toLowerCase().includes(searchTerm.toLowerCase())` */
  predicate MatchesSearch(order: Order, term: string) {
    Contains(ToLower(order.orderNumber), ToLower(term))
  }

  /** `orders.filter(...)`: the matching orders in their original order. */
  function Filtered(orders: seq<Order>, term: string): seq<Order> {
    if orders == [] then []
    else if MatchesSearch(orders[0], term) then [orders[0]] + Filtered(orders[1..], term)
    else Filtered(orders[1..], term)
  }

  /** The visible orders are exactly the matching ones. */
  lemma {:induction false} FilteredMembers(orders: seq<Order>, term: string)
    ensures forall o :: o in Filtered(orders, term) <==> o in orders && MatchesSearch(o, term)
  {
    if orders != [] {
      FilteredMembers(orders[1..], term);
      assert orders == [orders[0]] + orders[1..];
    }
  }

  /** Filtering keeps the list's order and multiplicity: it works one order at a time and
      distributes over concatenation. */
  lemma {:induction false} FilteredConcat(a: seq<Order>, b: seq<Order>, term: string)
    ensures Filtered(a + b, term) == Filtered(a, term) + Filtered(b, term)
    ensures |a| == 1 ==> Filtered(a, term) == if MatchesSearch(a[0], term) then a else []
  {
    if a == [] {
      assert a + b == b;
    } else {
      assert (a + b)[1..] == a[1..] + b;
      FilteredConcat(a[1..], b, term);
    }
  }

  /** An empty search term shows every order, in order. */
  lemma {:induction false} EmptySearchKeepsAll(orders: seq<Order>)
    ensures Filtered(orders, "") == orders
  {
    if orders != [] {
      ContainsEmpty(ToLower(orders[0].orderNumber));
      EmptySearchKeepsAll(orders[1..]);
    }
  }

  /** The item cell: the first two lines, then "+n" for the rest. */
  function ItemPreview(items: seq<OrderLine>): (r: (seq<OrderLine>, Option<nat>))
    ensures |r.0| == if |items| < 2 then |items| else 2
    ensures r.0 == items[..|r.0|]
    ensures r.1.Some? <==> |items| > 2
    ensures r.1.Some? ==> |r.0| + r.1.value == |items|
  {
    (items[..if |items| < 2 then |items| else 2], if |items| > 2 then Some(|items| - 2) else None)
  }

  const StatusConfig: map<string, string> := map[
    "PENDING" := "Chờ xử lý", "CONFIRMED" := "Đã xác nhận", "PROCESSING" := "Đang xử lý",
    "SHIPPING" := "Đang giao", "DELIVERED" := "Đã giao", "CANCELLED" := "Đã hủy"]

  /** `statusConfig[status] || { label: status, ... }` */
  function StatusLabel(status: string): (shown: string)
    ensures status in StatusConfig ==> shown == StatusConfig[status]
    ensures status !in StatusConfig ==> shown == status
  {
    if status in StatusConfig then StatusConfig[status] else status
  }
}
