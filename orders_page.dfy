/**
 * The admin orders page (Admin/src/pages/Orders.jsx): the status selector, the list
 * update after a status change, and the money figures each order card shows.
 */
module OrdersPage {
  import opened Wrappers
  import opened OrderSchema
  import opened Accounts
  import opened OrderService

  /** The order fields the page reads; any may be missing from the JSON. */
  datatype Row = Row(id: string, status: Option<string>, total: Option<int>, shippingFee: Option<int>)

  /** An order as `GET /admin/orders/all` serialises it. */
  function RowOf(id: string, o: Order): (r: Row)
    ensures r == Row(id, Some(o.status), Some(o.total), Some(o.shippingFee))
  {
    Row(id, Some(o.status), Some(o.total), Some(o.shippingFee))
  }

  /** The selector's options. */
  const StatusChoices: seq<string> := ["Pending", "Shipped", "Delivered", "Completed", "Cancelled"]

  /** The selector offers exactly the statuses the status route accepts. */
  lemma ChoicesAreAdminStatuses(s: string)
    ensures s in StatusChoices <==> IsAdminStatus(s)
  {
  }

  /** `order.status ?? "Pending"`. */
  function SelectedStatus(r: Row): (s: string)
    ensures r.status.Some? ==> s == r.status.value
    ensures r.status.None? ==> s == "Pending"
  {
    if r.status.Some? then r.status.value else "Pending"
  }

  /**
   * The list after `handleStatusChange(orderId, ...)`. `reply` is the request's outcome:
   * on success the `order.status` of the response, if any. A failed request changes nothing;
   * a successful one changes only the rows with that id, to the reply's status or their own.
   */
  function AfterStatusChange(rows: seq<Row>, orderId: string, reply: Reply<Option<string>>): (r: seq<Row>)
    ensures |r| == |rows|
    ensures reply.Err? ==> r == rows
    ensures forall i :: 0 <= i < |rows| && rows[i].id != orderId ==> r[i] == rows[i]
    ensures reply.Ok? ==> forall i :: 0 <= i < |rows| && rows[i].id == orderId ==>
              r[i] == rows[i].(status := if reply.value.Some? then reply.value else rows[i].status)
  {
    if reply.Err? then rows
    else
      seq(|rows|, i requires 0 <= i < |rows| =>
        if rows[i].id == orderId then rows[i].(status := if reply.value.Some? then reply.value else rows[i].status)
        else rows[i])
  }

  /** After a status the route accepts, the page shows exactly the stored order's new status. */
  lemma PageFollowsServer(rows: seq<Row>, orders: map<string, Order>, orderId: string, s: string, i: int)
    requires orderId in orders && IsAdminStatus(s)
    requires 0 <= i < |rows| && rows[i].id == orderId
    ensures StatusDecision(orders, orderId, Some(s)).Ok?
    ensures SelectedStatus(AfterStatusChange(rows, orderId, Ok(Some(StatusDecision(orders, orderId, Some(s)).value)))[i]) == s
  {
    AnyAdminStatusApplies(orders, orderId, s);
  }

  /** The "Total" line as written: `(total ?? 0) + (shippingFee ?? 49)`. */
  function DisplayedTotal(r: Row): (shown: int)
    ensures r.total.Some? && (r.shippingFee.None? || r.shippingFee.value > 0) ==> shown > r.total.value
  {
    (if r.total.Some? then r.total.value else 0) + (if r.shippingFee.Some? then r.shippingFee.value else DefaultShippingFee)
  }

  /** For any order the creation route stores, the "Total" line counts the shipping fee twice. */
  lemma DisplayedTotalCountsShippingTwice(catalog: map<string, CatalogProduct>, users: map<string, User>, userId: string,
                                          req: CreateRequest, id: string, now: int)
    requires Plan(catalog, users, userId, req).Ok?
    requires NewOrder(InitialFields(userId, Plan(catalog, users, userId, req).value), now).Some?
    ensures var d := Plan(catalog, users, userId, req).value;
            DisplayedTotal(RowOf(id, Placed(userId, d, now))) == ItemsTotal(d.items) + 2 * d.shippingFee
  {
  }

  /** The figures the card means to show: the items' subtotal, the fee, and their sum, the stored total. */
  datatype Figures = Figures(subtotal: int, shipping: int, total: int)

  function IntendedFigures(r: Row): (f: Figures)
    ensures f.total == (if r.total.Some? then r.total.value else 0)
    ensures f.subtotal + f.shipping == f.total
  {
    var total := if r.total.Some? then r.total.value else 0;
    var fee := if r.shippingFee.Some? then r.shippingFee.value else DefaultShippingFee;
    Figures(total - fee, fee, total)
  }

  /** With the intended figures, a stored order shows its items' value as subtotal and its stored total as total. */
  lemma IntendedFiguresMatchOrder(catalog: map<string, CatalogProduct>, users: map<string, User>, userId: string,
                                  req: CreateRequest, id: string, now: int)
    requires Plan(catalog, users, userId, req).Ok?
    requires NewOrder(InitialFields(userId, Plan(catalog, users, userId, req).value), now).Some?
    ensures var d := Plan(catalog, users, userId, req).value;
            var f := IntendedFigures(RowOf(id, Placed(userId, d, now)));
            f.subtotal == ItemsTotal(d.items) && f.shipping == d.shippingFee && f.total == d.total
  {
  }
}
