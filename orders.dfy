/** The order history page: how it loads the orders and how it badges them. */
module Orders {
  import opened Types
  import Checkout
  import Backend
  import Payment

  datatype Variant = Default | Secondary | Destructive

  const StatusColors: map<string, Variant> :=
    map["pending" := Secondary, "confirmed" := Default, "shipped" := Default,
        "delivered" := Default, "cancelled" := Destructive]

  /** `getStatusColor`: a lookup with "default" for unknown statuses. */
  function StatusColor(status: string): (v: Variant)
    ensures status == "pending" ==> v == Secondary
    ensures status == "cancelled" ==> v == Destructive
    ensures status != "pending" && status != "cancelled" ==> v == Default
  {
    if status in StatusColors then StatusColors[status] else Default
  }

  /** The payment badge: "default" exactly for a completed payment, "secondary" otherwise. */
  function PaymentBadge(paymentStatus: string): (v: Variant)
    ensures v == Default <==> paymentStatus == "completed"
    ensures v != Destructive
  {
    if paymentStatus == "completed" then Default else Secondary
  }

  /** An order as the history query returns it, with its items. */
  datatype OrderRecord = OrderRecord(id: OrderId, order: Order, items: seq<OrderItem>)

  /** What the history query returns: an error, or data that may be null. */
  datatype QueryReply = QueryFailed | QueryData(rows: Option<seq<OrderRecord>>)

  datatype PageState = PageState(orders: seq<OrderRecord>, loading: bool, toAuth: bool)

  /**
   * `checkAuthAndFetchOrders` from the initial state (no orders, loading).
   * Without a session the user is sent to `/auth` and loading is never cleared.
   */
  function Load(session: Option<Session>, reply: QueryReply): (s: PageState)
    ensures s.toAuth <==> session.None?
    ensures s.loading <==> session.None?
    ensures s.orders != [] ==> reply.QueryData? && reply.rows == Some(s.orders)
    ensures session.Some? && reply.QueryData? && reply.rows.Some? ==> s.orders == reply.rows.value
    ensures session.None? ==> s.orders == []
  {
    if session.None? then PageState([], true, true)
    else match reply
      case QueryFailed => PageState([], false, false)
      case QueryData(rows) => PageState(if rows.Some? then rows.value else [], false, false)
  }

  datatype Screen = LoadingOrders | NoOrdersYet | OrderList(orders: seq<OrderRecord>)

  /** The page body: a spinner while loading, then the empty state or the list. */
  function ScreenOf(s: PageState): (r: Screen)
    ensures r == LoadingOrders <==> s.loading
    ensures r == NoOrdersYet <==> !s.loading && s.orders == []
    ensures r.OrderList? ==> r.orders == s.orders && r.orders != []
  {
    if s.loading then LoadingOrders
    else if |s.orders| == 0 then NoOrdersYet
    else OrderList(s.orders)
  }

  /**
   * For a signed-in user the page shows "No Orders Yet" exactly when the
   * query yields no rows: an empty list, a null result, or an error.
   */
  lemma NoOrdersYetWhenEmpty(session: Session, reply: QueryReply)
    ensures ScreenOf(Load(Some(session), reply)) == NoOrdersYet
            <==> reply.QueryFailed? || reply.rows.None? || reply.rows.value == []
    ensures ScreenOf(Load(Some(session), reply)) != LoadingOrders
  {
  }

  /** A freshly placed order shows two secondary badges; after payment both turn default. */
  lemma BadgesAcrossPayment(user: UserId, total: Money, form: Checkout.FormData, today: Day)
    ensures var o := Checkout.PendingOrder(user, total, form, today);
      && StatusColor(o.status) == Secondary && PaymentBadge(o.paymentStatus) == Secondary
      && var paid := Backend.ApplyPatch(o, Payment.PaidPatch);
         StatusColor(paid.status) == Default && PaymentBadge(paid.paymentStatus) == Default
  {
  }
}
