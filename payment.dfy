/** The payment page: load the order, then mark it paid once the payment provider returns. */
module Payment {
  import opened Types
  import opened Backend
  import Checkout

  /** The one patch `handlePayment` sends: both status columns at once. */
  const PaidPatch := OrderPatch(Some("confirmed"), Some("completed"))

  /** The patch changes the two status columns and nothing else. */
  lemma PaidPatchSetsBoth(o: Order)
    ensures ApplyPatch(o, PaidPatch) == o.(status := "confirmed", paymentStatus := "completed")
  {
  }

  /** Repeating the payment update has the effect of performing it once. */
  lemma PaymentUpdateIdempotent(orders: map<OrderId, Order>, id: OrderId)
    ensures UpdateWhereId(UpdateWhereId(orders, id, PaidPatch), id, PaidPatch) == UpdateWhereId(orders, id, PaidPatch)
  {
    PatchIdempotent(orders, id, PaidPatch);
  }

  /**
   * The statuses this code writes move together: an order is either
   * pending/pending (as checkout inserts it) or confirmed/completed (after
   * payment), never one without the other.
   */
  predicate StatusesCoupled(o: Order) {
    || (o.status == "pending" && o.paymentStatus == "pending")
    || (o.status == "confirmed" && o.paymentStatus == "completed")
  }

  predicate AllCoupled(orders: map<OrderId, Order>) {
    forall id :: id in orders ==> StatusesCoupled(orders[id])
  }

  /** Inserting a checkout order and applying the payment update both keep every order coupled. */
  lemma StatusesStayCoupled(orders: map<OrderId, Order>, id: OrderId, user: UserId, total: Money,
                            form: Checkout.FormData, today: Day)
    requires AllCoupled(orders)
    ensures AllCoupled(orders[id := Checkout.PendingOrder(user, total, form, today)])
    ensures AllCoupled(UpdateWhereId(orders, id, PaidPatch))
  {
    var paid := UpdateWhereId(orders, id, PaidPatch);
    forall k | k in paid ensures StatusesCoupled(paid[k]) {
      if k == id {
        PaidPatchSetsBoth(orders[id]);
      }
    }
  }

  class PaymentPage {
    /** The `orderId` query parameter. */
    const orderId: Option<OrderId>
    var order: Option<Order>
    var paymentComplete: bool

    /** An order is only ever loaded for a usable `orderId`. */
    ghost predicate Valid()
      reads this
    {
      order.Some? ==> Truthy(orderId)
    }

    constructor (orderId: Option<OrderId>)
      ensures this.orderId == orderId && order.None? && !paymentComplete && Valid()
    {
      this.orderId := orderId;
      order := None;
      paymentComplete := false;
    }

    /**
     * The mount effect and `fetchOrder`. Without a usable `orderId` the page
     * sends the user home and queries nothing; a failed or empty query also
     * sends the user home.
     */
    method Mount(db: Tables, fetchFails: bool) returns (queried: bool, sentHome: bool)
      requires Valid()
      modifies this
      ensures Valid()
      ensures queried <==> Truthy(orderId)
      ensures sentHome <==> !queried || fetchFails || orderId.value !in db.orders
      ensures order == if sentHome then old(order) else Some(db.orders[orderId.value])
      ensures paymentComplete == old(paymentComplete)
    {
      if !Truthy(orderId) {
        return false, true;
      }
      queried := true;
      var data := db.SelectOrder(orderId.value, fetchFails);
      if data.None? {
        return queried, true;
      }
      sentHome := false;
      order := data;
    }

    /**
     * The body of `handlePayment`'s delayed callback. The button that calls
     * it is only rendered once an order is loaded. The flag is only raised
     * when the update reports no error; an update whose filter matches no
     * row reports none.
     */
    method HandlePayment(db: Tables, updateFails: bool)
      requires Valid() && order.Some?
      modifies this, db
      ensures Valid() && order == old(order)
      ensures paymentComplete <==> old(paymentComplete) || !updateFails
      ensures db.orders == if updateFails then old(db.orders) else UpdateWhereId(old(db.orders), orderId.value, PaidPatch)
      ensures db.orderItems == old(db.orderItems) && db.profiles == old(db.profiles)
    {
      var ok := db.UpdateOrder(orderId.value, PaidPatch, updateFails);
      if ok {
        paymentComplete := true;
      }
    }
  }
}
