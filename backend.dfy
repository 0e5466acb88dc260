/**
 * The managed relational store, reduced to the tables the pages read and
 * write. Whether a call succeeds is decided by the service, so every call
 * takes the service's answer as a parameter.
 */
module Backend {
  import opened Types

  /** A patch on an `orders` row: each named column is set to a constant. */
  datatype OrderPatch = OrderPatch(status: Option<string>, paymentStatus: Option<string>)

  function ApplyPatch(o: Order, p: OrderPatch): Order {
    o.(status := if p.status.Some? then p.status.value else o.status,
       paymentStatus := if p.paymentStatus.Some? then p.paymentStatus.value else o.paymentStatus)
  }

  /** `update(p).eq("id", id)` on `orders`: the filter selects at most the row keyed by `id`. */
  function UpdateWhereId(orders: map<OrderId, Order>, id: OrderId, p: OrderPatch): (r: map<OrderId, Order>)
    ensures r.Keys == orders.Keys
    ensures forall k :: k in orders && k != id ==> r[k] == orders[k]
    ensures id in orders ==> r[id] == ApplyPatch(orders[id], p)
  {
    if id in orders then orders[id := ApplyPatch(orders[id], p)] else orders
  }

  /** Setting columns to constants twice is the same as setting them once. */
  lemma PatchIdempotent(orders: map<OrderId, Order>, id: OrderId, p: OrderPatch)
    ensures UpdateWhereId(UpdateWhereId(orders, id, p), id, p) == UpdateWhereId(orders, id, p)
  {
    if id in orders {
      var once := UpdateWhereId(orders, id, p);
      assert ApplyPatch(once[id], p) == once[id];
      assert once[id := once[id]] == once;
    }
  }

  /** `update({full_name, phone, address}).eq("id", id)` on `profiles`; e-mail is not touched. */
  function UpdateProfileWhereId(profiles: map<UserId, Profile>, id: UserId,
                                fullName: string, phone: string, address: string): (r: map<UserId, Profile>)
    ensures r.Keys == profiles.Keys
    ensures forall k :: k in profiles && k != id ==> r[k] == profiles[k]
    ensures id in profiles ==> r[id].fullName == Some(fullName) && r[id].phone == Some(phone) && r[id].address == Some(address)
    ensures id in profiles ==> r[id].email == profiles[id].email
  {
    if id in profiles
    then profiles[id := profiles[id].(fullName := Some(fullName), phone := Some(phone), address := Some(address))]
    else profiles
  }

  class Tables {
    var orders: map<OrderId, Order>
    var orderItems: seq<OrderItem>
    var profiles: map<UserId, Profile>

    constructor (orders: map<OrderId, Order>, orderItems: seq<OrderItem>, profiles: map<UserId, Profile>)
      ensures this.orders == orders && this.orderItems == orderItems && this.profiles == profiles
    {
      this.orders := orders;
      this.orderItems := orderItems;
      this.profiles := profiles;
    }

    /**
     * `insert(row).select().single()` on `orders`. `answer` is what the
     * service replies: the key it generated, or None for an error. A key already in
     * the table is a unique-key violation, which is also an error.
     */
    method InsertOrder(row: Order, answer: Option<OrderId>) returns (r: Option<OrderId>)
      modifies this
      ensures r.Some? <==> answer.Some? && answer.value !in old(orders)
      ensures r.Some? ==> r == answer && orders == old(orders)[r.value := row]
      ensures r.None? ==> orders == old(orders)
      ensures orderItems == old(orderItems) && profiles == old(profiles)
    {
      if answer.Some? && answer.value !in orders {
        orders := orders[answer.value := row];
        r := answer;
      } else {
        r := None;
      }
    }

    /** A batch `insert(items)` on `order_items`: all rows land, or none do. */
    method InsertOrderItems(items: seq<OrderItem>, fails: bool) returns (ok: bool)
      modifies this
      ensures ok == !fails
      ensures orderItems == if ok then old(orderItems) + items else old(orderItems)
      ensures orders == old(orders) && profiles == old(profiles)
    {
      ok := !fails;
      if ok {
        orderItems := orderItems + items;
      }
    }

    /** The profile update; a filter that matches no row is not an error. */
    method UpdateProfile(id: UserId, fullName: string, phone: string, address: string, fails: bool) returns (ok: bool)
      modifies this
      ensures ok == !fails
      ensures profiles == if ok then UpdateProfileWhereId(old(profiles), id, fullName, phone, address) else old(profiles)
      ensures orders == old(orders) && orderItems == old(orderItems)
    {
      ok := !fails;
      if ok {
        profiles := UpdateProfileWhereId(profiles, id, fullName, phone, address);
      }
    }

    /** An `update(p).eq("id", id)` on `orders`; a filter that matches no row is not an error. */
    method UpdateOrder(id: OrderId, p: OrderPatch, fails: bool) returns (ok: bool)
      modifies this
      ensures ok == !fails
      ensures orders == if ok then UpdateWhereId(old(orders), id, p) else old(orders)
      ensures orderItems == old(orderItems) && profiles == old(profiles)
    {
      ok := !fails;
      if ok {
        orders := UpdateWhereId(orders, id, p);
      }
    }

    /** `select("*").eq("id", id).single()` on `orders`: no row is an error, like a failed call. */
    method SelectOrder(id: OrderId, fails: bool) returns (r: Option<Order>)
      ensures r.Some? <==> !fails && id in orders
      ensures r.Some? ==> r.value == orders[id]
    {
      if !fails && id in orders {
        r := Some(orders[id]);
      } else {
        r := None;
      }
    }
  }
}
