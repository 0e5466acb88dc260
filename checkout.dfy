/**
 * The checkout page: the delivery form, its validation schema, and the
 * submission that turns the cart into an order.
 */
module Checkout {
  import opened Types
  import opened Backend
  import opened Cart

  datatype Field = FullName | Phone | Email | Address

  datatype FormData = FormData(fullName: string, phone: string, email: string, address: string)
  {
    function Get(f: Field): string {
      match f
      case FullName => fullName
      case Phone => phone
      case Email => email
      case Address => address
    }

    /** `{ ...prev, [name]: value }`. */
    function With(f: Field, v: string): (r: FormData)
      ensures r.Get(f) == v
      ensures forall g :: g != f ==> r.Get(g) == Get(g)
    {
      match f
      case FullName => this.(fullName := v)
      case Phone => this.(phone := v)
      case Email => this.(email := v)
      case Address => this.(address := v)
    }
  }

  const EmptyForm := FormData("", "", "", "")

  // ---------------------------------------------------------------------------
  // The schema. `isEmail` stands for the e-mail format check the schema
  // library performs; the model does not interpret it.

  /** What the schema accepts for one field. */
  predicate FieldValid(f: Field, v: string, isEmail: string -> bool) {
    match f
    case FullName => 1 <= |v| <= 100
    case Phone => 10 <= |v| <= 15
    case Email => isEmail(v) && |v| <= 255
    case Address => 10 <= |v| <= 500
  }

  predicate FormValid(form: FormData, isEmail: string -> bool) {
    && FieldValid(FullName, form.fullName, isEmail)
    && FieldValid(Phone, form.phone, isEmail)
    && FieldValid(Email, form.email, isEmail)
    && FieldValid(Address, form.address, isEmail)
  }

  /** One problem the schema reports: the field (`path[0]`) and its message. */
  datatype Issue = Issue(field: Field, message: string)

  const NameRequired := "Name is required"
  const PhoneRequired := "Valid phone number required"
  const EmailRequired := "Valid email required"
  const AddressRequired := "Complete address required"

  /** The schema library's own message for a failed `max(n)` check. */
  function TooLong(f: Field): string {
    match f
    case FullName => "String must contain at most 100 character(s)"
    case Phone => "String must contain at most 15 character(s)"
    case Email => "String must contain at most 255 character(s)"
    case Address => "String must contain at most 500 character(s)"
  }

  function Check(ok: bool, f: Field, message: string): seq<Issue> {
    if ok then [] else [Issue(f, message)]
  }

  /** The issues of one field, in the order its checks are declared. */
  function FieldIssues(f: Field, v: string, isEmail: string -> bool): (r: seq<Issue>)
    ensures r == [] <==> FieldValid(f, v, isEmail)
    ensures forall i :: 0 <= i < |r| ==> r[i].field == f
  {
    match f
    case FullName => Check(|v| >= 1, f, NameRequired) + Check(|v| <= 100, f, TooLong(f))
    case Phone => Check(|v| >= 10, f, PhoneRequired) + Check(|v| <= 15, f, TooLong(f))
    case Email => Check(isEmail(v), f, EmailRequired) + Check(|v| <= 255, f, TooLong(f))
    case Address => Check(|v| >= 10, f, AddressRequired) + Check(|v| <= 500, f, TooLong(f))
  }

  /** `checkoutSchema.parse(form)`: the issues of all fields, in the schema's key order. */
  function SchemaIssues(form: FormData, isEmail: string -> bool): (r: seq<Issue>)
    ensures r == [] <==> FormValid(form, isEmail)
  {
    FieldIssues(FullName, form.fullName, isEmail)
    + FieldIssues(Phone, form.phone, isEmail)
    + FieldIssues(Email, form.email, isEmail)
    + FieldIssues(Address, form.address, isEmail)
  }

  // ---------------------------------------------------------------------------
  // The error map.

  /** The map `newErrors` after the `forEach` has seen `issues`: later messages overwrite earlier ones. */
  function ErrorMap(issues: seq<Issue>): map<Field, string>
    decreases |issues|
  {
    if issues == [] then map[]
    else ErrorMap(issues[..|issues| - 1])[issues[|issues| - 1].field := issues[|issues| - 1].message]
  }

  /** The loop at the heart of the catch block. */
  method CollectErrors(issues: seq<Issue>) returns (errors: map<Field, string>)
    ensures errors == ErrorMap(issues)
  {
    errors := map[];
    var i := 0;
    while i < |issues|
      invariant 0 <= i <= |issues|
      invariant errors == ErrorMap(issues[..i])
    {
      assert issues[..i + 1][..i] == issues[..i];
      errors := errors[issues[i].field := issues[i].message];
      i := i + 1;
    }
    assert issues[..i] == issues;
  }

  /** The error map has an entry exactly for the fields some issue names. */
  lemma {:induction false} ErrorMapKeys(issues: seq<Issue>, f: Field)
    ensures f in ErrorMap(issues) <==> exists i :: 0 <= i < |issues| && issues[i].field == f
    decreases |issues|
  {
    if issues != [] {
      var n := |issues| - 1;
      var front := issues[..n];
      ErrorMapKeys(front, f);
      if f != issues[n].field {
        if f in ErrorMap(front) {
          var i :| 0 <= i < |front| && front[i].field == f;
          assert issues[i].field == f;
        }
        if exists i :: 0 <= i < |issues| && issues[i].field == f {
          var i :| 0 <= i < |issues| && issues[i].field == f;
          assert front[i].field == f;
        }
      }
    }
  }

  /** Each entry holds the message of the last issue naming that field. */
  lemma {:induction false} ErrorMapLastWins(issues: seq<Issue>, i: nat)
    requires i < |issues|
    requires forall j :: i < j < |issues| ==> issues[j].field != issues[i].field
    ensures issues[i].field in ErrorMap(issues)
    ensures ErrorMap(issues)[issues[i].field] == issues[i].message
    decreases |issues|
  {
    var n := |issues| - 1;
    if i < n {
      var front := issues[..n];
      assert front[i] == issues[i];
      forall j | i < j < |front| ensures front[j].field != front[i].field {
        assert front[j] == issues[j];
      }
      ErrorMapLastWins(front, i);
    }
  }

  /** Issues appended later overwrite what the earlier ones reported. */
  lemma {:induction false} ErrorMapAppend(a: seq<Issue>, b: seq<Issue>)
    ensures ErrorMap(a + b) == ErrorMap(a) + ErrorMap(b)
    decreases |b|
  {
    if b == [] {
      assert a + b == a;
    } else {
      var n, ab := |b| - 1, a + b;
      assert ab[..|ab| - 1] == a + b[..n];
      assert ab[|ab| - 1] == b[n];
      ErrorMapAppend(a, b[..n]);
    }
  }

  lemma ErrorMapSingle(x: Issue)
    ensures ErrorMap([x]) == map[x.field := x.message]
  {
  }

  /** Two checks on one field: the second one's message wins when both fail. */
  lemma ErrorMapTwoChecks(ok1: bool, ok2: bool, f: Field, m1: string, m2: string)
    ensures ErrorMap(Check(ok1, f, m1) + Check(ok2, f, m2))
            == if !ok2 then map[f := m2] else if !ok1 then map[f := m1] else map[]
  {
    ErrorMapAppend(Check(ok1, f, m1), Check(ok2, f, m2));
    if !ok1 { ErrorMapSingle(Issue(f, m1)); }
    if !ok2 { ErrorMapSingle(Issue(f, m2)); }
    assert ErrorMap([]) == map[];
  }

  /** The message the form shows under an invalid field: that of the last check that fails. */
  function ShownMessage(f: Field, v: string): string {
    match f
    case FullName => if |v| > 100 then TooLong(f) else NameRequired
    case Phone => if |v| > 15 then TooLong(f) else PhoneRequired
    case Email => if |v| > 255 then TooLong(f) else EmailRequired
    case Address => if |v| > 500 then TooLong(f) else AddressRequired
  }

  lemma FieldErrorMap(f: Field, v: string, isEmail: string -> bool)
    ensures ErrorMap(FieldIssues(f, v, isEmail))
            == if FieldValid(f, v, isEmail) then map[] else map[f := ShownMessage(f, v)]
  {
    match f
    case FullName => ErrorMapTwoChecks(|v| >= 1, |v| <= 100, f, NameRequired, TooLong(f));
    case Phone => ErrorMapTwoChecks(|v| >= 10, |v| <= 15, f, PhoneRequired, TooLong(f));
    case Email => ErrorMapTwoChecks(isEmail(v), |v| <= 255, f, EmailRequired, TooLong(f));
    case Address => ErrorMapTwoChecks(|v| >= 10, |v| <= 500, f, AddressRequired, TooLong(f));
  }

  /**
   * After a failed validation the error map names exactly the invalid fields,
   * each with the message of its last failing check: for an e-mail that is
   * both malformed and too long, the length message.
   */
  lemma ValidationErrors(form: FormData, isEmail: string -> bool)
    ensures forall f :: f in ErrorMap(SchemaIssues(form, isEmail)) <==> !FieldValid(f, form.Get(f), isEmail)
    ensures forall f :: f in ErrorMap(SchemaIssues(form, isEmail)) ==>
                          ErrorMap(SchemaIssues(form, isEmail))[f] == ShownMessage(f, form.Get(f))
  {
    var a := FieldIssues(FullName, form.fullName, isEmail);
    var b := FieldIssues(Phone, form.phone, isEmail);
    var c := FieldIssues(Email, form.email, isEmail);
    var d := FieldIssues(Address, form.address, isEmail);
    ErrorMapAppend(a, b);
    ErrorMapAppend(a + b, c);
    ErrorMapAppend(a + b + c, d);
    var ma, mb, mc, md := ErrorMap(a), ErrorMap(b), ErrorMap(c), ErrorMap(d);
    FieldErrorMap(FullName, form.fullName, isEmail);
    FieldErrorMap(Phone, form.phone, isEmail);
    FieldErrorMap(Email, form.email, isEmail);
    FieldErrorMap(Address, form.address, isEmail);
    var m := ErrorMap(SchemaIssues(form, isEmail));
    assert m == ma + mb + mc + md;
    forall f ensures (f in m <==> !FieldValid(f, form.Get(f), isEmail)) && (f in m ==> m[f] == ShownMessage(f, form.Get(f))) {
      match f
      case FullName => assert f !in mb && f !in mc && f !in md;
      case Phone => assert f !in ma && f !in mc && f !in md;
      case Email => assert f !in ma && f !in mb && f !in md;
      case Address => assert f !in ma && f !in mb && f !in mc;
    }
  }

  // ---------------------------------------------------------------------------
  // Clearing one error as the user types.

  /** `errors[name]` is set (non-empty) so typing into `name` blanks it. */
  function ClearError(errors: map<Field, string>, name: Field): (r: map<Field, string>)
    ensures r.Keys == errors.Keys
    ensures forall g :: g in errors && g != name ==> r[g] == errors[g]
    ensures name in errors ==> r[name] == ""
  {
    if name in errors && errors[name] != "" then errors[name := ""] else errors
  }

  // ---------------------------------------------------------------------------
  // The order the submission writes.

  /** Days from submission to the expected delivery. */
  const DeliveryDays := 7

  /** The row `handleSubmit` inserts into `orders`. */
  function PendingOrder(user: UserId, totalPrice: Money, form: FormData, today: Day): (o: Order)
    ensures o.status == "pending" && o.paymentStatus == "pending"
    ensures o.userId == user && o.totalAmount == totalPrice
    ensures o.fullName == form.Get(FullName) && o.phone == form.Get(Phone)
            && o.email == form.Get(Email) && o.address == form.Get(Address)
    ensures o.expectedDeliveryDate - today == DeliveryDays
  {
    Order(user, totalPrice, form.fullName, form.phone, form.email, form.address,
          today + DeliveryDays, "pending", "pending")
  }

  /** `cart.map(item => ({ order_id, product_id: item.id, quantity, price }))`. */
  function OrderItemsFor(orderId: OrderId, cart: seq<CartLine>): (items: seq<OrderItem>)
    ensures |items| == |cart|
    ensures forall i :: 0 <= i < |cart| ==>
              items[i].orderId == orderId && items[i].productId == cart[i].id
              && items[i].quantity == cart[i].quantity && items[i].price == cart[i].price
  {
    if cart == [] then []
    else [OrderItem(orderId, cart[0].id, cart[0].quantity, cart[0].price)] + OrderItemsFor(orderId, cart[1..])
  }

  /** Where the page ends after a submission. */
  datatype SubmitOutcome =
    | ValidationFailed     // messages shown under the fields
    | OrderFailed          // "Failed to place order" toast; the user may retry
    | Placed(orderId: OrderId)  // on to `/payment?orderId=<orderId>`

  /** The service's answers to the three writes of a submission. */
  datatype Replies = Replies(orderInsert: Option<OrderId>, itemsInsertFails: bool, profileUpdateFails: bool)

  /** The order insert goes out (a user is known) and the service stores the row. */
  predicate OrderStored(user: Option<UserId>, replies: Replies, orders: map<OrderId, Order>) {
    user.Some? && replies.orderInsert.Some? && replies.orderInsert.value !in orders
  }

  /** What the page renders: with an empty cart it sends the user to `/cart` instead of the form. */
  datatype CheckoutScreen = RedirectToCart | DeliveryForm

  function Screen(cart: seq<CartLine>): (s: CheckoutScreen)
    ensures s == RedirectToCart <==> |cart| == 0
  {
    if |cart| == 0 then RedirectToCart else DeliveryForm
  }

  /** `profile.x || fallback`. */
  function OrElse(v: Option<string>, fallback: string): (r: string)
    ensures Truthy(v) ==> r == v.value
    ensures !Truthy(v) ==> r == fallback
    ensures r == "" <==> !Truthy(v) && fallback == ""
  {
    if Truthy(v) then v.value else fallback
  }

  /** The form as `checkAuth` prefills it from a stored profile. */
  function Prefilled(p: Profile, sessionEmail: Option<string>): (r: FormData)
    ensures Truthy(p.fullName) ==> r.fullName == p.fullName.value
    ensures Truthy(p.phone) ==> r.phone == p.phone.value
    ensures Truthy(p.address) ==> r.address == p.address.value
    ensures r.email == if Truthy(p.email) then p.email.value else if Truthy(sessionEmail) then sessionEmail.value else ""
    ensures r.fullName == "" <==> !Truthy(p.fullName)
    ensures r.phone == "" <==> !Truthy(p.phone)
    ensures r.address == "" <==> !Truthy(p.address)
  {
    FormData(OrElse(p.fullName, ""), OrElse(p.phone, ""),
             OrElse(p.email, OrElse(sessionEmail, "")), OrElse(p.address, ""))
  }

  class CheckoutPage {
    var formData: FormData
    var errors: map<Field, string>
    var loading: bool
    var user: Option<UserId>

    constructor ()
      ensures formData == EmptyForm && errors == map[] && !loading && user.None?
    {
      formData := EmptyForm;
      errors := map[];
      loading := false;
      user := None;
    }

    /**
     * `checkAuth`: without a session the user is sent to `/auth`; otherwise
     * the user is remembered and a stored profile, when there is one,
     * prefills the form.
     */
    method CheckAuth(session: Option<Session>, profile: Option<Profile>) returns (toAuth: bool)
      modifies this
      ensures toAuth <==> session.None?
      ensures user == if toAuth then old(user) else Some(session.value.userId)
      ensures formData == if !toAuth && profile.Some? then Prefilled(profile.value, session.value.email) else old(formData)
      ensures errors == old(errors) && loading == old(loading)
    {
      if session.None? {
        return true;
      }
      toAuth := false;
      user := Some(session.value.userId);
      if profile.Some? {
        formData := Prefilled(profile.value, session.value.email);
      }
    }

    /** `handleInputChange`: only the named field changes, and only its error is blanked. */
    method HandleInputChange(name: Field, value: string)
      modifies this
      ensures formData == old(formData).With(name, value)
      ensures errors == ClearError(old(errors), name)
      ensures loading == old(loading) && user == old(user)
    {
      formData := formData.With(name, value);
      if name in errors && errors[name] != "" {
        errors := errors[name := ""];
      }
    }

    /**
     * `handleSubmit`. `cart` and `totalPrice` are what the cart store hands
     * the page, `today` is the current day, and `replies` are the service's
     * answers to the three writes.
     */
    method HandleSubmit(cart: seq<CartLine>, totalPrice: Money, today: Day, isEmail: string -> bool,
                        replies: Replies, store: CartStore, db: Tables) returns (outcome: SubmitOutcome)
      modifies this, store, db
      ensures formData == old(formData) && user == old(user)
      // Validation comes first and, when it fails, nothing else happens.
      ensures outcome.ValidationFailed? <==> !FormValid(old(formData), isEmail)
      ensures outcome.ValidationFailed? ==>
                && errors == ErrorMap(SchemaIssues(old(formData), isEmail))
                && loading == old(loading)
                && db.orders == old(db.orders) && db.orderItems == old(db.orderItems) && db.profiles == old(db.profiles)
                && store.calls == old(store.calls)
      ensures !outcome.ValidationFailed? ==> errors == map[] && !loading
      // The order row: written once the insert succeeds, and never taken back.
      ensures FormValid(old(formData), isEmail) && OrderStored(old(user), replies, old(db.orders)) ==>
                db.orders == old(db.orders)[replies.orderInsert.value := PendingOrder(old(user).value, totalPrice, old(formData), today)]
      ensures !(FormValid(old(formData), isEmail) && OrderStored(old(user), replies, old(db.orders))) ==>
                db.orders == old(db.orders)
      // The order is placed exactly when both inserts succeed; the profile update does not matter.
      ensures outcome.Placed? <==>
                FormValid(old(formData), isEmail) && OrderStored(old(user), replies, old(db.orders)) && !replies.itemsInsertFails
      ensures outcome.Placed? ==> outcome.orderId == replies.orderInsert.value
      ensures db.orderItems == if outcome.Placed? then old(db.orderItems) + OrderItemsFor(outcome.orderId, cart) else old(db.orderItems)
      ensures db.profiles == if outcome.Placed? && !replies.profileUpdateFails
                             then UpdateProfileWhereId(old(db.profiles), old(user).value, old(formData).fullName, old(formData).phone, old(formData).address)
                             else old(db.profiles)
      // The cart is cleared exactly when the order is placed.
      ensures store.calls == if outcome.Placed? then old(store.calls) + [Clear] else old(store.calls)
    {
      var issues := SchemaIssues(formData, isEmail);
      if issues != [] {
        var newErrors := CollectErrors(issues);
        errors := newErrors;
        return ValidationFailed;
      }
      errors := map[];
      loading := true;
      if user.None? {
        // `user.id` throws while the insert's row is built: nothing is sent.
        loading := false;
        return OrderFailed;
      }
      var row := PendingOrder(user.value, totalPrice, formData, today);
      var inserted := db.InsertOrder(row, replies.orderInsert);
      if inserted.None? {
        loading := false;
        return OrderFailed;
      }
      var orderId := inserted.value;
      var itemsOk := db.InsertOrderItems(OrderItemsFor(orderId, cart), replies.itemsInsertFails);
      if !itemsOk {
        loading := false;
        return OrderFailed;
      }
      // A failed profile update is only logged.
      var _ := db.UpdateProfile(user.value, formData.fullName, formData.phone, formData.address, replies.profileUpdateFails);
      store.ClearCart();
      loading := false;
      outcome := Placed(orderId);
    }
  }
}
