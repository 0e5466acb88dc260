# Charm & Petal storefront: decision rules of the page components

This project models, in Dafny, the logic inside the storefront's page
components: the checkout form and its submission, the product tile's stock
badge and add-to-cart guard, the shop's category filter, the payment page's
order finalisation and the order history's badges and empty state.

The managed backend is reduced to three abstract tables (`Backend.Tables`:
`orders` keyed by id, `order_items` as a sequence, `profiles` keyed by user
id). Whether each call succeeds is the service's decision, so it comes in as
a parameter. The same holds for the key an order insert is given. The cart
store's code is not part of this model. `Cart.CartStore` therefore records
the calls the pages make on it (`addToCart`, `clearCart`), in order. The cart
lines and `totalPrice` that checkout reads are inputs.

Modules follow the source files:

- `Types`: the rows (`Product`, `CartLine`, `Order`, `OrderItem`, `Profile`,
  `Session`) and JavaScript truthiness of a nullable string.
- `Backend`, `Cart`: the collaborators described above.
- `ProductCard` (src/components/ProductCard.tsx): badge, disabled button,
  and the `handleAddToCart` guard as a method on the cart store.
- `Shop` (src/pages/Shop.tsx): the initial category and the filter.
- `Checkout` (src/pages/Checkout.tsx): the schema, the error map built by the
  `forEach` loop, and the `CheckoutPage` class. Its fields are `formData`,
  `errors`, `loading` and `user`. `HandleSubmit` is the ordered flow:
  validate, insert the order, insert the items, update the profile on a
  best-effort basis, clear the cart.
- `Payment` (src/pages/Payment.tsx): the `PaymentPage` class (`order`,
  `paymentComplete`) and the constant status patch.
- `Orders` (src/pages/Orders.tsx): the status and payment badges, the load
  result and the screen it leads to.

Some behaviour of the code differs from what a reader might expect; the
model follows the code:

- `searchParams.get("category") || "all"` and `if (!orderId)` treat an empty
  string like a missing one (`Types.Truthy`).
- A submission might be expected to fail when the cart is empty or the user
  is not signed in. `handleSubmit` checks neither. If `user` is still null,
  building the insert's row throws, and the submission fails with nothing
  written. An empty cart only makes the page redirect when it renders.
- The schema runs every check on every field. An e-mail that is both
  malformed and longer than 255 gets two issues, and the `forEach` keeps the
  second: the length message.
- Typing into a field whose error is set blanks that entry to `""`. It does
  not remove the entry.
- The payment step might be expected to fail when its write does not apply.
  In the code, an update whose `eq("id", …)` filter matches no row reports no
  error, so the payment page still raises `paymentComplete`.
- The profile update writes name, phone and address. It does not write the
  e-mail.

## Model

| member | source | states |
|---|---|---|
| `Checkout.FieldIssues` | src/pages/Checkout.tsx:15-20 | a field gets no issue exactly when its rule holds: name 1..100, phone 10..15, e-mail well-formed and at most 255, address 10..500; every issue names that field |
| `Checkout.SchemaIssues` | src/pages/Checkout.tsx:76 | parsing the form yields no issue exactly when all four field rules hold |
| `Checkout.CollectErrors` | src/pages/Checkout.tsx:80-84 | the `forEach` loop builds exactly the error map `ErrorMap` of the issues |
| `Checkout.ErrorMapKeys` | src/pages/Checkout.tsx:81-83 | a field has an entry exactly when some issue names it |
| `Checkout.ErrorMapLastWins` | src/pages/Checkout.tsx:81-83 | the entry of a field holds the message of the last issue naming it |
| `Checkout.ErrorMapAppend` | src/pages/Checkout.tsx:81-83 | issues reported later override the entries of earlier ones |
| `Checkout.ValidationErrors` | src/pages/Checkout.tsx:76-84 | after validation the map has an entry exactly for the invalid fields, each with the message of its last failing check (the length message for a malformed, over-long e-mail) |
| `Checkout.FormData.With` | src/pages/Checkout.tsx:66 | the updated form holds the new value in the named field and leaves the other three as they were |
| `Checkout.ClearError` | src/pages/Checkout.tsx:67-69 | same keys; the named field's entry becomes empty; every other entry is unchanged |
| `Checkout.PendingOrder` | src/pages/Checkout.tsx:92-107 | the inserted order is pending/pending, for the user and the cart total, with the form's four fields, due seven days after today |
| `Checkout.OrderItemsFor` | src/pages/Checkout.tsx:113-118 | one item per cart line, in cart order, each with the new order's id and the line's product id, quantity and price |
| `Checkout.Screen` | src/pages/Checkout.tsx:148-151 | the page redirects to the cart exactly when the cart is empty |
| `Checkout.OrElse` | src/pages/Checkout.tsx:56-59 | `x || fallback`: a non-empty value is kept, a null or empty one gives the fallback; the result is empty exactly when both are |
| `Checkout.Prefilled` | src/pages/Checkout.tsx:54-60 | each non-empty stored column is copied into its field; name, phone and address are empty exactly when the stored column is null or empty; the e-mail falls back to the session's, then to `""` |
| `Checkout.CheckoutPage.constructor` | src/pages/Checkout.tsx:25-33 | empty form, no errors, not loading, no user |
| `Checkout.CheckoutPage.CheckAuth` | src/pages/Checkout.tsx:39-62 | without a session: redirect to sign-in and nothing changes; otherwise the user is set and a stored profile prefills the form (`x` or `""`, e-mail falling back to the session's) |
| `Checkout.CheckoutPage.HandleInputChange` | src/pages/Checkout.tsx:64-70 | only the named form field changes; only that field's error is blanked, and only if it was set |
| `Checkout.CheckoutPage.HandleSubmit` | src/pages/Checkout.tsx:72-146 | an invalid form sets the error map and touches nothing else (no rows, cart untouched, `loading` as before). Otherwise errors are cleared and `loading` ends false. The order row is written (pending/pending, the total, the form's four fields, today + 7) exactly when a user is known and the insert succeeds, and it stays even if the items insert then fails. The order is placed exactly when both inserts succeed, whatever the profile update does. Items are appended and the cart cleared exactly when the order is placed. The profile changes only on a placed order whose profile update succeeded |
| `ProductCard.Badge` | src/components/ProductCard.tsx:52-58 | "Sold Out" exactly when the add guard rejects (stock 0 or unavailable); "Low Stock" exactly when not sold out and stock < 5; "In Stock" exactly when not sold out and stock >= 5 |
| `ProductCard.DisabledIffRejected` | src/components/ProductCard.tsx:71 | the button is disabled exactly when the guard at line 24 rejects, which is exactly when the badge is "Sold Out" |
| `ProductCard.HandleAddToCart` | src/components/ProductCard.tsx:23-30 | `addToCart` is called exactly once when the product is available with non-zero stock, and not at all otherwise |
| `Shop.InitialCategory` | src/pages/Shop.tsx:14 | a missing or empty parameter gives "all"; a non-empty parameter is the category as given; never empty |
| `Shop.FilterFrom` | src/pages/Shop.tsx:48 | the filter keeps at most as many products as it is given |
| `Shop.MatchingIndices` | src/pages/Shop.tsx:48 | the indices of the products with the category, strictly increasing and exactly those indices |
| `Shop.FilterAtIndices` | src/pages/Shop.tsx:48 | the filtered list is the product list read at the matching indices, one product per index |
| `Shop.FilterMembership` | src/pages/Shop.tsx:48 | a product is kept exactly when it is in the list and has the category |
| `Shop.FilteredProducts` | src/pages/Shop.tsx:46-48 | with "all", the product list itself; otherwise exactly the products of that category; never longer than the list |
| `Shop.FilterKeepsOrder` | src/pages/Shop.tsx:46-48 | with a category other than "all", the list shown is the input read at a strictly increasing sequence of indices, which are exactly those of products with that category (relative order kept) |
| `Backend.UpdateWhereId` | src/pages/Payment.tsx:48-53 | an update filtered by id keeps the table's keys and changes no row with another id |
| `Backend.PatchIdempotent` | src/pages/Payment.tsx:48-53 | applying a constant patch twice equals applying it once |
| `Backend.UpdateProfileWhereId` | src/pages/Checkout.tsx:126-133 | the profile update keeps the keys and changes no other user's row; the user's row gets the submitted name, phone and address and keeps its e-mail |
| `Backend.Tables.InsertOrder` | src/pages/Checkout.tsx:95-111 | the row is stored under the answered key exactly when the service answers a key not yet in the table; otherwise nothing changes |
| `Backend.Tables.InsertOrderItems` | src/pages/Checkout.tsx:120-124 | the batch lands as a whole or not at all |
| `Backend.Tables.UpdateProfile` | src/pages/Checkout.tsx:126-135 | on success the profile update is applied; on failure nothing changes |
| `Backend.Tables.UpdateOrder` | src/pages/Payment.tsx:47-55 | on success the patch is applied to the row with that id; on failure nothing changes |
| `Backend.Tables.SelectOrder` | src/pages/Payment.tsx:28-34 | a row is returned exactly when the call succeeds and the id exists, and it is that row |
| `Cart.CartStore.AddToCart` | src/components/ProductCard.tsx:28 | records one `addToCart(product)` call |
| `Cart.CartStore.ClearCart` | src/pages/Checkout.tsx:137 | records one `clearCart()` call |
| `Payment.PaidPatchSetsBoth` | src/pages/Payment.tsx:49-52 | the payment patch sets `status = "confirmed"` and `payment_status = "completed"` and changes no other column |
| `Payment.PaymentUpdateIdempotent` | src/pages/Payment.tsx:47-53 | performing the payment update twice has the effect of performing it once |
| `Payment.StatusesStayCoupled` | src/pages/Payment.tsx:47-53 | if every order is pending/pending or confirmed/completed, that stays so after a checkout insert and after the payment update: the two statuses never change independently |
| `Payment.PaymentPage.constructor` | src/pages/Payment.tsx:14-16 | no order loaded and payment not complete |
| `Payment.PaymentPage.Mount` | src/pages/Payment.tsx:18-40 | the order is queried exactly when `orderId` is present and non-empty; the user is sent home when it is not, or when the query fails or finds no row; otherwise the fetched row is loaded |
| `Payment.PaymentPage.HandlePayment` | src/pages/Payment.tsx:42-63 | `paymentComplete` becomes true exactly when the update reports no error and otherwise keeps its value; on success the orders table gets the payment patch for that id only |
| `Orders.StatusColor` | src/pages/Orders.tsx:51-60 | pending gives "secondary", cancelled "destructive", every other status "default" |
| `Orders.PaymentBadge` | src/pages/Orders.tsx:118 | "default" exactly when the payment status is "completed", otherwise "secondary" |
| `Orders.Load` | src/pages/Orders.tsx:20-49 | without a session: redirect to sign-in, still loading, no orders; otherwise not loading, and the orders are the rows returned, with a null result or an error giving none |
| `Orders.ScreenOf` | src/pages/Orders.tsx:70-96 | the spinner shows exactly while loading; "No Orders Yet" exactly when loaded with no orders; otherwise the non-empty list of orders |
| `Orders.NoOrdersYetWhenEmpty` | src/pages/Orders.tsx:82-96 | for a signed-in user, "No Orders Yet" is shown exactly when the query returns an empty list, null, or an error |
| `Orders.BadgesAcrossPayment` | src/pages/Orders.tsx:115-119 | a freshly placed order shows two "secondary" badges; after the payment patch both are "default" |

## Left out

- Calls to the managed backend and the auth service are not implemented. Each is reduced to its effect on the abstract tables, with the service's answer as a parameter.
- The session subscription and sign-out are left out, and so is the `profiles` prefill query itself. `CheckAuth` takes the session and the profile row as inputs.
- The server-side filtering and ordering of queries are left out. `Orders.Load` takes the reply as it arrives, and the shop's product fetch is not modelled.
- The cart store's own behaviour is not modelled, because its code is not part of this model. The pages' calls on it are recorded, and `totalPrice` is an input, not derived from the lines.
- `Checkout.FieldValid`: the e-mail format check of the schema library is an uninterpreted parameter `isEmail`.
- `Checkout.FieldIssues`: lengths are counted in characters. JavaScript counts UTF-16 code units, which differs for characters outside the Basic Multilingual Plane.
- `Checkout.PendingOrder`: dates are day counts, so `setDate(+7)` is `+ 7` and the ISO formatting of the timestamp is left out. `formatDate` on the history page is left out too.
- Prices and totals are integers in minor units. Floating point and `toFixed(2)` display are not modelled.
- `Checkout.CheckoutPage.HandleSubmit`: it is modelled as one atomic step. The `loading = true` state while the awaits are pending is not modelled. Neither is a second click during that time, nor leaving the page mid-submission. Non-Zod exceptions from `parse` cannot arise for a string form and are not modelled.
- `Checkout.CheckoutPage.HandleInputChange`: the input's `name` is one of the four form fields. Other element names (which would add a key to the form) are not modelled.
- `Payment.PaymentPage.HandlePayment`: the two-second `setTimeout` and the simulated payment redirect are left out. The method is the body of the delayed callback.
- Navigation, toasts, `console.error` and all rendering are left out. Where the user is sent is returned as a value (`toAuth`, `sentHome`, `SubmitOutcome`).
- `Orders.StatusColor`: a status that names an inherited object property (for example `"toString"`) makes `colors[status]` return that property rather than "default". The model returns "default".
- `ProductCard`: stock is an integer. Non-integral JavaScript numbers are not modelled. Negative stock is kept: it counts as "Low Stock" and may be added.
- `getProductImage` is left out. It is URL building through a library call.
- The static pages (`Index.tsx`, `About.tsx`) and the navigation bar are left out. They contain no decision logic beyond equality tests.
