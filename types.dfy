/** Rows and values shared by the storefront pages. */
module Types {

  datatype Option<T> = None | Some(value: T)

  type ProductId = string
  type OrderId = string
  type UserId = string

  /** Prices and totals in integer minor units (paise). */
  type Money = int

  /** Calendar dates as a count of days. */
  type Day = int

  /** JavaScript truthiness of a nullable string: both `null` and `""` are falsy. */
  predicate Truthy(s: Option<string>) {
    s.Some? && s.value != ""
  }

  /** A `products` row. */
  datatype Product = Product(
    id: ProductId,
    name: string,
    description: string,
    price: Money,
    imageUrl: string,
    category: string,
    stockQuantity: int,
    isAvailable: bool)

  /** A line of the cart as the cart store hands it out. */
  datatype CartLine = CartLine(id: ProductId, name: string, price: Money, imageUrl: string, quantity: int)

  /** An `orders` row (its key lives in the table map). */
  datatype Order = Order(
    userId: UserId,
    totalAmount: Money,
    fullName: string,
    phone: string,
    email: string,
    address: string,
    expectedDeliveryDate: Day,
    status: string,
    paymentStatus: string)

  /** An `order_items` row. */
  datatype OrderItem = OrderItem(orderId: OrderId, productId: ProductId, quantity: int, price: Money)

  /** A `profiles` row; every column is nullable. */
  datatype Profile = Profile(
    fullName: Option<string>,
    phone: Option<string>,
    email: Option<string>,
    address: Option<string>)

  /** The signed-in session as the auth service reports it. */
  datatype Session = Session(userId: UserId, email: Option<string>)
}
