/**
 * The documents the record store returns to the dashboard controller:
 * orders, products and users, reduced to the fields the reports read.
 */
module Records {
  import opened Wrappers

  /** A creation timestamp, kept opaque: no calendar arithmetic is modelled. */
  datatype Date = Date(epochMillis: int)

  datatype Status = Processing | Shipped | Delivered

  datatype OrderItem = OrderItem(productId: string, quantity: int)

  /** An order; the monetary fields may be missing from the document. */
  datatype Order = Order(
    id: string,
    createdAt: Date,
    orderItems: seq<OrderItem>,
    total: Option<int>,
    discount: Option<int>,
    shippingCharges: Option<int>,
    tax: Option<int>,
    status: Status)

  datatype Product = Product(id: string, createdAt: Date)

  /** A user; `age` is derived from the date of birth and may be undefined. */
  datatype User = User(id: string, createdAt: Date, age: Option<int>)

  /** The numeric order fields that the reports add up. */
  datatype Field = Total | Discount | ShippingCharges | Tax

  /** JavaScript's `x || 0` on an optional number: a missing value counts as 0. */
  function OrZero(x: Option<int>): int
  {
    match x
    case None => 0
    case Some(v) => v
  }

  /** The value an order contributes for `field`, as `order.field || 0`. */
  function Amount(o: Order, field: Field): int
  {
    match field
    case Total => OrZero(o.total)
    case Discount => OrZero(o.discount)
    case ShippingCharges => OrZero(o.shippingCharges)
    case Tax => OrZero(o.tax)
  }
}
