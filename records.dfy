/** The documents the server stores, as the routes read and write them. */
module Records {
  import opened Common

  /** An instant as written by `new Date().toISOString()`. Strings of that one
      format order like the instants they denote, so an instant is a number here. */
  type Timestamp = nat

  /** A money amount (a price or an order total), in cents. */
  type Amount = int

  datatype Restaurant = Restaurant(
    name: string,
    cuisine: string,
    country: string,
    rating: int,          // tenths of a star
    deliveryTime: string,
    image: string)

  datatype MenuItem = MenuItem(
    restaurantId: string,
    name: string,
    description: string,
    price: Amount,
    category: string)

  /** One line of an order, as the client sends it. */
  datatype OrderItem = OrderItem(id: string, name: string, price: Amount, quantity: int)

  datatype Order = Order(
    userId: string,
    restaurantId: string,
    items: seq<OrderItem>,
    totalAmount: Amount,
    status: string,
    country: string,
    createdAt: Timestamp,
    updatedAt: Timestamp,
    paymentMethodId: Option<string>,  // written by checkout
    paidAt: Option<Timestamp>)        // written by checkout

  /** A stored payment method; `kind` is the document's `type` property. */
  datatype PaymentMethod = PaymentMethod(
    kind: string,
    cardNumber: string,
    expiryDate: string,
    holderName: string,
    country: string,
    createdAt: Timestamp,
    updatedAt: Timestamp)

  const Pending := "pending"
  const Paid := "paid"
  const Cancelled := "cancelled"
  const Delivered := "delivered"

  /** `req.user.role` and `req.user.country`: users are stored as plain field maps. */
  function Role(user: Fields): Option<string> { Lookup(user, "role") }
  function Country(user: Fields): Option<string> { Lookup(user, "country") }

  /** The sum of price times quantity over the lines of an order. */
  function ItemsTotal(items: seq<OrderItem>): Amount {
    if items == [] then 0 else ItemsTotal(items[..|items| - 1]) + items[|items| - 1].price * items[|items| - 1].quantity
  }
}
