/** The records the site keeps in the browser's local storage, and the
    storage itself: four keys ("cart", "users", "orders", "user"). */
module Records {
  import opened Common

  /** One cart line: a catalog id and how many of it. */
  datatype CartLine = CartLine(id: int, quantity: int)

  /** A registered account. The password is stored as typed. An absent
      text field is represented by "". */
  datatype Account = Account(
    id: string,
    name: string,
    email: string,
    password: string,
    phone: string,
    address: string,
    city: string,
    state: string,
    zipCode: string,
    joinDate: string,
    loyaltyPoints: int)

  /** The signed-in user ("user" key): an account's fields without the
      password. An `id` of "" means the record carries no id. */
  datatype Session = Session(
    id: string,
    name: string,
    email: string,
    phone: string,
    address: string,
    city: string,
    state: string,
    zipCode: string,
    joinDate: string,
    loyaltyPoints: int)

  /** The delivery form of the checkout page. */
  datatype DeliveryInfo = DeliveryInfo(
    name: string,
    email: string,
    phone: string,
    address: string,
    city: string,
    state: string,
    zipCode: string,
    instructions: string)

  const BlankDelivery := DeliveryInfo("", "", "", "", "", "", "", "")

  /** A line of a placed order: a copy of the catalog's name and price at
      the time the order was placed. */
  datatype OrderItem = OrderItem(id: int, name: string, price: real, quantity: int)

  datatype Order = Order(
    orderId: string,
    userEmail: string,
    orderDate: string,
    items: seq<OrderItem>,
    delivery: DeliveryInfo,
    paymentMethod: string,
    subtotal: real,
    tax: real,
    deliveryFee: real,
    total: real,
    status: string,
    deliveryAddress: string)

  /** The browser's local storage, one field per key the site uses. */
  class LocalStorage {
    var cart: Slot<seq<CartLine>>
    var users: Slot<seq<Account>>
    var orders: Slot<seq<Order>>
    var session: Slot<Session>

    constructor(cart: Slot<seq<CartLine>>, users: Slot<seq<Account>>,
                orders: Slot<seq<Order>>, session: Slot<Session>)
      ensures this.cart == cart && this.users == users
      ensures this.orders == orders && this.session == session
    {
      this.cart := cart;
      this.users := users;
      this.orders := orders;
      this.session := session;
    }
  }
}
