/** The browser's localStorage as the pages share it. String flags live in
    `flags`; the JSON values (the saved cart, the stored user, the demo material
    orders) are kept as typed fields, since JSON encoding is not modelled. */
module Storage {
  import opened Wrappers
  import opened MaterialsData

  const IsLoggedInKey := "isLoggedIn"
  const OpenCheckoutKey := "openCheckoutAfterLogin"

  /** The fields of the stored `user` record the checkout reads ("" when absent). */
  datatype StoredUser = StoredUser(
    companyName: string, name: string, street: string, address: string,
    zip: string, zipCode: string, city: string)

  /** The delivery form of the materials checkout. */
  datatype DeliveryData = DeliveryData(companyName: string, street: string, zip: string, city: string)

  /** A materials order as the checkout stores it under `mock_orders`: status
      "PAID", type "material", sender the shop's warehouse, receiver the delivery
      form (its `name` is the company name). */
  datatype MaterialOrder = MaterialOrder(
    id: string,
    date: string,
    status: string,
    price: int,
    kind: string,
    items: seq<CartItem>,
    senderName: string,
    senderCity: string,
    receiver: DeliveryData)

  class LocalStorage {
    /** `isLoggedIn`, `openCheckoutAfterLogin` and any other string item. */
    var flags: map<string, string>
    /** `migiem_cart`; `None` once removed. */
    var savedCart: Option<seq<CartItem>>
    /** `user`. */
    var user: Option<StoredUser>
    /** `mock_orders`, newest first. */
    var mockOrders: seq<MaterialOrder>

    constructor(flags: map<string, string>, savedCart: Option<seq<CartItem>>,
                user: Option<StoredUser>, mockOrders: seq<MaterialOrder>)
      ensures this.flags == flags && this.savedCart == savedCart
      ensures this.user == user && this.mockOrders == mockOrders
    {
      this.flags := flags;
      this.savedCart := savedCart;
      this.user := user;
      this.mockOrders := mockOrders;
    }

    /** `localStorage.getItem('isLoggedIn') === 'true'`. */
    predicate LoggedIn()
      reads this
    {
      IsLoggedInKey in flags && flags[IsLoggedInKey] == "true"
    }
  }
}
