/** The hosted backend as the front end sees it: the signed-in user that `getUser`
    and `getSession` report, and the two tables that the core inserts into.
    The SDK itself is not modelled; its answers are inputs. */
module Backend {
  import opened Wrappers

  /** A signed-in user: id, the `user_metadata.full_name` field and the e-mail. */
  datatype User = User(id: string, fullName: Option<string>, email: Option<string>)

  /** A session always carries its user. */
  datatype Session = Session(user: User)

  /** A row of the `delivery_addresses` table, `id` being generated by the backend. */
  datatype AddressRow = AddressRow(
    id: string,
    userId: string,
    addressLine1: string,
    addressLine2: string,
    area: string,
    pincode: string,
    landmark: string)

  /** A row of the `subscriptions` table as `createSubscription` writes it.
      Timestamps are integer milliseconds since the epoch. An undefined
      `delivery_address_id` or `user_email` is `None`. */
  datatype SubscriptionRow = SubscriptionRow(
    userId: string,
    userName: string,
    userEmail: Option<string>,
    period: string,
    price: int,
    cuisineType: string,
    deliveryAddressId: Option<string>,
    activeUntil: int)

  /** The backend state touched by the core: the user `getUser` answers with and the
      contents of the two tables. */
  class Database {
    var authUser: Option<User>
    var addresses: seq<AddressRow>
    var subscriptions: seq<SubscriptionRow>

    constructor (authUser: Option<User>)
      ensures this.authUser == authUser && addresses == [] && subscriptions == []
    {
      this.authUser := authUser;
      addresses := [];
      subscriptions := [];
    }
  }
}
