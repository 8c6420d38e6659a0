/** The user service (backend/src/services/userService.ts): registration,
    login and the formatted list of a user's orders. Password hashing,
    password checking and token signing are foreign code, taken here as
    given functions. */
module UserService {
  import opened Common
  import opened OrderModel
  import opened Database
  import OrderService

  const UserExists := "User already exists"
  const BadCredentials := "incorrect email or password"

  /** What a token is signed over. */
  datatype Claims = Claims(firstName: string, lastName: string, email: string)

  /** `bcrypt.hash`, `bcrypt.compareSync` and `generateJWT`, not looked into.
      `jwt.sign` stamps the token with its issue time (`iat`, and `exp` one
      hour later), so a token depends on the claims and on the time it is
      issued at. */
  datatype Crypto = Crypto(
    hash: string -> string,
    compare: (string, string) -> bool,
    sign: (Claims, Time) -> string)

  /** `registerUser`: refuses an e-mail already registered, leaving the users
      as they were; otherwise stores exactly one new user, with the hash of
      the password and never the password, and replies with a token for the
      new user's names and e-mail, issued at `now`. */
  method RegisterUser(db: Store, crypto: Crypto, now: Time,
                      firstName: string, lastName: string, email: string, password: string)
    returns (r: Reply<string>)
    modifies db`users
    ensures email in old(db.users) ==> r == Fail(400, UserExists) && db.users == old(db.users)
    ensures email !in old(db.users) ==>
              && db.users == old(db.users)[email := User(firstName, lastName, email, crypto.hash(password))]
              && r == Ok(200, crypto.sign(Claims(firstName, lastName, email), now))
  {
    if email in db.users {
      return Fail(400, UserExists);
    }
    var newUser := User(firstName, lastName, email, crypto.hash(password));
    db.users := db.users[email := newUser];
    r := Ok(200, crypto.sign(Claims(firstName, lastName, email), now));
  }

  /** `logInUser`: succeeds exactly when the e-mail is registered and the
      password checks against the stored hash, and then replies with a token
      for the stored names and the e-mail, issued at `now`. An unknown
      e-mail and a wrong password get one and the same reply. */
  function LogInUser(users: map<string, User>, crypto: Crypto, now: Time, email: string, password: string)
    : (r: Reply<string>)
    ensures r.Ok? <==> email in users && crypto.compare(password, users[email].password)
    ensures r.Ok? ==> r == Ok(200, crypto.sign(Claims(users[email].firstName, users[email].lastName, email), now))
    ensures r.Fail? ==> r == Fail(400, BadCredentials)
  {
    if email !in users then Fail(400, BadCredentials)
    else
      var found := users[email];
      if crypto.compare(password, found.password) then
        Ok(200, crypto.sign(Claims(found.firstName, found.lastName, email), now))
      else
        Fail(400, BadCredentials)
  }

  /** Logging in after registering, with the same password, succeeds
      whenever it happens, and signs the very claims registration signed
      (names and e-mail), provided the password checks against its own
      hash. The two tokens differ only through their issue times. */
  lemma RegisterThenLogIn(users: map<string, User>, crypto: Crypto, later: Time,
                          firstName: string, lastName: string, email: string, password: string)
    requires email !in users
    requires crypto.compare(password, crypto.hash(password))
    ensures LogInUser(users[email := User(firstName, lastName, email, crypto.hash(password))], crypto, later, email, password)
            == Ok(200, crypto.sign(Claims(firstName, lastName, email), later))
  {
  }

  // ---------------------------------------------------------------------------
  // getMyOrders

  datatype FormattedItem = FormattedItem(
    productTitle: string, productImage: string, productPrice: int, quantity: int, unitPrice: int)

  datatype FormattedOrder = FormattedOrder(
    id: OrderId, userId: UserId, orderItems: seq<FormattedItem>, total: int,
    address: string, status: string, createdAt: Time, updatedAt: Time)

  /** `item.unitPrice || item.productPrice`: the stored unit price unless it
      is absent or 0 (both falsy), in which case the product price. */
  function DisplayedUnitPrice(item: OrderItem): (price: int)
    ensures item.unitPrice.Some? && item.unitPrice.value != 0 ==> price == item.unitPrice.value
    ensures item.unitPrice.None? || item.unitPrice.value == 0 ==> price == item.productPrice
  {
    if item.unitPrice.Some? && item.unitPrice.value != 0 then item.unitPrice.value else item.productPrice
  }

  function FormatItem(item: OrderItem): (r: FormattedItem)
    ensures r.productTitle == item.productTitle && r.productImage == item.productImage
    ensures r.productPrice == item.productPrice && r.quantity == item.quantity
    ensures r.unitPrice == DisplayedUnitPrice(item)
  {
    FormattedItem(item.productTitle, item.productImage, item.productPrice, item.quantity, DisplayedUnitPrice(item))
  }

  function FormatOrder(order: Order): (r: FormattedOrder)
    ensures r.id == order.id && r.userId == order.userId && r.total == order.total
    ensures r.address == order.address && r.status == order.status
    ensures r.createdAt == order.createdAt && r.updatedAt == order.updatedAt
    ensures |r.orderItems| == |order.orderItems|
    ensures forall j :: 0 <= j < |order.orderItems| ==> r.orderItems[j] == FormatItem(order.orderItems[j])
  {
    FormattedOrder(order.id, order.userId,
                   seq(|order.orderItems|, j requires 0 <= j < |order.orderItems| => FormatItem(order.orderItems[j])),
                   order.total, order.address, order.status, order.createdAt, order.updatedAt)
  }

  /** `getMyOrders`: the user's orders as `getUserOrders` lists them (same
      number, same order, newest first), each formatted. */
  function GetMyOrders(orders: seq<Order>, userId: UserId): (r: Reply<seq<FormattedOrder>>)
    ensures r.Ok? && r.statusCode == 200
    ensures |r.value| == |OrderService.GetUserOrders(orders, userId)|
    ensures forall i :: 0 <= i < |r.value| ==> r.value[i] == FormatOrder(OrderService.GetUserOrders(orders, userId)[i])
    ensures forall i :: 0 <= i < |r.value| ==> r.value[i].userId == userId
  {
    var mine := OrderService.GetUserOrders(orders, userId);
    Ok(200, seq(|mine|, i requires 0 <= i < |mine| => FormatOrder(mine[i])))
  }

  /** Orders written by this backend store either no unit price (checkout)
      or the product price (createOrder), so every displayed unit price is
      the product price. */
  lemma DisplayedPricesAreProductPrices(orders: seq<Order>, clock: Time, userId: UserId)
    requires OrderService.OrdersInvariant(orders, clock)
    ensures var shown := GetMyOrders(orders, userId).value;
            forall i, j :: 0 <= i < |shown| && 0 <= j < |shown[i].orderItems| ==>
              shown[i].orderItems[j].unitPrice == shown[i].orderItems[j].productPrice
  {
    var mine := OrderService.GetUserOrders(orders, userId);
    var shown := GetMyOrders(orders, userId).value;
    forall i, j | 0 <= i < |shown| && 0 <= j < |shown[i].orderItems|
      ensures shown[i].orderItems[j].unitPrice == shown[i].orderItems[j].productPrice
    {
      assert mine[i] in mine;
      var k :| 0 <= k < |orders| && orders[k] == mine[i];
      assert OrderService.StoredOrderOk(orders[k]);
      assert OrderService.UnitPriceConsistent(mine[i].orderItems[j]);
    }
  }
}
