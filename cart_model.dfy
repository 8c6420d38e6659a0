/** The cart schema (backend/src/models/cartModel.ts): a cart line, a cart,
    the cart status enumeration and the defaults Mongoose fills in. */
module CartModel {
  import opened Common

  /** The three values `cardStatusEnum` admits; no other status can be stored. */
  datatype CartStatus = Active | Completed | Cancelled

  const CartStatusEnum: seq<string> := ["active", "completed", "cancelled"]

  /** A cart line. `unitPrice` is the product price when the line was added:
      a snapshot that later catalogue changes do not touch. */
  datatype CartItem = CartItem(product: ProductId, unitPrice: int, quantity: int)

  datatype Cart = Cart(userId: UserId, items: seq<CartItem>, totalAmount: int, status: CartStatus)

  /** The string under which a status is stored. */
  function StatusName(status: CartStatus): (name: string)
    ensures name in CartStatusEnum
  {
    match status
    case Active => "active"
    case Completed => "completed"
    case Cancelled => "cancelled"
  }

  /** The enum validator: a stored string is accepted exactly when it is one of
      the three names, and then it denotes the status of that name. */
  function ParseStatus(name: string): (r: Option<CartStatus>)
    ensures r.Some? <==> name in CartStatusEnum
    ensures r.Some? ==> StatusName(r.value) == name
  {
    if name == "active" then Some(Active)
    else if name == "completed" then Some(Completed)
    else if name == "cancelled" then Some(Cancelled)
    else None
  }

  lemma StatusNameRoundTrip(status: CartStatus)
    ensures ParseStatus(StatusName(status)) == Some(status)
  {
  }

  /** A line built from the schema: `quantity` falls back to 1 when omitted;
      `product` and `unitPrice` are required and always given. */
  function NewCartItem(product: ProductId, unitPrice: int, quantity: Option<int>): (item: CartItem)
    ensures item.product == product && item.unitPrice == unitPrice
    ensures quantity.None? ==> item.quantity == 1
    ensures quantity.Some? ==> item.quantity == quantity.value
  {
    CartItem(product, unitPrice, if quantity.Some? then quantity.value else 1)
  }

  /** A cart built from the schema: no lines, status `active` by default and
      `totalAmount` 0 unless a value is given. */
  function NewCart(userId: UserId, totalAmount: Option<int>): (cart: Cart)
    ensures cart.userId == userId && cart.items == [] && cart.status == Active
    ensures cart.totalAmount == if totalAmount.Some? then totalAmount.value else 0
  {
    Cart(userId, [], if totalAmount.Some? then totalAmount.value else 0, Active)
  }
}
