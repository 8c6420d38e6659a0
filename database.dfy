/** The persistence layer the services run against, as in-memory collections
    updated one request at a time. Mongoose documents become values: a
    service loads a document, changes its copy and `save()` writes it back. */
module Database {
  import opened Common
  import opened CartModel
  import opened OrderModel

  /** A catalogue entry (the product model is not part of this model beyond
      the four fields the services read). */
  datatype Product = Product(title: string, image: string, price: int, stock: int)

  /** A stored account; `password` holds the hash, never the password. */
  datatype User = User(firstName: string, lastName: string, email: string, password: string)

  class Store {
    /** The cart collection in insertion order; a cart's position is its id,
        and `findOne` returns the first match in this order. */
    var carts: seq<Cart>
    /** The product catalogue. No operation of the model writes it: stock is
        read, never decremented or reserved. */
    const products: map<ProductId, Product>
    /** The order collection in insertion order. */
    var orders: seq<Order>
    /** The user collection, looked up by e-mail address. */
    var users: map<string, User>
    /** The clock Mongoose reads for `createdAt`/`updatedAt`. */
    var clock: Time

    constructor (catalogue: map<ProductId, Product>)
      ensures carts == [] && products == catalogue && orders == [] && users == map[] && clock == 0
    {
      carts := [];
      products := catalogue;
      orders := [];
      users := map[];
      clock := 0;
    }
  }
}
