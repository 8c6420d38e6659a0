/** The cart engine and checkout (backend/src/services/cartService.ts).

    Each operation is given twice: as a function on cart values that states
    what the operation does to the user's active cart (its errors, checked in
    the source's order, and its effect), and as a method on the store that
    performs the source's steps one by one (look the cart up or create it,
    change the loaded copy, save it, read the active cart again) and is
    proved to have exactly that effect. */
module CartService {
  import opened Common
  import opened CartModel
  import opened OrderModel
  import opened Database
  import OrderService

  const ItemExists := "Item already exists in the cart"
  const ProductNotFound := "Product not found"
  const StockExceeded := "Requested quantity exceeds available stock"
  const ItemNotFound := "Item not found in the cart"
  const AddressRequired := "Shipping address is required"
  const CheckoutError := "Erreur lors du checkout"

  // ---------------------------------------------------------------------------
  // Cart lines

  /** `calculateCartTotalItem`: Σ quantity × unitPrice, folded from the left
      as `reduce` does. */
  function CalculateCartTotalItem(items: seq<CartItem>): (total: int)
    ensures items == [] ==> total == 0
    ensures (forall i :: 0 <= i < |items| ==> items[i].quantity >= 0 && items[i].unitPrice >= 0) ==> total >= 0
  {
    if items == [] then 0
    else CalculateCartTotalItem(items[..|items| - 1]) + items[|items| - 1].quantity * items[|items| - 1].unitPrice
  }

  /** The total distributes over concatenation. */
  lemma {:induction false} TotalOfConcat(a: seq<CartItem>, b: seq<CartItem>)
    ensures CalculateCartTotalItem(a + b) == CalculateCartTotalItem(a) + CalculateCartTotalItem(b)
  {
    if b == [] {
      assert a + b == a;
    } else {
      var n := |b| - 1;
      assert (a + b)[..|a + b| - 1] == a + b[..n];
      assert (a + b)[|a + b| - 1] == b[n];
      TotalOfConcat(a, b[..n]);
    }
  }

  /** `items.find(p => p.product == productId)`, as the position of the first
      line for that product. */
  function FindLine(items: seq<CartItem>, productId: ProductId): (r: Option<nat>)
    ensures r.Some? ==> r.value < |items| && items[r.value].product == productId
    ensures r.Some? ==> forall j :: 0 <= j < r.value ==> items[j].product != productId
    ensures r.None? ==> forall j :: 0 <= j < |items| ==> items[j].product != productId
  {
    if items == [] then None
    else if items[0].product == productId then Some(0)
    else match FindLine(items[1..], productId)
      case None => None
      case Some(i) => Some(i + 1)
  }

  /** `items.filter(p => p.product != productId)`. */
  function OtherLines(items: seq<CartItem>, productId: ProductId): (r: seq<CartItem>)
    ensures |r| <= |items|
    ensures forall j :: 0 <= j < |r| ==> r[j].product != productId
  {
    if items == [] then []
    else (if items[0].product != productId then [items[0]] else []) + OtherLines(items[1..], productId)
  }

  /** What the filter keeps: every line for another product, as often as the
      cart holds it, and nothing for the product itself. */
  lemma {:induction false} OtherLinesCounts(items: seq<CartItem>, productId: ProductId)
    ensures forall x :: multiset(OtherLines(items, productId))[x] ==
                          if x.product != productId then multiset(items)[x] else 0
  {
    if items != [] {
      OtherLinesCounts(items[1..], productId);
      assert items == [items[0]] + items[1..];
    }
  }

  /** No two lines of a cart are for the same product. */
  predicate DistinctProducts(items: seq<CartItem>) {
    forall i, j :: 0 <= i < j < |items| ==> items[i].product != items[j].product
  }

  /** In a cart without duplicate lines, filtering a product out removes
      exactly its one line and keeps the others in order. */
  lemma {:induction false} OtherLinesRemovesLine(items: seq<CartItem>, i: nat)
    requires DistinctProducts(items) && i < |items|
    ensures OtherLines(items, items[i].product) == items[..i] + items[i + 1..]
  {
    var p := items[i].product;
    if i == 0 {
      OtherLinesKeepsAll(items[1..], p);
      assert OtherLines(items, p) == OtherLines(items[1..], p);
      assert items[..0] + items[1..] == items[1..];
    } else {
      var tail := items[1..];
      assert tail[i - 1] == items[i];
      assert DistinctProducts(tail);
      OtherLinesRemovesLine(tail, i - 1);
      assert items[0].product != p;
      assert OtherLines(items, p) == [items[0]] + OtherLines(tail, p);
      assert items[..i] == [items[0]] + tail[..i - 1];
      assert items[i + 1..] == tail[i..];
    }
  }

  lemma {:induction false} OtherLinesKeepsAll(items: seq<CartItem>, productId: ProductId)
    requires forall j :: 0 <= j < |items| ==> items[j].product != productId
    ensures OtherLines(items, productId) == items
  {
    if items != [] {
      OtherLinesKeepsAll(items[1..], productId);
      assert [items[0]] + items[1..] == items;
    }
  }

  /** The bookkeeping every cart keeps: the stored total is the sum of its
      lines, and no product has two lines. */
  predicate CartValid(cart: Cart) {
    cart.totalAmount == CalculateCartTotalItem(cart.items) && DistinctProducts(cart.items)
  }

  // ---------------------------------------------------------------------------
  // The four item operations, on the loaded cart

  /** `addItemToCart` on the user's active cart. A line for the product
      already present gives 400 before the catalogue is consulted; then an
      unknown product gives 404; then a quantity above the stock gives 400
      (equal to the stock is accepted; no lower bound is checked). Otherwise
      one line with the current price is appended, the earlier lines stay as
      they were and the total grows by price × quantity. */
  function AddItem(cart: Cart, products: map<ProductId, Product>, productId: ProductId, quantity: int): (r: Reply<Cart>)
    ensures FindLine(cart.items, productId).Some? ==> r == Fail(400, ItemExists)
    ensures FindLine(cart.items, productId).None? && productId !in products ==> r == Fail(404, ProductNotFound)
    ensures FindLine(cart.items, productId).None? && productId in products && quantity > products[productId].stock ==>
              r == Fail(400, StockExceeded)
    ensures r.Ok? <==>
              FindLine(cart.items, productId).None? && productId in products && quantity <= products[productId].stock
    ensures r.Ok? ==>
              && r.statusCode == 200
              && r.value.items == cart.items + [CartItem(productId, products[productId].price, quantity)]
              && r.value.totalAmount == cart.totalAmount + products[productId].price * quantity
              && r.value.userId == cart.userId && r.value.status == cart.status
    ensures CartValid(cart) && r.Ok? ==> CartValid(r.value)
  {
    if FindLine(cart.items, productId).Some? then Fail(400, ItemExists)
    else if productId !in products then Fail(404, ProductNotFound)
    else
      var product := products[productId];
      if quantity > product.stock then Fail(400, StockExceeded)
      else
        var line := NewCartItem(productId, product.price, Some(quantity));
        var added := cart.(items := cart.items + [line], totalAmount := cart.totalAmount + product.price * quantity);
        assert CartValid(cart) ==> CartValid(added) by {
          if CartValid(cart) {
            assert product.price * quantity == line.quantity * line.unitPrice;
            AppendKeepsValid(cart, line);
          }
        }
        Ok(200, added)
  }

  /** The total of a single line. */
  lemma TotalOfOne(line: CartItem)
    ensures CalculateCartTotalItem([line]) == line.quantity * line.unitPrice
  {
    assert [line][..0] == [];
  }

  /** Appending a line for a new product, with the total grown by its
      quantity × unit price, keeps a cart valid. */
  lemma AppendKeepsValid(cart: Cart, line: CartItem)
    requires CartValid(cart)
    requires forall j :: 0 <= j < |cart.items| ==> cart.items[j].product != line.product
    ensures CartValid(cart.(items := cart.items + [line], totalAmount := cart.totalAmount + line.quantity * line.unitPrice))
  {
    TotalOfConcat(cart.items, [line]);
    TotalOfOne(line);
    var items := cart.items + [line];
    forall i, j | 0 <= i < j < |items| ensures items[i].product != items[j].product {
      assert items[i] == cart.items[i];
    }
  }

  /** `updateItemInCart` on the user's active cart. A missing line gives 404
      first, then an unknown product 404, then a quantity above the stock 400.
      Otherwise only the matching line's quantity changes, line order is kept,
      and the total is recomputed as the other lines' sum plus the new
      quantity × the line's unit price. */
  function UpdateItem(cart: Cart, products: map<ProductId, Product>, productId: ProductId, quantity: int): (r: Reply<Cart>)
    ensures FindLine(cart.items, productId).None? ==> r == Fail(404, ItemNotFound)
    ensures FindLine(cart.items, productId).Some? && productId !in products ==> r == Fail(404, ProductNotFound)
    ensures FindLine(cart.items, productId).Some? && productId in products && quantity > products[productId].stock ==>
              r == Fail(400, StockExceeded)
    ensures r.Ok? <==>
              FindLine(cart.items, productId).Some? && productId in products && quantity <= products[productId].stock
    ensures r.Ok? ==>
              var i := FindLine(cart.items, productId).value;
              && r.statusCode == 200
              && |r.value.items| == |cart.items|
              && r.value.items[i] == cart.items[i].(quantity := quantity)
              && (forall j :: 0 <= j < |cart.items| && j != i ==> r.value.items[j] == cart.items[j])
              && r.value.totalAmount ==
                   CalculateCartTotalItem(OtherLines(cart.items, productId)) + quantity * cart.items[i].unitPrice
              && r.value.userId == cart.userId && r.value.status == cart.status
    ensures CartValid(cart) && r.Ok? ==> CartValid(r.value)
  {
    var existing := FindLine(cart.items, productId);
    if existing.None? then Fail(404, ItemNotFound)
    else if productId !in products then Fail(404, ProductNotFound)
    else if quantity > products[productId].stock then Fail(400, StockExceeded)
    else
      var i := existing.value;
      var items := cart.items[i := cart.items[i].(quantity := quantity)];
      OtherLinesIgnoresQuantity(cart.items, i, quantity);
      var total := CalculateCartTotalItem(OtherLines(items, productId)) + items[i].quantity * items[i].unitPrice;
      var updated := cart.(items := items, totalAmount := total);
      assert CartValid(cart) ==> CartValid(updated) by {
        if CartValid(cart) {
          UpdateKeepsValid(cart, i, quantity);
        }
      }
      Ok(200, updated)
  }

  /** Changing the quantity of a line for a product does not change the
      lines for the other products. */
  lemma {:induction false} OtherLinesIgnoresQuantity(items: seq<CartItem>, i: nat, quantity: int)
    requires i < |items|
    ensures OtherLines(items[i := items[i].(quantity := quantity)], items[i].product) == OtherLines(items, items[i].product)
  {
    var p := items[i].product;
    var updated := items[i := items[i].(quantity := quantity)];
    if i == 0 {
      assert updated[1..] == items[1..];
    } else {
      OtherLinesIgnoresQuantity(items[1..], i - 1, quantity);
      assert updated[1..] == items[1..][i - 1 := items[1..][i - 1].(quantity := quantity)];
      assert updated[0] == items[0];
    }
  }

  /** Changing one line's quantity, with the total recomputed as
      `updateItemInCart` does, keeps a cart valid. */
  lemma UpdateKeepsValid(cart: Cart, i: nat, quantity: int)
    requires CartValid(cart) && i < |cart.items|
    ensures var items := cart.items[i := cart.items[i].(quantity := quantity)];
            CartValid(cart.(items := items,
                            totalAmount := CalculateCartTotalItem(OtherLines(cart.items, cart.items[i].product))
                                           + quantity * cart.items[i].unitPrice))
  {
    UpdatedTotal(cart.items, i, quantity);
    var items := cart.items[i := cart.items[i].(quantity := quantity)];
    forall a, b | 0 <= a < b < |items| ensures items[a].product != items[b].product {
      assert items[a].product == cart.items[a].product && items[b].product == cart.items[b].product;
    }
  }

  /** The recomputed total of an update is the sum of the updated lines. */
  lemma UpdatedTotal(items: seq<CartItem>, i: nat, quantity: int)
    requires DistinctProducts(items) && i < |items|
    ensures CalculateCartTotalItem(items[i := items[i].(quantity := quantity)]) ==
            CalculateCartTotalItem(OtherLines(items, items[i].product)) + quantity * items[i].unitPrice
  {
    var line := items[i].(quantity := quantity);
    OtherLinesRemovesLine(items, i);
    ReplacedLineTotal(items, i, line);
  }

  /** The total with one line replaced: the lines before it, the new line,
      the lines after it. */
  lemma ReplacedLineTotal(items: seq<CartItem>, i: nat, line: CartItem)
    requires i < |items|
    ensures CalculateCartTotalItem(items[i := line]) ==
            CalculateCartTotalItem(items[..i] + items[i + 1..]) + line.quantity * line.unitPrice
  {
    var before, after := items[..i], items[i + 1..];
    assert items[i := line] == (before + [line]) + after;
    TotalOfConcat(before + [line], after);
    TotalOfConcat(before, [line]);
    TotalOfOne(line);
    TotalOfConcat(before, after);
  }

  /** `deleteItemInCart` on the user's active cart: 404 without a line for
      the product; otherwise the lines for other products, in their order,
      with the total recomputed from them. The catalogue is not consulted. */
  function DeleteItem(cart: Cart, productId: ProductId): (r: Reply<Cart>)
    ensures FindLine(cart.items, productId).None? ==> r == Fail(404, ItemNotFound)
    ensures r.Ok? <==> FindLine(cart.items, productId).Some?
    ensures r.Ok? ==>
              && r.statusCode == 200
              && r.value.items == OtherLines(cart.items, productId)
              && r.value.totalAmount == CalculateCartTotalItem(r.value.items)
              && r.value.userId == cart.userId && r.value.status == cart.status
    ensures CartValid(cart) && r.Ok? ==>
              var i := FindLine(cart.items, productId).value;
              r.value.items == cart.items[..i] + cart.items[i + 1..] && CartValid(r.value)
  {
    var existing := FindLine(cart.items, productId);
    if existing.None? then Fail(404, ItemNotFound)
    else
      var i := existing.value;
      var others := OtherLines(cart.items, productId);
      var deleted := cart.(totalAmount := CalculateCartTotalItem(others), items := others);
      assert CartValid(cart) ==> others == cart.items[..i] + cart.items[i + 1..] && CartValid(deleted) by {
        if CartValid(cart) {
          RemovalKeepsValid(cart.items, i);
        }
      }
      Ok(200, deleted)
  }

  /** In a cart without duplicate lines, filtering out the product of one
      line leaves exactly the other lines, still without duplicates. */
  lemma RemovalKeepsValid(items: seq<CartItem>, i: nat)
    requires DistinctProducts(items) && i < |items|
    ensures OtherLines(items, items[i].product) == items[..i] + items[i + 1..]
    ensures DistinctProducts(items[..i] + items[i + 1..])
  {
    OtherLinesRemovesLine(items, i);
    RemovalKeepsDistinct(items, i);
  }

  lemma RemovalKeepsDistinct(items: seq<CartItem>, i: nat)
    requires DistinctProducts(items) && i < |items|
    ensures DistinctProducts(items[..i] + items[i + 1..])
  {
    var rest := items[..i] + items[i + 1..];
    forall a, b | 0 <= a < b < |rest| ensures rest[a].product != rest[b].product {
      if b < i {
        assert rest[a] == items[a] && rest[b] == items[b];
      } else if a < i {
        assert rest[a] == items[a] && rest[b] == items[b + 1];
      } else {
        assert rest[a] == items[a + 1] && rest[b] == items[b + 1];
      }
    }
  }

  /** `clearCart` on the user's active cart: no lines and a zero total,
      whatever the cart held. */
  function ClearItems(cart: Cart): (r: Cart)
    ensures r.items == [] && r.totalAmount == 0
    ensures r.userId == cart.userId && r.status == cart.status
    ensures CartValid(r)
  {
    cart.(items := [], totalAmount := 0)
  }

  /** Clearing an already cleared cart changes nothing. */
  lemma ClearItemsIdempotent(cart: Cart)
    ensures ClearItems(ClearItems(cart)) == ClearItems(cart)
  {
  }

  // ---------------------------------------------------------------------------
  // The cart collection

  /** The filter `{userId, status: "active"}`, matched against the stored
      status string. */
  predicate IsActiveCartOf(cart: Cart, userId: UserId): (b: bool)
    ensures b <==> cart.userId == userId && StatusName(cart.status) == "active"
  {
    cart.userId == userId && cart.status == Active
  }

  /** `CartModel.findOne({userId, status: "active"})`: the first active cart
      of the user in the collection. */
  function FindActive(carts: seq<Cart>, userId: UserId): (r: Option<nat>)
    ensures r.Some? ==> r.value < |carts| && IsActiveCartOf(carts[r.value], userId)
    ensures r.Some? ==> forall j :: 0 <= j < r.value ==> !IsActiveCartOf(carts[j], userId)
    ensures r.None? ==> forall j :: 0 <= j < |carts| ==> !IsActiveCartOf(carts[j], userId)
  {
    if carts == [] then None
    else if IsActiveCartOf(carts[0], userId) then Some(0)
    else match FindActive(carts[1..], userId)
      case None => None
      case Some(i) => Some(i + 1)
  }

  /** At most one active cart per user. */
  predicate OneActivePerUser(carts: seq<Cart>) {
    forall i, j :: 0 <= i < j < |carts| && carts[i].status == Active && carts[j].status == Active ==>
      carts[i].userId != carts[j].userId
  }

  /** What every reachable cart collection satisfies. */
  predicate CartsInvariant(carts: seq<Cart>) {
    OneActivePerUser(carts) && forall i :: 0 <= i < |carts| ==> CartValid(carts[i])
  }

  /** `getActiveCartForUser` on the collection: the collection afterwards and
      the position of the user's active cart. When the user has none, exactly
      one cart is added, at the end: empty, with total 0 and status active;
      the existing carts are left as they were. */
  function WithActiveCart(carts: seq<Cart>, userId: UserId): (r: (seq<Cart>, nat))
    ensures r.1 < |r.0| && IsActiveCartOf(r.0[r.1], userId)
    ensures FindActive(carts, userId).Some? ==> r.0 == carts && r.1 == FindActive(carts, userId).value
    ensures FindActive(carts, userId).None? ==>
              && r.0 == carts + [r.0[r.1]] && r.1 == |carts|
              && r.0[r.1].items == [] && r.0[r.1].totalAmount == 0
    ensures FindActive(r.0, userId) == Some(r.1)
    ensures CartsInvariant(carts) ==> CartsInvariant(r.0)
  {
    match FindActive(carts, userId)
    case Some(k) => (carts, k)
    case None =>
      var created := carts + [NewCart(userId, Some(0))];
      assert created[..|carts|] == carts;
      (created, |carts|)
  }

  /** Saving a loaded cart that kept its owner and status leaves the user's
      active cart where it was. */
  lemma FindActiveAfterSave(carts: seq<Cart>, userId: UserId, k: nat, cart: Cart)
    requires FindActive(carts, userId) == Some(k)
    requires cart.userId == carts[k].userId && cart.status == carts[k].status
    ensures FindActive(carts[k := cart], userId) == Some(k)
  {
    var saved := carts[k := cart];
    assert forall j :: 0 <= j < k ==> saved[j] == carts[j];
    assert IsActiveCartOf(saved[k], userId);
  }

  lemma InvariantAfterSave(carts: seq<Cart>, k: nat, cart: Cart)
    requires CartsInvariant(carts) && k < |carts|
    requires cart.userId == carts[k].userId && cart.status == carts[k].status && CartValid(cart)
    ensures CartsInvariant(carts[k := cart])
  {
  }

  /** Once the user's active cart is completed, the user has no active cart,
      so the next lookup creates a fresh, empty one. */
  lemma {:induction false} NoActiveCartAfterCheckout(carts: seq<Cart>, userId: UserId, k: nat)
    requires OneActivePerUser(carts) && k < |carts| && IsActiveCartOf(carts[k], userId)
    ensures FindActive(carts[k := carts[k].(status := Completed)], userId).None?
    ensures var after := WithActiveCart(carts[k := carts[k].(status := Completed)], userId);
            after.1 == |carts| && after.0[after.1] == NewCart(userId, Some(0))
  {
    var completed := carts[k := carts[k].(status := Completed)];
    forall j | 0 <= j < |completed| ensures !IsActiveCartOf(completed[j], userId) {
      if j != k {
        assert completed[j] == carts[j];
      }
    }
  }

  // ---------------------------------------------------------------------------
  // Store operations

  /** `createCartForUser`: `CartModel.create({userId, totalAmount: 0})` and save. */
  method CreateCartForUser(db: Store, userId: UserId) returns (k: nat, cart: Cart)
    modifies db`carts
    ensures cart == NewCart(userId, Some(0))
    ensures db.carts == old(db.carts) + [cart] && k == |old(db.carts)|
    ensures CartsInvariant(old(db.carts)) && FindActive(old(db.carts), userId).None? ==> CartsInvariant(db.carts)
  {
    cart := NewCart(userId, Some(0));
    db.carts := db.carts + [cart];
    k := |db.carts| - 1;
  }

  /** `getActiveCartForUser`: the user's active cart, created if missing.
      (`populateProduct` only shapes what is displayed and is not modelled.) */
  method GetActiveCartForUser(db: Store, userId: UserId) returns (k: nat, cart: Cart)
    modifies db`carts
    ensures (db.carts, k) == WithActiveCart(old(db.carts), userId)
    ensures k < |db.carts| && cart == db.carts[k] && IsActiveCartOf(cart, userId)
    ensures CartsInvariant(old(db.carts)) ==> CartsInvariant(db.carts)
  {
    var found := FindActive(db.carts, userId);
    if found.Some? {
      k := found.value;
      cart := db.carts[k];
    } else {
      k, cart := CreateCartForUser(db, userId);
    }
  }

  /** Writes a changed copy of the user's active cart back and reads the
      active cart again, as the services do before replying: the cart read
      back is the one just saved. */
  method SaveAndReload(db: Store, userId: UserId, k: nat, cart: Cart) returns (reloaded: Cart)
    requires k < |db.carts| && FindActive(db.carts, userId) == Some(k)
    requires cart.userId == db.carts[k].userId && cart.status == db.carts[k].status
    modifies db`carts
    ensures db.carts == old(db.carts)[k := cart] && reloaded == cart
    ensures CartsInvariant(old(db.carts)) && CartValid(cart) ==> CartsInvariant(db.carts)
  {
    if CartsInvariant(db.carts) && CartValid(cart) {
      InvariantAfterSave(db.carts, k, cart);
    }
    db.carts := db.carts[k := cart];
    FindActiveAfterSave(old(db.carts), userId, k, cart);
    var k';
    k', reloaded := GetActiveCartForUser(db, userId);
  }

  /** `addItemToCart`. An error leaves the loaded cart unsaved. */
  method AddItemToCart(db: Store, productId: ProductId, quantity: int, userId: UserId) returns (res: Reply<Cart>)
    modifies db`carts
    ensures var (carts, k) := WithActiveCart(old(db.carts), userId);
            res == AddItem(carts[k], db.products, productId, quantity) &&
            db.carts == if res.Ok? then carts[k := res.value] else carts
    ensures CartsInvariant(old(db.carts)) ==> CartsInvariant(db.carts)
  {
    var k, cart := GetActiveCartForUser(db, userId);
    ghost var loaded := db.carts;
    var existingItem := FindLine(cart.items, productId);
    if existingItem.Some? {
      return Fail(400, ItemExists);
    }
    if productId !in db.products {
      return Fail(404, ProductNotFound);
    }
    var product := db.products[productId];
    if quantity > product.stock {
      return Fail(400, StockExceeded);
    }
    ghost var before := cart;
    cart := cart.(items := cart.items + [NewCartItem(productId, product.price, Some(quantity))]);
    cart := cart.(totalAmount := cart.totalAmount + product.price * quantity);
    assert AddItem(before, db.products, productId, quantity) == Ok(200, cart);
    if CartsInvariant(loaded) {
      InvariantAfterSave(loaded, k, cart);
    }
    var reloaded := SaveAndReload(db, userId, k, cart);
    res := Ok(200, reloaded);
  }

  /** `updateItemInCart`. The product is fetched before the line is checked,
      as in the source; an error leaves the loaded cart unsaved. */
  method UpdateItemInCart(db: Store, productId: ProductId, quantity: int, userId: UserId) returns (res: Reply<Cart>)
    modifies db`carts
    ensures var (carts, k) := WithActiveCart(old(db.carts), userId);
            res == UpdateItem(carts[k], db.products, productId, quantity) &&
            db.carts == if res.Ok? then carts[k := res.value] else carts
    ensures CartsInvariant(old(db.carts)) ==> CartsInvariant(db.carts)
  {
    var k, cart := GetActiveCartForUser(db, userId);
    ghost var loaded := db.carts;
    var existingLine := FindLine(cart.items, productId);
    var product := if productId in db.products then Some(db.products[productId]) else None;
    if existingLine.None? {
      return Fail(404, ItemNotFound);
    }
    if product.None? {
      return Fail(404, ProductNotFound);
    }
    if quantity > product.value.stock {
      return Fail(400, StockExceeded);
    }
    ghost var before := cart;
    var i := existingLine.value;
    cart := cart.(items := cart.items[i := cart.items[i].(quantity := quantity)]);
    var otherCartItems := OtherLines(cart.items, productId);
    var total := CalculateCartTotalItem(otherCartItems);
    total := total + cart.items[i].quantity * cart.items[i].unitPrice;
    cart := cart.(totalAmount := total);
    assert UpdateItem(before, db.products, productId, quantity) == Ok(200, cart);
    if CartsInvariant(loaded) {
      InvariantAfterSave(loaded, k, cart);
    }
    var reloaded := SaveAndReload(db, userId, k, cart);
    res := Ok(200, reloaded);
  }

  /** `deleteItemInCart`. */
  method DeleteItemInCart(db: Store, productId: ProductId, userId: UserId) returns (res: Reply<Cart>)
    modifies db`carts
    ensures var (carts, k) := WithActiveCart(old(db.carts), userId);
            res == DeleteItem(carts[k], productId) &&
            db.carts == if res.Ok? then carts[k := res.value] else carts
    ensures CartsInvariant(old(db.carts)) ==> CartsInvariant(db.carts)
  {
    var k, cart := GetActiveCartForUser(db, userId);
    ghost var loaded := db.carts;
    var existingLine := FindLine(cart.items, productId);
    if existingLine.None? {
      return Fail(404, ItemNotFound);
    }
    ghost var before := cart;
    var otherCartItems := OtherLines(cart.items, productId);
    var total := CalculateCartTotalItem(otherCartItems);
    cart := cart.(totalAmount := total);
    cart := cart.(items := otherCartItems);
    assert DeleteItem(before, productId) == Ok(200, cart);
    if CartsInvariant(loaded) {
      InvariantAfterSave(loaded, k, cart);
    }
    var reloaded := SaveAndReload(db, userId, k, cart);
    res := Ok(200, reloaded);
  }

  /** `clearCart`: always succeeds. Clearing twice leaves the store as
      clearing once does. */
  method ClearCart(db: Store, userId: UserId) returns (res: Reply<Cart>)
    modifies db`carts
    ensures var (carts, k) := WithActiveCart(old(db.carts), userId);
            res == Ok(200, ClearItems(carts[k])) && db.carts == carts[k := ClearItems(carts[k])]
    ensures CartsInvariant(old(db.carts)) ==> CartsInvariant(db.carts)
  {
    var k, cart := GetActiveCartForUser(db, userId);
    ghost var loaded := db.carts;
    cart := cart.(items := []);
    cart := cart.(totalAmount := 0);
    if CartsInvariant(loaded) {
      InvariantAfterSave(loaded, k, cart);
    }
    var reloaded := SaveAndReload(db, userId, k, cart);
    res := Ok(200, reloaded);
  }

  // ---------------------------------------------------------------------------
  // Checkout

  /** `!address`: no address, or the empty string. A blank address passes. */
  /** `!address`: true for an absent address and for the empty string, the
      only falsy string; any address with at least one character passes. */
  predicate AddressMissing(address: Option<string>): (missing: bool)
    ensures missing <==> address.None? || |address.value| == 0
  {
    address.None? || address.value == ""
  }

  /** The order line for a cart line: title and image from the product as it
      is now, price and quantity from the cart line; no `unitPrice`. */
  function Snapshot(item: CartItem, product: Product): (line: OrderItem)
    ensures line.productPrice == item.unitPrice && line.quantity == item.quantity
    ensures line.productTitle == product.title && line.productImage == product.image
    ensures line.unitPrice.None?
  {
    OrderItem(product.title, product.image, item.unitPrice, item.quantity, None)
  }

  /** The order lines checkout builds from a cart: one per cart line, in cart
      order, or a 404 message as soon as a line's product is gone. */
  function OrderLines(items: seq<CartItem>, products: map<ProductId, Product>): (r: Result<seq<OrderItem>>)
    ensures r.Success? <==> forall j :: 0 <= j < |items| ==> items[j].product in products
    ensures r.Failure? ==> r.error == ProductNotFound
    ensures r.Success? ==>
              && |r.value| == |items|
              && forall j :: 0 <= j < |items| ==> r.value[j] == Snapshot(items[j], products[items[j].product])
  {
    if items == [] then Success([])
    else
      var n := |items| - 1;
      match OrderLines(items[..n], products)
      case Failure(e) =>
        assert !(forall j :: 0 <= j < n ==> items[..n][j].product in products);
        Failure(e)
      case Success(prefix) =>
        if items[n].product in products then Success(prefix + [Snapshot(items[n], products[items[n].product])])
        else Failure(ProductNotFound)
  }

  /** The `for` loop of `checkoutCart`, building the order lines one cart
      line at a time and stopping at the first product that is gone. */
  method SnapshotOrderItems(items: seq<CartItem>, products: map<ProductId, Product>) returns (r: Result<seq<OrderItem>>)
    ensures r == OrderLines(items, products)
  {
    var orderItems: seq<OrderItem> := [];
    var i := 0;
    while i < |items|
      invariant 0 <= i <= |items|
      invariant forall j :: 0 <= j < i ==> items[j].product in products
      invariant |orderItems| == i
      invariant forall j :: 0 <= j < i ==> orderItems[j] == Snapshot(items[j], products[items[j].product])
    {
      var item := items[i];
      if item.product !in products {
        return Failure(ProductNotFound);
      }
      var product := products[item.product];
      var orderItem := OrderItem(product.title, product.image, item.unitPrice, item.quantity, None);
      orderItems := orderItems + [orderItem];
      i := i + 1;
    }
    assert orderItems == OrderLines(items, products).value;
    r := Success(orderItems);
  }

  /** The order lines of a cart add up, by `createOrder`'s own formula, to
      the sum of the cart lines. */
  lemma {:induction false} OrderTotalIsCartTotal(items: seq<CartItem>, products: map<ProductId, Product>)
    requires OrderLines(items, products).Success?
    ensures OrderService.LinesTotal(OrderLines(items, products).value) == CalculateCartTotalItem(items)
  {
    if items != [] {
      var n := |items| - 1;
      var lines := OrderLines(items, products).value;
      assert OrderLines(items[..n], products).Success?;
      OrderTotalIsCartTotal(items[..n], products);
      assert lines[..n] == OrderLines(items[..n], products).value;
    }
  }

  /** `checkoutCart`. A missing address is refused before any cart is
      touched. A vanished product gives 404 and a document the order schema
      rejects gives 500 (the thrown error is caught); either way no order is
      stored and the cart stays active. On success the order carries the
      cart's lines and total, the given address and the initial status, and
      the cart is completed. Stock is not decremented, and an empty cart is
      not refused. */
  method CheckoutCart(db: Store, userId: UserId, address: Option<string>) returns (res: Reply<Order>)
    modifies db`carts, db`orders, db`clock
    ensures AddressMissing(address) ==>
              && res == Fail(400, AddressRequired)
              && db.carts == old(db.carts) && db.orders == old(db.orders) && db.clock == old(db.clock)
    ensures !AddressMissing(address) ==>
              var (carts, k) := WithActiveCart(old(db.carts), userId);
              match OrderLines(carts[k].items, db.products)
              case Failure(_) =>
                res == Fail(404, ProductNotFound) && db.carts == carts
                && db.orders == old(db.orders) && db.clock == old(db.clock)
              case Success(lines) =>
                match NewOrder(|old(db.orders)|, lines, carts[k].totalAmount, address.value, userId, None, old(db.clock))
                case None =>
                  res == Fail(500, CheckoutError) && db.carts == carts
                  && db.orders == old(db.orders) && db.clock == old(db.clock)
                case Some(order) =>
                  && res == Ok(201, order)
                  && db.orders == old(db.orders) + [order] && db.clock == old(db.clock) + 1
                  && db.carts == carts[k := carts[k].(status := Completed)]
    ensures CartsInvariant(old(db.carts)) ==> CartsInvariant(db.carts)
    ensures CartsInvariant(old(db.carts)) && OrderService.OrdersInvariant(old(db.orders), old(db.clock)) ==>
              OrderService.OrdersInvariant(db.orders, db.clock)
  {
    if AddressMissing(address) {
      return Fail(400, AddressRequired);
    }
    var k, cart := GetActiveCartForUser(db, userId);
    var orderItems := SnapshotOrderItems(cart.items, db.products);
    if orderItems.Failure? {
      return Fail(404, ProductNotFound);
    }
    var created := NewOrder(|db.orders|, orderItems.value, cart.totalAmount, address.value, userId, None, db.clock);
    if created.None? {
      return Fail(500, CheckoutError);
    }
    var order := created.value;
    if CartsInvariant(old(db.carts)) {
      OrderTotalIsCartTotal(cart.items, db.products);
      assert OrderService.StoredOrderOk(order);
    }
    db.orders := db.orders + [order];
    db.clock := db.clock + 1;
    cart := cart.(status := Completed);
    db.carts := db.carts[k := cart];
    res := Ok(201, order);
  }
}
