# Shopping cart and orders backend, modelled in Dafny

This project models the core of an e-commerce backend. Shoppers keep one
active cart. They add, update, delete and clear its lines against a product
catalogue with prices and stock. Checkout turns the cart into an order whose
lines copy each product's title and image, and whose prices are those
recorded in the cart. Afterwards the cart is marked completed, and the next
cart request creates a new, empty one. Orders can be listed newest first,
looked up, re-labelled and summed up into per-user statistics. Users
register and log in with a hashed password and a signed token. The
"my orders" page turns an order status into a badge colour and a label.

Layout:

- `common.dfy`: identifiers, `Option`, `Result` and the service reply
  `Reply` (an HTTP status code with either a value or a message).
- `cart_model.dfy`, `order_model.dfy`: the two Mongoose schemas. These hold
  the records, the status enumerations, the defaults, and the
  `required`/`min` constraints checked when an order is created.
- `database.dfy`: the `Store` class. Its fields are the collections the
  services read and write: carts, the read-only product catalogue, orders,
  users, and the clock Mongoose reads for timestamps.
- `cart_service.dfy`, `order_service.dfy`, `user_service.dfy`: the services.
  Each operation that writes the store is a method with a frame on the
  fields it writes. Its contract ties the new store and the reply to a pure
  function of the old store, and the properties are proved about those
  functions.
- `my_orders_page.dfy`: `getStatusColor` and `getStatusText`.

Store invariants:

- `CartService.CartsInvariant` holds three facts:
  - a user has at most one active cart;
  - every cart's `totalAmount` is the sum of `quantity * unitPrice` over its lines;
  - no product appears on two lines.
- `OrderService.OrdersInvariant` holds four facts:
  - an order's id is its position;
  - every order passes the schema's field constraints and its total is the sum of its lines;
  - every line's unit price is either absent (checkout) or the line's product price (`createOrder`);
  - timestamps never run ahead of the clock.

Each operation a route calls (getting the cart, adding, updating, deleting,
clearing, checkout, creating an order, updating its status)
ensures that it preserves these invariants, and none requires them. The
two cart helpers preserve them under a condition their callers meet:
`CartService.CreateCartForUser` when the user has no active cart yet, and
`CartService.SaveAndReload` when the cart written back is valid.

Cart quantities have no lower bound. `addItemToCart` and
`updateItemInCart` compare the quantity with the stock only
(cartService.ts:69 and :112). So `CartService.AddItem` and
`CartService.UpdateItem` accept 0 and negative quantities. The order
schema's `min: 1` on a line's quantity (orderModel.ts:34-38) then rejects
such a line at checkout, and the caller gets the 500 reply
`Erreur lors du checkout` (see `CartService.CheckoutCart`).

## Model

| member | source | states |
|---|---|---|
| CartModel.StatusName | backend/src/models/cartModel.ts:6 | every cart status is written as one of the three names of the status enumeration |
| CartModel.ParseStatus | backend/src/models/cartModel.ts:6 | a stored status name is accepted exactly when it is in the enumeration, and it reads back as the name it was written from |
| CartModel.StatusNameRoundTrip | backend/src/models/cartModel.ts:54-58 | writing a status and reading it back gives the same status |
| CartModel.NewCartItem | backend/src/models/cartModel.ts:26-40 | a new cart line keeps its product and unit price; a missing quantity defaults to 1 |
| CartModel.NewCart | backend/src/models/cartModel.ts:43-59 | a new cart belongs to its user, has no lines and is active; a missing total defaults to 0 |
| OrderModel.NewOrder | backend/src/models/orderModel.ts:21-69 | creation succeeds exactly when each line has a non-empty title and image and a quantity of at least 1, the total is at least 0, the address is non-empty and any given status is in the enumeration; a created order satisfies the schema, keeps the given fields, gets the status "En Cours" when none is given, and has both timestamps set to the current time |
| CartService.CalculateCartTotalItem | backend/src/services/cartService.ts:186-192 | the total of no lines is 0; with non-negative quantities and prices the total is non-negative |
| CartService.TotalOfConcat | backend/src/services/cartService.ts:186-192 | the total of two line lists joined is the sum of their totals |
| CartService.TotalOfOne | backend/src/services/cartService.ts:187-190 | the total of a single line is its quantity times its unit price |
| CartService.FindLine | backend/src/services/cartService.ts:57 | finds the first line for the product, or reports that no line has it |
| CartService.OtherLines | backend/src/services/cartService.ts:118 | the kept lines are never longer than the original lines and none of them is for the product |
| CartService.OtherLinesCounts | backend/src/services/cartService.ts:118 | the filter keeps every line for another product exactly as often as the cart has it, and drops every line for the product |
| CartService.OtherLinesRemovesLine | backend/src/services/cartService.ts:144-155 | in a cart with one line per product, dropping a product's lines removes exactly the line at its position and keeps the rest in order |
| CartService.OtherLinesKeepsAll | backend/src/services/cartService.ts:144-155 | dropping a product that no line has keeps every line |
| CartService.AddItem | backend/src/services/cartService.ts:57-83 | the errors come in this order: a product already in the cart gives 400 before any product lookup, then an unknown product gives 404, then a quantity above the stock gives 400 (a quantity equal to the stock is accepted); success is exactly the case where none of these holds, and then one line with the catalogue price is appended and the total grows by price times quantity; a valid cart stays valid |
| CartService.AppendKeepsValid | backend/src/services/cartService.ts:73-79 | appending a line for a product the cart lacks, with the total grown by that line's amount, keeps the total equal to the sum of the lines and the products distinct |
| CartService.UpdateItem | backend/src/services/cartService.ts:100-125 | a product not in the cart gives 404 "Item not found" first (the product is fetched but not yet looked at), then an unknown product gives 404, then a quantity above the stock gives 400; on success only that line's quantity changes and the total is the sum of the other lines plus the new quantity times the line's own unit price; a valid cart stays valid |
| CartService.OtherLinesIgnoresQuantity | backend/src/services/cartService.ts:116-121 | changing a line's quantity does not change which other lines the total is summed over |
| CartService.UpdatedTotal | backend/src/services/cartService.ts:116-125 | in a cart with one line per product, the recomputed total equals the total of the lines after the update |
| CartService.ReplacedLineTotal | backend/src/services/cartService.ts:116-123 | the total with one line replaced is the total of the other lines plus the new line's amount |
| CartService.UpdateKeepsValid | backend/src/services/cartService.ts:116-123 | changing one line's quantity and recomputing the total as the service does keeps the total equal to the sum of the lines and the products distinct |
| CartService.DeleteItem | backend/src/services/cartService.ts:144-158 | a product not in the cart gives 404; otherwise its lines go and the total is recomputed from the remaining lines; in a valid cart exactly the one line goes and the cart stays valid |
| CartService.RemovalKeepsValid | backend/src/services/cartService.ts:151-156 | in a cart with one line per product, filtering out one line's product leaves exactly the other lines, still one per product |
| CartService.RemovalKeepsDistinct | backend/src/services/cartService.ts:151-156 | removing one line keeps the other lines' products distinct |
| CartService.ClearItems | backend/src/services/cartService.ts:173-175 | a cleared cart has no lines, a total of 0, the same owner and status, and is valid |
| CartService.ClearItemsIdempotent | backend/src/services/cartService.ts:168-183 | clearing a cleared cart changes nothing |
| CartService.IsActiveCartOf | backend/src/services/cartService.ts:31-35 | the query `{ userId, status: "active" }` matches a cart exactly when it belongs to the user and its stored status name is "active" |
| CartService.FindActive | backend/src/services/cartService.ts:31-35 | finds the first active cart of the user in store order, or reports that the user has none |
| CartService.WithActiveCart | backend/src/services/cartService.ts:22-44 | the cart handed back is active and the user's; if one existed the carts are unchanged and it is that one; otherwise exactly one cart is appended, with no lines and a total of 0, and nothing else changes; the cart is then the one later lookups find; the store invariant is kept |
| CartService.FindActiveAfterSave | backend/src/services/cartService.ts:73-83 | saving the active cart with the same owner and status keeps it the one lookups find |
| CartService.InvariantAfterSave | backend/src/services/cartService.ts:73-83 | saving a valid cart with the same owner and status keeps the store invariant |
| CartService.NoActiveCartAfterCheckout | backend/src/services/cartService.ts:242 | once the active cart is completed the user has no active cart, and the next cart request appends a new empty cart with a total of 0 |
| CartService.CreateCartForUser | backend/src/services/cartService.ts:11-17 | appends exactly one new empty active cart with a total of 0 and returns it; when the user had no active cart, the invariant is kept |
| CartService.GetActiveCartForUser | backend/src/services/cartService.ts:22-44 | the store and the cart returned are those of `WithActiveCart`, and the invariant is kept |
| CartService.SaveAndReload | backend/src/services/cartService.ts:83-85 | writes the cart back at its position and the reload returns what was written; when the cart written is valid, the invariant is kept |
| CartService.AddItemToCart | backend/src/services/cartService.ts:51-89 | the reply is `AddItem` on the user's active cart; the cart is written back only on success; the invariant is kept |
| CartService.UpdateItemInCart | backend/src/services/cartService.ts:95-134 | the reply is `UpdateItem` on the user's active cart; the cart is written back only on success; the invariant is kept |
| CartService.DeleteItemInCart | backend/src/services/cartService.ts:139-164 | the reply is `DeleteItem` on the user's active cart; the cart is written back only on success; the invariant is kept |
| CartService.ClearCart | backend/src/services/cartService.ts:168-183 | always replies 200 with the cleared active cart, which is written back; the invariant is kept |
| CartService.Snapshot | backend/src/services/cartService.ts:216-221 | an order line takes the product's current title and image, but the cart's recorded price and quantity, and no unit price |
| CartService.OrderLines | backend/src/services/cartService.ts:208-226 | succeeds exactly when every line's product is in the catalogue, and then gives one snapshot per cart line in cart order; otherwise it fails with "Product not found" |
| CartService.SnapshotOrderItems | backend/src/services/cartService.ts:206-226 | the loop builds exactly the lines `OrderLines` describes, or stops at the first missing product |
| CartService.OrderTotalIsCartTotal | backend/src/services/cartService.ts:216-230 | the order lines of a cart sum to the same amount as the cart's lines |
| CartService.AddressMissing | backend/src/services/cartService.ts:200 | `!address` holds exactly when the address is absent or the empty string |
| CartService.CheckoutCart | backend/src/services/cartService.ts:197-249 | a missing or empty address gives 400 and changes nothing; a missing product gives 404; an order the schema rejects gives 500 "Erreur lors du checkout" and no order; otherwise exactly one order is appended with the cart's total, the address, the user and the status "En Cours", the cart becomes completed and the reply is 201; both store invariants are kept |
| OrderService.InputTotal | backend/src/services/orderService.ts:40-42 | the total of input lines with non-negative prices and quantities is non-negative |
| OrderService.LinesTotal | backend/src/services/orderService.ts:40-51 | the same total over the stored lines: non-negative when prices and quantities are |
| OrderService.CopyLines | backend/src/services/orderService.ts:45-51 | same lines in the same order, with title, image, price and quantity copied and the unit price set to the product price |
| OrderService.InputTotalIsLinesTotal | backend/src/services/orderService.ts:40-51 | the total computed from the input lines is the total of the stored lines |
| OrderService.OrderFromData | backend/src/services/orderService.ts:37-63 | the order is built exactly when its lines, total and address pass the schema; it then has status "En Cours", a total equal to the sum of its lines, the copied lines, the address, user, id and timestamps, and it satisfies the schema |
| OrderService.CreateOrder | backend/src/services/orderService.ts:37-72 | on success exactly one order is appended and returned; on a rejected order the error "Impossible de créer la commande" is returned and nothing changes; the invariant is kept |
| OrderService.OrdersOf | backend/src/services/orderService.ts:79-80 | holds exactly the stored orders of the user |
| OrderService.OrdersOfCounts | backend/src/services/orderService.ts:80 | `find({ userId })` yields each of the user's orders exactly as often as it is stored, and no other order |
| OrderService.InsertByDate | backend/src/services/orderService.ts:79-82 | inserting keeps every order, adds exactly the new one and keeps the list newest first |
| OrderService.InsertedAfterHead | backend/src/services/orderService.ts:79-82 | an order inserted after the newest one goes before nothing newer than that one |
| OrderService.PrependNewest | backend/src/services/orderService.ts:79-82 | an order no older than every order of a newest-first list may go in front of it and the list stays newest first |
| OrderService.SortNewestFirst | backend/src/services/orderService.ts:79-82 | the sorted list is a permutation of its input, newest first |
| OrderService.GetUserOrders | backend/src/services/orderService.ts:77-91 | every listed order is the user's; each of the user's orders is listed exactly as often as it is stored, and no other; the list is sorted by creation date with the newest first |
| OrderService.FindOrderIndex | backend/src/services/orderService.ts:98 | finds the first order with the id, or reports that no order has it |
| OrderService.FindOrderIndexInStore | backend/src/services/orderService.ts:96-104 | in a store that keeps the invariant, an id is found exactly when it is below the number of orders, and at that position |
| OrderService.GetOrderById | backend/src/services/orderService.ts:96-104 | yields an order exactly when some stored order has the id, and that order is a stored one with the id |
| OrderService.UpdateOrderStatus | backend/src/services/orderService.ts:109-129 | an unknown id yields nothing and changes nothing; otherwise only that order's status and update time change, to the given status (not checked against the enumeration) and the current time, and the updated order is returned; the invariant is kept |
| OrderService.CountStatus | backend/src/services/orderService.ts:143-144 | a status count never exceeds the number of orders |
| OrderService.SumsOfPrepend | backend/src/services/orderService.ts:136-146 | the spent total, the line count and each status count of an order list with one more order grow by that order's share |
| OrderService.SumsOfInsert | backend/src/services/orderService.ts:136-146 | the same sums over a list with one order inserted by date grow by that order's share |
| OrderService.SumsOfSort | backend/src/services/orderService.ts:136-146 | the order of the list does not change the spent total, the line count or any status count |
| OrderService.StatsIgnoreSort | backend/src/services/orderService.ts:136-146 | the number of orders, amount spent, line count and both status counts of the sorted user orders equal those of the user's orders in store order |
| OrderService.BreakdownBounded | backend/src/services/orderService.ts:142-145 | the counts of two different statuses together never exceed the number of orders |
| OrderService.BreakdownComplete | backend/src/services/orderService.ts:142-145 | when every status is in the enumeration, the counts of "En Cours" and "Livrée" add up to the number of orders |
| OrderService.SumTotals | backend/src/services/orderService.ts:140 | no orders sum to 0; orders with non-negative totals sum to a non-negative amount |
| OrderService.SumLineCounts | backend/src/services/orderService.ts:141 | the line count is 0 exactly when no order has a line |
| OrderService.GetUserOrderStats | backend/src/services/orderService.ts:134-153 | number of orders, amount spent, number of lines and the two status counts are those of the user's stored orders; the two counts never exceed the number of orders and add up to it when every status is in the enumeration; the amount spent is non-negative when every total is |
| UserService.RegisterUser | backend/src/services/userService.ts:12-30 | a registered e-mail gives 400 "User already exists" and changes nothing; otherwise exactly one user is stored, with the hashed password, and the reply is 200 with a token signed over the names and e-mail at the time of the request |
| UserService.LogInUser | backend/src/services/userService.ts:35-51 | succeeds exactly when the e-mail is registered and the password checks against the stored hash, and then gives a token signed over the stored names and the e-mail at the time of the request; an unknown e-mail and a wrong password get the same 400 reply |
| UserService.RegisterThenLogIn | backend/src/services/userService.ts:12-51 | logging in with the registered password at any later time succeeds and signs the same names and e-mail that registration signed; the tokens differ only by their issue time |
| UserService.DisplayedUnitPrice | backend/src/services/userService.ts:69 | the stored unit price is shown unless it is absent or 0, in which case the product price is shown |
| UserService.FormatItem | backend/src/services/userService.ts:64-70 | a formatted line keeps title, image, price and quantity and shows the displayed unit price |
| UserService.FormatOrder | backend/src/services/userService.ts:61-76 | a formatted order keeps every field of the order and formats each line in order |
| UserService.GetMyOrders | backend/src/services/userService.ts:55-84 | replies 200 with the user's orders, as many and in the same order as `getUserOrders` lists them, each formatted and each the user's |
| UserService.DisplayedPricesAreProductPrices | backend/src/services/userService.ts:64-70 | in a store that keeps the invariant, every unit price shown equals the line's product price |
| MyOrdersPage.Lower | frontend/src/pages/MyOrdersPage.tsx:75 | a capital letter becomes its small letter 32 code points higher; nothing else changes and the result is never a capital |
| MyOrdersPage.ToLowerCase | frontend/src/pages/MyOrdersPage.tsx:75 | lowering keeps the length, lowers each character and leaves no capital |
| MyOrdersPage.ToLowerCaseIdempotent | frontend/src/pages/MyOrdersPage.tsx:75 | lowering twice is lowering once |
| MyOrdersPage.GetStatusColor | frontend/src/pages/MyOrdersPage.tsx:74-94 | a missing status is shown in the warning colour |
| MyOrdersPage.GetStatusText | frontend/src/pages/MyOrdersPage.tsx:96-114 | the label is always one of "Accompli", "En cours", "Annulé" or "En traitement"; a missing status reads "En cours" |
| MyOrdersPage.CaseInsensitive | frontend/src/pages/MyOrdersPage.tsx:75-97 | a status and its lower-case form get the same colour and the same label |
| MyOrdersPage.UnknownStatusDefaults | frontend/src/pages/MyOrdersPage.tsx:91-92 | a status no case names is shown in the warning colour with the label "En cours" |
| MyOrdersPage.CompletedLabels | frontend/src/pages/MyOrdersPage.tsx:76-100 | "accompli" and "completed", in any case, are shown in the success colour with the label "Accompli" |
| MyOrdersPage.PendingLabels | frontend/src/pages/MyOrdersPage.tsx:81-104 | "en_cours", "pending" and "en cours" are shown in the warning colour with the label "En cours" |
| MyOrdersPage.CancelledLabels | frontend/src/pages/MyOrdersPage.tsx:85-107 | "cancelled" and "annulé" are shown in the error colour with the label "Annulé" |
| MyOrdersPage.ProcessingLabels | frontend/src/pages/MyOrdersPage.tsx:88-110 | "processing" and "en traitement" are shown in the info colour with the label "En traitement" |
| MyOrdersPage.InitialStatusLabels | frontend/src/pages/MyOrdersPage.tsx:83-104 | the status every order starts with, "En Cours", is shown in the warning colour with the label "En cours" |
| MyOrdersPage.DeliveredLabelsDisagree | frontend/src/pages/MyOrdersPage.tsx:78-113 | as written, "Livrée" is shown in the success colour with the label "En cours" |
| MyOrdersPage.GetStatusTextCorrected | frontend/src/pages/MyOrdersPage.tsx:96-114 | the corrected label is always one of the four labels |
| MyOrdersPage.ColourMatchesCorrectedText | frontend/src/pages/MyOrdersPage.tsx:74-114 | with the corrected label, each colour goes with exactly one label, in both directions |
| MyOrdersPage.CorrectionOnlyTouchesDelivered | frontend/src/pages/MyOrdersPage.tsx:96-114 | the corrected label differs from the written one exactly for "livré" and "livrée" |
| MyOrdersPage.CorrectedDeliveredLabels | frontend/src/pages/MyOrdersPage.tsx:78-80 | with the correction, "Livrée" is shown in the success colour with the label "Accompli" |

## Left out

- `populateProduct` in `getActiveCartForUser` only fills in product details for display. The reply carries the cart's own lines.
- Storage faults are left out. The services catch thrown errors and reply 500, but an in-memory store does not throw. The one modelled throw is the order schema's rejection at checkout (500) and in `createOrder`.
- Concurrency is left out: requests run one at a time. The read-then-write races on the cart and on stock, and the absence of stock reservation, cannot arise in the model.
- Money and quantities are integers, not JavaScript floating-point numbers.
- Identifiers are natural numbers. An id that fails to cast to an ObjectId, and the string comparison of product ids, are not modelled.
- `bcrypt.hash`, `bcrypt.compareSync` and `jwt.sign` are given functions. A token is a function of its claims and its issue time, which the caller passes in; the secret and the one-hour expiry `jwt.sign` adds (userService.ts:85-88) sit inside that function. The random salt of `bcrypt.hash` is not modelled.
- UserService.RegisterThenLogIn: states that login signs the same claims as registration, not that the two tokens are equal, because `jwt.sign` stamps each token with the time it is issued.
- The `if (!order)` branch of `checkoutCart`, replying 500 "Failed to create order" (cartService.ts:234-237), is not modelled: `OrderModel.create` either throws, which the model covers as the schema's rejection, or returns a document, so the branch cannot be taken.
- The product catalogue of a `Store` is a constant field, so within one store no call sequence changes a price or removes a product. The price snapshot in the cart (cartModel.ts:13) and checkout's 404 for a product that has vanished (cartService.ts:211-213) then show only in the contracts of `CartService.OrderLines` and `CartService.CheckoutCart`, which hold for every store, not in a sequence of calls on one store.
- UserService.RegisterUser: the user schema's own constraints are not part of this model, so registration always stores the user when the e-mail is free.
- MyOrdersPage.ToLowerCase: lowers ASCII and Latin-1 capitals only, not the rest of Unicode.
- OrderService.SortNewestFirst: ties on the creation date keep store order, whereas MongoDB leaves the order of ties unspecified.
- The Express routes are HTTP adapters and are left out. This includes the PUT and DELETE cart routes replying 200 whatever the service returned, and the status whitelist of the order-status route.
- Product seeding and listing are catalogue I/O. The catalogue is a read-only map.
- The date formatting and the float totals of the orders page are display code and are left out.

## Findings

| source | as written | input that shows it | evidently intended | confidence | as-written member | corrected member |
|---|---|---|---|---|---|---|
| frontend/src/pages/MyOrdersPage.tsx:96-114 | `getStatusText` has no case for "livré"/"livrée", so a delivered order falls to the default label | status "Livrée" (the order schema's delivered status): colour `success`, label "En cours" | delivered orders are labelled "Accompli", matching their success colour as in `getStatusColor` (lines 76-80) | medium, not executed | MyOrdersPage.DeliveredLabelsDisagree | MyOrdersPage.ColourMatchesCorrectedText |
