/** The order service (backend/src/services/orderService.ts): creating an
    order from request lines, listing a user's orders newest first, looking
    an order up, changing its status and summing a user's orders. */
module OrderService {
  import opened Common
  import opened OrderModel
  import opened Database

  const CreateOrderError := "Impossible de créer la commande"

  /** One line of `CreateOrderData.orderItems`. */
  datatype OrderLineInput = OrderLineInput(
    productId: ProductId, productTitle: string, productImage: string,
    productPrice: int, quantity: int)

  datatype CreateOrderData = CreateOrderData(
    orderItems: seq<OrderLineInput>, address: string, userId: UserId)

  datatype StatusBreakdown = StatusBreakdown(enCours: nat, livree: nat)

  datatype OrderStats = OrderStats(
    totalOrders: nat, totalSpent: int, totalItems: nat, statusBreakdown: StatusBreakdown)

  // ---------------------------------------------------------------------------
  // Totals

  /** Σ productPrice × quantity over an order's lines: what an order's
      `total` is meant to be. */
  function LinesTotal(items: seq<OrderItem>): (total: int)
    ensures (forall i :: 0 <= i < |items| ==> items[i].productPrice >= 0 && items[i].quantity >= 0) ==> total >= 0
  {
    if items == [] then 0
    else LinesTotal(items[..|items| - 1]) + items[|items| - 1].productPrice * items[|items| - 1].quantity
  }

  /** The `reduce` of `createOrder` over its input lines. */
  function InputTotal(items: seq<OrderLineInput>): (total: int)
    ensures (forall i :: 0 <= i < |items| ==> items[i].productPrice >= 0 && items[i].quantity >= 0) ==> total >= 0
  {
    if items == [] then 0
    else InputTotal(items[..|items| - 1]) + items[|items| - 1].productPrice * items[|items| - 1].quantity
  }

  /** The `map` of `createOrder`: same lines in the same order, title, image,
      price and quantity copied, and `unitPrice` set to the product price. */
  function CopyLines(items: seq<OrderLineInput>): (lines: seq<OrderItem>)
    ensures |lines| == |items|
    ensures forall i :: 0 <= i < |items| ==>
              lines[i] == OrderItem(items[i].productTitle, items[i].productImage, items[i].productPrice,
                                    items[i].quantity, Some(items[i].productPrice))
  {
    seq(|items|, i requires 0 <= i < |items| =>
      OrderItem(items[i].productTitle, items[i].productImage, items[i].productPrice,
                items[i].quantity, Some(items[i].productPrice)))
  }

  lemma {:induction false} InputTotalIsLinesTotal(items: seq<OrderLineInput>)
    ensures InputTotal(items) == LinesTotal(CopyLines(items))
  {
    if items != [] {
      var n := |items| - 1;
      InputTotalIsLinesTotal(items[..n]);
      assert CopyLines(items)[..n] == CopyLines(items[..n]);
    }
  }

  // ---------------------------------------------------------------------------
  // Store invariant

  /** A stored order line whose `unitPrice` is absent or the product price
      (the two ways this backend writes one). */
  predicate UnitPriceConsistent(item: OrderItem) {
    item.unitPrice.None? || item.unitPrice.value == item.productPrice
  }

  predicate StoredOrderOk(order: Order) {
    && FieldsSatisfySchema(order)
    && order.total == LinesTotal(order.orderItems)
    && (forall i :: 0 <= i < |order.orderItems| ==> UnitPriceConsistent(order.orderItems[i]))
  }

  /** What every reachable order collection satisfies: ids are positions,
      every order meets the schema (its status aside), its total is the sum
      of its lines, and its timestamps come from the past of the clock. */
  predicate OrdersInvariant(orders: seq<Order>, clock: Time) {
    forall i :: 0 <= i < |orders| ==>
      && orders[i].id == i
      && StoredOrderOk(orders[i])
      && orders[i].createdAt <= orders[i].updatedAt < clock
  }

  // ---------------------------------------------------------------------------
  // createOrder

  /** The document `createOrder` builds from its input, with status
      `En Cours`, or nothing when the schema rejects it (the save throws). */
  function OrderFromData(data: CreateOrderData, id: OrderId, now: Time): (r: Option<Order>)
    ensures r.Some? <==>
              && (forall i :: 0 <= i < |data.orderItems| ==> ItemSatisfiesSchema(CopyLines(data.orderItems)[i]))
              && InputTotal(data.orderItems) >= 0 && data.address != ""
    ensures r.Some? ==>
              && r.value.total == LinesTotal(r.value.orderItems)
              && r.value.orderItems == CopyLines(data.orderItems)
              && r.value.status == "En Cours"
              && r.value.address == data.address && r.value.userId == data.userId
              && r.value.id == id && r.value.createdAt == now && r.value.updatedAt == now
    ensures r.Some? ==> StoredOrderOk(r.value) && SatisfiesSchema(r.value)
  {
    InputTotalIsLinesTotal(data.orderItems);
    NewOrder(id, CopyLines(data.orderItems), InputTotal(data.orderItems), data.address,
             data.userId, Some(DefaultOrderStatus), now)
  }

  /** `OrderService.createOrder`: builds the document and saves it, or
      rethrows with its own message when the save fails. */
  method CreateOrder(db: Store, data: CreateOrderData) returns (r: Result<Order>)
    modifies db`orders, db`clock
    ensures var made := OrderFromData(data, |old(db.orders)|, old(db.clock));
            if made.Some? then
              r == Success(made.value) && db.orders == old(db.orders) + [made.value] && db.clock == old(db.clock) + 1
            else
              r == Failure(CreateOrderError) && db.orders == old(db.orders) && db.clock == old(db.clock)
    ensures OrdersInvariant(old(db.orders), old(db.clock)) ==> OrdersInvariant(db.orders, db.clock)
  {
    var newOrder := OrderFromData(data, |db.orders|, db.clock);
    if newOrder.None? {
      return Failure(CreateOrderError);
    }
    db.orders := db.orders + [newOrder.value];
    db.clock := db.clock + 1;
    r := Success(newOrder.value);
  }

  // ---------------------------------------------------------------------------
  // getUserOrders: find({userId}).sort({createdAt: -1})

  /** The orders of one user, in store order. */
  function OrdersOf(orders: seq<Order>, userId: UserId): (r: seq<Order>)
    ensures |r| <= |orders|
    ensures forall o :: o in r <==> o in orders && o.userId == userId
  {
    if orders == [] then []
    else (if orders[0].userId == userId then [orders[0]] else []) + OrdersOf(orders[1..], userId)
  }

  /** The user's orders are kept as often as they are stored, and no other
      order is kept. */
  lemma {:induction false} OrdersOfCounts(orders: seq<Order>, userId: UserId)
    ensures forall o :: multiset(OrdersOf(orders, userId))[o] ==
                          if o.userId == userId then multiset(orders)[o] else 0
  {
    if orders != [] {
      OrdersOfCounts(orders[1..], userId);
      assert orders == [orders[0]] + orders[1..];
    }
  }

  predicate NewestFirst(os: seq<Order>) {
    forall i, j :: 0 <= i < j < |os| ==> os[i].createdAt >= os[j].createdAt
  }

  function InsertByDate(o: Order, os: seq<Order>): (r: seq<Order>)
    ensures multiset(r) == multiset(os) + multiset{o}
    ensures NewestFirst(os) ==> NewestFirst(r)
  {
    if os == [] then [o]
    else if o.createdAt >= os[0].createdAt then
      assert NewestFirst(os) ==> NewestFirst([o] + os) by {
        if NewestFirst(os) {
          forall k | 0 <= k < |os| ensures os[k].createdAt <= o.createdAt {
            assert os[k].createdAt <= os[0].createdAt;
          }
          PrependNewest(o, os);
        }
      }
      [o] + os
    else
      var rest := InsertByDate(o, os[1..]);
      assert os == [os[0]] + os[1..];
      assert NewestFirst(os) ==> NewestFirst([os[0]] + rest) by {
        if NewestFirst(os) {
          assert NewestFirst(os[1..]);
          InsertedAfterHead(o, os, rest);
          PrependNewest(os[0], rest);
        }
      }
      [os[0]] + rest
  }

  /** An order no older than everything in a sorted list may go in front. */
  lemma PrependNewest(h: Order, os: seq<Order>)
    requires NewestFirst(os)
    requires forall k :: 0 <= k < |os| ==> os[k].createdAt <= h.createdAt
    ensures NewestFirst([h] + os)
  {
    var r := [h] + os;
    forall i, j | 0 <= i < j < |r| ensures r[i].createdAt >= r[j].createdAt {
      assert r[j] == os[j - 1];
      if i > 0 {
        assert r[i] == os[i - 1];
      }
    }
  }

  /** Everything in `rest` is no newer than the head of the sorted `os`. */
  lemma InsertedAfterHead(o: Order, os: seq<Order>, rest: seq<Order>)
    requires os != [] && NewestFirst(os) && o.createdAt < os[0].createdAt
    requires multiset(rest) == multiset(os[1..]) + multiset{o}
    ensures forall k :: 0 <= k < |rest| ==> rest[k].createdAt <= os[0].createdAt
  {
    forall k | 0 <= k < |rest| ensures rest[k].createdAt <= os[0].createdAt {
      var x := rest[k];
      assert x in multiset(rest);
      if x != o {
        assert x in multiset(os[1..]);
        var m :| 0 <= m < |os[1..]| && os[1..][m] == x;
        assert os[m + 1] == x;
      }
    }
  }

  /** Sorting by `createdAt`, most recent first. */
  function SortNewestFirst(os: seq<Order>): (r: seq<Order>)
    ensures multiset(r) == multiset(os)
    ensures NewestFirst(r)
  {
    if os == [] then []
    else
      assert os == [os[0]] + os[1..];
      InsertByDate(os[0], SortNewestFirst(os[1..]))
  }

  /** `OrderService.getUserOrders`: exactly the user's orders, each once,
      newest first. */
  function GetUserOrders(orders: seq<Order>, userId: UserId): (r: seq<Order>)
    ensures multiset(r) == multiset(OrdersOf(orders, userId))
    ensures |r| == |OrdersOf(orders, userId)|
    ensures forall o :: o in r <==> o in orders && o.userId == userId
    ensures NewestFirst(r)
    ensures forall o :: multiset(r)[o] == if o.userId == userId then multiset(orders)[o] else 0
    ensures forall i :: 0 <= i < |r| ==> r[i].userId == userId
  {
    OrdersOfCounts(orders, userId);
    var r := SortNewestFirst(OrdersOf(orders, userId));
    assert |r| == |multiset(r)|;
    assert forall o :: o in r <==> o in multiset(r);
    assert forall i :: 0 <= i < |r| ==> r[i] in r;
    r
  }

  // ---------------------------------------------------------------------------
  // getOrderById and updateOrderStatus: lookups by `_id`

  /** Where the order with that id sits in the collection, if anywhere. */
  function FindOrderIndex(orders: seq<Order>, orderId: OrderId): (r: Option<nat>)
    ensures r.Some? ==> r.value < |orders| && orders[r.value].id == orderId
    ensures r.Some? ==> forall j :: 0 <= j < r.value ==> orders[j].id != orderId
    ensures r.None? ==> forall j :: 0 <= j < |orders| ==> orders[j].id != orderId
  {
    if orders == [] then None
    else if orders[0].id == orderId then Some(0)
    else match FindOrderIndex(orders[1..], orderId)
      case None => None
      case Some(i) => Some(i + 1)
  }

  /** In a reachable store an id is found exactly when it is a position, and
      then at that position. */
  lemma FindOrderIndexInStore(orders: seq<Order>, clock: Time, orderId: OrderId)
    requires OrdersInvariant(orders, clock)
    ensures FindOrderIndex(orders, orderId) == if orderId < |orders| then Some(orderId) else None
  {
    var r := FindOrderIndex(orders, orderId);
    if orderId < |orders| {
      assert orders[orderId].id == orderId;
    }
    if r.Some? {
      assert orders[r.value].id == r.value;
    }
  }

  /** `OrderService.getOrderById`: the stored order with that id, or null. */
  function GetOrderById(orders: seq<Order>, orderId: OrderId): (r: Option<Order>)
    ensures r.Some? <==> exists i :: 0 <= i < |orders| && orders[i].id == orderId
    ensures r.Some? ==> r.value in orders && r.value.id == orderId
  {
    match FindOrderIndex(orders, orderId)
    case None => None
    case Some(i) => Some(orders[i])
  }

  /** `OrderService.updateOrderStatus`: `findByIdAndUpdate` writes the given
      status (validators do not run, so any string is stored), refreshes
      `updatedAt` and returns the updated document; null when no order has
      that id. No other order, and no other field, changes. */
  method UpdateOrderStatus(db: Store, orderId: OrderId, status: string) returns (r: Option<Order>)
    modifies db`orders, db`clock
    ensures match FindOrderIndex(old(db.orders), orderId)
            case None =>
              r.None? && db.orders == old(db.orders) && db.clock == old(db.clock)
            case Some(i) =>
              && db.orders == old(db.orders)[i := old(db.orders)[i].(status := status, updatedAt := old(db.clock))]
              && r == Some(db.orders[i]) && db.clock == old(db.clock) + 1
    ensures OrdersInvariant(old(db.orders), old(db.clock)) ==> OrdersInvariant(db.orders, db.clock)
  {
    var found := FindOrderIndex(db.orders, orderId);
    if found.None? {
      return None;
    }
    var i := found.value;
    var updated := db.orders[i].(status := status, updatedAt := db.clock);
    db.orders := db.orders[i := updated];
    db.clock := db.clock + 1;
    r := Some(updated);
  }

  // ---------------------------------------------------------------------------
  // getUserOrderStats

  /** `orders.reduce((sum, order) => sum + order.total, 0)`. */
  function SumTotals(os: seq<Order>): (total: int)
    ensures os == [] ==> total == 0
    ensures (forall i :: 0 <= i < |os| ==> os[i].total >= 0) ==> total >= 0
  {
    if os == [] then 0 else SumTotals(os[..|os| - 1]) + os[|os| - 1].total
  }

  /** `orders.reduce((sum, order) => sum + order.orderItems.length, 0)`. */
  function SumLineCounts(os: seq<Order>): (n: nat)
    ensures n == 0 <==> forall i :: 0 <= i < |os| ==> |os[i].orderItems| == 0
  {
    if os == [] then 0 else SumLineCounts(os[..|os| - 1]) + |os[|os| - 1].orderItems|
  }

  /** `orders.filter(o => o.status === status).length`. */
  function CountStatus(os: seq<Order>, status: string): (n: nat)
    ensures n <= |os|
  {
    if os == [] then 0
    else CountStatus(os[..|os| - 1], status) + (if os[|os| - 1].status == status then 1 else 0)
  }

  lemma {:induction false} SumsOfPrepend(o: Order, os: seq<Order>, status: string)
    ensures SumTotals([o] + os) == o.total + SumTotals(os)
    ensures SumLineCounts([o] + os) == |o.orderItems| + SumLineCounts(os)
    ensures CountStatus([o] + os, status) == (if o.status == status then 1 else 0) + CountStatus(os, status)
  {
    if os != [] {
      var n := |os| - 1;
      assert ([o] + os)[..|os|] == [o] + os[..n];
      SumsOfPrepend(o, os[..n], status);
    }
  }

  lemma {:induction false} SumsOfInsert(o: Order, os: seq<Order>, status: string)
    ensures SumTotals(InsertByDate(o, os)) == o.total + SumTotals(os)
    ensures SumLineCounts(InsertByDate(o, os)) == |o.orderItems| + SumLineCounts(os)
    ensures CountStatus(InsertByDate(o, os), status) == (if o.status == status then 1 else 0) + CountStatus(os, status)
  {
    if os == [] {
      SumsOfPrepend(o, [], status);
    } else if o.createdAt >= os[0].createdAt {
      SumsOfPrepend(o, os, status);
    } else {
      SumsOfInsert(o, os[1..], status);
      SumsOfPrepend(os[0], InsertByDate(o, os[1..]), status);
      SumsOfPrepend(os[0], os[1..], status);
      assert [os[0]] + os[1..] == os;
    }
  }

  /** Sorting changes none of the figures the statistics are made of. */
  lemma {:induction false} SumsOfSort(os: seq<Order>, status: string)
    ensures SumTotals(SortNewestFirst(os)) == SumTotals(os)
    ensures SumLineCounts(SortNewestFirst(os)) == SumLineCounts(os)
    ensures CountStatus(SortNewestFirst(os), status) == CountStatus(os, status)
  {
    if os != [] {
      var head, tail := os[0], os[1..];
      var sorted := SortNewestFirst(tail);
      assert SortNewestFirst(os) == InsertByDate(head, sorted);
      SumsOfSort(tail, status);
      SumsOfInsert(head, sorted, status);
      assert [head] + tail == os;
      SumsOfPrepend(head, tail, status);
    }
  }

  /** Two different statuses never count the same order twice. */
  lemma {:induction false} BreakdownBounded(os: seq<Order>, s1: string, s2: string)
    requires s1 != s2
    ensures CountStatus(os, s1) + CountStatus(os, s2) <= |os|
  {
    if os != [] {
      BreakdownBounded(os[..|os| - 1], s1, s2);
    }
  }

  /** When every order's status is in the enumeration, the breakdown covers them all. */
  lemma {:induction false} BreakdownComplete(os: seq<Order>)
    ensures (forall i :: 0 <= i < |os| ==> os[i].status in OrderStatusEnum) ==>
              CountStatus(os, "En Cours") + CountStatus(os, "Livrée") == |os|
  {
    if os != [] {
      BreakdownComplete(os[..|os| - 1]);
    }
  }

  /** The figures of the sorted list are those of the user's orders in store order. */
  lemma StatsIgnoreSort(orders: seq<Order>, userId: UserId)
    ensures var os, mine := GetUserOrders(orders, userId), OrdersOf(orders, userId);
            && |os| == |mine| && SumTotals(os) == SumTotals(mine) && SumLineCounts(os) == SumLineCounts(mine)
            && CountStatus(os, "En Cours") == CountStatus(mine, "En Cours")
            && CountStatus(os, "Livrée") == CountStatus(mine, "Livrée")
  {
    var mine := OrdersOf(orders, userId);
    assert GetUserOrders(orders, userId) == SortNewestFirst(mine);
    SumsOfSort(mine, "En Cours");
    SumsOfSort(mine, "Livrée");
  }

  /** `OrderService.getUserOrderStats`. The figures are those of the user's
      orders in store order (the sort does not matter); the two status counts
      never exceed the number of orders, and they add up to it whenever no
      order carries a status outside the enumeration. */
  function GetUserOrderStats(orders: seq<Order>, userId: UserId): (r: OrderStats)
    ensures r.totalOrders == |OrdersOf(orders, userId)|
    ensures r.totalSpent == SumTotals(OrdersOf(orders, userId))
    ensures r.totalItems == SumLineCounts(OrdersOf(orders, userId))
    ensures r.statusBreakdown.enCours == CountStatus(OrdersOf(orders, userId), "En Cours")
    ensures r.statusBreakdown.livree == CountStatus(OrdersOf(orders, userId), "Livrée")
    ensures r.statusBreakdown.enCours + r.statusBreakdown.livree <= r.totalOrders
    ensures (forall o :: o in orders && o.userId == userId ==> o.status in OrderStatusEnum) ==>
              r.statusBreakdown.enCours + r.statusBreakdown.livree == r.totalOrders
    ensures (forall o :: o in orders && o.userId == userId ==> o.total >= 0) ==> r.totalSpent >= 0
  {
    var mine := OrdersOf(orders, userId);
    var os := GetUserOrders(orders, userId);
    StatsIgnoreSort(orders, userId);
    BreakdownBounded(mine, "En Cours", "Livrée");
    BreakdownComplete(mine);
    assert forall i :: 0 <= i < |mine| ==> mine[i] in mine;
    OrderStats(|os|, SumTotals(os), SumLineCounts(os),
               StatusBreakdown(CountStatus(os, "En Cours"), CountStatus(os, "Livrée")))
  }
}
