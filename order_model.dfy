/** The order schema (backend/src/models/orderModel.ts): order lines, orders,
    the status enumeration, the `required`/`min` constraints Mongoose checks
    when a document is created, and the defaults and timestamps it fills in. */
module OrderModel {
  import opened Common

  /** A denormalised copy of what was bought; `unitPrice` is optional. */
  datatype OrderItem = OrderItem(
    productTitle: string,
    productImage: string,
    productPrice: int,
    quantity: int,
    unitPrice: Option<int>)

  datatype Order = Order(
    id: OrderId,
    orderItems: seq<OrderItem>,
    total: int,
    address: string,
    userId: UserId,
    status: string,
    createdAt: Time,
    updatedAt: Time)

  const OrderStatusEnum: seq<string> := ["En Cours", "Livrée"]

  const DefaultOrderStatus: string := "En Cours"

  /** `required` on a string path rejects the empty string; `min: 1` bounds the quantity. */
  predicate ItemSatisfiesSchema(item: OrderItem) {
    item.productTitle != "" && item.productImage != "" && item.quantity >= 1
  }

  /** Every constraint of the schema except the status enumeration, which
      updates through `findByIdAndUpdate` do not re-check. */
  predicate FieldsSatisfySchema(order: Order) {
    && (forall i :: 0 <= i < |order.orderItems| ==> ItemSatisfiesSchema(order.orderItems[i]))
    && order.total >= 0
    && order.address != ""
  }

  predicate SatisfiesSchema(order: Order) {
    FieldsSatisfySchema(order) && order.status in OrderStatusEnum
  }

  /** `OrderModel.create` / `new OrderModel(..).save()`: applies the status
      default, stamps both timestamps with the current time and validates.
      It yields nothing (the save throws) exactly when a constraint fails. */
  function NewOrder(
    id: OrderId, items: seq<OrderItem>, total: int, address: string,
    userId: UserId, status: Option<string>, now: Time): (r: Option<Order>)
    ensures r.Some? <==>
              && (forall i :: 0 <= i < |items| ==> ItemSatisfiesSchema(items[i]))
              && total >= 0 && address != ""
              && (status.None? || status.value in OrderStatusEnum)
    ensures r.Some? ==> SatisfiesSchema(r.value)
    ensures r.Some? ==>
              && r.value.id == id && r.value.orderItems == items && r.value.total == total
              && r.value.address == address && r.value.userId == userId
              && r.value.status == (if status.Some? then status.value else DefaultOrderStatus)
              && r.value.createdAt == now && r.value.updatedAt == now
  {
    var order := Order(id, items, total, address, userId,
                       if status.Some? then status.value else DefaultOrderStatus, now, now);
    if SatisfiesSchema(order) then Some(order) else None
  }
}
