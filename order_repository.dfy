/** Orders and `OrdersRepository`: the order collection, keyed in practice by the
    payment provider's checkout-session id. */
module OrderStore {
  import opened Common

  datatype OrderStatus = Pending | Completed

  /** One entry of an order as `createOrderObject` derives it from a provider line
      item: the price metadata written when the SKU was priced, and the quantity. */
  datatype ItemMetadata = ItemMetadata(productId: Id, skuCode: string, quantity: int)

  /** The order payload `createOrderObject` builds. Payment method, intent id,
      amount, dates, address and phone are copied from the provider and are not
      modelled. */
  datatype OrderData = OrderData(
    orderId: Id,
    userId: Option<Id>,
    customerEmail: string,
    paymentStatus: string,
    checkoutSessionId: Id,
    orderedItems: seq<ItemMetadata>)

  /** An ordered item as stored, with the licence keys recorded on it. */
  datatype OrderedItem = OrderedItem(productId: Id, skuCode: string, quantity: int, licenses: seq<string>)

  datatype Order = Order(
    orderId: Id,
    userId: Option<Id>,
    customerEmail: string,
    paymentStatus: string,
    checkoutSessionId: Id,
    orderedItems: seq<OrderedItem>,
    orderStatus: OrderStatus,
    isOrderDelivered: bool)

  function StoredItem(m: ItemMetadata): OrderedItem {
    OrderedItem(m.productId, m.skuCode, m.quantity, [])
  }

  function StoredItems(ms: seq<ItemMetadata>): (r: seq<OrderedItem>)
    ensures |r| == |ms|
    ensures forall k :: 0 <= k < |ms| ==> r[k] == StoredItem(ms[k])
  {
    seq(|ms|, k requires 0 <= k < |ms| => StoredItem(ms[k]))
  }

  /** The document `orderDb.create(orderData)` stores: the schema's defaults give a
      pending, undelivered order whose items hold no licence keys yet. */
  function NewOrder(d: OrderData): (o: Order)
    ensures o.checkoutSessionId == d.checkoutSessionId && o.orderId == d.orderId
    ensures o.orderStatus == Pending && !o.isOrderDelivered
    ensures |o.orderedItems| == |d.orderedItems|
    ensures forall k :: 0 <= k < |d.orderedItems| ==> o.orderedItems[k].licenses == []
  {
    Order(d.orderId, d.userId, d.customerEmail, d.paymentStatus, d.checkoutSessionId,
          StoredItems(d.orderedItems), Pending, false)
  }

  /** The update document `{ orderStatus: completed, isOrderDelivered: true, ...orderData }`
      applied to an order: every field of the payload is written again, so the
      items are the payload's, without licence keys. */
  function FulfilledOrder(d: OrderData): (o: Order)
    ensures o.checkoutSessionId == d.checkoutSessionId
    ensures o.orderStatus == Completed && o.isOrderDelivered
    ensures |o.orderedItems| == |d.orderedItems|
    ensures forall k :: 0 <= k < |o.orderedItems| ==> o.orderedItems[k].licenses == []
  {
    NewOrder(d).(orderStatus := Completed, isOrderDelivered := true)
  }

  function SessionIndex(os: seq<Order>, sid: Id): (r: Option<nat>)
    ensures r.Some? ==> r.value < |os| && os[r.value].checkoutSessionId == sid
    ensures r.Some? ==> forall k :: 0 <= k < r.value ==> os[k].checkoutSessionId != sid
    ensures r.None? <==> forall k :: 0 <= k < |os| ==> os[k].checkoutSessionId != sid
  {
    FirstIndex(os, (o: Order) => o.checkoutSessionId == sid)
  }

  /** How many stored orders carry the session id. */
  function SessionCount(os: seq<Order>, sid: Id): (n: nat)
    ensures n <= |os|
    ensures n == 0 <==> forall k :: 0 <= k < |os| ==> os[k].checkoutSessionId != sid
  {
    if |os| == 0 then 0
    else SessionCount(os[..|os| - 1], sid) + (if os[|os| - 1].checkoutSessionId == sid then 1 else 0)
  }

  predicate HasProduct(o: Order, productId: Id) {
    exists k :: 0 <= k < |o.orderedItems| && o.orderedItems[k].productId == productId
  }

  /** `findOne({ userId, 'orderedItems.productId': productId })` */
  function PurchaseIndex(os: seq<Order>, userId: Id, productId: Id): (r: Option<nat>)
    ensures r.Some? ==> r.value < |os| && os[r.value].userId == Some(userId) && HasProduct(os[r.value], productId)
    ensures r.None? <==> forall k :: 0 <= k < |os| ==> !(os[k].userId == Some(userId) && HasProduct(os[k], productId))
  {
    FirstIndex(os, (o: Order) => o.userId == Some(userId) && HasProduct(o, productId))
  }

  /** `findOneAndUpdate({ checkoutSessionId: sid }, update)`: the first order of that
      session takes the update; no order of that session means no change. */
  function UpdateBySession(os: seq<Order>, sid: Id, o: Order): (r: seq<Order>)
    ensures |r| == |os|
    ensures forall k :: 0 <= k < |os| && SessionIndex(os, sid) != Some(k) ==> r[k] == os[k]
    ensures SessionIndex(os, sid).Some? ==> r[SessionIndex(os, sid).value] == o
  {
    match SessionIndex(os, sid)
    case None => os
    case Some(i) => os[i := o]
  }

  class OrdersRepository {
    var orders: seq<Order>

    constructor(orders: seq<Order>)
      ensures this.orders == orders
    {
      this.orders := orders;
    }

    /** `findOne({ checkoutSessionId: sid })` */
    method FindBySession(sid: Id) returns (r: Option<Order>)
      ensures r.None? <==> forall k :: 0 <= k < |orders| ==> orders[k].checkoutSessionId != sid
      ensures r.Some? ==> r.value == orders[SessionIndex(orders, sid).value]
    {
      match SessionIndex(orders, sid)
      case None => r := None;
      case Some(i) => r := Some(orders[i]);
    }

    /** `findOne({ userId, 'orderedItems.productId': productId })` */
    method FindPurchase(userId: Id, productId: Id) returns (r: Option<Order>)
      ensures r.None? <==> forall k :: 0 <= k < |orders| ==> !(orders[k].userId == Some(userId) && HasProduct(orders[k], productId))
      ensures r.Some? ==> r.value.userId == Some(userId) && HasProduct(r.value, productId)
    {
      match PurchaseIndex(orders, userId, productId)
      case None => r := None;
      case Some(i) => r := Some(orders[i]);
    }

    /** `create(orderData)` */
    method Create(d: OrderData) returns (o: Order)
      modifies this
      ensures o == NewOrder(d) && orders == old(orders) + [o]
    {
      o := NewOrder(d);
      orders := orders + [o];
    }

    /** `findOneAndUpdate({ checkoutSessionId: sid }, update, { new: true })` */
    method FindOneAndUpdate(sid: Id, o: Order) returns (r: Option<Order>)
      modifies this
      ensures orders == UpdateBySession(old(orders), sid, o)
      ensures r.Some? <==> SessionIndex(old(orders), sid).Some?
      ensures r.Some? ==> r.value == o
    {
      var i := SessionIndex(orders, sid);
      orders := UpdateBySession(orders, sid, o);
      r := if i.Some? then Some(o) else None;
    }
  }
}
