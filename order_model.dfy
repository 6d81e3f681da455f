/** The order and order-detail documents (models/orderModel.js, models/orderDetailModel.js) in
    the shape the order controllers write them, and the two collections they share. */
module OrderModel {
  import opened Common

  /** The `status` enumeration of an order; `Pending` is the default. */
  datatype OrderStatus = Pending | Confirmed | Canceled | Delivered | Completed

  /** An order: its owner, the ids of its details in order, its total and its status. */
  datatype Order = Order(user: Id, orderDetails: seq<Id>, totalPrice: real, status: OrderStatus)

  /** An order detail as the controllers write it: `order` is the order it was added to (the
      details built by `createOrder` carry none), `variant` is set by `createOrder` only, and an
      absent `discount_unit` is `None`. */
  datatype OrderDetail = OrderDetail(
    order: Option<Id>,
    product: Id,
    variant: Option<Id>,
    quantity: real,
    note: Option<string>,
    discountUnit: Option<real>,
    pricePerUnit: real,
    totalPrice: real)

  /** Every detail an order lists exists, and if it names an order, it names that one. */
  predicate Linked(orders: map<Id, Order>, details: map<Id, OrderDetail>) {
    forall o, d | o in orders && d in orders[o].orderDetails ::
      d in details && (details[d].order.Some? ==> details[d].order.value == o)
  }

  /** The order and order-detail collections; `nextId` is the next fresh document id. */
  class OrderStore {
    var orders: map<Id, Order>
    var details: map<Id, OrderDetail>
    var nextId: nat

    ghost predicate Valid()
      reads this
    {
      && (forall o | o in orders :: o < nextId)
      && (forall d | d in details :: d < nextId)
      && Linked(orders, details)
    }

    constructor ()
      ensures Valid() && orders == map[] && details == map[] && nextId == 0
    {
      orders := map[];
      details := map[];
      nextId := 0;
    }
  }
}
