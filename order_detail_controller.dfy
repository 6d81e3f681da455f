/** The order-detail handlers (controllers/orderDetailController.js): create, read, update and
    delete a detail, each allowed only to the owner of its order or to an admin, and the
    restriction of the listing to the caller's own orders. */
module OrderDetailController {
  import opened Common
  import opened OrderModel

  const FieldsMissing: Error := BadRequest("Required fields are missing.")
  const OrderNotFound: Error := NotFound("Order not found.")
  const CreateForbidden: Error := Forbidden("Unauthorized to add details to this order.")
  const DetailNotFound: Error := NotFound("Order detail not found.")
  const ViewForbidden: Error := Forbidden("Unauthorized to view this order detail.")
  const UpdateForbidden: Error := Forbidden("Unauthorized to update this order detail.")
  const DeleteForbidden: Error := Forbidden("Unauthorized to delete this order detail.")
  /** The TypeError raised when a detail's order cannot be loaded, caught by each handler. */
  const FetchFailed: Error := ServerError("Server error fetching order detail.")
  const UpdateFailed: Error := ServerError("Server error updating order detail.")
  const DeleteFailed: Error := ServerError("Server error deleting order detail.")

  /** The caller owns the order or is an admin. */
  predicate OwnerOrAdmin(o: Order, who: Requester) {
    o.user == who.id || who.isAdmin
  }

  /** The body of `createOrderDetail`; `None` is an absent field. */
  datatype DetailBody = DetailBody(
    orderId: Option<Id>,
    product: Option<Id>,
    quantity: Option<real>,
    note: Option<string>,
    discountUnit: Option<real>,
    pricePerUnit: Option<real>,
    totalPrice: Option<real>)

  /** The five fields `createOrderDetail` demands are present and truthy. */
  predicate HasRequired(b: DetailBody) {
    && b.orderId.Some? && b.product.Some?
    && TruthyNumber(b.quantity) && TruthyNumber(b.pricePerUnit) && TruthyNumber(b.totalPrice)
  }

  /** The detail `createOrderDetail` saves, linked to its order, with `discount_unit || 0`. */
  function NewDetail(b: DetailBody): (d: OrderDetail)
    requires HasRequired(b)
    ensures d.order == b.orderId && d.product == b.product.value && d.variant.None?
    ensures d.quantity == b.quantity.value && d.note == b.note
    ensures d.pricePerUnit == b.pricePerUnit.value && d.totalPrice == b.totalPrice.value
    ensures d.discountUnit == Some(if TruthyNumber(b.discountUnit) then b.discountUnit.value else 0.0)
  {
    OrderDetail(b.orderId, b.product.value, None, b.quantity.value, b.note,
                Some(if TruthyNumber(b.discountUnit) then b.discountUnit.value else 0.0),
                b.pricePerUnit.value, b.totalPrice.value)
  }

  /** `createOrderDetail`: missing fields, then an unknown order, then a caller who neither owns
      the order nor is an admin are rejected with nothing changed; otherwise the new detail is
      stored and its id appended to the end of the order's `order_details`. */
  method CreateOrderDetail(store: OrderStore, who: Requester, b: DetailBody) returns (r: Result<Id>)
    requires store.Valid()
    modifies store
    ensures store.Valid()
    ensures !HasRequired(b) ==> r == Err(FieldsMissing)
    ensures HasRequired(b) && b.orderId.value !in old(store.orders) ==> r == Err(OrderNotFound)
    ensures (HasRequired(b) && b.orderId.value in old(store.orders)
             && !OwnerOrAdmin(old(store.orders)[b.orderId.value], who)) ==> r == Err(CreateForbidden)
    ensures r.Ok? <==>
      HasRequired(b) && b.orderId.value in old(store.orders) && OwnerOrAdmin(old(store.orders)[b.orderId.value], who)
    ensures r.Err? ==>
      store.orders == old(store.orders) && store.details == old(store.details) && store.nextId == old(store.nextId)
    ensures r.Ok? ==>
      && HasRequired(b) && b.orderId.value in old(store.orders)
      && OwnerOrAdmin(old(store.orders)[b.orderId.value], who)
      && var o := old(store.orders)[b.orderId.value];
      && r.value == old(store.nextId) && r.value !in old(store.details)
      && store.details == old(store.details)[r.value := NewDetail(b)]
      && store.orders == old(store.orders)[b.orderId.value := o.(orderDetails := o.orderDetails + [r.value])]
      && store.nextId == old(store.nextId) + 1
  {
    if !HasRequired(b) {
      return Err(FieldsMissing);
    }
    var orderId := b.orderId.value;
    if orderId !in store.orders {
      return Err(OrderNotFound);
    }
    var o := store.orders[orderId];
    if !OwnerOrAdmin(o, who) {
      return Err(CreateForbidden);
    }
    var id := store.nextId;
    store.details := store.details[id := NewDetail(b)];
    store.orders := store.orders[orderId := o.(orderDetails := o.orderDetails + [id])];
    store.nextId := id + 1;
    r := Ok(id);
  }

  /** The order of a detail as `populate('order')` loads it; `None` when the detail names no
      order or a missing one. */
  function OrderOfDetail(orders: map<Id, Order>, d: OrderDetail): (r: Option<Order>)
    ensures r.Some? <==> d.order.Some? && d.order.value in orders
    ensures r.Some? ==> r.value == orders[d.order.value]
  {
    if d.order.Some? && d.order.value in orders then Some(orders[d.order.value]) else None
  }

  /** `getOrderDetailById`: the detail, if it exists and the caller owns its order or is an
      admin. Reading the owner of an order that cannot be loaded throws, which the handler
      reports as a server error. */
  function GetOrderDetailById(orders: map<Id, Order>, details: map<Id, OrderDetail>, who: Requester, id: Id)
    : (r: Result<OrderDetail>)
    ensures id !in details ==> r == Err(DetailNotFound)
    ensures id in details && OrderOfDetail(orders, details[id]).None? ==> r == Err(FetchFailed)
    ensures r.Ok? <==>
      id in details && OrderOfDetail(orders, details[id]).Some?
      && OwnerOrAdmin(OrderOfDetail(orders, details[id]).value, who)
    ensures r.Ok? ==> r.value == details[id]
    ensures r.Err? && id in details && OrderOfDetail(orders, details[id]).Some? ==> r == Err(ViewForbidden)
  {
    if id !in details then Err(DetailNotFound)
    else
      var o := OrderOfDetail(orders, details[id]);
      if o.None? then Err(FetchFailed)
      else if !OwnerOrAdmin(o.value, who) then Err(ViewForbidden)
      else Ok(details[id])
  }

  /** The body of `updateOrderDetail`; `None` is an absent field. */
  datatype DetailPatch = DetailPatch(
    product: Option<Id>,
    quantity: Option<real>,
    note: Option<string>,
    discountUnit: Option<real>,
    pricePerUnit: Option<real>,
    totalPrice: Option<real>)

  /** The detail after the field-by-field update: falsy `product`, `quantity`, `price_per_unit`
      and `total_price` are ignored, `note` and `discount_unit` are set whenever they are
      supplied, and the order link is kept. */
  function Patch(d: OrderDetail, p: DetailPatch): (r: OrderDetail)
    ensures r.order == d.order && r.variant == d.variant
    ensures r.product == (if p.product.Some? then p.product.value else d.product)
    ensures r.quantity == (if TruthyNumber(p.quantity) then p.quantity.value else d.quantity)
    ensures r.note == (if p.note.Some? then p.note else d.note)
    ensures r.discountUnit == (if p.discountUnit.Some? then p.discountUnit else d.discountUnit)
    ensures r.pricePerUnit == (if TruthyNumber(p.pricePerUnit) then p.pricePerUnit.value else d.pricePerUnit)
    ensures r.totalPrice == (if TruthyNumber(p.totalPrice) then p.totalPrice.value else d.totalPrice)
  {
    var d1 := if p.product.Some? then d.(product := p.product.value) else d;
    var d2 := if TruthyNumber(p.quantity) then d1.(quantity := p.quantity.value) else d1;
    var d3 := if p.note.Some? then d2.(note := p.note) else d2;
    var d4 := if p.discountUnit.Some? then d3.(discountUnit := p.discountUnit) else d3;
    var d5 := if TruthyNumber(p.pricePerUnit) then d4.(pricePerUnit := p.pricePerUnit.value) else d4;
    if TruthyNumber(p.totalPrice) then d5.(totalPrice := p.totalPrice.value) else d5
  }

  /** An update with no fields leaves the detail as it was. */
  lemma PatchNothing(d: OrderDetail)
    ensures Patch(d, DetailPatch(None, None, None, None, None, None)) == d
  {
  }

  /** `updateOrderDetail`: an unknown detail is not found, one whose order cannot be loaded is a
      server error, a caller who neither owns the order nor is an admin is refused; otherwise
      the detail is patched. Orders are never changed. */
  method UpdateOrderDetail(store: OrderStore, who: Requester, id: Id, p: DetailPatch)
    returns (r: Result<OrderDetail>)
    requires store.Valid()
    modifies store
    ensures store.Valid()
    ensures store.orders == old(store.orders) && store.nextId == old(store.nextId)
    ensures id !in old(store.details) ==> r == Err(DetailNotFound)
    ensures id in old(store.details) && OrderOfDetail(store.orders, old(store.details)[id]).None? ==>
      r == Err(UpdateFailed)
    ensures (id in old(store.details) && OrderOfDetail(store.orders, old(store.details)[id]).Some?
             && !OwnerOrAdmin(OrderOfDetail(store.orders, old(store.details)[id]).value, who)) ==>
      r == Err(UpdateForbidden)
    ensures r.Err? ==> store.details == old(store.details)
    ensures r.Ok? <==>
      id in old(store.details) && OrderOfDetail(store.orders, old(store.details)[id]).Some?
      && OwnerOrAdmin(OrderOfDetail(store.orders, old(store.details)[id]).value, who)
    ensures r.Ok? ==>
      && r.value == Patch(old(store.details)[id], p)
      && store.details == old(store.details)[id := r.value]
  {
    if id !in store.details {
      return Err(DetailNotFound);
    }
    var d := store.details[id];
    var o := OrderOfDetail(store.orders, d);
    if o.None? {
      return Err(UpdateFailed);
    }
    if !OwnerOrAdmin(o.value, who) {
      return Err(UpdateForbidden);
    }
    var updated := Patch(d, p);
    store.details := store.details[id := updated];
    r := Ok(updated);
  }

  /** `deleteOrderDetail`: an unknown detail is not found, one whose order cannot be loaded is
      a server error, a caller who neither owns the order nor is an admin is refused;
      otherwise the detail's id is pulled from its order's `order_details` and the detail is
      removed. */
  method DeleteOrderDetail(store: OrderStore, who: Requester, id: Id) returns (r: Result<OrderDetail>)
    requires store.Valid()
    modifies store
    ensures store.Valid()
    ensures store.nextId == old(store.nextId)
    ensures id !in old(store.details) ==> r == Err(DetailNotFound)
    ensures id in old(store.details) && OrderOfDetail(old(store.orders), old(store.details)[id]).None? ==>
      r == Err(DeleteFailed)
    ensures (id in old(store.details) && OrderOfDetail(old(store.orders), old(store.details)[id]).Some?
             && !OwnerOrAdmin(OrderOfDetail(old(store.orders), old(store.details)[id]).value, who)) ==>
      r == Err(DeleteForbidden)
    ensures r.Err? ==> store.orders == old(store.orders) && store.details == old(store.details)
    ensures r.Ok? <==>
      id in old(store.details) && OrderOfDetail(old(store.orders), old(store.details)[id]).Some?
      && OwnerOrAdmin(OrderOfDetail(old(store.orders), old(store.details)[id]).value, who)
    ensures r.Ok? ==>
      && r.value == old(store.details)[id]
      && var oid := r.value.order.value;
      && var o := old(store.orders)[oid];
      && store.orders == old(store.orders)[oid := o.(orderDetails := Pull(o.orderDetails, id))]
      && store.details == old(store.details) - {id}
  {
    if id !in store.details {
      return Err(DetailNotFound);
    }
    var d := store.details[id];
    var o := OrderOfDetail(store.orders, d);
    if o.None? {
      return Err(DeleteFailed);
    }
    if !OwnerOrAdmin(o.value, who) {
      return Err(DeleteForbidden);
    }
    var oid := d.order.value;
    store.orders := store.orders[oid := o.value.(orderDetails := Pull(o.value.orderDetails, id))];
    store.details := store.details - {id};
    r := Ok(d);
    forall p, e | p in store.orders && e in store.orders[p].orderDetails
      ensures e in store.details && (store.details[e].order.Some? ==> store.details[e].order.value == p)
    {
      assert e in old(store.orders)[p].orderDetails;
      assert e != id;
    }
  }

  /** The query parameters of `getAllOrderDetails` that filter; `None` is absent or empty. */
  datatype DetailFilter = DetailFilter(
    product: Option<Id>,
    orderId: Option<Id>,
    minPrice: Option<real>,
    maxPrice: Option<real>)

  /** The query object `getAllOrderDetails` builds. For a caller who is not an admin the
      condition on `order` is replaced by "one of the caller's orders", so an `orderId`
      parameter no longer applies. */
  predicate Selects(orders: map<Id, Order>, d: OrderDetail, f: DetailFilter, who: Requester) {
    && (f.product.Some? ==> d.product == f.product.value)
    && (f.minPrice.Some? ==> d.totalPrice >= f.minPrice.value)
    && (f.maxPrice.Some? ==> d.totalPrice <= f.maxPrice.value)
    && (if who.isAdmin then f.orderId.Some? ==> d.order == f.orderId
        else d.order.Some? && d.order.value in orders && orders[d.order.value].user == who.id)
  }

  /** The ids of the details `getAllOrderDetails` finds, without ordering and paging. */
  function GetAllOrderDetails(orders: map<Id, Order>, details: map<Id, OrderDetail>, f: DetailFilter, who: Requester)
    : (r: set<Id>)
    ensures forall id | id in r :: id in details && Selects(orders, details[id], f, who)
    ensures forall id | id in details && Selects(orders, details[id], f, who) :: id in r
    ensures !who.isAdmin ==>
      forall id | id in r :: details[id].order.Some? && details[id].order.value in orders
                             && orders[details[id].order.value].user == who.id
  {
    set id | id in details && Selects(orders, details[id], f, who)
  }

  /** For a caller who is not an admin the `orderId` parameter makes no difference. */
  lemma NonAdminIgnoresOrderId(orders: map<Id, Order>, details: map<Id, OrderDetail>,
                               f: DetailFilter, who: Requester, orderId: Option<Id>)
    requires !who.isAdmin
    ensures GetAllOrderDetails(orders, details, f, who)
         == GetAllOrderDetails(orders, details, f.(orderId := orderId), who)
  {
  }
}
