/** Order creation (controllers/orderController.js): the submitted line items are priced one by
    one against the catalogue, and only when every one of them is valid are the details
    inserted and the pending order saved. */
module OrderController {
  import opened Common
  import opened OrderModel

  /** One submitted line item; `None` is an absent id, or a quantity that is absent or not a
      number (JavaScript's `undefined` or `NaN`). */
  datatype DetailInput = DetailInput(
    productId: Option<Id>,
    variantId: Option<Id>,
    quantity: Option<real>,
    note: Option<string>)

  /** A variant as `populate('variants')` loads it: its id and unit price. */
  datatype PricedVariant = PricedVariant(id: Id, price: real)

  /** The products by id, each with its populated variants. */
  type Catalog = map<Id, seq<PricedVariant>>

  const ProductNotFound: Error := NotFound("Product not found")
  const VariantNotFound: Error := NotFound("Product variant not found")
  /** The `ValidationError` that `order.save()` raises for the three required paths
      `createOrder` never sets; the catch replies 400 with its message. */
  const OrderValidationFailed: Error :=
    BadRequest("Order validation failed: address: Path `address` is required., phone: Path `phone` is required., method: Path `method` is required.")
  /** The `ValidationError` that `insertMany` raises when a detail has no numeric `quantity`
      (the schema requires one); the catch replies 400 with its message. */
  const DetailValidationFailed: Error := BadRequest("OrderDetail validation failed")

  /** `product.variants.find(v => v._id.toString() === variantId)`: the first variant with that
      id; an absent id matches none. */
  function FindPriced(variants: seq<PricedVariant>, id: Option<Id>): (r: Option<PricedVariant>)
    ensures r.Some? ==> id.Some? && r.value in variants && r.value.id == id.value
    ensures r.None? ==> id.None? || forall v | v in variants :: v.id != id.value
  {
    if variants == [] || id.None? then None
    else if variants[0].id == id.value then Some(variants[0])
    else FindPriced(variants[1..], id)
  }

  /** The quantity a detail records. The pricing loop never looks at the quantity, so a line
      item without one is still priced; its detail is refused by `insertMany` before anything is
      stored (see `Quantified`), and 0 stands for the `undefined`/`NaN` it would carry. */
  function QuantityOf(d: DetailInput): real {
    if d.quantity.Some? then d.quantity.value else 0.0
  }

  /** Every line item has a numeric quantity, as the detail schema requires. */
  predicate Quantified(ds: seq<DetailInput>) {
    forall i | 0 <= i < |ds| :: ds[i].quantity.Some?
  }

  /** The detail one line item becomes: the variant's price per unit and price times quantity
      as its total; or the not-found error for its product or its variant. */
  function LineFor(catalog: Catalog, d: DetailInput): (r: Result<OrderDetail>)
    ensures d.productId.None? || d.productId.value !in catalog ==> r == Err(ProductNotFound)
    ensures (d.productId.Some? && d.productId.value in catalog
             && FindPriced(catalog[d.productId.value], d.variantId).None?) ==> r == Err(VariantNotFound)
    ensures r.Ok? ==>
      && d.productId.Some? && d.productId.value in catalog
      && var v := FindPriced(catalog[d.productId.value], d.variantId);
      && v.Some?
      && r.value.product == d.productId.value && r.value.variant == d.variantId
      && r.value.note == d.note
      && r.value.pricePerUnit == v.value.price
      && (d.quantity.Some? ==>
            r.value.quantity == d.quantity.value && r.value.totalPrice == v.value.price * d.quantity.value)
      && r.value.order.None? && r.value.discountUnit.None?
  {
    if d.productId.None? || d.productId.value !in catalog then Err(ProductNotFound)
    else
      var v := FindPriced(catalog[d.productId.value], d.variantId);
      if v.None? then Err(VariantNotFound)
      else Ok(OrderDetail(None, d.productId.value, d.variantId, QuantityOf(d), d.note, None,
                          v.value.price, v.value.price * QuantityOf(d)))
  }

  /** The details the loop of `createOrder` builds, in input order, or the error of the first
      line item that fails. */
  function Lines(catalog: Catalog, ds: seq<DetailInput>): Result<seq<OrderDetail>>
    decreases |ds|
  {
    if ds == [] then Ok([])
    else
      var init := Lines(catalog, ds[..|ds| - 1]);
      if init.Err? then init
      else
        var last := LineFor(catalog, ds[|ds| - 1]);
        if last.Err? then Err(last.error) else Ok(init.value + [last.value])
  }

  /** On success there is one detail per line item, in input order, each the one `LineFor`
      builds. */
  lemma {:induction false} LinesOk(catalog: Catalog, ds: seq<DetailInput>)
    requires Lines(catalog, ds).Ok?
    ensures |Lines(catalog, ds).value| == |ds|
    ensures forall i | 0 <= i < |ds| :: LineFor(catalog, ds[i]) == Ok(Lines(catalog, ds).value[i])
    decreases |ds|
  {
    if ds != [] {
      var n := |ds| - 1;
      LinesOk(catalog, ds[..n]);
      assert forall i | 0 <= i < n :: ds[..n][i] == ds[i];
    }
  }

  /** On success every detail is unattached and, when every line item has a quantity, keeps
      its item's quantity. */
  lemma LinesQuantities(catalog: Catalog, ds: seq<DetailInput>)
    requires Lines(catalog, ds).Ok?
    ensures |Lines(catalog, ds).value| == |ds|
    ensures forall i | 0 <= i < |ds| :: Lines(catalog, ds).value[i].order.None?
    ensures Quantified(ds) ==>
      forall i | 0 <= i < |ds| :: Lines(catalog, ds).value[i].quantity == ds[i].quantity.value
  {
    LinesOk(catalog, ds);
    forall i | 0 <= i < |ds|
      ensures Lines(catalog, ds).value[i].order.None?
      ensures ds[i].quantity.Some? ==> Lines(catalog, ds).value[i].quantity == ds[i].quantity.value
    {
      assert LineFor(catalog, ds[i]) == Ok(Lines(catalog, ds).value[i]);
    }
  }

  /** A failure is the error of the first line item that fails. */
  lemma {:induction false} LinesError(catalog: Catalog, ds: seq<DetailInput>)
    requires Lines(catalog, ds).Err?
    ensures exists i | 0 <= i < |ds| ::
      && LineFor(catalog, ds[i]) == Err(Lines(catalog, ds).error)
      && forall j | 0 <= j < i :: LineFor(catalog, ds[j]).Ok?
    decreases |ds|
  {
    var n := |ds| - 1;
    var init := ds[..n];
    if Lines(catalog, init).Err? {
      LinesError(catalog, init);
      var i :| 0 <= i < |init| && LineFor(catalog, init[i]) == Err(Lines(catalog, init).error)
               && forall j | 0 <= j < i :: LineFor(catalog, init[j]).Ok?;
      assert ds[i] == init[i];
      assert forall j | 0 <= j < i :: ds[j] == init[j];
    } else {
      LinesOk(catalog, init);
      assert forall j | 0 <= j < n :: LineFor(catalog, ds[j]).Ok? by {
        forall j | 0 <= j < n ensures LineFor(catalog, ds[j]).Ok? {
          assert ds[j] == init[j];
        }
      }
    }
  }

  /** Once a prefix fails, the whole list fails with the same error. */
  lemma {:induction false} LinesStopAtError(catalog: Catalog, ds: seq<DetailInput>, k: nat)
    requires k <= |ds| && Lines(catalog, ds[..k]).Err?
    ensures Lines(catalog, ds) == Lines(catalog, ds[..k])
    decreases |ds| - k
  {
    if k < |ds| {
      var next := ds[..k + 1];
      assert next[..k] == ds[..k];
      LinesStopAtError(catalog, ds, k + 1);
    } else {
      assert ds[..k] == ds;
    }
  }

  /** The details `createOrder` inserts from `start` are the line items in order, each with
      its item's quantity. */
  lemma InsertedQuantities(catalog: Catalog, ds: seq<DetailInput>, details: map<Id, OrderDetail>, start: nat)
    requires Lines(catalog, ds).Ok? && Quantified(ds)
    ensures forall i | 0 <= i < |ds| ::
      && start + i in InsertAll(details, start, Lines(catalog, ds).value)
      && InsertAll(details, start, Lines(catalog, ds).value)[start + i].quantity == ds[i].quantity.value
  {
    var lines := Lines(catalog, ds).value;
    var inserted := InsertAll(details, start, lines);
    LinesQuantities(catalog, ds);
    forall i | 0 <= i < |ds|
      ensures start + i in inserted && inserted[start + i].quantity == ds[i].quantity.value
    {
      assert start <= start + i < start + |lines|;
      assert inserted[start + i] == lines[i];
    }
  }

  /** The sum of the line totals. */
  function Total(lines: seq<OrderDetail>): real {
    if lines == [] then 0.0 else Total(lines[..|lines| - 1]) + lines[|lines| - 1].totalPrice
  }

  /** The total of two runs of lines is the sum of their totals. */
  lemma {:induction false} TotalAppend(a: seq<OrderDetail>, b: seq<OrderDetail>)
    ensures Total(a + b) == Total(a) + Total(b)
    decreases |b|
  {
    if b != [] {
      var n := |b| - 1;
      assert (a + b)[..|a + b| - 1] == a + b[..n];
      TotalAppend(a, b[..n]);
    } else {
      assert a + b == a;
    }
  }

  /** The ids `insertMany` gives `n` documents: `start`, `start + 1`, ... */
  function Range(start: nat, n: nat): (r: seq<Id>)
    ensures |r| == n && forall i | 0 <= i < n :: r[i] == start + i
  {
    seq(n, i => start + i)
  }

  /** The detail collection after `insertMany(lines)` with ids from `start`. */
  function InsertAll(details: map<Id, OrderDetail>, start: nat, lines: seq<OrderDetail>)
    : (r: map<Id, OrderDetail>)
    ensures forall k | k in details :: k in r
    ensures forall k | start <= k < start + |lines| :: k in r && r[k] == lines[k - start]
    ensures forall k | k in r :: k in details || start <= k < start + |lines|
    ensures forall k | k in details && !(start <= k < start + |lines|) :: r[k] == details[k]
    decreases |lines|
  {
    if lines == [] then details
    else
      var n := |lines| - 1;
      InsertAll(details, start, lines[..n])[start + n := lines[n]]
  }

  /** `insertMany(orderDetailsArray)` followed by the save of the new pending order that lists
      the inserted ids; returns the order's id. */
  method SaveOrder(store: OrderStore, userId: Id, lines: seq<OrderDetail>, totalPrice: real)
    returns (orderId: Id)
    requires store.Valid()
    requires forall i | 0 <= i < |lines| :: lines[i].order.None?
    modifies store
    ensures store.Valid()
    ensures orderId == old(store.nextId) + |lines| && orderId !in old(store.orders)
    ensures store.orders == old(store.orders)[orderId := Order(userId, Range(old(store.nextId), |lines|), totalPrice, Pending)]
    ensures store.details == InsertAll(old(store.details), old(store.nextId), lines)
    ensures store.nextId == orderId + 1
  {
    var start := store.nextId;
    var ids := Range(start, |lines|);
    store.details := InsertAll(store.details, start, lines);
    orderId := start + |lines|;
    store.orders := store.orders[orderId := Order(userId, ids, totalPrice, Pending)];
    store.nextId := orderId + 1;
    forall o, d | o in store.orders && d in store.orders[o].orderDetails
      ensures d in store.details && (store.details[d].order.Some? ==> store.details[d].order.value == o)
    {
      if o == orderId {
        var k :| 0 <= k < |ids| && ids[k] == d;
        assert d == start + k && lines[k].order.None?;
        assert d in store.details && store.details[d] == lines[k];
      } else {
        assert o in old(store.orders) && d in old(store.orders)[o].orderDetails;
      }
    }
  }

  /** The loop of `createOrder`: builds the detail of each line item in turn and adds its
      total to `totalPrice`, stopping at the first line item whose product or variant is not
      found. */
  method PriceLines(catalog: Catalog, details: seq<DetailInput>)
    returns (r: Result<seq<OrderDetail>>, totalPrice: real)
    ensures r == Lines(catalog, details)
    ensures r.Ok? ==> totalPrice == Total(r.value)
  {
    totalPrice := 0.0;
    var lines: seq<OrderDetail> := [];
    var i := 0;
    while i < |details|
      invariant 0 <= i <= |details|
      invariant Lines(catalog, details[..i]) == Ok(lines)
      invariant totalPrice == Total(lines)
    {
      var d := details[i];
      assert details[..i + 1][..i] == details[..i];
      if d.productId.None? || d.productId.value !in catalog {
        LinesStopAtError(catalog, details, i + 1);
        return Err(ProductNotFound), totalPrice;
      }
      var variant := FindPriced(catalog[d.productId.value], d.variantId);
      if variant.None? {
        LinesStopAtError(catalog, details, i + 1);
        return Err(VariantNotFound), totalPrice;
      }
      var line := OrderDetail(None, d.productId.value, d.variantId, QuantityOf(d), d.note, None,
                              variant.value.price, variant.value.price * QuantityOf(d));
      assert details[..i + 1][i] == d;
      assert LineFor(catalog, d).Ok? && LineFor(catalog, d).value == line;
      lines := lines + [line];
      totalPrice := totalPrice + line.totalPrice;
      i := i + 1;
    }
    assert details[..i] == details;
    r := Ok(lines);
  }

  /** `createOrder` (with `orderDetails` the submitted line items): prices every line item
      first and fails with nothing stored at the first unknown product or variant; then
      `insertMany` refuses the whole batch, storing nothing, when a line item has no numeric
      quantity; otherwise inserts the details and saves a pending order listing their ids,
      with the sum of the line totals. Returns the new order's id. */
  method CreateOrder(store: OrderStore, catalog: Catalog, userId: Id, details: seq<DetailInput>)
    returns (r: Result<Id>)
    requires store.Valid()
    modifies store
    ensures store.Valid()
    ensures r.Err? <==> Lines(catalog, details).Err? || !Quantified(details)
    ensures r.Err? ==>
      && r.error == (if Lines(catalog, details).Err? then Lines(catalog, details).error else DetailValidationFailed)
      && store.orders == old(store.orders) && store.details == old(store.details)
      && store.nextId == old(store.nextId)
    ensures r.Ok? ==>
      var lines := Lines(catalog, details).value;
      && r.value == old(store.nextId) + |lines|
      && r.value !in old(store.orders)
      && store.orders == old(store.orders)[r.value := Order(userId, Range(old(store.nextId), |lines|), Total(lines), Pending)]
      && store.details == InsertAll(old(store.details), old(store.nextId), lines)
      && store.nextId == r.value + 1
  {
    var lines, totalPrice := PriceLines(catalog, details);
    if lines.Err? {
      return Err(lines.error);
    }
    if !Quantified(details) {
      return Err(DetailValidationFailed);
    }
    LinesQuantities(catalog, details);
    var orderId := SaveOrder(store, userId, lines.value, totalPrice);
    r := Ok(orderId);
  }

  /** `createOrder` as written: the order document it builds lacks the required `address`,
      `phone` and `method`, so `order.save()` always fails validation. Pricing and quantity
      errors are as in `CreateOrder`; once every line item is priced and has a quantity, the
      details are inserted, no order is stored, and the inserted details belong to no order. */
  method CreateOrderAsWritten(store: OrderStore, catalog: Catalog, userId: Id, details: seq<DetailInput>)
    returns (r: Result<Id>)
    requires store.Valid()
    modifies store
    ensures store.Valid()
    ensures r.Err?
    ensures Lines(catalog, details).Err? ==>
      && r.error == Lines(catalog, details).error
      && store.orders == old(store.orders) && store.details == old(store.details)
      && store.nextId == old(store.nextId)
    ensures Lines(catalog, details).Ok? && !Quantified(details) ==>
      && r == Err(DetailValidationFailed)
      && store.orders == old(store.orders) && store.details == old(store.details)
      && store.nextId == old(store.nextId)
    ensures Lines(catalog, details).Ok? && Quantified(details) ==>
      var lines := Lines(catalog, details).value;
      && r == Err(OrderValidationFailed)
      && store.orders == old(store.orders)
      && store.details == InsertAll(old(store.details), old(store.nextId), lines)
      && store.nextId == old(store.nextId) + |lines|
      && forall o, d | o in store.orders && d in store.orders[o].orderDetails :: d < old(store.nextId)
  {
    var lines, totalPrice := PriceLines(catalog, details);
    if lines.Err? {
      return Err(lines.error);
    }
    if !Quantified(details) {
      return Err(DetailValidationFailed);
    }
    var start := store.nextId;
    forall o, d | o in store.orders && d in store.orders[o].orderDetails ensures d < start {
      assert d in store.details;
    }
    store.details := InsertAll(store.details, start, lines.value);
    store.nextId := start + |lines.value|;
    r := Err(OrderValidationFailed);
  }
}
