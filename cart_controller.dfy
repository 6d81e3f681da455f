/** The cart handlers (controllers/cartController.js): each user's `cartData` maps a product
    variant id to the number of that variant in the cart; `addToCart` and `removeFromCart`
    count one up or down, and `getCart` lists the active variants in the cart. */
module CartController {
  import opened Common

  /** A product variant document (models/productVariantModel.js), without images and stock. */
  datatype ProductVariant = ProductVariant(
    id: Id,
    size: string,
    price: real,
    percentDiscount: real,
    active: bool)

  /** A product document (models/productModel.js): what `getCart` selects of it, and the ids of
      its variants. */
  datatype Product = Product(name: string, description: string, variants: seq<Id>)

  /** The name and description `getCart` attaches to a variant. */
  datatype ProductInfo = ProductInfo(name: string, description: string)

  /** One entry of the list `getCart` replies with (the discounted price left out). */
  datatype CartItem = CartItem(
    variantId: Id,
    productName: string,
    productDescription: string,
    size: string,
    originalPrice: real,
    percentDiscount: real,
    quantity: int)

  /** A user's `cartData`: variant id to count. */
  type Cart = map<Id, int>

  const ItemIdRequired: Error := BadRequest("Item ID is required.")
  const UserNotFound: Error := NotFound("User not found.")
  const VariantUnavailable: Error := NotFound("Product variant not found or inactive.")
  const NotInCart: Error := BadRequest("Item not in cart or already removed.")
  const UnknownProduct: string := "Unknown Product"
  const CartFetchFailed: Error := ServerError("Error in fetching cart data.")

  /** The invariant of a cart: every stored count is at least one. */
  predicate Positive(cart: Cart) {
    forall k | k in cart :: cart[k] >= 1
  }

  // ---------------------------------------------------------------- the counter map

  /** The cart after `addToCart`: a truthy (non-zero) count goes up by one, an absent or zero
      count becomes 1, and every other entry is kept. */
  function Added(cart: Cart, item: Id): (r: Cart)
    ensures r.Keys == cart.Keys + {item}
    ensures forall k | k in cart && k != item :: r[k] == cart[k]
    ensures item in cart && cart[item] != 0 ==> r[item] == cart[item] + 1
    ensures item !in cart || cart[item] == 0 ==> r[item] == 1
  {
    cart[item := if item in cart && cart[item] != 0 then cart[item] + 1 else 1]
  }

  /** `removeFromCart` accepts an item that is in the cart with a positive count. */
  predicate Removable(cart: Cart, item: Id) {
    item in cart && cart[item] > 0
  }

  /** The cart after `removeFromCart`: the count goes down by one and the key is deleted when
      it reaches zero; every other entry is kept. */
  function Removed(cart: Cart, item: Id): (r: Cart)
    requires Removable(cart, item)
    ensures cart[item] == 1 ==> r.Keys == cart.Keys - {item}
    ensures cart[item] > 1 ==> r.Keys == cart.Keys && r[item] == cart[item] - 1
    ensures forall k | k in cart && k != item :: k in r && r[k] == cart[k]
  {
    if cart[item] - 1 == 0 then cart - {item} else cart[item := cart[item] - 1]
  }

  /** Adding keeps every count at least one. */
  lemma AddedPositive(cart: Cart, item: Id)
    requires Positive(cart)
    ensures Positive(Added(cart, item))
  {
  }

  /** Removing keeps every count at least one, because a count that reaches zero is deleted. */
  lemma RemovedPositive(cart: Cart, item: Id)
    requires Positive(cart) && Removable(cart, item)
    ensures Positive(Removed(cart, item))
  {
  }

  /** An item just added can always be removed again, and removing it restores the cart. */
  lemma RemoveAfterAdd(cart: Cart, item: Id)
    requires Positive(cart)
    ensures Removable(Added(cart, item), item)
    ensures Removed(Added(cart, item), item) == cart
  {
    var r := Removed(Added(cart, item), item);
    if item in cart {
      assert r == cart[item := cart[item]];
    } else {
      assert r.Keys == cart.Keys;
    }
  }

  /** Removing one of an item and adding it back restores the cart. */
  lemma AddAfterRemove(cart: Cart, item: Id)
    requires Positive(cart) && Removable(cart, item)
    ensures Added(Removed(cart, item), item) == cart
  {
    var r := Added(Removed(cart, item), item);
    assert r.Keys == cart.Keys;
  }

  // ---------------------------------------------------------------- the users' carts

  /** The first variant with id `id` in the collection (`findById`). */
  function FindVariant(variants: seq<ProductVariant>, id: Id): (r: Option<ProductVariant>)
    ensures r.Some? ==> r.value in variants && r.value.id == id
    ensures r.None? ==> forall v | v in variants :: v.id != id
  {
    if variants == [] then None
    else if variants[0].id == id then Some(variants[0])
    else FindVariant(variants[1..], id)
  }

  /** The `cartData` of every user, by user id. */
  class CartStore {
    var carts: map<Id, Cart>

    ghost predicate Valid()
      reads this
    {
      forall u | u in carts :: Positive(carts[u])
    }

    constructor ()
      ensures Valid() && carts == map[]
    {
      carts := map[];
    }
  }

  /** `addToCart`: a missing item id, an unknown user, then a missing or inactive variant are
      rejected with the cart unchanged; otherwise the item is counted one up. */
  method AddToCart(store: CartStore, variants: seq<ProductVariant>, userId: Id, itemId: Option<Id>)
    returns (err: Option<Error>)
    modifies store
    ensures itemId.None? ==> err == Some(ItemIdRequired)
    ensures itemId.Some? && userId !in old(store.carts) ==> err == Some(UserNotFound)
    ensures itemId.Some? && userId in old(store.carts)
            && (FindVariant(variants, itemId.value).None? || !FindVariant(variants, itemId.value).value.active) ==>
      err == Some(VariantUnavailable)
    ensures err.Some? ==> store.carts == old(store.carts)
    ensures err.None? <==>
      && itemId.Some? && userId in old(store.carts)
      && FindVariant(variants, itemId.value).Some? && FindVariant(variants, itemId.value).value.active
    ensures err.None? ==>
      && itemId.Some? && userId in old(store.carts)
      && store.carts == old(store.carts)[userId := Added(old(store.carts)[userId], itemId.value)]
    ensures old(store.Valid()) ==> store.Valid()
  {
    if itemId.None? {
      return Some(ItemIdRequired);
    }
    if userId !in store.carts {
      return Some(UserNotFound);
    }
    var variant := FindVariant(variants, itemId.value);
    if variant.None? || !variant.value.active {
      return Some(VariantUnavailable);
    }
    if store.Valid() {
      AddedPositive(store.carts[userId], itemId.value);
    }
    store.carts := store.carts[userId := Added(store.carts[userId], itemId.value)];
    err := None;
  }

  /** `removeFromCart`: a missing item id, an unknown user, then an item not in the cart (or
      with a count of zero or less) are rejected with the cart unchanged; otherwise the item
      is counted one down and dropped at zero. */
  method RemoveFromCart(store: CartStore, userId: Id, itemId: Option<Id>) returns (err: Option<Error>)
    modifies store
    ensures itemId.None? ==> err == Some(ItemIdRequired)
    ensures itemId.Some? && userId !in old(store.carts) ==> err == Some(UserNotFound)
    ensures itemId.Some? && userId in old(store.carts) && !Removable(old(store.carts)[userId], itemId.value) ==>
      err == Some(NotInCart)
    ensures err.Some? ==> store.carts == old(store.carts)
    ensures err.None? <==>
      itemId.Some? && userId in old(store.carts) && Removable(old(store.carts)[userId], itemId.value)
    ensures err.None? ==>
      && itemId.Some? && userId in old(store.carts) && Removable(old(store.carts)[userId], itemId.value)
      && store.carts == old(store.carts)[userId := Removed(old(store.carts)[userId], itemId.value)]
    ensures old(store.Valid()) ==> store.Valid()
  {
    if itemId.None? {
      return Some(ItemIdRequired);
    }
    if userId !in store.carts {
      return Some(UserNotFound);
    }
    if !Removable(store.carts[userId], itemId.value) {
      return Some(NotInCart);
    }
    if store.Valid() {
      RemovedPositive(store.carts[userId], itemId.value);
    }
    store.carts := store.carts[userId := Removed(store.carts[userId], itemId.value)];
    err := None;
  }

  // ---------------------------------------------------------------- getCart

  /** `productMap[v] = { name, description }` for each variant id `v` of `vs`, in order. */
  function Assign(m: map<Id, ProductInfo>, vs: seq<Id>, info: ProductInfo): map<Id, ProductInfo>
  {
    if vs == [] then m else Assign(m, vs[..|vs| - 1], info)[vs[|vs| - 1] := info]
  }

  function InfoOf(p: Product): ProductInfo {
    ProductInfo(p.name, p.description)
  }

  /** The map the nested `forEach` of `getCart` leaves: every variant id of every product, the
      products taken in order, so a later product overwrites an earlier one. */
  function ProductMap(products: seq<Product>): map<Id, ProductInfo>
  {
    if products == [] then map[]
    else
      var last := products[|products| - 1];
      Assign(ProductMap(products[..|products| - 1]), last.variants, InfoOf(last))
  }

  /** After the assignments for `vs`, an id of `vs` maps to `info`; the rest is as before. */
  lemma {:induction false} AssignAt(m: map<Id, ProductInfo>, vs: seq<Id>, info: ProductInfo, v: Id)
    ensures v in vs ==> v in Assign(m, vs, info) && Assign(m, vs, info)[v] == info
    ensures v !in vs ==> (v in Assign(m, vs, info) <==> v in m)
    ensures v !in vs && v in m ==> Assign(m, vs, info)[v] == m[v]
    decreases |vs|
  {
    if vs != [] {
      AssignAt(m, vs[..|vs| - 1], info, v);
      assert vs == vs[..|vs| - 1] + [vs[|vs| - 1]];
    }
  }

  /** A variant id maps to the last product that lists it, and is absent when no product
      lists it. */
  lemma {:induction false} ProductMapOwner(products: seq<Product>, v: Id)
    ensures forall i | 0 <= i < |products| && v in products[i].variants
                       && (forall j | i < j < |products| :: v !in products[j].variants) ::
              v in ProductMap(products) && ProductMap(products)[v] == InfoOf(products[i])
    ensures (forall i | 0 <= i < |products| :: v !in products[i].variants) ==> v !in ProductMap(products)
    decreases |products|
  {
    if products != [] {
      var n := |products| - 1;
      var init := products[..n];
      ProductMapOwner(init, v);
      AssignAt(ProductMap(init), products[n].variants, InfoOf(products[n]), v);
      assert forall i | 0 <= i < n :: init[i] == products[i];
    }
  }

  /** The nested `forEach` of `getCart` that fills `productMap`. */
  method BuildProductMap(products: seq<Product>) returns (m: map<Id, ProductInfo>)
    ensures m == ProductMap(products)
  {
    m := map[];
    var i := 0;
    while i < |products|
      invariant 0 <= i <= |products|
      invariant m == ProductMap(products[..i])
    {
      var p := products[i];
      ghost var before := m;
      var j := 0;
      while j < |p.variants|
        invariant 0 <= j <= |p.variants|
        invariant m == Assign(before, p.variants[..j], InfoOf(p))
      {
        assert p.variants[..j + 1][..j] == p.variants[..j];
        m := m[p.variants[j] := InfoOf(p)];
        j := j + 1;
      }
      assert p.variants[..j] == p.variants;
      assert products[..i + 1][..i] == products[..i];
      i := i + 1;
    }
    assert products[..i] == products;
  }

  /** `find({ _id: { $in: ids of the cart }, active: true })`: the active variants in the cart,
      in collection order. */
  function Selected(variants: seq<ProductVariant>, cart: Cart): (r: seq<ProductVariant>)
    ensures forall v | v in r :: v in variants && v.id in cart && v.active
    ensures forall v | v in variants && v.id in cart && v.active :: v in r
    ensures |r| <= |variants|
    ensures cart == map[] ==> r == []
  {
    if variants == [] then []
    else
      var rest := Selected(variants[1..], cart);
      if variants[0].id in cart && variants[0].active then [variants[0]] + rest else rest
  }

  /** The entry of a selected variant: its product's name and description when some product
      lists it (else "Unknown Product" and ""), its price data and its count in the cart. */
  function ItemOf(v: ProductVariant, cart: Cart, productMap: map<Id, ProductInfo>): CartItem
    requires v.id in cart
  {
    var info := if v.id in productMap then productMap[v.id] else ProductInfo(UnknownProduct, "");
    CartItem(v.id, info.name, info.description, v.size, v.price, v.percentDiscount, cart[v.id])
  }

  /** `variants.map(...)`: one entry per selected variant, in order. */
  function CartItems(selected: seq<ProductVariant>, cart: Cart, productMap: map<Id, ProductInfo>)
    : (r: seq<CartItem>)
    requires forall v | v in selected :: v.id in cart
    ensures |r| == |selected|
    ensures forall i | 0 <= i < |r| :: r[i] == ItemOf(selected[i], cart, productMap)
  {
    if selected == [] then [] else [ItemOf(selected[0], cart, productMap)] + CartItems(selected[1..], cart, productMap)
  }

  /** No two variants in the collection share an id. */
  predicate UniqueIds(variants: seq<ProductVariant>) {
    forall i, j | 0 <= i < j < |variants| :: variants[i].id != variants[j].id
  }

  /** The selection keeps collection order, so distinct ids stay distinct. */
  lemma {:induction false} SelectedUnique(variants: seq<ProductVariant>, cart: Cart)
    requires UniqueIds(variants)
    ensures UniqueIds(Selected(variants, cart))
    decreases |variants|
  {
    if variants != [] {
      var rest := Selected(variants[1..], cart);
      assert UniqueIds(variants[1..]) by {
        forall i, j | 0 <= i < j < |variants[1..]| ensures variants[1..][i].id != variants[1..][j].id {
          assert variants[1..][i] == variants[i + 1] && variants[1..][j] == variants[j + 1];
        }
      }
      SelectedUnique(variants[1..], cart);
      if variants[0].id in cart && variants[0].active {
        forall j | 0 <= j < |rest| ensures rest[j].id != variants[0].id {
          assert rest[j] in variants[1..];
          var k :| 0 <= k < |variants[1..]| && variants[1..][k] == rest[j];
          assert variants[k + 1] == rest[j];
        }
        var r := [variants[0]] + rest;
        forall i, j | 0 <= i < j < |r| ensures r[i].id != r[j].id {
          if i == 0 {
            assert r[j] == rest[j - 1];
          } else {
            assert r[i] == rest[i - 1] && r[j] == rest[j - 1];
          }
        }
      }
    }
  }

  /** `getCart`: an unknown user is not found; an empty cart gives an empty list; otherwise
      one entry per active variant in the cart, in collection order, with its cart count. */
  method GetCart(store: CartStore, variants: seq<ProductVariant>, products: seq<Product>, userId: Id)
    returns (r: Result<seq<CartItem>>)
    ensures userId !in store.carts ==> r == Err(UserNotFound)
    ensures userId in store.carts && store.carts[userId] == map[] ==> r == Ok([])
    ensures userId in store.carts ==>
      && r.Ok?
      && r.value == CartItems(Selected(variants, store.carts[userId]), store.carts[userId], ProductMap(products))
  {
    if userId !in store.carts {
      return Err(UserNotFound);
    }
    var cart := store.carts[userId];
    if |cart| == 0 {
      return Ok([]);
    }
    var productMap := BuildProductMap(products);
    r := Ok(CartItems(Selected(variants, cart), cart, productMap));
  }

  /** `productModel.find({ variants: { $in: variantIds } })`: the products that list a
      variant of the cart, in collection order. */
  function ListingProducts(products: seq<Product>, cart: Cart): (r: seq<Product>)
    ensures forall p | p in r :: p in products && exists v | v in p.variants :: v in cart
    ensures forall p | p in products && (exists v | v in p.variants :: v in cart) :: p in r
  {
    if products == [] then []
    else
      var rest := ListingProducts(products[1..], cart);
      if exists v | v in products[0].variants :: v in cart then [products[0]] + rest else rest
  }

  /** `getCart` as written: `.select('name description')` leaves `variants` out of the
      products found, so `product.variants.forEach` throws on the first one and the handler
      replies 500. The reply is a list only when no product lists a variant of the cart, and
      then every entry is an "Unknown Product". */
  method GetCartAsWritten(store: CartStore, variants: seq<ProductVariant>, products: seq<Product>, userId: Id)
    returns (r: Result<seq<CartItem>>)
    ensures userId !in store.carts ==> r == Err(UserNotFound)
    ensures userId in store.carts && store.carts[userId] == map[] ==> r == Ok([])
    ensures userId in store.carts && store.carts[userId] != map[] ==>
      (r == Err(CartFetchFailed) <==> exists p | p in products :: exists v | v in p.variants :: v in store.carts[userId])
    ensures userId in store.carts && r.Ok? ==>
      var cart := store.carts[userId];
      && r.value == CartItems(Selected(variants, cart), cart, map[])
      && forall i | 0 <= i < |r.value| :: r.value[i].productName == UnknownProduct
  {
    if userId !in store.carts {
      return Err(UserNotFound);
    }
    var cart := store.carts[userId];
    if |cart| == 0 {
      return Ok([]);
    }
    var found := ListingProducts(products, cart);
    if found != [] {
      // `found[0].variants` is undefined after the projection: the `forEach` throws.
      assert found[0] in products;
      return Err(CartFetchFailed);
    }
    var productMap: map<Id, ProductInfo> := map[];
    r := Ok(CartItems(Selected(variants, cart), cart, productMap));
  }

  /** A cart holding one active variant that a product lists: the intended reply names the
      product, while the handler as written fails. */
  lemma GetCartAsWrittenFails()
    ensures var v := ProductVariant(1, "M", 30000.0, 0.0, true);
      var products := [Product("Pho", "", [1])];
      var cart: Cart := map[1 := 2];
      && (exists p | p in products :: exists w | w in p.variants :: w in cart)
      && CartItems(Selected([v], cart), cart, ProductMap(products))
         == [CartItem(1, "Pho", "", "M", 30000.0, 0.0, 2)]
  {
    var products := [Product("Pho", "", [1])];
    ProductMapOwner(products, 1);
    assert 1 in products[0].variants;
  }

  /** Each entry of `getCart` carries the cart count of its variant, and each active variant
      in the cart has an entry. */
  lemma GetCartEntries(variants: seq<ProductVariant>, products: seq<Product>, cart: Cart)
    ensures var items := CartItems(Selected(variants, cart), cart, ProductMap(products));
      && (forall i | 0 <= i < |items| ::
            items[i].variantId in cart && items[i].quantity == cart[items[i].variantId])
      && (forall v | v in variants && v.id in cart && v.active ::
            exists i | 0 <= i < |items| :: items[i].variantId == v.id)
  {
    var selected := Selected(variants, cart);
    var items := CartItems(selected, cart, ProductMap(products));
    forall i | 0 <= i < |items|
      ensures items[i].variantId in cart && items[i].quantity == cart[items[i].variantId]
    {
      assert selected[i] in selected;
    }
    forall v | v in variants && v.id in cart && v.active
      ensures exists i | 0 <= i < |items| :: items[i].variantId == v.id
    {
      var i :| 0 <= i < |selected| && selected[i] == v;
      assert items[i].variantId == v.id;
    }
  }

  /** With distinct variant ids in the collection, no variant has two entries. */
  lemma GetCartDistinct(variants: seq<ProductVariant>, products: seq<Product>, cart: Cart)
    requires UniqueIds(variants)
    ensures var items := CartItems(Selected(variants, cart), cart, ProductMap(products));
      forall i, j | 0 <= i < j < |items| :: items[i].variantId != items[j].variantId
  {
    var selected := Selected(variants, cart);
    SelectedUnique(variants, cart);
    var items := CartItems(selected, cart, ProductMap(products));
    forall i, j | 0 <= i < j < |items| ensures items[i].variantId != items[j].variantId {
      assert items[i].variantId == selected[i].id && items[j].variantId == selected[j].id;
    }
  }
}
