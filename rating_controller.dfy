/** The rating handlers (controllers/ratingController.js, models/ratingModel.js): at most one
    rating of 1 to 5 per user and product, and each product's list of rating ids and average
    rating kept in step with the rating collection. */
module RatingController {
  import opened Common

  /** The schema bounds of `value` (`min`, `max`) and the `maxlength` of `comment`. */
  const MinValue: real := 1.0
  const MaxValue: real := 5.0
  const MaxCommentLength: nat := 500

  const AlreadyRated: Error := BadRequest("You have already rated this product.")
  const CreateFailed: Error := ServerError("Failed to create rating")
  const RatingNotFound: Error := NotFound("Rating not found")
  const NotAuthor: Error := Forbidden("Unauthorized")
  /** A failed `save` in `updateRating`; the reply appends the validation message. */
  const SaveFailed: Error := ServerError("Server error")

  /** A stored rating. */
  datatype Rating = Rating(id: Id, user: Id, product: Id, value: real, comment: Option<string>)

  /** The two fields of a product the rating handlers write: the ids of its ratings and
      `avgRating`. */
  datatype ProductRatings = ProductRatings(ratings: seq<Id>, avgRating: real)

  /** The `value` validators of the schema: present, at least 1 and at most 5. */
  predicate ValidValue(value: Option<real>) {
    value.Some? && MinValue <= value.value <= MaxValue
  }

  /** The `maxlength` validator of `comment`; an absent comment passes. */
  predicate ValidComment(comment: Option<string>) {
    comment.None? || |comment.value| <= MaxCommentLength
  }

  /** `ratingModel.find({ product })`: the ratings of one product, in collection order. */
  function OfProduct(ratings: seq<Rating>, product: Id): (r: seq<Rating>)
    ensures forall x | x in r :: x in ratings && x.product == product
    ensures forall x | x in ratings && x.product == product :: x in r
  {
    if ratings == [] then []
    else
      var init := OfProduct(ratings[..|ratings| - 1], product);
      var last := ratings[|ratings| - 1];
      if last.product == product then init + [last] else init
  }

  /** Selecting from two runs selects from each, in order. */
  lemma {:induction false} OfProductAppend(a: seq<Rating>, b: seq<Rating>, product: Id)
    ensures OfProduct(a + b, product) == OfProduct(a, product) + OfProduct(b, product)
    decreases |b|
  {
    if b == [] {
      assert a + b == a;
    } else {
      var n := |b| - 1;
      assert (a + b)[..|a + b| - 1] == a + b[..n];
      assert (a + b)[|a + b| - 1] == b[n];
      OfProductAppend(a, b[..n], product);
    }
  }

  /** `ratings.reduce((acc, rating) => acc + rating.value, 0)`. */
  function Sum(rs: seq<Rating>): real {
    if rs == [] then 0.0 else Sum(rs[..|rs| - 1]) + rs[|rs| - 1].value
  }

  /** The average `updateProductAverageRating` stores: 0 for no ratings, otherwise the sum of
      the values over their count. */
  function Average(rs: seq<Rating>): (avg: real)
    ensures rs == [] ==> avg == 0.0
    ensures rs != [] ==> avg * (|rs| as real) == Sum(rs)
  {
    if rs == [] then 0.0 else Sum(rs) / (|rs| as real)
  }

  /** Values within the schema bounds sum to between `|rs|` and five times `|rs|`. */
  lemma {:induction false} SumBounds(rs: seq<Rating>)
    requires forall x | x in rs :: MinValue <= x.value <= MaxValue
    ensures MinValue * (|rs| as real) <= Sum(rs) <= MaxValue * (|rs| as real)
    decreases |rs|
  {
    if rs != [] {
      var n := |rs| - 1;
      assert forall x | x in rs[..n] :: x in rs;
      assert rs[n] in rs;
      SumBounds(rs[..n]);
    }
  }

  /** The average of ratings within the schema bounds is itself within them. */
  lemma AverageBounds(rs: seq<Rating>)
    requires rs != []
    requires forall x | x in rs :: MinValue <= x.value <= MaxValue
    ensures MinValue <= Average(rs) <= MaxValue
  {
    var n, avg, sum := |rs| as real, Average(rs), Sum(rs);
    SumBounds(rs);
    assert MinValue * n <= sum <= MaxValue * n;
    assert avg * n == sum;
    assert n > 0.0;
    Unscale(avg, n, sum, MinValue, MaxValue);
  }

  /** Bounds on a positive multiple are bounds on the number itself. */
  lemma Unscale(x: real, n: real, product: real, lo: real, hi: real)
    requires n > 0.0 && x * n == product && lo * n <= product <= hi * n
    ensures lo <= x <= hi
  {
  }

  /** The ids of a run of ratings, in order. */
  function Ids(rs: seq<Rating>): (r: seq<Id>)
    ensures |r| == |rs| && forall i | 0 <= i < |rs| :: r[i] == rs[i].id
  {
    if rs == [] then [] else Ids(rs[..|rs| - 1]) + [rs[|rs| - 1].id]
  }

  /** What a product's rating fields hold when they agree with the rating collection: the ids
      of its ratings in collection order and their average. */
  function Aggregate(ratings: seq<Rating>, product: Id): ProductRatings {
    var mine := OfProduct(ratings, product);
    ProductRatings(Ids(mine), Average(mine))
  }

  /** A product's agreed average is 0 when it has no ratings and otherwise lies within the
      schema bounds, as long as every stored value does. */
  lemma AggregateInRange(ratings: seq<Rating>, product: Id)
    requires forall x | x in ratings :: ValidValue(Some(x.value))
    ensures Aggregate(ratings, product).ratings == [] ==> Aggregate(ratings, product).avgRating == 0.0
    ensures Aggregate(ratings, product).ratings != [] ==>
      MinValue <= Aggregate(ratings, product).avgRating <= MaxValue
  {
    var mine := OfProduct(ratings, product);
    if mine != [] {
      AverageBounds(mine);
    }
  }

  /** `ratingModel.findOne({ user, product })`: some rating by `user` of `product`. An absent
      `product` is dropped from the filter, so any rating by `user` matches. */
  predicate Rated(ratings: seq<Rating>, user: Id, product: Option<Id>) {
    exists i | 0 <= i < |ratings| :: ratings[i].user == user && (product.None? || ratings[i].product == product.value)
  }

  /** `ratingModel.findById(id)`: the position of the rating with that id. */
  function FindById(ratings: seq<Rating>, id: Id): (r: Option<nat>)
    ensures r.Some? ==> r.value < |ratings| && ratings[r.value].id == id
    ensures r.None? ==> forall i | 0 <= i < |ratings| :: ratings[i].id != id
  {
    if ratings == [] then None
    else if ratings[|ratings| - 1].id == id then Some(|ratings| - 1)
    else FindById(ratings[..|ratings| - 1], id)
  }

  /** Rating ids increase along the collection. */
  predicate Increasing(ratings: seq<Rating>) {
    forall i, j | 0 <= i < j < |ratings| :: ratings[i].id < ratings[j].id
  }

  /** No two ratings share both their user and their product. */
  predicate OnePerUserAndProduct(ratings: seq<Rating>) {
    forall i, j | 0 <= i < j < |ratings| :: ratings[i].user != ratings[j].user || ratings[i].product != ratings[j].product
  }

  /** Every product's rating fields are the aggregate of its ratings. */
  predicate Agrees(ratings: seq<Rating>, products: map<Id, ProductRatings>) {
    forall p | p in products :: products[p] == Aggregate(ratings, p)
  }

  /** No id in `rs` reaches `bound`. */
  predicate IdsBelow(rs: seq<Rating>, bound: Id) {
    forall i | 0 <= i < |rs| :: rs[i].id < bound
  }

  /** Every id in `rs` is above `bound`. */
  predicate IdsAbove(rs: seq<Rating>, bound: Id) {
    forall i | 0 <= i < |rs| :: bound < rs[i].id
  }

  /** Every stored rating passed the schema validators. */
  predicate AllValid(ratings: seq<Rating>) {
    forall i | 0 <= i < |ratings| :: ValidValue(Some(ratings[i].value)) && ValidComment(ratings[i].comment)
  }

  /** The invariant of the two collections: ids below `nextId` and increasing, every rating
      valid, no user rating a product twice, and every product's fields in agreement. */
  predicate Consistent(ratings: seq<Rating>, products: map<Id, ProductRatings>, nextId: Id) {
    && IdsBelow(ratings, nextId) && Increasing(ratings) && AllValid(ratings)
    && OnePerUserAndProduct(ratings) && Agrees(ratings, products)
  }

  /** The rating and product collections; `nextId` is the next fresh rating id. */
  class RatingStore {
    var ratings: seq<Rating>
    var products: map<Id, ProductRatings>
    var nextId: nat

    ghost predicate Valid()
      reads this
    {
      Consistent(ratings, products, nextId)
    }

    /** No ratings yet; the given products have no rating ids and an average of 0. */
    constructor (productIds: set<Id>)
      ensures Valid()
      ensures ratings == [] && nextId == 0
      ensures products == map p | p in productIds :: ProductRatings([], 0.0)
    {
      ratings := [];
      products := map p | p in productIds :: ProductRatings([], 0.0);
      nextId := 0;
    }
  }

  /** An id above all of a run's ids is not among the ids of any product's ratings in it. */
  lemma FreshIdAbsent(rs: seq<Rating>, product: Id, id: Id)
    requires IdsBelow(rs, id)
    ensures id !in Ids(OfProduct(rs, product))
  {
  }

  /** An id below all of a run's ids is not among the ids of any product's ratings in it. */
  lemma FreshIdAbsentAbove(rs: seq<Rating>, product: Id, id: Id)
    requires IdsAbove(rs, id)
    ensures id !in Ids(OfProduct(rs, product))
  {
  }

  /** In increasing ids, the id at `i` occurs neither before nor after `i`. */
  lemma IdOnlyAt(rs: seq<Rating>, i: nat, product: Id)
    requires i < |rs| && Increasing(rs)
    ensures rs[i].id !in Ids(OfProduct(rs[..i], product))
    ensures rs[i].id !in Ids(OfProduct(rs[i + 1..], product))
  {
    assert IdsBelow(rs[..i], rs[i].id);
    FreshIdAbsent(rs[..i], product, rs[i].id);
    assert IdsAbove(rs[i + 1..], rs[i].id);
    FreshIdAbsentAbove(rs[i + 1..], product, rs[i].id);
  }

  /** The ids of two runs are the ids of each. */
  lemma IdsAppend(a: seq<Rating>, b: seq<Rating>)
    ensures Ids(a + b) == Ids(a) + Ids(b)
  {
    assert |Ids(a + b)| == |Ids(a) + Ids(b)|;
    forall k | 0 <= k < |a + b| ensures Ids(a + b)[k] == (Ids(a) + Ids(b))[k] {
      if k < |a| {
        assert (a + b)[k] == a[k];
      } else {
        assert (a + b)[k] == b[k - |a|];
      }
    }
  }

  /** The ratings of `product` in `a + [x] + b` are those in `a`, then `x` if it is one, then
      those in `b`. */
  lemma OfProductAround(a: seq<Rating>, x: Rating, b: seq<Rating>, product: Id)
    ensures OfProduct(a + [x] + b, product)
         == OfProduct(a, product) + (if x.product == product then [x] else []) + OfProduct(b, product)
  {
    OfProductAppend(a + [x], b, product);
    OfProductAppend(a, [x], product);
    assert [x][..0] == [];
  }

  /** Replacing one rating by another with the same id and product changes no product's ids,
      and changes the selection of no other product. */
  lemma ReplaceKeepsOthers(rs: seq<Rating>, i: nat, y: Rating, product: Id)
    requires i < |rs| && y.id == rs[i].id && y.product == rs[i].product
    ensures Ids(OfProduct(rs[i := y], product)) == Ids(OfProduct(rs, product))
    ensures product != y.product ==> OfProduct(rs[i := y], product) == OfProduct(rs, product)
  {
    var a, x, b := rs[..i], rs[i], rs[i + 1..];
    assert rs == a + [x] + b;
    assert rs[i := y] == a + [y] + b;
    OfProductAround(a, x, b, product);
    OfProductAround(a, y, b, product);
    if product == y.product {
      var pa, pb := OfProduct(a, product), OfProduct(b, product);
      IdsAppend(pa + [x], pb);
      IdsAppend(pa, [x]);
      IdsAppend(pa + [y], pb);
      IdsAppend(pa, [y]);
    }
  }

  /** Pulling `x` from a list where it occurs at most once, in the middle, leaves the rest. */
  lemma PullAround(s: seq<Id>, mid: seq<Id>, t: seq<Id>, x: Id)
    requires x !in s && x !in t && (mid == [] || mid == [x])
    ensures Pull(s + mid + t, x) == s + t
  {
    if mid == [] {
      assert s + mid + t == s + t;
      PullConcat(s, t, x);
    } else {
      PullConcat(s + mid, t, x);
      PullConcat(s, mid, x);
      assert mid[1..] == [];
    }
  }

  /** Removing the rating at `i` changes the selection of no other product. */
  lemma RemoveKeepsOthers(rs: seq<Rating>, i: nat, product: Id)
    requires i < |rs| && product != rs[i].product
    ensures OfProduct(rs[..i] + rs[i + 1..], product) == OfProduct(rs, product)
  {
    var a, x, b := rs[..i], rs[i], rs[i + 1..];
    assert rs == a + [x] + b;
    OfProductAround(a, x, b, product);
    OfProductAppend(a, b, product);
  }

  /** Removing the rating at `i` pulls its id from its product's ids. */
  lemma RemoveAt(rs: seq<Rating>, i: nat, product: Id)
    requires i < |rs| && Increasing(rs)
    ensures Ids(OfProduct(rs[..i] + rs[i + 1..], product)) == Pull(Ids(OfProduct(rs, product)), rs[i].id)
  {
    var a, x, b := rs[..i], rs[i], rs[i + 1..];
    assert rs == a + [x] + b;
    OfProductAround(a, x, b, product);
    OfProductAppend(a, b, product);
    var pa, pb := OfProduct(a, product), OfProduct(b, product);
    var mid := if x.product == product then [x] else [];
    IdsAppend(pa + mid, pb);
    IdsAppend(pa, mid);
    IdsAppend(pa, pb);
    assert Ids(mid) == [] || Ids(mid) == [x.id];
    IdOnlyAt(rs, i, product);
    PullAround(Ids(pa), Ids(mid), Ids(pb), x.id);
  }

  /** `findByIdAndUpdate(product, { $push: { ratings: id } })`: the id appended to the
      product's ratings; an unknown product is left alone. */
  function Pushed(products: map<Id, ProductRatings>, product: Id, id: Id): (r: map<Id, ProductRatings>)
    ensures r.Keys == products.Keys
    ensures product in products ==> r[product] == products[product].(ratings := products[product].ratings + [id])
    ensures forall q | q in products && q != product :: r[q] == products[q]
  {
    if product in products then products[product := products[product].(ratings := products[product].ratings + [id])]
    else products
  }

  /** `findByIdAndUpdate(productId, { $pull: { ratings: id } })`: every occurrence of the id
      removed from the product's ratings; an unknown product is left alone. */
  function Pulled(products: map<Id, ProductRatings>, product: Id, id: Id): (r: map<Id, ProductRatings>)
    ensures r.Keys == products.Keys
    ensures product in products ==> r[product] == products[product].(ratings := Pull(products[product].ratings, id))
    ensures forall q | q in products && q != product :: r[q] == products[q]
  {
    if product in products then products[product := products[product].(ratings := Pull(products[product].ratings, id))]
    else products
  }

  /** What `updateProductAverageRating(product)` leaves: the product's average taken over
      `ratings`; an unknown product is left alone. */
  function Recomputed(products: map<Id, ProductRatings>, product: Id, ratings: seq<Rating>): (r: map<Id, ProductRatings>)
    ensures r.Keys == products.Keys
    ensures product in products ==> r[product] == products[product].(avgRating := Aggregate(ratings, product).avgRating)
    ensures forall q | q in products && q != product :: r[q] == products[q]
  {
    if product in products then products[product := products[product].(avgRating := Average(OfProduct(ratings, product)))]
    else products
  }

  /** Appending a rating, pushing its id onto its product's ratings and recomputing that
      product's average keeps every product in agreement. */
  lemma CreateKeepsAgreement(ratings: seq<Rating>, products: map<Id, ProductRatings>, x: Rating)
    requires Agrees(ratings, products)
    ensures Agrees(ratings + [x], Recomputed(Pushed(products, x.product, x.id), x.product, ratings + [x]))
  {
    var after := ratings + [x];
    forall q | q in products
      ensures q != x.product ==> products[q] == Aggregate(after, q)
      ensures q == x.product ==> products[q].ratings + [x.id] == Aggregate(after, q).ratings
    {
      OfProductAppend(ratings, [x], q);
      assert OfProduct([x], q) == (if x.product == q then [x] else []);
      if x.product == q {
        IdsAppend(OfProduct(ratings, q), [x]);
      }
    }
  }

  /** Storing a fresh, valid rating by a user who has not rated its product, with the product
      side effects of `createRating`, keeps the collections consistent. */
  lemma CreateKeepsConsistent(ratings: seq<Rating>, products: map<Id, ProductRatings>, nextId: Id, x: Rating)
    requires Consistent(ratings, products, nextId)
    requires x.id == nextId && ValidValue(Some(x.value)) && ValidComment(x.comment)
    requires !Rated(ratings, x.user, Some(x.product))
    ensures Consistent(ratings + [x], Recomputed(Pushed(products, x.product, x.id), x.product, ratings + [x]), nextId + 1)
  {
    CreateKeepsAgreement(ratings, products, x);
    var after := ratings + [x];
    forall i, j | 0 <= i < j < |after| ensures after[i].user != after[j].user || after[i].product != after[j].product {
      if j == |ratings| {
        assert after[i] == ratings[i];
      }
    }
  }

  /** Replacing a rating by one with the same id and product and recomputing that product's
      average keeps every product in agreement. */
  lemma UpdateKeepsAgreement(ratings: seq<Rating>, products: map<Id, ProductRatings>, i: nat, y: Rating)
    requires Agrees(ratings, products)
    requires i < |ratings| && y.id == ratings[i].id && y.product == ratings[i].product
    ensures Agrees(ratings[i := y], Recomputed(products, y.product, ratings[i := y]))
  {
    forall q | q in products
      ensures Ids(OfProduct(ratings[i := y], q)) == Ids(OfProduct(ratings, q))
      ensures q != y.product ==> OfProduct(ratings[i := y], q) == OfProduct(ratings, q)
    {
      ReplaceKeepsOthers(ratings, i, y, q);
    }
  }

  /** Changing the value and comment of a rating to valid ones, with the product side effects
      of `updateRating`, keeps the collections consistent. */
  lemma UpdateKeepsConsistent(ratings: seq<Rating>, products: map<Id, ProductRatings>, nextId: Id, i: nat, y: Rating)
    requires Consistent(ratings, products, nextId)
    requires i < |ratings| && y.id == ratings[i].id && y.product == ratings[i].product && y.user == ratings[i].user
    requires ValidValue(Some(y.value)) && ValidComment(y.comment)
    ensures Consistent(ratings[i := y], Recomputed(products, y.product, ratings[i := y]), nextId)
  {
    UpdateKeepsAgreement(ratings, products, i, y);
  }

  /** Removing a rating, pulling its id from its product's ratings and recomputing that
      product's average keeps every product in agreement. */
  lemma DeleteKeepsAgreement(ratings: seq<Rating>, products: map<Id, ProductRatings>, i: nat)
    requires Agrees(ratings, products) && Increasing(ratings)
    requires i < |ratings|
    ensures var after := ratings[..i] + ratings[i + 1..];
      Agrees(after, Recomputed(Pulled(products, ratings[i].product, ratings[i].id), ratings[i].product, after))
  {
    var after := ratings[..i] + ratings[i + 1..];
    forall q | q in products
      ensures Ids(OfProduct(after, q)) == Pull(Ids(OfProduct(ratings, q)), ratings[i].id)
      ensures q != ratings[i].product ==> OfProduct(after, q) == OfProduct(ratings, q)
    {
      RemoveAt(ratings, i, q);
      if q != ratings[i].product {
        RemoveKeepsOthers(ratings, i, q);
      }
    }
  }

  /** Removing a rating, with the product side effects of `deleteRating`, keeps the
      collections consistent. */
  lemma DeleteKeepsConsistent(ratings: seq<Rating>, products: map<Id, ProductRatings>, nextId: Id, i: nat)
    requires Consistent(ratings, products, nextId)
    requires i < |ratings|
    ensures var after := ratings[..i] + ratings[i + 1..];
      Consistent(after, Recomputed(Pulled(products, ratings[i].product, ratings[i].id), ratings[i].product, after), nextId)
  {
    DeleteKeepsAgreement(ratings, products, i);
    var after := ratings[..i] + ratings[i + 1..];
    forall j, k | 0 <= j < k < |after| ensures after[j].id < after[k].id && (after[j].user != after[k].user || after[j].product != after[k].product) {
      var j', k' := if j < i then j else j + 1, if k < i then k else k + 1;
      assert after[j] == ratings[j'] && after[k] == ratings[k'];
    }
    forall j | 0 <= j < |after| ensures after[j] == ratings[if j < i then j else j + 1] {
    }
  }

  /** `updateProductAverageRating(productId)`: stores the average of the product's ratings as
      its `avgRating`; an unknown product is left alone. */
  method UpdateProductAverageRating(store: RatingStore, product: Id)
    modifies store
    ensures store.ratings == old(store.ratings) && store.nextId == old(store.nextId)
    ensures store.products == Recomputed(old(store.products), product, store.ratings)
  {
    var mine := OfProduct(store.ratings, product);
    if product in store.products {
      var entry := store.products[product];
      if |mine| == 0 {
        store.products := store.products[product := entry.(avgRating := 0.0)];
      } else {
        var avg := Sum(mine) / (|mine| as real);
        store.products := store.products[product := entry.(avgRating := avg)];
      }
    }
  }

  /** `createRating`: a user who already rated the product is refused, then a rating the
      schema rejects is a server error, both with nothing changed; otherwise the rating is
      stored, its id appended to the product's ratings and the product's average recomputed. */
  method CreateRating(store: RatingStore, userId: Id, value: Option<real>, comment: Option<string>, product: Option<Id>)
    returns (r: Result<Rating>)
    requires store.Valid()
    modifies store
    ensures store.Valid()
    ensures Rated(old(store.ratings), userId, product) ==> r == Err(AlreadyRated)
    ensures !Rated(old(store.ratings), userId, product) && (product.None? || !ValidValue(value) || !ValidComment(comment)) ==>
      r == Err(CreateFailed)
    ensures r.Ok? <==>
      !Rated(old(store.ratings), userId, product) && product.Some? && ValidValue(value) && ValidComment(comment)
    ensures r.Err? ==>
      store.ratings == old(store.ratings) && store.products == old(store.products) && store.nextId == old(store.nextId)
    ensures r.Ok? ==>
      && r.value == Rating(old(store.nextId), userId, product.value, value.value, comment)
      && store.ratings == old(store.ratings) + [r.value]
      && store.nextId == old(store.nextId) + 1
      && store.products == Recomputed(Pushed(old(store.products), product.value, r.value.id), product.value, store.ratings)
  {
    if Rated(store.ratings, userId, product) {
      return Err(AlreadyRated);
    }
    if product.None? || !ValidValue(value) || !ValidComment(comment) {
      return Err(CreateFailed);
    }
    var x := Rating(store.nextId, userId, product.value, value.value, comment);
    ghost var before, prods, next := store.ratings, store.products, store.nextId;
    store.ratings := store.ratings + [x];
    store.nextId := store.nextId + 1;
    store.products := Pushed(store.products, x.product, x.id);
    UpdateProductAverageRating(store, x.product);
    CreateKeepsConsistent(before, prods, next, x);
    r := Ok(x);
  }

  /** `updateRating`: an unknown rating is not found and one by another user is refused; a
      value or comment the schema rejects makes the save fail; in each case nothing changes.
      Otherwise the rating's value and comment are replaced and its product's average
      recomputed. */
  method UpdateRating(store: RatingStore, userId: Id, id: Id, value: Option<real>, comment: Option<string>)
    returns (r: Result<Rating>)
    requires store.Valid()
    modifies store
    ensures store.Valid()
    ensures store.nextId == old(store.nextId)
    ensures FindById(old(store.ratings), id).None? ==> r == Err(RatingNotFound)
    ensures FindById(old(store.ratings), id).Some? ==>
      var i := FindById(old(store.ratings), id).value;
      var x := old(store.ratings)[i];
      && (x.user != userId ==> r == Err(NotAuthor))
      && (x.user == userId && !(ValidValue(value) && ValidComment(comment)) ==> r == Err(SaveFailed))
      && (x.user == userId && ValidValue(value) && ValidComment(comment) ==>
            && r == Ok(x.(value := value.value, comment := comment))
            && store.ratings == old(store.ratings)[i := r.value]
            && store.products == Recomputed(old(store.products), x.product, store.ratings))
    ensures r.Err? ==> store.ratings == old(store.ratings) && store.products == old(store.products)
  {
    var found := FindById(store.ratings, id);
    if found.None? {
      return Err(RatingNotFound);
    }
    var i := found.value;
    var x := store.ratings[i];
    if x.user != userId {
      return Err(NotAuthor);
    }
    if !(ValidValue(value) && ValidComment(comment)) {
      return Err(SaveFailed);
    }
    var y := x.(value := value.value, comment := comment);
    ghost var before, prods := store.ratings, store.products;
    store.ratings := store.ratings[i := y];
    UpdateProductAverageRating(store, x.product);
    UpdateKeepsConsistent(before, prods, store.nextId, i, y);
    r := Ok(y);
  }

  /** `deleteRating` from its lookup on: an unknown rating is not found and one by another user
      is refused, with nothing changed; otherwise the rating is removed, its id pulled from its
      product's ratings and the product's average recomputed. */
  method DeleteRating(store: RatingStore, userId: Id, id: Id) returns (r: Result<Rating>)
    requires store.Valid()
    modifies store
    ensures store.Valid()
    ensures store.nextId == old(store.nextId)
    ensures FindById(old(store.ratings), id).None? ==> r == Err(RatingNotFound)
    ensures FindById(old(store.ratings), id).Some? ==>
      var i := FindById(old(store.ratings), id).value;
      var x := old(store.ratings)[i];
      && (x.user != userId ==> r == Err(NotAuthor))
      && (x.user == userId ==>
            && r == Ok(x)
            && store.ratings == old(store.ratings)[..i] + old(store.ratings)[i + 1..]
            && store.products == Recomputed(Pulled(old(store.products), x.product, id), x.product, store.ratings))
    ensures r.Err? ==> store.ratings == old(store.ratings) && store.products == old(store.products)
  {
    var found := FindById(store.ratings, id);
    if found.None? {
      return Err(RatingNotFound);
    }
    var i := found.value;
    var x := store.ratings[i];
    if x.user != userId {
      return Err(NotAuthor);
    }
    ghost var before, prods := store.ratings, store.products;
    store.ratings := store.ratings[..i] + store.ratings[i + 1..];
    store.products := Pulled(store.products, x.product, id);
    UpdateProductAverageRating(store, x.product);
    DeleteKeepsConsistent(before, prods, store.nextId, i);
    r := Ok(x);
  }
}
