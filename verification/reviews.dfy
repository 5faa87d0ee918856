/** The review handler: validate the rating, check that the requester
    bought the item, record the review, then recompute the product's review
    count and average from all of its reviews. */
module Reviews {
  import opened Results
  import opened Models
  import opened Tables
  import opened Cart

  /** What a review contributes to the review count of `product`. */
  function CountTerm(rv: Review, product: ProductId): int {
    if rv.product == product then 1 else 0
  }

  /** What a review contributes to the rating sum of `product`. */
  function RatingTerm(rv: Review, product: ProductId): int {
    if rv.product == product then rv.rating else 0
  }

  /** The number of reviews of `product` (a `count()` query). */
  function ReviewCount(reviews: seq<Review>, product: ProductId): (n: nat)
  {
    SumNonNegative(reviews, (rv: Review) => CountTerm(rv, product));
    Sum(reviews, (rv: Review) => CountTerm(rv, product))
  }

  /** The sum of the ratings of `product`. */
  function RatingSum(reviews: seq<Review>, product: ProductId): int {
    Sum(reviews, (rv: Review) => RatingTerm(rv, product))
  }

  /** The exact mean of the ratings of `product`. */
  function RatingMean(reviews: seq<Review>, product: ProductId): Mean {
    Mean(RatingSum(reviews, product), ReviewCount(reviews, product))
  }

  /** The product's stored aggregates agree with its reviews. */
  predicate AggregatesMatch(s: Store, product: ProductId) {
    product in s.products ==>
      && s.products[product].totalReviews == ReviewCount(s.reviews, product)
      && s.products[product].averageRating == RatingMean(s.reviews, product)
  }

  /** The user who placed the order an item belongs to. */
  function ItemOwner(s: Store, itemId: ItemId): UserId
    requires WellFormed(s) && itemId < |s.items|
  {
    s.orders[s.items[itemId].order].user
  }

  /** The review handler. The checks run in this order: the rating lies in
      1..5 (400), the item exists (404), the requester placed the item's order
      (403), the product exists (404). The item's product is not compared with
      the product reviewed. On success a review is appended and the product's
      count and average are recomputed from all of its reviews; an absent
      comment is stored as the empty text. */
  function SubmitReview(s: Store, user: UserId, productId: ProductId, itemId: ItemId, rating: int,
                        comment: Option<string>): (r: Response<()>)
    requires WellFormed(s)
    ensures r.reply.Err? ==> r.store == s
    ensures r.reply == Err(InvalidArgument) <==> !(1 <= rating <= 5)
    ensures r.reply == Err(Forbidden) <==>
      1 <= rating <= 5 && itemId < |s.items| && ItemOwner(s, itemId) != user
    ensures r.reply == Err(NotFound) <==>
      1 <= rating <= 5 && (itemId >= |s.items| || (ItemOwner(s, itemId) == user && productId !in s.products))
    ensures r.reply.Ok? ==> WellFormed(r.store)
    ensures r.reply.Ok? ==>
      && |r.store.reviews| == |s.reviews| + 1
      && (forall i :: 0 <= i < |s.reviews| ==> r.store.reviews[i] == s.reviews[i])
      && r.store.reviews[|s.reviews|] == Review(user, productId, itemId, rating, Some(comment.GetOr("")))
    ensures r.reply.Ok? ==> AggregatesMatch(r.store, productId)
    ensures r.reply.Ok? ==>
      && r.store.orders == s.orders && r.store.items == s.items
      && r.store.products.Keys == s.products.Keys
      && (forall p :: p in s.products && p != productId ==> r.store.products[p] == s.products[p])
    ensures r.reply.Ok? ==> var p := s.products[productId]; var p' := r.store.products[productId];
      && p'.name == p.name && p'.description == p.description && p'.price == p.price
      && p'.stock == p.stock && p'.category == p.category
  {
    if rating < 1 || rating > 5 then Response(s, Err(InvalidArgument))
    else if itemId >= |s.items| then Response(s, Err(NotFound))
    else if ItemOwner(s, itemId) != user then Response(s, Err(Forbidden))
    else if productId !in s.products then Response(s, Err(NotFound))
    else
      var reviews := s.reviews + [Review(user, productId, itemId, rating, Some(comment.GetOr("")))];
      var product := s.products[productId];
      var count := ReviewCount(reviews, productId);
      var product' := product.(totalReviews := count, averageRating := RatingMean(reviews, productId));
      Response(s.(products := s.products[productId := product'], reviews := reviews), Ok(()))
  }

  // ---------------------------------------------------------------------
  // Properties of the handler

  /** A new review raises its product's count by one and rating sum by its
      rating, and leaves every other product's count and sum alone. */
  lemma SubmitReviewIncrements(s: Store, user: UserId, productId: ProductId, itemId: ItemId, rating: int,
                               comment: Option<string>, other: ProductId)
    requires WellFormed(s)
    ensures var r := SubmitReview(s, user, productId, itemId, rating, comment);
      r.reply.Ok? ==>
        && ReviewCount(r.store.reviews, productId) == ReviewCount(s.reviews, productId) + 1
        && RatingSum(r.store.reviews, productId) == RatingSum(s.reviews, productId) + rating
        && (other != productId ==>
              && ReviewCount(r.store.reviews, other) == ReviewCount(s.reviews, other)
              && RatingSum(r.store.reviews, other) == RatingSum(s.reviews, other))
  {
    var r := SubmitReview(s, user, productId, itemId, rating, comment);
    if r.reply.Ok? {
      var rv := r.store.reviews[|s.reviews|];
      assert r.store.reviews == s.reviews + [rv];
      SumAppend(s.reviews, rv, (x: Review) => CountTerm(x, productId));
      SumAppend(s.reviews, rv, (x: Review) => RatingTerm(x, productId));
      SumAppend(s.reviews, rv, (x: Review) => CountTerm(x, other));
      SumAppend(s.reviews, rv, (x: Review) => RatingTerm(x, other));
    }
  }

  /** The full recompute agrees with a running count and sum: when the
      product's aggregates matched its reviews before, the new count is the
      old count plus one and the new mean adds the rating to the old sum. */
  lemma SubmitReviewRunningAggregates(s: Store, user: UserId, productId: ProductId, itemId: ItemId, rating: int,
                                      comment: Option<string>)
    requires WellFormed(s) && AggregatesMatch(s, productId)
    ensures var r := SubmitReview(s, user, productId, itemId, rating, comment);
      r.reply.Ok? ==> var before := s.products[productId]; var after := r.store.products[productId];
        && after.totalReviews == before.totalReviews + 1
        && after.averageRating == Mean(before.averageRating.sum + rating, before.averageRating.count + 1)
  {
    SubmitReviewIncrements(s, user, productId, itemId, rating, comment, productId);
  }

  /** A submission keeps every product's aggregates in agreement with its
      reviews. */
  lemma SubmitReviewKeepsAggregates(s: Store, user: UserId, productId: ProductId, itemId: ItemId, rating: int,
                                    comment: Option<string>, other: ProductId)
    requires WellFormed(s) && AggregatesMatch(s, other)
    ensures AggregatesMatch(SubmitReview(s, user, productId, itemId, rating, comment).store, other)
  {
    SubmitReviewIncrements(s, user, productId, itemId, rating, comment, other);
  }

  /** When every stored rating lies in 1..5, the average a successful
      submission stores lies between 1 and 5. */
  lemma SubmitReviewAverageInRange(s: Store, user: UserId, productId: ProductId, itemId: ItemId, rating: int,
                                   comment: Option<string>)
    requires WellFormed(s) && RatingsInRange(s)
    ensures var r := SubmitReview(s, user, productId, itemId, rating, comment);
      r.reply.Ok? ==>
        && r.store.products[productId].totalReviews >= 1
        && 1.0 <= r.store.products[productId].averageRating.Value() <= 5.0
  {
    var r := SubmitReview(s, user, productId, itemId, rating, comment);
    if r.reply.Ok? {
      var reviews := r.store.reviews;
      SubmitReviewIncrements(s, user, productId, itemId, rating, comment, productId);
      SumBounds(reviews, (x: Review) => RatingTerm(x, productId), (x: Review) => CountTerm(x, productId), 1, 5);
      var m := r.store.products[productId].averageRating;
      MeanBounds(m.sum, m.count);
    }
  }

  /** A mean of `count` ratings summing to between `count` and `5 * count`
      lies between 1 and 5. */
  lemma MeanBounds(sum: int, count: nat)
    requires count >= 1 && count <= sum <= 5 * count
    ensures 1.0 <= Mean(sum, count).Value() <= 5.0
  {
    var c := count as real;
    var v := sum as real / c;
    assert v * c == sum as real;
    assert (v - 1.0) * c == sum as real - c;
    assert (5.0 - v) * c == 5.0 * c - sum as real;
    SignOfProduct(v - 1.0, c);
    SignOfProduct(5.0 - v, c);
  }

  /** A product with a positive factor is non-negative only when the other
      factor is. */
  lemma SignOfProduct(x: real, c: real)
    requires c > 0.0
    ensures x * c >= 0.0 ==> x >= 0.0
  {
    if x < 0.0 {
      assert x * c < 0.0 * c;
    }
  }

  /** A submission preserves the store invariant. */
  lemma SubmitReviewPreservesInvariant(s: Store, user: UserId, productId: ProductId, itemId: ItemId, rating: int,
                                       comment: Option<string>)
    requires Invariant(s)
    ensures Invariant(SubmitReview(s, user, productId, itemId, rating, comment).store)
  {
  }

  /** Submitting the same review twice is not idempotent: both succeed and
      the product's count grows by two. */
  lemma SubmitReviewTwice(s: Store, user: UserId, productId: ProductId, itemId: ItemId, rating: int,
                          comment: Option<string>)
    requires WellFormed(s) && 1 <= rating <= 5 && itemId < |s.items| && ItemOwner(s, itemId) == user
    requires productId in s.products
    ensures var r1 := SubmitReview(s, user, productId, itemId, rating, comment);
      var r2 := SubmitReview(r1.store, user, productId, itemId, rating, comment);
      && r1.reply.Ok? && r2.reply.Ok?
      && |r2.store.reviews| == |s.reviews| + 2
      && r2.store.products[productId].totalReviews == ReviewCount(s.reviews, productId) + 2
  {
    var r1 := SubmitReview(s, user, productId, itemId, rating, comment);
    SubmitReviewIncrements(s, user, productId, itemId, rating, comment, productId);
    SubmitReviewIncrements(r1.store, user, productId, itemId, rating, comment, productId);
  }

  /** Three buyers rating a product without reviews 4, 5 and 3 leave it with
      three reviews and an average of exactly 4. */
  lemma ThreeRatingsAverageFour(s: Store, productId: ProductId, u1: UserId, u2: UserId, u3: UserId,
                                i1: ItemId, i2: ItemId, i3: ItemId)
    requires WellFormed(s) && productId in s.products && ReviewCount(s.reviews, productId) == 0
    requires i1 < |s.items| && i2 < |s.items| && i3 < |s.items|
    requires ItemOwner(s, i1) == u1 && ItemOwner(s, i2) == u2 && ItemOwner(s, i3) == u3
    ensures var s1 := SubmitReview(s, u1, productId, i1, 4, None).store;
      var s2 := SubmitReview(s1, u2, productId, i2, 5, None).store;
      var s3 := SubmitReview(s2, u3, productId, i3, 3, None).store;
      && s3.products[productId].totalReviews == 3
      && s3.products[productId].averageRating.Value() == 4.0
  {
    var s1 := SubmitReview(s, u1, productId, i1, 4, None).store;
    var s2 := SubmitReview(s1, u2, productId, i2, 5, None).store;
    NoReviewsNoRatings(s.reviews, productId);
    SubmitReviewIncrements(s, u1, productId, i1, 4, None, productId);
    SubmitReviewIncrements(s1, u2, productId, i2, 5, None, productId);
    SubmitReviewIncrements(s2, u3, productId, i3, 3, None, productId);
  }

  /** The item is proof of purchase of its order only: a buyer may review a
      product through an item of theirs for a different product, and the
      review is recorded against the product named in the request. */
  lemma ReviewItemProductNotChecked(s: Store, user: UserId, productId: ProductId, itemId: ItemId, rating: int,
                                    comment: Option<string>)
    requires WellFormed(s) && 1 <= rating <= 5 && itemId < |s.items| && ItemOwner(s, itemId) == user
    requires productId in s.products && s.items[itemId].product != productId
    ensures var r := SubmitReview(s, user, productId, itemId, rating, comment);
      && r.reply.Ok?
      && r.store.reviews[|s.reviews|].product == productId
      && r.store.items[r.store.reviews[|s.reviews|].item].product != productId
  {
  }

  /** A product nobody has reviewed has a rating sum of zero. */
  lemma {:induction false} NoReviewsNoRatings(reviews: seq<Review>, product: ProductId)
    ensures ReviewCount(reviews, product) == 0 ==> RatingSum(reviews, product) == 0
  {
    if |reviews| > 0 {
      var init := reviews[..|reviews| - 1];
      NoReviewsNoRatings(init, product);
      assert ReviewCount(init, product) >= 0;
    }
  }

  /** A product added to the catalogue starts with aggregates that agree
      with its reviews: it has none, and their mean reads as the column
      default 0. */
  lemma NewProductAgrees(s: Store, id: ProductId, name: string, description: string, price: Cents, stock: int,
                         category: Option<CategoryId>)
    requires WellFormed(s) && id !in s.products
    ensures AggregatesMatch(s.(products := s.products[id := NewProduct(name, description, price, stock, category)]), id)
  {
    SumZero(s.reviews, (rv: Review) => CountTerm(rv, id));
    SumZero(s.reviews, (rv: Review) => RatingTerm(rv, id));
  }

  /** A review keeps every order's total equal to its line sum minus its
      discount. */
  lemma SubmitReviewKeepsTotals(s: Store, user: UserId, productId: ProductId, itemId: ItemId, rating: int,
                                comment: Option<string>)
    requires WellFormed(s) && TotalsMatch(s)
    ensures TotalsMatch(SubmitReview(s, user, productId, itemId, rating, comment).store)
  {
  }
}
