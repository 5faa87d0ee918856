/** The database the handlers act on, as one immutable value.

    Orders, order items and reviews are only ever appended by the handlers,
    so each of those tables is a sequence whose positions are the rows'
    auto-increment ids. Products are only read and updated, so they are a
    map from id to record. */
module Tables {
  import opened Results
  import opened Models

  datatype Store = Store(
    products: map<ProductId, Product>,
    orders: seq<Order>,
    items: seq<OrderItem>,
    reviews: seq<Review>)

  /** What a handler leaves behind: the new store and its reply. */
  datatype Response<+T> = Response(store: Store, reply: Result<T>)

  /** Referential integrity, which the database's foreign keys guarantee:
      every item belongs to an existing order and names an existing product,
      every review names an existing item and an existing product. */
  predicate WellFormed(s: Store) {
    && (forall i :: 0 <= i < |s.items| ==> s.items[i].order < |s.orders| && s.items[i].product in s.products)
    && (forall i :: 0 <= i < |s.reviews| ==> s.reviews[i].item < |s.items| && s.reviews[i].product in s.products)
  }

  /** A user has at most one order in status PROCESSING: the shopping cart. */
  predicate OneOpenOrderPerUser(orders: seq<Order>) {
    forall i, j :: 0 <= i < j < |orders| && orders[i].status == Processing && orders[j].status == Processing
      ==> orders[i].user != orders[j].user
  }

  /** An order has at most one item per product. */
  predicate OneLinePerProduct(items: seq<OrderItem>) {
    forall i, j :: 0 <= i < j < |items| && items[i].order == items[j].order
      ==> items[i].product != items[j].product
  }

  /** Every stored rating lies in 1..5. */
  predicate RatingsInRange(s: Store) {
    forall i :: 0 <= i < |s.reviews| ==> 1 <= s.reviews[i].rating <= 5
  }

  /** The invariant every handler preserves. */
  predicate Invariant(s: Store) {
    WellFormed(s) && OneOpenOrderPerUser(s.orders) && OneLinePerProduct(s.items) && RatingsInRange(s)
  }

  // ---------------------------------------------------------------------
  // Filtered queries

  /** The ids of the rows of `t` that satisfy `p`, in increasing order
      (a `filter(...)` query). */
  function Select<T>(t: seq<T>, p: T -> bool): (ids: seq<nat>)
    ensures forall i :: 0 <= i < |ids| ==> ids[i] < |t| && p(t[ids[i]])
    ensures forall k :: 0 <= k < |t| && p(t[k]) ==> k in ids
  {
    if |t| == 0 then []
    else Select(t[..|t| - 1], p) + (if p(t[|t| - 1]) then [|t| - 1] else [])
  }

  /** Appending a row extends a query's answer by that row's id exactly when
      the row satisfies `p`. */
  lemma SelectAppend<T>(t: seq<T>, x: T, p: T -> bool)
    ensures Select(t + [x], p) == Select(t, p) + (if p(x) then [|t|] else [])
  {
    assert (t + [x])[..|t|] == t;
  }

  /** Two tables whose rows agree on `p` row by row answer a query alike. */
  lemma {:induction false} SelectSame<T>(t: seq<T>, u: seq<T>, p: T -> bool)
    requires |t| == |u|
    requires forall i :: 0 <= i < |t| ==> p(t[i]) == p(u[i])
    ensures Select(t, p) == Select(u, p)
  {
    if |t| > 0 {
      SelectSame(t[..|t| - 1], u[..|u| - 1], p);
    }
  }

  /** When no row satisfies `p`, a query returns nothing. */
  lemma {:induction false} SelectNone<T>(t: seq<T>, p: T -> bool)
    requires forall i :: 0 <= i < |t| ==> !p(t[i])
    ensures Select(t, p) == []
  {
    if |t| > 0 {
      SelectNone(t[..|t| - 1], p);
    }
  }

  /** When no two rows satisfy `p`, a query returns at most one id. */
  lemma {:induction false} SelectAtMostOne<T>(t: seq<T>, p: T -> bool)
    requires forall i, j :: 0 <= i < j < |t| && p(t[i]) ==> !p(t[j])
    ensures |Select(t, p)| <= 1
  {
    if |t| > 0 {
      var n := |t| - 1;
      SelectAtMostOne(t[..n], p);
      if p(t[n]) {
        SelectNone(t[..n], p);
      }
    }
  }

  // ---------------------------------------------------------------------
  // Sums over a table

  /** The sum of `f` over the rows of `t` (an aggregate query). */
  function Sum<T>(t: seq<T>, f: T -> int): int {
    if |t| == 0 then 0 else Sum(t[..|t| - 1], f) + f(t[|t| - 1])
  }

  /** Appending a row adds its term to the sum. */
  lemma SumAppend<T>(t: seq<T>, x: T, f: T -> int)
    ensures Sum(t + [x], f) == Sum(t, f) + f(x)
  {
    assert (t + [x])[..|t|] == t;
  }

  /** Replacing a row replaces its term in the sum. */
  lemma {:induction false} SumUpdate<T>(t: seq<T>, k: int, x: T, f: T -> int)
    requires 0 <= k < |t|
    ensures Sum(t[k := x], f) == Sum(t, f) - f(t[k]) + f(x)
  {
    var n := |t| - 1;
    if k == n {
      assert t[k := x][..n] == t[..n];
    } else {
      SumUpdate(t[..n], k, x, f);
      assert t[k := x][..n] == t[..n][k := x];
    }
  }

  /** A sum whose terms are all zero is zero. */
  lemma {:induction false} SumZero<T>(t: seq<T>, f: T -> int)
    requires forall i :: 0 <= i < |t| ==> f(t[i]) == 0
    ensures Sum(t, f) == 0
  {
    if |t| > 0 {
      SumZero(t[..|t| - 1], f);
    }
  }

  /** A sum of non-negative terms is non-negative. */
  lemma {:induction false} SumNonNegative<T>(t: seq<T>, f: T -> int)
    requires forall i :: 0 <= i < |t| ==> f(t[i]) >= 0
    ensures Sum(t, f) >= 0
  {
    if |t| > 0 {
      SumNonNegative(t[..|t| - 1], f);
    }
  }

  /** A sum whose terms are bounded by `lo * g` and `hi * g` is bounded by
      `lo` and `hi` times the sum of `g`. */
  lemma {:induction false} SumBounds<T>(t: seq<T>, f: T -> int, g: T -> int, lo: int, hi: int)
    requires forall i :: 0 <= i < |t| ==> lo * g(t[i]) <= f(t[i]) <= hi * g(t[i])
    ensures lo * Sum(t, g) <= Sum(t, f) <= hi * Sum(t, g)
  {
    if |t| > 0 {
      var n := |t| - 1;
      SumBounds(t[..n], f, g, lo, hi);
      assert lo * Sum(t, g) == lo * Sum(t[..n], g) + lo * g(t[n]);
      assert hi * Sum(t, g) == hi * Sum(t[..n], g) + hi * g(t[n]);
    }
  }
}
