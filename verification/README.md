# Shop core: cart, order status and product reviews

This project models the three request handlers of a small Django shop
backend and proves properties of them. The handlers are:

- **add to cart** (`AddToCartView.post`). It finds or creates the user's open
  order, finds or creates the order's line for the product, and adds the
  requested quantity. It then recomputes the order total as the sum of
  price × quantity over the order's lines, minus the discount.
- **update order status** (`UpdateOrderStatusView.post`). A fixed table says
  which group may set each target status.
- **review a product** (`ProductReviewView.post`). It validates the rating,
  checks that the requester bought the order item, records the review, and
  recomputes the product's review count and average from all its reviews.

The handlers work over the records of `app/models.py`: Product, Order (with
its payment-method and status choices and its column defaults), OrderItem
and ProductReview.

The database is an immutable `Tables.Store`:

- products are a map from id to record;
- orders, items and reviews are sequences whose positions are their
  auto-increment ids, since the core only ever appends to these tables.

Each handler is a pure function from a store and the request's fields to a
`Response`. A response holds the new store and either a reply value or an
error. The errors are:

- `NotFound` (404);
- `Forbidden` (403);
- `InvalidArgument` (400);
- `MultipleObjectsReturned`, which Django's `get_or_create` raises when two
  rows match;
- `ConstraintViolation`, which the database raises when a negative value
  is written to an unsigned column.

A failing handler leaves the store unchanged. The two lookup errors are
proved impossible under the store invariant `Tables.Invariant`, for any
quantity (`Cart.AddToCartNoLookupError`). The invariant is foreign-key
integrity, one open order per user, one line per (order, product) pair, and
ratings in 1..5. A second invariant, `Cart.TotalsMatch`, says that every
order's total is the sum of price × quantity over its lines minus its
discount; all three handlers preserve it.

Money is integer cents, because every price column has two decimal places.
A product's average rating is kept as the exact pair (sum of ratings, number
of ratings). `Mean.Value()` reads it as a real number, and an empty mean
reads as 0.

Modules:

- `Results`: option, result and error types.
- `Models`: the records, enumerations and defaults of `app/models.py`.
- `Tables`: the store, its invariant, and the selection and summation over
  tables that model ORM filters and aggregates.
- `Cart`, `OrderStatus` and `Reviews`: the three handlers and their
  properties.

Places where the code's behaviour is modelled as written:

- A quantity of zero is accepted, and so is a negative one as long as the
  line's resulting quantity stays non-negative. The Django handler has no
  guard; only the unsigned quantity column refuses a negative result, and
  under the invariant that is the only way an add of an existing product
  fails (`Cart.AddToCartFailsExactly`).
- The status update never reads the order's current status. Any status can
  be overwritten by anyone allowed to set the target status, including
  statuses that read as final (`UpdateIgnoresCurrentStatus`).
- The review handler does not check that the order item is for the
  reviewed product (`ReviewItemProductNotChecked`).

## Model

| member | source | states |
|---|---|---|
| Models.ParsePaymentMethod | app/models.py:78-82 | a recognised payment-method code decodes to the method with exactly that code; any other code decodes to nothing |
| Models.PaymentMethodChoices | app/models.py:78-82 | decoding a method's stored code gives the method back |
| Models.ParseStatus | app/models.py:84-97 | a recognised status code decodes to the status with exactly that code; any other string decodes to nothing |
| Models.StatusChoices | app/models.py:84-97 | decoding a status's stored code gives the status back, for each of the twelve statuses |
| Models.StatusCodeInjective | app/models.py:84-97 | no two statuses share a stored code |
| Models.NewProduct | app/models.py:46-55 | a new product has zero reviews and a zero average, and keeps the given name, description, price, stock and category |
| Models.NewOrder | app/models.py:99-104 | an omitted discount defaults to 0 and an omitted status to PROCESSING; the tracking code starts null; the other columns are as given |
| Cart.RequestedQuantity | app/views.py:26 | an absent quantity field means 1; a present one is used as sent |
| Cart.OpenOrders | app/views.py:29 | the ids returned are exactly the user's orders in status PROCESSING |
| Cart.LinesOf | app/views.py:31 | the ids returned are exactly the items of the order for the product |
| Cart.CartOrder | app/views.py:29 | a newly created cart is the user's, PROCESSING, totals 0, has discount 0, pays by PIX and has no tracking code |
| Cart.QuantityOfSingleLine | app/views.py:31-34 | with at most one line for the pair, the quantity held is that line's quantity, or 0 without a line |
| Cart.GetOrCreateOpenOrder | app/views.py:29 | it fails with MultipleObjectsReturned exactly when the user has two open orders; it reuses the open order when there is one; otherwise it appends a new cart and returns its id |
| Cart.AccumulateItem | app/views.py:31-34 | it fails with MultipleObjectsReturned exactly when there are two lines for the pair; any other failure is a constraint violation; an existing line keeps its price and a new line is appended with the price given; other items are untouched |
| Cart.AccumulateItemQuantity | app/views.py:31-34 | the add is refused exactly when the held quantity plus the request would be negative; otherwise the pair ends with exactly one line holding the old quantity plus the request |
| Cart.AccumulateItemTotal | app/views.py:31-36 | the order's line sum grows by the added quantity times the line's price |
| Cart.AccumulateItemSnapshot | app/views.py:31-36 | the line left behind has the given price when new and its earlier price otherwise; the line sum grows by the added quantity at that price |
| Cart.ItemsTotal | app/views.py:36 | the sum of price × quantity over the items of an order (the list comprehension the handler sums) |
| Cart.NewCartTotal | app/views.py:29-36 | the first line of a new order makes its line sum the requested quantity times the product's price |
| Cart.AddToCart | app/views.py:23-39 | 404 exactly when the product is missing; failures change nothing; on success the reply is a PROCESSING order of the user, its total is the sum of price × quantity over its lines minus its discount, the pair has exactly one line, its quantity grew by the request, and products and reviews are untouched |
| Cart.AddToCartReusesOpenOrder | app/views.py:29 | a user with an open order gets that order's id back and no order is created |
| Cart.AddToCartCreatesOrder | app/views.py:29-37 | a user without an open order gets a new order appended: PROCESSING, PIX, discount 0, total equal to the request times the product's price |
| Cart.AddToCartPriceSnapshot | app/views.py:31-36 | the new total is the old line sum plus the request at the line's price, minus the discount; that price is the product's current price for a new line and the earlier snapshot for an existing one |
| Cart.AddToCartFrame | app/views.py:29-37 | a reused cart keeps its user, status, discount, payment method and tracking code, and only its total changes; every other order is unchanged; every existing item keeps its order, product and price, and only the cart's line for the product changes its quantity |
| Cart.AddToCartOrdersFrame | app/views.py:29-37 | a reused cart changes only its total, and every other order is unchanged |
| Cart.AddToCartItemsFrame | app/views.py:31-34 | every existing item keeps its order, product and price, and only the cart's line for the product changes |
| Cart.GetOrCreateKeepsOrders | app/views.py:29 | find-or-create keeps every existing order as it was |
| Cart.GetOrCreateKeepsOneOpenOrder | app/views.py:29 | find-or-create keeps at most one PROCESSING order per user |
| Cart.AccumulateKeepsOneLine | app/views.py:31 | find-or-create keeps at most one line per (order, product) |
| Cart.AddToCartKeepsOneOpenOrder | app/views.py:29-37 | after an add every user still has at most one PROCESSING order |
| Cart.AddToCartKeepsOneLine | app/views.py:31-34 | after an add every order still has at most one line per product |
| Cart.AddToCartPreservesInvariant | app/views.py:23-39 | an add preserves the store invariant |
| Cart.AddToCartSucceeds | app/views.py:27-37 | under the invariant, adding a non-negative quantity of an existing product always succeeds |
| Cart.AddToCartNoLookupError | app/views.py:29-31 | under the invariant an add never fails with MultipleObjectsReturned, whatever the quantity |
| Cart.AddToCartFailsExactly | app/views.py:27-37 | under the invariant, an add of an existing product fails exactly when the cart's held quantity plus the request is negative, and the failure is the constraint violation of the unsigned column |
| Cart.AccumulateKeepsOtherQuantities | app/views.py:31-34 | every other (order, product) pair keeps its quantity |
| Cart.AccumulateKeepsOtherLines | app/views.py:31-34 | every other (order, product) pair keeps its lines |
| Cart.AddToCartKeepsOtherPairs | app/views.py:31-34 | after an add, every other (order, product) pair has the same lines and quantity |
| Cart.AccumulateKeepsOtherTotals | app/views.py:31-34 | an add leaves the line sum of every other order unchanged |
| Cart.AddToCartKeepsTotals | app/views.py:29-37 | if every order's total was its line sum minus its discount before an add, that still holds for every order after it |
| Cart.AddToCartTwice | app/views.py:29-34 | two adds of quantities q1 and q2 of one product both succeed, use the same order, and leave one line whose quantity grew by q1 + q2 |
| Cart.AddToCartTwoProducts | app/views.py:29-36 | a user without a cart who adds two different products gets one new order holding one line per product with the requested quantities |
| OrderStatus.Authorize | app/views.py:52-62 | a change that is allowed writes the status whose code was sent |
| OrderStatus.AuthorizeMatchesTable | app/views.py:55-62 | a change to a status is allowed exactly when its code was sent and the requester is in the group of the status's required role |
| OrderStatus.AuthorizeNeverProcessingOrCanceled | app/views.py:55-62 | no group may set PROCESSING or CANCELED |
| OrderStatus.UpdateOrderStatus | app/views.py:46-69 | 404 exactly for an unknown order; 403 exactly when the order exists but the change is not allowed; failures change nothing; success writes the status sent into that order only and leaves its other columns and every other table unchanged |
| OrderStatus.UpdateIgnoresCurrentStatus | app/views.py:49-68 | the reply and the resulting store do not depend on the order's current status |
| OrderStatus.UpdatePreservesInvariant | app/views.py:67-68 | a status update preserves the store invariant |
| OrderStatus.UpdateKeepsTotals | app/views.py:67-68 | a status update keeps every order's total equal to its line sum minus its discount |
| OrderStatus.PaidNeedsFinanceiro | app/views.py:55-56 | FINANCEIRO may set PAID; LOGISTICA alone is refused and nothing changes |
| Reviews.ReviewCount | app/views.py:96-97 | the number of reviews of a product (the filtered `count()`) |
| Reviews.RatingMean | app/views.py:96-98 | the exact mean of a product's ratings (the filtered `Avg`), as a sum and a count |
| Reviews.ItemOwner | app/views.py:87 | the user who placed the order an item belongs to |
| Reviews.SubmitReview | app/views.py:75-101 | 400 exactly for a rating outside 1..5; 404 for a missing item, or a missing product once ownership holds; 403 exactly when the item's order belongs to someone else; failures change nothing; success appends the review (an absent comment becomes empty text), makes the product's count and mean agree with its reviews, keeps the product's name, description, price, stock and category, and changes no other product, order or item |
| Reviews.NewProductAgrees | app/models.py:54-55 | a product added with the default aggregates agrees with its (empty) set of reviews: count 0 and the mean of no ratings |
| Reviews.SubmitReviewIncrements | app/views.py:93-97 | a review raises its product's review count by one and rating sum by its rating, and leaves every other product's count and sum alone |
| Reviews.SubmitReviewRunningAggregates | app/views.py:96-98 | if the aggregates agreed with the reviews before, the full recompute equals a running update: count + 1, and the mean of old sum + rating over old count + 1 |
| Reviews.SubmitReviewKeepsAggregates | app/views.py:93-99 | any product whose aggregates agreed with its reviews still agrees after a submission |
| Reviews.SubmitReviewAverageInRange | app/views.py:83-98 | if all stored ratings lie in 1..5, the stored average after a successful review lies in 1..5 and the count is at least 1 |
| Reviews.MeanBounds | app/views.py:98 | a mean of n ratings whose sum lies between n and 5n lies between 1 and 5 |
| Reviews.SubmitReviewPreservesInvariant | app/views.py:83-99 | a submission preserves the store invariant |
| Reviews.SubmitReviewKeepsTotals | app/views.py:93-99 | a submission keeps every order's total equal to its line sum minus its discount |
| Reviews.NoReviewsNoRatings | app/views.py:96-98 | a product with no reviews has a rating sum of zero |
| Reviews.SubmitReviewTwice | app/views.py:93-97 | submitting the same review twice is not idempotent: both succeed, two reviews are added, and the count grows by two |
| Reviews.ThreeRatingsAverageFour | app/views.py:93-98 | ratings 4, 5 and 3 on a product without reviews leave a count of 3 and an average of exactly 4 |
| Reviews.ReviewItemProductNotChecked | app/views.py:86-93 | a buyer can review a product through their own item for a different product, and the review is stored against the requested product |

## Left out

- Users, authentication and sessions (`CustomUser`, `CustomUserManager`), admin, serializers and URL routing are not part of this model. The requester is a user id, and their groups are a set of group names.
- The product list and detail views only read, so they are not modelled.
- Category, ProductPiece, ProductImage and CreditCard are not modelled, because no handler in the core touches them. A product's category is an optional id.
- Timestamps (`creation_date`, `update_date`, `created_at`) are left out, since no behaviour depends on them.
- HTTP parsing is left out. The request fields are typed parameters, so a non-numeric `quantity` or `rating` (a server error from `int()` in the Django handler) is outside the model. An absent `status` field is not modelled separately: it behaves like an unknown code and is refused with 403.
- Reviews.SubmitReview: an explicitly null comment is not distinguished from an absent one. Both are stored as empty text, while the Django handler stores an explicit null as null.
- Reviews.SubmitReview: stores the exact mean of the ratings, not the value rounded to the two decimal places of the `average_rating` column.
- Cart.AddToCart: treats the handler as one transaction. Under autocommit, a cart created just before a refused line insert (a new line with a negative quantity) would remain in the orders table. The model keeps the store unchanged instead.
- Cart.AccumulateItem: a line's quantity is an unbounded natural number. The upper limit of the unsigned quantity column is not modelled, because it depends on the database backend (2147483647 on PostgreSQL), which is not part of this model. An add that would push a line past that limit succeeds in the model and is refused by the database.
- Cart.AddToCart: prices and totals are unbounded integer cents. The `max_digits` limits are not modelled: 10 digits for the product's price (`Product.price`), and 15 digits for the copied line price (`OrderItem.price`) and for the order's total and discount, because they constrain only amounts far beyond any realistic cart; a total past them is stored in the model and refused by the database.
- Concurrency is left out: races between concurrent requests on find-or-create and on the aggregate recompute. Each handler is one atomic step.
- Deletion and cascades are left out, because the core never deletes rows.
- Response messages are reduced to the reply value: the order id, the new status, or unit.
