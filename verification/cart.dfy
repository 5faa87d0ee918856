/** The add-to-cart handler: find or create the user's open order, find or
    create the line for the product, accumulate the quantity, and recompute
    the order's total from all of its lines. */
module Cart {
  import opened Results
  import opened Models
  import opened Tables

  /** The quantity asked for; an absent field means 1. */
  function RequestedQuantity(quantity: Option<int>): (q: int)
    ensures quantity.None? ==> q == 1
    ensures quantity.Some? ==> q == quantity.value
  {
    quantity.GetOr(1)
  }

  /** The user's cart: an order of theirs still in status PROCESSING. */
  predicate IsOpenOrderOf(o: Order, user: UserId) {
    o.user == user && o.status == Processing
  }

  /** Ids of the user's open orders. */
  function OpenOrders(orders: seq<Order>, user: UserId): (ids: seq<OrderId>)
    ensures forall i :: 0 <= i < |ids| ==> ids[i] < |orders| && IsOpenOrderOf(orders[ids[i]], user)
    ensures forall k :: 0 <= k < |orders| && IsOpenOrderOf(orders[k], user) ==> k in ids
  {
    Select(orders, (o: Order) => IsOpenOrderOf(o, user))
  }

  /** An item is the line of `order` for `product`. */
  predicate IsLineOf(it: OrderItem, order: OrderId, product: ProductId) {
    it.order == order && it.product == product
  }

  /** Ids of the lines of `order` for `product`. */
  function LinesOf(items: seq<OrderItem>, order: OrderId, product: ProductId): (ids: seq<ItemId>)
    ensures forall i :: 0 <= i < |ids| ==> ids[i] < |items| && IsLineOf(items[ids[i]], order, product)
    ensures forall k :: 0 <= k < |items| && IsLineOf(items[k], order, product) ==> k in ids
  {
    Select(items, (it: OrderItem) => IsLineOf(it, order, product))
  }

  /** What an item contributes to the total of `order`. */
  function LineTotal(it: OrderItem, order: OrderId): Cents {
    if it.order == order then it.price * it.quantity else 0
  }

  /** The sum of price × quantity over the items of `order`. */
  function ItemsTotal(items: seq<OrderItem>, order: OrderId): Cents {
    Sum(items, (it: OrderItem) => LineTotal(it, order))
  }

  /** Every order's stored total is the sum of price × quantity over its
      lines minus its discount. */
  predicate TotalsMatch(s: Store) {
    forall j :: 0 <= j < |s.orders| ==> s.orders[j].total == ItemsTotal(s.items, j) - s.orders[j].discount
  }

  /** What an item contributes to the quantity of `product` in `order`. */
  function QuantityTerm(it: OrderItem, order: OrderId, product: ProductId): int {
    if IsLineOf(it, order, product) then it.quantity else 0
  }

  /** How many units of `product` the items of `order` hold. */
  function QuantityOf(items: seq<OrderItem>, order: OrderId, product: ProductId): int {
    Sum(items, (it: OrderItem) => QuantityTerm(it, order, product))
  }

  /** The columns a freshly created cart gets: total 0, discount 0, PIX. */
  function CartOrder(user: UserId): (o: Order)
    ensures IsOpenOrderOf(o, user)
    ensures o.total == 0 && o.discount == 0 && o.paymentMethod == Pix && o.trackingCode.None?
  {
    NewOrder(user, 0, Pix, Some(0), None)
  }

  /** When an order has at most one line for a product, the quantity held is
      that line's quantity, or 0 when there is no line. */
  lemma QuantityOfSingleLine(items: seq<OrderItem>, order: OrderId, product: ProductId)
    requires |LinesOf(items, order, product)| <= 1
    ensures |LinesOf(items, order, product)| == 0 ==> QuantityOf(items, order, product) == 0
    ensures |LinesOf(items, order, product)| == 1 ==>
      QuantityOf(items, order, product) == items[LinesOf(items, order, product)[0]].quantity
  {
    var f := (it: OrderItem) => QuantityTerm(it, order, product);
    var ids := LinesOf(items, order, product);
    if |ids| == 0 {
      SumZero(items, f);
    } else {
      var k := ids[0];
      var blank := items[k].(quantity := 0);
      SumUpdate(items, k, blank, f);
      assert ids == [k];
      SumZero(items[k := blank], f);
    }
  }

  /** The lookup half of the cart's find-or-create: reuse the user's open
      order, or append a new one when there is none; two open orders make the
      lookup fail. Returns the orders table and the cart's id. */
  function GetOrCreateOpenOrder(orders: seq<Order>, user: UserId): (r: Result<(seq<Order>, OrderId)>)
    ensures r.Err? <==> |OpenOrders(orders, user)| > 1
    ensures r.Err? ==> r.error == MultipleObjectsReturned
    ensures r.Ok? ==> r.value.1 < |r.value.0| && IsOpenOrderOf(r.value.0[r.value.1], user)
    ensures r.Ok? ==> forall k :: 0 <= k < |orders| && IsOpenOrderOf(orders[k], user) ==>
      r.value == (orders, k)
    ensures r.Ok? && (forall k :: 0 <= k < |orders| ==> !IsOpenOrderOf(orders[k], user)) ==>
      r.value == (orders + [CartOrder(user)], |orders|)
  {
    var open := OpenOrders(orders, user);
    if |open| > 1 then Err(MultipleObjectsReturned)
    else if |open| == 1 then Ok((orders, open[0]))
    else Ok((orders + [CartOrder(user)], |orders|))
  }

  /** The line half of the cart: create the line for (order, product) with
      quantity `q` and the product's current `price`, or add `q` to the
      existing line. A negative resulting quantity is refused by the unsigned
      quantity column; two lines for the pair make the lookup fail. Returns
      the items table and the line's id. */
  function AccumulateItem(items: seq<OrderItem>, order: OrderId, product: ProductId, price: Cents, q: int)
    : (r: Result<(seq<OrderItem>, ItemId)>)
    ensures r == Err(MultipleObjectsReturned) <==> |LinesOf(items, order, product)| > 1
    ensures r.Err? ==> r.error in {MultipleObjectsReturned, ConstraintViolation}
    ensures r.Ok? ==> r.value.1 < |r.value.0| && IsLineOf(r.value.0[r.value.1], order, product)
    ensures r.Ok? ==> |items| <= |r.value.0| <= |items| + 1
    ensures r.Ok? ==> forall i :: 0 <= i < |items| && i != r.value.1 ==> r.value.0[i] == items[i]
    ensures r.Ok? && r.value.1 < |items| ==>
      |r.value.0| == |items| && r.value.0[r.value.1].price == items[r.value.1].price
    ensures r.Ok? && r.value.1 == |items| ==> r.value.0[r.value.1].price == price
  {
    var lines := LinesOf(items, order, product);
    if |lines| > 1 then Err(MultipleObjectsReturned)
    else if |lines| == 1 then
      var k := lines[0];
      var n := items[k].quantity + q;
      if n < 0 then Err(ConstraintViolation)
      else Ok((items[k := items[k].(quantity := n)], k))
    else if q < 0 then Err(ConstraintViolation)
    else Ok((items + [OrderItem(order, product, q, price)], |items|))
  }

  /** Accumulation: a successful add leaves exactly one line for the pair,
      holding the previous quantity plus `q`; the add is refused by the
      unsigned column exactly when that sum would be negative. */
  lemma AccumulateItemQuantity(items: seq<OrderItem>, order: OrderId, product: ProductId, price: Cents, q: int)
    requires |LinesOf(items, order, product)| <= 1
    ensures AccumulateItem(items, order, product, price, q).Err? <==> QuantityOf(items, order, product) + q < 0
    ensures var r := AccumulateItem(items, order, product, price, q);
      r.Ok? ==>
        && QuantityOf(r.value.0, order, product) == QuantityOf(items, order, product) + q
        && |LinesOf(r.value.0, order, product)| == 1 && LinesOf(r.value.0, order, product)[0] == r.value.1
  {
    var lines := LinesOf(items, order, product);
    var f := (it: OrderItem) => QuantityTerm(it, order, product);
    var p := (it: OrderItem) => IsLineOf(it, order, product);
    QuantityOfSingleLine(items, order, product);
    var r := AccumulateItem(items, order, product, price, q);
    if r.Ok? {
      var (items', id) := r.value;
      if |lines| == 1 {
        SumUpdate(items, id, items'[id], f);
        SelectSame(items, items', p);
      } else {
        SumAppend(items, items'[id], f);
        SelectAppend(items, items'[id], p);
      }
    }
  }

  /** The add-to-cart handler: look the product up (404 when missing), find
      or create the user's open order, find or create the product's line in
      it, then store the order's total as the sum of price × quantity over
      its lines minus its discount. Replies with the order's id. */
  function AddToCart(s: Store, user: UserId, productId: ProductId, quantity: Option<int>): (r: Response<OrderId>)
    requires WellFormed(s)
    ensures r.reply.Err? ==> r.store == s
    ensures r.reply == Err(NotFound) <==> productId !in s.products
    ensures r.reply.Ok? ==> WellFormed(r.store)
    ensures r.reply.Ok? ==> r.store.products == s.products && r.store.reviews == s.reviews
    ensures r.reply.Ok? ==> var oid := r.reply.value; var s' := r.store;
      && oid < |s'.orders| && IsOpenOrderOf(s'.orders[oid], user)
      && s'.orders[oid].total == ItemsTotal(s'.items, oid) - s'.orders[oid].discount
      && QuantityOf(s'.items, oid, productId) == QuantityOf(s.items, oid, productId) + RequestedQuantity(quantity)
      && |LinesOf(s'.items, oid, productId)| == 1
  {
    if productId !in s.products then Response(s, Err(NotFound))
    else
      var product := s.products[productId];
      var q := RequestedQuantity(quantity);
      match GetOrCreateOpenOrder(s.orders, user)
      case Err(e) => Response(s, Err(e))
      case Ok((orders, oid)) =>
        match AccumulateItem(s.items, oid, productId, product.price, q)
        case Err(e) => Response(s, Err(e))
        case Ok((items, _)) =>
          AccumulateItemQuantity(s.items, oid, productId, product.price, q);
          var order := orders[oid];
          var orders' := orders[oid := order.(total := ItemsTotal(items, oid) - order.discount)];
          Response(Store(s.products, orders', items, s.reviews), Ok(oid))
  }

  // ---------------------------------------------------------------------
  // Properties of the handler

  /** The price of the single line of `order` for `product`. */
  function LinePrice(items: seq<OrderItem>, order: OrderId, product: ProductId): Cents
    requires |LinesOf(items, order, product)| == 1
  {
    items[LinesOf(items, order, product)[0]].price
  }

  /** Adding `q` units to a line raises the order's line sum by `q` times the
      line's (snapshot) price. */
  lemma AccumulateItemTotal(items: seq<OrderItem>, order: OrderId, product: ProductId, price: Cents, q: int)
    requires |LinesOf(items, order, product)| <= 1
    ensures var r := AccumulateItem(items, order, product, price, q);
      r.Ok? ==> ItemsTotal(r.value.0, order) == ItemsTotal(items, order) + q * r.value.0[r.value.1].price
  {
    var f := (it: OrderItem) => LineTotal(it, order);
    var r := AccumulateItem(items, order, product, price, q);
    if r.Ok? {
      var (items', id) := r.value;
      var unit := items'[id].price;
      if id < |items| {
        SumUpdate(items, id, items'[id], f);
        var n := items[id].quantity;
        assert f(items[id]) == unit * n;
        assert f(items'[id]) == unit * (n + q);
        assert unit * (n + q) == unit * n + unit * q;
      } else {
        SumAppend(items, items'[id], f);
        assert f(items'[id]) == unit * q;
      }
    }
  }

  /** The line an add leaves behind carries the given price when it is new
      and keeps its earlier price otherwise; the order's line sum grows by the
      added quantity at that price. */
  lemma AccumulateItemSnapshot(items: seq<OrderItem>, order: OrderId, product: ProductId, price: Cents, q: int)
    requires |LinesOf(items, order, product)| <= 1
    ensures var r := AccumulateItem(items, order, product, price, q);
      r.Ok? ==>
        && |LinesOf(r.value.0, order, product)| == 1
        && (|LinesOf(items, order, product)| == 0 ==> LinePrice(r.value.0, order, product) == price)
        && (|LinesOf(items, order, product)| == 1 ==>
              LinePrice(r.value.0, order, product) == LinePrice(items, order, product))
        && ItemsTotal(r.value.0, order) == ItemsTotal(items, order) + q * LinePrice(r.value.0, order, product)
  {
    var r := AccumulateItem(items, order, product, price, q);
    if r.Ok? {
      AccumulateItemQuantity(items, order, product, price, q);
      AccumulateItemTotal(items, order, product, price, q);
      var id := r.value.1;
      if |LinesOf(items, order, product)| == 1 {
        assert id in LinesOf(items, order, product);
      }
    }
  }

  /** Under well-formedness no item belongs to an order that does not exist
      yet, so such an order's line sum and quantities are zero. */
  lemma NoItemsForNewOrder(s: Store, product: ProductId)
    requires WellFormed(s)
    ensures ItemsTotal(s.items, |s.orders|) == 0
    ensures QuantityOf(s.items, |s.orders|, product) == 0
    ensures LinesOf(s.items, |s.orders|, product) == []
  {
    var order := |s.orders|;
    SumZero(s.items, (it: OrderItem) => LineTotal(it, order));
    SumZero(s.items, (it: OrderItem) => QuantityTerm(it, order, product));
    SelectNone(s.items, (it: OrderItem) => IsLineOf(it, order, product));
  }

  /** A user with no PROCESSING order has no cart yet. */
  lemma NoOpenOrder(orders: seq<Order>, user: UserId)
    requires forall k :: 0 <= k < |orders| ==> !IsOpenOrderOf(orders[k], user)
    ensures OpenOrders(orders, user) == []
  {
    SelectNone(orders, (o: Order) => IsOpenOrderOf(o, user));
  }

  /** The first line of a new order makes the order's line sum the
      requested quantity at the product's price. */
  lemma NewCartTotal(s: Store, productId: ProductId, q: int)
    requires WellFormed(s) && productId in s.products
    ensures var price := s.products[productId].price;
      var acc := AccumulateItem(s.items, |s.orders|, productId, price, q);
      acc.Ok? ==> ItemsTotal(acc.value.0, |s.orders|) == q * price
  {
    NoItemsForNewOrder(s, productId);
    AccumulateItemTotal(s.items, |s.orders|, productId, s.products[productId].price, q);
  }

  /** What a successful add builds: the order table of the lookup with the
      cart's total rewritten, and the items table of the accumulation. */
  lemma AddToCartShape(s: Store, user: UserId, productId: ProductId, quantity: Option<int>)
    requires WellFormed(s)
    ensures var r := AddToCart(s, user, productId, quantity);
      var found := GetOrCreateOpenOrder(s.orders, user);
      r.reply.Ok? ==>
        && productId in s.products && found.Ok? && found.value.1 == r.reply.value
        && var (orders, oid) := found.value;
           var acc := AccumulateItem(s.items, oid, productId, s.products[productId].price, RequestedQuantity(quantity));
           && acc.Ok?
           && r.store == Store(s.products, orders[oid := orders[oid].(total := ItemsTotal(acc.value.0, oid) - orders[oid].discount)],
                               acc.value.0, s.reviews)
  {
  }

  /** Rewriting an order's total keeps one open order per user. */
  lemma TotalUpdateKeepsOneOpenOrder(orders: seq<Order>, k: nat, t: Cents)
    requires OneOpenOrderPerUser(orders) && k < |orders|
    ensures OneOpenOrderPerUser(orders[k := orders[k].(total := t)])
  {
  }

  /** Appending a line for a pair that has none keeps one line per product. */
  lemma AppendLineKeepsOneLine(items: seq<OrderItem>, it: OrderItem)
    requires OneLinePerProduct(items) && LinesOf(items, it.order, it.product) == []
    ensures OneLinePerProduct(items + [it])
  {
  }

  /** Rewriting a line's quantity keeps one line per product. */
  lemma QuantityUpdateKeepsOneLine(items: seq<OrderItem>, k: nat, n: nat)
    requires OneLinePerProduct(items) && k < |items|
    ensures OneLinePerProduct(items[k := items[k].(quantity := n)])
  {
  }

  /** The user's existing open order is reused: the reply is its id and no
      order is created. */
  lemma AddToCartReusesOpenOrder(s: Store, user: UserId, productId: ProductId, quantity: Option<int>, k: OrderId)
    requires WellFormed(s)
    requires k < |s.orders| && IsOpenOrderOf(s.orders[k], user)
    ensures var r := AddToCart(s, user, productId, quantity);
      r.reply.Ok? ==> r.reply.value == k && |r.store.orders| == |s.orders|
  {
  }

  /** Without an open order a new one is appended: it is the reply, belongs
      to the user, is PROCESSING, pays by PIX, has no discount and totals the
      requested quantity at the product's price. */
  lemma AddToCartCreatesOrder(s: Store, user: UserId, productId: ProductId, quantity: Option<int>)
    requires WellFormed(s)
    requires forall k :: 0 <= k < |s.orders| ==> !IsOpenOrderOf(s.orders[k], user)
    ensures var r := AddToCart(s, user, productId, quantity);
      r.reply.Ok? ==>
        && r.reply.value == |s.orders| && |r.store.orders| == |s.orders| + 1
        && r.store.orders[|s.orders|]
           == CartOrder(user).(total := RequestedQuantity(quantity) * s.products[productId].price)
  {
    if productId in s.products {
      var oid := |s.orders|;
      var q := RequestedQuantity(quantity);
      NoOpenOrder(s.orders, user);
      NewCartTotal(s, productId, q);
      var acc := AccumulateItem(s.items, oid, productId, s.products[productId].price, q);
      var r := AddToCart(s, user, productId, quantity);
      if r.reply.Ok? {
        assert GetOrCreateOpenOrder(s.orders, user) == Ok((s.orders + [CartOrder(user)], oid));
        assert acc.Ok? && r.store.items == acc.value.0;
        assert r.store.orders[oid] == CartOrder(user).(total := ItemsTotal(acc.value.0, oid));
      }
    }
  }

  /** The order total after an add is the previous line sum plus the
      requested quantity at the line's price, minus the discount; the line's
      price is the product's current price when the line is new and the
      line's earlier price otherwise. */
  lemma AddToCartPriceSnapshot(s: Store, user: UserId, productId: ProductId, quantity: Option<int>)
    requires WellFormed(s)
    ensures var r := AddToCart(s, user, productId, quantity);
      r.reply.Ok? ==> var oid := r.reply.value; var s' := r.store;
        && s'.orders[oid].total
           == ItemsTotal(s.items, oid) + RequestedQuantity(quantity) * LinePrice(s'.items, oid, productId)
              - s'.orders[oid].discount
        && (|LinesOf(s.items, oid, productId)| == 0 ==>
              LinePrice(s'.items, oid, productId) == s.products[productId].price)
        && (|LinesOf(s.items, oid, productId)| == 1 ==>
              LinePrice(s'.items, oid, productId) == LinePrice(s.items, oid, productId))
  {
    var found := GetOrCreateOpenOrder(s.orders, user);
    if productId in s.products && found.Ok? && |LinesOf(s.items, found.value.1, productId)| <= 1 {
      var oid := found.value.1;
      AccumulateItemSnapshot(s.items, oid, productId, s.products[productId].price, RequestedQuantity(quantity));
    }
  }

  /** An add touches nothing but the cart: a reused cart changes only its
      total, every other order is unchanged, and every existing item keeps
      its order, product and price, changing its quantity only when it is
      the product's line in the cart. */
  lemma AddToCartFrame(s: Store, user: UserId, productId: ProductId, quantity: Option<int>)
    requires WellFormed(s)
    ensures var r := AddToCart(s, user, productId, quantity);
      r.reply.Ok? ==> var oid := r.reply.value; var s' := r.store;
        && (oid < |s.orders| ==> s'.orders[oid] == s.orders[oid].(total := s'.orders[oid].total))
        && (forall j :: 0 <= j < |s.orders| && j != oid ==> s'.orders[j] == s.orders[j])
        && (forall i :: 0 <= i < |s.items| ==>
              && s'.items[i].order == s.items[i].order
              && s'.items[i].product == s.items[i].product
              && s'.items[i].price == s.items[i].price
              && (!IsLineOf(s.items[i], oid, productId) ==> s'.items[i] == s.items[i]))
  {
    AddToCartOrdersFrame(s, user, productId, quantity);
    AddToCartItemsFrame(s, user, productId, quantity);
  }

  /** The orders half of the frame: only the cart's total changes. */
  lemma AddToCartOrdersFrame(s: Store, user: UserId, productId: ProductId, quantity: Option<int>)
    requires WellFormed(s)
    ensures var r := AddToCart(s, user, productId, quantity);
      r.reply.Ok? ==> var oid := r.reply.value; var s' := r.store;
        && (oid < |s.orders| ==> s'.orders[oid] == s.orders[oid].(total := s'.orders[oid].total))
        && (forall j :: 0 <= j < |s.orders| && j != oid ==> s'.orders[j] == s.orders[j])
  {
    var r := AddToCart(s, user, productId, quantity);
    if r.reply.Ok? {
      AddToCartShape(s, user, productId, quantity);
      GetOrCreateKeepsOrders(s.orders, user);
      var (orders, oid) := GetOrCreateOpenOrder(s.orders, user).value;
      var total := r.store.orders[oid].total;
      assert r.store.orders == orders[oid := orders[oid].(total := total)];
    }
  }

  /** Find-or-create keeps every existing order as it was. */
  lemma GetOrCreateKeepsOrders(orders: seq<Order>, user: UserId)
    ensures var r := GetOrCreateOpenOrder(orders, user);
      r.Ok? ==> |orders| <= |r.value.0| && forall j :: 0 <= j < |orders| ==> r.value.0[j] == orders[j]
  {
  }

  /** The items half of the frame: only the pair's line changes, and only
      its quantity. */
  lemma AddToCartItemsFrame(s: Store, user: UserId, productId: ProductId, quantity: Option<int>)
    requires WellFormed(s)
    ensures var r := AddToCart(s, user, productId, quantity);
      r.reply.Ok? ==> var oid := r.reply.value; var s' := r.store;
        forall i :: 0 <= i < |s.items| ==>
          && s'.items[i].order == s.items[i].order
          && s'.items[i].product == s.items[i].product
          && s'.items[i].price == s.items[i].price
          && (!IsLineOf(s.items[i], oid, productId) ==> s'.items[i] == s.items[i])
  {
    AddToCartShape(s, user, productId, quantity);
    var r := AddToCart(s, user, productId, quantity);
    if r.reply.Ok? {
      AccumulateItemFrame(s.items, r.reply.value, productId, s.products[productId].price, RequestedQuantity(quantity));
    }
  }

  /** Accumulating changes only the pair's own line, and only its quantity. */
  lemma AccumulateItemFrame(items: seq<OrderItem>, order: OrderId, product: ProductId, price: Cents, q: int)
    requires |LinesOf(items, order, product)| <= 1
    ensures var r := AccumulateItem(items, order, product, price, q);
      r.Ok? ==> forall i :: 0 <= i < |items| ==>
        && r.value.0[i].order == items[i].order
        && r.value.0[i].product == items[i].product
        && r.value.0[i].price == items[i].price
        && (!IsLineOf(items[i], order, product) ==> r.value.0[i] == items[i])
  {
    AccumulateItemQuantity(items, order, product, price, q);
  }

  /** Creating a cart only when the user has none keeps one open order per user. */
  lemma GetOrCreateKeepsOneOpenOrder(orders: seq<Order>, user: UserId)
    requires OneOpenOrderPerUser(orders)
    ensures var r := GetOrCreateOpenOrder(orders, user);
      r.Ok? ==> OneOpenOrderPerUser(r.value.0)
  {
  }

  /** Creating a line only when the order has none for the product keeps one
      line per product. */
  lemma AccumulateKeepsOneLine(items: seq<OrderItem>, order: OrderId, product: ProductId, price: Cents, q: int)
    requires OneLinePerProduct(items)
    ensures var r := AccumulateItem(items, order, product, price, q);
      r.Ok? ==> OneLinePerProduct(r.value.0)
  {
    var lines := LinesOf(items, order, product);
    if |lines| == 1 {
      var k := lines[0];
      if items[k].quantity + q >= 0 {
        QuantityUpdateKeepsOneLine(items, k, items[k].quantity + q);
      }
    } else if |lines| == 0 && q >= 0 {
      AppendLineKeepsOneLine(items, OrderItem(order, product, q, price));
    }
  }

  /** An add keeps one open order per user. */
  lemma AddToCartKeepsOneOpenOrder(s: Store, user: UserId, productId: ProductId, quantity: Option<int>)
    requires WellFormed(s) && OneOpenOrderPerUser(s.orders)
    ensures OneOpenOrderPerUser(AddToCart(s, user, productId, quantity).store.orders)
  {
    var r := AddToCart(s, user, productId, quantity);
    if r.reply.Ok? {
      AddToCartShape(s, user, productId, quantity);
      var (orders, oid) := GetOrCreateOpenOrder(s.orders, user).value;
      var acc := AccumulateItem(s.items, oid, productId, s.products[productId].price, RequestedQuantity(quantity));
      GetOrCreateKeepsOneOpenOrder(s.orders, user);
      TotalUpdateKeepsOneOpenOrder(orders, oid, ItemsTotal(acc.value.0, oid) - orders[oid].discount);
    }
  }

  /** An add keeps one line per (order, product). */
  lemma AddToCartKeepsOneLine(s: Store, user: UserId, productId: ProductId, quantity: Option<int>)
    requires WellFormed(s) && OneLinePerProduct(s.items)
    ensures OneLinePerProduct(AddToCart(s, user, productId, quantity).store.items)
  {
    var r := AddToCart(s, user, productId, quantity);
    if r.reply.Ok? {
      AddToCartShape(s, user, productId, quantity);
      var oid := r.reply.value;
      AccumulateKeepsOneLine(s.items, oid, productId, s.products[productId].price, RequestedQuantity(quantity));
    }
  }

  /** Adding to the cart preserves the store invariant. */
  lemma AddToCartPreservesInvariant(s: Store, user: UserId, productId: ProductId, quantity: Option<int>)
    requires Invariant(s)
    ensures Invariant(AddToCart(s, user, productId, quantity).store)
  {
    AddToCartKeepsOneOpenOrder(s, user, productId, quantity);
    AddToCartKeepsOneLine(s, user, productId, quantity);
  }

  /** Under the invariant the lookups never find two rows, so an add of a
      non-negative quantity of an existing product always succeeds. */
  lemma AddToCartSucceeds(s: Store, user: UserId, productId: ProductId, quantity: Option<int>)
    requires Invariant(s)
    requires productId in s.products && RequestedQuantity(quantity) >= 0
    ensures AddToCart(s, user, productId, quantity).reply.Ok?
  {
    SelectAtMostOne(s.orders, (o: Order) => IsOpenOrderOf(o, user));
    var oid := GetOrCreateOpenOrder(s.orders, user).value.1;
    SelectAtMostOne(s.items, (it: OrderItem) => IsLineOf(it, oid, productId));
    QuantityOfSingleLine(s.items, oid, productId);
    AccumulateItemQuantity(s.items, oid, productId, s.products[productId].price, RequestedQuantity(quantity));
  }

  /** Under the invariant neither lookup of an add ever matches two rows,
      whatever the quantity sent. */
  lemma AddToCartNoLookupError(s: Store, user: UserId, productId: ProductId, quantity: Option<int>)
    requires Invariant(s)
    ensures AddToCart(s, user, productId, quantity).reply != Err(MultipleObjectsReturned)
  {
    if productId in s.products {
      SelectAtMostOne(s.orders, (o: Order) => IsOpenOrderOf(o, user));
      var oid := GetOrCreateOpenOrder(s.orders, user).value.1;
      SelectAtMostOne(s.items, (it: OrderItem) => IsLineOf(it, oid, productId));
      assert AccumulateItem(s.items, oid, productId, s.products[productId].price, RequestedQuantity(quantity))
        != Err(MultipleObjectsReturned);
    }
  }

  /** Under the invariant an add of an existing product fails exactly when
      the cart's line for it would drop below zero, and then it is refused
      by the unsigned quantity column. */
  lemma AddToCartFailsExactly(s: Store, user: UserId, productId: ProductId, quantity: Option<int>)
    requires Invariant(s) && productId in s.products
    ensures var found := GetOrCreateOpenOrder(s.orders, user);
      var r := AddToCart(s, user, productId, quantity);
      && found.Ok?
      && (r.reply.Err? <==> QuantityOf(s.items, found.value.1, productId) + RequestedQuantity(quantity) < 0)
      && (r.reply.Err? ==> r.reply == Err(ConstraintViolation))
  {
    SelectAtMostOne(s.orders, (o: Order) => IsOpenOrderOf(o, user));
    var oid := GetOrCreateOpenOrder(s.orders, user).value.1;
    SelectAtMostOne(s.items, (it: OrderItem) => IsLineOf(it, oid, productId));
    AccumulateItemQuantity(s.items, oid, productId, s.products[productId].price, RequestedQuantity(quantity));
  }

  /** An add changes the quantity of its own (order, product) pair only. */
  lemma AccumulateKeepsOtherQuantities(items: seq<OrderItem>, order: OrderId, product: ProductId, price: Cents,
                                       q: int, order2: OrderId, product2: ProductId)
    requires order2 != order || product2 != product
    ensures var r := AccumulateItem(items, order, product, price, q);
      r.Ok? ==> QuantityOf(r.value.0, order2, product2) == QuantityOf(items, order2, product2)
  {
    var r := AccumulateItem(items, order, product, price, q);
    if r.Ok? {
      var f := (it: OrderItem) => QuantityTerm(it, order2, product2);
      if r.value.1 < |items| {
        SumUpdate(items, r.value.1, r.value.0[r.value.1], f);
      } else {
        SumAppend(items, r.value.0[r.value.1], f);
      }
    }
  }

  /** An add changes the lines of its own (order, product) pair only. */
  lemma AccumulateKeepsOtherLines(items: seq<OrderItem>, order: OrderId, product: ProductId, price: Cents,
                                  q: int, order2: OrderId, product2: ProductId)
    requires order2 != order || product2 != product
    ensures var r := AccumulateItem(items, order, product, price, q);
      r.Ok? ==> LinesOf(r.value.0, order2, product2) == LinesOf(items, order2, product2)
  {
    var r := AccumulateItem(items, order, product, price, q);
    if r.Ok? {
      var p := (it: OrderItem) => IsLineOf(it, order2, product2);
      if r.value.1 < |items| {
        SelectSame(items, r.value.0, p);
      } else {
        SelectAppend(items, r.value.0[r.value.1], p);
      }
    }
  }

  /** After an add, every other (order, product) pair holds the same lines
      and the same quantity as before. */
  lemma AddToCartKeepsOtherPairs(s: Store, user: UserId, productId: ProductId, quantity: Option<int>,
                                 order2: OrderId, product2: ProductId)
    requires WellFormed(s)
    ensures var r := AddToCart(s, user, productId, quantity);
      r.reply.Ok? && (order2 != r.reply.value || product2 != productId) ==>
        && QuantityOf(r.store.items, order2, product2) == QuantityOf(s.items, order2, product2)
        && LinesOf(r.store.items, order2, product2) == LinesOf(s.items, order2, product2)
  {
    var found := GetOrCreateOpenOrder(s.orders, user);
    if productId in s.products && found.Ok? && (order2 != found.value.1 || product2 != productId) {
      var price := s.products[productId].price;
      var q := RequestedQuantity(quantity);
      AccumulateKeepsOtherQuantities(s.items, found.value.1, productId, price, q, order2, product2);
      AccumulateKeepsOtherLines(s.items, found.value.1, productId, price, q, order2, product2);
    }
  }

  /** An add leaves the line sum of every other order alone. */
  lemma AccumulateKeepsOtherTotals(items: seq<OrderItem>, order: OrderId, product: ProductId, price: Cents,
                                   q: int, j: OrderId)
    requires j != order
    ensures var r := AccumulateItem(items, order, product, price, q);
      r.Ok? ==> ItemsTotal(r.value.0, j) == ItemsTotal(items, j)
  {
    var r := AccumulateItem(items, order, product, price, q);
    if r.Ok? {
      var f := (it: OrderItem) => LineTotal(it, j);
      if r.value.1 < |items| {
        SumUpdate(items, r.value.1, r.value.0[r.value.1], f);
      } else {
        SumAppend(items, r.value.0[r.value.1], f);
      }
    }
  }

  /** An add keeps every order's total equal to its line sum minus its
      discount. */
  lemma AddToCartKeepsTotals(s: Store, user: UserId, productId: ProductId, quantity: Option<int>)
    requires WellFormed(s) && TotalsMatch(s)
    ensures TotalsMatch(AddToCart(s, user, productId, quantity).store)
  {
    var r := AddToCart(s, user, productId, quantity);
    if r.reply.Ok? {
      AddToCartShape(s, user, productId, quantity);
      AddToCartFrame(s, user, productId, quantity);
      var oid := r.reply.value;
      forall j | 0 <= j < |r.store.orders| && j != oid
        ensures r.store.orders[j].total == ItemsTotal(r.store.items, j) - r.store.orders[j].discount
      {
        AccumulateKeepsOtherTotals(s.items, oid, productId, s.products[productId].price,
                                   RequestedQuantity(quantity), j);
      }
    }
  }

  /** Two adds of the same product accumulate: both succeed, land in the same
      order, and leave one line holding both quantities. */
  lemma AddToCartTwice(s: Store, user: UserId, productId: ProductId, q1: nat, q2: nat)
    requires Invariant(s) && productId in s.products
    ensures var r1 := AddToCart(s, user, productId, Some(q1));
      var r2 := AddToCart(r1.store, user, productId, Some(q2));
      && r1.reply.Ok? && r2.reply.Ok? && r2.reply.value == r1.reply.value
      && QuantityOf(r2.store.items, r1.reply.value, productId)
         == QuantityOf(s.items, r1.reply.value, productId) + q1 + q2
      && |LinesOf(r2.store.items, r1.reply.value, productId)| == 1
  {
    AddToCartSucceeds(s, user, productId, Some(q1));
    AddToCartPreservesInvariant(s, user, productId, Some(q1));
    var r1 := AddToCart(s, user, productId, Some(q1));
    AddToCartSucceeds(r1.store, user, productId, Some(q2));
    AddToCartReusesOpenOrder(r1.store, user, productId, Some(q2), r1.reply.value);
  }

  /** A user without a cart who adds two different products ends with one new
      order holding one line per product with the requested quantities. */
  lemma AddToCartTwoProducts(s: Store, user: UserId, p1: ProductId, p2: ProductId, q1: nat, q2: nat)
    requires Invariant(s) && p1 in s.products && p2 in s.products && p1 != p2
    requires forall k :: 0 <= k < |s.orders| ==> !IsOpenOrderOf(s.orders[k], user)
    ensures var r1 := AddToCart(s, user, p1, Some(q1));
      var r2 := AddToCart(r1.store, user, p2, Some(q2));
      var oid := |s.orders|;
      && r1.reply == Ok(oid) && r2.reply == Ok(oid)
      && |r2.store.orders| == |s.orders| + 1
      && |LinesOf(r2.store.items, oid, p1)| == 1 && QuantityOf(r2.store.items, oid, p1) == q1
      && |LinesOf(r2.store.items, oid, p2)| == 1 && QuantityOf(r2.store.items, oid, p2) == q2
  {
    var oid := |s.orders|;
    AddToCartSucceeds(s, user, p1, Some(q1));
    AddToCartCreatesOrder(s, user, p1, Some(q1));
    AddToCartPreservesInvariant(s, user, p1, Some(q1));
    NoItemsForNewOrder(s, p1);
    NoItemsForNewOrder(s, p2);
    AddToCartKeepsOtherPairs(s, user, p1, Some(q1), oid, p2);
    var s1 := AddToCart(s, user, p1, Some(q1)).store;
    AddToCartSucceeds(s1, user, p2, Some(q2));
    AddToCartReusesOpenOrder(s1, user, p2, Some(q2), oid);
    AddToCartKeepsOtherPairs(s1, user, p2, Some(q2), oid, p1);
  }
}
