/** The order-status handler: a static table says which role may set each
    target status; the order's current status is never consulted. */
module OrderStatus {
  import opened Results
  import opened Models
  import opened Tables
  import opened Cart

  /** The authorisation groups a user can belong to. */
  datatype Role = Financeiro | Logistica | Cliente | PosVenda

  /** The group name a role is stored under. */
  function RoleName(r: Role): string {
    match r
    case Financeiro => "FINANCEIRO"
    case Logistica => "LOGISTICA"
    case Cliente => "CLIENTE"
    case PosVenda => "POS_VENDA"
  }

  /** The role allowed to set each target status; PROCESSING and CANCELED
      cannot be set by anyone. */
  function RequiredRole(st: Status): Option<Role> {
    match st
    case Paid | PaymentFailed | Invoice => Some(Financeiro)
    case Preparing | Sent => Some(Logistica)
    case Received | ReturnRequest => Some(Cliente)
    case Returning | Returned | ReturnCanceled => Some(PosVenda)
    case Processing | Canceled => None
  }

  /** The handler's permission test on the raw status code sent and the
      requester's group names, in the handler's own order of tests. Yields
      the status to write when the change is allowed. */
  function Authorize(groups: set<string>, code: string): (r: Option<Status>)
    ensures r.Some? ==> StatusCode(r.value) == code
  {
    if code in ["PAID", "PAYMENT_FAILED", "INVOICE"] && "FINANCEIRO" in groups then ParseStatus(code)
    else if code in ["PREPARING", "SENT"] && "LOGISTICA" in groups then ParseStatus(code)
    else if code in ["RECEIVED", "RETURN_REQUEST"] && "CLIENTE" in groups then ParseStatus(code)
    else if code in ["RETURNING", "RETURNED", "RETURN_CANCELED"] && "POS_VENDA" in groups then ParseStatus(code)
    else None
  }

  /** The permission test agrees with the table, in both directions: a
      change to `st` is allowed exactly when the code sent is st's code and
      the requester belongs to the group of st's required role. */
  lemma AuthorizeMatchesTable(groups: set<string>, code: string, st: Status)
    ensures Authorize(groups, code) == Some(st) <==>
      StatusCode(st) == code && RequiredRole(st).Some? && RoleName(RequiredRole(st).value) in groups
  {
  }

  /** No role may put an order back in PROCESSING or cancel it. */
  lemma AuthorizeNeverProcessingOrCanceled(groups: set<string>, code: string)
    ensures Authorize(groups, code) != Some(Processing)
    ensures Authorize(groups, code) != Some(Canceled)
  {
    AuthorizeMatchesTable(groups, code, Processing);
    AuthorizeMatchesTable(groups, code, Canceled);
  }

  /** The status-update handler: 404 for an unknown order, 403 when the
      requester may not set the status sent, and otherwise the order's status
      is overwritten. Replies with the new status. */
  function UpdateOrderStatus(s: Store, groups: set<string>, orderId: OrderId, code: string): (r: Response<Status>)
    ensures r.reply.Err? ==> r.store == s
    ensures r.reply == Err(NotFound) <==> orderId >= |s.orders|
    ensures r.reply == Err(Forbidden) <==> orderId < |s.orders| && Authorize(groups, code).None?
    ensures r.reply.Ok? ==> orderId < |s.orders| && |r.store.orders| == |s.orders|
    ensures r.reply.Ok? ==> var st := r.reply.value; var o := s.orders[orderId]; var o' := r.store.orders[orderId];
      && StatusCode(st) == code
      && o'.status == st
      && o'.user == o.user && o'.total == o.total && o'.discount == o.discount
      && o'.paymentMethod == o.paymentMethod && o'.trackingCode == o.trackingCode
    ensures r.reply.Ok? ==> forall j :: 0 <= j < |s.orders| && j != orderId ==> r.store.orders[j] == s.orders[j]
    ensures r.reply.Ok? ==>
      r.store.products == s.products && r.store.items == s.items && r.store.reviews == s.reviews
  {
    if orderId >= |s.orders| then Response(s, Err(NotFound))
    else
      match Authorize(groups, code)
      case None => Response(s, Err(Forbidden))
      case Some(st) =>
        var order := s.orders[orderId];
        Response(s.(orders := s.orders[orderId := order.(status := st)]), Ok(st))
  }

  /** The outcome does not depend on the order's current status: two stores
      that differ only in that status give the same reply, and on success the
      same store. */
  lemma UpdateIgnoresCurrentStatus(s: Store, groups: set<string>, orderId: OrderId, code: string, current: Status)
    requires orderId < |s.orders|
    ensures var s2 := s.(orders := s.orders[orderId := s.orders[orderId].(status := current)]);
      var r1 := UpdateOrderStatus(s, groups, orderId, code);
      var r2 := UpdateOrderStatus(s2, groups, orderId, code);
      && r1.reply == r2.reply
      && (r1.reply.Ok? ==> r1.store == r2.store)
  {
    var s2 := s.(orders := s.orders[orderId := s.orders[orderId].(status := current)]);
    var r1 := UpdateOrderStatus(s, groups, orderId, code);
    if r1.reply.Ok? {
      assert r1.store.orders == UpdateOrderStatus(s2, groups, orderId, code).store.orders;
    }
  }

  /** A status update preserves the store invariant: it never writes
      PROCESSING, so it cannot give a user a second open order. */
  lemma UpdatePreservesInvariant(s: Store, groups: set<string>, orderId: OrderId, code: string)
    requires Invariant(s)
    ensures Invariant(UpdateOrderStatus(s, groups, orderId, code).store)
  {
    AuthorizeNeverProcessingOrCanceled(groups, code);
  }

  /** Setting PAID needs the FINANCEIRO group: a requester in it succeeds, a
      requester only in LOGISTICA is refused and the order is unchanged. */
  lemma PaidNeedsFinanceiro(s: Store, orderId: OrderId)
    requires orderId < |s.orders|
    ensures UpdateOrderStatus(s, {"FINANCEIRO"}, orderId, "PAID").reply == Ok(Paid)
    ensures UpdateOrderStatus(s, {"FINANCEIRO"}, orderId, "PAID").store.orders[orderId].status == Paid
    ensures UpdateOrderStatus(s, {"LOGISTICA"}, orderId, "PAID") == Response(s, Err(Forbidden))
  {
  }

  /** A status update keeps every order's total equal to its line sum minus
      its discount. */
  lemma UpdateKeepsTotals(s: Store, groups: set<string>, orderId: OrderId, code: string)
    requires TotalsMatch(s)
    ensures TotalsMatch(UpdateOrderStatus(s, groups, orderId, code).store)
  {
  }
}
