/** The records of the shop: products, orders, order items and product
    reviews, with the enumerations and column defaults of the schema.
    Money is kept in integer cents (every price column has two decimal
    places), so no decimal arithmetic is needed. */
module Models {
  import opened Results

  type UserId = nat
  type CategoryId = nat
  type ProductId = nat
  type OrderId = nat
  type ItemId = nat

  /** An amount of money in cents. */
  type Cents = int

  // ---------------------------------------------------------------------
  // Payment methods

  datatype PaymentMethod = Pix | Boleto | Card

  /** The code stored in the `payment_method` column. */
  function PaymentCode(m: PaymentMethod): string {
    match m
    case Pix => "PIX"
    case Boleto => "BOLETO"
    case Card => "CARD"
  }

  /** The payment method a stored code denotes, if it is one of the choices. */
  function ParsePaymentMethod(code: string): (r: Option<PaymentMethod>)
    ensures r.Some? ==> PaymentCode(r.value) == code
    ensures r.None? ==> forall m: PaymentMethod :: PaymentCode(m) != code
  {
    if code == "PIX" then Some(Pix)
    else if code == "BOLETO" then Some(Boleto)
    else if code == "CARD" then Some(Card)
    else None
  }

  /** Decoding a stored code gives back the payment method. */
  lemma PaymentMethodChoices(m: PaymentMethod)
    ensures ParsePaymentMethod(PaymentCode(m)) == Some(m)
  {
  }

  // ---------------------------------------------------------------------
  // Order statuses

  datatype Status =
    | Processing
    | Paid
    | Invoice
    | Preparing
    | Sent
    | Received
    | PaymentFailed
    | Canceled
    | ReturnRequest
    | Returning
    | Returned
    | ReturnCanceled

  /** The code stored in the `status` column. */
  function StatusCode(st: Status): string {
    match st
    case Processing => "PROCESSING"
    case Paid => "PAID"
    case Invoice => "INVOICE"
    case Preparing => "PREPARING"
    case Sent => "SENT"
    case Received => "RECEIVED"
    case PaymentFailed => "PAYMENT_FAILED"
    case Canceled => "CANCELED"
    case ReturnRequest => "RETURN_REQUEST"
    case Returning => "RETURNING"
    case Returned => "RETURNED"
    case ReturnCanceled => "RETURN_CANCELED"
  }

  /** The status a code denotes, if it is one of the twelve choices. */
  function ParseStatus(code: string): (r: Option<Status>)
    ensures r.Some? ==> StatusCode(r.value) == code
    ensures r.None? ==> forall st: Status :: StatusCode(st) != code
  {
    if code == "PROCESSING" then Some(Processing)
    else if code == "PAID" then Some(Paid)
    else if code == "INVOICE" then Some(Invoice)
    else if code == "PREPARING" then Some(Preparing)
    else if code == "SENT" then Some(Sent)
    else if code == "RECEIVED" then Some(Received)
    else if code == "PAYMENT_FAILED" then Some(PaymentFailed)
    else if code == "CANCELED" then Some(Canceled)
    else if code == "RETURN_REQUEST" then Some(ReturnRequest)
    else if code == "RETURNING" then Some(Returning)
    else if code == "RETURNED" then Some(Returned)
    else if code == "RETURN_CANCELED" then Some(ReturnCanceled)
    else None
  }

  /** Decoding a stored code gives back the status. */
  lemma StatusChoices(st: Status)
    ensures ParseStatus(StatusCode(st)) == Some(st)
  {
  }

  /** No two statuses share a stored code. */
  lemma StatusCodeInjective(a: Status, b: Status)
    ensures StatusCode(a) == StatusCode(b) ==> a == b
  {
    StatusChoices(a);
    StatusChoices(b);
  }

  // ---------------------------------------------------------------------
  // Records

  /** An exact mean of ratings, as the pair (sum of ratings, number of
      ratings). The empty mean reads as 0, the column's default. */
  datatype Mean = Mean(sum: int, count: nat) {
    function Value(): real {
      if count == 0 then 0.0 else sum as real / count as real
    }
  }

  datatype Product = Product(
    name: string,
    description: string,
    price: Cents,
    stock: int,
    category: Option<CategoryId>,
    totalReviews: int,
    averageRating: Mean)

  /** A product as the catalogue creates it: no reviews and a zero average. */
  function NewProduct(name: string, description: string, price: Cents, stock: int,
                      category: Option<CategoryId>): (p: Product)
    ensures p.totalReviews == 0 && p.averageRating.Value() == 0.0
    ensures p.name == name && p.description == description && p.price == price
    ensures p.stock == stock && p.category == category
  {
    Product(name, description, price, stock, category, 0, Mean(0, 0))
  }

  datatype Order = Order(
    user: UserId,
    total: Cents,
    discount: Cents,
    paymentMethod: PaymentMethod,
    status: Status,
    trackingCode: Option<string>)

  /** An order created with the given columns; an omitted discount is 0, an
      omitted status is PROCESSING and the tracking code starts empty. */
  function NewOrder(user: UserId, total: Cents, paymentMethod: PaymentMethod,
                    discount: Option<Cents>, status: Option<Status>): (o: Order)
    ensures status.None? ==> o.status == Processing
    ensures status.Some? ==> o.status == status.value
    ensures discount.None? ==> o.discount == 0
    ensures discount.Some? ==> o.discount == discount.value
    ensures o.user == user && o.total == total && o.paymentMethod == paymentMethod
    ensures o.trackingCode.None?
  {
    Order(user, total, discount.GetOr(0), paymentMethod, status.GetOr(Processing), None)
  }

  /** One line of an order: which product, how many, and the unit price
      captured when the line was created. The quantity column is unsigned. */
  datatype OrderItem = OrderItem(
    order: OrderId,
    product: ProductId,
    quantity: nat,
    price: Cents)

  /** A rating left by a user for a product, justified by an order item.
      The rating column is an unsigned small integer; the comment is nullable. */
  datatype Review = Review(
    user: UserId,
    product: ProductId,
    item: ItemId,
    rating: nat,
    comment: Option<string>)
}
