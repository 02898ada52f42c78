/**
 * The order document: line items, status and payment status enumerations with their defaults,
 * the schema's bounds, the total of the line items and the status update method.
 * A line item's `product` or `price` that the client did not send is `None`.
 */
module OrderModel {
  import opened Wrappers

  datatype OrderStatus = Pending | Processing | Shipped | Delivered | Cancelled

  datatype PaymentStatus = PaymentPending | Paid | PaymentFailed

  /** The status enumeration's values, in the schema's order. */
  const StatusNames: seq<string> := ["pending", "processing", "shipped", "delivered", "cancelled"]

  function StatusName(s: OrderStatus): string {
    match s
    case Pending => "pending"
    case Processing => "processing"
    case Shipped => "shipped"
    case Delivered => "delivered"
    case Cancelled => "cancelled"
  }

  /** The status named by `s`, when `s` is one of the five listed values. */
  function ParseStatus(s: string): (r: Option<OrderStatus>)
    ensures r.Some? <==> s in StatusNames
    ensures r.Some? ==> StatusName(r.value) == s
  {
    if s == "pending" then Some(Pending)
    else if s == "processing" then Some(Processing)
    else if s == "shipped" then Some(Shipped)
    else if s == "delivered" then Some(Delivered)
    else if s == "cancelled" then Some(Cancelled)
    else None
  }

  /** Every status prints to a listed value that parses back to it. */
  lemma ParseStatusName(s: OrderStatus)
    ensures StatusName(s) in StatusNames && ParseStatus(StatusName(s)) == Some(s)
  {
  }

  datatype OrderItem = OrderItem(product: Option<nat>, quantity: int, price: Option<real>)

  datatype ShippingAddress = ShippingAddress(
    fullName: string,
    addressLine1: string,
    addressLine2: Option<string>,
    city: string,
    state: string,
    postalCode: string,
    country: string)

  datatype Order = Order(
    id: nat,
    user: nat,
    items: seq<OrderItem>,
    totalAmount: real,
    status: OrderStatus,
    shippingAddress: Option<ShippingAddress>,
    paymentMethod: Option<string>,
    paymentStatus: PaymentStatus,
    createdAt: nat)

  /** A new order document: status and payment status take their `pending` defaults. */
  function NewOrder(id: nat, user: nat, items: seq<OrderItem>, totalAmount: real,
                    address: Option<ShippingAddress>, paymentMethod: Option<string>, createdAt: nat): (o: Order)
    ensures o.status == Pending && o.paymentStatus == PaymentPending
    ensures o.id == id && o.user == user && o.items == items && o.totalAmount == totalAmount
    ensures o.shippingAddress == address && o.paymentMethod == paymentMethod && o.createdAt == createdAt
  {
    Order(id, user, items, totalAmount, Pending, address, paymentMethod, PaymentPending, createdAt)
  }

  /** Item sub-schema: product and price required, quantity at least 1, price at least 0. */
  predicate ValidItem(i: OrderItem) {
    i.product.Some? && i.quantity >= 1 && i.price.Some? && i.price.value >= 0.0
  }

  /** The address sub-document's required strings are present and non-empty. */
  predicate ValidAddress(a: ShippingAddress) {
    |a.fullName| > 0 && |a.addressLine1| > 0 && |a.city| > 0 && |a.state| > 0
    && |a.postalCode| > 0 && |a.country| > 0
  }

  /** The order schema. */
  predicate ValidOrder(o: Order) {
    && (forall i :: 0 <= i < |o.items| ==> ValidItem(o.items[i]))
    && o.totalAmount >= 0.0
    && o.shippingAddress.Some? && ValidAddress(o.shippingAddress.value)
    && o.paymentMethod.Some? && |o.paymentMethod.value| > 0
  }

  /** One line's contribution, price × quantity. */
  function LineAmount(i: OrderItem): real
    requires i.price.Some?
  {
    i.price.value * (i.quantity as real)
  }

  /** Σ price × quantity, folded from the left; `None` (JavaScript's NaN) as soon as a price is missing. */
  function CalculateTotalAmount(items: seq<OrderItem>): (r: Option<real>)
    ensures r.Some? <==> forall i :: 0 <= i < |items| ==> items[i].price.Some?
    decreases |items|
  {
    if |items| == 0 then Some(0.0)
    else
      var init := CalculateTotalAmount(items[..|items| - 1]);
      var last := items[|items| - 1];
      if init.Some? && last.price.Some? then Some(init.value + LineAmount(last))
      else None
  }

  /** No items total 0. */
  lemma TotalOfNoItems()
    ensures CalculateTotalAmount([]) == Some(0.0)
  {
  }

  /** Appending an item adds its price times its quantity. */
  lemma {:induction false} TotalAppend(items: seq<OrderItem>, item: OrderItem)
    requires CalculateTotalAmount(items).Some? && item.price.Some?
    ensures CalculateTotalAmount(items + [item])
         == Some(CalculateTotalAmount(items).value + LineAmount(item))
  {
    var all := items + [item];
    assert all[..|all| - 1] == items && all[|all| - 1] == item;
  }

  /** The total splits over concatenation. */
  lemma {:induction false} TotalConcat(a: seq<OrderItem>, b: seq<OrderItem>)
    requires CalculateTotalAmount(a).Some? && CalculateTotalAmount(b).Some?
    ensures CalculateTotalAmount(a + b) == Some(CalculateTotalAmount(a).value + CalculateTotalAmount(b).value)
    decreases |b|
  {
    if |b| == 0 {
      assert a + b == a;
    } else {
      var init := b[..|b| - 1];
      assert a + b == (a + init) + [b[|b| - 1]];
      assert b[..|b| - 1] == init;
      assert CalculateTotalAmount(init).Some? && b[|b| - 1].price.Some?;
      TotalConcat(a, init);
      TotalAppend(a + init, b[|b| - 1]);
    }
  }

  /** With the item bounds of the schema (quantity at least 1, price at least 0) the total is at least 0. */
  lemma {:induction false} TotalNonNegative(items: seq<OrderItem>)
    requires forall i :: 0 <= i < |items| ==> ValidItem(items[i])
    ensures CalculateTotalAmount(items).Some? && CalculateTotalAmount(items).value >= 0.0
    decreases |items|
  {
    if |items| > 0 {
      TotalNonNegative(items[..|items| - 1]);
      var last := items[|items| - 1];
      assert ValidItem(last);
      assert LineAmount(last) >= 0.0;
    }
  }

  datatype StatusError = InvalidOrderStatus | ValidationFailed

  /**
   * `updateOrderStatus(newStatus)`: a value outside the five listed statuses is rejected and the
   * order is unchanged; otherwise the status is replaced and the document saved, which
   * re-validates it.
   */
  function UpdateOrderStatus(o: Order, newStatus: string): (r: Result<Order, StatusError>)
    ensures newStatus !in StatusNames ==> r == Failure(InvalidOrderStatus)
    ensures newStatus in StatusNames && ValidOrder(o) ==>
      r.Success? && StatusName(r.value.status) == newStatus && r.value == o.(status := r.value.status)
    ensures newStatus in StatusNames && !ValidOrder(o) ==> r == Failure(ValidationFailed)
  {
    match ParseStatus(newStatus)
    case None => Failure(InvalidOrderStatus)
    case Some(s) => var updated := o.(status := s); if ValidOrder(updated) then Success(updated) else Failure(ValidationFailed)
  }

  /** There are no transition rules: every status can replace every other status of a valid order. */
  lemma AnyTransitionAllowed(o: Order, s: OrderStatus)
    requires ValidOrder(o)
    ensures UpdateOrderStatus(o, StatusName(s)) == Success(o.(status := s))
  {
  }
}
