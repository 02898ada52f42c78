/**
 * The order service over the in-memory database: order creation (every line checked against the
 * catalogue, then every line's stock decremented, then the order saved), lookup, status update,
 * the paged order history of a user, cancellation with restocking, and payment.
 *
 * A line item as the client sends it carries `productId` (what the checks and the stock updates
 * read) and possibly `product` and `price` (what the order schema stores and requires); the
 * order document keeps only the schema's fields.
 */
module OrderService {
  import opened Wrappers
  import JsBuiltins
  import Sorting
  import ProductModel
  import OrderModel
  import opened BackendStore
  import ProductService

  type Product = ProductModel.Product
  type Order = OrderModel.Order

  datatype ItemData = ItemData(productId: nat, quantity: int, product: Option<nat>, price: Option<real>)

  datatype OrderData = OrderData(
    userId: Option<nat>,
    items: Option<seq<ItemData>>,
    shippingAddress: Option<OrderModel.ShippingAddress>,
    paymentMethod: Option<string>)

  /** `basePrice * quantity`. */
  function Amount(price: real, quantity: int): real {
    price * (quantity as real)
  }

  /** The check of one line: the product must exist and hold at least the ordered quantity; yields the line's catalogue amount. */
  function CheckLine(ps: seq<Product>, item: ItemData): (r: Result<real, ServiceError>)
    ensures r.Success? <==>
      FindProduct(ps, item.productId).Some? && ps[FindProduct(ps, item.productId).value].stockQuantity >= item.quantity
    ensures FindProduct(ps, item.productId).None? ==>
      r == Failure(ApiError(404, "Product not found: " + JsBuiltins.NatToString(item.productId)))
  {
    match FindProduct(ps, item.productId)
    case None => Failure(ApiError(404, "Product not found: " + JsBuiltins.NatToString(item.productId)))
    case Some(k) =>
      if ps[k].stockQuantity < item.quantity then Failure(ApiError(400, "Insufficient stock for product: " + ps[k].name))
      else Success(Amount(ps[k].basePrice, item.quantity))
  }

  /** The checking loop, left to right: the first failing line's error, or the running total. */
  function CheckItems(ps: seq<Product>, items: seq<ItemData>): (r: Result<real, ServiceError>)
    ensures r.Success? <==> forall i :: 0 <= i < |items| ==> CheckLine(ps, items[i]).Success?
    decreases |items|
  {
    if |items| == 0 then Success(0.0)
    else
      var init := items[..|items| - 1];
      assert forall i :: 0 <= i < |init| ==> init[i] == items[i];
      match CheckItems(ps, init)
      case Failure(e) => Failure(e)
      case Success(total) =>
        match CheckLine(ps, items[|items| - 1])
        case Failure(e) => Failure(e)
        case Success(a) => Success(total + a)
  }

  /** Once a prefix of the lines fails, the whole check fails with that error. */
  lemma {:induction false} CheckFailurePersists(ps: seq<Product>, items: seq<ItemData>, j: nat)
    requires j <= |items| && CheckItems(ps, items[..j]).Failure?
    ensures CheckItems(ps, items) == CheckItems(ps, items[..j])
    decreases |items|
  {
    if j < |items| {
      var init := items[..|items| - 1];
      assert init[..j] == items[..j];
      CheckFailurePersists(ps, init, j);
    } else {
      assert items[..j] == items;
    }
  }

  /**
   * The total is computed from the catalogue: two orders with the same product ids and quantities
   * check and total alike, whatever `product` and `price` the client sent.
   */
  lemma {:induction false} TotalIgnoresClientPrices(ps: seq<Product>, items: seq<ItemData>, others: seq<ItemData>)
    requires |items| == |others|
    requires forall i :: 0 <= i < |items| ==>
      items[i].productId == others[i].productId && items[i].quantity == others[i].quantity
    ensures CheckItems(ps, items) == CheckItems(ps, others)
    decreases |items|
  {
    if |items| > 0 {
      TotalIgnoresClientPrices(ps, items[..|items| - 1], others[..|others| - 1]);
      assert CheckLine(ps, items[|items| - 1]) == CheckLine(ps, others[|others| - 1]);
    }
  }

  /** The order items the schema keeps: `product`, `quantity` and `price` of each line. */
  function SchemaItems(items: seq<ItemData>): (r: seq<OrderModel.OrderItem>)
    ensures |r| == |items|
    ensures forall i :: 0 <= i < |items| ==>
      r[i] == OrderModel.OrderItem(items[i].product, items[i].quantity, items[i].price)
  {
    seq(|items|, i requires 0 <= i < |items| => OrderModel.OrderItem(items[i].product, items[i].quantity, items[i].price))
  }

  /**
   * When every line's client price is its product's catalogue price, the checked total is the
   * order model's own `calculateTotalAmount` of the stored items.
   */
  lemma {:induction false} CheckedTotalIsOrderTotal(ps: seq<Product>, items: seq<ItemData>)
    requires CheckItems(ps, items).Success?
    requires forall i :: 0 <= i < |items| ==>
      FindProduct(ps, items[i].productId).Some? && items[i].price == Some(ps[FindProduct(ps, items[i].productId).value].basePrice)
    ensures OrderModel.CalculateTotalAmount(SchemaItems(items)) == Some(CheckItems(ps, items).value)
    decreases |items|
  {
    if |items| > 0 {
      var init := items[..|items| - 1];
      assert forall i :: 0 <= i < |init| ==> init[i] == items[i];
      CheckedTotalIsOrderTotal(ps, init);
      var schema := SchemaItems(items);
      assert schema[..|items| - 1] == SchemaItems(init);
      var last := items[|items| - 1];
      var k := FindProduct(ps, last.productId).value;
      assert CheckLine(ps, last) == Success(Amount(ps[k].basePrice, last.quantity));
      assert OrderModel.LineAmount(schema[|items| - 1]) == Amount(ps[k].basePrice, last.quantity);
      assert CheckItems(ps, items).value == CheckItems(ps, init).value + Amount(ps[k].basePrice, last.quantity);
    }
  }

  /** A change of one product's stock, as `updateProductStock(id, delta)` applies it. */
  datatype StockChange = StockChange(id: nat, delta: int)

  /** The products after a run of stock updates, and the error that stopped the run, if any. */
  datatype StockRun = StockRun(products: seq<Product>, error: Option<ServiceError>)

  /** Stock updates applied one after another; the first failing one stops the run and earlier ones stay applied. */
  function ApplyStockChanges(ps: seq<Product>, changes: seq<StockChange>): (r: StockRun)
    ensures |r.products| == |ps|
    ensures forall k :: 0 <= k < |ps| ==> r.products[k].id == ps[k].id
    decreases |changes|
  {
    if |changes| == 0 then StockRun(ps, None)
    else
      var prev := ApplyStockChanges(ps, changes[..|changes| - 1]);
      if prev.error.Some? then prev
      else
        var c := changes[|changes| - 1];
        match ProductService.StockUpdate(prev.products, c.id, c.delta)
        case Failure(e) => StockRun(prev.products, Some(e))
        case Success(qs) => StockRun(qs, None)
  }

  /** Once a prefix of the updates fails, the run ends there. */
  lemma {:induction false} ApplyFailurePersists(ps: seq<Product>, changes: seq<StockChange>, j: nat)
    requires j <= |changes| && ApplyStockChanges(ps, changes[..j]).error.Some?
    ensures ApplyStockChanges(ps, changes) == ApplyStockChanges(ps, changes[..j])
    decreases |changes|
  {
    if j < |changes| {
      var init := changes[..|changes| - 1];
      assert init[..j] == changes[..j];
      ApplyFailurePersists(ps, init, j);
    } else {
      assert changes[..j] == changes;
    }
  }

  /** The sum of the deltas for one product id. */
  function NetChange(changes: seq<StockChange>, id: nat): int
    decreases |changes|
  {
    if |changes| == 0 then 0
    else NetChange(changes[..|changes| - 1], id) + (if changes[|changes| - 1].id == id then changes[|changes| - 1].delta else 0)
  }

  /**
   * A run that completes changes every product's stock by the sum of the deltas for its id, and
   * nothing else.
   */
  lemma {:induction false} NetChangeApplied(ps: seq<Product>, changes: seq<StockChange>)
    requires UniqueProductIds(ps) && ApplyStockChanges(ps, changes).error.None?
    ensures forall k :: 0 <= k < |ps| ==>
      ApplyStockChanges(ps, changes).products[k] == ps[k].(stockQuantity := ps[k].stockQuantity + NetChange(changes, ps[k].id))
    decreases |changes|
  {
    if |changes| > 0 {
      var init := changes[..|changes| - 1];
      var c := changes[|changes| - 1];
      var prev := ApplyStockChanges(ps, init);
      assert prev.error.None?;
      NetChangeApplied(ps, init);
      var k0 := FindProduct(prev.products, c.id).value;
      forall k | 0 <= k < |ps|
        ensures ApplyStockChanges(ps, changes).products[k] == ps[k].(stockQuantity := ps[k].stockQuantity + NetChange(changes, ps[k].id))
      {
        if ps[k].id == c.id {
          assert k == k0;
        }
      }
    }
  }

  /** The stock decrements of an order: `-quantity` for each line's `productId`. */
  function Decrements(items: seq<ItemData>): (r: seq<StockChange>)
    ensures |r| == |items|
    ensures forall i :: 0 <= i < |items| ==> r[i] == StockChange(items[i].productId, -items[i].quantity)
  {
    seq(|items|, i requires 0 <= i < |items| => StockChange(items[i].productId, -items[i].quantity))
  }

  /** The total quantity ordered of one product over all lines. */
  function OrderedQuantity(items: seq<ItemData>, id: nat): int
    decreases |items|
  {
    if |items| == 0 then 0
    else OrderedQuantity(items[..|items| - 1], id) + (if items[|items| - 1].productId == id then items[|items| - 1].quantity else 0)
  }

  lemma {:induction false} DecrementsNetChange(items: seq<ItemData>, id: nat)
    ensures NetChange(Decrements(items), id) == -OrderedQuantity(items, id)
    decreases |items|
  {
    if |items| > 0 {
      DecrementsNetChange(items[..|items| - 1], id);
      assert Decrements(items)[..|items| - 1] == Decrements(items[..|items| - 1]);
    }
  }

  lemma {:induction false} NotOrderedQuantityZero(items: seq<ItemData>, id: nat)
    requires forall i :: 0 <= i < |items| ==> items[i].productId != id
    ensures OrderedQuantity(items, id) == 0
    decreases |items|
  {
    if |items| > 0 {
      NotOrderedQuantityZero(items[..|items| - 1], id);
    }
  }

  /** No two lines name the same product. */
  predicate DistinctLines(items: seq<ItemData>) {
    forall i, j :: 0 <= i < j < |items| ==> items[i].productId != items[j].productId
  }

  /** One more line, for a product no earlier line names and that passes its check, decrements cleanly. */
  lemma DecrementStep(ps: seq<Product>, init: seq<ItemData>, last: ItemData)
    requires UniqueProductIds(ps) && ApplyStockChanges(ps, Decrements(init)).error.None?
    requires forall i :: 0 <= i < |init| ==> init[i].productId != last.productId
    requires CheckLine(ps, last).Success?
    ensures ApplyStockChanges(ps, Decrements(init + [last])).error.None?
  {
    var items := init + [last];
    var changes := Decrements(items);
    assert changes[..|items| - 1] == Decrements(init);
    assert changes[|items| - 1] == StockChange(last.productId, -last.quantity);
    var prev := ApplyStockChanges(ps, Decrements(init));
    var k0 := FindProduct(ps, last.productId).value;
    UntouchedStock(ps, init, last.productId, k0);
    assert UniqueProductIds(prev.products);
    FindProductUnique(prev.products, last.productId, k0);
    assert ProductService.StockUpdate(prev.products, last.productId, -last.quantity).Success?;
  }

  /** Decrements for other products leave this product's stock as it was. */
  lemma UntouchedStock(ps: seq<Product>, init: seq<ItemData>, id: nat, k: nat)
    requires UniqueProductIds(ps) && ApplyStockChanges(ps, Decrements(init)).error.None?
    requires forall i :: 0 <= i < |init| ==> init[i].productId != id
    requires k < |ps| && ps[k].id == id
    ensures ApplyStockChanges(ps, Decrements(init)).products[k] == ps[k]
  {
    NetChangeApplied(ps, Decrements(init));
    NotOrderedQuantityZero(init, id);
    DecrementsNetChange(init, id);
  }

  /**
   * When no two lines name the same product, lines that pass the checks also pass the
   * decrements.
   */
  lemma {:induction false} CheckedDistinctLinesDecrement(ps: seq<Product>, items: seq<ItemData>)
    requires UniqueProductIds(ps) && DistinctLines(items) && CheckItems(ps, items).Success?
    ensures ApplyStockChanges(ps, Decrements(items)).error.None?
    decreases |items|
  {
    if |items| > 0 {
      var init := items[..|items| - 1];
      var last := items[|items| - 1];
      assert forall i :: 0 <= i < |init| ==> init[i] == items[i];
      assert DistinctLines(init);
      assert CheckItems(ps, init).Success?;
      CheckedDistinctLinesDecrement(ps, init);
      assert CheckLine(ps, last).Success?;
      assert forall i :: 0 <= i < |init| ==> init[i].productId != last.productId;
      assert init + [last] == items;
      DecrementStep(ps, init, last);
    }
  }

  /** Decrements that all succeed take from each product the total quantity ordered of it. */
  lemma DecrementsApplied(ps: seq<Product>, items: seq<ItemData>)
    requires UniqueProductIds(ps) && ApplyStockChanges(ps, Decrements(items)).error.None?
    ensures forall k :: 0 <= k < |ps| ==>
      ApplyStockChanges(ps, Decrements(items)).products[k] == ps[k].(stockQuantity := ps[k].stockQuantity - OrderedQuantity(items, ps[k].id))
  {
    NetChangeApplied(ps, Decrements(items));
    forall k | 0 <= k < |ps|
      ensures ApplyStockChanges(ps, Decrements(items)).products[k] == ps[k].(stockQuantity := ps[k].stockQuantity - OrderedQuantity(items, ps[k].id))
    {
      DecrementsNetChange(items, ps[k].id);
    }
  }

  /** `!orderData.userId || !orderData.items || orderData.items.length === 0`. */
  predicate InvalidOrderData(data: OrderData) {
    data.userId.None? || data.items.None? || |data.items.value| == 0
  }

  /** The outcome of an operation: its result and the product collection it leaves behind. */
  datatype Outcome<T> = Outcome(result: Result<T, ServiceError>, products: seq<Product>)

  /**
   * `createOrder`: the rejections that change nothing, then the decrements, then the save of the new
   * order, whose id is the next unused one and whose timestamp is `now`.
   */
  function CreateOrderSpec(users: set<nat>, ps: seq<Product>, nextId: nat, data: OrderData, now: nat): (out: Outcome<Order>)
    ensures InvalidOrderData(data) ==> out == Outcome(Failure(ApiError(400, "Invalid order data")), ps)
    ensures !InvalidOrderData(data) && data.userId.value !in users ==> out == Outcome(Failure(ApiError(404, "User not found")), ps)
    ensures !InvalidOrderData(data) && CheckItems(ps, data.items.value).Failure? ==>
      out.result.Failure? && out.products == ps
    ensures out.result.Success? ==>
      && OrderModel.ValidOrder(out.result.value)
      && out.result.value.id == nextId && out.result.value.user == data.userId.value
      && out.result.value.status == OrderModel.Pending && out.result.value.paymentStatus == OrderModel.PaymentPending
      && out.result.value.totalAmount == CheckItems(ps, data.items.value).value
      && out.result.value.items == SchemaItems(data.items.value)
      && out.result.value.createdAt == now
  {
    if InvalidOrderData(data) then Outcome(Failure(ApiError(400, "Invalid order data")), ps)
    else if data.userId.value !in users then Outcome(Failure(ApiError(404, "User not found")), ps)
    else match CheckItems(ps, data.items.value)
      case Failure(e) => Outcome(Failure(e), ps)
      case Success(total) =>
        var run := ApplyStockChanges(ps, Decrements(data.items.value));
        if run.error.Some? then Outcome(Failure(run.error.value), run.products)
        else
          var o := OrderModel.NewOrder(nextId, data.userId.value, SchemaItems(data.items.value), total,
            data.shippingAddress, data.paymentMethod, now);
          if OrderModel.ValidOrder(o) then Outcome(Success(o), run.products)
          else Outcome(Failure(ValidationError), run.products)
  }

  /** A created order takes out of each product's stock the total quantity its lines order of it. */
  lemma CreatedOrderDecrementsStock(users: set<nat>, ps: seq<Product>, nextId: nat, data: OrderData, now: nat)
    requires UniqueProductIds(ps)
    requires CreateOrderSpec(users, ps, nextId, data, now).result.Success?
    ensures forall k :: 0 <= k < |ps| ==>
      CreateOrderSpec(users, ps, nextId, data, now).products[k]
        == ps[k].(stockQuantity := ps[k].stockQuantity - OrderedQuantity(data.items.value, ps[k].id))
  {
    assert ApplyStockChanges(ps, Decrements(data.items.value)).error.None?;
    DecrementsApplied(ps, data.items.value);
  }

  /**
   * Lines that passed the checks but lack the schema's `product` or `price` make the save fail
   * after the stock has already been decremented.
   */
  lemma MissingSchemaFieldsFailAfterDecrement(users: set<nat>, ps: seq<Product>, nextId: nat, data: OrderData, now: nat, i: nat)
    requires !InvalidOrderData(data) && data.userId.value in users && CheckItems(ps, data.items.value).Success?
    requires ApplyStockChanges(ps, Decrements(data.items.value)).error.None?
    requires i < |data.items.value| && (data.items.value[i].product.None? || data.items.value[i].price.None?)
    ensures CreateOrderSpec(users, ps, nextId, data, now)
         == Outcome(Failure(ValidationError), ApplyStockChanges(ps, Decrements(data.items.value)).products)
  {
    assert !OrderModel.ValidItem(SchemaItems(data.items.value)[i]);
  }

  /** A catalogue of one product with stock 1, used by the two orders below. */
  function OneInStock(): seq<Product> {
    [ProductModel.Product(7, "Tee", 20.0, "Cotton", [], 1, [], [], false, 1)]
  }

  /**
   * Stock is checked per line, not per product: two lines of quantity 1 for the single unit in
   * stock both pass the checks, the first decrement takes the stock to 0 and the second fails
   * with 400, so the order is not created but the first unit is gone.
   */
  lemma DuplicateLinesFailAfterDecrement()
    ensures var line := ItemData(7, 1, Some(7), Some(20.0));
      var address := OrderModel.ShippingAddress("A", "B", None, "C", "D", "E", "F");
      var data := OrderData(Some(1), Some([line, line]), Some(address), Some("card"));
      && CheckItems(OneInStock(), [line, line]) == Success(40.0)
      && CreateOrderSpec({1}, OneInStock(), 10, data, 0)
         == Outcome(Failure(ApiError(400, "Invalid stock quantity")), [OneInStock()[0].(stockQuantity := 0)])
  {
    var line := ItemData(7, 1, Some(7), Some(20.0));
    var ps := OneInStock();
    assert [line, line][..1] == [line];
    assert [line][..0] == [];
    assert CheckItems(ps, [line]) == Success(20.0);
    var changes := Decrements([line, line]);
    assert changes[..1] == [StockChange(7, -1)];
    assert [StockChange(7, -1)][..0] == [];
    var once := ApplyStockChanges(ps, [StockChange(7, -1)]);
    assert once == StockRun([ps[0].(stockQuantity := 0)], None);
  }

  /**
   * A line with a negative quantity passes the stock check and raises the stock, and then the
   * save rejects the order (quantity below 1), leaving the raised stock behind.
   */
  lemma NegativeQuantityRaisesStockThenFails()
    ensures var line := ItemData(7, -3, Some(7), Some(20.0));
      var address := OrderModel.ShippingAddress("A", "B", None, "C", "D", "E", "F");
      var data := OrderData(Some(1), Some([line]), Some(address), Some("card"));
      CreateOrderSpec({1}, OneInStock(), 10, data, 0)
        == Outcome(Failure(ValidationError), [OneInStock()[0].(stockQuantity := 4)])
  {
    var line := ItemData(7, -3, Some(7), Some(20.0));
    var ps := OneInStock();
    assert [line][..0] == [];
    assert CheckItems(ps, [line]) == Success(-60.0);
    var changes := Decrements([line]);
    assert changes[..0] == [];
    assert !OrderModel.ValidItem(SchemaItems([line])[0]);
  }

  /** The checking loop of `createOrder`, reading the catalogue. */
  method CheckAvailability(db: Store, items: seq<ItemData>) returns (r: Result<real, ServiceError>)
    ensures r == CheckItems(db.products, items)
  {
    var total := 0.0;
    var i := 0;
    while i < |items|
      invariant 0 <= i <= |items|
      invariant CheckItems(db.products, items[..i]) == Success(total)
    {
      assert items[..i + 1][..i] == items[..i];
      var found := FindProduct(db.products, items[i].productId);
      if found.None? {
        CheckFailurePersists(db.products, items, i + 1);
        return Failure(ApiError(404, "Product not found: " + JsBuiltins.NatToString(items[i].productId)));
      }
      var product := db.products[found.value];
      if product.stockQuantity < items[i].quantity {
        CheckFailurePersists(db.products, items, i + 1);
        return Failure(ApiError(400, "Insufficient stock for product: " + product.name));
      }
      total := total + Amount(product.basePrice, items[i].quantity);
      i := i + 1;
    }
    assert items[..i] == items;
    r := Success(total);
  }

  /** A loop of `updateProductStock` calls; the first failure ends it. */
  method ApplyChanges(db: Store, changes: seq<StockChange>) returns (error: Option<ServiceError>)
    requires db.Valid()
    modifies db
    ensures db.Valid()
    ensures db.products == ApplyStockChanges(old(db.products), changes).products
    ensures error == ApplyStockChanges(old(db.products), changes).error
    ensures db.users == old(db.users) && db.styleLines == old(db.styleLines)
    ensures db.orders == old(db.orders) && db.nextId == old(db.nextId)
  {
    ghost var ps := db.products;
    var i := 0;
    while i < |changes|
      invariant 0 <= i <= |changes| && db.Valid()
      invariant ApplyStockChanges(ps, changes[..i]) == StockRun(db.products, None)
      invariant db.users == old(db.users) && db.styleLines == old(db.styleLines)
      invariant db.orders == old(db.orders) && db.nextId == old(db.nextId)
    {
      assert changes[..i + 1][..i] == changes[..i];
      var r := ProductService.UpdateProductStock(db, changes[i].id, changes[i].delta);
      if r.Failure? {
        ApplyFailurePersists(ps, changes, i + 1);
        return Some(r.error);
      }
      i := i + 1;
    }
    assert changes[..i] == changes;
    error := None;
  }

  /** `createOrder`, with `Date.now()` passed in as `now`. */
  method CreateOrder(db: Store, data: OrderData, now: nat) returns (r: Result<Order, ServiceError>)
    requires db.Valid()
    modifies db
    ensures db.Valid()
    ensures r == CreateOrderSpec(old(db.users), old(db.products), old(db.nextId), data, now).result
    ensures db.products == CreateOrderSpec(old(db.users), old(db.products), old(db.nextId), data, now).products
    ensures r.Success? ==> db.orders == old(db.orders) + [r.value] && db.nextId == old(db.nextId) + 1
    ensures r.Failure? ==> db.orders == old(db.orders) && db.nextId == old(db.nextId)
    ensures db.users == old(db.users) && db.styleLines == old(db.styleLines)
  {
    if InvalidOrderData(data) {
      return Failure(ApiError(400, "Invalid order data"));
    }
    if data.userId.value !in db.users {
      return Failure(ApiError(404, "User not found"));
    }
    var items := data.items.value;
    var checked := CheckAvailability(db, items);
    if checked.Failure? {
      return Failure(checked.error);
    }
    var order := OrderModel.NewOrder(db.nextId, data.userId.value, SchemaItems(items), checked.value,
      data.shippingAddress, data.paymentMethod, now);
    var error := ApplyChanges(db, Decrements(items));
    if error.Some? {
      return Failure(error.value);
    }
    if !OrderModel.ValidOrder(order) {
      return Failure(ValidationError);
    }
    SaveNewOrder(db, order);
    r := Success(order);
  }

  /** `order.save()` of a new, valid order: it is stored under the next id. */
  method SaveNewOrder(db: Store, order: Order)
    requires db.Valid() && order.id == db.nextId && OrderModel.ValidOrder(order)
    modifies db
    ensures db.Valid()
    ensures db.orders == old(db.orders) + [order] && db.nextId == old(db.nextId) + 1
    ensures db.users == old(db.users) && db.styleLines == old(db.styleLines) && db.products == old(db.products)
  {
    ghost var os := db.orders;
    db.orders := db.orders + [order];
    db.nextId := db.nextId + 1;
    assert db.orders[|os|] == order && db.orders[..|os|] == os;
  }

  /** `getOrderById`. */
  function GetOrderById(db: Store, id: nat): (r: Result<Order, ServiceError>)
    reads db
    ensures r.Success? <==> exists i :: 0 <= i < |db.orders| && db.orders[i].id == id
    ensures r.Success? ==> r.value in db.orders && r.value.id == id
    ensures r.Failure? ==> r.error == ApiError(404, "Order not found")
  {
    match FindOrder(db.orders, id)
    case None => Failure(ApiError(404, "Order not found"))
    case Some(k) => Success(db.orders[k])
  }

  /** `updateOrderStatus` of the service: 404, then the status whitelist, then the status is replaced. */
  method UpdateOrderStatus(db: Store, id: nat, newStatus: string) returns (r: Result<Order, ServiceError>)
    requires db.Valid()
    modifies db
    ensures db.Valid()
    ensures FindOrder(old(db.orders), id).None? ==> r == Failure(ApiError(404, "Order not found"))
    ensures FindOrder(old(db.orders), id).Some? && newStatus !in OrderModel.StatusNames ==>
      r == Failure(ApiError(400, "Invalid order status"))
    ensures FindOrder(old(db.orders), id).Some? && newStatus in OrderModel.StatusNames ==>
      var k := FindOrder(old(db.orders), id).value;
      && r.Success? && OrderModel.StatusName(r.value.status) == newStatus
      && r.value == old(db.orders)[k].(status := r.value.status)
      && Success(r.value) == OrderModel.UpdateOrderStatus(old(db.orders)[k], newStatus)
      && db.orders == old(db.orders)[k := r.value]
    ensures r.Failure? ==> db.orders == old(db.orders)
    ensures db.users == old(db.users) && db.styleLines == old(db.styleLines)
    ensures db.products == old(db.products) && db.nextId == old(db.nextId)
  {
    var found := FindOrder(db.orders, id);
    if found.None? {
      return Failure(ApiError(404, "Order not found"));
    }
    var status := OrderModel.ParseStatus(newStatus);
    if status.None? {
      return Failure(ApiError(400, "Invalid order status"));
    }
    var updated := db.orders[found.value].(status := status.value);
    db.orders := db.orders[found.value := updated];
    r := Success(updated);
  }

  /** `getUserOrders` options; `page` and `limit` default to 1 and 10 only when absent. */
  datatype OrderPagination = OrderPagination(page: Option<int>, limit: Option<int>)

  datatype OrderListing = OrderListing(orders: seq<Order>, total: nat)

  /** The orders of one user, in collection order. */
  function OrdersOf(os: seq<Order>, user: nat): (r: seq<Order>)
    ensures forall o :: o in r <==> o in os && o.user == user
    decreases |os|
  {
    if |os| == 0 then []
    else OrdersOf(os[..|os| - 1], user) + (if os[|os| - 1].user == user then [os[|os| - 1]] else [])
  }

  function CreatedAt(o: Order): real {
    o.createdAt as real
  }

  /** Newest first (`sort({ createdAt: -1 })`), then `skip((page - 1) * limit).limit(limit)`. */
  function UserOrdersPage(os: seq<Order>, user: nat, options: OrderPagination): (r: Result<seq<Order>, ServiceError>)
    ensures var page := if options.page.Some? then options.page.value else 1;
      var limit := if options.limit.Some? then options.limit.value else 10;
      r.Failure? <==> (page - 1) * limit < 0
    ensures r.Success? ==> |r.value| <= |OrdersOf(os, user)|
  {
    var page := if options.page.Some? then options.page.value else 1;
    var limit := if options.limit.Some? then options.limit.value else 10;
    Page(Sorting.SortDesc(OrdersOf(os, user), CreatedAt), (page - 1) * limit, limit)
  }

  /** `getUserOrders`. */
  function GetUserOrders(db: Store, user: nat, options: OrderPagination): (r: Result<OrderListing, ServiceError>)
    reads db
    ensures user !in db.users ==> r == Failure(ApiError(404, "User not found"))
    ensures r.Success? ==> r.value.total == |OrdersOf(db.orders, user)|
  {
    if user !in db.users then Failure(ApiError(404, "User not found"))
    else match UserOrdersPage(db.orders, user, options)
      case Failure(e) => Failure(e)
      case Success(page) => Success(OrderListing(page, |OrdersOf(db.orders, user)|))
  }

  /** A page cut from a sorted sequence is sorted and holds only elements of the sequence. */
  lemma PageOfSorted(sorted: seq<Order>, skip: nat, limit: int)
    requires Sorting.SortedDesc(sorted, CreatedAt)
    ensures var page := Page(sorted, skip, limit).value;
      Sorting.SortedDesc(page, CreatedAt) && forall i :: 0 <= i < |page| ==> page[i] in sorted
  {
    var page := Page(sorted, skip, limit).value;
    var from := if skip <= |sorted| then skip else |sorted|;
    assert forall i :: 0 <= i < |page| ==> page[i] == sorted[from + i];
  }

  /**
   * A page of a user's history holds only that user's orders, newest first, at most `|limit|` of
   * them (10 by default); page 0 gives a negative skip, which the database rejects.
   */
  lemma UserOrdersPageShape(os: seq<Order>, user: nat, options: OrderPagination)
    ensures var limit := if options.limit.Some? then options.limit.value else 10;
      var r := UserOrdersPage(os, user, options);
      && (options.page == Some(0) && limit > 0 ==> r == Failure(DatabaseError))
      && (r.Success? ==>
            && Sorting.SortedDesc(r.value, CreatedAt)
            && (forall i :: 0 <= i < |r.value| ==> r.value[i] in os && r.value[i].user == user)
            && (limit != 0 ==> |r.value| <= if limit < 0 then -limit else limit))
  {
    var page := if options.page.Some? then options.page.value else 1;
    var limit := if options.limit.Some? then options.limit.value else 10;
    var mine := OrdersOf(os, user);
    var sorted := Sorting.SortDesc(mine, CreatedAt);
    var r := UserOrdersPage(os, user, options);
    if r.Success? {
      var skip := (page - 1) * limit;
      PageBounds(sorted, skip, limit);
      Sorting.SortDescCorrect(mine, CreatedAt);
      PageOfSorted(sorted, skip, limit);
      forall i | 0 <= i < |r.value| ensures r.value[i] in os && r.value[i].user == user {
        assert r.value[i] in multiset(mine);
      }
    }
  }

  /** The statuses from which an order can be cancelled. */
  predicate Cancellable(s: OrderModel.OrderStatus) {
    s == OrderModel.Pending || s == OrderModel.Processing
  }

  /** The restocks of a cancellation: `+quantity` for each stored line's product. */
  function Restocks(items: seq<OrderModel.OrderItem>): (r: seq<StockChange>)
    requires forall i :: 0 <= i < |items| ==> items[i].product.Some?
    ensures |r| == |items|
    ensures forall i :: 0 <= i < |items| ==> r[i] == StockChange(items[i].product.value, items[i].quantity)
  {
    seq(|items|, i requires 0 <= i < |items| => StockChange(items[i].product.value, items[i].quantity))
  }

  /**
   * `cancelOrder`: 404, then only a pending or processing order can be cancelled; every line is
   * restocked and the order saved as cancelled. A restock that fails (its product was deleted)
   * ends the call: the earlier restocks stay and the order keeps its status.
   */
  method CancelOrder(db: Store, id: nat) returns (r: Result<Order, ServiceError>)
    requires db.Valid()
    modifies db
    ensures db.Valid()
    ensures FindOrder(old(db.orders), id).None? ==> r == Failure(ApiError(404, "Order not found")) && db.products == old(db.products)
    ensures FindOrder(old(db.orders), id).Some? ==>
      var k := FindOrder(old(db.orders), id).value;
      var o := old(db.orders)[k];
      && (!Cancellable(o.status) ==> r == Failure(ApiError(400, "Order cannot be cancelled")) && db.products == old(db.products))
      && (Cancellable(o.status) ==>
            var run := ApplyStockChanges(old(db.products), Restocks(o.items));
            && db.products == run.products
            && (run.error.Some? ==> r == Failure(run.error.value))
            && (run.error.None? ==> r == Success(o.(status := OrderModel.Cancelled)) && db.orders == old(db.orders)[k := r.value]))
    ensures r.Failure? ==> db.orders == old(db.orders)
    ensures db.users == old(db.users) && db.styleLines == old(db.styleLines) && db.nextId == old(db.nextId)
  {
    var found := FindOrder(db.orders, id);
    if found.None? {
      return Failure(ApiError(404, "Order not found"));
    }
    var k := found.value;
    var order := db.orders[k];
    if !Cancellable(order.status) {
      return Failure(ApiError(400, "Order cannot be cancelled"));
    }
    order := order.(status := OrderModel.Cancelled);
    assert forall i :: 0 <= i < |order.items| ==> OrderModel.ValidItem(order.items[i]);
    var error := ApplyChanges(db, Restocks(order.items));
    if error.Some? {
      return Failure(error.value);
    }
    db.orders := db.orders[k := order];
    r := Success(order);
  }

  /** The total quantity of one product over the stored lines of an order. */
  function RestockedQuantity(items: seq<OrderModel.OrderItem>, id: nat): int
    requires forall i :: 0 <= i < |items| ==> items[i].product.Some?
    decreases |items|
  {
    if |items| == 0 then 0
    else
      var last := items[|items| - 1];
      RestockedQuantity(items[..|items| - 1], id) + (if last.product.value == id then last.quantity else 0)
  }

  lemma {:induction false} RestocksNetChange(items: seq<OrderModel.OrderItem>, id: nat)
    requires forall i :: 0 <= i < |items| ==> items[i].product.Some?
    ensures NetChange(Restocks(items), id) == RestockedQuantity(items, id)
    decreases |items|
  {
    if |items| > 0 {
      RestocksNetChange(items[..|items| - 1], id);
      assert Restocks(items)[..|items| - 1] == Restocks(items[..|items| - 1]);
    }
  }

  /**
   * Restocking a valid order never runs into the stock bound (quantities are at least 1), so a
   * cancellation fails after the status check only when a line's product no longer exists.
   */
  lemma {:induction false} RestockNeverNegative(ps: seq<Product>, items: seq<OrderModel.OrderItem>)
    requires forall i :: 0 <= i < |items| ==> items[i].product.Some? && OrderModel.ValidItem(items[i])
    requires forall k :: 0 <= k < |ps| ==> ps[k].stockQuantity >= 0
    ensures RestockInvariant(ps, items)
    decreases |items|
  {
    if |items| > 0 {
      RestockNeverNegative(ps, items[..|items| - 1]);
      RestockStep(ps, items);
    }
  }

  /** What restocking guarantees: no stock below 0, and a failure only for a product that does not exist. */
  predicate RestockInvariant(ps: seq<Product>, items: seq<OrderModel.OrderItem>)
    requires forall i :: 0 <= i < |items| ==> items[i].product.Some?
  {
    var run := ApplyStockChanges(ps, Restocks(items));
    && (forall k :: 0 <= k < |ps| ==> run.products[k].stockQuantity >= 0)
    && (run.error.Some? ==> exists i :: 0 <= i < |items| && FindProduct(ps, items[i].product.value).None?)
  }

  /** One more restock line keeps the invariant. */
  lemma RestockStep(ps: seq<Product>, items: seq<OrderModel.OrderItem>)
    requires |items| > 0 && forall i :: 0 <= i < |items| ==> items[i].product.Some?
    requires items[|items| - 1].quantity >= 1
    requires RestockInvariant(ps, items[..|items| - 1])
    ensures RestockInvariant(ps, items)
  {
    var init, last := items[..|items| - 1], items[|items| - 1];
    var changes := Restocks(items);
    assert changes[..|init|] == Restocks(init);
    assert changes[|init|] == StockChange(last.product.value, last.quantity);
    var prev := ApplyStockChanges(ps, Restocks(init));
    if prev.error.Some? {
      var i :| 0 <= i < |init| && FindProduct(ps, init[i].product.value).None?;
      assert items[i] == init[i];
    } else {
      var id := last.product.value;
      IncreaseKeepsStock(prev.products, id, last.quantity);
      if FindProduct(prev.products, id).None? {
        SameIdsNotFound(ps, prev.products, id);
      }
    }
  }

  /** Raising a stock never fails on the stock bound: it fails only for an unknown id, and keeps every stock at least 0. */
  lemma IncreaseKeepsStock(qs: seq<Product>, id: nat, delta: int)
    requires delta >= 0 && forall k :: 0 <= k < |qs| ==> qs[k].stockQuantity >= 0
    ensures var u := ProductService.StockUpdate(qs, id, delta);
      && (u.Failure? ==> FindProduct(qs, id).None?)
      && (u.Success? ==> |u.value| == |qs| && forall k :: 0 <= k < |qs| ==> u.value[k].stockQuantity >= 0)
  {
  }

  /** Two collections with the same ids at the same positions agree on whether an id is absent. */
  lemma SameIdsNotFound(ps: seq<Product>, qs: seq<Product>, id: nat)
    requires |qs| == |ps| && forall k :: 0 <= k < |ps| ==> qs[k].id == ps[k].id
    requires FindProduct(qs, id).None?
    ensures FindProduct(ps, id).None?
  {
  }

  /**
   * When every restock of a cancellation succeeds, each product gets back the total quantity the
   * order's lines hold of it, and nothing else about it changes.
   */
  lemma RestocksReturnQuantities(ps: seq<Product>, items: seq<OrderModel.OrderItem>)
    requires forall i :: 0 <= i < |items| ==> items[i].product.Some?
    requires UniqueProductIds(ps) && ApplyStockChanges(ps, Restocks(items)).error.None?
    ensures forall k :: 0 <= k < |ps| ==>
      ApplyStockChanges(ps, Restocks(items)).products[k]
        == ps[k].(stockQuantity := ps[k].stockQuantity + RestockedQuantity(items, ps[k].id))
  {
    NetChangeApplied(ps, Restocks(items));
    forall k | 0 <= k < |ps|
      ensures ApplyStockChanges(ps, Restocks(items)).products[k]
        == ps[k].(stockQuantity := ps[k].stockQuantity + RestockedQuantity(items, ps[k].id))
    {
      RestocksNetChange(items, ps[k].id);
    }
  }

  /** `paymentDetails`; an absent, empty or zero field is falsy. */
  datatype PaymentDetails = PaymentDetails(paymentMethod: Option<string>, amount: Option<real>)

  datatype PaymentResult = PaymentResult(success: bool, transactionId: string)

  predicate InvalidPaymentDetails(d: PaymentDetails) {
    d.paymentMethod.None? || d.paymentMethod.value == "" || d.amount.None? || d.amount.value == 0.0
  }

  /**
   * `processPayment`, with `Date.now()` passed in as `now`: no gateway is called, so any truthy
   * method and amount succeed; the order becomes paid and processing whatever its status was
   * (cancelled included), and the amount is not compared with the order total.
   */
  method ProcessPayment(db: Store, id: nat, details: PaymentDetails, now: nat) returns (r: Result<PaymentResult, ServiceError>)
    requires db.Valid()
    modifies db
    ensures db.Valid()
    ensures FindOrder(old(db.orders), id).None? ==> r == Failure(ApiError(404, "Order not found"))
    ensures FindOrder(old(db.orders), id).Some? && InvalidPaymentDetails(details) ==>
      r == Failure(ApiError(400, "Invalid payment details"))
    ensures FindOrder(old(db.orders), id).Some? && !InvalidPaymentDetails(details) ==>
      var k := FindOrder(old(db.orders), id).value;
      && r == Success(PaymentResult(true, "TRANS-" + JsBuiltins.NatToString(now)))
      && db.orders == old(db.orders)[k := old(db.orders)[k].(status := OrderModel.Processing, paymentStatus := OrderModel.Paid)]
    ensures r.Failure? ==> db.orders == old(db.orders)
    ensures db.users == old(db.users) && db.styleLines == old(db.styleLines)
    ensures db.products == old(db.products) && db.nextId == old(db.nextId)
  {
    var found := FindOrder(db.orders, id);
    if found.None? {
      return Failure(ApiError(404, "Order not found"));
    }
    if InvalidPaymentDetails(details) {
      return Failure(ApiError(400, "Invalid payment details"));
    }
    var result := PaymentResult(true, "TRANS-" + JsBuiltins.NatToString(now));
    if result.success {
      var k := found.value;
      db.orders := db.orders[k := db.orders[k].(status := OrderModel.Processing, paymentStatus := OrderModel.Paid)];
    }
    r := Success(result);
  }

  /** Transaction ids differ exactly when the clock readings differ. */
  lemma TransactionIdsDistinct(now1: nat, now2: nat)
    ensures ("TRANS-" + JsBuiltins.NatToString(now1) == "TRANS-" + JsBuiltins.NatToString(now2)) <==> now1 == now2
  {
    var p := "TRANS-";
    if p + JsBuiltins.NatToString(now1) == p + JsBuiltins.NatToString(now2) {
      assert JsBuiltins.NatToString(now1) == (p + JsBuiltins.NatToString(now1))[|p|..];
      assert JsBuiltins.NatToString(now2) == (p + JsBuiltins.NatToString(now2))[|p|..];
    }
    JsBuiltins.NatToStringInjective(now1, now2);
  }
}
