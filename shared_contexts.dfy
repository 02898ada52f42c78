/**
 * The shared client contexts: the cart provider's update functions (each maps the previous list
 * of cart lines to the next one), its two totals, and the theme toggle. The persistence of both
 * states in local storage is not modelled.
 */
module SharedContexts {

  datatype Theme = Light | Dark

  /** `prevTheme === 'light' ? 'dark' : 'light'`. */
  function ToggleTheme(t: Theme): (r: Theme)
    ensures r != t
  {
    if t == Light then Dark else Light
  }

  /** Toggling twice restores the theme. */
  lemma ToggleThemeInvolution(t: Theme)
    ensures ToggleTheme(ToggleTheme(t)) == t
  {
  }

  /** The fields of a shared product the cart reads. */
  datatype Product = Product(id: string, basePrice: real)

  /** A cart line as the cart provider builds it. */
  datatype CartLine = CartLine(productId: string, quantity: int, price: real)

  predicate HasProduct(items: seq<CartLine>, id: string) {
    exists i :: 0 <= i < |items| && items[i].productId == id
  }

  predicate UniqueProducts(items: seq<CartLine>) {
    forall i, j :: 0 <= i < j < |items| ==> items[i].productId != items[j].productId
  }

  /** `prevItems.map(item => item.productId === id ? f(item) : item)` with `f` adding `quantity`. */
  function AddQuantity(items: seq<CartLine>, id: string, quantity: int): (r: seq<CartLine>)
    ensures |r| == |items|
    ensures forall i :: 0 <= i < |items| ==>
      r[i] == if items[i].productId == id then items[i].(quantity := items[i].quantity + quantity) else items[i]
  {
    seq(|items|, i requires 0 <= i < |items| =>
      if items[i].productId == id then items[i].(quantity := items[i].quantity + quantity) else items[i])
  }

  /** `addToCart`: an existing product's lines grow by `quantity`; a new product gets a line at the end. */
  function AddToCart(items: seq<CartLine>, product: Product, quantity: int): (r: seq<CartLine>)
    ensures |r| == if HasProduct(items, product.id) then |items| else |items| + 1
  {
    if HasProduct(items, product.id) then AddQuantity(items, product.id, quantity)
    else items + [CartLine(product.id, quantity, product.basePrice)]
  }

  /** Adding an existing product changes only that product's line, by exactly `quantity`. */
  lemma AddExisting(items: seq<CartLine>, product: Product, quantity: int, k: nat)
    requires UniqueProducts(items) && k < |items| && items[k].productId == product.id
    ensures AddToCart(items, product, quantity) == items[k := items[k].(quantity := items[k].quantity + quantity)]
  {
    var r := AddToCart(items, product, quantity);
    assert forall i :: 0 <= i < |items| && i != k ==> items[i].productId != product.id;
  }

  /** Adding a new product appends one line holding its id, the quantity and its base price. */
  lemma AddNew(items: seq<CartLine>, product: Product, quantity: int)
    requires !HasProduct(items, product.id)
    ensures AddToCart(items, product, quantity) == items + [CartLine(product.id, quantity, product.basePrice)]
  {
  }

  /** Product ids that are unique before `addToCart` are unique after. */
  lemma AddKeepsUnique(items: seq<CartLine>, product: Product, quantity: int)
    requires UniqueProducts(items)
    ensures UniqueProducts(AddToCart(items, product, quantity))
    ensures HasProduct(AddToCart(items, product, quantity), product.id)
  {
    var r := AddToCart(items, product, quantity);
    if !HasProduct(items, product.id) {
      assert r[|items|].productId == product.id;
    } else {
      var k :| 0 <= k < |items| && items[k].productId == product.id;
      assert r[k].productId == product.id;
    }
  }

  /** `removeFromCart`: `prevItems.filter(item => item.productId !== productId)`. */
  function RemoveFromCart(items: seq<CartLine>, id: string): (r: seq<CartLine>)
    ensures |r| <= |items|
    decreases |items|
  {
    if |items| == 0 then []
    else RemoveFromCart(items[..|items| - 1], id) + (if items[|items| - 1].productId != id then [items[|items| - 1]] else [])
  }

  /** No line of the product is left, every other line stays, and no line is invented. */
  lemma {:induction false} RemoveMembers(items: seq<CartLine>, id: string)
    ensures forall l :: l in RemoveFromCart(items, id) <==> l in items && l.productId != id
    decreases |items|
  {
    if |items| > 0 {
      RemoveMembers(items[..|items| - 1], id);
      assert items == items[..|items| - 1] + [items[|items| - 1]];
    }
  }

  /** The kept lines stay in their order: removal distributes over concatenation. */
  lemma {:induction false} RemoveConcat(a: seq<CartLine>, b: seq<CartLine>, id: string)
    ensures RemoveFromCart(a + b, id) == RemoveFromCart(a, id) + RemoveFromCart(b, id)
    decreases |b|
  {
    if |b| == 0 {
      assert a + b == a;
    } else {
      assert (a + b)[..|a + b| - 1] == a + b[..|b| - 1];
      RemoveConcat(a, b[..|b| - 1], id);
    }
  }

  /** Removing a product the cart does not hold changes nothing. */
  lemma {:induction false} RemoveAbsent(items: seq<CartLine>, id: string)
    requires !HasProduct(items, id)
    ensures RemoveFromCart(items, id) == items
    decreases |items|
  {
    if |items| > 0 {
      RemoveAbsent(items[..|items| - 1], id);
      assert items == items[..|items| - 1] + [items[|items| - 1]];
    }
  }

  /** `Math.max(0, quantity)`. */
  function ClampQuantity(q: int): (r: int)
    ensures r >= 0 && (q >= 0 ==> r == q) && (q < 0 ==> r == 0)
  {
    if q < 0 then 0 else q
  }

  /** `updateQuantity`: the product's lines take the quantity, clamped at 0; no line is removed. */
  function UpdateQuantity(items: seq<CartLine>, id: string, quantity: int): (r: seq<CartLine>)
    ensures |r| == |items|
    ensures forall i :: 0 <= i < |items| ==>
      && r[i].productId == items[i].productId && r[i].price == items[i].price
      && r[i].quantity == (if items[i].productId == id then ClampQuantity(quantity) else items[i].quantity)
  {
    seq(|items|, i requires 0 <= i < |items| =>
      if items[i].productId == id then items[i].(quantity := ClampQuantity(quantity)) else items[i])
  }

  /** Setting a quantity twice is setting it once; product ids stay unique. */
  lemma UpdateQuantityIdempotent(items: seq<CartLine>, id: string, quantity: int)
    ensures UpdateQuantity(UpdateQuantity(items, id, quantity), id, quantity) == UpdateQuantity(items, id, quantity)
    ensures UniqueProducts(items) ==> UniqueProducts(UpdateQuantity(items, id, quantity))
  {
  }

  /** `clearCart`. */
  function ClearCart(items: seq<CartLine>): (r: seq<CartLine>)
    ensures r == []
  {
    []
  }

  /** `totalItems`: the quantities summed from the left. */
  function TotalItems(items: seq<CartLine>): int
    decreases |items|
  {
    if |items| == 0 then 0 else TotalItems(items[..|items| - 1]) + items[|items| - 1].quantity
  }

  /** With no negative quantity the item count is never negative, and it is 0 exactly when every quantity is 0. */
  lemma {:induction false} TotalItemsNonNegative(items: seq<CartLine>)
    requires forall i :: 0 <= i < |items| ==> items[i].quantity >= 0
    ensures TotalItems(items) >= 0
    ensures TotalItems(items) == 0 <==> forall i :: 0 <= i < |items| ==> items[i].quantity == 0
    decreases |items|
  {
    if |items| > 0 {
      var init := items[..|items| - 1];
      assert forall i :: 0 <= i < |init| ==> init[i] == items[i];
      TotalItemsNonNegative(init);
    }
  }

  function LinePrice(l: CartLine): real {
    l.price * (l.quantity as real)
  }

  /** `totalPrice`: price × quantity summed from the left. */
  function TotalPrice(items: seq<CartLine>): real
    decreases |items|
  {
    if |items| == 0 then 0.0 else TotalPrice(items[..|items| - 1]) + LinePrice(items[|items| - 1])
  }

  /** Both totals split over concatenation; an empty cart totals 0. */
  lemma {:induction false} TotalsConcat(a: seq<CartLine>, b: seq<CartLine>)
    ensures TotalItems(a + b) == TotalItems(a) + TotalItems(b)
    ensures TotalPrice(a + b) == TotalPrice(a) + TotalPrice(b)
    ensures TotalItems(ClearCart(a)) == 0 && TotalPrice(ClearCart(a)) == 0.0
    decreases |b|
  {
    if |b| == 0 {
      assert a + b == a;
    } else {
      assert (a + b)[..|a + b| - 1] == a + b[..|b| - 1];
      TotalsConcat(a, b[..|b| - 1]);
    }
  }

  lemma Singleton(x: CartLine)
    ensures TotalItems([x]) == x.quantity && TotalPrice([x]) == LinePrice(x)
  {
    assert [x][..0] == [];
  }

  /** The totals of a cart split around one line. */
  lemma {:induction false} TotalsAround(items: seq<CartLine>, k: nat)
    requires k < |items|
    ensures TotalItems(items) == TotalItems(items[..k]) + items[k].quantity + TotalItems(items[k + 1..])
    ensures TotalPrice(items) == TotalPrice(items[..k]) + LinePrice(items[k]) + TotalPrice(items[k + 1..])
  {
    assert items == items[..k] + [items[k]] + items[k + 1..];
    TotalsConcat(items[..k] + [items[k]], items[k + 1..]);
    TotalsConcat(items[..k], [items[k]]);
    Singleton(items[k]);
  }

  lemma LinePriceAdd(l: CartLine, quantity: int)
    ensures LinePrice(l.(quantity := l.quantity + quantity)) == LinePrice(l) + l.price * (quantity as real)
  {
  }

  /** Adding `quantity` to one line raises the item total by `quantity` and the price total by price × quantity. */
  lemma TotalsAfterAddQuantity(items: seq<CartLine>, k: nat, quantity: int)
    requires k < |items|
    ensures var r := items[k := items[k].(quantity := items[k].quantity + quantity)];
      && TotalItems(r) == TotalItems(items) + quantity
      && TotalPrice(r) == TotalPrice(items) + items[k].price * (quantity as real)
  {
    var r := items[k := items[k].(quantity := items[k].quantity + quantity)];
    TotalsAround(items, k);
    TotalsAround(r, k);
    assert r[..k] == items[..k] && r[k + 1..] == items[k + 1..];
    LinePriceAdd(items[k], quantity);
  }

  /** Adding a product the cart holds at line `k` moves both totals by that line's share of `quantity`. */
  lemma AddExistingTotals(items: seq<CartLine>, product: Product, quantity: int, k: nat)
    requires UniqueProducts(items) && k < |items| && items[k].productId == product.id
    ensures TotalItems(AddToCart(items, product, quantity)) == TotalItems(items) + quantity
    ensures TotalPrice(AddToCart(items, product, quantity)) == TotalPrice(items) + items[k].price * (quantity as real)
  {
    AddExisting(items, product, quantity, k);
    TotalsAfterAddQuantity(items, k, quantity);
  }

  /** Adding a product the cart does not hold moves both totals by the new line's quantity and price. */
  lemma AddNewTotals(items: seq<CartLine>, product: Product, quantity: int)
    requires !HasProduct(items, product.id)
    ensures TotalItems(AddToCart(items, product, quantity)) == TotalItems(items) + quantity
    ensures TotalPrice(AddToCart(items, product, quantity)) == TotalPrice(items) + product.basePrice * (quantity as real)
  {
    var line := CartLine(product.id, quantity, product.basePrice);
    AddNew(items, product, quantity);
    TotalsConcat(items, [line]);
    Singleton(line);
  }

  /**
   * With unique product ids, `addToCart` raises the item count by exactly `quantity`, and the price
   * total by `quantity` times the price of the product's line: the line's stored price when the cart
   * already holds the product, its base price when the line is new.
   */
  lemma AddToCartTotals(items: seq<CartLine>, product: Product, quantity: int)
    requires UniqueProducts(items)
    ensures TotalItems(AddToCart(items, product, quantity)) == TotalItems(items) + quantity
    ensures !HasProduct(items, product.id) ==>
      TotalPrice(AddToCart(items, product, quantity)) == TotalPrice(items) + product.basePrice * (quantity as real)
    ensures forall k :: 0 <= k < |items| && items[k].productId == product.id ==>
      TotalPrice(AddToCart(items, product, quantity)) == TotalPrice(items) + items[k].price * (quantity as real)
  {
    if HasProduct(items, product.id) {
      var k :| 0 <= k < |items| && items[k].productId == product.id;
      AddExistingTotals(items, product, quantity, k);
      forall j | 0 <= j < |items| && items[j].productId == product.id
        ensures TotalPrice(AddToCart(items, product, quantity)) == TotalPrice(items) + items[j].price * (quantity as real)
      {
        AddExistingTotals(items, product, quantity, j);
      }
    } else {
      AddNewTotals(items, product, quantity);
    }
  }
}
