/**
 * The mobile app's cart slice: a list of cart items with a loading flag and an error message, one
 * method per reducer case, and the two total selectors. Every thunk shares the same pending and
 * rejected cases.
 */
module MobileCartSlice {
  import opened Wrappers
  import opened SliceLists

  /**
   * A cart item as the server returns it. The shared type declares no `id`, yet the reducers read
   * one, so it is optional: `None` is a missing field, which reads as `undefined`.
   */
  datatype CartItem = CartItem(id: Option<string>, productId: string, quantity: int,
                               customDesignId: Option<string>, unitPrice: real)

  function ItemId(c: CartItem): Option<string> {
    c.id
  }

  class CartSlice {
    var items: seq<CartItem>
    var loading: bool
    var error: Option<string>

    /** The initial state. */
    constructor ()
      ensures items == [] && !loading && error == None
    {
      items := [];
      loading := false;
      error := None;
    }

    /** The pending case of every cart thunk. */
    method Pending()
      modifies this
      ensures loading && error == None && items == old(items)
    {
      loading := true;
      error := None;
    }

    /** The rejected case of every cart thunk: the payload is the thunk's fixed message. */
    method Rejected(payload: string)
      modifies this
      ensures !loading && error == Some(payload) && items == old(items)
    {
      loading := false;
      error := Some(payload);
    }

    /** Add-fulfilled: the payload becomes a new last line, even when the product is already in the cart. */
    method AddFulfilled(item: CartItem)
      modifies this
      ensures !loading && error == old(error) && items == old(items) + [item]
    {
      loading := false;
      items := items + [item];
    }

    /**
     * Remove-fulfilled as written: the remove thunk resolves with no value, so the payload the
     * filter compares ids against is always `undefined`.
     */
    method RemoveFulfilledAsWritten()
      modifies this
      ensures !loading && error == old(error) && items == RemoveKey(old(items), ItemId, None)
    {
      loading := false;
      items := RemoveKey(items, ItemId, None);
    }

    /** Remove-fulfilled comparing against the cart item id the thunk was dispatched with. */
    method RemoveFulfilled(cartItemId: string)
      modifies this
      ensures !loading && error == old(error) && items == RemoveKey(old(items), ItemId, Some(cartItemId))
    {
      loading := false;
      items := RemoveKey(items, ItemId, Some(cartItemId));
    }

    /** Update-fulfilled: the first line with the payload's id becomes the payload. */
    method UpdateFulfilled(item: CartItem)
      modifies this
      ensures !loading && error == old(error) && items == ReplaceFirst(old(items), ItemId, item)
    {
      loading := false;
      var index := FirstIndex(items, ItemId, item.id);
      if index.Some? {
        items := items[index.value := item];
      }
    }

    /** Clear-fulfilled. */
    method ClearFulfilled()
      modifies this
      ensures !loading && error == old(error) && items == []
    {
      loading := false;
      items := [];
    }
  }

  /** Every item carries an id. */
  predicate AllIdentified(items: seq<CartItem>) {
    forall i :: 0 <= i < |items| ==> items[i].id.Some?
  }

  /**
   * The removal as written drops exactly the items without an id and keeps every identified one,
   * so the item the user removed stays in the cart.
   */
  lemma RemovalAsWrittenKeepsIdentified(items: seq<CartItem>)
    ensures AllIdentified(items) ==> RemoveKey(items, ItemId, None) == items
    ensures AllIdentified(RemoveKey(items, ItemId, None))
  {
    if AllIdentified(items) {
      RemoveAbsentKey(items, ItemId, None);
    }
  }

  /** A one-line cart whose line has id "c1": removing "c1" as written leaves the cart as it was. */
  lemma RemovalAsWrittenCounterexample()
    ensures var cart := [CartItem(Some("c1"), "p1", 1, None, 25.0)];
      && RemoveKey(cart, ItemId, None) == cart
      && RemoveKey(cart, ItemId, Some("c1")) == []
  {
    var cart := [CartItem(Some("c1"), "p1", 1, None, 25.0)];
    RemoveAbsentKey(cart, ItemId, None);
    RemoveEveryKey(cart, ItemId, Some("c1"));
  }

  /** The corrected removal drops every line with that id and keeps every other line, in order. */
  lemma RemovalDropsOnlyThatId(items: seq<CartItem>, cartItemId: string)
    ensures forall i :: 0 <= i < |RemoveKey(items, ItemId, Some(cartItemId))| ==>
      RemoveKey(items, ItemId, Some(cartItemId))[i].id != Some(cartItemId)
    ensures forall i :: 0 <= i < |items| && items[i].id != Some(cartItemId) ==>
      items[i] in RemoveKey(items, ItemId, Some(cartItemId))
    ensures forall a, b :: a + b == items ==>
      RemoveKey(items, ItemId, Some(cartItemId)) == RemoveKey(a, ItemId, Some(cartItemId)) + RemoveKey(b, ItemId, Some(cartItemId))
  {
    RemoveKeyMembers(items, ItemId, Some(cartItemId));
    forall a, b | a + b == items
      ensures RemoveKey(items, ItemId, Some(cartItemId)) == RemoveKey(a, ItemId, Some(cartItemId)) + RemoveKey(b, ItemId, Some(cartItemId))
    {
      RemoveKeyConcat(a, b, ItemId, Some(cartItemId));
    }
  }

  function LineTotal(item: CartItem): real {
    (item.quantity as real) * item.unitPrice
  }

  /** `selectCartTotal`: quantity × unit price summed from the left, starting at 0. */
  function CartTotal(items: seq<CartItem>): real
    decreases |items|
  {
    if |items| == 0 then 0.0 else CartTotal(items[..|items| - 1]) + LineTotal(items[|items| - 1])
  }

  /** `selectCartItemCount`: the quantities summed from the left, starting at 0. */
  function CartItemCount(items: seq<CartItem>): int
    decreases |items|
  {
    if |items| == 0 then 0 else CartItemCount(items[..|items| - 1]) + items[|items| - 1].quantity
  }

  /** Both selectors split over concatenation. */
  lemma {:induction false} SelectorsConcat(a: seq<CartItem>, b: seq<CartItem>)
    ensures CartTotal(a + b) == CartTotal(a) + CartTotal(b)
    ensures CartItemCount(a + b) == CartItemCount(a) + CartItemCount(b)
    decreases |b|
  {
    if |b| == 0 {
      assert a + b == a;
    } else {
      assert (a + b)[..|a + b| - 1] == a + b[..|b| - 1];
      SelectorsConcat(a, b[..|b| - 1]);
    }
  }

  /** After add-fulfilled the totals grow by the new line; after clear-fulfilled both are 0. */
  lemma SelectorsAfterAdd(items: seq<CartItem>, item: CartItem)
    ensures CartTotal(items + [item]) == CartTotal(items) + LineTotal(item)
    ensures CartItemCount(items + [item]) == CartItemCount(items) + item.quantity
    ensures CartTotal([]) == 0.0 && CartItemCount([]) == 0
  {
    SelectorsConcat(items, [item]);
    assert [item][..0] == [];
  }

  /** After update-fulfilled replaces line `k`, the totals change by the difference between the two lines. */
  lemma SelectorsAfterUpdate(items: seq<CartItem>, item: CartItem, k: nat)
    requires IsFirst(items, ItemId, item.id, k)
    ensures CartTotal(ReplaceFirst(items, ItemId, item)) == CartTotal(items) - LineTotal(items[k]) + LineTotal(item)
    ensures CartItemCount(ReplaceFirst(items, ItemId, item)) == CartItemCount(items) - items[k].quantity + item.quantity
  {
    var r := ReplaceFirst(items, ItemId, item);
    assert r == items[..k] + [item] + items[k + 1..];
    assert items == items[..k] + [items[k]] + items[k + 1..];
    SelectorsConcat(items[..k] + [item], items[k + 1..]);
    SelectorsAfterAdd(items[..k], item);
    SelectorsConcat(items[..k] + [items[k]], items[k + 1..]);
    SelectorsAfterAdd(items[..k], items[k]);
  }
}
