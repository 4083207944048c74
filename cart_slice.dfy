/** The client cart state (frontend/src/redux/slices/cartSlice.js). The reducer
    cases assign `loading`, `items`, `restaurantId` and `error` of the draft in
    place; here the slice is a class and each case a method stating the whole new
    state. The thunks' HTTP calls are out of the model: a thunk is seen only
    through its pending, fulfilled or rejected action, whose payload is the
    server's reply or the rejection message. */
module CartSlice {
  import opened Common

  /** A cart line as the server sends it; `dish` is the dish id as a string. */
  datatype ClientCartItem = ClientCartItem(dish: string, quantity: int, priceAtTime: int, specialInstructions: string)

  /** The server's cart reply; either field may be missing (`{ items: [] }` has no restaurant). */
  datatype CartReply = CartReply(items: Option<seq<ClientCartItem>>, restaurantId: Option<string>)

  /** A stored cart as the add and update handlers reply with it: always items and a restaurant. */
  datatype StoredCart = StoredCart(items: seq<ClientCartItem>, restaurantId: string)

  /** The whole slice state. */
  datatype CartState = CartState(items: seq<ClientCartItem>, restaurantId: Option<string>, loading: bool, error: Option<string>)

  const Initial := CartState([], None, false, None)

  /** `items.filter(item => item.dish.toString() !== dishId)`. */
  function WithoutDish(items: seq<ClientCartItem>, dishId: string): (r: seq<ClientCartItem>)
    ensures |r| <= |items|
    ensures forall x :: x in r <==> x in items && x.dish != dishId
  {
    if items == [] then []
    else if items[0].dish == dishId then WithoutDish(items[1..], dishId)
    else [items[0]] + WithoutDish(items[1..], dishId)
  }

  /** The filter works piece by piece, so the kept items stay in their order. */
  lemma {:induction false} WithoutDishAppend(a: seq<ClientCartItem>, b: seq<ClientCartItem>, dishId: string)
    ensures WithoutDish(a + b, dishId) == WithoutDish(a, dishId) + WithoutDish(b, dishId)
  {
    if a == [] {
      assert a + b == b;
    } else {
      assert (a + b)[1..] == a[1..] + b;
      WithoutDishAppend(a[1..], b, dishId);
    }
  }

  /** Removing the same dish twice is removing it once. */
  lemma {:induction false} WithoutDishIdempotent(items: seq<ClientCartItem>, dishId: string)
    ensures WithoutDish(WithoutDish(items, dishId), dishId) == WithoutDish(items, dishId)
  {
    if items != [] {
      WithoutDishIdempotent(items[1..], dishId);
    }
  }

  /** A cart with no item for the dish is left as it is. */
  lemma {:induction false} WithoutAbsentDish(items: seq<ClientCartItem>, dishId: string)
    requires forall k :: 0 <= k < |items| ==> items[k].dish != dishId
    ensures WithoutDish(items, dishId) == items
  {
    if items != [] {
      WithoutAbsentDish(items[1..], dishId);
    }
  }

  /** `x || null` on a string: the empty string is falsy and becomes null. */
  function OrNull(s: Option<string>): (r: Option<string>)
    ensures r.Some? <==> Truthy(s)
    ensures r.Some? ==> r == s
  {
    if Truthy(s) then s else None
  }

  /** The slice's state, updated in place by the reducer cases. */
  class CartSliceState {
    var items: seq<ClientCartItem>
    var restaurantId: Option<string>
    var loading: bool
    var error: Option<string>

    function Snapshot(): CartState
      reads this
    {
      CartState(items, restaurantId, loading, error)
    }

    constructor ()
      ensures Snapshot() == Initial
    {
      items, restaurantId, loading, error := [], None, false, None;
    }

    /** resetCartError: clears the error only. */
    method ResetCartError()
      modifies this
      ensures Snapshot() == old(Snapshot()).(error := None)
    {
      error := None;
    }

    /** The pending case of every cart thunk (fetchCart, addToCart, updateCartItem,
        removeFromCart, clearCart): loading, and nothing else changes. */
    method Pending()
      modifies this
      ensures Snapshot() == old(Snapshot()).(loading := true)
    {
      loading := true;
    }

    /** The rejected case of every cart thunk: loading stops and the message is recorded;
        the items and restaurant are kept. */
    method Rejected(message: string)
      modifies this
      ensures Snapshot() == old(Snapshot()).(loading := false, error := Some(message))
    {
      loading := false;
      error := Some(message);
    }

    /** fetchCart.fulfilled: the reply's items or [], its restaurant id or null. */
    method FetchCartFulfilled(reply: CartReply)
      modifies this
      ensures Snapshot() == old(Snapshot()).(loading := false, items := reply.items.GetOr([]),
                                             restaurantId := OrNull(reply.restaurantId))
    {
      loading := false;
      items := reply.items.GetOr([]);
      restaurantId := OrNull(reply.restaurantId);
    }

    /** addToCart.fulfilled: the stored cart's items and restaurant, taken as they come. */
    method AddToCartFulfilled(cart: StoredCart)
      modifies this
      ensures Snapshot() == old(Snapshot()).(loading := false, items := cart.items,
                                             restaurantId := Some(cart.restaurantId))
    {
      loading := false;
      items := cart.items;
      restaurantId := Some(cart.restaurantId);
    }

    /** updateCartItem.fulfilled: the stored cart's items; the restaurant is kept. */
    method UpdateCartItemFulfilled(cart: StoredCart)
      modifies this
      ensures Snapshot() == old(Snapshot()).(loading := false, items := cart.items)
    {
      loading := false;
      items := cart.items;
    }

    /** removeFromCart.fulfilled with the removed dish id: every item for it goes, the rest
        keep their order, and the restaurant is forgotten exactly when nothing is left. */
    method RemoveFromCartFulfilled(dishId: string)
      modifies this
      ensures items == WithoutDish(old(items), dishId)
      ensures items == [] ==> restaurantId == None
      ensures items != [] ==> restaurantId == old(restaurantId)
      ensures !loading && error == old(error)
    {
      loading := false;
      items := WithoutDish(items, dishId);
      if |items| == 0 {
        restaurantId := None;
      }
    }

    /** clearCart.fulfilled: no items, no restaurant, not loading; the error is kept. */
    method ClearCartFulfilled()
      modifies this
      ensures Snapshot() == old(Snapshot()).(loading := false, items := [], restaurantId := None)
    {
      loading := false;
      items := [];
      restaurantId := None;
    }
  }
}
