/** The cart document (backend/models/Cart.js): one cart per customer, tied to
    one restaurant, holding lines of dish, quantity, price at time and
    instructions; the schema's required fields, `min: 1` and default. */
module CartModel {
  import opened Common

  /** One cart line. */
  datatype CartItem = CartItem(dish: nat, quantity: int, priceAtTime: int, specialInstructions: string)

  /** A stored cart: its customer, its restaurant and its lines. */
  datatype Cart = Cart(customer: nat, restaurant: nat, items: seq<CartItem>)

  /** The schema's `min: 1` on every line's quantity. */
  predicate ValidCart(c: Cart) {
    forall i :: 0 <= i < |c.items| ==> c.items[i].quantity >= 1
  }

  /** A line as handed to the schema, before casting. */
  datatype RawCartItem = RawCartItem(dish: Option<nat>, quantity: Option<int>, priceAtTime: Option<int>, specialInstructions: Option<string>)

  /** A cart as handed to the schema, before casting. */
  datatype RawCart = RawCart(customer: Option<nat>, restaurant: Option<nat>, items: seq<RawCartItem>)

  /** Casting a line: dish, quantity (at least 1) and price at time are required;
      instructions default to the empty string. */
  function CastCartItem(r: RawCartItem): (res: Option<CartItem>)
    ensures res.Some? <==> r.dish.Some? && r.quantity.Some? && r.quantity.value >= 1 && r.priceAtTime.Some?
    ensures res.Some? ==> res.value.dish == r.dish.value && res.value.quantity == r.quantity.value
                          && res.value.priceAtTime == r.priceAtTime.value
                          && res.value.specialInstructions == (if r.specialInstructions.Some? then r.specialInstructions.value else "")
  {
    if r.dish.Some? && r.quantity.Some? && r.quantity.value >= 1 && r.priceAtTime.Some? then
      Some(CartItem(r.dish.value, r.quantity.value, r.priceAtTime.value, r.specialInstructions.GetOr("")))
    else
      None
  }

  /** Casting a cart: customer and restaurant are required and every line must cast. */
  function CastCart(r: RawCart): (res: Option<Cart>)
    ensures res.Some? <==> r.customer.Some? && r.restaurant.Some?
                           && forall k :: 0 <= k < |r.items| ==> CastCartItem(r.items[k]).Some?
    ensures res.Some? ==> ValidCart(res.value) && |res.value.items| == |r.items|
                          && res.value.customer == r.customer.value && res.value.restaurant == r.restaurant.value
                          && forall k :: 0 <= k < |r.items| ==> res.value.items[k] == CastCartItem(r.items[k]).value
    decreases |r.items|
  {
    if r.customer.None? || r.restaurant.None? then None
    else if r.items == [] then Some(Cart(r.customer.value, r.restaurant.value, []))
    else
      match (CastCartItem(r.items[0]), CastCart(r.(items := r.items[1..])))
      case (Some(first), Some(rest)) => Some(rest.(items := [first] + rest.items))
      case _ => None
  }

  /** `cart.save()`: the save succeeds exactly when every quantity is at least 1. */
  function SaveCart(c: Cart): (res: Option<Cart>)
    ensures res.Some? <==> ValidCart(c)
    ensures res.Some? ==> res.value == c
  {
    if ValidCart(c) then Some(c) else None
  }
}
