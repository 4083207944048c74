/** The cart handlers (backend/controllers/cartController.js) over an in-memory
    map from customer id to cart. The dish collection is read-only here: it is
    the lookup `Dish.findById` performs. */
module CartController {
  import opened Common
  import opened CartModel

  /** What the cart handlers read of a dish. */
  datatype Dish = Dish(restaurant: nat, price: int)

  /** The body `getCart` replies with: the stored cart, or `{ items: [] }` with no restaurant. */
  datatype CartBody = CartBody(restaurant: Option<nat>, items: seq<CartItem>)

  /** What `removeCartItem` replies: the emptied cart was deleted, or the cart that remains. */
  datatype RemoveReply = CartEmptied | Remaining(cart: Cart)

  /** At most one line per dish. */
  predicate OneLinePerDish(items: seq<CartItem>) {
    forall i, j :: 0 <= i < j < |items| ==> items[i].dish != items[j].dish
  }

  /** `findIndex` on the dish: the first line for `dish`, or -1. */
  function FindLine(items: seq<CartItem>, dish: nat): (i: int)
    ensures -1 <= i < |items|
    ensures i == -1 <==> forall k :: 0 <= k < |items| ==> items[k].dish != dish
    ensures i >= 0 ==> items[i].dish == dish && forall k :: 0 <= k < i ==> items[k].dish != dish
  {
    if items == [] then -1
    else if items[0].dish == dish then 0
    else
      var j := FindLine(items[1..], dish);
      if j == -1 then -1 else j + 1
  }

  /** Adding one unit of a dish: an existing line gains exactly 1 and nothing else
      changes; otherwise one new line with quantity 1 is appended. */
  function AddLine(items: seq<CartItem>, dish: nat, price: int, instructions: string): (r: seq<CartItem>)
    ensures FindLine(items, dish) >= 0 ==>
              var i := FindLine(items, dish);
              |r| == |items| && r[i] == items[i].(quantity := items[i].quantity + 1)
              && forall k :: 0 <= k < |items| && k != i ==> r[k] == items[k]
    ensures FindLine(items, dish) == -1 ==> r == items + [CartItem(dish, 1, price, instructions)]
  {
    var i := FindLine(items, dish);
    if i >= 0 then items[i := items[i].(quantity := items[i].quantity + 1)]
    else items + [CartItem(dish, 1, price, instructions)]
  }

  /** Adding keeps at most one line per dish and every quantity at least 1, and leaves
      exactly one line for the added dish. */
  lemma AddLineKeepsLines(items: seq<CartItem>, dish: nat, price: int, instructions: string)
    requires OneLinePerDish(items)
    requires forall k :: 0 <= k < |items| ==> items[k].quantity >= 1
    ensures var r := AddLine(items, dish, price, instructions);
            OneLinePerDish(r)
            && (forall k :: 0 <= k < |r| ==> r[k].quantity >= 1)
            && FindLine(r, dish) >= 0
  {
    var r := AddLine(items, dish, price, instructions);
    if FindLine(items, dish) == -1 {
      assert r[|items|].dish == dish;
    } else {
      assert r[FindLine(items, dish)].dish == dish;
    }
  }

  /** `filter` on the dish: drop every line for `dish`, keep the rest. */
  function RemoveLines(items: seq<CartItem>, dish: nat): (r: seq<CartItem>)
    ensures |r| <= |items|
    ensures forall x :: x in r <==> x in items && x.dish != dish
  {
    if items == [] then []
    else if items[0].dish == dish then RemoveLines(items[1..], dish)
    else [items[0]] + RemoveLines(items[1..], dish)
  }

  /** Removing works piece by piece, so the kept lines stay in their order. */
  lemma {:induction false} RemoveLinesAppend(a: seq<CartItem>, b: seq<CartItem>, dish: nat)
    ensures RemoveLines(a + b, dish) == RemoveLines(a, dish) + RemoveLines(b, dish)
  {
    if a == [] {
      assert a + b == b;
    } else {
      assert (a + b)[1..] == a[1..] + b;
      RemoveLinesAppend(a[1..], b, dish);
    }
  }

  /** A list with no line for the dish is left as it is. */
  lemma {:induction false} RemoveAbsentLine(items: seq<CartItem>, dish: nat)
    requires FindLine(items, dish) == -1
    ensures RemoveLines(items, dish) == items
  {
    if items != [] {
      assert FindLine(items[1..], dish) == -1;
      RemoveAbsentLine(items[1..], dish);
    }
  }

  /** A cart the store may hold for customer `c`: it is that customer's, non-empty (an
      emptied cart is deleted), passes the schema, has at most one line per dish, and holds
      dishes of its own restaurant only. */
  ghost predicate StoredCartOk(c: nat, cart: Cart, dishes: map<nat, Dish>) {
    cart.customer == c && |cart.items| > 0 && ValidCart(cart) && OneLinePerDish(cart.items)
    && forall k :: 0 <= k < |cart.items| ==>
         cart.items[k].dish in dishes && dishes[cart.items[k].dish].restaurant == cart.restaurant
  }

  /** Adding a dish of the cart's own restaurant to a new or stored cart gives a cart the
      store may hold. */
  lemma AddLineKeepsStoredCart(c: nat, cart: Cart, dishes: map<nat, Dish>, dishId: nat, instructions: string)
    requires dishId in dishes && cart.customer == c && cart.restaurant == dishes[dishId].restaurant
    requires cart.items == [] || StoredCartOk(c, cart, dishes)
    ensures StoredCartOk(c, cart.(items := AddLine(cart.items, dishId, dishes[dishId].price, instructions)), dishes)
  {
    var items := cart.items;
    var r := AddLine(items, dishId, dishes[dishId].price, instructions);
    AddLineKeepsLines(items, dishId, dishes[dishId].price, instructions);
    forall k | 0 <= k < |r|
      ensures r[k].dish in dishes && dishes[r[k].dish].restaurant == cart.restaurant
    {
      if k < |items| {
        assert r[k].dish == items[k].dish;
      }
    }
  }

  /** The cart store: one cart per customer, and the dish collection it reads. */
  class CartStore {
    var carts: map<nat, Cart>
    const dishes: map<nat, Dish>

    /** Every stored cart belongs to its key's customer, is non-empty (an emptied cart is
        deleted), passes the schema, has at most one line per dish, and holds dishes of its
        own restaurant only. */
    ghost predicate Valid()
      reads this
    {
      forall c :: c in carts ==> StoredCartOk(c, carts[c], dishes)
    }

    constructor (catalog: map<nat, Dish>)
      ensures Valid() && carts == map[] && dishes == catalog
    {
      carts := map[];
      dishes := catalog;
    }

    /** getCart: the customer's cart, or an empty item list when there is none. */
    function GetCart(customer: nat): (r: CartBody)
      reads this
      ensures customer !in carts ==> r == CartBody(None, [])
      ensures customer in carts ==> r == CartBody(Some(carts[customer].restaurant), carts[customer].items)
    {
      if customer in carts then CartBody(Some(carts[customer].restaurant), carts[customer].items)
      else CartBody(None, [])
    }

    /** addItemToCart: one unit of `dishId` with `instructions` (the body default is ''). */
    method AddItemToCart(customer: nat, dishId: nat, instructions: string) returns (r: Result<Cart>)
      requires Valid()
      modifies this
      ensures Valid()
      ensures dishId !in dishes ==> r == Err(NotFound) && carts == old(carts)
      ensures dishId in dishes && customer in old(carts) && old(carts)[customer].restaurant != dishes[dishId].restaurant
              ==> r == Err(BadRequest) && carts == old(carts)
      ensures r.Ok? <==> dishId in dishes && (customer in old(carts) ==> old(carts)[customer].restaurant == dishes[dishId].restaurant)
      ensures r.Ok? ==>
                var before := if customer in old(carts) then old(carts)[customer].items else [];
                carts == old(carts)[customer := r.value]
                && r.value == Cart(customer, dishes[dishId].restaurant, AddLine(before, dishId, dishes[dishId].price, instructions))
    {
      if dishId !in dishes {
        return Err(NotFound);
      }
      var dish := dishes[dishId];
      var cart: Cart;
      if customer in carts {
        cart := carts[customer];
      } else {
        cart := Cart(customer, dish.restaurant, []);
      }
      if cart.restaurant != dish.restaurant {
        return Err(BadRequest);
      }
      AddLineKeepsStoredCart(customer, cart, dishes, dishId, instructions);
      ghost var added := cart.(items := AddLine(cart.items, dishId, dish.price, instructions));
      var i := FindLine(cart.items, dishId);
      if i > -1 {
        cart := cart.(items := cart.items[i := cart.items[i].(quantity := cart.items[i].quantity + 1)]);
      } else {
        cart := cart.(items := cart.items + [CartItem(dishId, 1, dish.price, instructions)]);
      }
      assert cart == added;
      carts := carts[customer := cart];
      r := Ok(cart);
    }

    /** updateCartItem: a missing cart or line is a 404; an absent quantity or instruction
        keeps the old value; a quantity below 1 fails the save (500) and changes nothing. */
    method UpdateCartItem(customer: nat, dishId: nat, quantity: Option<int>, instructions: Option<string>)
      returns (r: Result<Cart>)
      requires Valid()
      modifies this
      ensures Valid()
      ensures customer !in old(carts) ==> r == Err(NotFound)
      ensures customer in old(carts) && FindLine(old(carts)[customer].items, dishId) == -1 ==> r == Err(NotFound)
      ensures r.Err? ==> carts == old(carts)
      ensures r.Ok? <==> customer in old(carts) && FindLine(old(carts)[customer].items, dishId) >= 0
                         && quantity.GetOr(old(carts)[customer].items[FindLine(old(carts)[customer].items, dishId)].quantity) >= 1
      ensures r.Ok? ==>
                var items := old(carts)[customer].items;
                var i := FindLine(items, dishId);
                carts == old(carts)[customer := r.value]
                && r.value == old(carts)[customer].(items := items[i := CartItem(
                     dishId, quantity.GetOr(items[i].quantity), items[i].priceAtTime,
                     instructions.GetOr(items[i].specialInstructions))])
    {
      if customer !in carts {
        return Err(NotFound);
      }
      var cart := carts[customer];
      var i := FindLine(cart.items, dishId);
      if i == -1 {
        return Err(NotFound);
      }
      var item := cart.items[i];
      item := item.(quantity := quantity.GetOr(item.quantity));
      item := item.(specialInstructions := instructions.GetOr(item.specialInstructions));
      cart := cart.(items := cart.items[i := item]);
      assert cart.items[i] == item;
      assert ValidCart(cart) <==> item.quantity >= 1;
      var saved := SaveCart(cart);
      if saved.None? {
        return Err(ServerError);
      }
      carts := carts[customer := cart];
      r := Ok(cart);
    }

    /** removeCartItem: a missing cart is a 404; every line for the dish goes, and a cart
        left with no lines is deleted. */
    method RemoveCartItem(customer: nat, dishId: nat) returns (r: Result<RemoveReply>)
      requires Valid()
      modifies this
      ensures Valid()
      ensures customer !in old(carts) <==> r == Err(NotFound)
      ensures r.Err? ==> carts == old(carts)
      ensures r.Ok? ==>
                var kept := RemoveLines(old(carts)[customer].items, dishId);
                (kept == [] ==> r.value == CartEmptied && carts == old(carts) - {customer})
                && (kept != [] ==> r.value == Remaining(old(carts)[customer].(items := kept))
                                   && carts == old(carts)[customer := r.value.cart])
    {
      if customer !in carts {
        return Err(NotFound);
      }
      var cart := carts[customer];
      cart := cart.(items := RemoveLines(cart.items, dishId));
      if |cart.items| == 0 {
        carts := carts - {customer};
        return Ok(CartEmptied);
      }
      RemovePreservesLines(carts[customer].items, dishId);
      carts := carts[customer := cart];
      r := Ok(Remaining(cart));
    }

    /** clearCart: the customer has no cart afterwards, whether or not there was one. */
    method ClearCart(customer: nat)
      requires Valid()
      modifies this
      ensures Valid()
      ensures carts == old(carts) - {customer}
    {
      carts := carts - {customer};
    }
  }

  /** Removing lines keeps the remaining lines' properties: one line per dish, quantities,
      and membership of the original list. */
  lemma {:induction false} RemovePreservesLines(items: seq<CartItem>, dish: nat)
    requires OneLinePerDish(items)
    ensures OneLinePerDish(RemoveLines(items, dish))
    ensures forall k :: 0 <= k < |RemoveLines(items, dish)| ==> RemoveLines(items, dish)[k] in items
  {
    var r := RemoveLines(items, dish);
    forall k | 0 <= k < |r| ensures r[k] in items {
      assert r[k] in r;
    }
    if items != [] {
      RemovePreservesLines(items[1..], dish);
      if items[0].dish != dish {
        var rest := RemoveLines(items[1..], dish);
        forall k | 0 <= k < |rest| ensures rest[k].dish != items[0].dish {
          assert rest[k] in items[1..];
        }
      }
    }
  }
}
