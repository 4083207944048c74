/** The order handlers (backend/controllers/orderController.js) over an
    in-memory order collection. Each command is specified by a pure
    transition on the map from order id to order; the `OrderStore` class
    performs it in place. Queries filter by owner (and status) and sort
    newest first. */
module OrderController {
  import opened Common
  import opened OrderModel

  /** One submitted item as the request body carries it (`dishId`, `quantity`, `price`). */
  datatype ItemInput = ItemInput(dishId: Option<nat>, quantity: Option<int>, price: Option<int>)

  /** Every stored order sits under its own id. */
  ghost predicate WellKeyed(orders: map<nat, Order>) {
    forall id :: id in orders ==> orders[id].id == id
  }

  /** The document `createOrder` hands to `Order.create`: status `New`, and each
      submitted item becomes one item whose price at time is the submitted price. */
  function RawFromRequest(customer: nat, items: seq<ItemInput>, restaurant: Option<nat>, totalAmount: Option<int>): (r: RawOrder)
    ensures r.customer == Some(customer) && r.restaurant == restaurant && r.totalPrice == totalAmount
    ensures r.status == Some("New")
    ensures |r.items| == |items|
    ensures forall k :: 0 <= k < |items| ==>
              r.items[k] == RawItem(items[k].dishId, items[k].quantity, items[k].price, None)
  {
    RawOrder(Some(customer), restaurant,
             seq(|items|, k requires 0 <= k < |items| => RawItem(items[k].dishId, items[k].quantity, items[k].price, None)),
             Some("New"), totalAmount)
  }

  /** What the schema demands of one submitted item: a dish, a price and a quantity of at least 1. */
  predicate Castable(i: ItemInput) {
    i.dishId.Some? && i.quantity.Some? && i.quantity.value >= 1 && i.price.Some?
  }

  /** createOrder: a missing or empty item list is a 400 and stores nothing; an order the
      schema rejects is a 500 and stores nothing; otherwise the new order is stored under
      the fresh id `id` with status New and nothing else changes. The order is stored exactly
      when the list is non-empty, the restaurant and total are present and every item casts. */
  function Create(orders: map<nat, Order>, id: nat, customer: nat, items: Option<seq<ItemInput>>,
                  restaurant: Option<nat>, totalAmount: Option<int>, now: int): (out: (Result<nat>, map<nat, Order>))
    requires id !in orders
    ensures items.None? || |items.value| == 0 ==> out == (Err(BadRequest), orders)
    ensures out.0.Ok? <==>
              items.Some? && |items.value| > 0 && restaurant.Some? && totalAmount.Some?
              && forall k :: 0 <= k < |items.value| ==> Castable(items.value[k])
    ensures items.Some? && |items.value| > 0 && out.0.Err? ==> out.0.error == ServerError
    ensures out.0.Err? ==> out.1 == orders && (out.0.error == BadRequest || out.0.error == ServerError)
    ensures out.0.Ok? ==> out.0.value == id && id in out.1
                          && out.1.Keys == orders.Keys + {id}
                          && (forall k :: k in orders ==> out.1[k] == orders[k])
    ensures out.0.Ok? ==>
              var o := out.1[id];
              items.Some? && o.id == id && o.status == New && o.customer == customer
              && Some(o.restaurant) == restaurant && Some(o.totalPrice) == totalAmount && o.createdAt == now
              && ValidOrder(o)
              && |o.items| == |items.value|
              && (forall k :: 0 <= k < |o.items| ==>
                    Some(o.items[k].dish) == items.value[k].dishId
                    && Some(o.items[k].quantity) == items.value[k].quantity
                    && Some(o.items[k].priceAtTime) == items.value[k].price
                    && o.items[k].specialInstructions == "")
  {
    if items.None? || |items.value| == 0 then (Err(BadRequest), orders)
    else
      match CastOrder(RawFromRequest(customer, items.value, restaurant, totalAmount), id, now)
      case None => (Err(ServerError), orders)
      case Some(o) => (Ok(id), orders[id := o])
  }

  /** The order `findOne({_id, restaurant})` or `findOne({_id, customer})` finds. */
  predicate OwnedBy(orders: map<nat, Order>, id: nat, owner: Owner)
    ensures owner.ByCustomer? ==>
              (OwnedBy(orders, id, owner) <==> id in orders && orders[id].customer == owner.customer)
    ensures owner.ByRestaurant? ==>
              (OwnedBy(orders, id, owner) <==> id in orders && orders[id].restaurant == owner.restaurant)
  {
    id in orders && Matches(orders[id], OrderFilter(owner, None))
  }

  /** updateOrderStatus: 404 unless the order exists and belongs to the acting restaurant;
      otherwise the requested status is set whatever the current one is, and a name outside
      the enum fails the save (500). Only that order's status changes. */
  function UpdateStatus(orders: map<nat, Order>, restaurant: nat, id: nat, status: string): (out: (Result<Order>, map<nat, Order>))
    ensures !OwnedBy(orders, id, ByRestaurant(restaurant)) ==> out == (Err(NotFound), orders)
    ensures OwnedBy(orders, id, ByRestaurant(restaurant)) && ParseStatus(status).None? ==> out == (Err(ServerError), orders)
    ensures out.0.Ok? <==> OwnedBy(orders, id, ByRestaurant(restaurant)) && ParseStatus(status).Some?
    ensures out.0.Ok? ==> out.1 == orders[id := orders[id].(status := out.0.value.status)]
                          && out.0.value == out.1[id] && StatusName(out.0.value.status) == status
  {
    if !OwnedBy(orders, id, ByRestaurant(restaurant)) then (Err(NotFound), orders)
    else
      match SaveStatus(orders[id], status)
      case None => (Err(ServerError), orders)
      case Some(o) => (Ok(o), orders[id := o])
  }

  /** cancelOrder: 404 unless the order exists and belongs to the acting customer; 400 and
      no change unless its status is New; otherwise it becomes Cancelled and nothing else changes. */
  function Cancel(orders: map<nat, Order>, customer: nat, id: nat): (out: (Result<Order>, map<nat, Order>))
    ensures !OwnedBy(orders, id, ByCustomer(customer)) ==> out == (Err(NotFound), orders)
    ensures OwnedBy(orders, id, ByCustomer(customer)) && orders[id].status != New ==> out == (Err(BadRequest), orders)
    ensures out.0.Ok? <==> OwnedBy(orders, id, ByCustomer(customer)) && orders[id].status == New
    ensures out.0.Ok? ==> out.0.value == orders[id].(status := Cancelled)
                          && out.1 == orders[id := out.0.value]
  {
    if !OwnedBy(orders, id, ByCustomer(customer)) then (Err(NotFound), orders)
    else if orders[id].status != New then (Err(BadRequest), orders)
    else
      var o := orders[id].(status := Cancelled);
      (Ok(o), orders[id := o])
  }

  /** A cancelled order cannot be cancelled again: the second attempt is a 400 and changes nothing. */
  lemma CancelTwiceRejected(orders: map<nat, Order>, customer: nat, id: nat)
    requires Cancel(orders, customer, id).0.Ok?
    ensures var after := Cancel(orders, customer, id).1;
            Cancel(after, customer, id) == (Err(BadRequest), after)
  {
  }

  /** getOrderDetails: any order by id, with no ownership check; 404 when absent. */
  function Details(orders: map<nat, Order>, id: nat): (r: Result<Order>)
    ensures r.Ok? <==> id in orders
    ensures r.Ok? ==> r.value == orders[id]
    ensures r.Err? ==> r.error == NotFound
  {
    if id in orders then Ok(orders[id]) else Err(NotFound)
  }

  /** Whose orders a query asks for. */
  datatype Owner = ByCustomer(customer: nat) | ByRestaurant(restaurant: nat)

  /** A `find` filter: the owner, and an exact status name when one was asked for. */
  datatype OrderFilter = OrderFilter(owner: Owner, status: Option<string>)

  /** Whether `find(filter)` returns `o`. A status filter is compared with the stored name,
      so only a name of the enum can match, and a matching order is in the status it names. */
  predicate Matches(o: Order, f: OrderFilter)
    ensures Matches(o, f) && f.status.Some? ==> ParseStatus(f.status.value) == Some(o.status)
  {
    ParseStatusName(o.status);
    (match f.owner
     case ByCustomer(c) => o.customer == c
     case ByRestaurant(r) => o.restaurant == r)
    && (f.status.Some? ==> StatusName(o.status) == f.status.value)
  }

  /** The matching orders among ids below `n`, in id order. */
  function Scan(orders: map<nat, Order>, n: nat, f: OrderFilter): (r: seq<Order>)
    requires WellKeyed(orders)
    ensures forall i, j :: 0 <= i < j < |r| ==> r[i].id < r[j].id
    ensures forall o :: o in r <==> o.id < n && o.id in orders && orders[o.id] == o && Matches(o, f)
  {
    if n == 0 then []
    else
      var prev := Scan(orders, n - 1, f);
      if n - 1 in orders && Matches(orders[n - 1], f) then prev + [orders[n - 1]] else prev
  }

  /** `.sort({ createdAt: -1 })`: newest first. */
  predicate NewestFirst(s: seq<Order>) {
    forall i, j :: 0 <= i < j < |s| ==> s[i].createdAt >= s[j].createdAt
  }

  /** An order no older than the head of a newest-first list can go in front of it. */
  lemma PrependNewest(x: Order, s: seq<Order>)
    requires NewestFirst(s)
    requires s == [] || x.createdAt >= s[0].createdAt
    ensures NewestFirst([x] + s)
  {
    var r := [x] + s;
    forall i, j | 0 <= i < j < |r| ensures r[i].createdAt >= r[j].createdAt {
      if i == 0 && j > 1 {
        assert s[0].createdAt >= s[j - 1].createdAt;
      } else if i > 0 {
        assert r[i] == s[i - 1] && r[j] == s[j - 1];
      }
    }
  }

  /** Insertion into a newest-first list: the result is newest first, holds one more `o`,
      and starts with `o` or with the list's old head. */
  function InsertNewest(o: Order, s: seq<Order>): (r: seq<Order>)
    requires NewestFirst(s)
    ensures NewestFirst(r)
    ensures multiset(r) == multiset(s) + multiset{o}
    ensures r[0] == o || (s != [] && r[0] == s[0])
  {
    if s == [] then [o]
    else if o.createdAt >= s[0].createdAt then
      PrependNewest(o, s);
      [o] + s
    else
      assert NewestFirst(s[1..]) by {
        forall i, j | 0 <= i < j < |s[1..]| ensures s[1..][i].createdAt >= s[1..][j].createdAt {
          assert s[1..][i] == s[i + 1] && s[1..][j] == s[j + 1];
        }
      }
      var rest := InsertNewest(o, s[1..]);
      assert |s| > 1 ==> s[1..][0] == s[1];
      PrependNewest(s[0], rest);
      assert s == [s[0]] + s[1..];
      [s[0]] + rest
  }

  function SortNewestFirst(s: seq<Order>): (r: seq<Order>)
    ensures NewestFirst(r)
    ensures multiset(r) == multiset(s)
  {
    if s == [] then []
    else
      assert s == [s[0]] + s[1..];
      InsertNewest(s[0], SortNewestFirst(s[1..]))
  }

  /** A query's answer: exactly the matching stored orders, each once, newest first. */
  function Query(orders: map<nat, Order>, n: nat, f: OrderFilter): (r: seq<Order>)
    requires WellKeyed(orders)
    ensures NewestFirst(r)
    ensures multiset(r) == multiset(Scan(orders, n, f))
    ensures forall o :: o in r <==> o.id < n && o.id in orders && orders[o.id] == o && Matches(o, f)
  {
    var r := SortNewestFirst(Scan(orders, n, f));
    assert forall o :: o in r <==> o in Scan(orders, n, f) by {
      forall o ensures o in r <==> o in Scan(orders, n, f) {
        assert o in r <==> o in multiset(r);
      }
    }
    r
  }

  /** An order just created is listed for its customer and for its restaurant. */
  lemma CreatedOrderListed(orders: map<nat, Order>, id: nat, customer: nat, items: Option<seq<ItemInput>>,
                           restaurant: Option<nat>, totalAmount: Option<int>, now: int)
    requires WellKeyed(orders) && id !in orders
    requires Create(orders, id, customer, items, restaurant, totalAmount, now).0.Ok?
    ensures restaurant.Some?
    ensures var after := Create(orders, id, customer, items, restaurant, totalAmount, now).1;
            WellKeyed(after)
            && after[id] in Query(after, id + 1, OrderFilter(ByCustomer(customer), None))
            && after[id] in Query(after, id + 1, OrderFilter(ByRestaurant(restaurant.value), None))
  {
    var after := Create(orders, id, customer, items, restaurant, totalAmount, now).1;
    assert after[id].id == id;
  }

  /** The store: the order collection and the next id it will generate. */
  class OrderStore {
    var orders: map<nat, Order>
    var nextId: nat

    /** Every order sits under its own id, below the next id, and satisfies the schema. */
    ghost predicate Valid()
      reads this
    {
      WellKeyed(orders) && (forall id :: id in orders ==> id < nextId && ValidOrder(orders[id]))
    }

    constructor ()
      ensures Valid() && orders == map[] && nextId == 0
    {
      orders := map[];
      nextId := 0;
    }

    /** createOrder for the authenticated customer, at clock time `now`. */
    method CreateOrder(customer: nat, items: Option<seq<ItemInput>>, restaurant: Option<nat>, totalAmount: Option<int>, now: int)
      returns (r: Result<nat>)
      requires Valid()
      modifies this
      ensures Valid()
      ensures (r, orders) == Create(old(orders), old(nextId), customer, items, restaurant, totalAmount, now)
      ensures nextId == if r.Ok? then old(nextId) + 1 else old(nextId)
    {
      if items.None? || |items.value| == 0 {
        return Err(BadRequest);
      }
      var cast := CastOrder(RawFromRequest(customer, items.value, restaurant, totalAmount), nextId, now);
      if cast.None? {
        return Err(ServerError);
      }
      orders := orders[nextId := cast.value];
      r := Ok(nextId);
      nextId := nextId + 1;
    }

    /** updateOrderStatus for the authenticated restaurant. */
    method UpdateOrderStatus(restaurant: nat, id: nat, status: string) returns (r: Result<Order>)
      requires Valid()
      modifies this
      ensures Valid() && nextId == old(nextId)
      ensures (r, orders) == UpdateStatus(old(orders), restaurant, id, status)
    {
      if !(id in orders && orders[id].restaurant == restaurant) {
        return Err(NotFound);
      }
      var order := orders[id];
      var st := ParseStatus(status);
      if st.None? {
        return Err(ServerError);
      }
      order := order.(status := st.value);
      orders := orders[id := order];
      r := Ok(order);
    }

    /** cancelOrder for the authenticated customer. */
    method CancelOrder(customer: nat, id: nat) returns (r: Result<Order>)
      requires Valid()
      modifies this
      ensures Valid() && nextId == old(nextId)
      ensures (r, orders) == Cancel(old(orders), customer, id)
    {
      if !(id in orders && orders[id].customer == customer) {
        return Err(NotFound);
      }
      var order := orders[id];
      if order.status != New {
        return Err(BadRequest);
      }
      order := order.(status := Cancelled);
      orders := orders[id := order];
      r := Ok(order);
    }

    /** getCustomerOrders: the customer's orders, newest first. */
    function CustomerOrders(customer: nat): (r: seq<Order>)
      reads this
      requires Valid()
      ensures NewestFirst(r)
      ensures forall o :: o in r <==> o.id in orders && orders[o.id] == o && o.customer == customer
    {
      Query(orders, nextId, OrderFilter(ByCustomer(customer), None))
    }

    /** getRestaurantOrders: the restaurant's orders, filtered by exact status when a
        non-empty status is given, newest first. */
    function RestaurantOrders(restaurant: nat, status: Option<string>): (r: seq<Order>)
      reads this
      requires Valid()
      ensures NewestFirst(r)
      ensures forall o :: o in r <==>
                o.id in orders && orders[o.id] == o && o.restaurant == restaurant
                && (Truthy(status) ==> StatusName(o.status) == status.value)
    {
      Query(orders, nextId, OrderFilter(ByRestaurant(restaurant), if Truthy(status) then status else None))
    }
  }
}
