/** The order document (backend/models/Order.js): the status enumeration,
    the stored order and its items, and the schema's casting rules
    (required fields, `min: 1` on quantities, defaults). */
module OrderModel {
  import opened Common

  /** The seven statuses the schema's enum admits. */
  datatype OrderStatus = New | Preparing | OnTheWay | PickupReady | Delivered | PickedUp | Cancelled

  /** The string stored for each status. */
  function StatusName(s: OrderStatus): string {
    match s
    case New => "New"
    case Preparing => "Preparing"
    case OnTheWay => "On the Way"
    case PickupReady => "Pick-up Ready"
    case Delivered => "Delivered"
    case PickedUp => "Picked Up"
    case Cancelled => "Cancelled"
  }

  /** The enum check: a string is a status exactly when it is one of the seven names. */
  function ParseStatus(name: string): (r: Option<OrderStatus>)
    ensures r.Some? ==> StatusName(r.value) == name
  {
    if name == "New" then Some(New)
    else if name == "Preparing" then Some(Preparing)
    else if name == "On the Way" then Some(OnTheWay)
    else if name == "Pick-up Ready" then Some(PickupReady)
    else if name == "Delivered" then Some(Delivered)
    else if name == "Picked Up" then Some(PickedUp)
    else if name == "Cancelled" then Some(Cancelled)
    else None
  }

  /** Every status name parses back to its status, so the enum accepts exactly the seven names. */
  lemma ParseStatusName(s: OrderStatus)
    ensures ParseStatus(StatusName(s)) == Some(s)
  {
  }

  /** One line of an order: the dish, how many, and the price when ordered. */
  datatype OrderItem = OrderItem(dish: nat, quantity: int, priceAtTime: int, specialInstructions: string)

  /** A stored order; `createdAt` is the timestamp the store sets on insertion. */
  datatype Order = Order(
    id: nat,
    customer: nat,
    restaurant: nat,
    items: seq<OrderItem>,
    status: OrderStatus,
    totalPrice: int,
    createdAt: int)

  /** The schema's `min: 1` on every item quantity. */
  predicate ValidOrder(o: Order) {
    forall i :: 0 <= i < |o.items| ==> o.items[i].quantity >= 1
  }

  /** An item as submitted, before casting: any field may be missing. */
  datatype RawItem = RawItem(dish: Option<nat>, quantity: Option<int>, price: Option<int>, specialInstructions: Option<string>)

  /** An order as submitted to `Order.create`, before casting. */
  datatype RawOrder = RawOrder(
    customer: Option<nat>,
    restaurant: Option<nat>,
    items: seq<RawItem>,
    status: Option<string>,
    totalPrice: Option<int>)

  /** Casting one item: dish, quantity and price are required, the quantity is at least 1,
      and missing instructions default to the empty string. */
  function CastItem(r: RawItem): (res: Option<OrderItem>)
    ensures res.Some? <==> r.dish.Some? && r.quantity.Some? && r.quantity.value >= 1 && r.price.Some?
    ensures res.Some? ==> res.value.dish == r.dish.value && res.value.quantity == r.quantity.value
                          && res.value.priceAtTime == r.price.value
    ensures res.Some? && r.specialInstructions.None? ==> res.value.specialInstructions == ""
    ensures res.Some? && r.specialInstructions.Some? ==> res.value.specialInstructions == r.specialInstructions.value
  {
    if r.dish.Some? && r.quantity.Some? && r.quantity.value >= 1 && r.price.Some? then
      Some(OrderItem(r.dish.value, r.quantity.value, r.price.value, r.specialInstructions.GetOr("")))
    else
      None
  }

  /** Casting every item, in order; fails when any item fails. */
  function CastItems(rs: seq<RawItem>): (res: Option<seq<OrderItem>>)
    ensures res.Some? <==> forall k :: 0 <= k < |rs| ==> CastItem(rs[k]).Some?
    ensures res.Some? ==> |res.value| == |rs|
    ensures res.Some? ==> forall k :: 0 <= k < |rs| ==> res.value[k] == CastItem(rs[k]).value
  {
    if rs == [] then Some([])
    else
      match (CastItem(rs[0]), CastItems(rs[1..]))
      case (Some(first), Some(rest)) => Some([first] + rest)
      case _ => None
  }

  /** The status cast: missing means the default `New`; otherwise the enum check. */
  function CastStatus(raw: Option<string>): (r: Option<OrderStatus>)
    ensures raw.None? ==> r == Some(New)
    ensures raw.Some? ==> r == ParseStatus(raw.value)
  {
    if raw.None? then Some(New) else ParseStatus(raw.value)
  }

  /** What `Order.create` stores under `id` at time `now`, or None when the schema rejects it. */
  function CastOrder(r: RawOrder, id: nat, now: int): (res: Option<Order>)
    ensures res.Some? <==>
      r.customer.Some? && r.restaurant.Some? && r.totalPrice.Some?
      && CastStatus(r.status).Some? && CastItems(r.items).Some?
    ensures res.Some? ==> ValidOrder(res.value)
    ensures res.Some? ==> res.value.id == id && res.value.createdAt == now
                          && res.value.customer == r.customer.value && res.value.restaurant == r.restaurant.value
                          && res.value.totalPrice == r.totalPrice.value
                          && Some(res.value.status) == CastStatus(r.status)
                          && Some(res.value.items) == CastItems(r.items)
  {
    if r.customer.Some? && r.restaurant.Some? && r.totalPrice.Some? then
      match (CastStatus(r.status), CastItems(r.items))
      case (Some(st), Some(items)) =>
        Some(Order(id, r.customer.value, r.restaurant.value, items, st, r.totalPrice.value, now))
      case _ => None
    else
      None
  }

  /** A status assigned with `order.status = s; order.save()`: the save validates the enum. */
  function SaveStatus(o: Order, name: string): (res: Option<Order>)
    ensures res.Some? <==> ParseStatus(name).Some?
    ensures res.Some? ==> res.value == o.(status := ParseStatus(name).value)
    ensures res.Some? ==> StatusName(res.value.status) == name
  {
    match ParseStatus(name)
    case Some(st) => Some(o.(status := st))
    case None => None
  }
}
