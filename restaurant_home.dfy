/** The restaurant dashboard figures (frontend/src/features/restaurant/pages/Home/RestaurantHome.js):
    counts of orders by status group, the revenue sum and the recent-orders list,
    all over the slice's restaurant orders, which may be absent. */
module RestaurantHome {
  import opened Common
  import opened OrderSlice

  /** `group.includes(o.status)`: the order has a status and it is one of the group. */
  predicate StatusIn(o: ClientOrder, group: set<string>) {
    o.status.Some? && o.status.value in group
  }

  /** `orders.filter(o => group.includes(o.status)).length`. */
  function CountStatus(orders: seq<ClientOrder>, group: set<string>): (n: nat)
    ensures n <= |orders|
    ensures n == 0 <==> forall k :: 0 <= k < |orders| ==> !StatusIn(orders[k], group)
    ensures n == |orders| <==> forall k :: 0 <= k < |orders| ==> StatusIn(orders[k], group)
  {
    if orders == [] then 0
    else (if StatusIn(orders[0], group) then 1 else 0) + CountStatus(orders[1..], group)
  }

  const PendingGroup: set<string> := {"New", "Preparing"}
  const CompletedGroup: set<string> := {"Delivered", "Picked Up"}

  /** pendingOrders: orders that are New or Preparing; 0 when the list is absent. */
  function PendingOrders(orders: Option<seq<ClientOrder>>): (n: nat)
    ensures orders.None? ==> n == 0
    ensures orders.Some? ==> n == CountStatus(orders.value, PendingGroup)
  {
    if orders.None? then 0 else CountStatus(orders.value, PendingGroup)
  }

  /** completedToday: orders that are Delivered or Picked Up, whatever their date; 0 when
      the list is absent. */
  function CompletedOrders(orders: Option<seq<ClientOrder>>): (n: nat)
    ensures orders.None? ==> n == 0
    ensures orders.Some? ==> n == CountStatus(orders.value, CompletedGroup)
  {
    if orders.None? then 0 else CountStatus(orders.value, CompletedGroup)
  }

  /** Counting two groups with no status in common counts each order at most once. */
  lemma {:induction false} DisjointCounts(orders: seq<ClientOrder>, g1: set<string>, g2: set<string>)
    requires g1 !! g2
    ensures CountStatus(orders, g1) + CountStatus(orders, g2) <= |orders|
  {
    if orders != [] {
      DisjointCounts(orders[1..], g1, g2);
    }
  }

  /** Pending and completed orders together are never more than all orders. */
  lemma PendingPlusCompleted(orders: Option<seq<ClientOrder>>)
    ensures orders.Some? ==> PendingOrders(orders) + CompletedOrders(orders) <= |orders.value|
    ensures orders.None? ==> PendingOrders(orders) + CompletedOrders(orders) == 0
  {
    if orders.Some? {
      DisjointCounts(orders.value, PendingGroup, CompletedGroup);
    }
  }

  /** `reduce((sum, order) => sum + (order.total_price || 0), 0)`: a missing price counts 0. */
  function RevenueOf(orders: seq<ClientOrder>): (r: int)
    ensures (forall k :: 0 <= k < |orders| ==> orders[k].totalPrice.None?) ==> r == 0
    decreases |orders|
  {
    if orders == [] then 0
    else RevenueOf(orders[..|orders| - 1]) + orders[|orders| - 1].totalPrice.GetOr(0)
  }

  /** totalRevenue: the revenue sum, 0 when the list is absent. */
  function TotalRevenue(orders: Option<seq<ClientOrder>>): (r: int)
    ensures orders.None? ==> r == 0
    ensures orders.Some? ==> r == RevenueOf(orders.value)
  {
    if orders.None? then 0 else RevenueOf(orders.value)
  }

  /** The revenue of two lists one after the other is the sum of their revenues. */
  lemma {:induction false} RevenueAppend(a: seq<ClientOrder>, b: seq<ClientOrder>)
    ensures RevenueOf(a + b) == RevenueOf(a) + RevenueOf(b)
    decreases |b|
  {
    if b == [] {
      assert a + b == a;
    } else {
      assert (a + b)[..|a + b| - 1] == a + b[..|b| - 1];
      RevenueAppend(a, b[..|b| - 1]);
    }
  }

  /** With no negative price, the revenue is at least the price of any one order. */
  lemma {:induction false} RevenueCoversEachOrder(orders: seq<ClientOrder>, k: int)
    requires forall j :: 0 <= j < |orders| ==> orders[j].totalPrice.GetOr(0) >= 0
    requires 0 <= k < |orders|
    ensures RevenueOf(orders) >= orders[k].totalPrice.GetOr(0)
    decreases |orders|
  {
    if k == |orders| - 1 {
      RevenueNonNegative(orders[..|orders| - 1]);
    } else {
      RevenueCoversEachOrder(orders[..|orders| - 1], k);
    }
  }

  /** With no negative price, the revenue is not negative. */
  lemma {:induction false} RevenueNonNegative(orders: seq<ClientOrder>)
    requires forall j :: 0 <= j < |orders| ==> orders[j].totalPrice.GetOr(0) >= 0
    ensures RevenueOf(orders) >= 0
    decreases |orders|
  {
    if orders != [] {
      RevenueNonNegative(orders[..|orders| - 1]);
    }
  }

  /** recentOrders: `slice(0, 5) || []`, the first min(5, n) orders in their own order. */
  function RecentOrders(orders: Option<seq<ClientOrder>>): (r: seq<ClientOrder>)
    ensures orders.None? ==> r == []
    ensures orders.Some? ==> |r| == (if |orders.value| < 5 then |orders.value| else 5)
                             && r == orders.value[..|r|]
  {
    if orders.None? then []
    else if |orders.value| < 5 then orders.value
    else orders.value[..5]
  }
}
