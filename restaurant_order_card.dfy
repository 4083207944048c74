/** The restaurant order card (frontend/src/features/restaurant/components/Order/OrderCard.js):
    the `statusConfig` table of actions per status, which is a transition graph
    over the seven order statuses, the buttons the card offers, and the item count. */
module RestaurantOrderCard {
  import opened Common
  import opened OrderModel
  import opened OrderSlice

  /** An action button's style: 'primary' or 'danger'. */
  datatype ButtonKind = Primary | Danger

  /** One entry of a status's `actions`: the label (caption), the status it requests, the style. */
  datatype StatusAction = StatusAction(caption: string, target: string, kind: ButtonKind)

  /** `statusConfig[status]`'s actions, or None when the status is not a key of the table.
      The keys are exactly the seven status names of the order schema. */
  function Config(status: string): (r: Option<seq<StatusAction>>)
    ensures r.Some? <==> ParseStatus(status).Some?
  {
    if status == "New" then
      Some([StatusAction("Start Preparing", "Preparing", Primary), StatusAction("Cancel Order", "Cancelled", Danger)])
    else if status == "Preparing" then Some([StatusAction("Mark as Ready", "Pick-up Ready", Primary)])
    else if status == "On the Way" then Some([StatusAction("Mark as Delivered", "Delivered", Primary)])
    else if status == "Pick-up Ready" then Some([StatusAction("Confirm Pick-up", "Picked Up", Primary)])
    else if status == "Delivered" then Some([])
    else if status == "Picked Up" then Some([])
    else if status == "Cancelled" then Some([])
    else None
  }

  /** The table offers a move from `a` to `b`. */
  predicate Edge(a: string, b: string) {
    Config(a).Some? && exists i :: 0 <= i < |Config(a).value| && Config(a).value[i].target == b
  }

  /** The graph is closed: every action's target is itself a key of the table, and a
      status of the order schema. */
  lemma ConfigClosed(a: string, b: string)
    requires Edge(a, b)
    ensures Config(b).Some? && ParseStatus(b).Some?
  {
  }

  /** Delivered, Picked Up and Cancelled are exactly the statuses with no actions. */
  lemma TerminalStatuses(s: OrderStatus)
    ensures Config(StatusName(s)) == Some([]) <==> s in {Delivered, PickedUp, Cancelled}
  {
  }

  /** The edges are New to Preparing or Cancelled, Preparing to Pick-up Ready, On the Way
      to Delivered and Pick-up Ready to Picked Up, and no others. */
  lemma EdgesExactly(a: string, b: string)
    ensures Edge(a, b) <==>
      (a == "New" && b == "Preparing") || (a == "New" && b == "Cancelled")
      || (a == "Preparing" && b == "Pick-up Ready") || (a == "On the Way" && b == "Delivered")
      || (a == "Pick-up Ready" && b == "Picked Up")
  {
    if a == "New" {
      assert Config(a).value[0].target == "Preparing" && Config(a).value[1].target == "Cancelled";
    } else if a in {"Preparing", "On the Way", "Pick-up Ready"} {
      assert Config(a).value[0].target == b ==> Edge(a, b);
    }
  }

  /** No action requests On the Way: an order enters it only from outside the card. */
  lemma NothingTargetsOnTheWay(a: string)
    ensures !Edge(a, "On the Way")
  {
    EdgesExactly(a, "On the Way");
  }

  /** The longest number of moves left from a status. */
  function Rank(s: string): nat {
    if s == "New" then 3
    else if s == "Preparing" then 2
    else if s == "On the Way" || s == "Pick-up Ready" then 1
    else 0
  }

  /** Every move lowers the rank, and a status of rank 0 has no move. */
  lemma EdgeLowersRank(a: string, b: string)
    ensures Edge(a, b) ==> Rank(b) < Rank(a)
    ensures Rank(a) == 0 ==> !Edge(a, b)
  {
    EdgesExactly(a, b);
  }

  /** A sequence of statuses each reachable from the one before in one move. */
  predicate IsPath(p: seq<string>) {
    forall i :: 0 <= i < |p| - 1 ==> Edge(p[i], p[i + 1])
  }

  /** A path of k moves from `a` ends at rank at most Rank(a) - k: no path is longer than
      its start's rank. */
  lemma {:induction false} PathDescends(p: seq<string>)
    requires |p| >= 1 && IsPath(p)
    ensures Rank(p[|p| - 1]) + (|p| - 1) <= Rank(p[0])
  {
    if |p| > 1 {
      assert IsPath(p[1..]) by {
        forall i | 0 <= i < |p[1..]| - 1 ensures Edge(p[1..][i], p[1..][i + 1]) {
          assert Edge(p[i + 1], p[i + 2]);
        }
      }
      PathDescends(p[1..]);
      EdgeLowersRank(p[0], p[1]);
    }
  }

  /** The graph is acyclic, and every path from New takes at most 3 moves, so any sequence
      of card actions from New reaches a terminal status within 3 steps. */
  lemma PathsFromNew(p: seq<string>)
    requires |p| >= 1 && IsPath(p)
    ensures p[0] == "New" ==> |p| <= 4
    ensures |p| >= 2 ==> p[0] != p[|p| - 1]
  {
    PathDescends(p);
  }

  /** What the card shows in its action row. */
  datatype Control = Spinner | StatusButton(action: StatusAction) | CustomerCancel

  /** getStatusActions: only a spinner while updating; nothing for a non-restaurant viewer
      or a status without actions; otherwise one button per configured action. */
  function StatusActions(isUpdating: bool, isRestaurant: bool, status: string): (r: seq<Control>)
    ensures isUpdating ==> r == [Spinner]
    ensures !isUpdating && (!isRestaurant || Config(status).None?) ==> r == []
    ensures !isUpdating && isRestaurant && Config(status).Some? ==>
              |r| == |Config(status).value|
              && forall i :: 0 <= i < |r| ==> r[i] == StatusButton(Config(status).value[i])
  {
    if isUpdating then [Spinner]
    else if !isRestaurant then []
    else match Config(status)
      case None => []
      case Some(actions) =>
        seq(|actions|, i requires 0 <= i < |actions| => StatusButton(actions[i]))
  }

  /** Every button offered requests a move the table allows from the current status. */
  lemma ButtonsFollowEdges(isUpdating: bool, isRestaurant: bool, status: string, c: Control)
    requires c in StatusActions(isUpdating, isRestaurant, status) && c.StatusButton?
    ensures isRestaurant && Edge(status, c.action.target)
  {
    var r := StatusActions(isUpdating, isRestaurant, status);
    var i :| 0 <= i < |r| && r[i] == c;
    assert Config(status).value[i].target == c.action.target;
  }

  /** getCustomerCancelButton: shown only to a non-restaurant viewer of a New order. */
  function CustomerCancelButton(isRestaurant: bool, status: string): (r: Option<Control>)
    ensures r.Some? <==> !isRestaurant && status == "New"
    ensures r.Some? ==> r.value == CustomerCancel
  {
    if isRestaurant || status != "New" then None else Some(CustomerCancel)
  }

  /** The action row: the status actions followed by the cancel button, nulls dropped. */
  function Actions(isUpdating: bool, isRestaurant: bool, status: string): (r: seq<Control>)
    ensures |StatusActions(isUpdating, isRestaurant, status)| <= |r|
    ensures r[..|StatusActions(isUpdating, isRestaurant, status)|] == StatusActions(isUpdating, isRestaurant, status)
    ensures |r| - |StatusActions(isUpdating, isRestaurant, status)| == if !isRestaurant && status == "New" then 1 else 0
  {
    StatusActions(isUpdating, isRestaurant, status)
      + (match CustomerCancelButton(isRestaurant, status) case None => [] case Some(c) => [c])
  }

  /** The row holds the spinner exactly while updating and the cancel button exactly for a
      customer on a New order; a restaurant never gets the customer's cancel button, and a
      customer never gets a status button. */
  lemma ActionsRow(isUpdating: bool, isRestaurant: bool, status: string)
    ensures var r := Actions(isUpdating, isRestaurant, status);
            (Spinner in r <==> isUpdating)
            && (CustomerCancel in r <==> !isRestaurant && status == "New")
            && (!isRestaurant ==> forall c :: c in r ==> !c.StatusButton?)
  {
    var r := Actions(isUpdating, isRestaurant, status);
    var s := StatusActions(isUpdating, isRestaurant, status);
    assert CustomerCancel !in s;
    assert !isUpdating ==> Spinner !in s;
  }

  /** calculateTotalItems: `items.reduce((total, item) => total + item.quantity, 0)`. */
  function TotalItems(items: seq<ClientItem>): (r: int)
    ensures (forall k :: 0 <= k < |items| ==> items[k].quantity >= 1) ==> r >= |items|
    decreases |items|
  {
    if items == [] then 0 else TotalItems(items[..|items| - 1]) + items[|items| - 1].quantity
  }

  /** The count over a concatenation is the sum of the counts. */
  lemma {:induction false} TotalItemsAppend(a: seq<ClientItem>, b: seq<ClientItem>)
    ensures TotalItems(a + b) == TotalItems(a) + TotalItems(b)
    decreases |b|
  {
    if b != [] {
      var b' := b[..|b| - 1];
      assert (a + b)[..|a + b| - 1] == a + b';
      TotalItemsAppend(a, b');
    } else {
      assert a + b == a;
    }
  }

  /** The count is the sum of the quantities, one by one from the front. */
  lemma TotalItemsCons(x: ClientItem, rest: seq<ClientItem>)
    ensures TotalItems([x] + rest) == x.quantity + TotalItems(rest)
  {
    TotalItemsAppend([x], rest);
    assert TotalItems([x]) == TotalItems([]) + x.quantity;
  }

  /** With every quantity at least 1 (as the order schema demands), the count is at least the
      number of lines. */
  lemma {:induction false} TotalItemsAtLeastLines(items: seq<ClientItem>)
    requires forall k :: 0 <= k < |items| ==> items[k].quantity >= 1
    ensures TotalItems(items) >= |items|
    decreases |items|
  {
    if items != [] {
      TotalItemsAtLeastLines(items[..|items| - 1]);
    }
  }
}
