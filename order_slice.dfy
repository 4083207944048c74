/** The client order state (frontend/src/redux/slices/orderSlice.js, the live
    slice). Each reducer case assigns fields of the draft state in place; here
    the slice is a class, each case a method, and every method states the whole
    new state as an update of the old `Snapshot()`. The thunks' HTTP calls are
    out of the model: a thunk is seen only through its pending, fulfilled or
    rejected action. */
module OrderSlice {
  import opened Common

  /** An order line as the server sends it to the client. */
  datatype ClientItem = ClientItem(dish: string, quantity: int, priceAtTime: int)

  /** An order as the client holds it; any JSON field may be missing. */
  datatype ClientOrder = ClientOrder(
    id: Option<string>,
    status: Option<string>,
    totalPrice: Option<int>,
    items: Option<seq<ClientItem>>)

  /** The reply to a successful order submission (`{ message, order_id }`). */
  datatype SubmitReply = SubmitReply(message: string, orderId: string)

  /** The request-status strings 'idle', 'loading', 'succeeded', 'failed'. */
  datatype LoadStatus = Idle | Loading | Succeeded | Failed

  /** The whole slice state, field for field. */
  datatype OrderState = OrderState(
    currentOrder: Option<SubmitReply>,
    orderHistory: seq<ClientOrder>,
    selectedOrder: Option<ClientOrder>,
    status: LoadStatus,
    error: Option<string>,
    historyStatus: LoadStatus,
    cancelStatus: LoadStatus,
    detailsStatus: LoadStatus,
    restaurantOrders: seq<ClientOrder>,
    restaurantOrdersStatus: LoadStatus,
    restaurantOrdersError: Option<string>,
    statusUpdateStatus: LoadStatus,
    statusUpdateError: Option<string>)

  /** The initial state: nothing loaded, every status idle, no errors. */
  const Initial := OrderState(None, [], None, Idle, None, Idle, Idle, Idle, [], Idle, None, Idle, None)

  /** `orders.map(o => o._id === order._id ? order : o)`: exactly the entries with the
      same id become `order`; the length and every other entry are kept. */
  function ReplaceById(orders: seq<ClientOrder>, order: ClientOrder): (r: seq<ClientOrder>)
    ensures |r| == |orders|
    ensures forall k :: 0 <= k < |orders| && orders[k].id == order.id ==> r[k] == order
    ensures forall k :: 0 <= k < |orders| && orders[k].id != order.id ==> r[k] == orders[k]
  {
    seq(|orders|, k requires 0 <= k < |orders| => if orders[k].id == order.id then order else orders[k])
  }

  /** `orders.map(o => o._id === id ? { ...o, status } : o)`: exactly the entries with the id
      get the new status, all their other fields kept; other entries are unchanged. */
  function PatchStatus(orders: seq<ClientOrder>, id: string, status: string): (r: seq<ClientOrder>)
    ensures |r| == |orders|
    ensures forall k :: 0 <= k < |orders| && orders[k].id == Some(id) ==> r[k] == orders[k].(status := Some(status))
    ensures forall k :: 0 <= k < |orders| && orders[k].id != Some(id) ==> r[k] == orders[k]
  {
    seq(|orders|, k requires 0 <= k < |orders| =>
      if orders[k].id == Some(id) then orders[k].(status := Some(status)) else orders[k])
  }

  /** Patching a status twice is patching it once. */
  lemma PatchStatusIdempotent(orders: seq<ClientOrder>, id: string, status: string)
    ensures PatchStatus(PatchStatus(orders, id, status), id, status) == PatchStatus(orders, id, status)
  {
  }

  /** Replacing by id twice is replacing once. */
  lemma ReplaceByIdIdempotent(orders: seq<ClientOrder>, order: ClientOrder)
    ensures ReplaceById(ReplaceById(orders, order), order) == ReplaceById(orders, order)
  {
  }

  /** The state after updateOrderStatus.fulfilled with `{ orderId, newStatus }`. */
  function StatusUpdated(s: OrderState, orderId: string, newStatus: string): (r: OrderState)
    ensures r.statusUpdateStatus == Succeeded
    ensures r.restaurantOrders == PatchStatus(s.restaurantOrders, orderId, newStatus)
    ensures r.orderHistory == PatchStatus(s.orderHistory, orderId, newStatus)
    ensures s.selectedOrder.Some? && s.selectedOrder.value.id == Some(orderId)
            ==> r.selectedOrder == Some(s.selectedOrder.value.(status := Some(newStatus)))
    ensures !(s.selectedOrder.Some? && s.selectedOrder.value.id == Some(orderId)) ==> r.selectedOrder == s.selectedOrder
    ensures r.(statusUpdateStatus := s.statusUpdateStatus, restaurantOrders := s.restaurantOrders,
               orderHistory := s.orderHistory, selectedOrder := s.selectedOrder) == s
  {
    s.(statusUpdateStatus := Succeeded,
       restaurantOrders := PatchStatus(s.restaurantOrders, orderId, newStatus),
       orderHistory := PatchStatus(s.orderHistory, orderId, newStatus),
       selectedOrder := if s.selectedOrder.Some? && s.selectedOrder.value.id == Some(orderId)
                        then Some(s.selectedOrder.value.(status := Some(newStatus)))
                        else s.selectedOrder)
  }

  /** Delivering the same status update twice leaves the state as delivering it once. */
  lemma StatusUpdatedIdempotent(s: OrderState, orderId: string, newStatus: string)
    ensures StatusUpdated(StatusUpdated(s, orderId, newStatus), orderId, newStatus)
            == StatusUpdated(s, orderId, newStatus)
  {
    PatchStatusIdempotent(s.restaurantOrders, orderId, newStatus);
    PatchStatusIdempotent(s.orderHistory, orderId, newStatus);
  }

  /** The state after cancelOrder.fulfilled with the cancelled `order`. */
  function Cancelled(s: OrderState, order: ClientOrder): (r: OrderState)
    ensures r.cancelStatus == Succeeded
    ensures r.orderHistory == ReplaceById(s.orderHistory, order)
    ensures s.selectedOrder.Some? && s.selectedOrder.value.id == order.id ==> r.selectedOrder == Some(order)
    ensures !(s.selectedOrder.Some? && s.selectedOrder.value.id == order.id) ==> r.selectedOrder == s.selectedOrder
    ensures r.(cancelStatus := s.cancelStatus, orderHistory := s.orderHistory, selectedOrder := s.selectedOrder) == s
  {
    s.(cancelStatus := Succeeded,
       orderHistory := ReplaceById(s.orderHistory, order),
       selectedOrder := if s.selectedOrder.Some? && s.selectedOrder.value.id == order.id
                        then Some(order) else s.selectedOrder)
  }

  /** The slice's state, updated in place by the reducer cases. */
  class OrderSliceState {
    var currentOrder: Option<SubmitReply>
    var orderHistory: seq<ClientOrder>
    var selectedOrder: Option<ClientOrder>
    var status: LoadStatus
    var error: Option<string>
    var historyStatus: LoadStatus
    var cancelStatus: LoadStatus
    var detailsStatus: LoadStatus
    var restaurantOrders: seq<ClientOrder>
    var restaurantOrdersStatus: LoadStatus
    var restaurantOrdersError: Option<string>
    var statusUpdateStatus: LoadStatus
    var statusUpdateError: Option<string>

    /** The current field values as one record. */
    function Snapshot(): OrderState
      reads this
    {
      OrderState(currentOrder, orderHistory, selectedOrder, status, error, historyStatus, cancelStatus,
                 detailsStatus, restaurantOrders, restaurantOrdersStatus, restaurantOrdersError,
                 statusUpdateStatus, statusUpdateError)
    }

    constructor ()
      ensures Snapshot() == Initial
    {
      currentOrder, orderHistory, selectedOrder := None, [], None;
      status, error, historyStatus, cancelStatus, detailsStatus := Idle, None, Idle, Idle, Idle;
      restaurantOrders, restaurantOrdersStatus, restaurantOrdersError := [], Idle, None;
      statusUpdateStatus, statusUpdateError := Idle, None;
    }

    /** resetOrderState: clears the submission fields only. */
    method ResetOrderState()
      modifies this
      ensures Snapshot() == old(Snapshot()).(currentOrder := None, status := Idle, error := None)
    {
      currentOrder := None;
      status := Idle;
      error := None;
    }

    /** clearSelectedOrder: drops the selected order and resets its status only. */
    method ClearSelectedOrder()
      modifies this
      ensures Snapshot() == old(Snapshot()).(selectedOrder := None, detailsStatus := Idle)
    {
      selectedOrder := None;
      detailsStatus := Idle;
    }

    /** resetRestaurantOrdersState: empties the restaurant side; customer fields are untouched. */
    method ResetRestaurantOrdersState()
      modifies this
      ensures Snapshot() == old(Snapshot()).(restaurantOrders := [], restaurantOrdersStatus := Idle,
                                             restaurantOrdersError := None)
    {
      restaurantOrders := [];
      restaurantOrdersStatus := Idle;
      restaurantOrdersError := None;
    }

    method SubmitOrderPending()
      modifies this
      ensures Snapshot() == old(Snapshot()).(status := Loading, error := None)
    {
      status := Loading;
      error := None;
    }

    method SubmitOrderFulfilled(reply: SubmitReply)
      modifies this
      ensures Snapshot() == old(Snapshot()).(status := Succeeded, currentOrder := Some(reply))
    {
      status := Succeeded;
      currentOrder := Some(reply);
    }

    method SubmitOrderRejected(message: string)
      modifies this
      ensures Snapshot() == old(Snapshot()).(status := Failed, error := Some(message))
    {
      status := Failed;
      error := Some(message);
    }

    method GetCustomerOrdersPending()
      modifies this
      ensures Snapshot() == old(Snapshot()).(historyStatus := Loading, error := None)
    {
      historyStatus := Loading;
      error := None;
    }

    method GetCustomerOrdersFulfilled(orders: seq<ClientOrder>)
      modifies this
      ensures Snapshot() == old(Snapshot()).(historyStatus := Succeeded, orderHistory := orders)
    {
      historyStatus := Succeeded;
      orderHistory := orders;
    }

    method GetCustomerOrdersRejected(message: string)
      modifies this
      ensures Snapshot() == old(Snapshot()).(historyStatus := Failed, error := Some(message))
    {
      historyStatus := Failed;
      error := Some(message);
    }

    method CancelOrderPending()
      modifies this
      ensures Snapshot() == old(Snapshot()).(cancelStatus := Loading, error := None)
    {
      cancelStatus := Loading;
      error := None;
    }

    /** cancelOrder.fulfilled: the history entries with the cancelled order's id, and the
        selected order when it has that id, become the server's copy. */
    method CancelOrderFulfilled(order: ClientOrder)
      modifies this
      ensures Snapshot() == Cancelled(old(Snapshot()), order)
    {
      cancelStatus := Succeeded;
      orderHistory := ReplaceById(orderHistory, order);
      if selectedOrder.Some? && selectedOrder.value.id == order.id {
        selectedOrder := Some(order);
      }
    }

    method CancelOrderRejected(message: string)
      modifies this
      ensures Snapshot() == old(Snapshot()).(cancelStatus := Failed, error := Some(message))
    {
      cancelStatus := Failed;
      error := Some(message);
    }

    method GetOrderDetailsPending()
      modifies this
      ensures Snapshot() == old(Snapshot()).(detailsStatus := Loading, error := None)
    {
      detailsStatus := Loading;
      error := None;
    }

    method GetOrderDetailsFulfilled(order: ClientOrder)
      modifies this
      ensures Snapshot() == old(Snapshot()).(detailsStatus := Succeeded, selectedOrder := Some(order))
    {
      detailsStatus := Succeeded;
      selectedOrder := Some(order);
    }

    method GetOrderDetailsRejected(message: string)
      modifies this
      ensures Snapshot() == old(Snapshot()).(detailsStatus := Failed, error := Some(message))
    {
      detailsStatus := Failed;
      error := Some(message);
    }

    method FetchRestaurantOrdersPending()
      modifies this
      ensures Snapshot() == old(Snapshot()).(restaurantOrdersStatus := Loading, restaurantOrdersError := None)
    {
      restaurantOrdersStatus := Loading;
      restaurantOrdersError := None;
    }

    method FetchRestaurantOrdersFulfilled(orders: seq<ClientOrder>)
      modifies this
      ensures Snapshot() == old(Snapshot()).(restaurantOrdersStatus := Succeeded, restaurantOrders := orders)
    {
      restaurantOrdersStatus := Succeeded;
      restaurantOrders := orders;
    }

    method FetchRestaurantOrdersRejected(message: string)
      modifies this
      ensures Snapshot() == old(Snapshot()).(restaurantOrdersStatus := Failed, restaurantOrdersError := Some(message))
    {
      restaurantOrdersStatus := Failed;
      restaurantOrdersError := Some(message);
    }

    method UpdateOrderStatusPending()
      modifies this
      ensures Snapshot() == old(Snapshot()).(statusUpdateStatus := Loading, statusUpdateError := None)
    {
      statusUpdateStatus := Loading;
      statusUpdateError := None;
    }

    /** updateOrderStatus.fulfilled: the new status lands on every copy of the order, in the
        restaurant list, the history and the selected order. */
    method UpdateOrderStatusFulfilled(orderId: string, newStatus: string)
      modifies this
      ensures Snapshot() == StatusUpdated(old(Snapshot()), orderId, newStatus)
    {
      statusUpdateStatus := Succeeded;
      restaurantOrders := PatchStatus(restaurantOrders, orderId, newStatus);
      orderHistory := PatchStatus(orderHistory, orderId, newStatus);
      if selectedOrder.Some? && selectedOrder.value.id == Some(orderId) {
        selectedOrder := Some(selectedOrder.value.(status := Some(newStatus)));
      }
    }

    method UpdateOrderStatusRejected(message: string)
      modifies this
      ensures Snapshot() == old(Snapshot()).(statusUpdateStatus := Failed, statusUpdateError := Some(message))
    {
      statusUpdateStatus := Failed;
      statusUpdateError := Some(message);
    }
  }
}
