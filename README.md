# UberEats clone: orders, carts, gates and client state in Dafny

This project models the rule-bearing core of a food-ordering web application. The
application has an Express/Mongoose backend and a React/Redux frontend. The model
covers these parts:

- **Order lifecycle** (`backend/controllers/orderController.js`, `backend/models/Order.js`).
  - The order collection is a map from order id to order.
  - `OrderController.Create`, `UpdateStatus` and `Cancel` are pure transitions on that
    map.
  - The class `OrderController.OrderStore` performs them in place, generating ids.
  - Queries filter by owner (and by exact status) and sort newest first.
  - The schema casts (required fields, `min: 1` on quantities, the status enum and its
    default) are `OrderModel.CastOrder` and `OrderModel.SaveStatus`.
- **Per-customer cart** (`backend/controllers/cartController.js`, `backend/models/Cart.js`).
  - The class `CartController.CartStore` holds a map from customer to cart and the read-only
    dish catalogue.
  - Its invariant: one restaurant per cart, one line per dish, every quantity at least 1,
    and no empty cart stored.
- **Request gates** (`backend/middlewares/authMiddleware.js`).
  - The bearer token is the second space-separated word of the header.
  - `jwt.verify` is a function parameter (an oracle).
  - A missing or rejected token gets 401; a wrong role gets 403.
- **Client reducers** (`orderSlice.js`, `cartSlice.js`, `authSlice.js`).
  - The order and cart slices are classes whose fields the reducer cases assign in place.
    Each case's contract gives the whole new state.
  - The replacement by id and the status patch are pure functions with their own lemmas.
  - The auth reducer is a pure state machine with a fold over dispatch sequences.
- **Restaurant order card and dashboard**.
  - `statusConfig` is a transition graph over the seven statuses. It is closed and
    acyclic, and its terminal statuses are exactly Delivered, Picked Up and Cancelled.
  - The dashboard counts, revenue and recent-order list are pure functions.
- **Form helpers in the UI components**:
  - the restaurant profile's nested-field handler, cuisine list, image list and submitted
    images;
  - the customer profile's country/state handler;
  - the order-page number and CSS class;
  - the cart's quantity guard over `parseInt`.

Prices are integers (for example cents). Ids are natural numbers on the backend and
strings on the client. The clock is a parameter (`now`), and `createdAt` is an integer.

## Model

| member | source | states |
|---|---|---|
| Common.Code | backend/controllers/orderController.js:15-17 | Every error is sent with a status in 400-599, below 500 exactly for the client errors. Each kind has its own code: bad request 400, unauthorized 401, forbidden 403, not found 404, server error 500. |
| Common.Split | backend/middlewares/authMiddleware.js:5 | `split` gives at least one piece, and at least two when the separator occurs. |
| Common.SplitNoSeparator | backend/middlewares/authMiddleware.js:5 | A string without the separator splits to itself alone. |
| Common.SplitFirstPiece | backend/middlewares/authMiddleware.js:5 | A separator-free word followed by the separator splits off as the first piece, with the rest split after it. |
| Common.TrimStart | frontend/src/features/customer/components/Cart/Cart.js:27 | The result is a suffix of the input, starts with no white space, and only white space was dropped. |
| OrderModel.ParseStatus | backend/models/Order.js:42-52 | The enum check: a string parses only to the status whose stored name it is. |
| OrderModel.ParseStatusName | backend/models/Order.js:42-52 | Each of the seven status names parses back to its status, so the enum accepts exactly those seven names. |
| OrderModel.CastItem | backend/models/Order.js:16-41 | An item casts exactly when dish, quantity and price are present and the quantity is at least 1. Missing instructions default to ''. |
| OrderModel.CastItems | backend/models/Order.js:16-41 | The items cast exactly when every item casts, one-to-one and in order. |
| OrderModel.CastStatus | backend/models/Order.js:42-55 | A missing status defaults to New; a given one must pass the enum. |
| OrderModel.CastOrder | backend/models/Order.js:3-59 | An order casts exactly when customer, restaurant, total price, a valid status and every item are present. The result satisfies `min: 1` on quantities and carries the given id and time. |
| OrderModel.SaveStatus | backend/models/Order.js:42-52 | Assigning a status and saving succeeds exactly for an enum name, and changes the status only. |
| OrderController.RawFromRequest | backend/controllers/orderController.js:20-30 | The document handed to create has status New, the request's owner and total, and one item per submitted item, in order, with priceAtTime set to the submitted price. |
| OrderController.Create | backend/controllers/orderController.js:7-43 | A missing or empty item list is a 400 and stores nothing. A schema failure is a 500 and stores nothing. The order is stored exactly when the list is non-empty, the restaurant and total are present, and every item has a dish, a price and a quantity of at least 1. Otherwise exactly one new valid order with status New and the submitted items is stored under the fresh id, and every other order is unchanged. |
| OrderController.OwnedBy | backend/controllers/orderController.js:104-107 | `findOne({_id, restaurant})` and `findOne({_id, customer})` find the order exactly when it exists under that id and its restaurant (or customer) is the acting user. |
| OrderController.UpdateStatus | backend/controllers/orderController.js:98-127 | 404 and no change unless the order exists and belongs to the restaurant. Otherwise any enum status is set whatever the current one is (a non-enum name is a 500), and only that order's status changes. |
| OrderController.Cancel | backend/controllers/orderController.js:130-175 | 404 unless the order is the customer's. 400 and no change unless its status is New. Otherwise the status becomes Cancelled and nothing else changes. |
| OrderController.CancelTwiceRejected | backend/controllers/orderController.js:151-160 | After a successful cancel, cancelling the same order again is a 400 that changes nothing. |
| OrderController.Details | backend/controllers/orderController.js:178-201 | Any stored order is returned by id, with no ownership check; an absent id is a 404. |
| OrderController.Matches | backend/controllers/orderController.js:74-79 | A status filter is compared with the stored name, so an order matching it is in the status whose name was given; a name outside the enum matches nothing. |
| OrderController.Scan | backend/controllers/orderController.js:74-85 | Exactly the stored orders matching the owner and status filter, each once, in increasing id order. |
| OrderController.PrependNewest | backend/controllers/orderController.js:56 | An order no older than a newest-first list's head can be put in front and the list stays newest first. |
| OrderController.InsertNewest | backend/controllers/orderController.js:56 | Inserting into a newest-first list keeps it newest first and adds exactly the one order. |
| OrderController.SortNewestFirst | backend/controllers/orderController.js:56 | The sorted list is newest first and a permutation of its input. |
| OrderController.Query | backend/controllers/orderController.js:50-56 | A query returns exactly the matching stored orders, as a permutation of the scan, newest first. |
| OrderController.CreatedOrderListed | backend/controllers/orderController.js:20-30 | A freshly created order is listed both by its customer's query and by its restaurant's query. |
| OrderController.OrderStore.constructor | backend/models/Order.js:69 | The store starts empty and valid. |
| OrderController.OrderStore.CreateOrder | backend/controllers/orderController.js:7-43 | Performs `Create` in place under the next id, which advances only on success, so it stores the order exactly when `Create` succeeds. It keeps the invariant that every order is valid and sits under its own id. |
| OrderController.OrderStore.UpdateOrderStatus | backend/controllers/orderController.js:98-127 | Performs `UpdateStatus` in place and keeps the invariant. |
| OrderController.OrderStore.CancelOrder | backend/controllers/orderController.js:130-175 | Performs `Cancel` in place and keeps the invariant. |
| OrderController.OrderStore.CustomerOrders | backend/controllers/orderController.js:46-66 | Exactly the customer's stored orders, newest first. |
| OrderController.OrderStore.RestaurantOrders | backend/controllers/orderController.js:69-95 | Exactly the restaurant's stored orders, restricted to the exact status when a non-empty status is given, newest first. |
| CartModel.CastCartItem | backend/models/Cart.js:15-37 | A line casts exactly when dish, quantity (at least 1) and priceAtTime are present. Missing instructions default to ''. |
| CartModel.CastCart | backend/models/Cart.js:3-41 | A cart casts exactly when customer and restaurant are present and every line casts. The result satisfies `min: 1`. |
| CartModel.SaveCart | backend/models/Cart.js:22-26 | Saving succeeds exactly when every quantity is at least 1, and stores the cart unchanged. |
| CartController.FindLine | backend/controllers/cartController.js:44-46 | `findIndex` returns the first line for the dish, or -1 exactly when there is none. |
| CartController.AddLine | backend/controllers/cartController.js:44-57 | An existing line gains exactly 1 and every other line is unchanged. Otherwise one line with quantity 1 and the dish's price is appended. |
| CartController.AddLineKeepsLines | backend/controllers/cartController.js:44-57 | Adding keeps one line per dish and every quantity at least 1, and leaves a line for the dish. |
| CartController.AddLineKeepsStoredCart | backend/controllers/cartController.js:38-57 | Adding a dish of the cart's own restaurant to a new or stored cart gives a cart the store may hold: the customer's, non-empty, quantities at least 1, one line per dish, one restaurant. |
| CartController.RemoveLines | backend/controllers/cartController.js:96 | The kept lines are exactly the lines for other dishes. |
| CartController.RemoveLinesAppend | backend/controllers/cartController.js:96 | The filter distributes over concatenation, so kept lines stay in order. |
| CartController.RemoveAbsentLine | backend/controllers/cartController.js:96 | Removing a dish with no line leaves the list unchanged. |
| CartController.RemovePreservesLines | backend/controllers/cartController.js:96-103 | Removing keeps one line per dish, and every kept line comes from the original list. |
| CartController.CartStore.constructor | backend/models/Cart.js:43 | The store starts with no carts and the given dish catalogue. |
| CartController.CartStore.GetCart | backend/controllers/cartController.js:6-15 | The stored cart, or an empty item list with no restaurant when the customer has none. |
| CartController.CartStore.AddItemToCart | backend/controllers/cartController.js:18-64 | An unknown dish is a 404 and a dish of another restaurant a 400, both changing nothing. Otherwise the customer's cart (new if absent) is `AddLine` of its lines, and no other cart changes. The store invariant (one restaurant, one line per dish, quantities at least 1) is kept. |
| CartController.CartStore.UpdateCartItem | backend/controllers/cartController.js:67-86 | A missing cart or line is a 404. Absent quantity or instructions keep their old values. A quantity below 1 fails the save (500). Errors change nothing; on success only that line of that cart changes. |
| CartController.CartStore.RemoveCartItem | backend/controllers/cartController.js:89-108 | A missing cart is a 404. Otherwise every line for the dish goes and the rest stay in order. An emptied cart is deleted, and no other cart changes. |
| CartController.CartStore.ClearCart | backend/controllers/cartController.js:111-118 | Afterwards the customer has no cart whether or not there was one (so clearing is idempotent), and no other cart changes. |
| AuthMiddleware.BearerToken | backend/middlewares/authMiddleware.js:5-7 | A token is found exactly when the header is non-empty and has a non-empty second space-separated word. |
| AuthMiddleware.TokenIsSecondWord | backend/middlewares/authMiddleware.js:5 | For any first word, "scheme token" yields token: the scheme is not checked. |
| AuthMiddleware.IsAuthenticated | backend/middlewares/authMiddleware.js:4-16 | No token or a token the verifier rejects is a 401. Otherwise next is called with the decoded claims as the user. |
| AuthMiddleware.IsCustomer | backend/middlewares/authMiddleware.js:19-29 | No user is a 401 and a role other than "customer" a 403. Otherwise next is called with the user. |
| AuthMiddleware.IsRestaurant | backend/middlewares/authMiddleware.js:32-37 | A role other than "restaurant" is a 403. A missing user throws (a 500), since there is no check for it. |
| AuthMiddleware.NoUserPassesBothRoles | backend/middlewares/authMiddleware.js:24-33 | No user passes both the customer gate and the restaurant gate. |
| AuthMiddleware.Guard | backend/middlewares/authMiddleware.js:4-37 | A route's gate chain: the authentication error if any, else the role gate applied to the decoded user. |
| AuthMiddleware.CustomerRouteErrors | backend/middlewares/authMiddleware.js:4-29 | Behind authentication, a customer route replies only 401, 403 or next. |
| AuthMiddleware.RestaurantRouteErrors | backend/middlewares/authMiddleware.js:4-37 | Behind authentication, a restaurant route never reaches the missing-user 500. |
| OrderSlice.ReplaceById | frontend/src/redux/slices/orderSlice.js:404-406 | Same length. Exactly the entries with the payload's id are replaced by it; the others are unchanged. |
| OrderSlice.PatchStatus | frontend/src/redux/slices/orderSlice.js:450-456 | Same length. Exactly the entries with the id get the new status and keep their other fields; the others are unchanged. |
| OrderSlice.PatchStatusIdempotent | frontend/src/redux/slices/orderSlice.js:450-456 | Patching the same status twice is patching once. |
| OrderSlice.ReplaceByIdIdempotent | frontend/src/redux/slices/orderSlice.js:404-406 | Replacing the same order twice is replacing once. |
| OrderSlice.StatusUpdated | frontend/src/redux/slices/orderSlice.js:447-461 | statusUpdateStatus is succeeded. Both lists are patched. The selected order's status is patched only when its id matches. Every other field is unchanged. |
| OrderSlice.StatusUpdatedIdempotent | frontend/src/redux/slices/orderSlice.js:447-461 | Applying the same status update twice equals applying it once. |
| OrderSlice.Cancelled | frontend/src/redux/slices/orderSlice.js:402-410 | cancelStatus is succeeded. The history entries with the order's id are replaced. The selected order is replaced only when non-null with the same id. Nothing else changes. |
| OrderSlice.OrderSliceState.constructor | frontend/src/redux/slices/orderSlice.js:335-352 | The initial state: nothing loaded, every status idle, no errors. |
| OrderSlice.OrderSliceState.ResetOrderState | frontend/src/redux/slices/orderSlice.js:354-358 | Clears currentOrder, status and error; nothing else changes. |
| OrderSlice.OrderSliceState.ClearSelectedOrder | frontend/src/redux/slices/orderSlice.js:359-362 | Nulls selectedOrder and sets detailsStatus idle; nothing else changes. |
| OrderSlice.OrderSliceState.ResetRestaurantOrdersState | frontend/src/redux/slices/orderSlice.js:363-367 | Empties restaurantOrders, sets its status idle and clears its error, leaving the customer-side fields untouched. |
| OrderSlice.OrderSliceState.SubmitOrderPending | frontend/src/redux/slices/orderSlice.js:372-375 | status loading and error cleared; nothing else changes. |
| OrderSlice.OrderSliceState.SubmitOrderFulfilled | frontend/src/redux/slices/orderSlice.js:376-379 | status succeeded and currentOrder the reply; nothing else changes. |
| OrderSlice.OrderSliceState.SubmitOrderRejected | frontend/src/redux/slices/orderSlice.js:380-383 | status failed and the error recorded; nothing else changes. |
| OrderSlice.OrderSliceState.GetCustomerOrdersPending | frontend/src/redux/slices/orderSlice.js:385-388 | historyStatus loading and error cleared; nothing else changes. |
| OrderSlice.OrderSliceState.GetCustomerOrdersFulfilled | frontend/src/redux/slices/orderSlice.js:389-392 | historyStatus succeeded and the history replaced; nothing else changes. |
| OrderSlice.OrderSliceState.GetCustomerOrdersRejected | frontend/src/redux/slices/orderSlice.js:393-396 | historyStatus failed and the error recorded; nothing else changes. |
| OrderSlice.OrderSliceState.CancelOrderPending | frontend/src/redux/slices/orderSlice.js:398-401 | cancelStatus loading and error cleared; nothing else changes. |
| OrderSlice.OrderSliceState.CancelOrderFulfilled | frontend/src/redux/slices/orderSlice.js:402-410 | The new state is `Cancelled` of the old one. |
| OrderSlice.OrderSliceState.CancelOrderRejected | frontend/src/redux/slices/orderSlice.js:411-414 | cancelStatus failed and the error recorded; nothing else changes. |
| OrderSlice.OrderSliceState.GetOrderDetailsPending | frontend/src/redux/slices/orderSlice.js:416-419 | detailsStatus loading and error cleared; nothing else changes. |
| OrderSlice.OrderSliceState.GetOrderDetailsFulfilled | frontend/src/redux/slices/orderSlice.js:420-423 | detailsStatus succeeded and selectedOrder the payload; nothing else changes. |
| OrderSlice.OrderSliceState.GetOrderDetailsRejected | frontend/src/redux/slices/orderSlice.js:424-427 | detailsStatus failed and the error recorded; nothing else changes. |
| OrderSlice.OrderSliceState.FetchRestaurantOrdersPending | frontend/src/redux/slices/orderSlice.js:430-433 | restaurantOrdersStatus loading and its error cleared; nothing else changes. |
| OrderSlice.OrderSliceState.FetchRestaurantOrdersFulfilled | frontend/src/redux/slices/orderSlice.js:434-437 | restaurantOrdersStatus succeeded and the list replaced; nothing else changes. |
| OrderSlice.OrderSliceState.FetchRestaurantOrdersRejected | frontend/src/redux/slices/orderSlice.js:438-441 | restaurantOrdersStatus failed and its error recorded; nothing else changes. |
| OrderSlice.OrderSliceState.UpdateOrderStatusPending | frontend/src/redux/slices/orderSlice.js:443-446 | statusUpdateStatus loading and its error cleared; nothing else changes. |
| OrderSlice.OrderSliceState.UpdateOrderStatusFulfilled | frontend/src/redux/slices/orderSlice.js:447-461 | The new state is `StatusUpdated` of the old one. |
| OrderSlice.OrderSliceState.UpdateOrderStatusRejected | frontend/src/redux/slices/orderSlice.js:462-465 | statusUpdateStatus failed and its error recorded; nothing else changes. |
| CartSlice.WithoutDish | frontend/src/redux/slices/cartSlice.js:151 | The kept items are exactly the items for other dishes. |
| CartSlice.WithoutDishAppend | frontend/src/redux/slices/cartSlice.js:151 | The filter distributes over concatenation, so the rest keep their order. |
| CartSlice.WithoutDishIdempotent | frontend/src/redux/slices/cartSlice.js:151 | Removing a dish twice is removing it once. |
| CartSlice.WithoutAbsentDish | frontend/src/redux/slices/cartSlice.js:151 | Removing a dish the cart lacks changes nothing. |
| CartSlice.OrNull | frontend/src/redux/slices/cartSlice.js:111 | `x \|\| null`: the value is kept exactly when it is a non-empty string. |
| CartSlice.CartSliceState.constructor | frontend/src/redux/slices/cartSlice.js:86-91 | No items, no restaurant, not loading, no error. |
| CartSlice.CartSliceState.ResetCartError | frontend/src/redux/slices/cartSlice.js:98-100 | Clears the error only. |
| CartSlice.CartSliceState.Pending | frontend/src/redux/slices/cartSlice.js:105-107 | Every pending case sets loading and changes nothing else. |
| CartSlice.CartSliceState.Rejected | frontend/src/redux/slices/cartSlice.js:113-116 | Every rejected case stops loading and records the error, leaving items and restaurant unchanged. |
| CartSlice.CartSliceState.FetchCartFulfilled | frontend/src/redux/slices/cartSlice.js:108-112 | Items become the reply's items or [], and restaurantId the reply's restaurant_id or null. Loading stops. |
| CartSlice.CartSliceState.AddToCartFulfilled | frontend/src/redux/slices/cartSlice.js:122-126 | Items and restaurantId become the stored cart's. Loading stops. |
| CartSlice.CartSliceState.UpdateCartItemFulfilled | frontend/src/redux/slices/cartSlice.js:136-139 | Items become the stored cart's and the restaurant is kept. Loading stops. |
| CartSlice.CartSliceState.RemoveFromCartFulfilled | frontend/src/redux/slices/cartSlice.js:149-155 | Every item for the dish goes and the rest stay. restaurantId is null when items end empty, unchanged otherwise. Loading stops and the error is kept. |
| CartSlice.CartSliceState.ClearCartFulfilled | frontend/src/redux/slices/cartSlice.js:165-169 | Items empty, restaurantId null, loading false; the error is kept. |
| AuthSlice.Reduce | frontend/src/redux/slices/authSlice.js:10-23 | LOGIN_REQUEST: loading, error cleared. LOGIN_SUCCESS: user and token from the payload, loading off, error kept. LOGIN_FAILURE: error set, loading off. LOGOUT: the initial state. Any other action: no change. Only LOGOUT touches the role. |
| AuthSlice.LogoutIdempotent | frontend/src/redux/slices/authSlice.js:18-19 | LOGOUT yields the initial state from any state, so it is idempotent. |
| AuthSlice.ReduceAll | frontend/src/redux/slices/authSlice.js:10-23 | Over a sequence of dispatches, the role changes only through a LOGOUT, and a sequence ending in LOGOUT ends in the initial state. |
| AuthSlice.RoleStaysNull | frontend/src/redux/slices/authSlice.js:1-23 | From a state with no role, no sequence of actions ever sets one. |
| AuthSlice.LoginUserDispatches | frontend/src/redux/slices/authSlice.js:32-46 | loginUser dispatches LOGIN_REQUEST and then exactly one of LOGIN_SUCCESS (an ok reply, with its user and token) or LOGIN_FAILURE (a failed reply's message, or the thrown error's). |
| AuthSlice.LoginUserSettles | frontend/src/redux/slices/authSlice.js:32-46 | After loginUser, loading is off. A success stores the reply's user and token; a failure keeps them and records the message. |
| RestaurantOrderCard.Config | frontend/src/features/restaurant/components/Order/OrderCard.js:26-71 | The table's keys are exactly the seven status names of the schema. |
| RestaurantOrderCard.ConfigClosed | frontend/src/features/restaurant/components/Order/OrderCard.js:26-71 | Every action target is itself a key of the table and a schema status. |
| RestaurantOrderCard.TerminalStatuses | frontend/src/features/restaurant/components/Order/OrderCard.js:56-70 | The statuses with no actions are exactly Delivered, Picked Up and Cancelled. |
| RestaurantOrderCard.EdgesExactly | frontend/src/features/restaurant/components/Order/OrderCard.js:30-53 | The edges are New to Preparing and Cancelled, Preparing to Pick-up Ready, On the Way to Delivered, Pick-up Ready to Picked Up, and no others. |
| RestaurantOrderCard.NothingTargetsOnTheWay | frontend/src/features/restaurant/components/Order/OrderCard.js:30-53 | No action requests On the Way. |
| RestaurantOrderCard.EdgeLowersRank | frontend/src/features/restaurant/components/Order/OrderCard.js:26-71 | Every edge strictly lowers the rank, and a status of rank 0 has no edge. |
| RestaurantOrderCard.PathDescends | frontend/src/features/restaurant/components/Order/OrderCard.js:26-71 | A path of k moves drops the rank by at least k. |
| RestaurantOrderCard.PathsFromNew | frontend/src/features/restaurant/components/Order/OrderCard.js:26-71 | The graph is acyclic, and a path from New has at most 3 moves. |
| RestaurantOrderCard.StatusActions | frontend/src/features/restaurant/components/Order/OrderCard.js:103-122 | Only the spinner while updating. Nothing for a non-restaurant viewer or an unknown status. Otherwise one button per configured action, in order. |
| RestaurantOrderCard.ButtonsFollowEdges | frontend/src/features/restaurant/components/Order/OrderCard.js:103-122 | Every status button shown is for a restaurant viewer and requests an edge of the table. |
| RestaurantOrderCard.CustomerCancelButton | frontend/src/features/restaurant/components/Order/OrderCard.js:125-141 | The cancel button appears exactly for a non-restaurant viewer of a New order. |
| RestaurantOrderCard.ActionsRow | frontend/src/features/restaurant/components/Order/OrderCard.js:143-146 | The spinner appears exactly while updating, and the customer's cancel button exactly for a customer on a New order. A customer never gets a status button. |
| RestaurantOrderCard.Actions | frontend/src/features/restaurant/components/Order/OrderCard.js:143-146 | The row starts with the status actions and adds exactly one control, the cancel button, for a customer on a New order. |
| RestaurantOrderCard.TotalItems | frontend/src/features/restaurant/components/Order/OrderCard.js:92-94 | With every quantity at least 1, the item count is at least the number of lines. |
| RestaurantOrderCard.TotalItemsAppend | frontend/src/features/restaurant/components/Order/OrderCard.js:92-94 | The total item count of a concatenation is the sum of the counts. |
| RestaurantOrderCard.TotalItemsCons | frontend/src/features/restaurant/components/Order/OrderCard.js:92-94 | The count is the first quantity plus the count of the rest: the sum of the quantities. |
| RestaurantOrderCard.TotalItemsAtLeastLines | frontend/src/features/restaurant/components/Order/OrderCard.js:92-94 | With every quantity at least 1, the count is at least the number of lines. |
| RestaurantHome.CountStatus | frontend/src/features/restaurant/pages/Home/RestaurantHome.js:68-69 | The count is at most the list length, 0 exactly when no order is in the group, and the full length exactly when all are. |
| RestaurantHome.PendingOrders | frontend/src/features/restaurant/pages/Home/RestaurantHome.js:68 | Orders that are New or Preparing; 0 when the list is absent. |
| RestaurantHome.CompletedOrders | frontend/src/features/restaurant/pages/Home/RestaurantHome.js:69 | Orders that are Delivered or Picked Up, with no date filter; 0 when the list is absent. |
| RestaurantHome.DisjointCounts | frontend/src/features/restaurant/pages/Home/RestaurantHome.js:68-69 | Counts over two disjoint status groups add up to at most the list length. |
| RestaurantHome.PendingPlusCompleted | frontend/src/features/restaurant/pages/Home/RestaurantHome.js:68-69 | Pending plus completed is at most the number of orders, and 0 when the list is absent. |
| RestaurantHome.TotalRevenue | frontend/src/features/restaurant/pages/Home/RestaurantHome.js:70 | The revenue is the left-to-right sum over the list (a missing price counts 0), and 0 when the list is absent. |
| RestaurantHome.RevenueAppend | frontend/src/features/restaurant/pages/Home/RestaurantHome.js:70 | The revenue of a concatenation is the sum of the revenues. |
| RestaurantHome.RevenueCoversEachOrder | frontend/src/features/restaurant/pages/Home/RestaurantHome.js:70 | With no negative price, the revenue is at least any single order's price. |
| RestaurantHome.RevenueNonNegative | frontend/src/features/restaurant/pages/Home/RestaurantHome.js:70 | With no negative price, the revenue is not negative. |
| RestaurantHome.RevenueOf | frontend/src/features/restaurant/pages/Home/RestaurantHome.js:70 | A missing price counts 0: orders with no price add up to a revenue of 0. |
| RestaurantHome.RecentOrders | frontend/src/features/restaurant/pages/Home/RestaurantHome.js:101 | The first min(5, n) orders in their own order, or [] when the list is absent. |
| RestaurantProfile.TimingsBranchUnreachable | frontend/src/features/restaurant/pages/Profile/RestaurantProfile.js:101-110 | Any name that contains 'timings.' contains '.', so it takes the first branch. |
| RestaurantProfile.HandleChangeAsWritten | frontend/src/features/restaurant/pages/Profile/RestaurantProfile.js:98-130 | A name with '.' changes only the key of its first piece, and a name without '.' changes only that key. Every other field is kept. |
| RestaurantProfile.NestedFieldUpdate | frontend/src/features/restaurant/pages/Profile/RestaurantProfile.js:101-109 | "parent.child" sets child inside parent, keeps the parent's sibling keys, and leaves the other top-level fields. |
| RestaurantProfile.TopLevelUpdate | frontend/src/features/restaurant/pages/Profile/RestaurantProfile.js:124-128 | A name without '.' sets only that top-level field. |
| RestaurantProfile.TimingInputOverwritesDay | frontend/src/features/restaurant/pages/Profile/RestaurantProfile.js:101-109 | As written, "timings.day.open" replaces timings[day] with the raw string: the day's other time is lost. |
| RestaurantProfile.MondayOpenExample | frontend/src/features/restaurant/pages/Profile/RestaurantProfile.js:101-109 | Typing 09:00 into Monday's opening time leaves timings.monday equal to the string "09:00". |
| RestaurantProfile.HandleChange | frontend/src/features/restaurant/pages/Profile/RestaurantProfile.js:110-123 | A name containing 'timings.' changes only the timings field; any other name is handled as written. |
| RestaurantProfile.TimingInputSetsOneTime | frontend/src/features/restaurant/pages/Profile/RestaurantProfile.js:110-123 | "timings.day.which" sets exactly that time. The day keeps its other time, the other days and other fields are unchanged. |
| RestaurantProfile.MondayOpenCorrected | frontend/src/features/restaurant/pages/Profile/RestaurantProfile.js:110-123 | On the Monday example the corrected handler sets open to 09:00 and keeps close. |
| RestaurantProfile.TrimEnd | frontend/src/features/restaurant/pages/Profile/RestaurantProfile.js:165 | The result is a prefix of the input, ends with no white space, and only white space was dropped. |
| RestaurantProfile.Piece | frontend/src/features/restaurant/pages/Profile/RestaurantProfile.js:111-113 | `parts[i]` on the split name: the piece when it exists, otherwise undefined, which becomes the key 'undefined'. |
| RestaurantProfile.TrimSpec | frontend/src/features/restaurant/pages/Profile/RestaurantProfile.js:165 | `trim` gives a substring of the input with no white space at either end, and a blank string trims to ''. |
| RestaurantProfile.Trim | frontend/src/features/restaurant/pages/Profile/RestaurantProfile.js:165 | `trim` never lengthens the string and leaves no white space at either end. |
| RestaurantProfile.TrimIdempotent | frontend/src/features/restaurant/pages/Profile/RestaurantProfile.js:165-168 | Trimming twice is trimming once. |
| RestaurantProfile.AddCuisine | frontend/src/features/restaurant/pages/Profile/RestaurantProfile.js:164-172 | A non-blank, new trimmed value is appended and the input cleared. A blank or duplicate value leaves the list and the input unchanged. |
| RestaurantProfile.AddCuisineKeepsList | frontend/src/features/restaurant/pages/Profile/RestaurantProfile.js:164-172 | A duplicate-free list of trimmed, non-blank entries stays duplicate-free, trimmed and non-blank after an add. |
| RestaurantProfile.RemoveCuisine | frontend/src/features/restaurant/pages/Profile/RestaurantProfile.js:174-179 | The result holds exactly the other entries, none equal to the removed one. |
| RestaurantProfile.RemoveCuisineAppend | frontend/src/features/restaurant/pages/Profile/RestaurantProfile.js:177 | The filter distributes over concatenation, so the rest keep their order. |
| RestaurantProfile.RemoveAfterAdd | frontend/src/features/restaurant/pages/Profile/RestaurantProfile.js:164-179 | Removing a cuisine just added to a duplicate-free list restores the list. |
| RestaurantProfile.RemoveAbsentCuisine | frontend/src/features/restaurant/pages/Profile/RestaurantProfile.js:177 | Removing a cuisine the list lacks changes nothing. |
| RestaurantProfile.SpliceStart | frontend/src/features/restaurant/pages/Profile/RestaurantProfile.js:157 | `splice`'s start lies in 0..n and equals the index when the index is in 0..n. |
| RestaurantProfile.SplicedValidIndex | frontend/src/features/restaurant/pages/Profile/RestaurantProfile.js:155-161 | At a valid index the list shortens by one, keeping the images before and after it in order. |
| RestaurantProfile.Spliced | frontend/src/features/restaurant/pages/Profile/RestaurantProfile.js:155-161 | When the start position holds an image, exactly that one image is removed and no other is added or lost; when it is the end, the list is unchanged. |
| RestaurantProfile.RemoveImage | frontend/src/features/restaurant/pages/Profile/RestaurantProfile.js:155-162 | The array copy and in-place splice produce exactly the spliced list. |
| RestaurantProfile.SubmittedImages | frontend/src/features/restaurant/pages/Profile/RestaurantProfile.js:134-137 | The form's images with the pending image appended when there is one, unchanged otherwise. |
| RestaurantProfile.FormFromProfile | frontend/src/features/restaurant/pages/Profile/RestaurantProfile.js:59-88 | The form has exactly the initial form's keys. Each field is the profile's value when truthy, else the initial default. |
| RestaurantProfile.EmptyProfileGivesInitialForm | frontend/src/features/restaurant/pages/Profile/RestaurantProfile.js:23-88 | An empty profile loads as the initial form, and profile keys the form lacks are ignored. |
| CustomerProfile.HandleChange | frontend/src/features/customer/pages/Profile/CustomerProfile.js:89-96 | Sets exactly the named field. Changing country also resets state to ''. Any other change leaves state and the other fields unchanged. |
| CustomerProfile.HandleChangeIdempotent | frontend/src/features/customer/pages/Profile/CustomerProfile.js:89-96 | Making the same change twice is making it once. |
| CustomerProfile.FormFromProfile | frontend/src/features/customer/pages/Profile/CustomerProfile.js:77-87 | Every form field is the profile's value, or '' when the profile lacks it. |
| CustomerProfile.EmptyProfileGivesInitialForm | frontend/src/features/customer/pages/Profile/CustomerProfile.js:62-87 | An empty profile loads as the initial form. |
| CustomerProfile.CountryName | frontend/src/features/customer/pages/Profile/CustomerProfile.js:219-221 | `find` returns a name listed with the code, and none exactly when no entry has the code. |
| CustomerProfile.CountryDisplay | frontend/src/features/customer/pages/Profile/CustomerProfile.js:219-221 | 'Not provided' for an empty code, otherwise the looked-up name. |
| CustomerProfile.CountryDisplayTable | frontend/src/features/customer/pages/Profile/CustomerProfile.js:50-54 | US, CA and UK show their names, and any other non-empty code shows none. |
| CustomerProfile.StatesOf | frontend/src/features/customer/pages/Profile/CustomerProfile.js:56-60 | A country offers states exactly when it is one of the three known codes. |
| CustomerProfile.ChangeKeepsStateMatchingCountry | frontend/src/features/customer/pages/Profile/CustomerProfile.js:89-96 | Changes made through the menus keep the state empty or one of the chosen country's states. |
| OrderPage.Upper | frontend/src/features/customer/pages/Orders/OrderPage.js:53 | Same length, each character upper-cased, and no lower-case letter left. |
| OrderPage.Lower | frontend/src/features/customer/pages/Orders/OrderPage.js:58 | Same length, each character lower-cased, and no upper-case letter left. |
| OrderPage.LowerIdempotent | frontend/src/features/customer/pages/Orders/OrderPage.js:58 | Lower-casing is idempotent and forgets a prior upper-casing. |
| OrderPage.LastSix | frontend/src/features/customer/pages/Orders/OrderPage.js:53 | `slice(-6)` is the last min(6, n) characters. |
| OrderPage.OrderNumber | frontend/src/features/customer/pages/Orders/OrderPage.js:51-54 | 'N/A' when the order or its id is missing or empty. Otherwise the id's last min(6, n) characters, upper-cased. |
| OrderPage.OrderNumberShape | frontend/src/features/customer/pages/Orders/OrderPage.js:51-54 | An order number has at most six characters and no lower-case letter. Ids whose last six characters agree up to case give the same number. |
| OrderPage.StatusClass | frontend/src/features/customer/pages/Orders/OrderPage.js:56-59 | 'status-idle' for a missing or empty status, otherwise 'order-status status-' and the lower-cased status. |
| OrderPage.StatusClassIgnoresCase | frontend/src/features/customer/pages/Orders/OrderPage.js:56-59 | Statuses that differ only in case get the same class. |
| OrderPage.Preview | frontend/src/features/customer/pages/Orders/OrderPage.js:144 | At most the first two items, in order. |
| OrderPage.MoreCount | frontend/src/features/customer/pages/Orders/OrderPage.js:171-174 | The "+k more items" line appears exactly for more than two items, with k the rest. |
| OrderPage.PreviewAccountsForAll | frontend/src/features/customer/pages/Orders/OrderPage.js:144-174 | The preview and the "more" count together account for every item exactly once. |
| CartView.DigitPrefix | frontend/src/features/customer/components/Cart/Cart.js:27 | The longest prefix of digits of the base: `parseInt` stops at the first other character. |
| CartView.DigitsValue | frontend/src/features/customer/components/Cart/Cart.js:27 | A digit string of zeros denotes 0, and one led by a non-zero digit denotes a positive number. |
| CartView.ParseUnsigned | frontend/src/features/customer/components/Cart/Cart.js:27 | The empty string is NaN, and a string led by a non-zero decimal digit reads as a positive number. |
| CartView.ParseInt | frontend/src/features/customer/components/Cart/Cart.js:27 | `parseInt` of a blank string is NaN; only a leading '-' gives a negative number; a text led by a non-zero digit gives a positive one. |
| CartView.Digits | frontend/src/features/customer/components/Cart/Cart.js:116 | `String(n)` of a natural number: a non-empty string of decimal digits. |
| CartView.DecimalString | frontend/src/features/customer/components/Cart/Cart.js:108 | `String(n)` is non-empty, starts with '-' exactly when n is negative, and is digits otherwise. |
| CartView.DigitsValueOfDigits | frontend/src/features/customer/components/Cart/Cart.js:27 | The decimal digits of n read back as n. |
| CartView.AllDigitsPrefix | frontend/src/features/customer/components/Cart/Cart.js:27 | A string of decimal digits is its own digit prefix. |
| CartView.ParseDigits | frontend/src/features/customer/components/Cart/Cart.js:27 | `parseInt` of a natural number's digits is that number. |
| CartView.NoLeadingSpace | frontend/src/features/customer/components/Cart/Cart.js:27 | A string that starts with no white space is not changed by the leading trim. |
| CartView.ParseDecimalString | frontend/src/features/customer/components/Cart/Cart.js:27 | `parseInt(String(n)) === n` for every integer n. |
| CartView.ParsedQuantity | frontend/src/features/customer/components/Cart/Cart.js:27 | A number from a +/- button comes through `parseInt` unchanged; a cleared quantity field is NaN. |
| CartView.HandleQuantityChange | frontend/src/features/customer/components/Cart/Cart.js:26-31 | One update with the same dish and the parsed quantity exactly when the input parses to a number above 0; nothing otherwise. |
| CartView.GuardedQuantityPositive | frontend/src/features/customer/components/Cart/Cart.js:28 | Every update the guard lets through asks for at least 1. |
| CartView.StepButtons | frontend/src/features/customer/components/Cart/Cart.js:108-133 | The minus button requests quantity - 1 only when that is at least 1 (nothing on a line of 1). The plus button requests quantity + 1. |
| CartView.NonNumericTextIgnored | frontend/src/features/customer/components/Cart/Cart.js:27-28 | Text `parseInt` reads as NaN dispatches nothing. |

## Left out

- Kafka producers and consumers: the order handlers publish nothing, and the consumer loop only logs.
- Mongoose `populate` and the HTTP, axios and fetch calls inside the thunks. Each thunk is modelled only by the reducer cases its outcome triggers. The error payload (`action.error.message` or the rejected value) is a string parameter.
- Dates, `toLocaleDateString` formatting and polling timers: the clock is a parameter and `createdAt` is an integer.
- Floating-point prices, `toFixed` and the delivery fee: prices are integers.
- jwt verification and signing: `jwt.verify` is a function parameter returning the claims or nothing.
- The MongoDB id generator: `OrderStore` takes the next id from a counter.
- Response message texts: only status codes and bodies that carry data are modelled.
- React rendering, navigation, `FileReader` image previews and browser dialogs.
- The restaurant and customer slices, the dish, restaurant, customer and auth controllers, and the routes: they hold no rules beyond CRUD.
- `orderController.js` uses other keys than the schema (backend/models/Order.js:4-65):
  - It writes `customer`, `restaurant`, `totalAmount` and `orderItems` (backend/controllers/orderController.js:20-30), while the schema declares `customer_id`, `restaurant_id`, `total_price` and `items`.
  - Each item is written as `dish` and `priceAtTime` (backend/controllers/orderController.js:26-28), while the schema's item has `dish_id` and `price` (backend/models/Order.js:18-35).
  - The queries filter on `customer` and `restaurant` (backend/controllers/orderController.js:50, 74, 105-106, 139-140).
  - The lists sort on `createdAt` (backend/controllers/orderController.js:56, 85), while the timestamps option stores the creation time as `created_at` (backend/models/Order.js:62-65).
  - The model reads every one of these keys as the schema's field with the controller's value, which is the evident intent. Filters compare the stored owner, and the lists sort on the stored creation time.
- `OrderController.Create`: the schema's required item `name` is never supplied by the controller. The model leaves the field out, so the cast does not fail on it.
- `OrderController.Cancel`: the handler reads `req.orderId` where the route supplies `order_id`; the model takes the route's order id.
- The Redux store registers no order or customer reducer (frontend/src/redux/store.js:7-11). The order slice is modelled on its own.
- `Cart.js` imports `removeItem` and `updateQuantity`, which the cart slice does not export. `CartView.HandleQuantityChange` models the intended dispatch as a returned update.
- `RestaurantProfile.FieldsOf`: spreading a non-object value (a string or an array) into a nested field is modelled as spreading nothing. JavaScript would copy its index keys.
- `OrderPage.Upper`, `OrderPage.Lower`: case mapping covers ASCII letters only, not Unicode case mapping.
- `Common.IsSpace`: `trim` and `parseInt` skip the common white space (space, tab, line breaks, form feed, vertical tab, no-break space, byte-order mark, line and paragraph separators), not every Unicode space separator.
- `CartSlice.RemoveFromCartFulfilled`: `dish` is modelled as the dish id string, as in the add and update payloads. After `fetchCart`, the lines hold the populated dish document (backend/controllers/cartController.js:8, frontend/src/redux/slices/cartSlice.js:110). Its `toString()` is then "[object Object]", so the filter at frontend/src/redux/slices/cartSlice.js:151 keeps every line and the removed dish stays in the client's cart until the next fetch. The model does not capture that.
- `CartSlice.CartSliceState.Pending`, `CartSlice.CartSliceState.Rejected`: the five thunks' identical pending and rejected cases are modelled once each.
- `CartView.ParsedQuantity`: `parseInt` is modelled for bases 10 and 16 with the `0x` prefix. Precision loss on very long digit strings is not modelled.

## Findings

| source | as written | input that shows it | evidently intended | confidence | as-written member | corrected member |
|---|---|---|---|---|---|---|
| frontend/src/features/restaurant/pages/Profile/RestaurantProfile.js:101-123 | The first branch tests `name.includes('.')`, so every timing input (named `timings.<day>.open` or `.close`) takes it. It replaces `timings[day]` with the raw string, and the per-day branch below is unreachable. | name `timings.monday.open`, value `09:00`, timings.monday = `{open: '', close: ''}`: timings.monday becomes the string `09:00` and the close time is lost | the timings branch: set `timings[day][open]` and keep the day's other time and the other days | not executed | RestaurantProfile.HandleChangeAsWritten (with RestaurantProfile.TimingInputOverwritesDay, RestaurantProfile.MondayOpenExample) | RestaurantProfile.HandleChange (with RestaurantProfile.TimingInputSetsOneTime, RestaurantProfile.MondayOpenCorrected) |
