# BharatMandi storefront: cart store and checkout flow in Dafny

This project models the parts of the BharatMandi React Native storefront that hold real state logic:

- **Cart store** (`CartStore`, from `src/shared/context/CartContext.js`). The store is an insertion-ordered list of cart lines keyed by product id. It has four operations: `addToCart`, `removeFromCart`, `updateQuantity` and `clearCart`. It derives two values, `cartTotal` (the sum of price × quantity) and `cartCount` (the sum of quantities). Each operation is a pure function on the list (`AddTo`, `Remove`, `Update`). The class `Cart` holds the one `cartItems` cell and replaces it through those functions.
- **Checkout step machine** (`Checkout`, from `src/buyer/screens/CheckoutScreen.js`). Its state is `step`, `loading`, `transactionId` and the shipping form. Three handlers (select, init, confirm) each wrap awaited calls to the remote API. Each remote call is a parameter: it throws, or it returns a body. The requests sent and the alerts raised are kept as logs. `State` with `AfterSelect`, `AfterInit`, `AfterConfirm`, `PressButton` and `Run` is the specification. The class `CheckoutScreen` runs the same handlers step by step and is proved equal to it.
- **Cart screen glue** (`CartScreen`, from `src/buyer/screens/CartScreen.js`). This covers the stepper and trash buttons, the summary, and `handleCheckout`. `handleCheckout` hands the first cart line plus the cart total to the checkout screen.
- **Seller order status** (`SellerOrderDetail`, from `src/seller/screens/SellerOrderDetailScreen.js`). This covers the guarded status update of an order and the status colour mapping.

`Wrappers` holds `Option` and JavaScript truthiness for strings. `Api` holds the outcome of an awaited `apiService` call and the response bodies the screens read.

Prices are whole numbers (paise), so the sums are exact integers. `CartScreen.CheckoutFromCart` is a client walk through both screens. It puts A (50 × 2) and B (30 × 1) in the cart, where the total is 130 and the count 3. It then presses through checkout with every call succeeding. The confirm request carries `total_amount` 50, and the cart still counts 3 afterwards.

## Behaviour of the code as modelled

- A successful confirm does not clear the cart. It only raises an alert whose OK button resets navigation to `BuyerDashboard`.
- No handler checks `transactionId` before init or confirm. `Checkout.ReachableRequestsCarryId` shows the button never reaches those handlers without a non-empty id being held, so every init and confirm request the screen can send carries a non-empty transaction id. The model proves the id is non-empty, not that it is the one `search` returned.
- The confirm payload carries one item and `total_amount = product.price`. For a cart checkout, that is the first line's unit price. The `checkoutTotal` handed over by the cart screen is never read: `Checkout.RunIgnoresCartFields` shows that it, the quantity and the cart-checkout flag change nothing the screen sends or shows.
- `handleInit` and the `select` call inside `handleSelect` ignore the response body. Only a throw stops the step.
- The API wrappers never check the HTTP status. A seller status update whose server answers with any body (an error body included) counts as a success. It stores the server's `status`, or the requested status when that is missing or empty.

## Model

| member | source | states |
|---|---|---|
| CartStore.Find | src/shared/context/CartContext.js:31 | finds a line iff one has the id, and returns the first such line |
| CartStore.Adjust | src/shared/context/CartContext.js:33-37 | the per-line quantity map keeps the list's length (its effect on each line is AdjustAt) |
| CartStore.AddTo | src/shared/context/CartContext.js:29-40 | afterwards a line with the product's id is present; the length is unchanged when the id was present and one more otherwise |
| CartStore.Update | src/shared/context/CartContext.js:47-57 | never lengthens the list; afterwards a line with the id is present iff the quantity is positive and one was present before |
| CartStore.Total | src/shared/context/CartContext.js:63 | with no negative price or quantity, cartTotal is not negative |
| CartStore.Count | src/shared/context/CartContext.js:64 | with no negative quantity, cartCount is not negative |
| CartStore.Remove | src/shared/context/CartContext.js:44 | the filtered list is no longer than the input |
| CartStore.RemoveMembers | src/shared/context/CartContext.js:44 | a line is in the filtered list exactly when it is in the input and its id differs |
| CartStore.AdjustAt | src/shared/context/CartContext.js:33-37 | the per-line map changes only matching lines, and only their quantity |
| CartStore.AdjustAbsent | src/shared/context/CartContext.js:53-55 | mapping over an id that is not present leaves the list unchanged |
| CartStore.AdjustKeepsIds | src/shared/context/CartContext.js:33-37 | the quantity map keeps every line's id, so it keeps ids unique |
| CartStore.HeadIdNotInTail | src/shared/context/CartContext.js:31 | in a list with unique ids, the first id does not recur |
| CartStore.AddToExisting | src/shared/context/CartContext.js:31-37 | adding a present id keeps length and order, raises that line's quantity by n (keeping its stored product fields), and leaves all other lines equal |
| CartStore.AddToNew | src/shared/context/CartContext.js:39 | adding a new id appends exactly the line {product, n} at the end |
| CartStore.RemoveKeepsUnique | src/shared/context/CartContext.js:44 | removal keeps ids unique |
| CartStore.RemoveLeavesNone | src/shared/context/CartContext.js:44 | after removal no line has that id |
| CartStore.RemoveAbsent | src/shared/context/CartContext.js:43-45 | removing an absent id is a no-op |
| CartStore.RemoveIdempotent | src/shared/context/CartContext.js:43-45 | removing twice equals removing once |
| CartStore.RemovePresent | src/shared/context/CartContext.js:43-45 | with unique ids, removal cuts out exactly line k and keeps the others in order |
| CartStore.UpdateEffect | src/shared/context/CartContext.js:47-57 | quantity ≤ 0 is removal; otherwise the length is kept and only matching lines get exactly that quantity |
| CartStore.UpdateAbsent | src/shared/context/CartContext.js:47-57 | updateQuantity never adds a line: on an absent id the list is unchanged for every quantity |
| CartStore.OperationsKeepUnique | src/shared/context/CartContext.js:29-57 | add, remove and update all keep at most one line per id |
| CartStore.OperationsKeepPositive | src/shared/context/CartContext.js:29-57 | positive quantities stay positive under add with n > 0, under remove, and under update with any quantity |
| CartStore.SumsOfConcat | src/shared/context/CartContext.js:63-64 | cartCount and cartTotal are additive over concatenation |
| CartStore.SumsOfIncreaseAtHead | src/shared/context/CartContext.js:33-37 | raising the first line, whose id is unique, by n raises the count by n and the total by its price × n |
| CartStore.SumsOfIncrease | src/shared/context/CartContext.js:33-37 | raising the single line k by n raises the count by n and the total by its price × n |
| CartStore.AddToSums | src/shared/context/CartContext.js:29-40 | addToCart raises cartCount by exactly n, and cartTotal by n times the price of the line it lands on |
| CartStore.RemoveSums | src/shared/context/CartContext.js:43-45 | removing line k lowers the count by its quantity and the total by its subtotal |
| CartStore.SetIsIncrease | src/shared/context/CartContext.js:52-56 | setting line k's quantity equals raising it by the difference |
| CartStore.SetSums | src/shared/context/CartContext.js:52-56 | setting line k's quantity to q changes the count by q minus the old quantity, and the total by the price times that difference |
| CartStore.UpdateSums | src/shared/context/CartContext.js:47-57 | updateQuantity on line k replaces its share of the count and the total by the new one, or by nothing when removed |
| CartStore.Cart.constructor | src/shared/context/CartContext.js:10 | the cart starts empty |
| CartStore.Cart.AddToCart | src/shared/context/CartContext.js:29-41 | the new list is AddTo of the old, default quantity 1; unique ids stay unique and the count rises by the quantity |
| CartStore.Cart.RemoveFromCart | src/shared/context/CartContext.js:43-45 | the new list is Remove of the old; no line with the id remains; uniqueness kept |
| CartStore.Cart.UpdateQuantity | src/shared/context/CartContext.js:47-57 | the new list is Update of the old (delegating to removal for q ≤ 0); uniqueness and positivity kept |
| CartStore.Cart.ClearCart | src/shared/context/CartContext.js:59-61 | the list becomes empty, with total 0 and count 0 |
| Checkout.ConfirmPayload | src/buyer/screens/CheckoutScreen.js:69-78 | the confirm inputs carry customer_name = the shipping name, total_amount = product.price, seller_id = the product's seller, the single item {id, name, price} of the product, and payment COD/PENDING |
| Checkout.SearchError | src/buyer/screens/CheckoutScreen.js:26-41 | the message the catch block receives: a thrown error's own text; the engine's TypeError text when search succeeds without data; "Failed to start transaction" otherwise |
| Checkout.AfterSelect | src/buyer/screens/CheckoutScreen.js:23-45 | step becomes 2 iff search succeeds with a truthy id and select does not throw; the id is stored before select, which gets the product id and quantity 1; every failure appends one error alert and keeps the earlier ones, a search failure with the SearchError text; loading ends false |
| Checkout.AfterInit | src/buyer/screens/CheckoutScreen.js:48-61 | init gets the held id, billing = shipping form and DELIVERY; step 3 iff it does not throw, whatever the body; a throw raises the error alert; loading ends false |
| Checkout.AfterConfirm | src/buyer/screens/CheckoutScreen.js:64-97 | confirm sends the payload, never changes step, and raises one alert that resets to BuyerDashboard iff the result has success; loading ends false |
| Checkout.PressButton | src/buyer/screens/CheckoutScreen.js:223-226 | while loading the press is ignored; step 1 dispatches select, step 2 init, any other step confirm |
| Checkout.Step | src/buyer/screens/CheckoutScreen.js:170-226 | a press follows PressButton; each text input replaces one field of the form, only at step 2, and changes nothing else; the request and alert logs only grow |
| Checkout.Run | src/buyer/screens/CheckoutScreen.js:23-226 | over any events the request and alert logs only grow: what was sent or shown stays as it was |
| Checkout.SentGrows | src/buyer/screens/CheckoutScreen.js:31 | once a select or init request is logged, it stays logged |
| Checkout.StepKeepsValid | src/buyer/screens/CheckoutScreen.js:23-97 | one press or edit keeps the protocol invariant and never lowers step |
| Checkout.RunKeepsValid | src/buyer/screens/CheckoutScreen.js:10-97 | over any event sequence and any server behaviour, the invariant holds and step never decreases |
| Checkout.ReachableRequestsCarryId | src/buyer/screens/CheckoutScreen.js:10-80 | from the initial state, step stays in {1,2,3}, loading is false between events, and every init/confirm request carries a non-empty transaction id |
| Checkout.InitRetry | src/buyer/screens/CheckoutScreen.js:48-61 | a failed init leaves step 2; a following init that returns advances exactly to 3 |
| Checkout.InitIgnoresBody | src/buyer/screens/CheckoutScreen.js:51-55 | the init handler's effect does not depend on the response body |
| Checkout.SelectIgnoresBody | src/buyer/screens/CheckoutScreen.js:31-36 | the select handler's effect does not depend on select's response body |
| Checkout.RunIgnoresCartFields | src/buyer/screens/CheckoutScreen.js:69-78 | over any events, changing the navigation parameter's quantity, checkoutTotal or cart-checkout flag changes nothing the screen sends or shows |
| Checkout.ConfirmsChargeUnitPrice | src/buyer/screens/CheckoutScreen.js:73-75 | over any events, every confirm request sent charges product.price for the one item {id, name, price} of the product |
| Checkout.CheckoutScreen.constructor | src/buyer/screens/CheckoutScreen.js:9-17 | step 1, not loading, no transaction id, default shipping form; the invariant holds |
| Checkout.CheckoutScreen.HandleSelect | src/buyer/screens/CheckoutScreen.js:23-45 | the step-by-step handler ends in the state AfterSelect gives |
| Checkout.CheckoutScreen.HandleInit | src/buyer/screens/CheckoutScreen.js:48-61 | the step-by-step handler ends in the state AfterInit gives |
| Checkout.CheckoutScreen.HandleConfirm | src/buyer/screens/CheckoutScreen.js:64-97 | the step-by-step handler ends in the state AfterConfirm gives |
| Checkout.CheckoutScreen.OnPress | src/buyer/screens/CheckoutScreen.js:225-226 | the button follows PressButton, keeps the invariant and never lowers step |
| Checkout.CheckoutScreen.OnChangeName | src/buyer/screens/CheckoutScreen.js:178 | replaces the name and keeps address and phone |
| Checkout.CheckoutScreen.OnChangeAddress | src/buyer/screens/CheckoutScreen.js:187 | replaces the address and keeps name and phone |
| Checkout.CheckoutScreen.OnChangePhone | src/buyer/screens/CheckoutScreen.js:196 | replaces the phone and keeps name and address |
| CartScreen.HandleCheckout | src/buyer/screens/CartScreen.js:11-19 | nothing happens iff the cart is empty; otherwise a cart checkout carrying the cart total |
| CartScreen.Render | src/buyer/screens/CartScreen.js:70-96 | empty state iff the cart is empty; otherwise all lines, with a footer showing the number of lines (not cartCount) and cartTotal |
| CartScreen.OnMinus | src/buyer/screens/CartScreen.js:38 | calls updateQuantity(id, quantity - 1) |
| CartScreen.OnPlus | src/buyer/screens/CartScreen.js:45 | calls updateQuantity(id, quantity + 1) |
| CartScreen.OnRemove | src/buyer/screens/CartScreen.js:53 | calls removeFromCart(id) |
| CartScreen.CheckoutSeesFirstLineOnly | src/buyer/screens/CartScreen.js:17 | carts agreeing on line 0 and on the total check out identically; the product passed is line 0's |
| CartScreen.CartCheckoutConfirmAmount | src/buyer/screens/CartScreen.js:17 | after a cart checkout, over any events, every confirm request charges line 0's unit price for one item, not the cart total handed over |
| CartScreen.MinusOnLastUnitRemovesLine | src/buyer/screens/CartScreen.js:38 | minus on a line at quantity 1 removes exactly that line |
| CartScreen.StepperMovesCountByOne | src/buyer/screens/CartScreen.js:38-45 | minus lowers cartCount by one and plus raises it by one |
| CartScreen.TwoLineCart | src/shared/context/CartContext.js:29-40 | adding A × 2 then B × 1 (default quantity) to an empty cart gives exactly those two lines, in that order |
| CartScreen.CheckoutWalk | src/buyer/screens/CheckoutScreen.js:23-97 | three presses on a fresh checkout screen, every call succeeding and search issuing tx-1, send as fourth request the confirm with tx-1 and the product's payload with the default form |
| CartScreen.CheckoutFromCart | src/buyer/screens/CartScreen.js:11-19 | from the cart A (50 × 2), B (30 × 1), the checkout is handed total 130, the confirm charges 50, and the cart still counts 3 |
| CartScreen.LinesAtMostCount | src/buyer/screens/CartScreen.js:88-89 | the summary's line count is at most cartCount, and equal iff every quantity is 1 |
| SellerOrderDetail.Choice.Name | src/seller/screens/SellerOrderDetailScreen.js:8 | every status button's status is one of STATUS_CHOICES |
| SellerOrderDetail.StoredStatus | src/seller/screens/SellerOrderDetailScreen.js:29 | the stored status is the server's status when that is truthy (and then non-empty), and the requested one otherwise |
| SellerOrderDetail.StatusColor | src/seller/screens/SellerOrderDetailScreen.js:43-51 | total; the fallback colour is returned iff the status is not one of the four |
| SellerOrderDetail.StatusColorsDistinct | src/seller/screens/SellerOrderDetailScreen.js:43-51 | the four statuses get four distinct colours, none the fallback |
| SellerOrderDetail.ChoicesAreTheOfferedStatuses | src/seller/screens/SellerOrderDetailScreen.js:8 | the buttons are exactly PENDING, SHIPPED, DELIVERED, CANCELLED |
| SellerOrderDetail.AfterStatusUpdate | src/seller/screens/SellerOrderDetailScreen.js:15-41 | the same status is a no-op with no dialog and no call; cancel only shows the dialog; confirm sends one request, replaces only status when the call returns, keeps the order when it throws, and loading ends false |
| SellerOrderDetail.AfterTap | src/seller/screens/SellerOrderDetailScreen.js:96-97 | a tap while loading does nothing; any tap keeps the order's id and only appends to the request and dialog logs |
| SellerOrderDetail.RunTaps | src/seller/screens/SellerOrderDetailScreen.js:88-97 | over any taps the order keeps its id and the request and dialog logs only grow |
| SellerOrderDetail.AnyTransitionAllowed | src/seller/screens/SellerOrderDetailScreen.js:15-29 | any different offered status can be stored: there is no transition restriction |
| SellerOrderDetail.DeliveredBackToPending | src/seller/screens/SellerOrderDetailScreen.js:16-29 | a delivered order can be set back to pending |
| SellerOrderDetail.RunChangesOnlyStatus | src/seller/screens/SellerOrderDetailScreen.js:15-41 | over any taps, loading is false, only status differs from the initial order, and every request names this order and an offered status |
| SellerOrderDetail.PlainRunKeepsKnownStatus | src/seller/screens/SellerOrderDetailScreen.js:28-29 | if the server never echoes a truthy status, the status stays the initial one or one of the four |
| SellerOrderDetail.PlainTail | src/seller/screens/SellerOrderDetailScreen.js:29 | the rest of a plain tap sequence is plain |
| SellerOrderDetail.SellerOrderDetailScreen.constructor | src/seller/screens/SellerOrderDetailScreen.js:11-13 | starts with the given order, not loading |
| SellerOrderDetail.SellerOrderDetailScreen.HandleStatusUpdate | src/seller/screens/SellerOrderDetailScreen.js:15-41 | the step-by-step handler ends in the state AfterStatusUpdate gives |
| SellerOrderDetail.SellerOrderDetailScreen.OnStatusPress | src/seller/screens/SellerOrderDetailScreen.js:96-97 | the disabled-while-loading button follows AfterTap |

## Left out

- Cart persistence (src/shared/context/CartContext.js:12-27): AsyncStorage hydration and saving, and JSON serialisation, are asynchronous storage I/O. The model starts each cart empty, as on a first launch.
- Floating-point prices and `parseFloat`: prices and quantities are integers, so sums are exact. JavaScript's loose typing (a missing id, a quantity that is not a number) is not modelled.
- The API service (src/shared/services/apiService.js) is not part of this model. Each call is an outcome: a throw, or a returned body. Its failure to check the HTTP status is reflected only in that any body counts as returned.
- The session id is a parameter of the select handler, because it is built from the clock (`Date.now()`).
- Alerts are logged as values and are not shown. Navigation is recorded only as the route a success alert's OK resets to. `console` output is not modelled.
- Concurrency: each handler runs atomically, from its entry to its `finally`. Interleaving of awaited calls, double taps while a call is in flight, stale closures and unmounting are not modelled. For that reason, `loading` is always false between events, and the disabled-while-loading guard is modelled but never fires.
- The text of the TypeError that `handleSelect` catches when `search` reports success without `data` depends on the JavaScript engine. `Checkout.MissingDataMessage` stands in for it.
- The product detail, marketplace, dashboard, order list, add/edit product, login and register screens, the auth context, components, theme and navigator are presentation or form plumbing and are not part of this model.
