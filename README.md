# Storefront checkout, modelled in Dafny

A model of the sequential logic of a small storefront: the browser client's cart
store, the checkout page that turns a cart into an order and a payment session, the
API server's checkout-session and session-status handlers, and the client's order-list
reads. HTTP, React rendering, browser storage and the Stripe SDK are outside the model:
what a collaborator answers is an input (`Reply<T> = Ok(value) | Failed(status)`), and
the requests the page makes are recorded in order, so contracts state which calls are
made and what state results.

Files, one module each:

- `wrappers.dfy` (`Wrappers`): `Option` and `Reply`.
- `cart_handlers.dfy` (`CartHandlers`): cart lines, order items, `calculateTotalPrice` (a left fold) and `mapCartToOrderItems`. The fold is proved equal to the reference sum Σ price × (quantity || 1), and the derived items are proved worth exactly the cart's total.
- `cart_context.dfy` (`CartContext`): the `addToCart` and `removeFromCart` updaters as functions over the list. Their invariants are one line per product id, untouched other lines, order kept, and idempotent removal. The class `CartStore` holds the `cart` cell, and its methods assign those functions' results.
- `js_text.dfy` (`JsText`): JavaScript truthiness of an optional string, and `String.prototype.trim` with the full ECMAScript white-space set, proved empty exactly on all-white strings.
- `cart_page.dfy` (`CartPage`), covering the checkout page:
  - the step variable and its transitions;
  - the validation loop and the quantity edit;
  - the new order record;
  - the submission and the return flow as decision functions (`Submit`, `Reconcile`) with lemmas;
  - the class `CheckoutPage`, whose methods run the same sequences step by step and are proved to make exactly the requests, and leave exactly the state, the decision functions give.
- `checkout_api.dfy` (`CheckoutApi`): the early-return validation of `/create-checkout-session`, its line-item mapping and session parameters, and the `/session_status` guard.
- `order_services.dfy` (`OrderServices`): `fetchAllOrders`' defaulting map and `fetchAllOrdersWithItems`' per-order fallback. The per-order detail fetch is an oracle `int -> Reply<...>`.

Prices are integers in cents throughout.

## Model

| member | source | states |
|---|---|---|
| CartHandlers.EffectiveQuantity | ecommerce-client/src/utils/cartHandlers.ts:6 | `quantity \|\| 1`: never 0; the stored quantity when it is present and non-zero, else 1 |
| CartHandlers.SumFromAddsLinesTotal | ecommerce-client/src/utils/cartHandlers.ts:5-8 | the `reduce` from any accumulator adds Σ price × quantity to it |
| CartHandlers.CalculateTotalPrice | ecommerce-client/src/utils/cartHandlers.ts:4-9 | the total is Σ price × (quantity \|\| 1) over the cart, and 0 for the empty cart |
| CartHandlers.TotalOfConcatenation | ecommerce-client/src/utils/cartHandlers.ts:4-9 | the total of two carts put together is the sum of their totals |
| CartHandlers.MapCartToOrderItems | ecommerce-client/src/utils/cartHandlers.ts:11-20 | one item per line, same order; each has no id, order_id 0, the product's id, name and price, and quantity (quantity \|\| 1) |
| CartHandlers.OrderItemsTotalIsCartTotal | ecommerce-client/src/utils/cartHandlers.ts:4-20 | Σ quantity × unit_price over the derived items equals the cart's total |
| CartContext.IncrementMatching | ecommerce-client/src/components/contexts/CartContext.tsx:25-27 | same length, order and ids; matching lines get (quantity \|\| 1) + 1, others unchanged |
| CartContext.AddToCart | ecommerce-client/src/components/contexts/CartContext.tsx:21-31 | present id: same length, that line +1, other lines unchanged; absent id: unchanged prefix, then the product with quantity 1; the id is present afterwards |
| CartContext.AddToCartKeepsIdsDistinct | ecommerce-client/src/components/contexts/CartContext.tsx:21-31 | distinct ids before imply distinct ids after |
| CartContext.AddToCartYieldsOneLine | ecommerce-client/src/components/contexts/CartContext.tsx:21-31 | on a cart with distinct ids, exactly one line carries the added product afterwards |
| CartContext.AddTwiceYieldsQuantityTwo | ecommerce-client/src/components/contexts/CartContext.tsx:21-31 | adding a product twice to a cart lacking it appends exactly one line, with quantity 2 |
| CartContext.RemoveFromCart | ecommerce-client/src/components/contexts/CartContext.tsx:37-45 | no line has the id afterwards; exactly the other lines are kept; a cart without the id is returned unchanged |
| CartContext.RemoveFromCartDistributes | ecommerce-client/src/components/contexts/CartContext.tsx:39-41 | the filter distributes over concatenation, so the kept lines stay in their original order |
| CartContext.RemoveFromCartIdempotent | ecommerce-client/src/components/contexts/CartContext.tsx:39-41 | removing the same id a second time changes nothing |
| CartContext.RemoveFromCartKeepsIdsDistinct | ecommerce-client/src/components/contexts/CartContext.tsx:37-45 | distinct ids before imply distinct ids after |
| CartContext.CartStore.constructor | ecommerce-client/src/components/contexts/CartContext.tsx:16-19 | the cart starts as the saved cart, or empty |
| CartContext.CartStore.Add | ecommerce-client/src/components/contexts/CartContext.tsx:21-31 | the cart becomes AddToCart of the old cart; the id is present; with distinct ids before, they stay distinct and the product has exactly one line |
| CartContext.CartStore.Remove | ecommerce-client/src/components/contexts/CartContext.tsx:37-45 | the cart becomes RemoveFromCart of the old cart; the id is gone; distinct ids stay distinct |
| CartContext.CartStore.SetCart | ecommerce-client/src/components/contexts/CartContext.tsx:48 | the exposed `setCart` replaces the whole list |
| JsText.Trim | ecommerce-client/src/pages/CartPage.tsx:97 | `trim()` gives the empty string exactly when every character is ECMAScript white space |
| CartPage.ValidateFields | ecommerce-client/src/pages/CartPage.tsx:95-105 | the early-return loop answers true exactly when no field is blank (white space only) |
| CartPage.CheckoutPage.ValidateCustomerInfo | ecommerce-client/src/pages/CartPage.tsx:95-105 | true exactly when all nine fields are filled; sets 'Please fill in all fields.' when not, clears the error when so |
| CartPage.ChangeQuantity | ecommerce-client/src/pages/CartPage.tsx:107-117 | same length, order and ids; lines whose id equals the edited line's id (absent ids equal each other, as `===` on undefined) take the given quantity with no bound (0 and negatives kept); others unchanged |
| CartPage.ChangeQuantityKeepsIdsDistinct | ecommerce-client/src/pages/CartPage.tsx:107-117 | a quantity edit keeps one line per product id |
| CartPage.ZeroQuantityIsChargedAsOne | ecommerce-client/src/pages/CartPage.tsx:107-117 | a line set to quantity 0 is still charged once by the total (`quantity \|\| 1`) |
| CartPage.CheckoutPage.HandleQuantityChange | ecommerce-client/src/pages/CartPage.tsx:107-117 | the store's cart becomes ChangeQuantity of the old cart; distinct ids stay distinct |
| CartPage.CheckoutPage.constructor | ecommerce-client/src/pages/CartPage.tsx:33-61 | step 'cart', the saved form or a blank one, no error, not loading, no summary, no requests |
| CartPage.CheckoutPage.GoToCheckout | ecommerce-client/src/pages/CartPage.tsx:82-84 | from the non-empty cart view (the only place its button is shown), the step becomes 'customerInfo' |
| CartPage.CheckoutPage.BackToCart | ecommerce-client/src/pages/CartPage.tsx:86-88 | from the form view, the step becomes 'cart' |
| CartPage.BuildOrder | ecommerce-client/src/pages/CartPage.tsx:165-183 | Unpaid, Pending, payment_id ''; items = mapped cart; total = cart total = Σ over its own items; customer_* copy the form |
| CartPage.UsableCustomerId | ecommerce-client/src/pages/CartPage.tsx:156-160 | an id results exactly when the customer and its id are present and the id is not 0 |
| CartPage.AfterCustomer | ecommerce-client/src/pages/CartPage.tsx:156-223 | an absent customer, missing id or id 0 gives no request and 'Failed to retrieve customer information.'; a usable id leads first to creating BuildOrder's record; the steps never look up or create a customer |
| CartPage.Submit | ecommerce-client/src/pages/CartPage.tsx:119-224 | the decision sequence of the submission: no request at all exactly when a field is blank (then the fill-in error); otherwise the first request is the lookup by email. Its further properties are the lemmas below |
| CartPage.CustomerCreatedOnlyWhenNotFound | ecommerce-client/src/pages/CartPage.tsx:129-154 | one customer creation exactly when the form is filled and the lookup failed with 404; none otherwise |
| CartPage.OrderCreatedOnlyForUsableCustomer | ecommerce-client/src/pages/CartPage.tsx:129-186 | an order is created only with a filled form and a usable id from the found customer or, after a 404, the created one; the record is BuildOrder's |
| CartPage.PaymentIdAttachedOnlyWithSession | ecommerce-client/src/pages/CartPage.tsx:189-206 | after a created order and a non-empty session id, on every customer path, the order is patched with that id and Unpaid/Pending; conversely a patch happens only then; an empty session id means no patch, no hand-off and the session error |
| CartPage.LookupFailureStopsSubmission | ecommerce-client/src/pages/CartPage.tsx:129-153 | a filled form whose lookup fails with any status but 404 makes only the lookup and shows 'Failed to check customer existence. Please try again.' |
| CartPage.UnusableCustomerStopsSubmission | ecommerce-client/src/pages/CartPage.tsx:129-160 | a found or newly created customer without a usable id stops right after the lookup (and creation) with 'Failed to retrieve customer information.', before any order |
| CartPage.SubmitWithoutErrorReachedHandOff | ecommerce-client/src/pages/CartPage.tsx:119-224 | no error shown implies a filled form, a created order, a non-empty session id and a successful patch; the last request is the hand-off, or the patch when the Stripe loader resolved to null |
| CartPage.FailuresAreReported | ecommerce-client/src/pages/CartPage.tsx:186-220 | a thrown order creation shows the generic checkout message; the hand-off, when made, is the last request and needs a loaded Stripe; a reported redirect error shows the redirect message, a throw the generic one, a clean hand-off none |
| CartPage.SubmitWhenAllSucceed | ecommerce-client/src/pages/CartPage.tsx:119-217 | when every collaborator answers: lookup, order, session, patch, hand-off, in that order, and no error |
| CartPage.ExistingCustomerShirtScenario | ecommerce-client/src/pages/CartPage.tsx:165-206 | a shirt at 20.00 × 2 for existing customer 7: order for 7 at 40.00, Unpaid with empty payment_id, then patched with the session id; no customer created |
| CartPage.CheckoutPage.HandleSubmitCustomerInfo | ecommerce-client/src/pages/CartPage.tsx:119-224 | makes exactly Submit's requests and shows its error; loading ends off once past validation; step and cart untouched |
| CartPage.CheckoutPage.ContinueWithCustomer | ecommerce-client/src/pages/CartPage.tsx:156-223 | makes exactly AfterCustomer's requests, shows its error if any, and ends with loading off |
| CartPage.ReturnWithoutSessionIdChangesNothing | ecommerce-client/src/pages/CartPage.tsx:226-231 | a missing session id makes no request, shows 'Session ID is missing.' and captures nothing |
| CartPage.Reconcile | ecommerce-client/src/pages/CartPage.tsx:226-262 | the return flow: summary (and clearing) exactly when the session id is given and both the fetch and the patch succeed; the summary is the pre-clear cart and its total with no error; otherwise an error, 'Failed to create the order. Please try again.' whenever a session id was given |
| CartPage.ReconcilePatchesFetchedStatus | ecommerce-client/src/pages/CartPage.tsx:240-246 | details fetched for the session id; the named order patched to the fetched payment status and Pending, payment_id untouched |
| CartPage.PaidReturnScenario | ecommerce-client/src/pages/CartPage.tsx:240-255 | session 'sess_abc', order 55 paid: order 55 patched to Paid/Pending, summary holds the pre-clear cart |
| CartPage.CheckoutPage.HandleOrderCreation | ecommerce-client/src/pages/CartPage.tsx:226-262 | makes exactly Reconcile's requests; on success stores the summary and empties the cart, on any failure keeps the cart and shows the error |
| CheckoutApi.LineItems | ecommerce-api-new/src/index.ts:49-58 | one line item per cart line, same order; currency 'usd', the line's name, its price in cents, its quantity as sent |
| CheckoutApi.CreateCheckoutSession | ecommerce-api-new/src/index.ts:24-76 | bad cart: 400 'Cart is required and must not be empty' first; then falsy customer id: 400 'Customer ID is required'; Stripe is called only when both pass, with the line items and client_reference_id = customerId; 200 with the session id, or 500 |
| CheckoutApi.SessionStatus | ecommerce-api-new/src/index.ts:78-97 | no session id: 400 'Session ID is required' without contacting Stripe; else the session is retrieved by that id and its status fields are returned with 200, or, when Stripe fails, 500 'Failed to retrieve session status' |
| CheckoutApi.LineItemsChargeCartTotal | ecommerce-api-new/src/index.ts:49-58 | when every line has a non-zero quantity, Σ unit_amount × quantity over the line items equals the client's cart total |
| OrderServices.DefaultItems | ecommerce-client/src/services/orderServices.ts:23-26 | same length and order; items present are kept, absent items become []; every other field unchanged |
| OrderServices.FetchAllOrders | ecommerce-client/src/services/orderServices.ts:18-31 | a failed list fetch propagates; otherwise entry i is listed order i with every other field unchanged and its items kept, or [] when absent |
| OrderServices.WithItems | ecommerce-client/src/services/orderServices.ts:72-93 | one result per order, same order; each order changes only its items, to what its own detail fetch gave ([] on failure or absence) |
| OrderServices.FetchAllOrdersWithItems | ecommerce-client/src/services/orderServices.ts:67-100 | a failed list fetch propagates rather than giving a partial list; otherwise entry i is listed order i with only its items replaced by its own detail fetch's items ([] on failure or absence) |
| OrderServices.FailedDetailGivesNoItems | ecommerce-client/src/services/orderServices.ts:82-90 | an order whose detail fetch fails keeps its other fields and gets [] |
| OrderServices.FetchedDetailGivesItsItems | ecommerce-client/src/services/orderServices.ts:74-81 | an order whose detail fetch succeeds gets the detail's items, or [] if absent |
| OrderServices.DetailFailureIsolated | ecommerce-client/src/services/orderServices.ts:72-93 | an order's result depends only on its own detail fetch, so another order's failure does not change it |
| OrderServices.FailingOrderNineScenario | ecommerce-client/src/services/orderServices.ts:67-100 | order 9 with a failing detail fetch is still in the list, with [] |

## Left out

- HTTP and database plumbing (axios calls, Express routing and middleware, CORS, the database connection, server start-up): only the outcomes of the calls are modelled, as `Reply` inputs.
- The Stripe SDK (`sessions.create`, `sessions.retrieve`, `loadStripe`, `redirectToCheckout`): the session id, the retrieved session, how the loader settles (rejected, null or loaded) and the hand-off's outcome are inputs.
- Browser persistence: reading and writing `cart` and `customerInfo` in local storage, and JSON parsing, are not modelled. The stores start from an already-parsed saved value or the default.
- React rendering, effects and hook lifecycles, including `handleCustomerInfoChange`, which writes one named form field.
- The stale `loading` check in handleOrderCreation (CartPage.tsx:236-238), which reads a stale closure value and returns markup from an async function.
- No shown code sets the step to 'success' or 'orderSummary'. `HandleOrderCreation` is therefore an external entry point with no step precondition, and no success→orderSummary transition is modelled.
- Floating point: prices are integer cents.
- CheckoutApi.LineItems: `unit_amount` is the line's price in cents. The source multiplies a price in dollars by 100 in floating point, and that rounding is not modelled.
- Interleaving of the page's asynchronous handlers: each handler runs to completion as one method. In the source the checkout button stays enabled while `loading` is set, and nothing reads `loading` before the lookup. Two overlapping submissions can therefore both miss the customer and create it twice. `CartPage.CustomerCreatedOnlyWhenNotFound` holds per submission only.
- Concurrency in `Promise.all`: the per-order fan-out is a sequential map, since each order's fetch is independent.
- Product ids are integers or absent. The `product.id && …` guard on the remove button (absent id or id 0) belongs to the rendering and is not modelled.
- Log output (`console.log`, `console.error`) is not modelled.
- The thin wrappers customerServices.ts, productServices.ts, utils/orderHandlers.ts, hooks/useProducts.ts and hooks/useOrders.ts, and the UI-only Footer.tsx, are not part of this model.
- The unused `success_url` and `cancel_url` fields of the checkout-session body are not modelled.
