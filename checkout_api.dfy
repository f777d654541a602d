/** The payment endpoints of the API server (ecommerce-api-new/src/index.ts):
    POST /create-checkout-session, which validates the cart and the customer id and
    asks Stripe for a hosted checkout session, and GET /session_status, which asks
    Stripe about a session. Stripe's answer is an input; what the handler sends to
    Stripe and what it responds are the outputs. */
module CheckoutApi {
  import opened Wrappers
  import opened CartHandlers
  import opened JsText

  /** A scalar of the JSON body as the handler sees it: absent (undefined or null),
      a number or a string. */
  datatype Scalar = Absent | Num(n: int) | Text(s: string)

  /** The values `!x` accepts: absent, 0 and the empty string. */
  predicate Falsy(v: Scalar) {
    v.Absent? || v == Num(0) || v == Text("")
  }

  /** The body of POST /create-checkout-session. `cart` is None when the field is
      missing or is not an array. */
  datatype CheckoutBody = CheckoutBody(cart: Option<seq<Product>>, customerId: Scalar)

  /** A Stripe line item: `price_data` (currency, product name, unit amount in cents)
      and a quantity, copied from the cart line as it is (possibly absent). */
  datatype LineItem = LineItem(currency: string, product_name: string, unit_amount: Cents, quantity: Option<int>)

  /** The parameters of `stripe.checkout.sessions.create`. */
  datatype SessionParams = SessionParams(
    payment_method_types: seq<string>,
    line_items: seq<LineItem>,
    mode: string,
    success_url: string,
    cancel_url: string,
    client_reference_id: Scalar)

  /** A checkout session as `stripe.checkout.sessions.retrieve` returns it. */
  datatype CheckoutSession = CheckoutSession(status: string, payment_status: string, customer_email: Option<string>)

  datatype ResponseBody =
    | ErrorBody(error: string)
    | SessionIdBody(sessionId: string)
    | StatusBody(status: string, payment_status: string, customer_email: Option<string>)

  datatype Response = Response(status: int, body: ResponseBody)

  /** A handled request: the call made to Stripe, if one was made, and the response sent. */
  datatype Handled<P> = Handled(stripeCall: Option<P>, response: Response)

  const CartRequiredMessage := "Cart is required and must not be empty"
  const CustomerIdRequiredMessage := "Customer ID is required"
  const SessionCreationFailedMessage := "Failed to create checkout session"
  const SessionIdRequiredMessage := "Session ID is required"
  const SessionStatusFailedMessage := "Failed to retrieve session status"

  /** The cart check of the handler: present, an array, and not empty. */
  predicate ValidCart(cart: Option<seq<Product>>) {
    cart.Some? && cart.value != []
  }

  /** The `cart.map` to Stripe line items: one per cart line, in cart order, each in
      US dollars with the line's name, its price in cents and its quantity as sent. */
  function LineItems(cart: seq<Product>): (items: seq<LineItem>)
    ensures |items| == |cart|
    ensures forall i :: 0 <= i < |cart| ==>
      && items[i].currency == "usd"
      && items[i].product_name == cart[i].name
      && items[i].unit_amount == cart[i].price
      && items[i].quantity == cart[i].quantity
  {
    if cart == [] then []
    else [LineItem("usd", cart[0].name, cart[0].price, cart[0].quantity)] + LineItems(cart[1..])
  }

  /** The session Stripe is asked for: card payment of the line items, returning to the
      front end's success page (with the session id in the address) or to its cart,
      and referring to the customer. */
  function SessionParamsFor(cart: seq<Product>, customerId: Scalar, frontendUrl: string): SessionParams {
    SessionParams(["card"], LineItems(cart), "payment",
                  frontendUrl + "/success?session_id={CHECKOUT_SESSION_ID}",
                  frontendUrl + "/cart",
                  customerId)
  }

  /** POST /create-checkout-session. An invalid cart is refused with 400 before anything
      else is looked at; then a falsy customer id is refused with 400; neither reaches
      Stripe. Otherwise Stripe is asked once, for the cart's line items and the customer
      as reference, and its session id is sent back (500 if Stripe fails). */
  function CreateCheckoutSession(body: CheckoutBody, frontendUrl: string, created: Reply<string>): (h: Handled<SessionParams>)
    ensures !ValidCart(body.cart) ==> h == Handled(None, Response(400, ErrorBody(CartRequiredMessage)))
    ensures ValidCart(body.cart) && Falsy(body.customerId) ==>
      h == Handled(None, Response(400, ErrorBody(CustomerIdRequiredMessage)))
    ensures h.stripeCall.Some? <==> ValidCart(body.cart) && !Falsy(body.customerId)
    ensures h.stripeCall.Some? ==>
      && h.stripeCall.value.line_items == LineItems(body.cart.value)
      && h.stripeCall.value.client_reference_id == body.customerId
      && h.response == (if created.Ok? then Response(200, SessionIdBody(created.value))
                        else Response(500, ErrorBody(SessionCreationFailedMessage)))
    ensures h.response.status == 200 <==> h.stripeCall.Some? && created.Ok?
  {
    if !ValidCart(body.cart) then Handled(None, Response(400, ErrorBody(CartRequiredMessage)))
    else if Falsy(body.customerId) then Handled(None, Response(400, ErrorBody(CustomerIdRequiredMessage)))
    else
      var params := SessionParamsFor(body.cart.value, body.customerId, frontendUrl);
      match created
      case Ok(sessionId) => Handled(Some(params), Response(200, SessionIdBody(sessionId)))
      case Failed(_) => Handled(Some(params), Response(500, ErrorBody(SessionCreationFailedMessage)))
  }

  /** GET /session_status. Without a session id the answer is 400 and Stripe is not
      contacted; otherwise the session is retrieved by that id and its status, payment
      status and customer email are sent back (500 if Stripe fails). */
  function SessionStatus(sessionId: Option<string>, retrieved: Reply<CheckoutSession>): (h: Handled<string>)
    ensures !Truthy(sessionId) ==> h == Handled(None, Response(400, ErrorBody(SessionIdRequiredMessage)))
    ensures Truthy(sessionId) ==> h.stripeCall == sessionId
    ensures h.response.status == 200 <==> Truthy(sessionId) && retrieved.Ok?
    ensures h.response.status == 200 ==>
      h.response.body == StatusBody(retrieved.value.status, retrieved.value.payment_status, retrieved.value.customer_email)
    ensures Truthy(sessionId) && retrieved.Failed? ==>
      h.response == Response(500, ErrorBody(SessionStatusFailedMessage))
  {
    if !Truthy(sessionId) then Handled(None, Response(400, ErrorBody(SessionIdRequiredMessage)))
    else
      match retrieved
      case Ok(s) => Handled(sessionId, Response(200, StatusBody(s.status, s.payment_status, s.customer_email)))
      case Failed(_) => Handled(sessionId, Response(500, ErrorBody(SessionStatusFailedMessage)))
  }

  /** The line items are worth what the cart is worth wherever every line carries a
      non-zero quantity (with an absent or zero quantity the cart counts the line once,
      while the line item forwards the quantity as it is). */
  lemma {:induction false} LineItemsChargeCartTotal(cart: seq<Product>)
    requires forall i :: 0 <= i < |cart| ==> cart[i].quantity.Some? && cart[i].quantity.value != 0
    ensures LineItemsTotal(LineItems(cart)) == CalculateTotalPrice(cart)
  {
    if cart != [] {
      LineItemsChargeCartTotal(cart[1..]);
      assert LineItems(cart)[1..] == LineItems(cart[1..]);
    }
  }

  /** What Stripe charges for line items: Σ unit_amount × quantity (used where every quantity is present). */
  function LineItemsTotal(items: seq<LineItem>): int {
    if items == [] then 0 else items[0].unit_amount * items[0].quantity.GetOr(0) + LineItemsTotal(items[1..])
  }
}
