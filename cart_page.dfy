/** The checkout page (ecommerce-client/src/pages/CartPage.tsx): its step variable, the
    validation of the customer form, the quantity edit, the order record it builds, and
    the two await-chains it runs: the customer submission (lookup or create the customer,
    create the order, open a payment session, attach it, hand off to the payment page)
    and the return flow (reconcile the payment status, snapshot and clear the cart).

    Every call to a collaborator is recorded as a Request; what the collaborator
    answers is an input (a Reply), so the contracts can say which calls are made,
    in which order, and what state results. */
module CartPage {
  import opened Wrappers
  import opened CartHandlers
  import opened CartContext
  import opened JsText

  /** The page's `currentStep`. */
  datatype Step = Cart | CustomerInfo | Success | OrderSummary

  /** The shopper's form (ICreateCustomer), every field mandatory. */
  datatype CustomerForm = CustomerForm(
    firstname: string,
    lastname: string,
    email: string,
    password: string,
    phone: string,
    street_address: string,
    postal_code: string,
    city: string,
    country: string)

  /** The form the page starts with when none was saved. */
  const EmptyForm := CustomerForm("", "", "", "", "", "", "", "", "")

  /** The form's fields in the order `for (const key in customerInfo)` visits them. */
  function Fields(f: CustomerForm): (fields: seq<string>)
    ensures |fields| == 9
  {
    [f.firstname, f.lastname, f.email, f.password, f.phone,
     f.street_address, f.postal_code, f.city, f.country]
  }

  /** Every field of the form has something other than white space in it. */
  predicate AllFieldsFilled(f: CustomerForm) {
    forall i :: 0 <= i < |Fields(f)| ==> !Blank(Fields(f)[i])
  }

  const FillAllFieldsMessage := "Please fill in all fields."
  const LookupFailedMessage := "Failed to check customer existence. Please try again."
  const CustomerMissingMessage := "Failed to retrieve customer information."
  const SessionFailedMessage := "Failed to create checkout session."
  const RedirectFailedMessage := "Failed to redirect to Stripe checkout. Please try again."
  const CheckoutFailedMessage := "Failed to complete the checkout process. Please try again."
  const SessionIdMissingMessage := "Session ID is missing."
  const OrderFailedMessage := "Failed to create the order. Please try again."

  /** The loop of validateCustomerInfo: scan the fields in order and stop at the first
      one that trims to the empty string. The answer is true exactly when no field is
      blank, that is, when no field consists of white space only. */
  method ValidateFields(fields: seq<string>) returns (ok: bool)
    ensures ok <==> forall i :: 0 <= i < |fields| ==> !Blank(fields[i])
  {
    for i := 0 to |fields|
      invariant forall j :: 0 <= j < i ==> !Blank(fields[j])
    {
      if Trim(fields[i]) == "" {
        return false;
      }
    }
    return true;
  }

  /** handleQuantityChange's updater: every line with the product's id takes the new
      quantity as given (no bound is applied, so 0 and negative values are kept),
      every other line is untouched, and the lines keep their order and their ids.
      The id is the edited line's own, possibly absent (`product.id!` does not check it),
      and `===` on two absent ids holds, so editing a line without an id edits every
      line without an id. */
  function ChangeQuantity(cart: seq<Product>, productId: Option<int>, quantity: int): (r: seq<Product>)
    ensures |r| == |cart|
    ensures forall i :: 0 <= i < |cart| ==>
      && r[i].id == cart[i].id
      && (cart[i].id == productId ==> r[i] == cart[i].(quantity := Some(quantity)))
      && (cart[i].id != productId ==> r[i] == cart[i])
  {
    if cart == [] then []
    else
      [if cart[0].id == productId then cart[0].(quantity := Some(quantity)) else cart[0]]
      + ChangeQuantity(cart[1..], productId, quantity)
  }

  /** A quantity edit keeps the cart at one line per product id. */
  lemma ChangeQuantityKeepsIdsDistinct(cart: seq<Product>, productId: Option<int>, quantity: int)
    requires DistinctIds(cart)
    ensures DistinctIds(ChangeQuantity(cart, productId, quantity))
  {
    var r := ChangeQuantity(cart, productId, quantity);
    forall i, j | 0 <= i < j < |r| ensures r[i].id != r[j].id {
      assert r[i].id == cart[i].id && r[j].id == cart[j].id;
    }
  }

  /** Because the total reads `quantity || 1`, a line whose quantity is set to 0 is
      still charged once: the cart costs the same as with quantity 1. */
  lemma {:induction false} ZeroQuantityIsChargedAsOne(cart: seq<Product>, productId: Option<int>)
    ensures CalculateTotalPrice(ChangeQuantity(cart, productId, 0))
         == CalculateTotalPrice(ChangeQuantity(cart, productId, 1))
  {
    if cart != [] {
      ZeroQuantityIsChargedAsOne(cart[1..], productId);
      var zero := ChangeQuantity(cart, productId, 0);
      var one := ChangeQuantity(cart, productId, 1);
      assert zero[1..] == ChangeQuantity(cart[1..], productId, 0);
      assert one[1..] == ChangeQuantity(cart[1..], productId, 1);
      assert EffectiveQuantity(zero[0]) == EffectiveQuantity(one[0]);
    }
  }

  /** The order record the page creates (ICreateOrder). */
  datatype NewOrder = NewOrder(
    customer_id: int,
    total_price: Cents,
    payment_status: string,
    payment_id: string,
    order_status: string,
    customer_firstname: string,
    customer_lastname: string,
    customer_email: string,
    customer_phone: string,
    customer_street_address: string,
    customer_postal_code: string,
    customer_city: string,
    customer_country: string,
    order_items: seq<OrderItem>)

  /** The new order of handleSubmitCustomerInfo: unpaid, pending, without a payment id,
      carrying the cart's items and total, whose total is the worth of its own items,
      and a snapshot of the form's contact and address fields (not the password). */
  function BuildOrder(customerId: int, form: CustomerForm, cart: seq<Product>): (o: NewOrder)
    ensures o.customer_id == customerId
    ensures o.payment_status == "Unpaid" && o.payment_id == "" && o.order_status == "Pending"
    ensures o.order_items == MapCartToOrderItems(cart) && |o.order_items| == |cart|
    ensures o.total_price == CalculateTotalPrice(cart)
    ensures o.total_price == ItemsTotal(o.order_items)
    ensures && o.customer_firstname == form.firstname && o.customer_lastname == form.lastname
            && o.customer_email == form.email && o.customer_phone == form.phone
            && o.customer_street_address == form.street_address
            && o.customer_postal_code == form.postal_code
            && o.customer_city == form.city && o.customer_country == form.country
  {
    OrderItemsTotalIsCartTotal(cart);
    NewOrder(customerId, CalculateTotalPrice(cart), "Unpaid", "", "Pending",
             form.firstname, form.lastname, form.email, form.phone,
             form.street_address, form.postal_code, form.city, form.country,
             MapCartToOrderItems(cart))
  }

  /** The fields of an order that updateOrder patches; an absent field is left as it is. */
  datatype OrderPatch = OrderPatch(
    payment_status: Option<string>,
    payment_id: Option<string>,
    order_status: Option<string>)

  /** A call the page makes to a collaborator. */
  datatype Request =
    | FetchCustomerByEmail(email: string)
    | CreateCustomer(customer: CustomerForm)
    | CreateOrder(order: NewOrder)
    | FetchClientSecret(cart: seq<Product>, customerId: int)
    | UpdateOrder(orderId: int, patch: OrderPatch)
    | RedirectToCheckout(sessionId: string)
    | FetchPaymentDetails(sessionId: string)

  /** A customer as the directory returns it; only its `id` is read. */
  datatype CustomerRecord = CustomerRecord(id: Option<int>)

  /** What the collaborators answer during one submission, in call order.
      `stripe` is how the Stripe loader settles: `Failed` when it rejects, `Ok(false)` when
      it resolves to null (then `stripe?.redirectToCheckout` makes no call and yields
      nothing), `Ok(true)` when it resolves to a Stripe object. `redirect` is what
      redirectToCheckout then does: `Failed` when it throws, `Ok(reported)` when it
      settles, `reported` telling whether its result carries an error. */
  datatype SubmitReplies = SubmitReplies(
    lookup: Reply<Option<CustomerRecord>>,
    creation: Reply<Option<CustomerRecord>>,
    orderCreation: Reply<int>,
    session: Reply<Option<string>>,
    update: Reply<()>,
    stripe: Reply<bool>,
    redirect: Reply<bool>)

  /** The requests one submission makes and the error it leaves displayed. */
  datatype Submission = Submission(requests: seq<Request>, error: Option<string>)

  /** The customer's id when it can be used: `!customer || !customer.id` rejects an
      absent customer, an absent id and the id 0. */
  function UsableCustomerId(c: Option<CustomerRecord>): (id: Option<int>)
    ensures id.Some? <==> c.Some? && c.value.id.Some? && c.value.id.value != 0
    ensures id.Some? ==> id == c.value.id
  {
    if c.Some? && c.value.id.Some? && c.value.id.value != 0 then c.value.id else None
  }

  /** How many requests create a customer. */
  function CountCustomerCreations(rs: seq<Request>): nat {
    if rs == [] then 0 else (if rs[0].CreateCustomer? then 1 else 0) + CountCustomerCreations(rs[1..])
  }

  lemma {:induction false} CountCustomerCreationsAppend(a: seq<Request>, b: seq<Request>)
    ensures CountCustomerCreations(a + b) == CountCustomerCreations(a) + CountCustomerCreations(b)
  {
    if a == [] {
      assert a + b == b;
    } else {
      assert (a + b)[1..] == a[1..] + b;
      CountCustomerCreationsAppend(a[1..], b);
    }
  }

  /** handleSubmitCustomerInfo from line 156 on, once the customer step has produced
      `customer`: the requests made from there and the error shown. None of them looks
      up or creates a customer. */
  function AfterCustomer(form: CustomerForm, cart: seq<Product>, customer: Option<CustomerRecord>,
                         replies: SubmitReplies): (s: Submission)
    ensures forall i :: 0 <= i < |s.requests| ==>
      !s.requests[i].CreateCustomer? && !s.requests[i].FetchCustomerByEmail?
    ensures UsableCustomerId(customer).None? ==> s == Submission([], Some(CustomerMissingMessage))
    ensures UsableCustomerId(customer).Some? ==>
      s.requests != [] && s.requests[0] == CreateOrder(BuildOrder(UsableCustomerId(customer).value, form, cart))
  {
    match UsableCustomerId(customer)
    case None => Submission([], Some(CustomerMissingMessage))
    case Some(customerId) =>
      var sent := [CreateOrder(BuildOrder(customerId, form, cart))];
      match replies.orderCreation
      case Failed(_) => Submission(sent, Some(CheckoutFailedMessage))
      case Ok(orderId) =>
        var sent := sent + [FetchClientSecret(cart, customerId)];
        match replies.session
        case Failed(_) => Submission(sent, Some(CheckoutFailedMessage))
        case Ok(sessionId) =>
          if !Truthy(sessionId) then Submission(sent, Some(SessionFailedMessage))
          else
            var sent := sent + [UpdateOrder(orderId, OrderPatch(Some("Unpaid"), sessionId, Some("Pending")))];
            match replies.update
            case Failed(_) => Submission(sent, Some(CheckoutFailedMessage))
            case Ok(_) =>
              match replies.stripe
              case Failed(_) => Submission(sent, Some(CheckoutFailedMessage))
              case Ok(loaded) =>
                if !loaded then Submission(sent, None)
                else
                  var sent := sent + [RedirectToCheckout(sessionId.value)];
                  match replies.redirect
                  case Failed(_) => Submission(sent, Some(CheckoutFailedMessage))
                  case Ok(reported) => Submission(sent, if reported then Some(RedirectFailedMessage) else None)
  }

  /** The decision sequence of handleSubmitCustomerInfo: validate, look the customer
      up by email, create it only on a 404, then the order, the session, the payment id
      and the hand-off, stopping at the first failure. Any failure thrown by a later
      call lands in the outer catch and its generic message. Validation comes first: a
      form with a blank field makes no request at all and shows the fill-in message,
      and a filled form starts with the lookup by email. */
  function Submit(form: CustomerForm, cart: seq<Product>, replies: SubmitReplies): (s: Submission)
    ensures s.requests == [] <==> !AllFieldsFilled(form)
    ensures !AllFieldsFilled(form) ==> s.error == Some(FillAllFieldsMessage)
    ensures AllFieldsFilled(form) ==> s.requests[0] == FetchCustomerByEmail(form.email)
  {
    if !AllFieldsFilled(form) then Submission([], Some(FillAllFieldsMessage))
    else
      var sent := [FetchCustomerByEmail(form.email)];
      match replies.lookup
      case Ok(customer) =>
        var rest := AfterCustomer(form, cart, customer, replies);
        Submission(sent + rest.requests, rest.error)
      case Failed(status) =>
        if status == Some(404) then
          var sent := sent + [CreateCustomer(form)];
          match replies.creation
          case Failed(_) => Submission(sent, Some(CheckoutFailedMessage))
          case Ok(customer) =>
            var rest := AfterCustomer(form, cart, customer, replies);
            Submission(sent + rest.requests, rest.error)
        else Submission(sent, Some(LookupFailedMessage))
  }

  /** The lookup-or-create decision: a customer is created exactly once when the
      lookup fails with status 404, and never otherwise (a found customer, any other
      lookup failure, or a blank form). */
  lemma CustomerCreatedOnlyWhenNotFound(form: CustomerForm, cart: seq<Product>, replies: SubmitReplies)
    ensures CountCustomerCreations(Submit(form, cart, replies).requests)
         == if AllFieldsFilled(form) && replies.lookup == Failed(Some(404)) then 1 else 0
  {
    var s := Submit(form, cart, replies);
    var lookup := [FetchCustomerByEmail(form.email)];
    assert CountCustomerCreations(lookup) == 0;
    if AllFieldsFilled(form) {
      var sent := if replies.lookup == Failed(Some(404)) then lookup + [CreateCustomer(form)] else lookup;
      CountCustomerCreationsAppend(lookup, [CreateCustomer(form)]);
      if replies.lookup.Ok? || (replies.lookup == Failed(Some(404)) && replies.creation.Ok?) {
        var customer := if replies.lookup.Ok? then replies.lookup.value else replies.creation.value;
        var tail := AfterCustomer(form, cart, customer, replies).requests;
        assert s.requests == sent + tail;
        NoCreationsCounted(tail);
        CountCustomerCreationsAppend(sent, tail);
      }
    }
  }

  lemma {:induction false} NoCreationsCounted(rs: seq<Request>)
    requires forall i :: 0 <= i < |rs| ==> !rs[i].CreateCustomer?
    ensures CountCustomerCreations(rs) == 0
  {
    if rs != [] {
      NoCreationsCounted(rs[1..]);
    }
  }

  /** An order is created only after a filled form and a usable customer id, taken
      from the found customer or, after a 404, from the created one; the record is
      the one BuildOrder makes from that id, the form and the cart. So any other lookup
      failure, or a customer without an id, creates no order. */
  lemma OrderCreatedOnlyForUsableCustomer(form: CustomerForm, cart: seq<Product>, replies: SubmitReplies, o: NewOrder)
    requires CreateOrder(o) in Submit(form, cart, replies).requests
    ensures AllFieldsFilled(form)
    ensures o == BuildOrder(o.customer_id, form, cart) && o.customer_id != 0
    ensures replies.lookup.Ok? ==> UsableCustomerId(replies.lookup.value) == Some(o.customer_id)
    ensures replies.lookup.Failed? ==>
      && replies.lookup.status == Some(404)
      && replies.creation.Ok?
      && UsableCustomerId(replies.creation.value) == Some(o.customer_id)
  {
  }

  /** The payment id is attached only with a non-empty session id: the patch goes to the
      created order and sets that id with status Unpaid/Pending. When the session id
      comes back empty, no patch and no hand-off follow, and once the order exists the
      session error is shown, leaving that order Unpaid with payment_id "". */
  lemma PaymentIdAttachedOnlyWithSession(form: CustomerForm, cart: seq<Product>, replies: SubmitReplies)
    ensures var s := Submit(form, cart, replies);
      forall r :: r in s.requests && r.UpdateOrder? ==>
        && replies.orderCreation == Ok(r.orderId)
        && replies.session.Ok? && Truthy(replies.session.value)
        && r.patch == OrderPatch(Some("Unpaid"), replies.session.value, Some("Pending"))
    ensures var s := Submit(form, cart, replies);
      replies.session.Ok? && !Truthy(replies.session.value) ==>
        && (forall r :: r in s.requests ==> !r.UpdateOrder? && !r.RedirectToCheckout?)
        && ((exists o :: CreateOrder(o) in s.requests) && replies.orderCreation.Ok? ==>
              s.error == Some(SessionFailedMessage))
    ensures var s := Submit(form, cart, replies);
      (exists o :: CreateOrder(o) in s.requests)
      && replies.orderCreation.Ok? && replies.session.Ok? && Truthy(replies.session.value) ==>
        UpdateOrder(replies.orderCreation.value, OrderPatch(Some("Unpaid"), replies.session.value, Some("Pending")))
          in s.requests
  {
  }

  /** A lookup that fails with any status other than 404 stops the submission right
      after the lookup, with the lookup error: no customer, no order. */
  lemma LookupFailureStopsSubmission(form: CustomerForm, cart: seq<Product>, replies: SubmitReplies)
    requires AllFieldsFilled(form) && replies.lookup.Failed? && replies.lookup.status != Some(404)
    ensures Submit(form, cart, replies) == Submission([FetchCustomerByEmail(form.email)], Some(LookupFailedMessage))
  {
  }

  /** A customer that is absent, has no id or has id 0, whether found or just created,
      stops the submission before any order, with the customer error. */
  lemma UnusableCustomerStopsSubmission(form: CustomerForm, cart: seq<Product>, replies: SubmitReplies)
    requires AllFieldsFilled(form)
    ensures replies.lookup.Ok? && UsableCustomerId(replies.lookup.value).None? ==>
      Submit(form, cart, replies) == Submission([FetchCustomerByEmail(form.email)], Some(CustomerMissingMessage))
    ensures replies.lookup == Failed(Some(404)) && replies.creation.Ok? && UsableCustomerId(replies.creation.value).None? ==>
      Submit(form, cart, replies)
        == Submission([FetchCustomerByEmail(form.email), CreateCustomer(form)], Some(CustomerMissingMessage))
  {
    var lookup := [FetchCustomerByEmail(form.email)];
    assert lookup + [] == lookup;
    assert lookup + [CreateCustomer(form)] + [] == lookup + [CreateCustomer(form)];
  }

  /** No failure passes unreported: a submission that ends without an error had a filled
      form, an order, a non-empty session id and a successful patch, and its last request
      is the hand-off to Stripe, except when the Stripe loader resolved to null, where the
      patch is the last request and nothing is reported. */
  lemma SubmitWithoutErrorReachedHandOff(form: CustomerForm, cart: seq<Product>, replies: SubmitReplies)
    ensures var s := Submit(form, cart, replies);
      s.error.None? ==>
        && AllFieldsFilled(form)
        && replies.orderCreation.Ok? && replies.session.Ok? && Truthy(replies.session.value)
        && replies.update.Ok? && replies.stripe.Ok?
        && s.requests != []
        && s.requests[|s.requests| - 1]
           == if replies.stripe.value then RedirectToCheckout(replies.session.value.value)
              else UpdateOrder(replies.orderCreation.value,
                               OrderPatch(Some("Unpaid"), replies.session.value, Some("Pending")))
  {
  }

  /** How a submission ends once it gets going: an order creation that throws shows the
      generic checkout message; the hand-off, when made, is the last request, and its
      outcome decides the message: a reported error shows the redirect message, a throw
      the generic one, and a clean hand-off none. */
  lemma FailuresAreReported(form: CustomerForm, cart: seq<Product>, replies: SubmitReplies)
    ensures var s := Submit(form, cart, replies);
      (exists o :: CreateOrder(o) in s.requests) && replies.orderCreation.Failed? ==>
        s.error == Some(CheckoutFailedMessage)
    ensures var s := Submit(form, cart, replies);
      forall r :: r in s.requests && r.RedirectToCheckout? ==>
        && s.requests[|s.requests| - 1] == r
        && replies.stripe == Ok(true)
        && (replies.redirect == Ok(true) ==> s.error == Some(RedirectFailedMessage))
        && (replies.redirect.Failed? ==> s.error == Some(CheckoutFailedMessage))
        && (replies.redirect == Ok(false) ==> s.error == None)
  {
  }

  /** The whole submission when every collaborator answers: lookup, order creation,
      session, patch with the session id, hand-off, and no error. */
  lemma SubmitWhenAllSucceed(form: CustomerForm, cart: seq<Product>, customerId: int, orderId: int,
                             sessionId: string)
    requires AllFieldsFilled(form) && customerId != 0 && sessionId != ""
    ensures var replies := SubmitReplies(Ok(Some(CustomerRecord(Some(customerId)))), Failed(None),
                                         Ok(orderId), Ok(Some(sessionId)), Ok(()), Ok(true), Ok(false));
      Submit(form, cart, replies) == Submission(
        [ FetchCustomerByEmail(form.email),
          CreateOrder(BuildOrder(customerId, form, cart)),
          FetchClientSecret(cart, customerId),
          UpdateOrder(orderId, OrderPatch(Some("Unpaid"), Some(sessionId), Some("Pending"))),
          RedirectToCheckout(sessionId) ],
        None)
  {
  }

  /** One shirt at 20.00 bought twice by the existing customer 7: the order is created
      for customer 7 at 40.00 and still unpaid, then patched with the session id. */
  lemma ExistingCustomerShirtScenario(form: CustomerForm, orderId: int)
    requires AllFieldsFilled(form)
    ensures var cart := [Product(Some(1), "Shirt", "", "", 2000, Some(2))];
      var replies := SubmitReplies(Ok(Some(CustomerRecord(Some(7)))), Failed(None),
                                   Ok(orderId), Ok(Some("sess_1")), Ok(()), Ok(true), Ok(false));
      var s := Submit(form, cart, replies);
      && s.requests[1].CreateOrder?
      && s.requests[1].order.customer_id == 7
      && s.requests[1].order.total_price == 4000
      && s.requests[1].order.payment_status == "Unpaid"
      && s.requests[1].order.payment_id == ""
      && s.requests[3] == UpdateOrder(orderId, OrderPatch(Some("Unpaid"), Some("sess_1"), Some("Pending")))
      && CountCustomerCreations(s.requests) == 0
  {
    var cart := [Product(Some(1), "Shirt", "", "", 2000, Some(2))];
    SubmitWhenAllSucceed(form, cart, 7, orderId, "sess_1");
    assert CalculateTotalPrice(cart) == 4000 by {
      assert cart[1..] == [];
    }
    CustomerCreatedOnlyWhenNotFound(form, cart, SubmitReplies(Ok(Some(CustomerRecord(Some(7)))), Failed(None),
                                   Ok(orderId), Ok(Some("sess_1")), Ok(()), Ok(true), Ok(false)));
  }

  /** Payment details as the payment gateway adapter reports them. */
  datatype PaymentDetails = PaymentDetails(order_id: int, payment_status: string)

  /** What the collaborators answer during the return flow, in call order. */
  datatype ReturnReplies = ReturnReplies(details: Reply<PaymentDetails>, update: Reply<()>)

  /** The `orderSummary` snapshot: the form, the cart and its total as they were. */
  datatype SummarySnapshot = SummarySnapshot(customer: CustomerForm, products: seq<Product>, total: Cents)

  /** The requests the return flow makes, the error it shows if it shows one, and the
      summary it captures if it gets that far (in which case it also clears the cart). */
  datatype Reconciliation = Reconciliation(requests: seq<Request>, failure: Option<string>, summary: Option<SummarySnapshot>)

  /** handleOrderCreation: read `session_id` from the return address, fetch the payment
      details, patch the order's payment status, then snapshot the cart and clear it.
      The snapshot (and so the clearing) happens exactly when a session id was given and
      both calls succeeded; it holds the pre-clear cart and its total, and no error is
      shown. Otherwise nothing is captured and an error is shown: the order error when a
      session id was given, the missing-id error when not. */
  function Reconcile(sessionParam: Option<string>, form: CustomerForm, cart: seq<Product>,
                     replies: ReturnReplies): (r: Reconciliation)
    ensures r.summary.Some? <==> Truthy(sessionParam) && replies.details.Ok? && replies.update.Ok?
    ensures r.summary.Some? ==> r.summary.value == SummarySnapshot(form, cart, LinesTotal(cart)) && r.failure.None?
    ensures r.summary.None? ==> r.failure.Some?
    ensures Truthy(sessionParam) && r.summary.None? ==> r.failure == Some(OrderFailedMessage)
  {
    if !Truthy(sessionParam) then Reconciliation([], Some(SessionIdMissingMessage), None)
    else
      var sessionId := sessionParam.value;
      match replies.details
      case Failed(_) => Reconciliation([FetchPaymentDetails(sessionId)], Some(OrderFailedMessage), None)
      case Ok(details) =>
        var sent := [FetchPaymentDetails(sessionId),
                     UpdateOrder(details.order_id, OrderPatch(Some(details.payment_status), None, Some("Pending")))];
        match replies.update
        case Failed(_) => Reconciliation(sent, Some(OrderFailedMessage), None)
        case Ok(_) => Reconciliation(sent, None, Some(SummarySnapshot(form, cart, CalculateTotalPrice(cart))))
  }

  /** Without a session id the return flow makes no request, shows the missing-id error
      and captures nothing, so the cart is left as it is. */
  lemma ReturnWithoutSessionIdChangesNothing(sessionParam: Option<string>, form: CustomerForm,
                                             cart: seq<Product>, replies: ReturnReplies)
    requires !Truthy(sessionParam)
    ensures Reconcile(sessionParam, form, cart, replies) == Reconciliation([], Some(SessionIdMissingMessage), None)
  {
  }

  /** With a session id, the details are fetched for it, and once they arrive the order
      they name is patched to the fetched payment status with order status Pending;
      the payment id is not touched. */
  lemma ReconcilePatchesFetchedStatus(sessionParam: Option<string>, form: CustomerForm,
                                      cart: seq<Product>, replies: ReturnReplies)
    requires Truthy(sessionParam)
    ensures var r := Reconcile(sessionParam, form, cart, replies);
      && r.requests[0] == FetchPaymentDetails(sessionParam.value)
      && (replies.details.Ok? ==>
            var d := replies.details.value;
            r.requests == [FetchPaymentDetails(sessionParam.value),
                           UpdateOrder(d.order_id, OrderPatch(Some(d.payment_status), None, Some("Pending")))])
      && (replies.details.Failed? ==> r.requests == [FetchPaymentDetails(sessionParam.value)])
  {
  }

  /** Returning with session "sess_abc" for order 55, paid: order 55 is patched to Paid
      and Pending, and the summary keeps the pre-clear cart. */
  lemma PaidReturnScenario(form: CustomerForm, cart: seq<Product>)
    ensures var r := Reconcile(Some("sess_abc"), form, cart,
                               ReturnReplies(Ok(PaymentDetails(55, "Paid")), Ok(())));
      && UpdateOrder(55, OrderPatch(Some("Paid"), None, Some("Pending"))) in r.requests
      && r.summary == Some(SummarySnapshot(form, cart, CalculateTotalPrice(cart)))
  {
    var r := Reconcile(Some("sess_abc"), form, cart, ReturnReplies(Ok(PaymentDetails(55, "Paid")), Ok(())));
    assert r.requests[1] == UpdateOrder(55, OrderPatch(Some("Paid"), None, Some("Pending")));
  }

  /** The page's state. The cart is the shared store's; `requests` records, in order,
      every call the page has made to a collaborator. */
  class CheckoutPage {
    const store: CartStore
    var step: Step
    var customerInfo: CustomerForm
    var error: Option<string>
    var loading: bool
    var orderSummary: Option<SummarySnapshot>
    var requests: seq<Request>

    /** The page opens on the cart step with the form saved by an earlier visit, or blank. */
    constructor (store: CartStore, savedForm: Option<CustomerForm>)
      ensures this.store == store && step == Cart && customerInfo == savedForm.GetOr(EmptyForm)
      ensures error == None && !loading && orderSummary == None && requests == []
    {
      this.store := store;
      step := Cart;
      customerInfo := savedForm.GetOr(EmptyForm);
      error := None;
      loading := false;
      orderSummary := None;
      requests := [];
    }

    /** handleGoToCheckout, reachable only from the button of the cart view, which the
        page shows on the cart step when the cart is not empty. */
    method GoToCheckout()
      requires step == Cart && store.cart != []
      modifies this`step
      ensures step == CustomerInfo
    {
      step := CustomerInfo;
    }

    /** handleBackToCart, reachable only from the back button of the form view. */
    method BackToCart()
      requires step == CustomerInfo
      modifies this`step
      ensures step == Cart
    {
      step := Cart;
    }

    /** validateCustomerInfo: true exactly when every field is filled; the error shown is
        the fill-in message when not, and is cleared otherwise. */
    method ValidateCustomerInfo() returns (ok: bool)
      modifies this`error
      ensures ok == AllFieldsFilled(customerInfo)
      ensures error == if ok then None else Some(FillAllFieldsMessage)
    {
      ok := ValidateFields(Fields(customerInfo));
      if !ok {
        error := Some(FillAllFieldsMessage);
        return;
      }
      error := None;
    }

    /** handleQuantityChange */
    method HandleQuantityChange(productId: Option<int>, quantity: int)
      modifies store
      ensures store.cart == ChangeQuantity(old(store.cart), productId, quantity)
      ensures DistinctIds(old(store.cart)) ==> DistinctIds(store.cart)
    {
      ghost var before := store.cart;
      store.SetCart(ChangeQuantity(store.cart, productId, quantity));
      if DistinctIds(before) {
        ChangeQuantityKeepsIdsDistinct(before, productId, quantity);
      }
    }

    /** handleSubmitCustomerInfo: makes exactly the requests Submit decides, shows its
        error, leaves the step and the cart as they were, and ends with `loading` off
        once past validation. */
    method HandleSubmitCustomerInfo(replies: SubmitReplies)
      modifies this`error, this`loading, this`requests
      ensures var s := Submit(customerInfo, store.cart, replies);
        && requests == old(requests) + s.requests
        && error == s.error
      ensures loading == if AllFieldsFilled(customerInfo) then false else old(loading)
    {
      var ok := ValidateCustomerInfo();
      if !ok {
        return;
      }
      loading := true;
      var customer: Option<CustomerRecord>;
      requests := requests + [FetchCustomerByEmail(customerInfo.email)];
      match replies.lookup {
        case Ok(found) =>
          customer := found;
        case Failed(status) =>
          if status == Some(404) {
            requests := requests + [CreateCustomer(customerInfo)];
            match replies.creation {
              case Ok(created) =>
                customer := created;
              case Failed(_) =>
                error := Some(CheckoutFailedMessage);
                loading := false;
                return;
            }
          } else {
            error := Some(LookupFailedMessage);
            loading := false;
            return;
          }
      }
      ContinueWithCustomer(customer, replies);
    }

    /** handleSubmitCustomerInfo from line 156 on, inside the outer try: makes the
        requests AfterCustomer decides, shows its error if it has one, and turns
        `loading` off. */
    method ContinueWithCustomer(customer: Option<CustomerRecord>, replies: SubmitReplies)
      modifies this`error, this`loading, this`requests
      ensures var rest := AfterCustomer(customerInfo, store.cart, customer, replies);
        && requests == old(requests) + rest.requests
        && error == (if rest.error.Some? then rest.error else old(error))
        && !loading
    {
      if customer.None? || customer.value.id.None? || customer.value.id.value == 0 {
        error := Some(CustomerMissingMessage);
        loading := false;
        return;
      }
      var customerId := customer.value.id.value;
      requests := requests + [CreateOrder(BuildOrder(customerId, customerInfo, store.cart))];
      if replies.orderCreation.Failed? {
        error := Some(CheckoutFailedMessage);
        loading := false;
        return;
      }
      var orderId := replies.orderCreation.value;
      requests := requests + [FetchClientSecret(store.cart, customerId)];
      if replies.session.Failed? {
        error := Some(CheckoutFailedMessage);
        loading := false;
        return;
      }
      var sessionId := replies.session.value;
      if sessionId.None? || sessionId.value == "" {
        error := Some(SessionFailedMessage);
        loading := false;
        return;
      }
      requests := requests + [UpdateOrder(orderId, OrderPatch(Some("Unpaid"), sessionId, Some("Pending")))];
      if replies.update.Failed? {
        error := Some(CheckoutFailedMessage);
        loading := false;
        return;
      }
      if replies.stripe.Failed? {
        error := Some(CheckoutFailedMessage);
        loading := false;
        return;
      }
      if !replies.stripe.value {
        loading := false;
        return;
      }
      requests := requests + [RedirectToCheckout(sessionId.value)];
      match replies.redirect {
        case Failed(_) =>
          error := Some(CheckoutFailedMessage);
        case Ok(reported) =>
          if reported {
            error := Some(RedirectFailedMessage);
          }
      }
      loading := false;
    }

    /** handleOrderCreation: makes exactly the requests Reconcile decides; shows its error
        if it has one and otherwise keeps the error shown; on success stores the summary
        of the pre-clear cart and empties the cart, and on failure keeps both. */
    method HandleOrderCreation(sessionParam: Option<string>, replies: ReturnReplies)
      modifies this`error, this`loading, this`orderSummary, this`requests, store
      ensures var r := Reconcile(sessionParam, customerInfo, old(store.cart), replies);
        && requests == old(requests) + r.requests
        && error == (if r.failure.Some? then r.failure else old(error))
        && orderSummary == (if r.summary.Some? then r.summary else old(orderSummary))
        && store.cart == (if r.summary.Some? then [] else old(store.cart))
      ensures loading == if Truthy(sessionParam) then false else old(loading)
    {
      if sessionParam.None? || sessionParam.value == "" {
        error := Some(SessionIdMissingMessage);
        return;
      }
      var sessionId := sessionParam.value;
      loading := true;
      requests := requests + [FetchPaymentDetails(sessionId)];
      if replies.details.Failed? {
        error := Some(OrderFailedMessage);
        loading := false;
        return;
      }
      var details := replies.details.value;
      requests := requests + [UpdateOrder(details.order_id, OrderPatch(Some(details.payment_status), None, Some("Pending")))];
      if replies.update.Failed? {
        error := Some(OrderFailedMessage);
        loading := false;
        return;
      }
      orderSummary := Some(SummarySnapshot(customerInfo, store.cart, CalculateTotalPrice(store.cart)));
      store.SetCart([]);
      loading := false;
    }
  }
}
