/** The review step controller (src/features/checkout/pages/ReviewStep.tsx):
    the shipping-cost table and the authorise-then-create-order sequence. */
module ReviewStep {
  import opened Wrappers
  import opened Validation
  import opened CheckoutStore

  /** Shipping prices in cents. */
  const OvernightCents := 2499
  const ExpressCents := 1299
  const StandardCents := 599

  const GenericOrderError := "Failed to place order. Please try again."
  const SuccessPath := "/checkout/success"

  /** `shipping?.selectedOption`. */
  function SelectedId(shipping: Option<Record>): Option<string> {
    if shipping.Some? && SelectedOption in shipping.value then Some(shipping.value[SelectedOption]) else None
  }

  /** The `shippingCost` table: overnight and express have their own prices;
      any other id, and no id at all, costs the standard price. */
  function ShippingCost(shipping: Option<Record>): (cents: int)
    ensures cents == OvernightCents <==> SelectedId(shipping) == Some("overnight")
    ensures cents == ExpressCents <==> SelectedId(shipping) == Some("express")
    ensures cents == StandardCents <==> SelectedId(shipping) !in {Some("overnight"), Some("express")}
  {
    var id := SelectedId(shipping);
    if id == Some("overnight") then OvernightCents
    else if id == Some("express") then ExpressCents
    else StandardCents
  }

  /** The service's answers. */
  datatype AuthResponse = AuthResponse(authorized: bool, transactionId: string)
  datatype Order = Order(orderId: string, status: string, totalCents: int)

  /** The requests `handlePlaceOrder` issues, in order. */
  datatype Request =
    | Authorize(payment: Option<Record>)
    | CreateOrder(shipping: Option<Record>, payment: Option<Record>, shippingCents: int)

  /** The message shown for a failure: the error's own message, or the
      generic one when what was thrown carries none. */
  function FailureMessage(message: Option<string>): (m: string)
    ensures message.Some? ==> m == message.value
    ensures message.None? ==> m == GenericOrderError
  {
    message.GetOr(GenericOrderError)
  }

  /** What one press of "Place order" does, given the two calls' outcomes
      (the order outcome is not consulted when authorisation fails). */
  datatype Attempt = Attempt(requests: seq<Request>, error: string, orderId: Option<string>, target: Option<string>)

  function PlaceOrder(shipping: Option<Record>, payment: Option<Record>,
                      auth: Remote<AuthResponse>, order: Remote<Order>): Attempt
  {
    match auth
    case Err(m) => Attempt([Authorize(payment)], FailureMessage(m), None, None)
    case Ok(_) =>
      var requests := [Authorize(payment), CreateOrder(shipping, payment, ShippingCost(shipping))];
      match order
      case Err(m) => Attempt(requests, FailureMessage(m), None, None)
      case Ok(o) => Attempt(requests, "", Some(o.orderId), Some(SuccessPath))
  }

  /** Authorisation comes first; an order is requested only once it
      succeeded, and then it carries the shipping, the payment and the
      cost from the table. */
  lemma OrderOnlyAfterAuthorisation(shipping: Option<Record>, payment: Option<Record>,
                                    auth: Remote<AuthResponse>, order: Remote<Order>)
    ensures var a := PlaceOrder(shipping, payment, auth, order);
      && 1 <= |a.requests| <= 2
      && a.requests[0] == Authorize(payment)
      && (|a.requests| == 2 <==> auth.Ok?)
      && (|a.requests| == 2 ==> a.requests[1] == CreateOrder(shipping, payment, ShippingCost(shipping)))
  {
  }

  /** The order id is written and the step moves on exactly when both calls
      succeed; the id written is the created order's. */
  lemma SuccessIffBothSucceed(shipping: Option<Record>, payment: Option<Record>,
                              auth: Remote<AuthResponse>, order: Remote<Order>)
    ensures var a := PlaceOrder(shipping, payment, auth, order);
      && (a.orderId.Some? <==> auth.Ok? && order.Ok?)
      && (a.target.Some? <==> a.orderId.Some?)
      && (a.orderId.Some? ==> a.orderId.value == order.response.orderId && a.target.value == SuccessPath)
  {
  }

  /** A failure shows the failing call's message, or the generic one. */
  lemma FailureShowsMessage(shipping: Option<Record>, payment: Option<Record>,
                            auth: Remote<AuthResponse>, order: Remote<Order>)
    ensures var a := PlaceOrder(shipping, payment, auth, order);
      && (auth.Err? ==> a.error == FailureMessage(auth.message))
      && (auth.Ok? && order.Err? ==> a.error == FailureMessage(order.message))
      && (auth.Ok? && order.Ok? ==> a.error == "")
  {
  }

  /** The `authorized` flag is not consulted: a declined authorisation that
      is not an error still leads to an order. */
  lemma DeclinedAuthorisationStillOrders(shipping: Option<Record>, payment: Option<Record>, o: Order)
    ensures PlaceOrder(shipping, payment, Ok(AuthResponse(false, "")), Ok(o)).target == Some(SuccessPath)
  {
  }

  class ReviewStep {
    const store: Store
    var error: string

    constructor (store: Store)
      ensures this.store == store && error == ""
    {
      this.store := store;
      error := "";
    }

    /** The synchronous start of `handlePlaceOrder`: the error is cleared
        before anything is sent, and the first request is the authorisation
        of the committed payment. */
    method BeginPlaceOrder() returns (request: Request)
      modifies this
      ensures error == "" && request == Authorize(store.payment)
    {
      error := "";
      request := Authorize(store.payment);
    }

    /** The rest of `handlePlaceOrder`, once authorisation answered: create
        the order, record its id and move to the success page; a failure
        only sets the error. Returns the further requests issued. */
    method CompletePlaceOrder(auth: Remote<AuthResponse>, order: Remote<Order>)
      returns (requests: seq<Request>, target: Option<string>)
      modifies this, store
      ensures var a := PlaceOrder(old(store.shipping), old(store.payment), auth, order);
        && requests == a.requests[1..] && target == a.target
        && error == (if a.orderId.Some? then old(error) else a.error)
        && store.State() == (if a.orderId.Some? then old(store.State()).(orderId := a.orderId) else old(store.State()))
    {
      requests, target := [], None;
      match auth {
        case Err(m) =>
          error := FailureMessage(m);
          return;
        case Ok(_) =>
      }
      var shipping, payment := store.shipping, store.payment;
      requests := [CreateOrder(shipping, payment, ShippingCost(shipping))];
      match order {
        case Err(m) =>
          error := FailureMessage(m);
        case Ok(o) =>
          store.SetOrderId(o.orderId);
          target := Some(SuccessPath);
      }
    }

    /** `handlePlaceOrder`: the start, then the completion. Returns every
        request issued and the navigation target. */
    method HandlePlaceOrder(auth: Remote<AuthResponse>, order: Remote<Order>)
      returns (requests: seq<Request>, target: Option<string>)
      modifies this, store
      ensures var a := PlaceOrder(old(store.shipping), old(store.payment), auth, order);
        && requests == a.requests && target == a.target && error == a.error
        && store.State() == (if a.orderId.Some? then old(store.State()).(orderId := a.orderId) else old(store.State()))
    {
      var first := BeginPlaceOrder();
      var rest;
      rest, target := CompletePlaceOrder(auth, order);
      requests := [first] + rest;
    }

    /** `handleRetry` runs the whole sequence again. */
    method HandleRetry(auth: Remote<AuthResponse>, order: Remote<Order>)
      returns (requests: seq<Request>, target: Option<string>)
      modifies this, store
      ensures var a := PlaceOrder(old(store.shipping), old(store.payment), auth, order);
        && requests == a.requests && target == a.target && error == a.error
        && store.State() == (if a.orderId.Some? then old(store.State()).(orderId := a.orderId) else old(store.State()))
    {
      requests, target := HandlePlaceOrder(auth, order);
    }
  }

  /** A failed authorisation followed by a retry that succeeds ends on the
      success page with the order's id recorded, having asked for
      authorisation twice and for the order once. */
  method FailThenRetry(step: ReviewStep, failure: Option<string>, auth: AuthResponse, o: Order)
    returns (requests: seq<Request>, target: Option<string>)
    modifies step, step.store
    ensures target == Some(SuccessPath) && step.error == ""
    ensures step.store.State() == old(step.store.State()).(orderId := Some(o.orderId))
    ensures requests == [Authorize(old(step.store.payment)), Authorize(old(step.store.payment)),
                         CreateOrder(old(step.store.shipping), old(step.store.payment), ShippingCost(old(step.store.shipping)))]
  {
    var first, firstTarget := step.HandlePlaceOrder(Err(failure), Ok(o));
    assert firstTarget == None;
    var second;
    second, target := step.HandleRetry(Ok(auth), Ok(o));
    requests := first + second;
  }
}
