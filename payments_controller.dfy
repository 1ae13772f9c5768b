/**
 * PaymentsController. The guards and the requests sent to the payment service are decided
 * by pure functions; the two actions that store an id on the order are methods over an
 * OrderDto object, as the controller writes the id into the order it looked up and then
 * persists that object.
 */
module PaymentsController {
  import opened Wrappers
  import opened DotNetText
  import opened Domain
  import opened Exceptions
  import opened Http
  import opened Dtos
  import OrderValidators

  /** The URLs of the Stripe settings that a checkout session uses. */
  datatype StripeSettings = StripeSettings(successUrl: string, cancelUrl: string)

  /** What an awaited payment-service call comes back with: a value, or a thrown exception. */
  datatype Outcome<+T> = Returned(value: T) | Raised(error: ApiException)

  /** A parsed Stripe event, opaque to the controller. */
  datatype StripeEvent = StripeEvent(payload: string)

  /** ValidateWebhookSignatureAsync: false, true with the parsed event, a StripeException, or any other exception. */
  datatype SignatureCheck =
    | SignatureRejected
    | SignatureAccepted(event: StripeEvent)
    | SignatureStripeError
    | SignatureOtherError(message: string)

  /** HandleWebhookEventAsync: completes, throws a StripeException, or throws anything else. */
  datatype HandlerReply = Handled | HandlerStripeError | HandlerOtherError(message: string)

  /** The payment and order service calls, after the order lookup, with their arguments. */
  datatype PaymentCall =
    | CreateCheckoutSessionAsync(session: CreateCheckoutSessionDto)
    | CreatePaymentIntentAsync(intent: CreatePaymentIntentDto)
    | UpdateOrderAsync(orderId: int, order: OrderView)
    | HandleWebhookEventAsync(event: StripeEvent)

  const NotPendingMessage := "Order is not in a pending state."
  const InvalidSignatureMessage := "Invalid Stripe webhook signature."

  function ProductNotFoundMessage(productId: int): string {
    "Product with ID " + IntToString(productId) + " not found."
  }

  /** The guard shared by both payment actions: the order exists and the caller placed it or is an Admin. */
  predicate MayPay(found: Option<OrderView>, caller: Caller) {
    found.Some? && OwnerOrAdmin(found.value.userId, caller)
  }

  /** The checkout line for one order item: the product's name, the price frozen at purchase. */
  predicate IsCheckoutLine(line: CartCheckoutItemDto, item: OrderItemView, product: ProductDto) {
    line == CartCheckoutItemDto(Some(product.name), item.priceAtPurchase, item.quantity)
  }

  /** Item i is the first item whose product the lookup does not find. */
  predicate FirstMissing(items: seq<OrderItemView>, getProductById: int -> Option<ProductDto>, i: int) {
    && 0 <= i < |items|
    && getProductById(items[i].productId).None?
    && forall j :: 0 <= j < i ==> getProductById(items[j].productId).Some?
  }

  /**
   * The checkout lines of an order's items, in item order. Task.WhenAll rethrows the
   * exception of the first faulted task in item order, so a missing product reports the
   * first item whose product is not found.
   */
  function CheckoutItems(items: seq<OrderItemView>, getProductById: int -> Option<ProductDto>): (r: Result<seq<CartCheckoutItemDto>, int>)
    ensures r.Success? <==> forall i :: 0 <= i < |items| ==> getProductById(items[i].productId).Some?
    ensures r.Success? ==> |r.value| == |items|
    ensures r.Success? ==> forall i :: 0 <= i < |items| ==>
      IsCheckoutLine(r.value[i], items[i], getProductById(items[i].productId).value)
    ensures r.Failure? ==> exists i :: FirstMissing(items, getProductById, i) && items[i].productId == r.error
  {
    if items == [] then Success([])
    else
      var head := items[0];
      var product := getProductById(head.productId);
      var rest := CheckoutItems(items[1..], getProductById);
      assert forall i :: 1 <= i < |items| ==> items[i] == items[1..][i - 1];
      if product.None? then
        Failure(head.productId)
      else if rest.Failure? then
        var k :| FirstMissing(items[1..], getProductById, k) && items[1..][k].productId == rest.error;
        assert FirstMissing(items, getProductById, k + 1);
        Failure(rest.error)
      else
        Success([CartCheckoutItemDto(Some(product.value.name), head.priceAtPurchase, head.quantity)] + rest.value)
  }

  /** The checkout request built from the settings, the order's currency and its lines; PaymentMethod is never set. */
  function SessionRequest(settings: StripeSettings, order: OrderView, lines: seq<CartCheckoutItemDto>): CreateCheckoutSessionDto {
    CreateCheckoutSessionDto(Some(settings.successUrl), Some(settings.cancelUrl), Some(order.currency), None, lines)
  }

  /** The payment-intent request: the order's total, currency and id. */
  function IntentRequest(order: OrderView): (d: CreatePaymentIntentDto)
    ensures d.amount == order.totalAmount && d.currency == order.currency && d.orderId == order.id
  {
    CreatePaymentIntentDto(order.totalAmount, order.currency, order.id)
  }

  /** The result of a caught or escaping exception of a payment call. */
  function PaymentFailure(e: ApiException): (r: ActionResult<string>)
    ensures e.PaymentException? ==> r == Status(500, e.Message())
    ensures !e.PaymentException? ==> r == Unhandled(e.Message())
  {
    if e.PaymentException? then Status(500, e.Message()) else Unhandled(e.Message())
  }

  /**
   * CreateCheckoutSession, given the order the lookup found. Ok carries the session id; the
   * order update call then carries the order with that id stored.
   */
  function CheckoutSessionDecision(
    orderId: int, found: Option<OrderView>, caller: Caller, settings: StripeSettings,
    getProductById: int -> Option<ProductDto>, createSession: CreateCheckoutSessionDto -> Outcome<string>): (r: Response<PaymentCall, string>)
    ensures r.result.Forbid? <==> !MayPay(found, caller)
    ensures r.result.BadRequest? <==> MayPay(found, caller) && found.value.status != Pending
    ensures r.result.BadRequest? ==> r.result.message == NotPendingMessage
    ensures r.result.Forbid? || r.result.BadRequest? ==> r.calls == []
    ensures r.calls != [] ==>
      && MayPay(found, caller) && found.value.status == Pending
      && CheckoutItems(found.value.items, getProductById).Success?
      && r.calls[0] == CreateCheckoutSessionAsync(SessionRequest(settings, found.value, CheckoutItems(found.value.items, getProductById).value))
    ensures MayPay(found, caller) && found.value.status == Pending && CheckoutItems(found.value.items, getProductById).Failure? ==>
      r == Response([], Unhandled(ProductNotFoundMessage(CheckoutItems(found.value.items, getProductById).error)))
    ensures r.result.Ok? ==>
      && |r.calls| == 2
      && createSession(r.calls[0].session) == Returned(r.result.value)
      && r.calls[1] == UpdateOrderAsync(orderId, found.value.(checkoutSessionId := Some(r.result.value)))
    ensures r.result.Status? ==>
      && |r.calls| == 1 && r.result.code == 500
      && createSession(r.calls[0].session).Raised? && createSession(r.calls[0].session).error.PaymentException?
      && r.result.message == createSession(r.calls[0].session).error.Message()
    ensures forall c :: c in r.calls && c.UpdateOrderAsync? ==> r.result.Ok?
    ensures MayPay(found, caller) && found.value.status == Pending && CheckoutItems(found.value.items, getProductById).Success? ==>
      r.calls != []
    ensures MayPay(found, caller) && found.value.status == Pending && CheckoutItems(found.value.items, getProductById).Success? ==>
      var req := SessionRequest(settings, found.value, CheckoutItems(found.value.items, getProductById).value);
      && (createSession(req).Returned? ==>
          r == Response([CreateCheckoutSessionAsync(req), UpdateOrderAsync(orderId, found.value.(checkoutSessionId := Some(createSession(req).value)))],
                        Ok(createSession(req).value)))
      && (createSession(req).Raised? && createSession(req).error.PaymentException? ==>
          r == Response([CreateCheckoutSessionAsync(req)], Status(500, createSession(req).error.Message())))
      && (createSession(req).Raised? && !createSession(req).error.PaymentException? ==>
          r.result == Unhandled(createSession(req).error.Message()))
  {
    if !MayPay(found, caller) then Response([], Forbid)
    else
      var order := found.value;
      if order.status != Pending then Response([], BadRequest(NotPendingMessage))
      else
        match CheckoutItems(order.items, getProductById)
        case Failure(productId) => Response([], Unhandled(ProductNotFoundMessage(productId)))
        case Success(lines) =>
          var request := SessionRequest(settings, order, lines);
          match createSession(request)
          case Returned(sessionId) =>
            Response([CreateCheckoutSessionAsync(request), UpdateOrderAsync(orderId, order.(checkoutSessionId := Some(sessionId)))], Ok(sessionId))
          case Raised(e) => Response([CreateCheckoutSessionAsync(request)], PaymentFailure(e))
  }

  /**
   * CreatePaymentIntent, given the order the lookup found. Ok carries the client secret; the
   * order update call then carries the order with the secret stored as its PaymentIntentId.
   */
  function PaymentIntentDecision(
    orderId: int, found: Option<OrderView>, caller: Caller,
    createIntent: CreatePaymentIntentDto -> Outcome<string>): (r: Response<PaymentCall, string>)
    ensures r.result.Forbid? <==> !MayPay(found, caller)
    ensures r.result.BadRequest? <==> MayPay(found, caller) && found.value.status != Pending
    ensures r.result.BadRequest? ==> r.result.message == NotPendingMessage
    ensures r.result.Forbid? || r.result.BadRequest? ==> r.calls == []
    ensures MayPay(found, caller) && found.value.status == Pending ==>
      r.calls != [] && r.calls[0] == CreatePaymentIntentAsync(IntentRequest(found.value))
    ensures r.result.Ok? ==>
      && |r.calls| == 2
      && createIntent(r.calls[0].intent) == Returned(r.result.value)
      && r.calls[1] == UpdateOrderAsync(orderId, found.value.(paymentIntentId := Some(r.result.value)))
    ensures r.result.Status? ==>
      && |r.calls| == 1 && r.result.code == 500
      && createIntent(r.calls[0].intent).Raised? && createIntent(r.calls[0].intent).error.PaymentException?
      && r.result.message == createIntent(r.calls[0].intent).error.Message()
    ensures forall c :: c in r.calls && c.UpdateOrderAsync? ==> r.result.Ok?
    ensures MayPay(found, caller) && found.value.status == Pending ==>
      var req := IntentRequest(found.value);
      && (createIntent(req).Returned? ==>
          r == Response([CreatePaymentIntentAsync(req), UpdateOrderAsync(orderId, found.value.(paymentIntentId := Some(createIntent(req).value)))],
                        Ok(createIntent(req).value)))
      && (createIntent(req).Raised? && createIntent(req).error.PaymentException? ==>
          r == Response([CreatePaymentIntentAsync(req)], Status(500, createIntent(req).error.Message())))
      && (createIntent(req).Raised? && !createIntent(req).error.PaymentException? ==>
          r.result == Unhandled(createIntent(req).error.Message()))
  {
    if !MayPay(found, caller) then Response([], Forbid)
    else
      var order := found.value;
      if order.status != Pending then Response([], BadRequest(NotPendingMessage))
      else
        var request := IntentRequest(order);
        match createIntent(request)
        case Returned(secret) =>
          Response([CreatePaymentIntentAsync(request), UpdateOrderAsync(orderId, order.(paymentIntentId := Some(secret)))], Ok(secret))
        case Raised(e) => Response([CreatePaymentIntentAsync(request)], PaymentFailure(e))
  }

  /** The OrderDto object the order service returns and the payment actions update. */
  class OrderDto {
    var id: int
    var userId: int
    var status: OrderStatus
    var currency: string
    var totalAmount: real
    var items: seq<OrderItemView>
    var checkoutSessionId: Option<string>
    var paymentIntentId: Option<string>

    function View(): OrderView
      reads this
    {
      OrderView(id, userId, status, currency, totalAmount, items, checkoutSessionId, paymentIntentId)
    }

    constructor(v: OrderView)
      ensures View() == v
    {
      id, userId, status, currency := v.id, v.userId, v.status, v.currency;
      totalAmount, items := v.totalAmount, v.items;
      checkoutSessionId, paymentIntentId := v.checkoutSessionId, v.paymentIntentId;
    }
  }

  /** The lookup result as an optional order value. */
  function Found(order: OrderDto?): Option<OrderView>
    reads order
  {
    if order == null then None else Some(order.View())
  }

  /**
   * CreateCheckoutSession: decides as CheckoutSessionDecision and, only when the session
   * was created, stores its id in the looked-up order; nothing else of the order changes.
   */
  method CreateCheckoutSession(
    orderId: int, order: OrderDto?, caller: Caller, settings: StripeSettings,
    getProductById: int -> Option<ProductDto>, createSession: CreateCheckoutSessionDto -> Outcome<string>)
    returns (r: Response<PaymentCall, string>)
    modifies order
    ensures r == CheckoutSessionDecision(orderId, old(Found(order)), caller, settings, getProductById, createSession)
    ensures order != null && r.result.Ok? ==> order.View() == old(order.View()).(checkoutSessionId := Some(r.result.value))
    ensures order != null && !r.result.Ok? ==> order.View() == old(order.View())
  {
    r := CheckoutSessionDecision(orderId, Found(order), caller, settings, getProductById, createSession);
    if r.result.Ok? {
      order.checkoutSessionId := Some(r.result.value);
    }
  }

  /**
   * CreatePaymentIntent: decides as PaymentIntentDecision and, only when the intent was
   * created, stores the client secret as the order's PaymentIntentId.
   */
  method CreatePaymentIntent(
    orderId: int, order: OrderDto?, caller: Caller, createIntent: CreatePaymentIntentDto -> Outcome<string>)
    returns (r: Response<PaymentCall, string>)
    modifies order
    ensures r == PaymentIntentDecision(orderId, old(Found(order)), caller, createIntent)
    ensures order != null && r.result.Ok? ==> order.View() == old(order.View()).(paymentIntentId := Some(r.result.value))
    ensures order != null && !r.result.Ok? ==> order.View() == old(order.View())
  {
    r := PaymentIntentDecision(orderId, Found(order), caller, createIntent);
    if r.result.Ok? {
      order.paymentIntentId := Some(r.result.value);
    }
  }

  /**
   * StripeWebhook: a rejected signature, and a StripeException from the check or the
   * handler, give BadRequest; any other exception escapes; the handler runs only after an
   * accepted signature.
   */
  function StripeWebhook(check: SignatureCheck, reply: HandlerReply): (r: Response<PaymentCall, ()>)
    ensures check.SignatureRejected? || check.SignatureStripeError? ==> r == Response([], BadRequest(InvalidSignatureMessage))
    ensures check.SignatureOtherError? ==> r == Response([], Unhandled(check.message))
    ensures check.SignatureAccepted? ==> r.calls == [HandleWebhookEventAsync(check.event)]
    ensures check.SignatureAccepted? ==> (r.result.Ok? <==> reply.Handled?)
    ensures check.SignatureAccepted? && reply.HandlerStripeError? ==> r.result == BadRequest(InvalidSignatureMessage)
    ensures check.SignatureAccepted? && reply.HandlerOtherError? ==> r.result == Unhandled(reply.message)
  {
    match check
    case SignatureRejected => Response([], BadRequest(InvalidSignatureMessage))
    case SignatureStripeError => Response([], BadRequest(InvalidSignatureMessage))
    case SignatureOtherError(m) => Response([], Unhandled(m))
    case SignatureAccepted(event) =>
      var result := match reply
        case Handled => Ok(())
        case HandlerStripeError => BadRequest(InvalidSignatureMessage)
        case HandlerOtherError(m) => Unhandled(m);
      Response([HandleWebhookEventAsync(event)], result)
  }

  // ---- Properties across the payment actions ----

  /** Ownership is checked before status: a caller who may not pay gets Forbid whatever the status. */
  lemma NonOwnerForbiddenWhateverStatus(orderId: int, order: OrderView, caller: Caller, createIntent: CreatePaymentIntentDto -> Outcome<string>)
    requires !OwnerOrAdmin(order.userId, caller)
    ensures forall s: OrderStatus :: PaymentIntentDecision(orderId, Some(order.(status := s)), caller, createIntent) == Response([], Forbid)
  {
  }

  /**
   * Every line of a sent checkout request carries the price frozen in the order, never
   * the product's current price, and the request carries the order's currency.
   */
  lemma {:induction false} CheckoutUsesFrozenPrices(
    orderId: int, found: Option<OrderView>, caller: Caller, settings: StripeSettings,
    getProductById: int -> Option<ProductDto>, createSession: CreateCheckoutSessionDto -> Outcome<string>)
    requires CheckoutSessionDecision(orderId, found, caller, settings, getProductById, createSession).calls != []
    ensures var s := CheckoutSessionDecision(orderId, found, caller, settings, getProductById, createSession).calls[0].session;
      && |s.cartItems| == |found.value.items|
      && (forall i :: 0 <= i < |s.cartItems| ==>
          s.cartItems[i].price == found.value.items[i].priceAtPurchase && s.cartItems[i].quantity == found.value.items[i].quantity)
      && s.currency == Some(found.value.currency)
      && s.successUrl == Some(settings.successUrl) && s.cancelUrl == Some(settings.cancelUrl)
  {
    var lines := CheckoutItems(found.value.items, getProductById).value;
    forall i | 0 <= i < |lines|
      ensures lines[i].price == found.value.items[i].priceAtPurchase && lines[i].quantity == found.value.items[i].quantity
    {
      assert IsCheckoutLine(lines[i], found.value.items[i], getProductById(found.value.items[i].productId).value);
    }
  }

  /**
   * The checkout request the controller builds never sets PaymentMethod, so the
   * CreateCheckoutSessionDto validator, were it applied to it, would reject it. This
   * takes the property's default to be null or blank: CreateCheckoutSessionDto's
   * declaration is not part of this model.
   */
  lemma SessionRequestLacksPaymentMethod(settings: StripeSettings, order: OrderView, lines: seq<CartCheckoutItemDto>)
    ensures OrderValidators.PaymentMethodRequired in OrderValidators.CreateCheckoutSessionErrors(SessionRequest(settings, order, lines))
  {
  }
}
