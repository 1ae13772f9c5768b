/**
 * OrdersController. Each action is a function of the request, the caller and what the
 * order service returns; it yields the service calls the action makes and its result.
 * The service's answers are the function parameters: `getOrderById(id)` is what
 * GetOrderByIdAsync(id) returns, `createOrder(dto)` what CreateOrderAsync(dto) returns, and
 * so on. The lookup GetOrderByIdAsync is read-only and is not listed among the calls.
 */
module OrdersController {
  import opened Wrappers
  import opened DotNetText
  import opened Fluent
  import opened Domain
  import opened Http
  import opened Dtos
  import OrderValidators

  /** The order service calls the actions make, with the arguments they pass. */
  datatype OrderCall =
    | GetOrderPreviewAsync(order: CreateOrderDto)
    | CreateOrderAsync(order: CreateOrderDto)
    | CancelOrderAsync(id: int)
    | UpdateOrderStatusAsync(id: int, status: OrderStatus, notes: Option<string>)
    | DeleteOrderAsync(id: int)

  const EmptyOrderMessage := "Order must contain at least one item."
  const PaymentMethodMessage := "Payment method is required."
  const CreateFailedMessage := "Failed to create order."

  function CancelFailedMessage(id: int): string {
    "Failed to cancel order with ID " + IntToString(id) + "."
  }

  function DeleteFailedMessage(id: int): string {
    "Failed to delete order with ID " + IntToString(id) + "."
  }

  function InvalidStatusMessage(text: string): string {
    "Invalid status: " + text
  }

  /** The order as the action hands it to the service: the body with UserId set to the caller. */
  function AsCaller(dto: CreateOrderDto, caller: Caller): (sent: CreateOrderDto)
    ensures sent.userId == caller.userId
    ensures sent.(userId := dto.userId) == dto
  {
    dto.(userId := caller.userId)
  }

  /** GetOrderPreview: the preview of the caller's order, whatever UserId the body named. */
  function GetOrderPreview<P>(dto: CreateOrderDto, caller: Caller, preview: CreateOrderDto -> P): (r: Response<OrderCall, P>)
    ensures |r.calls| == 1 && r.calls[0].GetOrderPreviewAsync?
    ensures r.calls[0].order.userId == caller.userId && r.calls[0].order.(userId := dto.userId) == dto
    ensures r.result == Ok(preview(r.calls[0].order))
  {
    var sent := AsCaller(dto, caller);
    Response([GetOrderPreviewAsync(sent)], Ok(preview(sent)))
  }

  /**
   * CreateOrder: an empty item list is rejected first, then a null or empty payment
   * method; only then is the service called, and a null answer gives BadRequest.
   */
  function CreateOrder<O>(dto: CreateOrderDto, caller: Caller, createOrder: CreateOrderDto -> Option<Entity<O>>): (r: Response<OrderCall, O>)
    ensures |dto.orderItems| == 0 ==> r == Response([], BadRequest(EmptyOrderMessage))
    ensures |dto.orderItems| > 0 && IsNullOrEmpty(dto.paymentMethod) ==> r == Response([], BadRequest(PaymentMethodMessage))
    ensures r.calls != [] <==> |dto.orderItems| > 0 && !IsNullOrEmpty(dto.paymentMethod)
    ensures r.calls != [] ==> r.calls == [CreateOrderAsync(AsCaller(dto, caller))]
    ensures r.result.Created? <==> r.calls != [] && createOrder(AsCaller(dto, caller)).Some?
    ensures r.result.Created? ==> Entity(r.result.id, r.result.value) == createOrder(AsCaller(dto, caller)).value
    ensures r.calls != [] && createOrder(AsCaller(dto, caller)).None? ==> r.result == BadRequest(CreateFailedMessage)
  {
    var sent := AsCaller(dto, caller);
    if |sent.orderItems| == 0 then Response([], BadRequest(EmptyOrderMessage))
    else if IsNullOrEmpty(sent.paymentMethod) then Response([], BadRequest(PaymentMethodMessage))
    else Response([CreateOrderAsync(sent)], CreatedOr(createOrder(sent), CreateFailedMessage))
  }

  /** GetOrderById: NotFound for a missing order, otherwise the order. */
  function GetOrderById<O>(id: int, getOrderById: int -> Option<O>): (r: Response<OrderCall, O>)
    ensures r.calls == []
    ensures r.result.NotFound? <==> getOrderById(id).None?
    ensures r.result.Ok? <==> getOrderById(id).Some?
    ensures r.result.Ok? ==> r.result.value == getOrderById(id).value
  {
    Response([], OkOrNotFound(getOrderById(id)))
  }

  /**
   * CancelOrder: Forbid, without a cancel call, when the order is missing or the caller
   * neither placed it nor is an Admin; otherwise the service's answer decides.
   */
  function CancelOrder(id: int, caller: Caller, getOrderById: int -> Option<OrderView>, cancelOrder: int -> bool): (r: Response<OrderCall, ()>)
    ensures r.result.Forbid? <==> getOrderById(id).None? || !OwnerOrAdmin(getOrderById(id).value.userId, caller)
    ensures r.result.Forbid? ==> r.calls == []
    ensures !r.result.Forbid? ==> r.calls == [CancelOrderAsync(id)]
    ensures !r.result.Forbid? ==> (r.result.NoContent? <==> cancelOrder(id))
    ensures !r.result.Forbid? && !cancelOrder(id) ==> r.result == BadRequest(CancelFailedMessage(id))
  {
    var order := getOrderById(id);
    if order.None? || (order.value.userId != caller.userId && !IsAdmin(caller)) then Response([], Forbid)
    else Response([CancelOrderAsync(id)], NoContentOr(cancelOrder(id), CancelFailedMessage(id)))
  }

  /**
   * UpdateOrderStatus: the text must be one of the six status names, case-sensitively;
   * any named status is forwarded with the notes, without a check of the current status.
   */
  function UpdateOrderStatus(id: int, newStatus: string, notes: Option<string>): (r: Response<OrderCall, ()>)
    ensures r.result.BadRequest? <==> forall s: OrderStatus :: StatusName(s) != newStatus
    ensures r.result.BadRequest? ==> r.calls == [] && r.result.message == InvalidStatusMessage(newStatus)
    ensures !r.result.BadRequest? ==>
      && r.result.NoContent? && |r.calls| == 1 && r.calls[0].UpdateOrderStatusAsync?
      && r.calls[0].id == id && StatusName(r.calls[0].status) == newStatus && r.calls[0].notes == notes
  {
    match ParseStatus(newStatus)
    case None => Response([], BadRequest(InvalidStatusMessage(newStatus)))
    case Some(status) => Response([UpdateOrderStatusAsync(id, status, notes)], NoContent)
  }

  /** DeleteOrder: the service's answer decides between NoContent and BadRequest. */
  function DeleteOrder(id: int, deleteOrder: int -> bool): (r: Response<OrderCall, ()>)
    ensures r.calls == [DeleteOrderAsync(id)]
    ensures r.result.NoContent? <==> deleteOrder(id)
    ensures !deleteOrder(id) ==> r.result == BadRequest(DeleteFailedMessage(id))
  {
    Response([DeleteOrderAsync(id)], NoContentOr(deleteOrder(id), DeleteFailedMessage(id)))
  }

  // ---- Properties across actions ----

  /** Both order actions hand the service the same order: the body with the caller as its user. */
  lemma PreviewAndCreateSendSameOrder<P, O>(dto: CreateOrderDto, caller: Caller, preview: CreateOrderDto -> P, createOrder: CreateOrderDto -> Option<Entity<O>>)
    requires CreateOrder(dto, caller, createOrder).calls != []
    ensures GetOrderPreview(dto, caller, preview).calls[0].order == CreateOrder(dto, caller, createOrder).calls[0].order
  {
  }

  /** Every status name is accepted and forwarded as that status. */
  lemma {:induction false} EveryStatusForwarded(id: int, s: OrderStatus, notes: Option<string>)
    ensures UpdateOrderStatus(id, StatusName(s), notes) == Response([UpdateOrderStatusAsync(id, s, notes)], NoContent)
  {
    ParseStatusName(s);
  }

  /** Differently cased and numeric status text is rejected without an update. */
  lemma StatusTextRejected(id: int, notes: Option<string>)
    ensures UpdateOrderStatus(id, "paid", notes) == Response([], BadRequest("Invalid status: paid"))
    ensures UpdateOrderStatus(id, "1", notes) == Response([], BadRequest("Invalid status: 1"))
  {
  }

  /**
   * The controller's payment-method guard is weaker than the validator's rule: a white
   * space method passes CreateOrder's IsNullOrEmpty test and reaches the service, while
   * the CreateOrderDto validator rejects it.
   */
  lemma {:induction false} BlankPaymentMethodReachesService<O>(dto: CreateOrderDto, caller: Caller, createOrder: CreateOrderDto -> Option<Entity<O>>, addressErrors: AddressDto -> seq<string>)
    requires |dto.orderItems| > 0 && dto.paymentMethod == Some(" ")
    ensures CreateOrder(dto, caller, createOrder).calls == [CreateOrderAsync(AsCaller(dto, caller))]
    ensures OrderValidators.PaymentMethodRequired in OrderValidators.CreateOrderErrors(dto, addressErrors)
  {
    assert IsWhiteSpace(dto.paymentMethod.value[0]);
  }

  /** The controller's item guard is stronger than the validator: an empty item list passes the validator. */
  lemma EmptyOrderOnlyRejectedByController<O>(dto: CreateOrderDto, caller: Caller, createOrder: CreateOrderDto -> Option<Entity<O>>, addressErrors: AddressDto -> seq<string>)
    requires dto.orderItems == []
    requires dto.shippingAddress.Some? && addressErrors(dto.shippingAddress.value) == []
    requires dto.billingAddress.Some? && addressErrors(dto.billingAddress.value) == []
    requires NotEmptyText(dto.paymentMethod)
    ensures OrderValidators.CreateOrderErrors(dto, addressErrors) == []
    ensures CreateOrder(dto, caller, createOrder) == Response([], BadRequest(EmptyOrderMessage))
  {
  }
}
