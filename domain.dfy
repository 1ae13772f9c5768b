/** Entities and enums of the domain layer that the modelled operations read. */
module Domain {
  import opened Wrappers

  /** The six members of the OrderStatus enum, in declaration order. */
  datatype OrderStatus = Pending | Paid | Processing | Shipped | Delivered | Cancelled

  /** The member name of each status, as Enum.IsDefined and Enum.TryParse compare it. */
  function StatusName(s: OrderStatus): string {
    match s
    case Pending => "Pending"
    case Paid => "Paid"
    case Processing => "Processing"
    case Shipped => "Shipped"
    case Delivered => "Delivered"
    case Cancelled => "Cancelled"
  }

  /**
   * Enum.IsDefined(typeof(OrderStatus), text) followed by Enum.TryParse: given a string,
   * IsDefined accepts only the exact, case-sensitive member names, so numeric text such as
   * "1" and differently cased text such as "paid" are rejected.
   */
  function ParseStatus(text: string): (r: Option<OrderStatus>)
    ensures r.Some? ==> StatusName(r.value) == text
    ensures r.None? ==> forall s: OrderStatus :: StatusName(s) != text
  {
    if text == "Pending" then Some(Pending)
    else if text == "Paid" then Some(Paid)
    else if text == "Processing" then Some(Processing)
    else if text == "Shipped" then Some(Shipped)
    else if text == "Delivered" then Some(Delivered)
    else if text == "Cancelled" then Some(Cancelled)
    else None
  }

  /** Parsing a name gives back its status, and no two statuses share a name. */
  lemma ParseStatusName(s: OrderStatus)
    ensures ParseStatus(StatusName(s)) == Some(s)
  {
  }

  /** A DateTime, by its ticks; default(DateTime) is zero ticks. */
  datatype DateTime = DateTime(ticks: nat)

  const DefaultDateTime := DateTime(0)

  /** Address, copied into orders as shipping and billing address. */
  datatype Address = Address(
    street: Option<string>,
    city: Option<string>,
    state: Option<string>,
    postalCode: Option<string>,
    country: Option<string>)

  /** One OrderHistory row; id and creation time come from the entity base class. */
  datatype OrderHistory = OrderHistory(
    id: int,
    orderId: int,
    previousStatus: OrderStatus,
    newStatus: OrderStatus,
    notes: Option<string>,
    createdAt: DateTime)

  /** One CartItem row: the line of a cart for one product (and optionally one variant). */
  datatype CartItem = CartItem(
    id: int,
    cartId: int,
    productId: int,
    productVariantId: Option<int>,
    quantity: int)
}

/**
 * The API exception family as a closed set of variants: the base ApiException carries any
 * status code, each subclass fixes its own, and PaymentException builds its message.
 */
module Exceptions {
  import opened Wrappers

  datatype ApiException =
    | ApiException(text: string, code: int)
    | BadRequestException(text: string)
    | UnauthorizedAccessException(text: string)
    | OutOfStockException(text: string)
    | PaymentException(text: string, inner: Option<string>)
  {
    /** The status code fixed when the exception is constructed. */
    function StatusCode(): int {
      match this
      case ApiException(_, c) => c
      case BadRequestException(_) => 400
      case UnauthorizedAccessException(_) => 401
      case OutOfStockException(_) => 409
      case PaymentException(_, _) => 500
    }

    /** The Message property: the constructor's text, except for PaymentException. */
    function Message(): string {
      match this
      case PaymentException(t, e) => PaymentMessage(t, e)
      case _ => text
    }
  }

  /**
   * $"Payment error: {message}. exception: {innerException}": a null inner exception is
   * formatted as the empty string, otherwise its ToString() text is inserted.
   */
  function PaymentMessage(message: string, inner: Option<string>): string {
    "Payment error: " + message + ". exception: " + (if inner.Some? then inner.value else "")
  }

  const PaymentPrefix := "Payment error: "
  const InnerLabel := ". exception: "

  /**
   * The shape of a payment error message: it starts with the fixed prefix, holds the
   * caller's message right after it, and without an inner exception ends with "exception: ".
   */
  lemma PaymentMessageShape(message: string, inner: Option<string>)
    ensures PaymentException(message, inner).StatusCode() == 500
    ensures var m := PaymentException(message, inner).Message();
      && |PaymentPrefix| <= |m|
      && m[..|PaymentPrefix|] == PaymentPrefix
      && m[|PaymentPrefix|..|PaymentPrefix| + |message|] == message
      && (inner.None? ==> m[|m| - |"exception: "|..] == "exception: ")
  {
    var m := PaymentException(message, inner).Message();
    var tail := if inner.Some? then inner.value else "";
    assert m == PaymentPrefix + message + InnerLabel + tail;
    assert m[|PaymentPrefix|..|PaymentPrefix| + |message|] == message by {
      assert (PaymentPrefix + message + InnerLabel + tail)[|PaymentPrefix|..|PaymentPrefix| + |message|] == message;
    }
  }

  /** Every subclass keeps the caller's text verbatim as its Message and its own status code. */
  lemma SubclassesKeepText(message: string)
    ensures BadRequestException(message).Message() == message
    ensures BadRequestException(message).StatusCode() == 400
    ensures UnauthorizedAccessException(message).Message() == message
    ensures UnauthorizedAccessException(message).StatusCode() == 401
    ensures OutOfStockException(message).Message() == message
    ensures OutOfStockException(message).StatusCode() == 409
  {
  }

  /** The base class keeps both constructor arguments. */
  lemma BaseKeepsArguments(message: string, code: int)
    ensures ApiException(message, code).Message() == message
    ensures ApiException(message, code).StatusCode() == code
  {
  }
}

/** What a controller action produces, and who is calling it. */
module Http {
  import opened Wrappers

  /** The authenticated caller: CurrentUserId and CurrentUserRole of the controller base class. */
  datatype Caller = Caller(userId: int, role: string)

  predicate IsAdmin(c: Caller) {
    c.role == "Admin"
  }

  /** The rule "the caller owns the entity or is an Admin". */
  predicate OwnerOrAdmin(ownerId: int, c: Caller) {
    ownerId == c.userId || IsAdmin(c)
  }

  /**
   * The IActionResult kinds the actions return. Unhandled stands for an exception that
   * leaves the action; mapping it to an HTTP status is done outside the controllers.
   */
  datatype ActionResult<+T> =
    | Ok(value: T)
    | Created(id: int, value: T)
    | NoContent
    | BadRequest(message: string)
    | Forbid
    | NotFound
    | Status(code: int, message: string)
    | Unhandled(message: string)

  /** The service calls an action made, in order, and what it returned. */
  datatype Response<+C, +T> = Response(calls: seq<C>, result: ActionResult<T>)

  /** What a create service returns when it succeeds: the new id and the created DTO. */
  datatype Entity<+T> = Entity(id: int, body: T)

  /** `found != null ? Ok(found) : NotFound()` */
  function OkOrNotFound<T>(found: Option<T>): (r: ActionResult<T>)
    ensures r.NotFound? <==> found.None?
    ensures r.Ok? <==> found.Some?
    ensures r.Ok? ==> r.value == found.value
  {
    if found.Some? then Ok(found.value) else NotFound
  }

  /** `created != null ? CreatedAtAction(..., new { id = created.Id }, created) : BadRequest(message)` */
  function CreatedOr<T>(created: Option<Entity<T>>, message: string): (r: ActionResult<T>)
    ensures r.Created? <==> created.Some?
    ensures r.Created? ==> r.id == created.value.id && r.value == created.value.body
    ensures r.BadRequest? <==> created.None?
    ensures r.BadRequest? ==> r.message == message
  {
    if created.Some? then Created(created.value.id, created.value.body) else BadRequest(message)
  }

  /** `succeeded ? NoContent() : BadRequest(message)` */
  function NoContentOr(succeeded: bool, message: string): (r: ActionResult<()>)
    ensures r.NoContent? <==> succeeded
    ensures r.BadRequest? <==> !succeeded
    ensures r.BadRequest? ==> r.message == message
  {
    if succeeded then NoContent else BadRequest(message)
  }
}
