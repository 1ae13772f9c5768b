/**
 * The validators of order, cart, checkout and refund requests. Each one lists the messages
 * of its failing rules in rule order; a request is accepted when the list is empty.
 */
module OrderValidators {
  import opened Wrappers
  import opened Fluent
  import opened Dtos

  const ShippingAddressRequired := "Shipping address is required."
  const BillingAddressRequired := "Billing address is required."
  const PaymentMethodRequired := "Payment method is required."
  const ProductIdRequired := "Product ID is required."
  const QuantityAtLeastOne := "Quantity must be at least 1."
  const ProductNameRequired := "Product name is required."
  const PricePositive := "Price must be greater than 0."
  const SuccessUrlRequired := "Success URL is required."
  const CancelUrlRequired := "Cancel URL is required."
  const CurrencyRequired := "Currency is required."
  const OrderIdRequired := "Order ID is required."
  const PaymentIntentIdRequired := "Payment Intent ID is required."
  const RefundNonNegative := "Refund amount must be non-negative."

  // ---- OrderItemDtoValidator ----

  predicate ValidOrderItem(x: OrderItemDto) {
    x.productId > 0 && x.quantity >= 1
  }

  function OrderItemErrors(x: OrderItemDto): (errors: seq<string>)
    ensures errors == [] <==> ValidOrderItem(x)
    ensures ProductIdRequired in errors <==> x.productId <= 0
    ensures QuantityAtLeastOne in errors <==> x.quantity < 1
    ensures |errors| <= 2
  {
    Rule(x.productId > 0, ProductIdRequired) + Rule(x.quantity >= 1, QuantityAtLeastOne)
  }

  /** At both bounds, 0 is rejected and 1 accepted. */
  lemma OrderItemBoundaries()
    ensures OrderItemErrors(OrderItemDto(0, 1)) == [ProductIdRequired]
    ensures OrderItemErrors(OrderItemDto(1, 0)) == [QuantityAtLeastOne]
    ensures OrderItemErrors(OrderItemDto(1, 1)) == []
  {
  }

  /** An address rule set on a nullable property: skipped when the address is null. */
  function AddressChild(a: Option<AddressDto>, addressErrors: AddressDto -> seq<string>): seq<string> {
    if a.Some? then addressErrors(a.value) else []
  }

  // ---- CreateOrderDtoValidator; AddressDtoValidator is the parameter addressErrors ----

  function CreateOrderErrors(x: CreateOrderDto, addressErrors: AddressDto -> seq<string>): (errors: seq<string>)
    ensures errors == [] <==>
      && x.shippingAddress.Some? && addressErrors(x.shippingAddress.value) == []
      && x.billingAddress.Some? && addressErrors(x.billingAddress.value) == []
      && NotEmptyText(x.paymentMethod)
      && forall i :: 0 <= i < |x.orderItems| ==> ValidOrderItem(x.orderItems[i])
    ensures x.shippingAddress.None? ==> ShippingAddressRequired in errors
    ensures x.billingAddress.None? ==> BillingAddressRequired in errors
    ensures !NotEmptyText(x.paymentMethod) ==> PaymentMethodRequired in errors
  {
    Rule(x.shippingAddress.Some?, ShippingAddressRequired) + AddressChild(x.shippingAddress, addressErrors)
    + Rule(x.billingAddress.Some?, BillingAddressRequired) + AddressChild(x.billingAddress, addressErrors)
    + Rule(NotEmptyText(x.paymentMethod), PaymentMethodRequired)
    + ForEach(x.orderItems, OrderItemErrors)
  }

  // ---- OrderPreviewDtoValidator ----

  function OrderPreviewErrors(x: OrderPreviewDto, addressErrors: AddressDto -> seq<string>): (errors: seq<string>)
    ensures errors == [] <==>
      && x.shippingAddress.Some? && addressErrors(x.shippingAddress.value) == []
      && x.billingAddress.Some? && addressErrors(x.billingAddress.value) == []
      && forall i :: 0 <= i < |x.orderItems| ==> ValidOrderItem(x.orderItems[i])
    ensures x.shippingAddress.None? ==> ShippingAddressRequired in errors
    ensures x.billingAddress.None? ==> BillingAddressRequired in errors
  {
    Rule(x.shippingAddress.Some?, ShippingAddressRequired) + AddressChild(x.shippingAddress, addressErrors)
    + Rule(x.billingAddress.Some?, BillingAddressRequired) + AddressChild(x.billingAddress, addressErrors)
    + ForEach(x.orderItems, OrderItemErrors)
  }

  /**
   * The preview validator is the order validator without the payment-method rule: on the
   * same addresses and items, an order with a payment method passes exactly when its
   * preview passes, and a preview needs no payment method at all.
   */
  lemma PreviewDropsPaymentMethodRule(x: CreateOrderDto, addressErrors: AddressDto -> seq<string>)
    ensures var p := OrderPreviewDto(x.shippingAddress, x.billingAddress, x.orderItems);
      NotEmptyText(x.paymentMethod) ==> (CreateOrderErrors(x, addressErrors) == [] <==> OrderPreviewErrors(p, addressErrors) == [])
  {
  }

  // ---- CartItemDtoValidator ----

  function CartItemErrors(x: CartItemDto): (errors: seq<string>)
    ensures errors == [] <==> x.quantity >= 1
    ensures errors != [] ==> errors == [QuantityAtLeastOne]
  {
    Rule(x.quantity >= 1, QuantityAtLeastOne)
  }

  // ---- CartCheckoutItemDtoValidator ----

  predicate ValidCheckoutItem(x: CartCheckoutItemDto) {
    NotEmptyText(x.productName) && x.price > 0.0 && x.quantity >= 1
  }

  function CartCheckoutItemErrors(x: CartCheckoutItemDto): (errors: seq<string>)
    ensures errors == [] <==> ValidCheckoutItem(x)
    ensures ProductNameRequired in errors <==> !NotEmptyText(x.productName)
    ensures PricePositive in errors <==> x.price <= 0.0
    ensures QuantityAtLeastOne in errors <==> x.quantity < 1
    ensures |errors| <= 3
  {
    Rule(NotEmptyText(x.productName), ProductNameRequired)
    + Rule(x.price > 0.0, PricePositive)
    + Rule(x.quantity >= 1, QuantityAtLeastOne)
  }

  // ---- CreateCheckoutSessionDtoValidator ----

  function CreateCheckoutSessionErrors(x: CreateCheckoutSessionDto): (errors: seq<string>)
    ensures errors == [] <==>
      && NotEmptyText(x.successUrl) && NotEmptyText(x.cancelUrl)
      && NotEmptyText(x.currency) && NotEmptyText(x.paymentMethod)
      && forall i :: 0 <= i < |x.cartItems| ==> ValidCheckoutItem(x.cartItems[i])
    ensures !NotEmptyText(x.successUrl) ==> SuccessUrlRequired in errors
    ensures !NotEmptyText(x.cancelUrl) ==> CancelUrlRequired in errors
    ensures !NotEmptyText(x.currency) ==> CurrencyRequired in errors
    ensures !NotEmptyText(x.paymentMethod) ==> PaymentMethodRequired in errors
  {
    Rule(NotEmptyText(x.successUrl), SuccessUrlRequired)
    + Rule(NotEmptyText(x.cancelUrl), CancelUrlRequired)
    + Rule(NotEmptyText(x.currency), CurrencyRequired)
    + Rule(NotEmptyText(x.paymentMethod), PaymentMethodRequired)
    + ForEach(x.cartItems, CartCheckoutItemErrors)
  }

  /** An empty cart is not rejected, and a URL is any text that is not blank. */
  lemma CheckoutSessionAcceptsEmptyCart(url: string, currency: string, paymentMethod: string)
    requires NotEmptyText(Some(url)) && NotEmptyText(Some(currency)) && NotEmptyText(Some(paymentMethod))
    ensures CreateCheckoutSessionErrors(CreateCheckoutSessionDto(Some(url), Some(url), Some(currency), Some(paymentMethod), [])) == []
  {
  }

  // ---- CreateRefundDtoValidator ----

  function CreateRefundErrors(x: CreateRefundDto): (errors: seq<string>)
    ensures errors == [] <==> x.orderId > 0 && NotEmptyText(x.paymentIntentId) && x.amount >= 0.0
    ensures OrderIdRequired in errors <==> x.orderId <= 0
    ensures PaymentIntentIdRequired in errors <==> !NotEmptyText(x.paymentIntentId)
    ensures RefundNonNegative in errors <==> x.amount < 0.0
  {
    Rule(x.orderId > 0, OrderIdRequired)
    + Rule(NotEmptyText(x.paymentIntentId), PaymentIntentIdRequired)
    + Rule(x.amount >= 0.0, RefundNonNegative)
  }
}
