/**
 * Request and response DTOs, with the fields that the validators and controllers read.
 * Strings that may be null are Option<string>; decimal amounts are reals (they are only
 * compared); DateTime values are ticks.
 */
module Dtos {
  import opened Wrappers
  import opened Domain

  type AddressDto = Address

  datatype OrderItemDto = OrderItemDto(productId: int, quantity: int)

  datatype CreateOrderDto = CreateOrderDto(
    userId: int,
    shippingAddress: Option<AddressDto>,
    billingAddress: Option<AddressDto>,
    paymentMethod: Option<string>,
    orderItems: seq<OrderItemDto>)

  datatype OrderPreviewDto = OrderPreviewDto(
    shippingAddress: Option<AddressDto>,
    billingAddress: Option<AddressDto>,
    orderItems: seq<OrderItemDto>)

  datatype CartItemDto = CartItemDto(productId: int, productVariantId: Option<int>, quantity: int)

  datatype CartCheckoutItemDto = CartCheckoutItemDto(productName: Option<string>, price: real, quantity: int)

  datatype CreateCheckoutSessionDto = CreateCheckoutSessionDto(
    successUrl: Option<string>,
    cancelUrl: Option<string>,
    currency: Option<string>,
    paymentMethod: Option<string>,
    cartItems: seq<CartCheckoutItemDto>)

  datatype CreatePaymentIntentDto = CreatePaymentIntentDto(amount: real, currency: string, orderId: int)

  datatype CreateRefundDto = CreateRefundDto(orderId: int, paymentIntentId: Option<string>, amount: real)

  datatype ShippingRateRequest = ShippingRateRequest(
    originPostalCode: Option<string>,
    destinationPostalCode: Option<string>,
    weight: real,
    length: real,
    width: real,
    height: real)

  datatype ShippingRate = ShippingRate(
    carrier: Option<string>,
    serviceName: Option<string>,
    totalRate: real,
    currency: Option<string>,
    estimatedDeliveryDate: DateTime)

  datatype Shipment = Shipment(trackingNumber: Option<string>, shippingLabelUrls: Option<seq<Option<string>>>)

  datatype TrackingInformation = TrackingInformation(
    trackingNumber: Option<string>,
    carrier: Option<string>,
    currentStatus: Option<string>)

  datatype TrackingEvent = TrackingEvent(timestamp: DateTime, location: Option<string>, description: Option<string>)

  datatype UpdateProductDto = UpdateProductDto(
    name: Option<string>,
    description: Option<string>,
    price: real,
    imageUrl: Option<string>)

  datatype ProductVariantOptionDto = ProductVariantOptionDto(name: Option<string>, value: Option<string>)

  datatype ProductVariantDto = ProductVariantDto(sku: Option<string>, quantity: int, options: seq<ProductVariantOptionDto>)

  datatype CreateCategoryDto = CreateCategoryDto(name: Option<string>, description: Option<string>)

  datatype UpdateCategoryDto = UpdateCategoryDto(id: int, name: Option<string>, description: Option<string>)

  datatype CreateReviewDto = CreateReviewDto(productId: int, userId: int, rating: int, reviewText: Option<string>)

  datatype ReviewDto = ReviewDto(id: int, productId: int, userId: int, rating: int, reviewText: Option<string>)

  datatype LoginDto = LoginDto(username: Option<string>, password: Option<string>)

  datatype JwtTokenDto = JwtTokenDto(accessToken: Option<string>, refreshToken: Option<string>)

  datatype RefreshTokenDto = RefreshTokenDto(token: Option<string>)

  /** A product as the product service returns it; the controllers read its seller and name. */
  datatype ProductDto = ProductDto(id: int, sellerId: int, name: string)

  /** The properties of a request body that the controller only forwards, by property name. */
  datatype OtherFields = OtherFields(values: map<string, string>)

  /** A product creation request; the controller reads only SellerId, the rest is `details`. */
  datatype CreateProductDto = CreateProductDto(sellerId: int, details: OtherFields)

  /** A user update body; the controller reads only Id, the rest is `details`. */
  datatype UserDto = UserDto(id: int, details: OtherFields)

  /** One line of an order, with the price frozen when the order was placed. */
  datatype OrderItemView = OrderItemView(productId: int, quantity: int, priceAtPurchase: real)

  /** The fields of an order DTO that the order and payment actions read or write. */
  datatype OrderView = OrderView(
    id: int,
    userId: int,
    status: OrderStatus,
    currency: string,
    totalAmount: real,
    items: seq<OrderItemView>,
    checkoutSessionId: Option<string>,
    paymentIntentId: Option<string>)
}
