# Webber marketplace backend: controller rules, validators, unit of work and two queries

This project models the decision-making core of the Webber marketplace backend, a C#
ASP.NET service. The model covers these parts:

- **The controller actions for orders, payments, products, reviews, users and categories.**
  Each action is a function of the caller (`CurrentUserId`, `CurrentUserRole`), the request,
  and what the services return. The result is a `Response`: the service
  calls the action makes other than its lookups, in order and with their arguments, plus the action result
  (`Ok`, `Created`, `NoContent`, `BadRequest`, `Forbid`, `NotFound`, `Status(500, …)`, or
  `Unhandled` for an exception that escapes the action). The services are function
  parameters, so "the service is not called" is `calls == []`.
- **`PaymentsController.CreateCheckoutSession` and `CreatePaymentIntent`.** They store the
  returned session id or client secret in the order object they looked up. Each is a
  method over an `OrderDto` object and is specified by a pure decision function.
- **The `UnitOfWork` transaction handle.** This is a class with an optional current
  transaction, plus the transaction and database-context objects it drives. The context
  records its current transaction and, as EF Core's relational providers do, refuses to
  begin a second one while one is current. Whether the database makes a begin, commit or
  rollback throw is an input to that call.
- **Two repository queries.** `GetHistoryForOrderAsync` filters an order's history and
  sorts it newest first. `GetCartItemAsync` finds the first cart line for a
  (cart, product) pair.
- **The FluentValidation request validators.** Each one returns the messages of its
  failing rules in rule order, and a request is valid when that list is empty. The
  library's own semantics are written out in the `Fluent` module:
  - `NotEmpty` rejects null, "" and text that is only white space (`char.IsWhiteSpace`).
  - `MaximumLength` counts UTF-16 code units, and a null value passes it.
  - Every rule of a chain runs.
  - A child validator is skipped on a null property.
- **The `ApiException` family.** It is a closed datatype. Each variant has its fixed status
  code and message.

Strings that C# allows to be null are `Option<string>`. Decimal amounts are `real`, because
they are only compared. A `DateTime` is its tick count, and `default(DateTime)` is 0.

The code differs from the design description of the order lifecycle in these places, and
the model follows the code:
- `UpdateOrderStatus` checks only that the status name is defined. It does no transition
  check of its own, and any named status is forwarded.
- The controllers do not check the order status before cancelling. They leave that
  decision to the order service.
- `CreatePaymentIntent` takes the amount from the order's `TotalAmount` at the time of
  the call.

## Model

| member | source | states |
|---|---|---|
| `Domain.ParseStatus` | Webber.API/Controllers/OrdersController.cs:153 | a text parses exactly when it is one of the six `OrderStatus` member names, case-sensitively, and it parses to the status of that name |
| `Domain.ParseStatusName` | Webber.Domain/Enums/OrderStatus.cs:3-11 | every status name parses back to its own status |
| `Exceptions.PaymentMessageShape` | Webber.Application/Exceptions/PaymentException.cs:9 | a `PaymentException` has status 500; its message starts with "Payment error: ", holds the caller's message right after that prefix, and without an inner exception ends with "exception: " |
| `Exceptions.SubclassesKeepText` | Webber.Application/Exceptions/BadRequestException.cs:8 | `BadRequestException`, `UnauthorizedAccessException` and `OutOfStockException` keep any message verbatim, and their status codes are fixed at 400, 401 and 409 |
| `Exceptions.BaseKeepsArguments` | Webber.Application/Exceptions/ApiException.cs:8-11 | the base exception's `Message` and `StatusCode` are exactly its constructor arguments |
| `Http.OkOrNotFound` | Webber.API/Controllers/OrdersController.cs:111 | a null lookup gives NotFound and any other gives Ok with the value found |
| `Http.CreatedOr` | Webber.API/Controllers/OrdersController.cs:61-63 | a null creation result gives BadRequest with the action's message, and any other gives Created with the new id and value |
| `Http.NoContentOr` | Webber.API/Controllers/OrdersController.cs:133-136 | a successful service answer gives NoContent and a failed one gives BadRequest with the action's message |
| `DotNetText.Utf16Length` | Webber.API/Validators/UpdateProductDtoValidator.cs:16 | `string.Length` counts at least one and at most two code units per character |
| `DotNetText.BmpLength` | Webber.API/Validators/UpdateProductDtoValidator.cs:16 | for text without surrogate pairs, `string.Length` is the number of characters |
| `Fluent.Rule` | Webber.API/Validators/CartItemDtoValidator.cs:14-15 | a rule gives no message when it holds and exactly its own message when it fails |
| `Fluent.ForEach` | Webber.API/Validators/CreateOrderDtoValidator.cs:25-26 | `RuleForEach` passes exactly when every element passes its child validator (so an empty list passes), and every element's messages appear in the result |
| `Fluent.WithinLengthOfBmp` | Webber.API/Validators/ProductVariantOptionDtoValidator.cs:16 | for ordinary text, `MaximumLength(max)` bounds the number of characters |
| `Fluent.RequiredWithin` | Webber.API/Validators/UpdateProductDtoValidator.cs:14-16 | `NotEmpty().MaximumLength(max)` passes exactly when the text is not blank and within `max`; each failing rule contributes its own message; both fail exactly for blank text longer than `max` |
| `Fluent.BlankAndLong` | Webber.API/Validators/UpdateProductDtoValidator.cs:14-16 | a value fails both `NotEmpty` and `MaximumLength` exactly when it is white space longer than the limit |
| `Fluent.LengthBoundary` | Webber.API/Validators/CreateCategoryDtoValidator.cs:16 | `MaximumLength(max)` accepts `max` letters and rejects `max + 1` |
| `Fluent.RequiredWithinBoundary` | Webber.API/Validators/ProductVariantDtoValidator.cs:14-16 | at the limit `max` letters pass, and `max + 1` letters give only the length message |
| `OrderValidators.OrderItemErrors` | Webber.API/Validators/OrderItemDtoValidator.cs:12-19 | an item is valid iff `ProductId > 0` and `Quantity >= 1`; each failing rule reports its own message and nothing else is constrained |
| `OrderValidators.OrderItemBoundaries` | Webber.API/Validators/OrderItemDtoValidator.cs:14-18 | `ProductId` 0 and `Quantity` 0 are rejected, and 1 is accepted for both |
| `OrderValidators.CreateOrderErrors` | Webber.API/Validators/CreateOrderDtoValidator.cs:12-27 | valid iff both addresses are present and pass the address validator, the payment method is not blank, and every item is valid; a missing address or blank method reports its message |
| `OrderValidators.OrderPreviewErrors` | Webber.API/Validators/OrderPreviewDtoValidator.cs:12-24 | valid iff both addresses are present and valid and every item is valid; there is no payment-method rule |
| `OrderValidators.PreviewDropsPaymentMethodRule` | Webber.API/Validators/OrderPreviewDtoValidator.cs:12-24 | on the same addresses and items, an order that has a payment method passes exactly when its preview passes |
| `OrderValidators.CartItemErrors` | Webber.API/Validators/CartItemDtoValidator.cs:12-16 | a cart item is valid iff `Quantity >= 1`, and a failure gives exactly "Quantity must be at least 1." |
| `OrderValidators.CartCheckoutItemErrors` | Webber.API/Validators/CartCheckoutItemDtoValidator.cs:12-22 | valid iff the name is not blank, the price is strictly positive and the quantity is at least 1; each failing field contributes its own message |
| `OrderValidators.CreateCheckoutSessionErrors` | Webber.API/Validators/CreateCheckoutSessionDtoValidator.cs:12-28 | valid iff both URLs, the currency and the payment method are not blank and every cart item is valid |
| `OrderValidators.CheckoutSessionAcceptsEmptyCart` | Webber.API/Validators/CreateCheckoutSessionDtoValidator.cs:14-27 | an empty cart is not rejected, and any non-blank text is accepted as a URL |
| `OrderValidators.CreateRefundErrors` | Webber.API/Validators/CreateRefundDtoValidator.cs:12-22 | valid iff `OrderId > 0`, the intent id is not blank and `Amount >= 0` (zero is accepted and there is no upper bound) |
| `CatalogValidators.UpdateProductErrors` | Webber.API/Validators/UpdateProductDtoValidator.cs:12-26 | valid iff the name is not blank and at most 200 code units, and the description and image URL are not blank, and the price is strictly positive |
| `CatalogValidators.ProductNameMessages` | Webber.API/Validators/UpdateProductDtoValidator.cs:14-16 | the name reports both of its messages exactly when it is white space longer than 200 |
| `CatalogValidators.BlankLongNameTwoMessages` | Webber.API/Validators/UpdateProductDtoValidator.cs:14-16 | 201 spaces give both "required" and "cannot exceed 200" |
| `CatalogValidators.ProductNameBoundary` | Webber.API/Validators/UpdateProductDtoValidator.cs:16 | 200 letters are accepted, and 201 letters give only the length message |
| `CatalogValidators.ProductVariantOptionErrors` | Webber.API/Validators/ProductVariantOptionDtoValidator.cs:12-21 | valid iff the name is not blank and at most 50, and the value is not blank and at most 100 |
| `CatalogValidators.OptionBoundaries` | Webber.API/Validators/ProductVariantOptionDtoValidator.cs:16-20 | both bounds are inclusive: 50 and 100 letters pass, 51 and 101 fail |
| `CatalogValidators.VariantOwnErrors` | Webber.API/Validators/ProductVariantDtoValidator.cs:14-19 | the variant's own rules pass iff the SKU is not blank and at most 50, and `Quantity >= 0` |
| `CatalogValidators.ProductVariantErrors` | Webber.API/Validators/ProductVariantDtoValidator.cs:12-23 | valid iff the variant's own rules hold and every option is valid; its own messages appear exactly when their rule fails |
| `CatalogValidators.OptionMessagesAreOwn` | Webber.API/Validators/ProductVariantDtoValidator.cs:21-22 | the option validator never reports one of the variant's own messages |
| `CatalogValidators.ForEachOnlyOptionMessages` | Webber.API/Validators/ProductVariantDtoValidator.cs:21-22 | every message from the options is one of the four option messages |
| `CatalogValidators.OptionsValid` | Webber.API/Validators/ProductVariantDtoValidator.cs:21-22 | the options pass iff every option is valid |
| `CatalogValidators.ZeroStockNoOptions` | Webber.API/Validators/ProductVariantDtoValidator.cs:18-22 | zero stock with no options is accepted, and -1 gives only the quantity message |
| `CatalogValidators.CreateCategoryErrors` | Webber.API/Validators/CreateCategoryDtoValidator.cs:12-20 | valid iff the name is not blank and at most 100, and the description is at most 500 |
| `CatalogValidators.CategoryDescriptionOptional` | Webber.API/Validators/CreateCategoryDtoValidator.cs:18-19 | a missing description and an empty description are treated alike, and neither is rejected |
| `CatalogValidators.UpdateCategoryErrors` | Webber.API/Validators/UpdateCategoryDtoValidator.cs:12-20 | valid iff the name is not blank and at most 100, and the description is at most 500; `Id` is not looked at |
| `CatalogValidators.UpdateCategoryMatchesCreate` | Webber.API/Validators/UpdateCategoryDtoValidator.cs:12-20 | the update validator gives the create validator's messages for every name, description and id |
| `CatalogValidators.CreateReviewErrors` | Webber.API/Validators/CreateReviewDtoValidator.cs:12-20 | valid iff `1 <= Rating <= 5` and the text is not blank and at most 500 |
| `CatalogValidators.ReviewErrors` | Webber.API/Validators/ReviewDtoValidator.cs:12-20 | valid iff `1 <= Rating <= 5` and the text is not blank and at most 500 |
| `CatalogValidators.ReviewMatchesCreateReview` | Webber.API/Validators/ReviewDtoValidator.cs:12-20 | both review validators give the same messages for the same rating and text |
| `CatalogValidators.RatingBoundaries` | Webber.API/Validators/CreateReviewDtoValidator.cs:14-15 | ratings 1 and 5 are accepted, and 0 and 6 are rejected with the rating message only |
| `AuthValidators.LoginErrors` | Webber.API/Validators/LoginDtoValidator.cs:12-19 | valid iff the username and the password are both not blank |
| `AuthValidators.LoginHasNoLengthLimit` | Webber.API/Validators/LoginDtoValidator.cs:12-19 | any two texts with a non-blank character are accepted, whatever their length |
| `AuthValidators.JwtTokenErrors` | Webber.API/Validators/JwtTokenDtoValidator.cs:10-17 | valid iff both tokens are not blank; the token text is not otherwise inspected |
| `AuthValidators.RefreshTokenErrors` | Webber.API/Validators/RefreshTokenDtoValidator.cs:12-16 | valid iff the token is present and has a non-white-space character; a failure gives exactly "Refresh token is required." |
| `AuthValidators.RefreshTokenExamples` | Webber.API/Validators/RefreshTokenDtoValidator.cs:14-15 | null, "" and white space are rejected, and "abc" is accepted |
| `ShippingValidators.ShippingRateRequestErrors` | Webber.API/Validators/ShippingRateRequestValidator.cs:12-31 | valid iff both postal codes are not blank and weight, length, width and height are all strictly positive |
| `ShippingValidators.ZeroWeightRejected` | Webber.API/Validators/ShippingRateRequestValidator.cs:20-21 | a zero weight is rejected with exactly the weight message |
| `ShippingValidators.ShippingRateErrors` | Webber.API/Validators/ShippingRateValidator.cs:13-29 | valid iff carrier, service name and currency are not blank, `TotalRate >= 0`, and the delivery date is not the default |
| `ShippingValidators.FreeRateAccepted` | Webber.API/Validators/ShippingRateValidator.cs:21-22 | a zero rate is accepted and a negative one gives only the rate message |
| `ShippingValidators.ShipmentErrors` | Webber.API/Validators/ShipmentValidator.cs:12-19 | valid iff the tracking number is not blank and the label-URL collection is present and non-empty |
| `ShippingValidators.LabelUrlsNotInspected` | Webber.API/Validators/ShipmentValidator.cs:17-18 | a collection holding only a null URL is accepted, and an empty one is rejected |
| `ShippingValidators.TrackingInformationErrors` | Webber.API/Validators/TrackingInformationValidator.cs:12-22 | valid iff tracking number, carrier and current status are all not blank |
| `ShippingValidators.TrackingEventErrors` | Webber.API/Validators/TrackingEventValidator.cs:12-22 | valid iff the timestamp is not the default and location and description are not blank |
| `OrderHistoryRepository.Filter` | Webber.Infrastructure/Repositories/OrderHistoryRepository.cs:18 | every kept row has the order id, and each row of that order is kept as often as it is stored |
| `OrderHistoryRepository.Insert` | Webber.Infrastructure/Repositories/OrderHistoryRepository.cs:19 | inserting into a newest-first sequence keeps it newest first and adds exactly that row |
| `OrderHistoryRepository.SortNewestFirst` | Webber.Infrastructure/Repositories/OrderHistoryRepository.cs:19 | the result is newest first and a permutation of its input |
| `OrderHistoryRepository.HistoryForOrder` | Webber.Infrastructure/Repositories/OrderHistoryRepository.cs:15-21 | the result is exactly the order's rows, each as often as stored, newest first, and empty when the order has no history |
| `OrderHistoryRepository.NewestFirstUniqueUpToTies` | Webber.Infrastructure/Repositories/OrderHistoryRepository.cs:19 | any two newest-first arrangements of the same rows agree on `CreatedAt` at every position, so only rows with equal timestamps can trade places |
| `CartItemRepository.FindCartItem` | Webber.Infrastructure/Repositories/CartItemRepository.cs:16-24 | a returned item is in the table and matches both the cart id and the product id, and the result is null exactly when no item matches |
| `CartItemRepository.FindsFirstMatch` | Webber.Infrastructure/Repositories/CartItemRepository.cs:23 | when several items match, the first in table order is returned |
| `CartItemRepository.VariantIgnored` | Webber.Infrastructure/Repositories/CartItemRepository.cs:23 | changing the variant ids changes the answer only in its variant id, so matching uses `ProductId` and not the variant |
| `UnitOfWork.UnitOfWork.constructor` | Webber.Infrastructure/Repositories/UnitOfWork.cs:39-52 | the repositories and context are those given, fixed for the object's life, and there is no current transaction |
| `UnitOfWork.UnitOfWork.SaveChanges` | Webber.Infrastructure/Repositories/UnitOfWork.cs:58-61 | the save reports true iff the affected-row count is positive |
| `UnitOfWork.UnitOfWork.BeginTransaction` | Webber.Infrastructure/Repositories/UnitOfWork.cs:67-70 | the begin is refused iff the context already has a current transaction or the database fails the call, and then the unit keeps the transaction it had, because the exception escapes before the assignment; otherwise a fresh open transaction becomes current for both the unit and the context |
| `UnitOfWork.UnitOfWork.CommitTransaction` | Webber.Infrastructure/Repositories/UnitOfWork.cs:76-84 | a current transaction is committed, disposed and cleared, and the context has no current transaction afterwards; when the commit throws, the unit keeps it open, undisposed and current; with none, nothing happens |
| `UnitOfWork.UnitOfWork.RollbackTransaction` | Webber.Infrastructure/Repositories/UnitOfWork.cs:90-98 | a current transaction is rolled back, disposed and cleared, and the context has no current transaction afterwards; when the rollback throws, the unit keeps it open, undisposed and current; with none, nothing happens |
| `UnitOfWork.UnitOfWork.Dispose` | Webber.Infrastructure/Repositories/UnitOfWork.cs:103-107 | the current transaction, if any, is disposed without being finished, and the context is disposed |
| `UnitOfWork.CommitThenRollback` | Webber.Infrastructure/Repositories/UnitOfWork.cs:76-98 | a transaction is finished once: a rollback or second commit after a commit leaves it committed, whether or not the database would fail them |
| `UnitOfWork.CommitFailsThenRollback` | Webber.Infrastructure/Repositories/UnitOfWork.cs:76-98 | after a commit that throws, the following rollback rolls the same transaction back, disposes it and clears it from the unit and the context |
| `UnitOfWork.BeginTwice` | Webber.Infrastructure/Repositories/UnitOfWork.cs:67-84 | a second begin while the first transaction is current is refused, the unit keeps the first transaction, and the next commit commits and disposes it |
| `PaymentsController.CheckoutItems` | Webber.API/Controllers/PaymentsController.cs:60-74 | one checkout line per order item, in order, with the product's name, `PriceAtPurchase` and the item quantity; a missing product fails with the first such item's product id |
| `PaymentsController.IntentRequest` | Webber.API/Controllers/PaymentsController.cs:115-120 | the intent carries the order's total, currency and id |
| `PaymentsController.PaymentFailure` | Webber.API/Controllers/PaymentsController.cs:83-86 | a `PaymentException` gives status 500 with its message, and any other exception escapes |
| `PaymentsController.CheckoutSessionDecision` | Webber.API/Controllers/PaymentsController.cs:40-87 | Forbid iff the order is missing or the caller is neither owner nor Admin; otherwise BadRequest iff not Pending; neither case makes a call; a missing product escapes with no call; once every product is found the session request, built from the settings, the order and its frozen lines, is sent; a returned session id gives exactly the session call, the update of the order with that id, and Ok with the id; a `PaymentException` gives only the session call and Status(500, its message); any other exception escapes |
| `PaymentsController.PaymentIntentDecision` | Webber.API/Controllers/PaymentsController.cs:100-132 | the same ownership and Pending guards; past them the intent request with the order's total, currency and id is sent; a returned client secret gives exactly the intent call, the update of the order with the secret as `PaymentIntentId`, and Ok with the secret; a `PaymentException` gives only the intent call and Status(500, its message); any other exception escapes |
| `PaymentsController.CreateCheckoutSession` | Webber.API/Controllers/PaymentsController.cs:40-87 | the looked-up order gains the session id only when the action returns Ok, and is otherwise unchanged |
| `PaymentsController.CreatePaymentIntent` | Webber.API/Controllers/PaymentsController.cs:100-132 | the looked-up order gains the client secret as `PaymentIntentId` only when the action returns Ok, and is otherwise unchanged |
| `PaymentsController.StripeWebhook` | Webber.API/Controllers/PaymentsController.cs:142-160 | a rejected signature or a Stripe error in the check gives BadRequest without invoking the handler, and any other exception from the check escapes; otherwise the handler runs once, Ok follows iff it completes, a Stripe error from it gives BadRequest and any other exception escapes |
| `PaymentsController.NonOwnerForbiddenWhateverStatus` | Webber.API/Controllers/PaymentsController.cs:103-111 | ownership is checked before status: a non-owner non-admin gets Forbid whatever the status |
| `PaymentsController.CheckoutUsesFrozenPrices` | Webber.API/Controllers/PaymentsController.cs:55-75 | a sent checkout request has one line per order item with `PriceAtPurchase` and the item quantity, the order's currency, and the configured URLs |
| `PaymentsController.SessionRequestLacksPaymentMethod` | Webber.API/Controllers/PaymentsController.cs:55-75 | the checkout request never sets `PaymentMethod`, so the checkout-session validator would reject it |
| `OrdersController.AsCaller` | Webber.API/Controllers/OrdersController.cs:29 | the order sent has the caller as its user and is otherwise the body |
| `OrdersController.GetOrderPreview` | Webber.API/Controllers/OrdersController.cs:27-33 | the preview is requested for the body with `UserId` replaced by the caller, whatever the body said |
| `OrdersController.CreateOrder` | Webber.API/Controllers/OrdersController.cs:45-64 | an empty item list is rejected first and then a null or empty payment method; the service is called only when both pass, with `UserId` set to the caller; a null answer gives BadRequest, and otherwise Created with the order id |
| `OrdersController.GetOrderById` | Webber.API/Controllers/OrdersController.cs:108-112 | a null order gives NotFound, and otherwise Ok |
| `OrdersController.CancelOrder` | Webber.API/Controllers/OrdersController.cs:125-137 | Forbid without a call iff the order is missing or the caller is neither owner nor Admin; otherwise NoContent iff the service returns true |
| `OrdersController.UpdateOrderStatus` | Webber.API/Controllers/OrdersController.cs:151-160 | BadRequest without a call iff the text is not a status name; otherwise that status is forwarded with the notes and the result is NoContent |
| `OrdersController.DeleteOrder` | Webber.API/Controllers/OrdersController.cs:172-180 | NoContent iff the service returns true, and otherwise BadRequest |
| `OrdersController.PreviewAndCreateSendSameOrder` | Webber.API/Controllers/OrdersController.cs:29-47 | preview and create hand the service the same order |
| `OrdersController.EveryStatusForwarded` | Webber.API/Controllers/OrdersController.cs:153-159 | every status name is accepted and forwarded as that status, without a transition check |
| `OrdersController.StatusTextRejected` | Webber.API/Controllers/OrdersController.cs:153-156 | "paid" and "1" are rejected without an update |
| `OrdersController.BlankPaymentMethodReachesService` | Webber.API/Controllers/OrdersController.cs:54-57 | a white-space payment method passes the controller's `IsNullOrEmpty` guard, although the validator rejects it |
| `OrdersController.EmptyOrderOnlyRejectedByController` | Webber.API/Controllers/OrdersController.cs:49-52 | an empty item list passes the validator but is rejected by the controller |
| `ProductsController.GetProductById` | Webber.API/Controllers/ProductsController.cs:42-49 | a null product gives NotFound, and otherwise Ok |
| `ProductsController.CreateProduct` | Webber.API/Controllers/ProductsController.cs:143-155 | Forbid without a call iff `SellerId` is not the caller and the caller is not Admin; otherwise the body's seller id reaches the service unchanged |
| `ProductsController.AdminCreatesForAnySeller` | Webber.API/Controllers/ProductsController.cs:145-151 | an Admin may create a product for any seller, and that seller id is kept |
| `ProductsController.UpdateProduct` | Webber.API/Controllers/ProductsController.cs:168-176 | Forbid without a call iff the product is missing or the caller is neither its seller nor Admin; otherwise the update is made and the result is NoContent |
| `ProductsController.DeleteProduct` | Webber.API/Controllers/ProductsController.cs:188-196 | the same rule as update, with a delete call |
| `ProductsController.CreateProductVariant` | Webber.API/Controllers/ProductsController.cs:208-214 | no ownership check: the service is always called, and only a null answer gives BadRequest |
| `ProductsController.UpdateProductVariant` | Webber.API/Controllers/ProductsController.cs:227-235 | the owner-or-Admin rule applied to the variant's product |
| `ProductsController.DeleteProductVariant` | Webber.API/Controllers/ProductsController.cs:247-255 | the owner-or-Admin rule applied to the variant's product |
| `ProductsController.UploadProductImage` | Webber.API/Controllers/ProductsController.cs:267-278 | a missing or zero-length file gives BadRequest before any upload; otherwise the file is uploaded to "products-images" and its URL returned |
| `ProductsController.SameRuleForUpdateAndDelete` | Webber.API/Controllers/ProductsController.cs:170-254 | update and delete admit the same callers, for products and for variants |
| `ReviewsController.CreateReview` | Webber.API/Controllers/ReviewsController.cs:23-32 | the review sent has the route's product and the caller as author and keeps the body's rating and text; a null answer gives BadRequest, and otherwise Created |
| `ReviewsController.CreateReviewIgnoresBodyIds` | Webber.API/Controllers/ReviewsController.cs:25-26 | the product and user ids in the body make no difference |
| `ReviewsController.GetReviewById` | Webber.API/Controllers/ReviewsController.cs:57-61 | a null review gives NotFound, and otherwise Ok |
| `ReviewsController.UpdateReview` | Webber.API/Controllers/ReviewsController.cs:75-88 | Forbid without a call iff the review is missing or the caller is neither author nor Admin; otherwise NoContent iff the service returns true |
| `ReviewsController.DeleteReview` | Webber.API/Controllers/ReviewsController.cs:101-112 | the same author-or-Admin rule and the same true/false mapping as update |
| `UsersController.GetCurrentUser` | Webber.API/Controllers/UsersController.cs:20-24 | Ok with whatever the lookup of the caller's id returned, null included |
| `UsersController.UpdateCurrentUser` | Webber.API/Controllers/UsersController.cs:36-44 | Forbid iff the body's `Id` is not the caller and the caller is not Admin; otherwise the update targets the caller's own id and the result is NoContent |
| `UsersController.AdminUpdateTargetsSelf` | Webber.API/Controllers/UsersController.cs:42 | an Admin sending another user's record still updates the Admin's own record |
| `UsersController.GetUserById` | Webber.API/Controllers/UsersController.cs:56-63 | a null user gives NotFound, and otherwise Ok |
| `CategoriesController.GetCategoryById` | Webber.API/Controllers/CategoriesController.cs:39-43 | a null category gives NotFound, and otherwise Ok |
| `CategoriesController.CreateCategory` | Webber.API/Controllers/CategoriesController.cs:69-75 | a null answer gives BadRequest, and otherwise Created with the new id |
| `CategoriesController.UpdateCategory` | Webber.API/Controllers/CategoriesController.cs:88-97 | BadRequest without an update iff the body's `Id` differs from the route id; otherwise the update is made and the result is NoContent |
| `CategoriesController.DeleteCategory` | Webber.API/Controllers/CategoriesController.cs:108-112 | the delete is always requested and the result is always NoContent |

## Left out

- The order, payment, product, review, user and category services are not modelled. Their
  implementations are not part of this model, so their answers are function parameters.
  No status-transition table, inventory reservation or coupon pricing is modelled.
- `AddressDtoValidator` is not part of this model. It is the parameter `addressErrors` of
  the order validators.
- Stripe is not modelled. Signature checking and event parsing are reduced to the
  `SignatureCheck` and `HandlerReply` outcomes, and `StripeException` is an opaque failure.
- `Task.WhenAll` in `CreateCheckoutSession` is modelled as a sequential, order-preserving
  map. The product lookups are read-only, so running them concurrently changes nothing
  but timing.
- HTTP plumbing is not modelled: routes, model binding, role gating by
  `AuthorizeMiddleware`, paging, and the list actions that only forward to a service.
  The caller's id and role are plain inputs.
- `CartController`, `CouponsController` and `ShippingController` are not modelled, because
  they only forward to services.
- EF Core is not modelled beyond the current-transaction rule above: the database context,
  the `Include`/`ThenInclude` loading, savepoints and the database's own transaction
  isolation. A table is the sequence of its rows in the order the database yields them,
  and a transaction is an object with an outcome and a disposed flag.
- A commit or rollback that throws leaves the transaction's outcome `Open` in the model.
  What the database itself has done with that transaction is not modelled.
- `UnitOfWork.UnitOfWork.Dispose`: the model does not record that the transaction is
  disposed before the context, only that both are disposed afterwards.
- Image processing and upload are not modelled. The upload is a function parameter, and
  the file's content stream is not modelled.
- AutoMapper mappings, hosting, configuration and the settings classes are not modelled.
  Only the two Stripe URLs appear, as `StripeSettings`.
- `CreateProductVariantDto` and `UpdateProductVariantDto` both appear as
  `ProductVariantDto`, because the controller only forwards them.
- `CreateProductDto` and `UserDto` keep only the id field the controller reads. Their
  other fields are an opaque `details` value.
- An exception thrown by a service call that the action does not catch is not modelled,
  except for the lookup failure and the non-payment exceptions of the payment actions and
  the exceptions of the webhook's signature check and handler.
- Decimal rounding is not modelled, because amounts are only compared.
- Culture-specific formatting of the ids in messages is not modelled: an id is written as
  ASCII decimal digits with a leading "-" when negative.
