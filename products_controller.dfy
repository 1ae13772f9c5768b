/**
 * ProductsController: who may create, change or delete a product or one of its variants,
 * and the guard on image uploads. `getProductById(id)` is what GetProductByIdAsync(id)
 * returns, `getProductByVariantId(v)` what GetProductByVariantIdAsync(v) returns; the
 * lookups are read-only and are not listed among the calls.
 */
module ProductsController {
  import opened Wrappers
  import opened Http
  import opened Dtos

  /** The product service's state-changing calls and the image upload, with their arguments. */
  datatype ProductCall =
    | CreateProductAsync(product: CreateProductDto)
    | UpdateProductAsync(id: int, update: UpdateProductDto)
    | DeleteProductAsync(id: int)
    | CreateProductVariantAsync(productId: int, variant: ProductVariantDto)
    | UpdateProductVariantAsync(variantId: int, variantUpdate: ProductVariantDto)
    | DeleteProductVariantAsync(variantId: int)
    | ProcessAndUploadImageAsync(fileName: string, folder: string)

  /** An uploaded form file: its length in bytes and its name; the content stream is not modelled. */
  datatype ImageFile = ImageFile(length: int, fileName: string)

  const CreateFailedMessage := "Failed to create product"
  const VariantCreateFailedMessage := "Failed to create product variant"
  const ImageRequiredMessage := "Image file is required."
  const ImageFolder := "products-images"

  /** The caller may change the product: it exists and the caller sells it or is an Admin. */
  predicate MayChange(product: Option<ProductDto>, caller: Caller) {
    product.Some? && OwnerOrAdmin(product.value.sellerId, caller)
  }

  /** GetProductById: NotFound for a missing product, otherwise its details. */
  function GetProductById<P>(id: int, getProductDetails: int -> Option<P>): (r: Response<ProductCall, P>)
    ensures r.calls == []
    ensures r.result.NotFound? <==> getProductDetails(id).None?
    ensures r.result.Ok? <==> getProductDetails(id).Some?
    ensures r.result.Ok? ==> r.result.value == getProductDetails(id).value
  {
    Response([], OkOrNotFound(getProductDetails(id)))
  }

  /**
   * CreateProduct: Forbid unless the body's SellerId is the caller or the caller is an
   * Admin; a Seller's SellerId is then set to the caller, which it already is.
   */
  function CreateProduct<P>(dto: CreateProductDto, caller: Caller, createProduct: CreateProductDto -> Option<Entity<P>>): (r: Response<ProductCall, P>)
    ensures r.result.Forbid? <==> !OwnerOrAdmin(dto.sellerId, caller)
    ensures r.result.Forbid? ==> r.calls == []
    ensures !r.result.Forbid? ==> r.calls == [CreateProductAsync(dto)]
    ensures !r.result.Forbid? ==> r.result == CreatedOr(createProduct(dto), CreateFailedMessage)
  {
    if dto.sellerId != caller.userId && !IsAdmin(caller) then Response([], Forbid)
    else
      var sent := if caller.role == "Seller" then dto.(sellerId := caller.userId) else dto;
      Response([CreateProductAsync(sent)], CreatedOr(createProduct(sent), CreateFailedMessage))
  }

  /** An Admin may create a product for any seller, and that seller id reaches the service. */
  lemma AdminCreatesForAnySeller<P>(dto: CreateProductDto, caller: Caller, createProduct: CreateProductDto -> Option<Entity<P>>)
    requires IsAdmin(caller)
    ensures CreateProduct(dto, caller, createProduct).calls == [CreateProductAsync(dto)]
  {
  }

  /** UpdateProduct: Forbid without an update unless the caller may change the product. */
  function UpdateProduct(id: int, update: UpdateProductDto, caller: Caller, getProductById: int -> Option<ProductDto>): (r: Response<ProductCall, ()>)
    ensures r.result.Forbid? <==> !MayChange(getProductById(id), caller)
    ensures r.result.Forbid? ==> r.calls == []
    ensures !r.result.Forbid? ==> r == Response([UpdateProductAsync(id, update)], NoContent)
  {
    if !MayChange(getProductById(id), caller) then Response([], Forbid)
    else Response([UpdateProductAsync(id, update)], NoContent)
  }

  /** DeleteProduct: Forbid without a delete unless the caller may change the product. */
  function DeleteProduct(id: int, caller: Caller, getProductById: int -> Option<ProductDto>): (r: Response<ProductCall, ()>)
    ensures r.result.Forbid? <==> !MayChange(getProductById(id), caller)
    ensures r.result.Forbid? ==> r.calls == []
    ensures !r.result.Forbid? ==> r == Response([DeleteProductAsync(id)], NoContent)
  {
    if !MayChange(getProductById(id), caller) then Response([], Forbid)
    else Response([DeleteProductAsync(id)], NoContent)
  }

  /** CreateProductVariant: no ownership check; only a null service answer gives BadRequest. */
  function CreateProductVariant<P>(productId: int, variant: ProductVariantDto, createVariant: (int, ProductVariantDto) -> Option<Entity<P>>): (r: Response<ProductCall, P>)
    ensures r.calls == [CreateProductVariantAsync(productId, variant)]
    ensures r.result.Created? <==> createVariant(productId, variant).Some?
    ensures r.result.Created? ==> Entity(r.result.id, r.result.value) == createVariant(productId, variant).value
    ensures !r.result.Created? ==> r.result == BadRequest(VariantCreateFailedMessage)
  {
    Response([CreateProductVariantAsync(productId, variant)], CreatedOr(createVariant(productId, variant), VariantCreateFailedMessage))
  }

  /** UpdateProductVariant: the owner-or-Admin rule applied to the variant's product. */
  function UpdateProductVariant(variantId: int, update: ProductVariantDto, caller: Caller, getProductByVariantId: int -> Option<ProductDto>): (r: Response<ProductCall, ()>)
    ensures r.result.Forbid? <==> !MayChange(getProductByVariantId(variantId), caller)
    ensures r.result.Forbid? ==> r.calls == []
    ensures !r.result.Forbid? ==> r == Response([UpdateProductVariantAsync(variantId, update)], NoContent)
  {
    if !MayChange(getProductByVariantId(variantId), caller) then Response([], Forbid)
    else Response([UpdateProductVariantAsync(variantId, update)], NoContent)
  }

  /** DeleteProductVariant: the owner-or-Admin rule applied to the variant's product. */
  function DeleteProductVariant(variantId: int, caller: Caller, getProductByVariantId: int -> Option<ProductDto>): (r: Response<ProductCall, ()>)
    ensures r.result.Forbid? <==> !MayChange(getProductByVariantId(variantId), caller)
    ensures r.result.Forbid? ==> r.calls == []
    ensures !r.result.Forbid? ==> r == Response([DeleteProductVariantAsync(variantId)], NoContent)
  {
    if !MayChange(getProductByVariantId(variantId), caller) then Response([], Forbid)
    else Response([DeleteProductVariantAsync(variantId)], NoContent)
  }

  /** UploadProductImage: a missing or empty file is rejected before any upload. */
  function UploadProductImage(imageFile: Option<ImageFile>, upload: (string, string) -> string): (r: Response<ProductCall, string>)
    ensures r.result.BadRequest? <==> imageFile.None? || imageFile.value.length == 0
    ensures r.result.BadRequest? ==> r.calls == [] && r.result.message == ImageRequiredMessage
    ensures !r.result.BadRequest? ==>
      && r.calls == [ProcessAndUploadImageAsync(imageFile.value.fileName, ImageFolder)]
      && r.result == Ok(upload(imageFile.value.fileName, ImageFolder))
  {
    if imageFile.None? || imageFile.value.length == 0 then Response([], BadRequest(ImageRequiredMessage))
    else
      var name := imageFile.value.fileName;
      Response([ProcessAndUploadImageAsync(name, ImageFolder)], Ok(upload(name, ImageFolder)))
  }

  /** Update and delete of a product admit exactly the same callers, and so do update and delete of a variant. */
  lemma SameRuleForUpdateAndDelete(id: int, update: UpdateProductDto, variantUpdate: ProductVariantDto, caller: Caller, lookup: int -> Option<ProductDto>)
    ensures (UpdateProduct(id, update, caller, lookup)).result.Forbid? == (DeleteProduct(id, caller, lookup)).result.Forbid?
    ensures (UpdateProductVariant(id, variantUpdate, caller, lookup)).result.Forbid? == (DeleteProductVariant(id, caller, lookup)).result.Forbid?
  {
  }
}
