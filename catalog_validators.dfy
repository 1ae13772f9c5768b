/**
 * The validators of catalogue requests: product updates, variants and their options,
 * categories and reviews. Each lists the messages of its failing rules in rule order.
 */
module CatalogValidators {
  import opened Wrappers
  import opened DotNetText
  import opened Fluent
  import opened Dtos

  const ProductNameRequired := "Product name is required."
  const ProductNameTooLong := "Product name cannot exceed 200 characters."
  const ProductDescriptionRequired := "Product description is required."
  const PricePositive := "Price must be greater than 0."
  const ImageUrlRequired := "Image URL is required."
  const SkuRequired := "SKU is required."
  const SkuTooLong := "SKU cannot exceed 50 characters."
  const QuantityNonNegative := "Quantity must be non-negative."
  const AttributeNameRequired := "Attribute name is required."
  const AttributeNameTooLong := "Attribute name cannot exceed 50 characters."
  const AttributeValueRequired := "Attribute value is required."
  const AttributeValueTooLong := "Attribute value cannot exceed 100 characters."
  const CategoryNameRequired := "Category name is required."
  const CategoryNameTooLong := "Category name cannot exceed 100 characters."
  const CategoryDescriptionTooLong := "Category description cannot exceed 500 characters."
  const RatingRange := "Rating must be between 1 and 5."
  const ReviewTextRequired := "Review text is required."
  const ReviewTextTooLong := "Review text cannot exceed 500 characters."

  // ---- UpdateProductDtoValidator ----

  function UpdateProductErrors(x: UpdateProductDto): (errors: seq<string>)
    ensures errors == [] <==>
      && NotEmptyText(x.name) && WithinLength(x.name, 200)
      && NotEmptyText(x.description) && x.price > 0.0 && NotEmptyText(x.imageUrl)
    ensures ProductNameRequired in errors <==> !NotEmptyText(x.name)
    ensures ProductNameTooLong in errors <==> !WithinLength(x.name, 200)
    ensures ProductDescriptionRequired in errors <==> !NotEmptyText(x.description)
    ensures PricePositive in errors <==> x.price <= 0.0
    ensures ImageUrlRequired in errors <==> !NotEmptyText(x.imageUrl)
  {
    RequiredWithin(x.name, 200, ProductNameRequired, ProductNameTooLong)
    + Rule(NotEmptyText(x.description), ProductDescriptionRequired)
    + Rule(x.price > 0.0, PricePositive)
    + Rule(NotEmptyText(x.imageUrl), ImageUrlRequired)
  }

  /**
   * The name contributes both of its messages exactly when it is blank text longer than
   * 200 characters; every other name contributes at most one.
   */
  lemma {:induction false} ProductNameMessages(x: UpdateProductDto)
    ensures (ProductNameRequired in UpdateProductErrors(x) && ProductNameTooLong in UpdateProductErrors(x))
      <==> (x.name.Some? && 200 < |x.name.value| && IsNullOrWhiteSpace(x.name))
  {
    BlankAndLong(x.name, 200);
  }

  /** 201 spaces: both name messages are reported. */
  lemma {:induction false} BlankLongNameTwoMessages(rest: UpdateProductDto)
    requires NotEmptyText(rest.description) && rest.price > 0.0 && NotEmptyText(rest.imageUrl)
    ensures UpdateProductErrors(rest.(name := Some(Repeat(' ', 201)))) == [ProductNameRequired, ProductNameTooLong]
  {
    var s := Repeat(' ', 201);
    BlankAndLong(Some(s), 200);
  }

  /** 200 letters are accepted, 201 letters are rejected with the length message only. */
  lemma {:induction false} ProductNameBoundary(rest: UpdateProductDto)
    requires NotEmptyText(rest.description) && rest.price > 0.0 && NotEmptyText(rest.imageUrl)
    ensures UpdateProductErrors(rest.(name := Some(Repeat('a', 200)))) == []
    ensures UpdateProductErrors(rest.(name := Some(Repeat('a', 201)))) == [ProductNameTooLong]
  {
    RequiredWithinBoundary(200, ProductNameRequired, ProductNameTooLong);
  }

  // ---- ProductVariantOptionDtoValidator ----

  predicate ValidOption(x: ProductVariantOptionDto) {
    NotEmptyText(x.name) && WithinLength(x.name, 50) && NotEmptyText(x.value) && WithinLength(x.value, 100)
  }

  function ProductVariantOptionErrors(x: ProductVariantOptionDto): (errors: seq<string>)
    ensures errors == [] <==> ValidOption(x)
    ensures AttributeNameRequired in errors <==> !NotEmptyText(x.name)
    ensures AttributeNameTooLong in errors <==> !WithinLength(x.name, 50)
    ensures AttributeValueRequired in errors <==> !NotEmptyText(x.value)
    ensures AttributeValueTooLong in errors <==> !WithinLength(x.value, 100)
  {
    RequiredWithin(x.name, 50, AttributeNameRequired, AttributeNameTooLong)
    + RequiredWithin(x.value, 100, AttributeValueRequired, AttributeValueTooLong)
  }

  /** Both bounds are inclusive: 50 and 100 letters pass, 51 and 101 fail. */
  lemma {:induction false} OptionBoundaries()
    ensures ProductVariantOptionErrors(ProductVariantOptionDto(Some(Repeat('a', 50)), Some(Repeat('a', 100)))) == []
    ensures ProductVariantOptionErrors(ProductVariantOptionDto(Some(Repeat('a', 51)), Some(Repeat('a', 100)))) == [AttributeNameTooLong]
    ensures ProductVariantOptionErrors(ProductVariantOptionDto(Some(Repeat('a', 50)), Some(Repeat('a', 101)))) == [AttributeValueTooLong]
  {
    RequiredWithinBoundary(50, AttributeNameRequired, AttributeNameTooLong);
    RequiredWithinBoundary(100, AttributeValueRequired, AttributeValueTooLong);
  }

  // ---- ProductVariantDtoValidator ----

  /** The variant's own rules, on SKU and quantity. */
  function VariantOwnErrors(x: ProductVariantDto): (errors: seq<string>)
    ensures errors == [] <==> NotEmptyText(x.sku) && WithinLength(x.sku, 50) && x.quantity >= 0
    ensures SkuRequired in errors <==> !NotEmptyText(x.sku)
    ensures SkuTooLong in errors <==> !WithinLength(x.sku, 50)
    ensures QuantityNonNegative in errors <==> x.quantity < 0
  {
    RequiredWithin(x.sku, 50, SkuRequired, SkuTooLong) + Rule(x.quantity >= 0, QuantityNonNegative)
  }

  function ProductVariantErrors(x: ProductVariantDto): (errors: seq<string>)
    ensures errors == [] <==>
      && NotEmptyText(x.sku) && WithinLength(x.sku, 50) && x.quantity >= 0
      && forall i :: 0 <= i < |x.options| ==> ValidOption(x.options[i])
    ensures SkuRequired in errors <==> !NotEmptyText(x.sku)
    ensures SkuTooLong in errors <==> !WithinLength(x.sku, 50)
    ensures QuantityNonNegative in errors <==> x.quantity < 0
  {
    var own := VariantOwnErrors(x);
    var children := ForEach(x.options, ProductVariantOptionErrors);
    OptionMessagesAreOwn(x.options, children);
    OptionsValid(x.options);
    own + children
  }

  /** The option validator's messages never coincide with the variant's own messages. */
  lemma OptionMessagesAreOwn(options: seq<ProductVariantOptionDto>, children: seq<string>)
    requires children == ForEach(options, ProductVariantOptionErrors)
    ensures SkuRequired !in children && SkuTooLong !in children && QuantityNonNegative !in children
  {
    ForEachOnlyOptionMessages(options);
    NotOptionMessage(SkuRequired);
    NotOptionMessage(SkuTooLong);
    NotOptionMessage(QuantityNonNegative);
  }

  /** Every option message starts with "Attribute", so a message starting otherwise is none of them. */
  lemma NotOptionMessage(m: string)
    requires |m| > 0 && m[0] != 'A'
    ensures !OptionMessage(m)
  {
    assert AttributeNameRequired[0] == 'A' && AttributeNameTooLong[0] == 'A';
    assert AttributeValueRequired[0] == 'A' && AttributeValueTooLong[0] == 'A';
  }

  lemma {:induction false} ForEachOnlyOptionMessages(options: seq<ProductVariantOptionDto>)
    ensures forall m :: m in ForEach(options, ProductVariantOptionErrors) ==> OptionMessage(m)
  {
    if options != [] {
      ForEachOnlyOptionMessages(options[1..]);
      OnlyOptionMessages(options[0]);
    }
  }

  predicate OptionMessage(m: string) {
    m == AttributeNameRequired || m == AttributeNameTooLong || m == AttributeValueRequired || m == AttributeValueTooLong
  }

  lemma OnlyOptionMessages(x: ProductVariantOptionDto)
    ensures forall m :: m in ProductVariantOptionErrors(x) ==> OptionMessage(m)
  {
  }

  /** The options pass RuleForEach exactly when every option is valid. */
  lemma OptionsValid(options: seq<ProductVariantOptionDto>)
    ensures ForEach(options, ProductVariantOptionErrors) == [] <==> forall i :: 0 <= i < |options| ==> ValidOption(options[i])
  {
    assert forall i :: 0 <= i < |options| ==> (ProductVariantOptionErrors(options[i]) == [] <==> ValidOption(options[i]));
  }

  /** Zero stock and an empty option list are accepted. */
  lemma ZeroStockNoOptions(sku: string)
    requires NotEmptyText(Some(sku)) && WithinLength(Some(sku), 50)
    ensures ProductVariantErrors(ProductVariantDto(Some(sku), 0, [])) == []
    ensures ProductVariantErrors(ProductVariantDto(Some(sku), -1, [])) == [QuantityNonNegative]
  {
  }

  // ---- CreateCategoryDtoValidator and UpdateCategoryDtoValidator ----

  function CreateCategoryErrors(x: CreateCategoryDto): (errors: seq<string>)
    ensures errors == [] <==> NotEmptyText(x.name) && WithinLength(x.name, 100) && WithinLength(x.description, 500)
    ensures CategoryNameRequired in errors <==> !NotEmptyText(x.name)
    ensures CategoryNameTooLong in errors <==> !WithinLength(x.name, 100)
    ensures CategoryDescriptionTooLong in errors <==> !WithinLength(x.description, 500)
  {
    RequiredWithin(x.name, 100, CategoryNameRequired, CategoryNameTooLong)
    + Rule(WithinLength(x.description, 500), CategoryDescriptionTooLong)
  }

  function UpdateCategoryErrors(x: UpdateCategoryDto): (errors: seq<string>)
    ensures errors == [] <==> NotEmptyText(x.name) && WithinLength(x.name, 100) && WithinLength(x.description, 500)
    ensures CategoryNameRequired in errors <==> !NotEmptyText(x.name)
    ensures CategoryNameTooLong in errors <==> !WithinLength(x.name, 100)
    ensures CategoryDescriptionTooLong in errors <==> !WithinLength(x.description, 500)
  {
    RequiredWithin(x.name, 100, CategoryNameRequired, CategoryNameTooLong)
    + Rule(WithinLength(x.description, 500), CategoryDescriptionTooLong)
  }

  /** A missing or empty description is accepted. */
  lemma CategoryDescriptionOptional(name: Option<string>)
    ensures CreateCategoryErrors(CreateCategoryDto(name, None)) == CreateCategoryErrors(CreateCategoryDto(name, Some("")))
    ensures CategoryDescriptionTooLong !in CreateCategoryErrors(CreateCategoryDto(name, None))
  {
  }

  /** The update validator gives the create validator's messages, whatever the id. */
  lemma UpdateCategoryMatchesCreate(id: int, name: Option<string>, description: Option<string>)
    ensures UpdateCategoryErrors(UpdateCategoryDto(id, name, description)) == CreateCategoryErrors(CreateCategoryDto(name, description))
  {
  }

  // ---- CreateReviewDtoValidator and ReviewDtoValidator ----

  function CreateReviewErrors(x: CreateReviewDto): (errors: seq<string>)
    ensures errors == [] <==> 1 <= x.rating <= 5 && NotEmptyText(x.reviewText) && WithinLength(x.reviewText, 500)
    ensures RatingRange in errors <==> !(1 <= x.rating <= 5)
    ensures ReviewTextRequired in errors <==> !NotEmptyText(x.reviewText)
    ensures ReviewTextTooLong in errors <==> !WithinLength(x.reviewText, 500)
  {
    Rule(1 <= x.rating <= 5, RatingRange)
    + RequiredWithin(x.reviewText, 500, ReviewTextRequired, ReviewTextTooLong)
  }

  function ReviewErrors(x: ReviewDto): (errors: seq<string>)
    ensures errors == [] <==> 1 <= x.rating <= 5 && NotEmptyText(x.reviewText) && WithinLength(x.reviewText, 500)
    ensures RatingRange in errors <==> !(1 <= x.rating <= 5)
    ensures ReviewTextRequired in errors <==> !NotEmptyText(x.reviewText)
    ensures ReviewTextTooLong in errors <==> !WithinLength(x.reviewText, 500)
  {
    Rule(1 <= x.rating <= 5, RatingRange)
    + RequiredWithin(x.reviewText, 500, ReviewTextRequired, ReviewTextTooLong)
  }

  /** Both review validators give the same messages on the same (rating, text). */
  lemma ReviewMatchesCreateReview(x: ReviewDto)
    ensures ReviewErrors(x) == CreateReviewErrors(CreateReviewDto(x.productId, x.userId, x.rating, x.reviewText))
  {
  }

  /** The rating range is inclusive at both ends. */
  lemma RatingBoundaries(x: CreateReviewDto)
    requires NotEmptyText(x.reviewText) && WithinLength(x.reviewText, 500)
    ensures CreateReviewErrors(x.(rating := 1)) == [] && CreateReviewErrors(x.(rating := 5)) == []
    ensures CreateReviewErrors(x.(rating := 0)) == [RatingRange] && CreateReviewErrors(x.(rating := 6)) == [RatingRange]
  {
  }
}
