/**
 * ReviewsController: the review's product and author on creation, and the rule that only
 * its author or an Admin may change or delete a review. `getReviewById(id)` is what
 * GetReviewByIdAsync(id) returns; the lookup is read-only and not listed among the calls.
 */
module ReviewsController {
  import opened Wrappers
  import opened DotNetText
  import opened Http
  import opened Dtos

  datatype ReviewCall =
    | CreateReviewAsync(review: CreateReviewDto)
    | UpdateReviewAsync(id: int, review: CreateReviewDto)
    | DeleteReviewAsync(id: int)

  const CreateFailedMessage := "Failed to create review."

  function UpdateFailedMessage(id: int): string {
    "Failed to update review with ID " + IntToString(id) + "."
  }

  function DeleteFailedMessage(id: int): string {
    "Failed to delete review with ID " + IntToString(id) + "."
  }

  /** The caller may change the review: it exists and the caller wrote it or is an Admin. */
  predicate MayChange(review: Option<ReviewDto>, caller: Caller) {
    review.Some? && OwnerOrAdmin(review.value.userId, caller)
  }

  /** CreateReview: the review sent is the body for the route's product, written by the caller. */
  function CreateReview<R>(productId: int, dto: CreateReviewDto, caller: Caller, createReview: CreateReviewDto -> Option<Entity<R>>): (r: Response<ReviewCall, R>)
    ensures |r.calls| == 1 && r.calls[0].CreateReviewAsync?
    ensures var sent := r.calls[0].review;
      && sent.productId == productId && sent.userId == caller.userId
      && sent.rating == dto.rating && sent.reviewText == dto.reviewText
    ensures r.result.Created? <==> createReview(r.calls[0].review).Some?
    ensures r.result.Created? ==> Entity(r.result.id, r.result.value) == createReview(r.calls[0].review).value
    ensures !r.result.Created? ==> r.result == BadRequest(CreateFailedMessage)
  {
    var sent := dto.(productId := productId, userId := caller.userId);
    Response([CreateReviewAsync(sent)], CreatedOr(createReview(sent), CreateFailedMessage))
  }

  /** GetReviewById: NotFound for a missing review, otherwise the review. */
  function GetReviewById(id: int, getReviewById: int -> Option<ReviewDto>): (r: Response<ReviewCall, ReviewDto>)
    ensures r.calls == []
    ensures r.result.NotFound? <==> getReviewById(id).None?
    ensures r.result.Ok? <==> getReviewById(id).Some?
    ensures r.result.Ok? ==> r.result.value == getReviewById(id).value
  {
    Response([], OkOrNotFound(getReviewById(id)))
  }

  /** UpdateReview: Forbid without an update unless the caller may change the review. */
  function UpdateReview(id: int, dto: CreateReviewDto, caller: Caller, getReviewById: int -> Option<ReviewDto>, updateReview: (int, CreateReviewDto) -> bool): (r: Response<ReviewCall, ()>)
    ensures r.result.Forbid? <==> !MayChange(getReviewById(id), caller)
    ensures r.result.Forbid? ==> r.calls == []
    ensures !r.result.Forbid? ==> r.calls == [UpdateReviewAsync(id, dto)]
    ensures !r.result.Forbid? ==> (r.result.NoContent? <==> updateReview(id, dto))
    ensures !r.result.Forbid? && !updateReview(id, dto) ==> r.result == BadRequest(UpdateFailedMessage(id))
  {
    if !MayChange(getReviewById(id), caller) then Response([], Forbid)
    else Response([UpdateReviewAsync(id, dto)], NoContentOr(updateReview(id, dto), UpdateFailedMessage(id)))
  }

  /** DeleteReview: the same rule as UpdateReview, and the same mapping of the service's answer. */
  function DeleteReview(id: int, caller: Caller, getReviewById: int -> Option<ReviewDto>, deleteReview: int -> bool): (r: Response<ReviewCall, ()>)
    ensures r.result.Forbid? <==> !MayChange(getReviewById(id), caller)
    ensures r.result.Forbid? ==> r.calls == []
    ensures !r.result.Forbid? ==> r.calls == [DeleteReviewAsync(id)]
    ensures !r.result.Forbid? ==> (r.result.NoContent? <==> deleteReview(id))
    ensures !r.result.Forbid? && !deleteReview(id) ==> r.result == BadRequest(DeleteFailedMessage(id))
  {
    if !MayChange(getReviewById(id), caller) then Response([], Forbid)
    else Response([DeleteReviewAsync(id)], NoContentOr(deleteReview(id), DeleteFailedMessage(id)))
  }

  /** Whatever product and author the body names, the created review is the route's product and the caller. */
  lemma CreateReviewIgnoresBodyIds<R>(productId: int, dto: CreateReviewDto, other: CreateReviewDto, caller: Caller, createReview: CreateReviewDto -> Option<Entity<R>>)
    requires other.rating == dto.rating && other.reviewText == dto.reviewText
    ensures CreateReview(productId, dto, caller, createReview) == CreateReview(productId, other, caller, createReview)
  {
  }
}
