/**
 * CategoriesController: lookups, creation, the id-match guard on updates, and deletion.
 * `getCategoryById(id)` is what GetCategoryByIdAsync(id) returns.
 */
module CategoriesController {
  import opened Wrappers
  import opened Http
  import opened Dtos

  datatype CategoryCall =
    | CreateCategoryAsync(category: CreateCategoryDto)
    | UpdateCategoryAsync(id: int, update: UpdateCategoryDto)
    | DeleteCategoryAsync(id: int)

  const CreateFailedMessage := "Failed to create category"
  const IdMismatchMessage := "Category ID in request body does not match ID in URL."

  /** GetCategoryById: NotFound for a missing category, otherwise the category. */
  function GetCategoryById<C>(id: int, getCategoryById: int -> Option<C>): (r: Response<CategoryCall, C>)
    ensures r.calls == []
    ensures r.result.NotFound? <==> getCategoryById(id).None?
    ensures r.result.Ok? <==> getCategoryById(id).Some?
    ensures r.result.Ok? ==> r.result.value == getCategoryById(id).value
  {
    Response([], OkOrNotFound(getCategoryById(id)))
  }

  /** CreateCategory: Created with the new category, or BadRequest when the service returns null. */
  function CreateCategory<C>(dto: CreateCategoryDto, createCategory: CreateCategoryDto -> Option<Entity<C>>): (r: Response<CategoryCall, C>)
    ensures r.calls == [CreateCategoryAsync(dto)]
    ensures r.result.Created? <==> createCategory(dto).Some?
    ensures r.result.Created? ==> Entity(r.result.id, r.result.value) == createCategory(dto).value
    ensures !r.result.Created? ==> r.result == BadRequest(CreateFailedMessage)
  {
    Response([CreateCategoryAsync(dto)], CreatedOr(createCategory(dto), CreateFailedMessage))
  }

  /** UpdateCategory: BadRequest without an update when the body's Id differs from the route's. */
  function UpdateCategory(id: int, dto: UpdateCategoryDto): (r: Response<CategoryCall, ()>)
    ensures r.result.BadRequest? <==> dto.id != id
    ensures r.result.BadRequest? ==> r.calls == [] && r.result.message == IdMismatchMessage
    ensures !r.result.BadRequest? ==> r.calls == [UpdateCategoryAsync(id, dto)] && r.result.NoContent?
    ensures forall c :: c in r.calls ==> c.update.id == id
  {
    if dto.id != id then Response([], BadRequest(IdMismatchMessage))
    else Response([UpdateCategoryAsync(id, dto)], NoContent)
  }

  /** DeleteCategory: always NoContent, whatever the service did. */
  function DeleteCategory(id: int): (r: Response<CategoryCall, ()>)
    ensures r.calls == [DeleteCategoryAsync(id)]
    ensures r.result.NoContent?
  {
    Response([DeleteCategoryAsync(id)], NoContent)
  }
}
