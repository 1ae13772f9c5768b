/**
 * UsersController: reading the caller's own record, reading any user, and updating the
 * caller's record. `getUserById(id)` is what GetUserByIdAsync(id) returns.
 */
module UsersController {
  import opened Wrappers
  import opened Http
  import opened Dtos

  datatype UserCall = UpdateUserAsync(userId: int, user: UserDto)

  /** GetCurrentUser: Ok with whatever the lookup of the caller's own id returned, null included. */
  function GetCurrentUser<U>(caller: Caller, getUserById: int -> Option<U>): (r: Response<UserCall, Option<U>>)
    ensures r.calls == []
    ensures r.result.Ok? && r.result.value == getUserById(caller.userId)
  {
    Response([], Ok(getUserById(caller.userId)))
  }

  /**
   * UpdateCurrentUser: Forbid unless the body's Id is the caller or the caller is an Admin;
   * a permitted update always targets the caller's own id.
   */
  function UpdateCurrentUser(dto: UserDto, caller: Caller): (r: Response<UserCall, ()>)
    ensures r.result.Forbid? <==> !OwnerOrAdmin(dto.id, caller)
    ensures r.result.Forbid? ==> r.calls == []
    ensures !r.result.Forbid? ==> r == Response([UpdateUserAsync(caller.userId, dto)], NoContent)
  {
    if dto.id != caller.userId && !IsAdmin(caller) then Response([], Forbid)
    else Response([UpdateUserAsync(caller.userId, dto)], NoContent)
  }

  /** An Admin sending another user's record still updates the Admin's own record. */
  lemma AdminUpdateTargetsSelf(dto: UserDto, caller: Caller)
    requires IsAdmin(caller) && dto.id != caller.userId
    ensures UpdateCurrentUser(dto, caller).calls == [UpdateUserAsync(caller.userId, dto)]
    ensures UpdateCurrentUser(dto, caller).calls[0].userId != dto.id
  {
  }

  /** GetUserById: NotFound for a missing user, otherwise the user. */
  function GetUserById<U>(userId: int, getUserById: int -> Option<U>): (r: Response<UserCall, U>)
    ensures r.calls == []
    ensures r.result.NotFound? <==> getUserById(userId).None?
    ensures r.result.Ok? <==> getUserById(userId).Some?
    ensures r.result.Ok? ==> r.result.value == getUserById(userId).value
  {
    Response([], OkOrNotFound(getUserById(userId)))
  }
}
