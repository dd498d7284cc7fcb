/** The role middleware `authorizedRole(...roles)` (src/middlewares/role.middleware.js). */
module RoleGate {
  import opened Wrappers
  import opened Ids
  import opened Errors
  import opened Http
  import opened UserModel

  /**
   * The decision for a request whose authenticated user id is `requestUser` (`None` when
   * `req.user` is missing): the role checked is the one stored in the user collection.
   */
  function AuthorizedRole(roles: seq<Role>, requestUser: Option<RequestId>, users: map<Id, User>): (o: Outcome)
    ensures o.Continue? <==> requestUser.Some? && requestUser.value.Valid? && requestUser.value.id in users && users[requestUser.value.id].role in roles
    ensures requestUser.None? || !Present(requestUser.value) ==> Status(o) == 401
    ensures requestUser.Some? && requestUser.value.Malformed? && Present(requestUser.value) ==> Status(o) == 500
    ensures requestUser.Some? && requestUser.value.Valid? && requestUser.value.id !in users ==> Status(o) == 404
    ensures !o.Continue? && requestUser.Some? && requestUser.value.Valid? && requestUser.value.id in users ==> Status(o) == 403
  {
    if requestUser.None? || !Present(requestUser.value) then
      Fail(401, "User not authenticated")
    else match requestUser.value
      case Malformed(_) =>
        // `User.findById` throws a CastError, which the catch wraps
        Next(ApiError(500, "Error while authorizing user", [FieldError("", CastError().message)]))
      case Valid(id) =>
        if id !in users then Fail(404, "User not found")
        else if users[id].role !in roles then Fail(403, "You are not authorized to access this route")
        else Continue
  }

  /** Allowing more roles never turns an admitted request away. */
  lemma MoreRolesAdmitMore(roles: seq<Role>, more: seq<Role>, requestUser: Option<RequestId>, users: map<Id, User>)
    requires forall r :: r in roles ==> r in more
    requires AuthorizedRole(roles, requestUser, users).Continue?
    ensures AuthorizedRole(more, requestUser, users).Continue?
  {
  }

  /** Behind `authorizedRole("admin")` only a stored admin gets through, whatever the token says. */
  lemma AdminGate(requestUser: Option<RequestId>, users: map<Id, User>)
    ensures AuthorizedRole([Admin], requestUser, users).Continue? <==>
      requestUser.Some? && requestUser.value.Valid? && requestUser.value.id in users && users[requestUser.value.id].role == Admin
  {
  }
}
