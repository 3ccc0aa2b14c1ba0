/** The signed-in user the routes obtain from the session, and their replies. */
module Auth {
  import opened Wrappers

  datatype User = User(id: string, isAdmin: bool)

  /** `currentUser?.isAdmin`: a signed-in administrator. */
  predicate IsAdmin(u: Option<User>)
  {
    u.Some? && u.value.isAdmin
  }

  /** A route's reply: a value with status 200 or 201, or an error status. */
  datatype Reply<+T> = Ok(value: T) | Fail(status: nat)

  const BadRequest: nat := 400
  const Unauthorized: nat := 401
  const Forbidden: nat := 403
}
