/** The user and user-store capabilities the middleware consumes. */
module Users {
  import opened Wrappers
  import opened Errors
  import opened Claims

  /** What `GetID`, `GetName`, `GetEmail`, `IsAdmin` and `GetClaims` return. */
  datatype User = User(id: string, name: string, email: string, admin: bool, claims: ClaimMap)

  /**
   * A credential store: username and password to a user, or a user id to
   * a user.  Its errors reach the middleware's caller unchanged.
   */
  datatype UserStore = UserStore(
    validateCredentials: (string, string) -> Result<User, Error>,
    findUserByID: string -> Result<User, Error>)
}
