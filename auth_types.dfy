/** The session records of src/auth/types.ts. */
module AuthTypes {
  import opened Wrappers

  /**
   * A role name. The source declares the closed union below but casts whatever
   * strings the server sends, so the model keeps roles as plain strings.
   */
  type Role = string

  const DeclaredRoles: set<Role> := {"landlord", "admin", "legal"}

  datatype AuthUser = AuthUser(id: string, email: string, fullName: string, roles: seq<Role>, defaultRole: Role)

  /** Only the access token; the refresh token is an HTTP-only cookie the client never sees. */
  datatype AuthTokens = AuthTokens(accessToken: string)

  datatype AuthState = AuthState(user: Option<AuthUser>, tokens: Option<AuthTokens>, isLoading: bool)

  /** A signed-in session as the gateway returns it. */
  datatype Session = Session(tokens: AuthTokens, user: AuthUser)

  /** User and tokens are both set or both cleared. */
  predicate Paired(s: AuthState)
  {
    s.user.Some? == s.tokens.Some?
  }
}
