/** The backend's bearer-token middleware: token verification through the
    hosted identity provider, the numeric role hierarchy behind
    `require_role`, and the optional-authentication dependency. The provider
    call is a foreign function; it is a parameter here. */
module AuthMiddleware {
  import opened Common

  datatype HttpError = HttpError(status: nat, detail: string)

  datatype Result<T> = Ok(value: T) | Err(error: HttpError)

  /** The user dictionary handed to route handlers. `role` is `None` when the
      dictionary has no "role" key. */
  datatype UserDict = UserDict(id: string, email: string, userMetadata: map<string, string>, role: Option<string>)

  /** The provider's user record. */
  datatype ProviderUser = ProviderUser(id: string, email: string, userMetadata: map<string, string>)

  /** What `get_user(token)` does: raise with a message, or return a possibly
      falsy response. */
  datatype ProviderResponse = Raised(message: string) | Returned(user: Option<ProviderUser>)

  /** The detail the explicit falsy-user exception renders as, once the outer
      handler formats it with `str(e)`. */
  const FalsyUserMessage := "401: Invalid authentication credentials"

  /** Python's `d.get(key, default)`. */
  function Get(m: map<string, string>, key: string, default: string): (r: string)
    ensures key in m ==> r == m[key]
    ensures key !in m ==> r == default
  {
    if key in m then m[key] else default
  }

  // ---------------------------------------------------------------------
  // verify_token

  function VerifyToken(response: ProviderResponse): (r: Result<UserDict>)
    ensures r.Err? ==> r.error.status == 401
    ensures r.Err? ==> r.error.detail == "Invalid token: " + (if response.Raised? then response.message else FalsyUserMessage)
    ensures r.Ok? <==> response.Returned? && response.user.Some?
    ensures r.Ok? ==> var u := response.user.value;
                      && r.value.id == u.id && r.value.email == u.email
                      && r.value.userMetadata == u.userMetadata
                      && r.value.role == Some(Get(u.userMetadata, "role", "viewer"))
  {
    match response
    case Raised(message) => Err(HttpError(401, "Invalid token: " + message))
    case Returned(None) => Err(HttpError(401, "Invalid token: " + FalsyUserMessage))
    case Returned(Some(u)) => Ok(UserDict(u.id, u.email, u.userMetadata, Some(Get(u.userMetadata, "role", "viewer"))))
  }

  // ---------------------------------------------------------------------
  // require_role

  /** `roles_hierarchy.get(role, 0)`. */
  function RoleLevel(role: string): (level: nat)
    ensures role == "admin" ==> level == 3
    ensures role == "operator" ==> level == 2
    ensures role == "viewer" ==> level == 1
    ensures role !in {"admin", "operator", "viewer"} ==> level == 0
  {
    if role == "admin" then 3
    else if role == "operator" then 2
    else if role == "viewer" then 1
    else 0
  }

  /** `user.get("role", "viewer")`. */
  function UserRole(user: UserDict): string {
    user.role.GetOr("viewer")
  }

  /** The checker `require_role(required)` installs. */
  function RoleChecker(required: string, user: UserDict): (r: Result<UserDict>)
    ensures r.Ok? <==> RoleLevel(UserRole(user)) >= RoleLevel(required)
    ensures r.Ok? ==> r.value == user
    ensures r.Err? ==> r.error == HttpError(403, "Insufficient permissions. Required role: " + required)
  {
    if RoleLevel(UserRole(user)) < RoleLevel(required) then
      Err(HttpError(403, "Insufficient permissions. Required role: " + required))
    else
      Ok(user)
  }

  /** The ordering admin > operator > viewer > everything else. */
  lemma HierarchyOrder(other: string)
    requires other !in {"admin", "operator", "viewer"}
    ensures RoleLevel("admin") > RoleLevel("operator") > RoleLevel("viewer") > RoleLevel(other)
  {
  }

  /** Passing a check implies passing every check with a lower or equal
      required level. */
  lemma CheckIsMonotone(user: UserDict, required: string, weaker: string)
    requires RoleChecker(required, user).Ok?
    requires RoleLevel(weaker) <= RoleLevel(required)
    ensures RoleChecker(weaker, user).Ok?
  {
  }

  /** An unknown required role has level 0, so every user passes it, even one
      whose own role is unknown. */
  lemma UnknownRequiredRoleAdmitsEveryone(user: UserDict, required: string)
    requires required !in {"admin", "operator", "viewer"}
    ensures RoleChecker(required, user) == Ok(user)
  {
  }

  /** Roles that the database defines but the hierarchy does not know, such as
      "worker" and "user", fail every known required role. */
  lemma UnknownUserRoleFailsKnownRoles(user: UserDict, required: string)
    requires UserRole(user) !in {"admin", "operator", "viewer"}
    requires required in {"admin", "operator", "viewer"}
    ensures RoleChecker(required, user).Err?
  {
  }

  /** A dictionary without a role is checked as a viewer. */
  lemma MissingRoleIsViewer(user: UserDict, required: string)
    requires user.role.None?
    ensures RoleChecker(required, user).Ok? == RoleChecker(required, user.(role := Some("viewer"))).Ok?
    ensures RoleChecker(required, user).Ok? <==> RoleLevel(required) <= 1
  {
  }

  /** A token whose metadata has no role passes exactly the checks a viewer
      passes: the role defaults to "viewer" at verification. */
  lemma VerifiedUserWithoutRoleIsViewer(u: ProviderUser, required: string)
    requires "role" !in u.userMetadata
    ensures VerifyToken(Returned(Some(u))).Ok?
    ensures UserRole(VerifyToken(Returned(Some(u))).value) == "viewer"
    ensures RoleChecker(required, VerifyToken(Returned(Some(u))).value).Ok? <==> RoleLevel(required) <= 1
  {
  }

  // ---------------------------------------------------------------------
  // get_optional_user

  /** No credentials gives `None`; so does any failure of verification. */
  function GetOptionalUser(credentials: Option<string>, getUser: string -> ProviderResponse): (r: Option<UserDict>)
    ensures credentials.None? ==> r.None?
    ensures credentials.Some? && VerifyToken(getUser(credentials.value)).Err? ==> r.None?
    ensures credentials.Some? && VerifyToken(getUser(credentials.value)).Ok? ==> r == Some(VerifyToken(getUser(credentials.value)).value)
  {
    match credentials
    case None => None
    case Some(token) =>
      match VerifyToken(getUser(token))
      case Ok(user) => Some(user)
      case Err(_) => None
  }

  /** The optional dependency returns a user exactly when the mandatory one
      would, and the same user. */
  lemma OptionalAgreesWithMandatory(token: string, getUser: string -> ProviderResponse)
    ensures GetOptionalUser(Some(token), getUser).Some? <==> VerifyToken(getUser(token)).Ok?
    ensures GetOptionalUser(Some(token), getUser).Some? ==> GetOptionalUser(Some(token), getUser).value == VerifyToken(getUser(token)).value
  {
  }
}
