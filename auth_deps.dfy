/**
 * The request authentication of the backend (backend/src/backend/auth/deps.py): the chain of
 * checks of `get_current_user` and the role gate of `check_role`. Decoding of the JWT is a
 * parameter; the user table is a list.
 */
module AuthDeps {
  import opened Wrappers

  /** A claim value of a decoded token: a string, or any other JSON value. */
  datatype Claim = StrClaim(text: string) | OtherClaim

  datatype UserRole = Admin | Role(name: string)

  datatype User = User(id: int, email: string, role: UserRole)

  datatype HttpError = HttpError(status: int, detail: string)

  const Unauthorized: HttpError := HttpError(401, "Could not validate credentials")
  const Forbidden: HttpError := HttpError(403, "Not enough permissions")

  /** `select(User).where(User.email == email)...first()`. */
  function FirstWithEmail(users: seq<User>, email: string): (r: Option<User>)
    ensures r.Some? ==> r.value in users && r.value.email == email
    ensures r.None? <==> forall k :: 0 <= k < |users| ==> users[k].email != email
  {
    if |users| == 0 then None
    else if users[0].email == email then Some(users[0])
    else FirstWithEmail(users[1..], email)
  }

  /** The string `sub` claim of a payload, if it has one. */
  function Subject(payload: map<string, Claim>): Option<string> {
    if "sub" in payload && payload["sub"].StrClaim? then Some(payload["sub"].text) else None
  }

  /**
   * `get_current_user`: a token that does not decode, a `sub` that is missing or not a string,
   * or no user with that email all give 401; otherwise the user whose email is `sub`.
   */
  function GetCurrentUser(token: string, decode: string -> Option<map<string, Claim>>, users: seq<User>): (r: Result<User, HttpError>)
    ensures decode(token).None? ==> r == Err(Unauthorized)
    ensures decode(token).Some? && Subject(decode(token).value).None? ==> r == Err(Unauthorized)
    ensures r.Err? ==> r.error == Unauthorized
    ensures r.Ok? <==> decode(token).Some? && Subject(decode(token).value).Some? &&
                       exists k :: 0 <= k < |users| && users[k].email == Subject(decode(token).value).value
    ensures r.Ok? ==> r.value in users && Some(r.value.email) == Subject(decode(token).value)
  {
    match decode(token)
    case None => Err(Unauthorized)
    case Some(payload) =>
      match Subject(payload)
      case None => Err(Unauthorized)
      case Some(email) =>
        match FirstWithEmail(users, email)
        case None => Err(Unauthorized)
        case Some(user) => Ok(user)
  }

  /** `check_role(required)`: the user passes when it has the required role or is an admin. */
  function CheckRole(required: UserRole, user: User): (r: Result<User, HttpError>)
    ensures r.Ok? <==> user.role == required || user.role == Admin
    ensures r.Ok? ==> r.value == user
    ensures r.Err? ==> r.error == Forbidden
  {
    if user.role != required && user.role != Admin then Err(Forbidden) else Ok(user)
  }

  /** The dependency chain of a role-guarded route: authentication first, then the role. An
      admin passes every role gate; a failed authentication is reported as 401, never 403. */
  lemma GuardedRoute(token: string, decode: string -> Option<map<string, Claim>>, users: seq<User>, required: UserRole)
    ensures var u := GetCurrentUser(token, decode, users);
      u.Err? ==> u.error.status == 401
    ensures var u := GetCurrentUser(token, decode, users);
      u.Ok? && u.value.role == Admin ==> CheckRole(required, u.value) == Ok(u.value)
    ensures var u := GetCurrentUser(token, decode, users);
      u.Ok? && u.value.role != Admin && u.value.role != required ==> CheckRole(required, u.value).error.status == 403
  {
  }
}
