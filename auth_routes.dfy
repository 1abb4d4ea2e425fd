/**
 * The authentication blueprint: signup, signin, logout and the forgot-password
 * placeholder. The user lookup, the password check, the insert and the token
 * issuer are inputs.
 */
module AuthRoutes {
  import opened Wrappers
  import opened PyValue
  import opened Http
  import Text
  import UserRoutes

  /**
   * signup: all three fields must be truthy (400), the email must be free
   * (409), and the user is created verified; the insert's id picks 201 or 500.
   */
  function Signup(json: Value, emailTaken: Value -> bool,
                  create: (Value, Value, Value, bool) -> Value): (r: Reply)
    ensures !json.Dict? ==> r == Crash
    ensures json.Dict? ==>
      (r == Json(400, "Missing required fields")
       <==> !Truthy(Get(json.entries, "username")) || !Truthy(Get(json.entries, "email"))
            || !Truthy(Get(json.entries, "password")))
    ensures r == Json(409, "User with this email already exists") <==>
      && json.Dict?
      && Truthy(Get(json.entries, "username")) && Truthy(Get(json.entries, "email"))
      && Truthy(Get(json.entries, "password")) && emailTaken(Get(json.entries, "email"))
    ensures Code(r) == 201 <==>
      && json.Dict?
      && Truthy(Get(json.entries, "username")) && Truthy(Get(json.entries, "email"))
      && Truthy(Get(json.entries, "password")) && !emailTaken(Get(json.entries, "email"))
      && Truthy(create(Get(json.entries, "username"), Get(json.entries, "email"),
                       Get(json.entries, "password"), true))
    ensures r == Json(500, "Database error during signup") <==>
      && json.Dict?
      && Truthy(Get(json.entries, "username")) && Truthy(Get(json.entries, "email"))
      && Truthy(Get(json.entries, "password")) && !emailTaken(Get(json.entries, "email"))
      && !Truthy(create(Get(json.entries, "username"), Get(json.entries, "email"),
                        Get(json.entries, "password"), true))
  {
    match BodyDict(json)
    case None => Crash
    case Some(data) =>
      var username := Get(data, "username");
      var email := Get(data, "email");
      var password := Get(data, "password");
      if !(Truthy(username) && Truthy(email) && Truthy(password)) then Json(400, "Missing required fields")
      else if emailTaken(email) then Json(409, "User with this email already exists")
      else if Truthy(create(username, email, password, true)) then
        Json(201, "User created successfully. Please log in.")
      else Json(500, "Database error during signup")
  }

  /** With the email already registered, the insert is never consulted: any insert gives the same answer. */
  lemma SignupTakenCreatesNothing(json: Value, emailTaken: Value -> bool,
                                  create1: (Value, Value, Value, bool) -> Value,
                                  create2: (Value, Value, Value, bool) -> Value)
    requires json.Dict? && emailTaken(Get(json.entries, "email"))
    ensures Signup(json, emailTaken, create1) == Signup(json, emailTaken, create2)
  {
  }

  /** A users row as find_user_by_email returns it. */
  datatype UserRow = UserRow(userId: int, passwordHash: Value, username: Value, email: Value, role: Value)

  datatype SigninReply =
    | SigninFailed(reply: Reply)
    | SigninOk(identity: string, token: string, id: int, username: Value, email: Value, role: Value)

  const BadCredentials: string := "Invalid email or password"

  /**
   * signin: missing fields are 400; a known email with a matching password is
   * 200 with a token for identity str(user_id); an unknown email and a wrong
   * password get the same 401.
   */
  function Signin(json: Value, findByEmail: Value -> Option<UserRow>, verify: (Value, Value) -> bool,
                  issue: string -> string): (r: SigninReply)
    ensures !json.Dict? ==> r == SigninFailed(Crash)
    ensures json.Dict? ==>
      (r == SigninFailed(Json(400, "Missing email or password"))
       <==> !Truthy(Get(json.entries, "email")) || !Truthy(Get(json.entries, "password")))
    ensures json.Dict? && Truthy(Get(json.entries, "email")) && Truthy(Get(json.entries, "password")) ==>
      var user := findByEmail(Get(json.entries, "email"));
      && (user.None? ==> r == SigninFailed(Json(401, BadCredentials)))
      && (user.Some? && !verify(user.value.passwordHash, Get(json.entries, "password")) ==>
            r == SigninFailed(Json(401, BadCredentials)))
    ensures json.Dict? && Truthy(Get(json.entries, "email")) && Truthy(Get(json.entries, "password"))
            && findByEmail(Get(json.entries, "email")).Some?
            && verify(findByEmail(Get(json.entries, "email")).value.passwordHash, Get(json.entries, "password")) ==>
      r.SigninOk?
    ensures r.SigninOk? ==>
      && json.Dict?
      && var user := findByEmail(Get(json.entries, "email"));
      && user.Some? && verify(user.value.passwordHash, Get(json.entries, "password"))
      && r.identity == Text.IntToString(user.value.userId) && r.token == issue(r.identity)
      && r.id == user.value.userId && r.username == user.value.username
      && r.email == user.value.email && r.role == user.value.role
  {
    match BodyDict(json)
    case None => SigninFailed(Crash)
    case Some(data) =>
      var email := Get(data, "email");
      var password := Get(data, "password");
      if !(Truthy(email) && Truthy(password)) then SigninFailed(Json(400, "Missing email or password"))
      else match findByEmail(email)
        case None => SigninFailed(Json(401, BadCredentials))
        case Some(user) =>
          if !verify(user.passwordHash, password) then SigninFailed(Json(401, BadCredentials))
          else
            var identity := Text.IntToString(user.userId);
            SigninOk(identity, issue(identity), user.userId, user.username, user.email, user.role)
  }

  /** A token issued at signin passes token_required with the signed-in user's id. */
  lemma SigninIdentityRoundTrip(json: Value, findByEmail: Value -> Option<UserRow>, verify: (Value, Value) -> bool,
                                issue: string -> string, route: int -> Reply)
    requires Signin(json, findByEmail, verify, issue).SigninOk?
    ensures var r := Signin(json, findByEmail, verify, issue);
      UserRoutes.TokenRequired(UserRoutes.JwtAccepted(Str(r.identity)), route) == route(r.id)
  {
    var r := Signin(json, findByEmail, verify, issue);
    UserRoutes.IssuedIdentityAccepted(r.id, route);
  }

  /** logout: the server keeps no session, so it always succeeds. */
  function Logout(): (r: Reply)
    ensures Code(r) == 200
  {
    Json(200, "Logged out successfully")
  }

  const ResetSent: string := "If the email is registered, a password reset link has been sent."

  /** forgot_password: a truthy email always gets the same answer, registered or not. */
  function ForgotPassword(json: Value): (r: Reply)
    ensures !json.Dict? ==> r == Crash
    ensures json.Dict? && !Truthy(Get(json.entries, "email")) ==> r == Json(400, "Email is required")
    ensures json.Dict? && Truthy(Get(json.entries, "email")) ==> r == Json(200, ResetSent)
  {
    match BodyDict(json)
    case None => Crash
    case Some(data) =>
      if !Truthy(Get(data, "email")) then Json(400, "Email is required") else Json(200, ResetSent)
  }
}
