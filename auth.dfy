/**
 * The authentication routes: POST /api/auth (login) and GET /api/auth (the
 * current user). Both are pure decisions over a read-only user table; the
 * library calls they make are parameters: `isEmail` (express-validator's
 * email check), `matches` (bcrypt's `compare` of a plain password with a
 * stored hash) and the signing secret as `config.get('jwtSecret')` finds it
 * (absent when the key is not configured, which makes `config.get` throw),
 * while `jwt.sign` is the `Signed` constructor.
 */
module AuthRoutes {
  import opened Wrappers
  import opened Http

  /** A user's ObjectId, kept abstract. */
  type UserId = string

  /** A stored user; `password` is the salted hash. */
  datatype User = User(id: UserId, name: string, email: string, password: string, avatar: string)

  /** A user as `select('-password')` returns it. */
  datatype PublicUser = PublicUser(id: UserId, name: string, email: string, avatar: string)

  /** The users collection as the handler finds it: readable, or failing every query. */
  datatype UserTable = Reachable(users: seq<User>) | Unreachable

  /** The fields of `req.body` the login handler reads; each is absent or a string. */
  datatype LoginBody = LoginBody(email: Option<string>, password: Option<string>)

  /** The payload handed to `jwt.sign`: `{ user: { id } }`. */
  datatype PayloadUser = PayloadUser(id: UserId)
  datatype Payload = Payload(user: PayloadUser)

  /** `jwt.sign(payload, secret, { expiresIn })`, kept as the data it signs. */
  datatype Token = Signed(payload: Payload, secret: string, expiresIn: nat)

  /** The shape of a reply's body. */
  datatype AuthReply =
    | Errors(errors: seq<ErrorItem>)   // `{ errors: [...] }`
    | TokenJson(token: Token)          // `{ token }`
    | Text(text: string)               // a plain-text body
    | Msg(msg: string)                 // `{ msg: ... }`
    | UserJson(user: Option<PublicUser>)  // the user, or JSON `null`

  /** Token lifetime in seconds. */
  const TokenLifetime: nat := 360000

  const PasswordRequired: string := "Password required"
  const InvalidCredentialsMessage: string := "Invalid credentials"
  const TokenNotValid: string := "Token is not valid"

  /** The one reply for an unknown email and for a wrong password alike. */
  const InvalidCredentials: Response<AuthReply> := Response(400, Errors([Plain(InvalidCredentialsMessage)]))

  /** The position of the first user for which `p` holds, or `|users|` if none. */
  function FirstIndex(users: seq<User>, p: User -> bool): (i: nat)
    ensures i <= |users|
    ensures i < |users| ==> p(users[i])
    ensures forall j | 0 <= j < i :: !p(users[j])
  {
    if users == [] then 0
    else if p(users[0]) then 0
    else 1 + FirstIndex(users[1..], p)
  }

  /**
   * A single-document query (`findOne`, `findById`): the first user for which
   * `p` holds, or nothing when no user satisfies it.
   */
  function FindFirst(users: seq<User>, p: User -> bool): (r: Option<User>)
    ensures r.None? <==> forall i | 0 <= i < |users| :: !p(users[i])
    ensures r.Some? ==> p(r.value) && r.value in users
  {
    var i := FirstIndex(users, p);
    if i < |users| then Some(users[i]) else None
  }

  /** `User.findOne({ email })`. */
  function FindByEmail(users: seq<User>, email: string): Option<User> {
    FindFirst(users, (u: User) => u.email == email)
  }

  /** `User.findById(id)`. */
  function FindById(users: seq<User>, id: UserId): Option<User> {
    FindFirst(users, (u: User) => u.id == id)
  }

  /** `select('-password')`. */
  function WithoutPassword(u: User): PublicUser {
    PublicUser(u.id, u.name, u.email, u.avatar)
  }

  /**
   * `body('email').isEmail()` then `check('password').exists()`: an email that
   * is missing or rejected by `isEmail`, and a missing password, each give one
   * error, in that order.
   */
  function LoginValidation(req: LoginBody, isEmail: string -> bool): (errors: seq<ErrorItem>)
    ensures errors == [] <==> req.email.Some? && isEmail(req.email.value) && req.password.Some?
    ensures FieldError("email", InvalidValue) in errors <==> !(req.email.Some? && isEmail(req.email.value))
    ensures FieldError("password", PasswordRequired) in errors <==> req.password.None?
    ensures |errors| == (if req.email.Some? && isEmail(req.email.value) then 0 else 1) + (if req.password.Some? then 0 else 1)
    ensures !(req.email.Some? && isEmail(req.email.value)) ==> errors[0] == FieldError("email", InvalidValue)
  {
    (if req.email.Some? && isEmail(req.email.value) then [] else [FieldError("email", InvalidValue)]) +
    (if req.password.Some? then [] else [FieldError("password", PasswordRequired)])
  }

  /** The credentials name a stored user whose hash matches the password. */
  predicate Authenticates(req: LoginBody, users: seq<User>, matches: (string, string) -> bool) {
    req.email.Some? && req.password.Some? &&
    var found := FindByEmail(users, req.email.value);
    found.Some? && matches(req.password.value, found.value.password)
  }

  /**
   * The login handler: validation first (400 with the errors), then the
   * lookup (500 if the store fails), then the password check. An unknown
   * email and a wrong password give the same generic 400; a matching
   * password yields a token, whose payload is the user's id alone, unless
   * reading the secret throws, which the same `catch` answers with 500.
   */
  function Login(req: LoginBody, isEmail: string -> bool, table: UserTable,
                 matches: (string, string) -> bool, secret: Option<string>): (r: Response<AuthReply>)
    ensures LoginValidation(req, isEmail) != [] ==> r == Response(400, Errors(LoginValidation(req, isEmail)))
    ensures LoginValidation(req, isEmail) == [] && table.Unreachable? ==> r == Response(500, Text(ServerErrorText))
    ensures LoginValidation(req, isEmail) == [] && table.Reachable? && !Authenticates(req, table.users, matches) ==>
      r == InvalidCredentials
    ensures LoginValidation(req, isEmail) == [] && table.Reachable? && Authenticates(req, table.users, matches) && secret.None? ==>
      r == Response(500, Text(ServerErrorText))
    ensures r.body.TokenJson? <==>
      LoginValidation(req, isEmail) == [] && table.Reachable? && Authenticates(req, table.users, matches) && secret.Some?
    ensures r.body.TokenJson? ==>
      r == Response(200, TokenJson(Signed(Payload(PayloadUser(FindByEmail(table.users, req.email.value).value.id)), secret.value, TokenLifetime)))
  {
    var errors := LoginValidation(req, isEmail);
    if errors != [] then Response(400, Errors(errors))
    else if table.Unreachable? then Response(500, Text(ServerErrorText))
    else match FindByEmail(table.users, req.email.value)
      case None => Response(400, Errors([Plain(InvalidCredentialsMessage)]))
      case Some(user) =>
        if !matches(req.password.value, user.password) then Response(400, Errors([Plain(InvalidCredentialsMessage)]))
        else if secret.None? then Response(500, Text(ServerErrorText))
        else Response(200, TokenJson(Signed(Payload(PayloadUser(user.id)), secret.value, TokenLifetime)))
  }

  /** Validation comes before any lookup: its reply does not depend on the users or on the hashes. */
  lemma ValidationBeforeLookup(req: LoginBody, isEmail: string -> bool, t1: UserTable, t2: UserTable,
                               m1: (string, string) -> bool, m2: (string, string) -> bool, secret: Option<string>)
    requires LoginValidation(req, isEmail) != []
    ensures Login(req, isEmail, t1, m1, secret) == Login(req, isEmail, t2, m2, secret)
    ensures Login(req, isEmail, t1, m1, secret).status == 400
  {
  }

  /**
   * A failed login reveals nothing about the user table: whenever neither
   * table authenticates the request, the two replies are equal, whether the
   * email is unknown in one and known with another password in the other.
   */
  lemma FailedLoginsIndistinguishable(req: LoginBody, isEmail: string -> bool,
                                      users1: seq<User>, m1: (string, string) -> bool,
                                      users2: seq<User>, m2: (string, string) -> bool, secret: Option<string>)
    requires !Authenticates(req, users1, m1) && !Authenticates(req, users2, m2)
    ensures Login(req, isEmail, Reachable(users1), m1, secret) == Login(req, isEmail, Reachable(users2), m2, secret)
  {
  }

  /** An unknown email and a known email with a non-matching password get the same reply. */
  lemma UnknownEmailLooksLikeWrongPassword(email: string, password: string, isEmail: string -> bool,
                                           users1: seq<User>, users2: seq<User>,
                                           matches: (string, string) -> bool, secret: Option<string>)
    requires forall i | 0 <= i < |users1| :: users1[i].email != email
    requires FindByEmail(users2, email).Some? && !matches(password, FindByEmail(users2, email).value.password)
    ensures Login(LoginBody(Some(email), Some(password)), isEmail, Reachable(users1), matches, secret)
         == Login(LoginBody(Some(email), Some(password)), isEmail, Reachable(users2), matches, secret)
  {
    FailedLoginsIndistinguishable(LoginBody(Some(email), Some(password)), isEmail, users1, matches, users2, matches, secret);
  }

  /**
   * GET /api/auth with the request's `user` context (absent unless an
   * authentication middleware set it): 401 "Token is not valid" when the
   * context is absent or the lookup fails, otherwise 200 with the user
   * stripped of its password, or JSON `null` when no user has that id.
   */
  function CurrentUser(reqUser: Option<UserId>, table: UserTable): (r: Response<AuthReply>)
    ensures r.status == 401 <==> reqUser.None? || table.Unreachable?
    ensures r.status == 401 ==> r.body == Msg(TokenNotValid)
    ensures r.status != 401 ==> r.status == 200 && r.body.UserJson?
    ensures r.body.UserJson? && r.body.user.Some? ==>
      exists i | 0 <= i < |table.users| :: table.users[i].id == reqUser.value && r.body.user.value == WithoutPassword(table.users[i])
    ensures r.body.UserJson? && r.body.user.None? ==> forall i | 0 <= i < |table.users| :: table.users[i].id != reqUser.value
  {
    if reqUser.None? || table.Unreachable? then Response(401, Msg(TokenNotValid))
    else match FindById(table.users, reqUser.value)
      case None => Response(200, UserJson(None))
      case Some(u) => Response(200, UserJson(Some(WithoutPassword(u))))
  }

  /**
   * The route is mounted without the authentication middleware, so the
   * request's `user` is never set and every call is answered 401.
   */
  lemma UnguardedCurrentUserRejects(table: UserTable)
    ensures CurrentUser(None, table) == Response(401, Msg(TokenNotValid))
  {
  }
}
