/** services/authService.js: registration, login and the current-user
    lookup, and how a login's token later opens `protect`.

    Password hashing is an oracle: `matches(candidate, stored)` is
    `bcrypt.compare`. Comparing against a stored password that is
    `undefined` throws in bcryptjs, and so it does here. */
module AuthService {
  import opened Common
  import opened UserModel
  import opened Http
  import opened Store
  import opened AuthUtils
  import opened AuthMiddleware

  const ProvideMessage := "Please provide an email and password"
  const InvalidCredentialsMessage := "Invalid credentials"
  const IllegalArgumentsMessage := "Illegal arguments: string, undefined"

  /** `loginUser`'s checks in their order: both fields given, a user with
      that email, a stored password to compare with, and a match. */
  function Login(email: Option<string>, password: Option<string>, users: seq<User>,
                 matches: (string, string) -> bool): Result<User>
  {
    if !Truthy(email) || !Truthy(password) then Err(Thrown(ProvideMessage))
    else match FindByEmail(users, email.value)
      case None => Err(Thrown(InvalidCredentialsMessage))
      case Some(user) =>
        if user.password.None? then Err(Thrown(IllegalArgumentsMessage))
        else if !matches(password.value, user.password.value) then Err(Thrown(InvalidCredentialsMessage))
        else Ok(user)
  }

  /** A missing or empty email or password is refused before the store or
      the hash is consulted: the answer does not depend on either. */
  lemma LoginGuardsFirst(email: Option<string>, password: Option<string>, users: seq<User>, others: seq<User>,
                         matches: (string, string) -> bool, otherMatches: (string, string) -> bool)
    requires !Truthy(email) || !Truthy(password)
    ensures Login(email, password, users, matches) == Err(Thrown(ProvideMessage))
    ensures Login(email, password, users, matches) == Login(email, password, others, otherMatches)
  {
  }

  /** An unknown email and a wrong password fail alike, so a client cannot
      tell which one it got wrong. */
  lemma LoginFailuresIndistinguishable(email: string, password: string, users: seq<User>, matches: (string, string) -> bool,
                                       known: User)
    requires email != "" && password != ""
    requires FindByEmail(users, email) == Some(known) && known.password.Some?
    requires !matches(password, known.password.value)
    ensures Login(Some(email), Some(password), users, matches) ==
            Login(Some(email), Some(password), [], matches)
    ensures Login(Some(email), Some(password), users, matches) == Err(Thrown(InvalidCredentialsMessage))
  {
  }

  /** Login succeeds exactly when both fields are given, some user has the
      email, and the password matches the first such user's stored one;
      the user logged in is that user. */
  lemma LoginSucceedsIff(email: Option<string>, password: Option<string>, users: seq<User>, matches: (string, string) -> bool)
    ensures Login(email, password, users, matches).Ok? <==>
      && Truthy(email) && Truthy(password)
      && FindByEmail(users, email.value).Some?
      && FindByEmail(users, email.value).value.password.Some?
      && matches(password.value, FindByEmail(users, email.value).value.password.value)
    ensures Login(email, password, users, matches).Ok? ==>
      var user := Login(email, password, users, matches).value;
      user in users && user.email == email.value
  {
  }

  /** `loginUser(email, password, res)`: a failed check throws and nothing
      is sent; otherwise the token response is sent with 200. */
  method LoginUser(db: Db, email: Option<string>, password: Option<string>, res: Response,
                   matches: (string, string) -> bool, sign: string -> string,
                   now: int, expiresInDays: int, nodeEnv: Option<string>)
    returns (r: Result<()>)
    modifies res`cookies, res`statusCode, res`body
    ensures var login := Login(email, password, db.users, matches);
      && (login.Err? ==> r == Err(login.failure) && res.cookies == old(res.cookies)
                         && res.statusCode == old(res.statusCode) && res.body == old(res.body))
      && (login.Ok? ==> r == Ok(()) && res.statusCode == 200
                        && res.cookies == old(res.cookies) + [Cookie(CookieName, sign(login.value.id), TokenCookieOptions(now, expiresInDays, nodeEnv))]
                        && res.body == Some(TokenBody(sign(login.value.id), WithoutPassword(login.value))))
  {
    if !Truthy(email) || !Truthy(password) {
      return Err(Thrown(ProvideMessage));
    }
    var user := FindByEmail(db.users, email.value);
    if user.None? {
      return Err(Thrown(InvalidCredentialsMessage));
    }
    if user.value.password.None? {
      return Err(Thrown(IllegalArgumentsMessage));
    }
    var isMatch := matches(password.value, user.value.password.value);
    if !isMatch {
      return Err(Thrown(InvalidCredentialsMessage));
    }
    var _ := CreateSendToken(user.value, 200, res, sign, now, expiresInDays, nodeEnv);
    return Ok(());
  }

  /** `registerUser(userData)`: the user is stored and returned with its
      password cleared. */
  method RegisterUser(db: Db, userData: User) returns (user: User)
    modifies db`users
    ensures db.users == old(db.users) + [userData]
    ensures user == WithoutPassword(userData)
  {
    db.users := db.users + [userData];
    user := userData.(password := None);
  }

  /** `getCurrentUser(userId)`: the lookup's answer as it is, no user
      included. */
  function GetCurrentUser(users: seq<User>, userId: string): (r: Option<User>)
    ensures r.Some? ==> r.value in users && r.value.id == userId
    ensures r.None? <==> forall j :: 0 <= j < |users| ==> users[j].id != userId
  {
    FindById(users, userId)
  }

  /** The token a login sends opens `protect` for the same user, both as
      the `jwt` cookie and as a "Bearer" header, provided the signing and
      verification oracles agree on the `id` claim and the user is still
      there. */
  lemma LoginTokenOpensProtect(user: User, sign: string -> string, verify: string -> Option<string>,
                               findUser: string -> Query<User>, otherCookie: Option<string>)
    requires sign(user.id) != "" && ' ' !in sign(user.id)
    requires verify(sign(user.id)) == Some(user.id)
    requires findUser(user.id) == Hit(user)
    ensures Authenticate(ExtractToken(None, Some(sign(user.id))), verify, findUser) == Admit(user)
    ensures Authenticate(ExtractToken(Some("Bearer " + sign(user.id)), otherCookie), verify, findUser) == Admit(user)
  {
    BearerRoundTrip(sign(user.id), otherCookie);
  }
}
