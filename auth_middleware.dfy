/** The two middlewares of middlewares/authMiddlewares.js.

    `protect` finds a token (the `Authorization` header first, the `jwt`
    cookie otherwise), verifies it, loads the user it names and attaches the
    user to the request; each failing step answers 401 with its own message.
    `authorize(...roles)` lets a request through when one of the required
    roles is exactly one of the user's roles, and answers 403 otherwise.

    Token verification (a JWT signature and expiry check) and the user lookup
    are oracles: `verify` gives the token's `id` claim or `None` where
    `jwt.verify` throws, and `findUser` gives the user, no user, or a fault
    where `User.findById` throws. */
module AuthMiddleware {
  import opened Common
  import opened Strings
  import opened UserModel
  import opened Http

  /** The answer of a store query that may also throw. */
  datatype Query<T> = Hit(value: T) | Miss | Fault

  const NotLoggedInMessage := "You are not logged in! Please log in to get access."
  const UserGoneMessage := "The user belonging to this token no longer exists."
  const InvalidTokenMessage := "Invalid token. Please log in again."

  /** The token `protect` uses. A header that starts with "Bearer" decides
      alone, by its second space-separated piece, even when that piece is
      missing; the cookie is used only otherwise, and only when truthy. */
  function ExtractToken(authorization: Option<string>, jwtCookie: Option<string>): Option<string>
  {
    if authorization.Some? && StartsWith(authorization.value, "Bearer") then
      var pieces := Split(authorization.value, ' ');
      if |pieces| > 1 then Some(pieces[1]) else None
    else if Truthy(jwtCookie) then jwtCookie
    else None
  }

  /** The outcome of `protect`'s chain of checks. */
  datatype Gate = NoToken | BadToken | UserGone | Admit(user: User)

  /** `protect`'s checks in their order: a token at all, then verification,
      then the user lookup (whose exception counts as a bad token). */
  function Authenticate(token: Option<string>, verify: string -> Option<string>, findUser: string -> Query<User>): Gate
  {
    if !Truthy(token) then NoToken
    else match verify(token.value)
      case None => BadToken
      case Some(id) =>
        match findUser(id)
        case Fault => BadToken
        case Miss => UserGone
        case Hit(u) => Admit(u)
  }

  function GateMessage(g: Gate): string
  {
    match g
    case NoToken => NotLoggedInMessage
    case UserGone => UserGoneMessage
    case BadToken => InvalidTokenMessage
    case Admit(_) => ""
  }

  /** `protect(req, res, next)`. It returns whether `next` was called. */
  method Protect<B>(req: Request<B>, res: Response, verify: string -> Option<string>, findUser: string -> Query<User>)
    returns (next: bool)
    modifies req`user, res`statusCode, res`body
    ensures var g := Authenticate(ExtractToken(req.authorization, req.jwtCookie), verify, findUser);
      && (next <==> g.Admit?)
      && (next ==> req.user == Some(g.user) && res.statusCode == old(res.statusCode) && res.body == old(res.body))
      && (!next ==> req.user == old(req.user) && res.statusCode == 401 && res.body == Some(FailBody(GateMessage(g))))
  {
    var token: Option<string> := None;
    if req.authorization.Some? && StartsWith(req.authorization.value, "Bearer") {
      var pieces := Split(req.authorization.value, ' ');
      if |pieces| > 1 {
        token := Some(pieces[1]);
      }
    } else if Truthy(req.jwtCookie) {
      token := req.jwtCookie;
    }

    if !Truthy(token) {
      res.Status(401);
      res.Json(FailBody(NotLoggedInMessage));
      return false;
    }

    var decoded := verify(token.value);
    if decoded.None? {
      res.Status(401);
      res.Json(FailBody(InvalidTokenMessage));
      return false;
    }
    var currentUser := findUser(decoded.value);
    match currentUser {
      case Fault =>
        res.Status(401);
        res.Json(FailBody(InvalidTokenMessage));
        return false;
      case Miss =>
        res.Status(401);
        res.Json(FailBody(UserGoneMessage));
        return false;
      case Hit(u) =>
        req.user := Some(u);
        return true;
    }
  }

  /** A header "Bearer <token>" as section 2.1 of RFC 6750 writes it gives
      back the token, whatever the cookie holds, provided the token has no
      space in it. */
  lemma BearerRoundTrip(token: string, jwtCookie: Option<string>)
    requires ' ' !in token
    ensures ExtractToken(Some("Bearer " + token), jwtCookie) == Some(token)
  {
    var h := "Bearer " + token;
    assert h == "Bearer" + [' '] + token;
    assert h[..6] == "Bearer";
    SplitAfterPiece("Bearer", ' ', token);
    SplitNoSeparator(token, ' ');
  }

  /** When the header starts with "Bearer" the cookie is never consulted:
      the token is the header's second piece, a string without a space, or
      nothing at all. */
  lemma BearerHeaderDecides(h: string, c1: Option<string>, c2: Option<string>)
    requires StartsWith(h, "Bearer")
    ensures ExtractToken(Some(h), c1) == ExtractToken(Some(h), c2)
    ensures ExtractToken(Some(h), c1).Some? ==> ' ' !in ExtractToken(Some(h), c1).value
    ensures ExtractToken(Some(h), c1).None? <==> ' ' !in h
  {
    var pieces := Split(h, ' ');
    JoinSplit(h, ' ');
    if |pieces| == 1 {
      assert h == pieces[0];
    } else {
      assert h == pieces[0] + [' '] + Join(pieces[1..], ' ');
      assert ' ' in h;
    }
  }

  /** The header's scheme is matched loosely: a bare "Bearer" gives no
      token even when a cookie is present. */
  lemma BareBearerGivesNothing(jwtCookie: Option<string>)
    ensures ExtractToken(Some("Bearer"), jwtCookie) == None
  {
    assert "Bearer"[..6] == "Bearer";
    SplitNoSeparator("Bearer", ' ');
  }

  /** Any text may follow "Bearer" before the space. */
  lemma AnyBearerPrefix(suffix: string, token: string, jwtCookie: Option<string>)
    requires ' ' !in suffix && ' ' !in token
    ensures ExtractToken(Some("Bearer" + suffix + " " + token), jwtCookie) == Some(token)
  {
    var h := "Bearer" + suffix + " " + token;
    assert h[..6] == "Bearer";
    assert h == ("Bearer" + suffix) + [' '] + token;
    SplitAfterPiece("Bearer" + suffix, ' ', token);
    SplitNoSeparator(token, ' ');
  }

  /** Two spaces after "Bearer" give the empty token, which counts as no
      token at all, even when a cookie is present. */
  lemma DoubleSpaceGivesEmpty(rest: string, jwtCookie: Option<string>)
    ensures ExtractToken(Some("Bearer  " + rest), jwtCookie) == Some("")
  {
    var h := "Bearer  " + rest;
    assert h[..6] == "Bearer";
    assert h == "Bearer" + [' '] + ("" + [' '] + rest);
    SplitAfterPiece("Bearer", ' ', "" + [' '] + rest);
    SplitAfterPiece("", ' ', rest);
  }

  /** The cookie is used only when the header is absent or does not start
      with "Bearer", and then only a non-empty one. */
  lemma CookieFallback(authorization: Option<string>, jwtCookie: Option<string>)
    requires authorization.None? || !StartsWith(authorization.value, "Bearer")
    ensures ExtractToken(authorization, jwtCookie) == (if Truthy(jwtCookie) then jwtCookie else None)
  {
  }

  /** `next` is reached exactly when a token is present, verifies, and names
      an existing user; otherwise each failure has its own message, and the
      not-logged-in case never reaches `verify` or the store. */
  lemma AuthenticateOrder(token: Option<string>, verify: string -> Option<string>, findUser: string -> Query<User>)
    ensures Authenticate(token, verify, findUser).Admit? <==>
            Truthy(token) && verify(token.value).Some? && findUser(verify(token.value).value).Hit?
    ensures !Truthy(token) ==> forall v, f :: Authenticate(token, v, f) == NoToken
    ensures Authenticate(token, verify, findUser) == UserGone <==>
            Truthy(token) && verify(token.value).Some? && findUser(verify(token.value).value).Miss?
  {
  }

  /** `Array.isArray(role) ? role : [role]`. */
  function UserRoles(role: RoleValue): seq<string>
  {
    match role
    case One(r) => [r]
    case Many(rs) => rs
  }

  /** `xs.includes(x)`: strict, case-sensitive string equality. */
  function Includes(xs: seq<string>, x: string): bool
  {
    if xs == [] then false else xs[0] == x || Includes(xs[1..], x)
  }

  /** `required.some(role => userRoles.includes(role))`. */
  function SomeIncluded(required: seq<string>, userRoles: seq<string>): bool
  {
    if required == [] then false
    else Includes(userRoles, required[0]) || SomeIncluded(required[1..], userRoles)
  }

  /** `authorize(...required)`'s decision for a user with `role`. */
  function HasAccess(required: seq<string>, role: RoleValue): bool
  {
    SomeIncluded(required, UserRoles(role))
  }

  lemma {:induction false} IncludesIff(xs: seq<string>, x: string)
    ensures Includes(xs, x) <==> exists j :: 0 <= j < |xs| && xs[j] == x
  {
    if xs != [] {
      IncludesIff(xs[1..], x);
      if Includes(xs[1..], x) {
        var j :| 0 <= j < |xs[1..]| && xs[1..][j] == x;
        assert xs[j + 1] == x;
      }
    }
  }

  lemma {:induction false} SomeIncludedIff(required: seq<string>, userRoles: seq<string>)
    ensures SomeIncluded(required, userRoles) <==>
            exists i, j :: 0 <= i < |required| && 0 <= j < |userRoles| && required[i] == userRoles[j]
  {
    if required != [] {
      SomeIncludedIff(required[1..], userRoles);
      IncludesIff(userRoles, required[0]);
      if SomeIncluded(required[1..], userRoles) {
        var i, j :| 0 <= i < |required[1..]| && 0 <= j < |userRoles| && required[1..][i] == userRoles[j];
        assert required[i + 1] == userRoles[j];
      }
      if exists i, j :: 0 <= i < |required| && 0 <= j < |userRoles| && required[i] == userRoles[j] {
        var i, j :| 0 <= i < |required| && 0 <= j < |userRoles| && required[i] == userRoles[j];
        if i > 0 {
          assert required[1..][i - 1] == userRoles[j];
        }
      }
    }
  }

  /** Access is granted exactly when the required roles and the user's
      roles, as sets of strings, intersect. */
  lemma HasAccessIsIntersection(required: seq<string>, role: RoleValue)
    ensures HasAccess(required, role) <==>
            (set r | r in required) * (set r | r in UserRoles(role)) != {}
  {
    var us := UserRoles(role);
    SomeIncludedIff(required, us);
    if HasAccess(required, role) {
      var i, j :| 0 <= i < |required| && 0 <= j < |us| && required[i] == us[j];
      assert required[i] in (set r | r in required) * (set r | r in us);
    }
    if (set r | r in required) * (set r | r in us) != {} {
      var x :| x in (set r | r in required) * (set r | r in us);
      var i :| 0 <= i < |required| && required[i] == x;
      var j :| 0 <= j < |us| && us[j] == x;
      assert required[i] == us[j];
    }
  }

  /** With no required roles everyone is refused; role names are compared
      case-sensitively; a single role counts as a one-element list. */
  lemma AuthorizeEdgeCases(role: RoleValue, r: string)
    ensures !HasAccess([], role)
    ensures !HasAccess(["USER", "ADMIN"], One("user")) && !HasAccess(["USER", "ADMIN"], One("admin"))
    ensures HasAccess([r], One(r)) && HasAccess([r], Many([r]))
    ensures HasAccess([r], role) <==> r in UserRoles(role)
  {
    assert [r][1..] == [];
    IncludesIff(UserRoles(role), r);
  }

  /** The 403 message renders the user's roles as JavaScript renders an
      array in a template literal: joined by commas. */
  function DenyMessage(userRoles: seq<string>): string
  {
    "User role " + Join(userRoles, ',') + " is not authorized to access this route"
  }

  /** The middleware `authorize(...roles)` returns, applied to a request
      that `protect` has already let through. It returns whether `next` was
      called; when it is, nothing is sent. */
  method Authorize<B>(roles: seq<string>, req: Request<B>, res: Response) returns (next: bool)
    requires req.user.Some?
    modifies res`statusCode, res`body
    ensures next <==> HasAccess(roles, req.user.value.role)
    ensures next ==> res.statusCode == old(res.statusCode) && res.body == old(res.body)
    ensures !next ==> res.statusCode == 403 && res.body == Some(FailBody(DenyMessage(UserRoles(req.user.value.role))))
  {
    var userRoles := UserRoles(req.user.value.role);
    var hasAccess := SomeIncluded(roles, userRoles);
    if !hasAccess {
      res.Status(403);
      res.Json(FailBody(DenyMessage(userRoles)));
      return false;
    }
    return true;
  }
}
