/** utils/authUtils.js: minting a token and sending it back to the client
    as both a cookie and a JSON body.

    Signing is an oracle `sign` from the document `_id` to a token string
    (a JWT carrying the claim `{ id }`, section 4 of RFC 7519); the clock,
    `JWT_COOKIE_EXPIRES` and `NODE_ENV` are parameters. */
module AuthUtils {
  import opened Common
  import opened UserModel
  import opened Http

  /** The name of the session cookie, the one `protect` falls back to. */
  const CookieName := "jwt"

  /** The moment the cookie expires: `JWT_COOKIE_EXPIRES` days after `now`,
      in milliseconds. */
  function CookieExpiry(now: int, expiresInDays: int): (expires: int)
    ensures expires - now == expiresInDays * MillisPerDay
    ensures expiresInDays > 0 <==> expires > now
  {
    now + expiresInDays * 24 * 60 * 60 * 1000
  }

  /** The cookie's options: always `httpOnly`, and `secure` exactly when
      `NODE_ENV` is the string "production". */
  function TokenCookieOptions(now: int, expiresInDays: int, nodeEnv: Option<string>): (o: CookieOptions)
    ensures o.httpOnly
    ensures o.secure <==> nodeEnv == Some("production")
    ensures o.expires == CookieExpiry(now, expiresInDays)
  {
    CookieOptions(CookieExpiry(now, expiresInDays), true, nodeEnv == Some("production"))
  }

  /** The user as sent to a client: every field kept except the password. */
  function WithoutPassword(user: User): (r: User)
    ensures r.password.None?
    ensures r.(password := user.password) == user
  {
    user.(password := None)
  }

  /** `createSendToken(user, statusCode, res)`. It returns the user as it
      was sent, password cleared. */
  method CreateSendToken(user: User, statusCode: int, res: Response, sign: string -> string,
                         now: int, expiresInDays: int, nodeEnv: Option<string>)
    returns (sent: User)
    modifies res`cookies, res`statusCode, res`body
    ensures sent == WithoutPassword(user)
    ensures res.cookies == old(res.cookies) + [Cookie(CookieName, sign(user.id), TokenCookieOptions(now, expiresInDays, nodeEnv))]
    ensures res.statusCode == statusCode
    ensures res.body == Some(TokenBody(sign(user.id), sent))
  {
    var token := sign(user.id);
    var cookieOptions := CookieOptions(now + expiresInDays * 24 * 60 * 60 * 1000, true, nodeEnv == Some("production"));
    res.SetCookie(CookieName, token, cookieOptions);
    sent := user.(password := None);
    res.Status(statusCode);
    res.Json(TokenBody(token, sent));
  }
}
