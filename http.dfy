/** The parts of Express's request and response objects that the core reads
    and writes. Both are updated in place by middlewares and handlers. */
module Http {
  import opened Common
  import opened UserModel
  import opened BookingModel
  import opened PropertyModel

  /** The `data` member of a `{ success: true, data }` body. */
  datatype Data = BookingData(booking: Booking) | PropertyData(property: Property) | EmptyData

  /** The JSON bodies the core sends. */
  datatype Payload =
    | FailBody(message: string)              // { status: 'fail', message }
    | SuccessBody(data: Data)                // { success: true, data }
    | TokenBody(token: string, user: User)   // { status: 'success', token, data: { user } }

  datatype CookieOptions = CookieOptions(expires: int, httpOnly: bool, secure: bool)

  datatype Cookie = Cookie(name: string, value: string, options: CookieOptions)

  /** `req`: the `Authorization` header, the `jwt` cookie, the `:id`
      parameter of the matched route, the authenticated user and the body. */
  class Request<B> {
    var authorization: Option<string>
    var jwtCookie: Option<string>
    var routeId: Option<string>
    var user: Option<User>
    var body: B

    constructor (authorization: Option<string>, jwtCookie: Option<string>, routeId: Option<string>, body: B)
      ensures this.authorization == authorization && this.jwtCookie == jwtCookie
      ensures this.routeId == routeId && this.body == body && user == None
    {
      this.authorization := authorization;
      this.jwtCookie := jwtCookie;
      this.routeId := routeId;
      this.body := body;
      user := None;
    }
  }

  /** `res`: the status code, the JSON body once sent, and the cookies set. */
  class Response {
    var statusCode: int
    var body: Option<Payload>
    var cookies: seq<Cookie>

    constructor ()
      ensures statusCode == 200 && body == None && cookies == []
    {
      statusCode := 200;
      body := None;
      cookies := [];
    }

    /** `res.status(code)`. */
    method Status(code: int)
      modifies this`statusCode
      ensures statusCode == code
    {
      statusCode := code;
    }

    /** `res.json(payload)`. */
    method Json(payload: Payload)
      modifies this`body
      ensures body == Some(payload)
    {
      body := Some(payload);
    }

    /** `res.cookie(name, value, options)`: one more Set-Cookie. */
    method SetCookie(name: string, value: string, options: CookieOptions)
      modifies this`cookies
      ensures cookies == old(cookies) + [Cookie(name, value, options)]
    {
      cookies := cookies + [Cookie(name, value, options)];
    }
  }
}
