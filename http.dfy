/** The parts of an Express response the login route writes: a status, a
    JSON body and at most one cookie. */
module Http {
  import opened Wrappers

  /** The user fields a successful login discloses. */
  datatype PublicUser = PublicUser(id: string, email: string, role: string)

  /** The two JSON body shapes: the `{statusCode, message, data}` envelope
      of the controller and the `{success, errors}` body of the validator. */
  datatype Body =
    | Envelope(statusCode: int, message: string, data: Option<PublicUser>)
    | ValidationFailure(success: bool, errors: seq<string>)

  datatype Cookie = Cookie(name: string, value: string, httpOnly: bool, secure: bool,
                           sameSite: string, maxAge: int)

  datatype Response = Response(status: int, body: Body, cookie: Option<Cookie>)
}
