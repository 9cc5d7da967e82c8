/** `POST /login`: the validator runs first and the controller only when
    the validator calls `next()`. */
module Routes {
  import opened Wrappers
  import opened Http
  import Middleware
  import Controllers

  /** The answer to a login request, validator then controller. */
  function PostLoginResponse(users: map<string, Controllers.UserRecord>, reachable: bool,
                             body: Middleware.LoginBody, isEmail: string -> bool,
                             compare: (string, string) -> Result<bool>,
                             sign: (Controllers.Claims, Option<string>, nat) -> Result<string>,
                             config: Controllers.Config): (r: Response)
    ensures r.status in {200, 400, 401, 500}
    ensures r.status == 400 <==> Middleware.SchemaErrors(body, isEmail) != []
    ensures r.status == 400 ==> r == Response(400, ValidationFailure(false, Middleware.SchemaErrors(body, isEmail)), None)
    ensures r.cookie.Some? <==> r.status == 200
    ensures r.status == 200 && Controllers.KeyedByEmail(users) ==>
              r.body.Envelope? && r.body.data.Some? && Some(r.body.data.value.email) == body.email
    ensures r.status != 400 ==>
              && body.email.Some? && body.password.Some?
              && r == Controllers.LoginResponse(users, reachable,
                                                Controllers.Credentials(body.email.value, body.password.value),
                                                compare, sign, config)
  {
    match Middleware.LoginValidation(body, isEmail)
    case Reply(response) => response
    case Next =>
      Controllers.LoginResponse(users, reachable, Controllers.Credentials(body.email.value, body.password.value),
                                compare, sign, config)
  }

  /** The login route: the validator, then the controller. A request the
      validator turns away never reaches the collection. */
  method PostLogin(db: Controllers.UserCollection, body: Middleware.LoginBody, isEmail: string -> bool,
                   compare: (string, string) -> Result<bool>,
                   sign: (Controllers.Claims, Option<string>, nat) -> Result<string>,
                   config: Controllers.Config) returns (res: Response)
    requires db.Valid()
    modifies db`lookups
    ensures db.Valid()
    ensures res.status == 200 ==> res.body.Envelope? && res.body.data.Some? && Some(res.body.data.value.email) == body.email
    ensures res == PostLoginResponse(db.users, db.reachable, body, isEmail, compare, sign, config)
    ensures Middleware.LoginValidation(body, isEmail).Reply? ==> db.lookups == old(db.lookups)
    ensures Middleware.LoginValidation(body, isEmail).Next? ==>
              body.email.Some? && db.lookups == old(db.lookups) + [body.email.value]
  {
    var outcome := Middleware.LoginValidation(body, isEmail);
    match outcome
    case Reply(response) =>
      res := response;
    case Next =>
      res := Controllers.LoginController(db, Controllers.Credentials(body.email.value, body.password.value),
                                         compare, sign, config);
  }

  /** A registered administrator with the right password is let in, with
      the administrator role in the answer and a session cookie. */
  lemma AdminLogsIn(users: map<string, Controllers.UserRecord>, isEmail: string -> bool,
                    compare: (string, string) -> Result<bool>,
                    sign: (Controllers.Claims, Option<string>, nat) -> Result<string>,
                    config: Controllers.Config)
    requires "admin@gmail.com" in users && users["admin@gmail.com"].role == "admin"
    requires isEmail("admin@gmail.com")
    requires compare("admin123", users["admin@gmail.com"].passwordHash) == Ok(true)
    requires sign(Controllers.Claims(users["admin@gmail.com"].id, "admin"), config.jwtSecret, Controllers.TokenLifetimeSeconds).Ok?
    ensures var r := PostLoginResponse(users, true, Middleware.LoginBody(Some("admin@gmail.com"), Some("admin123")),
                                       isEmail, compare, sign, config);
            r.status == 200 && r.body.Envelope? && r.body.data.Some? && r.body.data.value.role == "admin"
            && r.cookie.Some?
  {
  }

  /** An email nobody registered is turned away with 401 and no cookie,
      whatever password passes validation. */
  lemma UnknownUserTurnedAway(users: map<string, Controllers.UserRecord>, isEmail: string -> bool,
                              password: Middleware.FieldValue,
                              compare: (string, string) -> Result<bool>,
                              sign: (Controllers.Claims, Option<string>, nat) -> Result<string>,
                              config: Controllers.Config)
    requires "nouser@x.com" !in users && isEmail("nouser@x.com")
    requires |password| >= Middleware.MinPasswordLength
    ensures PostLoginResponse(users, true, Middleware.LoginBody(Some("nouser@x.com"), Some(password)),
                              isEmail, compare, sign, config)
         == Controllers.InvalidCredentials
  {
  }

  /** A malformed request is answered by the validator with both messages. */
  lemma MalformedRequestRejected(users: map<string, Controllers.UserRecord>, reachable: bool,
                                 isEmail: string -> bool,
                                 compare: (string, string) -> Result<bool>,
                                 sign: (Controllers.Claims, Option<string>, nat) -> Result<string>,
                                 config: Controllers.Config)
    requires !isEmail("bad-email")
    ensures PostLoginResponse(users, reachable, Middleware.LoginBody(Some("bad-email"), Some("123")),
                              isEmail, compare, sign, config)
         == Response(400, ValidationFailure(false, [Middleware.EmailInvalid, Middleware.PasswordTooShort]), None)
  {
    Middleware.BadEmailShortPassword(isEmail);
  }
}
