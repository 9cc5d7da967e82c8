/** The login controller: look the user up by email, compare the password
    with the stored hash, sign a token over `{userId, role}`, set it as a
    cookie and answer; any exception on the way becomes a 500. The hash
    comparison and the token signer are parameters standing for the
    libraries that implement them. */
module Controllers {
  import opened Wrappers
  import opened Http

  /** A stored user: `_id`, `email`, the password hash and the role. */
  datatype UserRecord = UserRecord(id: string, email: string, passwordHash: string, role: string)

  /** The credentials of a request that passed validation. */
  datatype Credentials = Credentials(email: string, password: string)

  /** The JWT payload: the claims and nothing else. */
  datatype Claims = Claims(userId: string, role: string)

  /** Process configuration: `JWT_SECRET` and `NODE_ENV`, each possibly unset. */
  datatype Config = Config(jwtSecret: Option<string>, nodeEnv: Option<string>)

  /** The token's validity window, seven days, in seconds. */
  const TokenLifetimeSeconds: nat := 7 * 24 * 60 * 60
  /** The cookie's `maxAge`: seven days in milliseconds. */
  const CookieMaxAgeMs: nat := 7 * 24 * 60 * 60 * 1000

  /** Every record is stored under its own email, as a query by email
      only ever returns a document with that email. */
  ghost predicate KeyedByEmail(users: map<string, UserRecord>)
  {
    forall e :: e in users ==> users[e].email == e
  }

  /** The user collection. `lookups` records the email of every read, so
      that what the login flow reads can be stated; nothing here writes
      `users`. */
  class UserCollection {
    var users: map<string, UserRecord>
    var reachable: bool
    ghost var lookups: seq<string>

    ghost predicate Valid()
      reads this
    {
      KeyedByEmail(users)
    }

    constructor (users: map<string, UserRecord>, reachable: bool)
      requires KeyedByEmail(users)
      ensures Valid()
      ensures this.users == users && this.reachable == reachable && lookups == []
    {
      this.users := users;
      this.reachable := reachable;
      lookups := [];
    }

    /** Look up one user by exact email: that user, none, or a thrown
        error when the database cannot be reached. */
    method FindOne(email: string) returns (r: Result<Option<UserRecord>>)
      requires Valid()
      modifies this`lookups
      ensures Valid()
      ensures lookups == old(lookups) + [email]
      ensures r.Ok? && r.value.Some? ==> r.value.value.email == email
      ensures r == if !reachable then Thrown
                   else if email in users then Ok(Some(users[email])) else Ok(None)
    {
      lookups := lookups + [email];
      if !reachable {
        r := Thrown;
      } else if email in users {
        r := Ok(Some(users[email]));
      } else {
        r := Ok(None);
      }
    }
  }

  /** The 401 answer, shared by the unknown-email and wrong-password paths. */
  const InvalidCredentials: Response := Response(401, Envelope(401, "Invalid email or password", None), None)

  /** The catch-all answer. */
  const InternalError: Response := Response(500, Envelope(500, "Internal server error", None), None)

  /** The session cookie set on a successful login. */
  function SessionCookie(token: string, config: Config): (c: Cookie)
    ensures c.name == "token" && c.value == token
    ensures c.httpOnly && c.sameSite == "strict"
    ensures c.secure <==> config.nodeEnv == Some("production")
    ensures c.maxAge == TokenLifetimeSeconds * 1000
  {
    Cookie("token", token, true, config.nodeEnv == Some("production"), "strict", CookieMaxAgeMs)
  }

  /** The answer `loginController` gives, as a function of the stored users,
      whether the database is reachable, the credentials and the two
      library functions. */
  function LoginResponse(users: map<string, UserRecord>, reachable: bool, creds: Credentials,
                         compare: (string, string) -> Result<bool>,
                         sign: (Claims, Option<string>, nat) -> Result<string>,
                         config: Config): (r: Response)
    ensures r.status in {200, 401, 500}
    ensures r.cookie.Some? <==> r.status == 200
    ensures r.status == 401 ==> r == InvalidCredentials
    ensures r.status == 500 ==> r == InternalError
    ensures r.status == 401 <==>
              reachable && (creds.email !in users || compare(creds.password, users[creds.email].passwordHash) == Ok(false))
    ensures r.status == 200 <==>
              && reachable && creds.email in users
              && compare(creds.password, users[creds.email].passwordHash) == Ok(true)
              && sign(Claims(users[creds.email].id, users[creds.email].role), config.jwtSecret, TokenLifetimeSeconds).Ok?
    ensures r.status == 200 && KeyedByEmail(users) ==>
              r.body.Envelope? && r.body.data.Some? && r.body.data.value.email == creds.email
    ensures r.status == 200 ==>
              var user := users[creds.email];
              && r.body == Envelope(200, "Login successful", Some(PublicUser(user.id, user.email, user.role)))
              && r.cookie == Some(SessionCookie(sign(Claims(user.id, user.role), config.jwtSecret, TokenLifetimeSeconds).value, config))
  {
    if !reachable then InternalError
    else if creds.email !in users then InvalidCredentials
    else
      var user := users[creds.email];
      match compare(creds.password, user.passwordHash)
      case Thrown => InternalError
      case Ok(isMatch) =>
        if !isMatch then InvalidCredentials
        else
          match sign(Claims(user.id, user.role), config.jwtSecret, TokenLifetimeSeconds)
          case Thrown => InternalError
          case Ok(token) =>
            Response(200, Envelope(200, "Login successful", Some(PublicUser(user.id, user.email, user.role))), Some(SessionCookie(token, config)))
  }

  /** `loginController(req, res)`: one read of the collection, keyed by the
      request's email, then the step-by-step construction of the answer. */
  method LoginController(db: UserCollection, creds: Credentials,
                         compare: (string, string) -> Result<bool>,
                         sign: (Claims, Option<string>, nat) -> Result<string>,
                         config: Config) returns (res: Response)
    requires db.Valid()
    modifies db`lookups
    ensures db.Valid()
    ensures db.lookups == old(db.lookups) + [creds.email]
    ensures res.status == 200 ==> res.body.Envelope? && res.body.data.Some? && res.body.data.value.email == creds.email
    ensures res == LoginResponse(db.users, db.reachable, creds, compare, sign, config)
  {
    // Look the user up.
    var found := db.FindOne(creds.email);
    if found.Thrown? {
      return InternalError;
    }
    if found.value.None? {
      return InvalidCredentials;
    }
    var user := found.value.value;
    // Check the password against the stored hash.
    var isPasswordMatch := compare(creds.password, user.passwordHash);
    if isPasswordMatch.Thrown? {
      return InternalError;
    }
    if !isPasswordMatch.value {
      return InvalidCredentials;
    }
    // Sign a token over the user's id and role only.
    var payload := Claims(user.id, user.role);
    var token := sign(payload, config.jwtSecret, TokenLifetimeSeconds);
    if token.Thrown? {
      return InternalError;
    }
    // Set the cookie, then write the 200 answer.
    var cookie := Some(SessionCookie(token.value, config));
    res := Response(200, Envelope(200, "Login successful", Some(PublicUser(user.id, user.email, user.role))), cookie);
  }

  /** An unknown email and a wrong password give the very same answer. */
  lemma UnknownAndWrongPasswordIndistinguishable(
    users: map<string, UserRecord>, creds: Credentials, users': map<string, UserRecord>, creds': Credentials,
    compare: (string, string) -> Result<bool>, sign: (Claims, Option<string>, nat) -> Result<string>, config: Config)
    requires creds.email !in users
    requires creds'.email in users' && compare(creds'.password, users'[creds'.email].passwordHash) == Ok(false)
    ensures LoginResponse(users, true, creds, compare, sign, config)
         == LoginResponse(users', true, creds', compare, sign, config)
    ensures LoginResponse(users, true, creds, compare, sign, config) == InvalidCredentials
  {
  }

  /** The stored hash does not reach the answer: two stores that differ
      only in the hash of the requested user, with the comparison giving
      the same verdict on both, answer alike. */
  lemma HashNotDisclosed(users: map<string, UserRecord>, reachable: bool, creds: Credentials,
                         otherHash: string,
                         compare: (string, string) -> Result<bool>,
                         sign: (Claims, Option<string>, nat) -> Result<string>, config: Config)
    requires creds.email in users
    requires compare(creds.password, otherHash) == compare(creds.password, users[creds.email].passwordHash)
    ensures LoginResponse(users[creds.email := users[creds.email].(passwordHash := otherHash)],
                          reachable, creds, compare, sign, config)
         == LoginResponse(users, reachable, creds, compare, sign, config)
  {
  }
}
