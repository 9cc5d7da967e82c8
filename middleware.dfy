/** The login request validator: a schema of four rules checked without
    stopping at the first failure, then either a 400 response or a call
    to the next handler. */
module Middleware {
  import opened Wrappers
  import opened Http

  /** A field value the validator is given: a non-empty string. */
  type FieldValue = s: string | |s| > 0 witness "?"

  /** The request body; an absent key is `None`. */
  datatype LoginBody = LoginBody(email: Option<FieldValue>, password: Option<FieldValue>)

  /** What the middleware does: answer the request itself, or call `next()`. */
  datatype Outcome = Reply(response: Response) | Next

  const EmailRequired := "Email is required"
  const EmailInvalid := "Email must be valid"
  const PasswordRequired := "Password is required"
  const PasswordTooShort := "Password must be at least 6 characters"
  const MinPasswordLength := 6

  /** The `email` rule: required, then an email address. */
  function EmailErrors(email: Option<FieldValue>, isEmail: string -> bool): (errors: seq<string>)
    ensures |errors| <= 1
    ensures errors == [EmailRequired] <==> email.None?
    ensures errors == [EmailInvalid] <==> email.Some? && !isEmail(email.value)
    ensures errors == [] <==> email.Some? && isEmail(email.value)
  {
    match email
    case None => [EmailRequired]
    case Some(e) => if isEmail(e) then [] else [EmailInvalid]
  }

  /** The `password` rule: required, then at least six characters. */
  function PasswordErrors(password: Option<FieldValue>): (errors: seq<string>)
    ensures |errors| <= 1
    ensures errors == [PasswordRequired] <==> password.None?
    ensures errors == [PasswordTooShort] <==> password.Some? && |password.value| < MinPasswordLength
    ensures errors == [] <==> password.Some? && |password.value| >= MinPasswordLength
  {
    match password
    case None => [PasswordRequired]
    case Some(p) => if |p| >= MinPasswordLength then [] else [PasswordTooShort]
  }

  /** The messages of a validation that does not stop at the first
      failure: every violated rule reported, email first, then password. */
  function SchemaErrors(body: LoginBody, isEmail: string -> bool): (errors: seq<string>)
    ensures |errors| <= 2
    ensures EmailRequired in errors <==> body.email.None?
    ensures EmailInvalid in errors <==> body.email.Some? && !isEmail(body.email.value)
    ensures PasswordRequired in errors <==> body.password.None?
    ensures PasswordTooShort in errors <==> body.password.Some? && |body.password.value| < MinPasswordLength
    ensures forall i :: 0 <= i < |errors| ==> errors[i] in {EmailRequired, EmailInvalid, PasswordRequired, PasswordTooShort}
    ensures forall i, j :: 0 <= i < j < |errors| ==>
              errors[i] in {EmailRequired, EmailInvalid} && errors[j] in {PasswordRequired, PasswordTooShort}
    ensures errors == [] <==>
              body.email.Some? && isEmail(body.email.value) &&
              body.password.Some? && |body.password.value| >= MinPasswordLength
  {
    EmailErrors(body.email, isEmail) + PasswordErrors(body.password)
  }

  /** `loginValidation(req, res, next)`. */
  function LoginValidation(body: LoginBody, isEmail: string -> bool): (o: Outcome)
    ensures o.Next? <==> SchemaErrors(body, isEmail) == []
    ensures o.Next? ==> body.email.Some? && body.password.Some?
    ensures o.Reply? ==> o.response.status == 400 && o.response.cookie.None?
    ensures o.Reply? ==> o.response.body == ValidationFailure(false, SchemaErrors(body, isEmail))
  {
    var errors := SchemaErrors(body, isEmail);
    if errors != [] then Reply(Response(400, ValidationFailure(false, errors), None)) else Next
  }

  /** A password of exactly six characters passes the length rule. */
  lemma SixCharactersPass(body: LoginBody, isEmail: string -> bool)
    requires body.password.Some? && |body.password.value| == 6
    ensures PasswordTooShort !in SchemaErrors(body, isEmail)
    ensures PasswordRequired !in SchemaErrors(body, isEmail)
  {
  }

  /** Both fields missing: both "required" messages, email first. */
  lemma BothMissing(isEmail: string -> bool)
    ensures SchemaErrors(LoginBody(None, None), isEmail) == [EmailRequired, PasswordRequired]
  {
  }

  /** `{email: 'bad-email', password: '123'}` reports both violations. */
  lemma BadEmailShortPassword(isEmail: string -> bool)
    requires !isEmail("bad-email")
    ensures SchemaErrors(LoginBody(Some("bad-email"), Some("123")), isEmail) == [EmailInvalid, PasswordTooShort]
  {
  }
}
