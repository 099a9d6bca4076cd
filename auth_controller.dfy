/**
 * The session part of `controllers/auth.js`: `register` (the fields taken
 * from the body), `login` (a chain of early-return guards) and
 * `sendTokenResponse` (the cookie options and the JSON body).
 */
module AuthController {
  import opened Wrappers
  import opened JsText
  import opened ErrorHandler
  import opened Users

  const MsPerDay: int := 24 * 60 * 60 * 1000
  const MissingCredentials: string := "Please provide and email and password"
  const InvalidCredentials: string := "Invalid credentials"

  /** A JSON request body: its fields by name (`undefined` when absent). */
  type Body = map<string, string>

  function Field(body: Body, key: string): Option<string> {
    if key in body then Some(body[key]) else None
  }

  /** `const { name, email, password, role } = req.body` handed to `User.create`. */
  function RegisterInput(body: Body): UserInput {
    UserInput(Field(body, "name"), Field(body, "email"), Field(body, "password"), Field(body, "role"))
  }

  /**
   * Only `name`, `email`, `password` and `role` reach the new user: any other
   * field of the body (say `resetPasswordToken` or `createdAt`) is ignored.
   */
  lemma RegisterIgnoresOtherFields(body: Body, extra: Body)
    requires forall k :: k in extra ==> k !in {"name", "email", "password", "role"}
    ensures RegisterInput(body + extra) == RegisterInput(body)
  {
  }

  datatype LoginOutcome<U> = LoginFailed(error: JsError) | LoggedIn(user: U)

  /**
   * The guards of `login`: both fields are required before any lookup (400); the record
   * found by e-mail is read with its stored password hash, and the entered
   * password is checked by bcrypt's `compare` against that hash
   * (`matchPassword`). An unknown e-mail and a wrong password give the same 401.
   */
  function CheckCredentials<U>(email: Option<string>, password: Option<string>,
                               findByEmail: string -> Option<U>, storedPassword: U -> string,
                               compare: (string, string) -> bool): (r: LoginOutcome<U>)
    ensures !Present(email) || !Present(password) ==> r == LoginFailed(NewErrorResponse(MissingCredentials, 400))
    ensures r.LoggedIn? <==>
              Present(email) && Present(password) && findByEmail(email.value).Some?
              && compare(password.value, storedPassword(findByEmail(email.value).value))
    ensures r.LoggedIn? ==> r.user == findByEmail(email.value).value
    ensures Present(email) && Present(password) && r.LoginFailed? ==>
              r.error == NewErrorResponse(InvalidCredentials, 401)
  {
    if !Present(email) || !Present(password) then LoginFailed(NewErrorResponse(MissingCredentials, 400))
    else
      var user := findByEmail(email.value);
      if user.None? then LoginFailed(NewErrorResponse(InvalidCredentials, 401))
      else if !compare(password.value, storedPassword(user.value)) then LoginFailed(NewErrorResponse(InvalidCredentials, 401))
      else LoggedIn(user.value)
  }

  /** An unknown e-mail cannot be told from a known e-mail with a wrong password. */
  lemma UnknownEmailLooksLikeWrongPassword<U>(email: string, password: string,
                                              noUser: string -> Option<U>, someUser: string -> Option<U>,
                                              storedPassword: U -> string, compare: (string, string) -> bool)
    requires email != "" && password != ""
    requires noUser(email).None?
    requires someUser(email).Some? && !compare(password, storedPassword(someUser(email).value))
    ensures CheckCredentials(Some(email), Some(password), noUser, storedPassword, compare)
         == CheckCredentials(Some(email), Some(password), someUser, storedPassword, compare)
  {
  }

  /**
   * A user stored by `register` with password `p` holds `hash(p, genSalt(10))`
   * (see `Register`); logging in with `entered` then succeeds exactly when
   * bcrypt's `compare` accepts `entered` against that hash, and so, for a
   * `compare` that accepts a hash only for the password it was made from,
   * exactly when `entered == p`.
   */
  lemma LoginAfterRegister<U>(email: string, p: string, entered: string, u: U,
                              findByEmail: string -> Option<U>, storedPassword: U -> string,
                              compare: (string, string) -> bool,
                              hash: (string, string) -> string, genSalt: nat -> string)
    requires email != "" && entered != ""
    requires findByEmail(email) == Some(u) && storedPassword(u) == hash(p, genSalt(SaltRounds))
    ensures CheckCredentials(Some(email), Some(entered), findByEmail, storedPassword, compare).LoggedIn? <==>
              compare(entered, hash(p, genSalt(SaltRounds)))
    ensures (forall x, y, salt :: compare(x, hash(y, salt)) <==> x == y) ==>
              (CheckCredentials(Some(email), Some(entered), findByEmail, storedPassword, compare).LoggedIn? <==> entered == p)
  {
  }

  datatype CookieOptions = CookieOptions(expires: int, httpOnly: bool, secure: Option<bool>)

  datatype TokenBody = TokenBody(success: bool, token: string)

  /** `res.status(code).cookie("token", token, options).json({ success: true, token })`. */
  datatype TokenResponse = TokenResponse(status: int, cookieName: string, cookieValue: string,
                                         options: CookieOptions, body: TokenBody)

  /**
   * `sendTokenResponse`: the cookie lasts `JWT_COOKIE_EXPIRE` days from now,
   * is always `httpOnly`, and is `secure` exactly in production.
   */
  method SendTokenResponse(token: string, statusCode: int, now: int, cookieExpireDays: int, nodeEnv: string)
    returns (resp: TokenResponse)
    ensures resp.status == statusCode
    ensures resp.cookieName == "token" && resp.cookieValue == token && resp.body == TokenBody(true, token)
    ensures resp.options.expires == now + cookieExpireDays * MsPerDay
    ensures resp.options.httpOnly
    ensures resp.options.secure.Some? <==> nodeEnv == "production"
    ensures resp.options.secure.Some? ==> resp.options.secure.value
  {
    var options := CookieOptions(now + cookieExpireDays * 24 * 60 * 60 * 1000, true, None);
    if nodeEnv == "production" {
      options := options.(secure := Some(true));
    }
    resp := TokenResponse(statusCode, "token", token, options, TokenBody(true, token));
  }

  /**
   * `register`: `User.create` with the four body fields (validation, then
   * the pre-save hash), then the token response with status 200.
   */
  method Register(body: Body, id: nat, now: int, isEmail: string -> bool,
                  genSalt: nat -> string, hash: (string, string) -> string, sign: nat -> string,
                  cookieExpireDays: int, nodeEnv: string)
    returns (out: Result<(User, TokenResponse), JsError>)
    ensures var input := RegisterInput(body);
            && (out.Err? <==> ValidationErrors(input, isEmail) != [])
            && (out.Err? ==> out.error == ValidationError(ValidationErrors(input, isEmail)))
            && (out.Ok? ==>
                  var (user, resp) := out.value;
                  && fresh(user)
                  && user.id == id && user.role == RoleOf(input)
                  && user.name == input.name.value && user.email == input.email.value && user.createdAt == now
                  && user.password == hash(input.password.value, genSalt(SaltRounds))
                  && resp.status == 200 && resp.cookieValue == sign(id) && resp.body == TokenBody(true, sign(id)))
  {
    var input := RegisterInput(body);
    var errs := ValidationErrors(input, isEmail);
    if errs != [] {
      return Err(ValidationError(errs));
    }
    var user := new User(id, input, now, isEmail);
    user.PreSave(true, genSalt, hash);
    var token := user.SignedJwtToken(sign);
    var resp := SendTokenResponse(token, 200, now, cookieExpireDays, nodeEnv);
    out := Ok((user, resp));
  }

  /**
   * `login`: the guards of `CheckCredentials`, then the same token response
   * as `register`, with status 200 and a token signed over the found user's id.
   */
  method Login<U>(email: Option<string>, password: Option<string>,
                  findByEmail: string -> Option<U>, storedPassword: U -> string,
                  compare: (string, string) -> bool, idOf: U -> nat, sign: nat -> string,
                  now: int, cookieExpireDays: int, nodeEnv: string)
    returns (out: Result<(U, TokenResponse), JsError>)
    ensures var checked := CheckCredentials(email, password, findByEmail, storedPassword, compare);
            && (out.Err? <==> checked.LoginFailed?)
            && (out.Err? ==> out.error == checked.error)
            && (out.Ok? ==>
                  var (user, resp) := out.value;
                  && user == checked.user
                  && resp.status == 200 && resp.cookieValue == sign(idOf(user))
                  && resp.body == TokenBody(true, sign(idOf(user))))
  {
    var checked := CheckCredentials(email, password, findByEmail, storedPassword, compare);
    if checked.LoginFailed? {
      return Err(checked.error);
    }
    var resp := SendTokenResponse(sign(idOf(checked.user)), 200, now, cookieExpireDays, nodeEnv);
    out := Ok((checked.user, resp));
  }
}
