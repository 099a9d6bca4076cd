/**
 * The user record of `models/User.js`: its schema checks and defaults, the
 * pre-save hook that hashes the password, and the reset-token issue.
 * bcrypt, SHA-256, the random source, the JWT signer and the e-mail pattern
 * are parameters.
 */
module Users {
  import opened Wrappers
  import opened JsText
  import Hex
  import opened ErrorHandler
  import AccessGate

  const Roles: seq<string> := ["user", "publisher"]
  const DefaultRole: string := "user"
  const MinPasswordLength: nat := 6
  const SaltRounds: nat := 10
  const ResetTokenBytes: nat := 20
  const ResetWindowMs: int := 10 * 60 * 1000

  /** The fields a new user is created from; `None` is `undefined`. */
  datatype UserInput = UserInput(name: Option<string>, email: Option<string>,
                                 password: Option<string>, role: Option<string>)

  /** The role a new user gets: the given one, or `user` when it is absent. */
  function RoleOf(input: UserInput): string {
    match input.role
    case Some(r) => r
    case None => DefaultRole
  }

  /** The schema's messages. */
  const NameMessage: string := "Please add a name"
  const EmailMessage: string := "Please add an email"
  const EmailFormatMessage: string := "Please add a valid email"
  const PasswordMessage: string := "Please add a password"

  /**
   * The first failing check of each schema path, in schema order: name and
   * email required, email well-formed, role in the enum, password required and
   * at least six characters.
   */
  function ValidationErrors(input: UserInput, isEmail: string -> bool): (errs: seq<string>)
    ensures errs == [] <==>
              && Present(input.name)
              && Present(input.email) && isEmail(input.email.value)
              && RoleOf(input) in Roles
              && Present(input.password) && |input.password.value| >= MinPasswordLength
  {
    (if !Present(input.name) then [NameMessage] else [])
    + (if !Present(input.email) then [EmailMessage]
       else if !isEmail(input.email.value) then [EmailFormatMessage] else [])
    + (if RoleOf(input) !in Roles then ["`" + RoleOf(input) + "` is not a valid enum value for path `role`."] else [])
    + (if !Present(input.password) then [PasswordMessage]
       else if |input.password.value| < MinPasswordLength
       then ["Path `password` (`" + input.password.value + "`) is shorter than the minimum allowed length (6)."]
       else [])
  }

  /** The error a failed validation throws. */
  function ValidationError(errs: seq<string>): JsError {
    JsError("ValidationError", "User validation failed", None, None, errs)
  }

  class User {
    const id: nat
    var name: string
    var email: string
    var role: string
    var password: string
    var resetPasswordToken: Option<string>
    var resetPasswordExpire: Option<int>
    var createdAt: int

    /** A document built from validated input, with the schema defaults (`role`, `createdAt`). */
    constructor (id: nat, input: UserInput, now: int, isEmail: string -> bool)
      requires ValidationErrors(input, isEmail) == []
      ensures this.id == id && name == input.name.value && email == input.email.value
      ensures role == RoleOf(input) && password == input.password.value
      ensures resetPasswordToken == None && resetPasswordExpire == None && createdAt == now
    {
      this.id := id;
      name := input.name.value;
      email := input.email.value;
      role := RoleOf(input);
      password := input.password.value;
      resetPasswordToken := None;
      resetPasswordExpire := None;
      createdAt := now;
    }

    /**
     * The pre-save hook. The `isModified("password")` guard calls `next()`
     * without returning, so the password is replaced by its bcrypt hash (salt
     * of cost 10) on every save, changed or not.
     */
    method PreSave(passwordModified: bool, genSalt: nat -> string, hash: (string, string) -> string)
      modifies this`password
      ensures password == hash(old(password), genSalt(SaltRounds))
    {
      if !passwordModified {
        // next() is called here and the hook goes on
      }
      var salt := genSalt(SaltRounds);
      password := hash(password, salt);
    }

    /** `getSignedJwtToken`: a token signed over this user's id and nothing else. */
    function SignedJwtToken(sign: nat -> string): (token: string)
      reads this
      ensures token == sign(id)
    {
      sign(id)
    }

    /**
     * `getResetPasswordToken`: returns 20 random bytes as 40 lowercase hex
     * characters, stores the SHA-256 hex digest of that text and an expiry ten
     * minutes from now.
     */
    method GetResetPasswordToken(randomBytes: seq<Hex.Byte>, sha256Hex: string -> string, now: int)
      returns (resetToken: string)
      requires |randomBytes| == ResetTokenBytes
      modifies this`resetPasswordToken, this`resetPasswordExpire
      ensures resetToken == Hex.Encode(randomBytes)
      ensures |resetToken| == 40 && forall i :: 0 <= i < |resetToken| ==> Hex.IsLowerHex(resetToken[i])
      ensures Hex.Decode(resetToken) == Some(randomBytes)
      ensures resetPasswordToken == Some(sha256Hex(resetToken))
      ensures resetPasswordExpire == Some(now + ResetWindowMs)
    {
      resetToken := Hex.Encode(randomBytes);
      Hex.DecodeEncode(randomBytes);
      resetPasswordToken := Some(sha256Hex(resetToken));
      resetPasswordExpire := Some(now + 10 * 60 * 1000);
    }
  }

  /** No user that passes validation has the role `admin`, so `authorize("admin")` turns every one away with 403. */
  lemma NoValidAdmin(input: UserInput, isEmail: string -> bool)
    requires ValidationErrors(input, isEmail) == []
    ensures RoleOf(input) != "admin"
    ensures AccessGate.Authorize(["admin"], Some(RoleOf(input)))
         == Some(NewErrorResponse("User role " + RoleOf(input) + " is not authorized to access this route", 403))
  {
  }

  /**
   * The token's payload is the id alone: two users with the same id get the
   * same token, whatever their name, e-mail, role, password or reset state.
   */
  lemma SameIdSameToken(u: User, v: User, sign: nat -> string)
    requires u.id == v.id
    ensures u.SignedJwtToken(sign) == v.SignedJwtToken(sign)
  {
  }

  /**
   * The login-to-`protect` round trip: a token this user was issued, sent back
   * as `Bearer <token>`, is the token `protect` reads, and a verifier that
   * accepts the signer's tokens decodes it to this user's id. So `protect`
   * proceeds with `findById(u.id)` unless that lookup throws.
   */
  lemma IssuedTokenOpensGate(u: User, sign: nat -> string, verify: string -> Option<AccessGate.Claims>)
    requires sign(u.id) != "" && ' ' !in sign(u.id)
    requires verify(sign(u.id)) == Some(AccessGate.Claims(u.id))
    ensures var header := Some("Bearer " + u.SignedJwtToken(sign));
            && AccessGate.BearerToken(header) == Some(u.SignedJwtToken(sign))
            && AccessGate.BearerToken(header).value != ""
            && verify(AccessGate.BearerToken(header).value).Some?
            && verify(AccessGate.BearerToken(header).value).value.id == u.id
  {
    AccessGate.BearerTokenExamples(sign(u.id), "");
  }
}
