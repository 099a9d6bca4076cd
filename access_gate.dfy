/**
 * The access gate of `middleware/auth.js`: `protect` reads a bearer token
 * from the `Authorization` header, verifies it and loads the user it names;
 * `authorize(...roles)` admits a request whose user has one of the roles.
 * Token verification and the user lookup are parameters.
 */
module AccessGate {
  import opened Wrappers
  import opened JsText
  import opened ErrorHandler

  const NotAuthorized: string := "Not authorized to access this route"

  /** The payload of a verified token. */
  datatype Claims = Claims(id: nat)

  /** What `User.findById` gives: a user, `null`, or a thrown error. */
  datatype Lookup<U> = Found(user: U) | NotFound | LookupFailed

  /** `next()` with `req.user` set (possibly to `null`), or `next(err)`. */
  datatype GateOutcome<U> = Proceed(user: Option<U>) | Reject(error: JsError)

  predicate StartsWith(s: string, prefix: string) {
    |prefix| <= |s| && s[..|prefix|] == prefix
  }

  /**
   * The token the header yields: element 1 of `authorization.split(" ")`
   * when the header starts with `Bearer`; `None` for `undefined`. It exists
   * exactly when such a header holds a space, and it is the text between the
   * first space and the next one, so `Bearer a b` yields `a`.
   */
  function BearerToken(authorization: Option<string>): (token: Option<string>)
    ensures token.Some? <==>
              authorization.Some? && StartsWith(authorization.value, "Bearer") && ' ' in authorization.value
    ensures token.Some? ==>
              var h := authorization.value;
              var rest := h[IndexOf(h, ' ') + 1..];
              token.value == rest[..IndexOf(rest, ' ')]
    ensures token.Some? ==> ' ' !in token.value
  {
    if authorization.None? || !StartsWith(authorization.value, "Bearer") then None
    else
      var parts := Split(authorization.value, ' ');
      SplitSecond(authorization.value, ' ');
      if |parts| > 1 then Some(parts[1]) else None
  }

  /**
   * `protect`. No header, a header without a token, a failed verification and
   * a failed lookup all give the same 401 error; a cookie is never consulted.
   * A verified token whose user no longer exists passes with `req.user = null`.
   */
  method Protect<U>(authorization: Option<string>, verify: string -> Option<Claims>,
                    findById: nat -> Lookup<U>)
    returns (out: GateOutcome<U>)
    ensures out.Reject? ==> out.error == NewErrorResponse(NotAuthorized, 401)
    ensures out.Proceed? <==>
              && BearerToken(authorization).Some?
              && BearerToken(authorization).value != ""
              && verify(BearerToken(authorization).value).Some?
              && !findById(verify(BearerToken(authorization).value).value.id).LookupFailed?
    ensures out.Proceed? ==>
              match findById(verify(BearerToken(authorization).value).value.id)
              case Found(u) => out.user == Some(u)
              case _ => out.user == None
  {
    var token: Option<string> := None;
    if authorization.Some? && authorization.value != "" && StartsWith(authorization.value, "Bearer") {
      var parts := Split(authorization.value, ' ');
      if |parts| > 1 {
        token := Some(parts[1]);
      }
    }

    if token.None? || token.value == "" {
      return Reject(NewErrorResponse(NotAuthorized, 401));
    }

    var decoded := verify(token.value);
    if decoded.None? {
      return Reject(NewErrorResponse(NotAuthorized, 401));
    }
    var found := findById(decoded.value.id);
    match found
    case LookupFailed =>
      return Reject(NewErrorResponse(NotAuthorized, 401));
    case NotFound =>
      out := Proceed(None);
    case Found(u) =>
      out := Proceed(Some(u));
  }

  /** The TypeError thrown by reading `.role` of a `null` user. */
  const NullUserError: JsError :=
    JsError("TypeError", "Cannot read properties of null (reading 'role')", None, None, [])

  /**
   * `authorize(...roles)` on the role of `req.user` (`None` when `protect`
   * left `req.user` null).
   */
  function Authorize(roles: seq<string>, userRole: Option<string>): (r: Option<JsError>)
    ensures r.None? <==> userRole.Some? && userRole.value in roles
    ensures userRole.Some? && userRole.value !in roles ==>
              r == Some(NewErrorResponse("User role " + userRole.value + " is not authorized to access this route", 403))
    ensures userRole.None? ==> r == Some(NullUserError)
  {
    if userRole.None? then Some(NullUserError)
    else if userRole.value !in roles then
      Some(NewErrorResponse("User role " + userRole.value + " is not authorized to access this route", 403))
    else None
  }

  /** `Bearer <token>` yields the token; so does any header that merely starts with `Bearer`. */
  lemma BearerTokenExamples(token: string, junk: string)
    requires ' ' !in token && ' ' !in junk
    ensures BearerToken(Some("Bearer " + token)) == Some(token)
    ensures BearerToken(Some("Bearer" + junk + " " + token)) == Some(token)
    ensures BearerToken(Some("Bearer" + junk)) == None
    ensures BearerToken(None) == None
  {
    SplitAround("Bearer", token);
    SplitAround("Bearer" + junk, token);
    assert "Bearer " + token == "Bearer" + " " + token;
    assert ("Bearer" + junk)[..6] == "Bearer";
    assert ("Bearer" + junk + " " + token)[..6] == "Bearer";
    NoSpaceOnePiece("Bearer" + junk);
  }

  lemma {:induction false} NoSpaceOnePiece(s: string)
    requires ' ' !in s
    ensures Split(s, ' ') == [s]
  {
    if s != [] {
      NoSpaceOnePiece(s[1..]);
      assert [s[0]] + s[1..] == s;
    }
  }

  lemma {:induction false} SplitAround(a: string, b: string)
    requires ' ' !in a && ' ' !in b
    ensures Split(a + " " + b, ' ') == [a, b]
  {
    if a == [] {
      assert a + " " + b == [' '] + b;
      assert (a + " " + b)[1..] == b;
      NoSpaceOnePiece(b);
    } else {
      assert (a + " " + b)[1..] == a[1..] + " " + b;
      SplitAround(a[1..], b);
      assert [a[0]] + a[1..] == a;
    }
  }
}
