/** The authentication middleware of the backend: a bearer token is taken
    from the `token` cookie or else from the Authorization header, verified,
    and its claims become the request's user; a role check then admits only
    users with one of the listed roles. Token verification (a signed JSON
    web token) is a parameter. */
module AuthMiddleware {
  import opened Base
  import opened Strings
  import opened Js

  /** Every authentication failure gives this one error. */
  const Unauthorised: HttpError := HttpError(401, "Invalid or expired token")
  const Forbidden: HttpError := HttpError(403, "Not authorised")

  /** `extractTokenFromHeader(headerValue)`: the second of exactly two
      space-separated parts when the first is "Bearer" in any case. */
  function ExtractTokenFromHeader(header: Option<string>): (r: Option<string>)
    ensures header.None? || header == Some("") ==> r.None?
    ensures r.Some? <==>
              && header.Some? && header.value != ""
              && |Split(header.value, ' ')| == 2
              && EqualsIgnoreAsciiCase(Split(header.value, ' ')[0], "Bearer")
    ensures r.Some? ==> r.value == Split(header.value, ' ')[1] && ' ' !in r.value
  {
    if header.None? || header.value == "" then None
    else
      var parts := Split(header.value, ' ');
      if |parts| != 2 then None
      else if !EqualsIgnoreAsciiCase(parts[0], "Bearer") then None
      else Some(parts[1])
  }

  /** A header in the form scheme, one space, token, gives the token back
      exactly when the scheme is "Bearer" in any case; and every header a
      token comes from has that form, with a single space. */
  lemma ExtractTokenRoundTrip(scheme: string, token: string, header: string)
    requires ' ' !in scheme && ' ' !in token
    ensures ExtractTokenFromHeader(Some(scheme + " " + token)) == (if EqualsIgnoreAsciiCase(scheme, "Bearer") then Some(token) else None)
    ensures ExtractTokenFromHeader(Some(header)).Some? ==>
              var parts := Split(header, ' ');
              header == parts[0] + " " + ExtractTokenFromHeader(Some(header)).value
              && EqualsIgnoreAsciiCase(parts[0], "Bearer") && Count(header, ' ') == 1
  {
    assert Join([scheme, token], ' ') == scheme + " " + token;
    SplitJoin([scheme, token], ' ');
    assert scheme + " " + token != "" by {
      assert |scheme + " " + token| >= 1;
    }
    if ExtractTokenFromHeader(Some(header)).Some? {
      var parts := Split(header, ' ');
      JoinSplit(header, ' ');
      assert Join(parts, ' ') == parts[0] + [' '] + parts[1];
      SplitLength(header, ' ');
    }
  }

  /** `verifyToken(token)` succeeding with its decoded claims, or throwing. */
  function Verified(token: string, verify: string -> Option<Value>): (r: Result<Value>)
    ensures r.Ok? <==> verify(token).Some?
    ensures r.Ok? ==> r.value == verify(token).value
    ensures r.Fail? ==> r.error == Unauthorised
  {
    match verify(token)
    case Some(decoded) => Ok(decoded)
    case None => Fail(Unauthorised)
  }

  /** `req.cookies?.token || extractTokenFromHeader(req.headers.authorization)`;
      `None` stands for undefined and null alike. */
  function ChosenToken(cookie: Option<string>, header: Option<string>): Option<string> {
    if cookie.Some? && cookie.value != "" then cookie else ExtractTokenFromHeader(header)
  }

  /** `requireAuth`: the user the request continues with, or the single
      401 error for a missing, empty or rejected token. */
  function RequireAuth(cookie: Option<string>, header: Option<string>, verify: string -> Option<Value>): (r: Result<Value>)
    ensures r.Fail? ==> r.error == Unauthorised
    ensures r.Ok? <==> var t := ChosenToken(cookie, header);
                       t.Some? && t.value != "" && verify(t.value).Some?
  {
    var token := ChosenToken(cookie, header);
    if token.None? || token.value == "" then Fail(Unauthorised)
    else Verified(token.value, verify)
  }

  /** A non-empty cookie token decides alone, whatever the header says; and
      without one, the header's bearer token decides. */
  lemma CookieTakesPrecedence(cookie: Option<string>, header: Option<string>, verify: string -> Option<Value>)
    ensures cookie.Some? && cookie.value != "" ==> RequireAuth(cookie, header, verify) == Verified(cookie.value, verify)
    ensures cookie.None? || cookie == Some("") ==>
              RequireAuth(cookie, header, verify) == RequireAuth(None, header, verify)
    ensures cookie.None? && ExtractTokenFromHeader(header).Some? && ExtractTokenFromHeader(header).value != "" ==>
              RequireAuth(cookie, header, verify) == Verified(ExtractTokenFromHeader(header).value, verify)
  {
  }

  /** The user's role is one of `roles`. */
  predicate HasRole(user: Value, roles: seq<string>) {
    var role := Get(Fields(user), "role");
    role.Str? && role.s in roles
  }

  /** `requireRole(...roles)`: nothing, to continue, or the 403 error. */
  function RequireRole(user: Value, roles: seq<string>): (r: Option<HttpError>)
    ensures r.None? <==> !Falsy(user) && HasRole(user, roles)
    ensures r.Some? ==> r.value == Forbidden
  {
    if Falsy(user) || !HasRole(user, roles) then Some(Forbidden) else None
  }

  /** Listing more roles never shuts out a user let in before. */
  lemma RequireRoleMonotone(user: Value, roles: seq<string>, more: seq<string>)
    requires forall r :: r in roles ==> r in more
    ensures RequireRole(user, roles).None? ==> RequireRole(user, more).None?
    ensures RequireRole(user, []).Some?
  {
  }
}
