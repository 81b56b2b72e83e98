/** The request guards of identity-service/src/middleware/authMiddleware.ts.
    Each guard either lets the request continue, carrying what it puts on
    `req.user`, or answers it with a status and message. */
module AuthMiddleware {
  import opened Wrappers
  import opened Tokens

  /** A Node request header: one value, or an array of repeated values. */
  datatype HeaderValue = Single(text: string) | Multi(values: seq<string>)

  /** `req.user` as the trust headers set it. */
  datatype RequestUser = RequestUser(userId: string, role: string)

  datatype Guard<T> = Continue(user: T) | Deny(status: int, message: string)

  /** `!header || Array.isArray(header)`: absent, empty or repeated. */
  predicate Unusable(h: Option<HeaderValue>) {
    h.None? || h.value.Multi? || h.value.text == ""
  }

  function Header(headers: map<string, HeaderValue>, name: string): Option<HeaderValue> {
    if name in headers then Some(headers[name]) else None
  }

  /** `authenticateRequest`: both trust headers must be single non-empty
      strings; `req.user` is then exactly `{ userId, role }` taken from them. */
  function AuthenticateRequest(headers: map<string, HeaderValue>): (r: Guard<RequestUser>)
    ensures r.Continue? <==>
      && "x-user-id" in headers && headers["x-user-id"].Single? && headers["x-user-id"].text != ""
      && "x-user-role" in headers && headers["x-user-role"].Single? && headers["x-user-role"].text != ""
    ensures r.Continue? ==> r.user == RequestUser(headers["x-user-id"].text, headers["x-user-role"].text)
    ensures r.Deny? ==> r == Deny(401, "Authentication required! Please login to continue.")
  {
    var id := Header(headers, "x-user-id");
    var role := Header(headers, "x-user-role");
    if Unusable(id) || Unusable(role) then Deny(401, "Authentication required! Please login to continue.")
    else Continue(RequestUser(id.value.text, role.value.text))
  }

  /** `authorizeRoles(...allowed)`: no user is 401, a role outside the list is
      403, anything else continues. */
  function AuthorizeRoles(allowed: seq<string>, user: Option<RequestUser>): (r: Guard<()>)
    ensures user.None? ==> r == Deny(401, "Unauthorized. No user found.")
    ensures user.Some? && user.value.role !in allowed ==>
      r == Deny(403, "Forbidden: You don't have access to this resource")
    ensures r.Continue? <==> user.Some? && user.value.role in allowed
  {
    if user.None? then Deny(401, "Unauthorized. No user found.")
    else if user.value.role !in allowed then Deny(403, "Forbidden: You don't have access to this resource")
    else Continue(())
  }

  /** The cookie a token guard reads or clears: `tokenField`, by default "verificationToken". */
  function TokenField(tokenField: Option<string>): string {
    tokenField.GetOr("verificationToken")
  }

  /** `verifyVerificationToken(tokenField)`: a missing or empty cookie is 401,
      a token `jwt.verify` rejects is 401, and a verified token's payload
      becomes `req.user`. `cookies` is `None` when no cookie parser ran. */
  function VerifyVerificationToken(tokenField: Option<string>, cookies: Option<map<string, string>>,
                                   verify: string -> Option<Claims>): (r: Guard<Claims>)
    ensures (cookies.None? || TokenField(tokenField) !in cookies.value || cookies.value[TokenField(tokenField)] == "")
      ==> r == Deny(401, "Session expired or not verified.")
    ensures r.Continue? <==>
      && cookies.Some? && TokenField(tokenField) in cookies.value && cookies.value[TokenField(tokenField)] != ""
      && verify(cookies.value[TokenField(tokenField)]).Some?
    ensures r.Continue? ==> r.user == verify(cookies.value[TokenField(tokenField)]).value
    ensures r.Deny? ==> r.status == 401
    ensures r.Deny? && cookies.Some? && TokenField(tokenField) in cookies.value && cookies.value[TokenField(tokenField)] != ""
      ==> r.message == "Invalid or expired verification token"
  {
    var name := TokenField(tokenField);
    if cookies.None? || name !in cookies.value || cookies.value[name] == "" then
      Deny(401, "Session expired or not verified.")
    else
      match verify(cookies.value[name])
      case Some(claims) => Continue(claims)
      case None => Deny(401, "Invalid or expired verification token")
  }

  /** `revokeVerificationToken(res, tokenField)`: clears exactly the named
      cookie, by default "verificationToken", with the service's cookie policy. */
  function RevokeVerificationToken(env: Env, tokenField: Option<string>): (op: CookieOp)
    ensures op.ClearCookie? && op.name == TokenField(tokenField)
    ensures tokenField.None? ==> op.name == "verificationToken"
    ensures FollowsPolicy(env, [op]) && op.options.expires.None?
  {
    var op := ClearCookie(TokenField(tokenField), CookieOptionsFor(env, None));
    PolicyOfOptions(env, [op]);
    op
  }
}
