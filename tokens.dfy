/** The token and cookie issuance policy of
    identity-service/src/utils/generateToken.ts. `jwt.sign` is modelled by
    the signed claims and lifetime it encodes; `crypto.randomBytes` by the
    hex string it produced; times are milliseconds since the epoch. */
module Tokens {
  import opened Wrappers
  import opened UserModel

  /** The process environment the identity service reads. */
  datatype Env = Env(nodeEnv: Option<string>, adminAccount: Option<string>)

  predicate Production(env: Env) {
    env.nodeEnv == Some("production")
  }

  datatype SameSite = SameSiteNone | SameSiteStrict

  datatype CookieOptions = CookieOptions(httpOnly: bool, secure: bool, sameSite: SameSite, expires: Option<int>)

  /** The payloads passed to `jwt.sign`. */
  datatype Claims =
    | AccessClaims(userId: UserId, username: string, email: string, role: Role)
    | VerificationClaims(userId: UserId, email: string)
    | ResetClaims(userId: UserId, username: string, email: string)

  /** A cookie value: a signed JWT (its claims and `expiresIn` in seconds)
      or an opaque random string. */
  datatype Token = Signed(claims: Claims, expiresInSec: nat) | Opaque(text: string)

  /** `res.cookie(name, value, options)` and `res.clearCookie(name, options)`. */
  datatype CookieOp =
    | SetCookie(name: string, value: Token, options: CookieOptions)
    | ClearCookie(name: string, options: CookieOptions)

  const AccessTokenSec: nat := 15 * 60
  const VerificationTokenSec: nat := 3 * 60
  const ResetTokenSec: nat := 5 * 60
  const DayMs: int := 24 * 60 * 60 * 1000
  const RefreshLifetimeMs: int := 18 * DayMs
  const AccessCookieMs: int := 15 * 60 * 1000
  const VerificationCookieMs: int := 180000
  const ResetCookieMs: int := 600000

  /** Every cookie is httpOnly, secure exactly in production, and SameSite
      "none" in production and "strict" otherwise. */
  predicate FollowsPolicy(env: Env, ops: seq<CookieOp>) {
    forall i :: 0 <= i < |ops| ==>
      && ops[i].options.httpOnly
      && (ops[i].options.secure <==> Production(env))
      && (ops[i].options.sameSite == SameSiteNone <==> Production(env))
  }

  /** The options object every cookie of the service is given. */
  function CookieOptionsFor(env: Env, expires: Option<int>): (o: CookieOptions)
    ensures o.expires == expires
  {
    CookieOptions(true, Production(env), if Production(env) then SameSiteNone else SameSiteStrict, expires)
  }

  /** Any cookie built from `CookieOptionsFor` follows the policy. */
  lemma PolicyOfOptions(env: Env, ops: seq<CookieOp>)
    requires forall i :: 0 <= i < |ops| ==> ops[i].options == CookieOptionsFor(env, ops[i].options.expires)
    ensures FollowsPolicy(env, ops)
  {
  }

  /** The display name: first and last name concatenated without a separator
      when the last name is non-empty, else the first name. */
  function UserName(u: User): (r: string)
    ensures u.lastName.Some? && u.lastName.value != "" ==> r == u.firstName + u.lastName.value
    ensures u.lastName.None? || u.lastName.value == "" ==> r == u.firstName
  {
    match u.lastName
    case Some(last) => if last != "" then u.firstName + last else u.firstName
    case None => u.firstName
  }

  /** The access-token payload `{userId, username, email, role}`. */
  function AccessToken(id: UserId, u: User): (t: Token)
    ensures t.Signed? && t.expiresInSec == 15 * 60
    ensures t.claims == AccessClaims(id, UserName(u), u.email, u.role)
  {
    Signed(AccessClaims(id, UserName(u), u.email, u.role), AccessTokenSec)
  }

  /** The refresh-token record `RefreshToken.create` stores. */
  datatype RefreshRecord = RefreshRecord(token: string, userId: UserId, expiresAt: int)

  /** The cookies `generateTokens` sets: the refresh token expires with its
      stored record, 18 days after issue; the access token 15 minutes after. */
  function SessionCookies(env: Env, access: Token, record: RefreshRecord, now: int): (ops: seq<CookieOp>)
    requires record.expiresAt == now + RefreshLifetimeMs
    ensures FollowsPolicy(env, ops)
    ensures |ops| == 2
    ensures ops[0] == SetCookie("refreshToken", Opaque(record.token), ops[0].options)
    ensures ops[0].options.expires == Some(record.expiresAt) == Some(now + 18 * 86400000)
    ensures ops[1] == SetCookie("accessToken", access, ops[1].options)
    ensures ops[1].options.expires == Some(now + 900000)
  {
    var ops := [SetCookie("refreshToken", Opaque(record.token), CookieOptionsFor(env, Some(record.expiresAt))),
                SetCookie("accessToken", access, CookieOptionsFor(env, Some(now + AccessCookieMs)))];
    PolicyOfOptions(env, ops);
    ops
  }

  /** `generateVerificationToken`: a 3-minute JWT carrying only the user id and
      email, in a cookie that expires 180000 ms after issue. */
  function VerificationCookie(env: Env, id: UserId, email: string, now: int): (op: CookieOp)
    ensures FollowsPolicy(env, [op])
    ensures op.SetCookie? && op.name == "verificationToken"
    ensures op.value == Signed(VerificationClaims(id, email), 180)
    ensures op.options.expires == Some(now + 180000)
  {
    var op := SetCookie("verificationToken", Signed(VerificationClaims(id, email), VerificationTokenSec),
                        CookieOptionsFor(env, Some(now + VerificationCookieMs)));
    PolicyOfOptions(env, [op]);
    op
  }

  /** `generateResetPasswordToken`: a JWT without the role that lives 5
      minutes, in a cookie that lives 600000 ms. */
  function ResetCookie(env: Env, id: UserId, u: User, now: int): (op: CookieOp)
    ensures FollowsPolicy(env, [op])
    ensures op.SetCookie? && op.name == "resetPasswordToken"
    ensures op.value == Signed(ResetClaims(id, UserName(u), u.email), 300)
    ensures op.options.expires == Some(now + 600000)
  {
    var op := SetCookie("resetPasswordToken", Signed(ResetClaims(id, UserName(u), u.email), ResetTokenSec),
                        CookieOptionsFor(env, Some(now + ResetCookieMs)));
    PolicyOfOptions(env, [op]);
    op
  }
}
