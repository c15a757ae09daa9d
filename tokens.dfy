/**
 * Token payloads, the refresh cookie and the session reply shared by the
 * login, register and refresh routes. Signing and verification (the
 * `jsonwebtoken` library, its secrets and the clock) are parameters.
 */
module Tokens {
  import opened Wrappers
  import opened Schema

  /** The claims carried by both tokens. */
  datatype TokenPayload = TokenPayload(userId: string, email: string, roleId: string)

  datatype TokenPair = TokenPair(accessToken: string, refreshToken: string)

  /** `generateTokens`: signs the payload into an access and a refresh token. */
  type Issuer = TokenPayload -> TokenPair

  /** `verifyAccessToken` / `verifyRefreshToken`: `None` where `jwt.verify` throws. */
  type Verifier = string -> Option<TokenPayload>

  datatype SameSite = Strict

  datatype Cookie = Cookie(name: string, value: string, httpOnly: bool, secure: bool,
                           sameSite: SameSite, maxAge: int)

  /** Seven days, in seconds. */
  const RefreshMaxAge: int := 7 * 24 * 60 * 60

  /** The `refreshToken` cookie; `secure` only when `NODE_ENV` is production. */
  function RefreshCookie(token: string, production: bool): Cookie {
    Cookie("refreshToken", token, true, production, Strict, RefreshMaxAge)
  }

  /** The user as the auth routes return it: no password field exists. */
  datatype PublicUser = PublicUser(id: string, email: string, username: string, role: Role)

  /** The JSON body of a successful auth route: no refresh token in it. */
  datatype AuthBody = AuthBody(user: PublicUser, accessToken: string)

  datatype AuthReply =
    | Issued(body: AuthBody, cookie: Cookie)  // 200 with the refresh cookie set
    | Denied(status: int, error: string)      // { error } without a cookie

  function PayloadOf(u: User): (p: TokenPayload)
    ensures p.userId == u.id && p.email == u.email && p.roleId == u.roleId
  {
    TokenPayload(u.id, u.email, u.roleId)
  }

  /**
   * Issues tokens for `u` and builds the reply: the public user with its role,
   * the access token in the body, the refresh token in the cookie.
   */
  function Session(u: User, role: Role, issue: Issuer, production: bool): (r: AuthReply)
    ensures r.Issued?
    ensures r.body.user == PublicUser(u.id, u.email, u.username, role)
    ensures r.body.accessToken == issue(PayloadOf(u)).accessToken
    ensures r.cookie.name == "refreshToken" && r.cookie.value == issue(PayloadOf(u)).refreshToken
    ensures r.cookie.httpOnly && r.cookie.sameSite == Strict && r.cookie.maxAge == 604800
    ensures r.cookie.secure == production
  {
    var pair := issue(PayloadOf(u));
    Issued(AuthBody(PublicUser(u.id, u.email, u.username, role), pair.accessToken),
           RefreshCookie(pair.refreshToken, production))
  }
}
