/**
 * `POST /api/auth/refresh`: trades the refresh cookie for a new token pair,
 * re-reading the user so the new claims are the stored ones.
 */
module RefreshRoute {
  import opened Wrappers
  import opened Schema
  import opened Tokens

  /** The route; `cookie` is the `refreshToken` cookie's value, if sent. */
  function Refresh(t: Tables, faults: Faults, cookie: Option<string>, verify: Verifier,
                   issue: Issuer, production: bool): (r: AuthReply)
    ensures (cookie.None? || cookie == Some("")) ==> r == Denied(401, "Refresh token not found")
    ensures cookie.Some? && cookie.value != "" && verify(cookie.value).None? ==> r == Denied(401, "Invalid refresh token")
    ensures r.Denied? ==> r.status == 401
    ensures r.Issued? ==>
      && cookie.Some? && verify(cookie.value).Some? && FindUserById !in faults
      && UserWithRole(t, verify(cookie.value).value.userId).Some?
      && var found := UserWithRole(t, verify(cookie.value).value.userId).value;
         r == Session(found.0, found.1, issue, production)
  {
    if cookie.None? || cookie.value == "" then Denied(401, "Refresh token not found")
    else match verify(cookie.value)
      case None => Denied(401, "Invalid refresh token")
      case Some(payload) =>
        if FindUserById in faults then Denied(401, "Invalid refresh token")
        else
          var found := UserWithRole(t, payload.userId);
          if found.None? then Denied(401, "User not found")
          else Session(found.value.0, found.value.1, issue, production)
  }

  /** A valid token for a user who no longer exists is refused. */
  lemma DeletedUserRefused(t: Tables, faults: Faults, cookie: string, verify: Verifier, issue: Issuer, production: bool)
    requires cookie != "" && verify(cookie).Some? && FindUserById !in faults
    requires forall u :: u in t.users ==> u.id != verify(cookie).value.userId
    ensures Refresh(t, faults, Some(cookie), verify, issue, production) == Denied(401, "User not found")
  {
  }

  /**
   * The new tokens carry the stored email and role, whatever the old token
   * claimed, and the cookie is replaced by the new refresh token for seven days.
   */
  lemma ClaimsAreCurrent(t: Tables, faults: Faults, cookie: string, verify: Verifier, issue: Issuer,
                         production: bool, u: User, role: Role)
    requires Keyed(t) && FindUserById !in faults
    requires cookie != "" && verify(cookie).Some? && verify(cookie).value.userId == u.id
    requires u in t.users && role in t.roles && role.id == u.roleId
    ensures var r := Refresh(t, faults, Some(cookie), verify, issue, production);
      var pair := issue(TokenPayload(u.id, u.email, u.roleId));
      && r.Issued?
      && r.body == AuthBody(PublicUser(u.id, u.email, u.username, role), pair.accessToken)
      && r.cookie == RefreshCookie(pair.refreshToken, production)
      && r.cookie.maxAge == 604800
  {
    KeyedUserWithRole(t, u, role);
  }
}
