/**
 * The client's auth store: the logged-in user, the access token and the
 * authenticated flag, replaced wholesale by `setAuth` and `logout`.
 */
module AuthStore {
  import opened Wrappers
  import opened Schema

  /** The user the client keeps after login, with its role. */
  datatype SessionUser = SessionUser(id: string, email: string, username: string, role: Role)

  class Store {
    var user: Option<SessionUser>
    var accessToken: Option<string>
    var isAuthenticated: bool

    /** Authenticated exactly when a token is held. */
    predicate Valid()
      reads this
    {
      isAuthenticated <==> accessToken.Some?
    }

    /** The initial state: nobody logged in. */
    constructor ()
      ensures user.None? && accessToken.None? && !isAuthenticated
      ensures Valid()
    {
      user, accessToken, isAuthenticated := None, None, false;
    }

    method SetAuth(u: SessionUser, token: string)
      modifies this
      ensures user == Some(u) && accessToken == Some(token) && isAuthenticated
      ensures Valid()
    {
      user, accessToken, isAuthenticated := Some(u), Some(token), true;
    }

    /** Back to the initial state, from any state; so a second logout changes nothing. */
    method Logout()
      modifies this
      ensures user.None? && accessToken.None? && !isAuthenticated
      ensures Valid()
    {
      user, accessToken, isAuthenticated := None, None, false;
    }
  }

  /** Logout is idempotent, and `setAuth` after it overwrites every field. */
  method SessionRoundTrip(s: Store, u: SessionUser, token: string)
    modifies s
    ensures s.user == Some(u) && s.accessToken == Some(token) && s.isAuthenticated && s.Valid()
  {
    s.Logout();
    s.Logout();
    assert s.user.None? && s.accessToken.None? && !s.isAuthenticated;
    s.SetAuth(u, token);
  }
}
