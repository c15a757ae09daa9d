/**
 * `POST /api/auth/login`: the credential decision. An unknown email and a
 * wrong password give the same answer.
 */
module LoginRoute {
  import opened Wrappers
  import opened Schema
  import opened Tokens

  datatype Credentials = Credentials(email: string, password: string)

  /** `user.findUnique({ where: { email }, include: { role: true } })`. */
  function UserWithRoleByEmail(t: Tables, email: string): (r: Option<(User, Role)>)
    ensures r.Some? ==> r.value.0 in t.users && r.value.0.email == email
    ensures r.Some? ==> r.value.1 in t.roles && r.value.1.id == r.value.0.roleId
  {
    var found := UserByEmail(t, email);
    if found.None? then None
    else
      var role := RoleById(t, found.value.roleId);
      if role.None? then None else Some((found.value, role.value))
  }

  /** The answer to both kinds of bad credentials. */
  const InvalidCredentials := Denied(401, "Invalid credentials")

  /** The route; `compare` is `bcrypt.compare(plaintext, hash)`. */
  function Login(t: Tables, faults: Faults, c: Credentials, compare: (string, string) -> bool,
                 issue: Issuer, production: bool): (r: AuthReply)
    ensures FindUserByEmail in faults ==> r == Denied(500, "Internal server error")
    ensures r.Denied? ==> r == InvalidCredentials || r == Denied(500, "Internal server error")
    ensures FindUserByEmail !in faults ==>
      (r.Issued? <==> UserWithRoleByEmail(t, c.email).Some? && compare(c.password, UserWithRoleByEmail(t, c.email).value.0.password))
    ensures r.Issued? ==>
      var found := UserWithRoleByEmail(t, c.email).value;
      r == Session(found.0, found.1, issue, production)
  {
    if FindUserByEmail in faults then Denied(500, "Internal server error")
    else
      var found := UserWithRoleByEmail(t, c.email);
      if found.None? then InvalidCredentials
      else if !compare(c.password, found.value.0.password) then InvalidCredentials
      else Session(found.value.0, found.value.1, issue, production)
  }

  /** An unknown email and a wrong password cannot be told apart. */
  lemma FailuresIndistinguishable(t: Tables, faults: Faults, unknown: Credentials, wrong: Credentials,
                                  compare: (string, string) -> bool, issue: Issuer, production: bool)
    requires FindUserByEmail !in faults
    requires forall u :: u in t.users ==> u.email != unknown.email
    requires UserWithRoleByEmail(t, wrong.email).Some?
    requires !compare(wrong.password, UserWithRoleByEmail(t, wrong.email).value.0.password)
    ensures Login(t, faults, unknown, compare, issue, production) == Login(t, faults, wrong, compare, issue, production)
    ensures Login(t, faults, unknown, compare, issue, production) == InvalidCredentials
  {
  }

  /** In a consistent store, a user who gives their password logs in as themself, with their own claims. */
  lemma OwnCredentialsLogIn(t: Tables, faults: Faults, u: User, role: Role, password: string,
                            compare: (string, string) -> bool, issue: Issuer, production: bool)
    requires Consistent(t) && FindUserByEmail !in faults
    requires u in t.users && role in t.roles && role.id == u.roleId
    requires compare(password, u.password)
    ensures var r := Login(t, faults, Credentials(u.email, password), compare, issue, production);
      && r == Session(u, role, issue, production)
      && r.body.accessToken == issue(TokenPayload(u.id, u.email, u.roleId)).accessToken
      && r.cookie.value == issue(TokenPayload(u.id, u.email, u.roleId)).refreshToken
      && r.cookie.maxAge == RefreshMaxAge
  {
    KeyedUserByEmail(t, u);
    SameRole(t, role, RoleById(t, u.roleId).value);
  }
}
