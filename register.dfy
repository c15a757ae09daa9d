/**
 * `POST /api/auth/register`: self-service sign-up. The new user always gets
 * the role named `'user'`, and is logged in at once.
 */
module RegisterRoute {
  import opened Wrappers
  import opened Schema
  import opened Tokens
  import opened UsersRoute

  /** The role every self-registered user receives. */
  const DefaultRole := "user"

  /** The JSON body: no role can be submitted. */
  datatype Registration = Registration(email: string, username: string, password: string)

  /** The outcome: the tables afterwards and the reply. */
  datatype Registered = Registered(tables: Tables, reply: AuthReply)

  function PostEffect(t: Tables, faults: Faults, req: Registration, hash: string -> string,
                      issue: Issuer, freshId: string, now: int, production: bool): Registered
  {
    if FindDuplicateUser in faults then Registered(t, Denied(500, "Internal server error"))
    else if Taken(t, req.email, req.username) then Registered(t, Denied(400, "User already exists"))
    else if FindRoleByName in faults then Registered(t, Denied(500, "Internal server error"))
    else match RoleByName(t, DefaultRole)
      case None => Registered(t, Denied(500, "Default role not found"))
      case Some(role) =>
        var u := NewUser(req.email, req.username, req.password, role.id, hash, freshId, now);
        if CreateUser in faults || CreateUserRejected(t, u) then Registered(t, Denied(500, "Internal server error"))
        else Registered(t.(users := t.users + [u]), Session(u, role, issue, production))
  }

  /** The route, inserting into `db.users`. */
  method Post(db: Database, faults: Faults, req: Registration, hash: string -> string,
              issue: Issuer, freshId: string, now: int, production: bool) returns (reply: AuthReply)
    modifies db
    ensures Registered(db.Snapshot(), reply) == PostEffect(old(db.Snapshot()), faults, req, hash, issue, freshId, now, production)
  {
    var t := db.Snapshot();
    if FindDuplicateUser in faults {
      return Denied(500, "Internal server error");
    }
    if Taken(t, req.email, req.username) {
      return Denied(400, "User already exists");
    }
    var hashed := hash(req.password);
    if FindRoleByName in faults {
      return Denied(500, "Internal server error");
    }
    var found := RoleByName(t, DefaultRole);
    if found.None? {
      return Denied(500, "Default role not found");
    }
    var role := found.value;
    var u := User(freshId, req.email, req.username, hashed, role.id, now);
    if CreateUser in faults || CreateUserRejected(t, u) {
      return Denied(500, "Internal server error");
    }
    db.users := db.users + [u];
    reply := Session(u, role, issue, production);
  }

  /** A duplicate email or username is 400 and nothing is created. */
  lemma DuplicateRefused(t: Tables, faults: Faults, req: Registration, hash: string -> string,
                         issue: Issuer, freshId: string, now: int, production: bool, other: User)
    requires FindDuplicateUser !in faults
    requires other in t.users && (other.email == req.email || other.username == req.username)
    ensures PostEffect(t, faults, req, hash, issue, freshId, now, production) ==
      Registered(t, Denied(400, "User already exists"))
  {
  }

  /** Without a `'user'` role the sign-up is 500 and nothing is created. */
  lemma MissingDefaultRole(t: Tables, faults: Faults, req: Registration, hash: string -> string,
                           issue: Issuer, freshId: string, now: int, production: bool)
    requires FindDuplicateUser !in faults && FindRoleByName !in faults && !Taken(t, req.email, req.username)
    requires forall r :: r in t.roles ==> r.name != DefaultRole
    ensures PostEffect(t, faults, req, hash, issue, freshId, now, production) ==
      Registered(t, Denied(500, "Default role not found"))
  {
  }

  /**
   * A fresh sign-up with the `'user'` role present and no store failure
   * succeeds, and a successful sign-up appends exactly one user: fresh email and username,
   * the hashed password, the `'user'` role (never one the client picks).
   * It answers with tokens for that user's claims and the public user, and
   * the store stays consistent.
   */
  lemma SignUpOutcome(t: Tables, faults: Faults, req: Registration, hash: string -> string,
                      issue: Issuer, freshId: string, now: int, production: bool)
    requires Consistent(t)
    ensures var e := PostEffect(t, faults, req, hash, issue, freshId, now, production);
      e.reply.Issued? ==>
        && !Taken(t, req.email, req.username)
        && RoleByName(t, DefaultRole).Some?
        && var role := RoleByName(t, DefaultRole).value;
           var u := User(freshId, req.email, req.username, hash(req.password), role.id, now);
           && e.tables.users == t.users + [u]
           && e.reply == Session(u, role, issue, production)
           && e.reply.body.user == PublicUser(freshId, req.email, req.username, role)
           && e.reply.body.accessToken == issue(TokenPayload(freshId, req.email, role.id)).accessToken
           && e.reply.cookie == RefreshCookie(issue(TokenPayload(freshId, req.email, role.id)).refreshToken, production)
    ensures var e := PostEffect(t, faults, req, hash, issue, freshId, now, production);
      !e.reply.Issued? ==> e.tables == t
    ensures RoleByName(t, DefaultRole).Some? ==>
      var u := NewUser(req.email, req.username, req.password, RoleByName(t, DefaultRole).value.id, hash, freshId, now);
      (&& FindDuplicateUser !in faults && FindRoleByName !in faults && CreateUser !in faults
       && !Taken(t, req.email, req.username) && !CreateUserRejected(t, u)) ==>
        PostEffect(t, faults, req, hash, issue, freshId, now, production).reply.Issued?
    ensures Consistent(PostEffect(t, faults, req, hash, issue, freshId, now, production).tables)
  {
    var e := PostEffect(t, faults, req, hash, issue, freshId, now, production);
    if e.reply.Issued? {
      var role := RoleByName(t, DefaultRole).value;
      var u := User(freshId, req.email, req.username, hash(req.password), role.id, now);
      assert RoleById(t, u.roleId).Some?;
      AppendUserKeepsConsistent(t, u);
    }
  }
}
