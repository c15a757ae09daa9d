/**
 * `/api/users`: the admin listing without passwords, newest first, and the
 * admin's user creation with the email-or-username duplicate check.
 */
module UsersRoute {
  import opened Wrappers
  import opened Seqs
  import opened Schema
  import opened Tokens
  import opened Http
  import opened AuthMiddleware
  import opened MenusRoute

  /** A user as the route returns it: every stored field but the password, plus the role. */
  datatype SafeUser = SafeUser(id: string, email: string, username: string, roleId: string,
                               role: Role, createdAt: int)

  /** `({ password, ...user }) => user` on a user joined to its role. */
  function Strip(u: User, role: Role): (s: SafeUser)
    ensures s.id == u.id && s.email == u.email && s.username == u.username
    ensures s.roleId == u.roleId && s.createdAt == u.createdAt && s.role == role
  {
    SafeUser(u.id, u.email, u.username, u.roleId, role, u.createdAt)
  }

  /** The users of `rows` joined to their role (an inner join), stripped. */
  function SafeUsers(t: Tables, rows: seq<User>): (r: seq<SafeUser>)
    ensures |r| <= |rows|
    ensures forall s :: s in r ==> s.role in t.roles && s.role.id == s.roleId
  {
    if |rows| == 0 then []
    else
      var rest := SafeUsers(t, rows[1..]);
      match RoleById(t, rows[0].roleId)
      case None => rest
      case Some(role) => [Strip(rows[0], role)] + rest
  }

  /** When every row's role exists, exactly one entry per row, in the order of `rows`: the row stripped, with its role. */
  lemma {:induction false} SafeUsersComplete(t: Tables, rows: seq<User>)
    requires forall k :: 0 <= k < |rows| ==> RoleById(t, rows[k].roleId).Some?
    ensures |SafeUsers(t, rows)| == |rows|
    ensures forall i :: 0 <= i < |rows| ==> SafeUsers(t, rows)[i] == Strip(rows[i], RoleById(t, rows[i].roleId).value)
    ensures forall i :: 0 <= i < |rows| ==>
      SafeUsers(t, rows)[i].id == rows[i].id && SafeUsers(t, rows)[i].createdAt == rows[i].createdAt
  {
    if |rows| > 0 {
      var rest := rows[1..];
      assert forall k :: 0 <= k < |rest| ==> rest[k] == rows[k + 1];
      SafeUsersComplete(t, rest);
      var head := Strip(rows[0], RoleById(t, rows[0].roleId).value);
      assert SafeUsers(t, rows) == [head] + SafeUsers(t, rest);
      SafeUsersShift(t, rows, head, SafeUsers(t, rest));
    }
  }

  lemma SafeUsersShift(t: Tables, rows: seq<User>, head: SafeUser, tail: seq<SafeUser>)
    requires forall k :: 0 <= k < |rows| ==> RoleById(t, rows[k].roleId).Some?
    requires |rows| > 0 && head == Strip(rows[0], RoleById(t, rows[0].roleId).value)
    requires |tail| == |rows| - 1
    requires forall i :: 0 <= i < |tail| ==> tail[i] == Strip(rows[i + 1], RoleById(t, rows[i + 1].roleId).value)
    ensures forall i :: 0 <= i < |rows| ==> ([head] + tail)[i] == Strip(rows[i], RoleById(t, rows[i].roleId).value)
  {
    forall i | 0 <= i < |rows| ensures ([head] + tail)[i] == Strip(rows[i], RoleById(t, rows[i].roleId).value) {
      if i > 0 {
        assert ([head] + tail)[i] == tail[i - 1];
      }
    }
  }

  /** `orderBy: { createdAt: 'desc' }`. */
  function NewestFirst(users: seq<User>): (r: seq<User>)
    ensures multiset(r) == multiset(users)
    ensures forall i, j :: 0 <= i < j < |r| ==> r[i].createdAt >= r[j].createdAt
  {
    SortByKey(users, (u: User) => -u.createdAt)
  }

  /** GET `/api/users`. */
  function Get(t: Tables, faults: Faults, authorization: Option<string>, verify: Verifier): (r: Reply<seq<SafeUser>>)
    ensures var gate := WithAdminAuth(t, faults, authorization, verify);
      !gate.Pass? ==> r == Refused(gate)
    ensures WithAdminAuth(t, faults, authorization, verify).Pass? ==>
      r == if ListUsers in faults then ErrorJson(500, "Failed to fetch users")
           else Json(200, SafeUsers(t, NewestFirst(t.users)))
  {
    var gate := WithAdminAuth(t, faults, authorization, verify);
    if !gate.Pass? then Refused(gate)
    else if ListUsers in faults then ErrorJson(500, "Failed to fetch users")
    else Json(200, SafeUsers(t, NewestFirst(t.users)))
  }

  /** Under the foreign keys the listing has one entry per user, each user's, newest first. */
  lemma GetListsEveryUserNewestFirst(t: Tables, faults: Faults, authorization: Option<string>, verify: Verifier)
    requires Linked(t)
    requires WithAdminAuth(t, faults, authorization, verify).Pass? && ListUsers !in faults
    ensures var body := Get(t, faults, authorization, verify).body;
      && |body| == |t.users|
      && (forall u :: u in t.users ==> exists s :: s in body && s.id == u.id)
      && forall i, j :: 0 <= i < j < |body| ==> body[i].createdAt >= body[j].createdAt
  {
    assert Get(t, faults, authorization, verify).body == SafeUsers(t, NewestFirst(t.users));
    NewestListing(t);
  }

  lemma NewestListing(t: Tables)
    requires Linked(t)
    ensures var body := SafeUsers(t, NewestFirst(t.users));
      && |body| == |t.users|
      && (forall u :: u in t.users ==> exists s :: s in body && s.id == u.id)
      && forall i, j :: 0 <= i < j < |body| ==> body[i].createdAt >= body[j].createdAt
  {
    var sorted := NewestFirst(t.users);
    SortedRowsHaveRoles(t, sorted);
    SafeUsersComplete(t, sorted);
    ListingCovers(t.users, sorted, SafeUsers(t, sorted));
  }

  /** A listing entry per row, rows a permutation of the users, keeps the order and reaches every user. */
  lemma ListingCovers(users: seq<User>, sorted: seq<User>, body: seq<SafeUser>)
    requires multiset(sorted) == multiset(users)
    requires forall i, j :: 0 <= i < j < |sorted| ==> sorted[i].createdAt >= sorted[j].createdAt
    requires |body| == |sorted|
    requires forall i :: 0 <= i < |body| ==> body[i].id == sorted[i].id && body[i].createdAt == sorted[i].createdAt
    ensures |body| == |users|
    ensures forall u :: u in users ==> exists s :: s in body && s.id == u.id
    ensures forall i, j :: 0 <= i < j < |body| ==> body[i].createdAt >= body[j].createdAt
  {
    assert |sorted| == |users| by {
      assert |multiset(sorted)| == |multiset(users)|;
    }
    forall u | u in users
      ensures exists s :: s in body && s.id == u.id
    {
      assert u in multiset(sorted);
      var i :| 0 <= i < |sorted| && sorted[i] == u;
      assert body[i] in body;
    }
  }

  lemma SortedRowsHaveRoles(t: Tables, sorted: seq<User>)
    requires Linked(t) && multiset(sorted) == multiset(t.users)
    ensures forall k :: 0 <= k < |sorted| ==> RoleById(t, sorted[k].roleId).Some?
  {
    forall k | 0 <= k < |sorted| ensures RoleById(t, sorted[k].roleId).Some? {
      assert sorted[k] in multiset(t.users);
      LinkedUserHasRole(t, sorted[k]);
    }
  }

  // ---- POST ----------------------------------------------------------------

  /** The JSON body of a POST; `roleId` is whatever the admin chose. */
  datatype UserRequest = UserRequest(email: string, username: string, password: string, roleId: string)

  /** The row `user.create` stores: the password hashed, the id and timestamp the database assigns. */
  function NewUser(email: string, username: string, password: string, roleId: string,
                   hash: string -> string, freshId: string, now: int): (u: User)
    ensures u.id == freshId && u.email == email && u.username == username
    ensures u.password == hash(password) && u.roleId == roleId && u.createdAt == now
  {
    User(freshId, email, username, hash(password), roleId, now)
  }

  /** The database refuses the row: duplicate id or an unknown role. */
  predicate CreateUserRejected(t: Tables, u: User) {
    UserById(t, u.id).Some? || RoleById(t, u.roleId).None?
  }

  datatype Insert<+B> = Insert(tables: Tables, reply: Reply<B>)

  function PostEffect(t: Tables, faults: Faults, authorization: Option<string>, verify: Verifier,
                      req: UserRequest, hash: string -> string, freshId: string, now: int): Insert<SafeUser>
  {
    var gate := WithAdminAuth(t, faults, authorization, verify);
    if !gate.Pass? then Insert(t, Refused(gate))
    else if FindDuplicateUser in faults then Insert(t, ErrorJson(500, "Failed to create user"))
    else if Taken(t, req.email, req.username) then Insert(t, ErrorJson(400, "User already exists"))
    else
      var u := NewUser(req.email, req.username, req.password, req.roleId, hash, freshId, now);
      if CreateUser in faults || CreateUserRejected(t, u) then Insert(t, ErrorJson(500, "Failed to create user"))
      else Insert(t.(users := t.users + [u]), Json(200, Strip(u, RoleById(t, u.roleId).value)))
  }

  /** POST `/api/users`, inserting into `db.users`. */
  method Post(db: Database, faults: Faults, authorization: Option<string>, verify: Verifier,
              req: UserRequest, hash: string -> string, freshId: string, now: int) returns (reply: Reply<SafeUser>)
    modifies db
    ensures Insert(db.Snapshot(), reply) == PostEffect(old(db.Snapshot()), faults, authorization, verify, req, hash, freshId, now)
  {
    var t := db.Snapshot();
    var gate := WithAdminAuth(t, faults, authorization, verify);
    if !gate.Pass? {
      return Refused(gate);
    }
    if FindDuplicateUser in faults {
      return ErrorJson(500, "Failed to create user");
    }
    if Taken(t, req.email, req.username) {
      return ErrorJson(400, "User already exists");
    }
    var u := NewUser(req.email, req.username, req.password, req.roleId, hash, freshId, now);
    if CreateUser in faults || CreateUserRejected(t, u) {
      return ErrorJson(500, "Failed to create user");
    }
    var role := RoleById(t, u.roleId).value;
    db.users := db.users + [u];
    return Json(200, Strip(u, role));
  }

  /** A duplicate email or username is 400 and creates nothing. */
  lemma DuplicateRefused(t: Tables, faults: Faults, authorization: Option<string>, verify: Verifier,
                         req: UserRequest, hash: string -> string, freshId: string, now: int, other: User)
    requires WithAdminAuth(t, faults, authorization, verify).Pass? && FindDuplicateUser !in faults
    requires other in t.users && (other.email == req.email || other.username == req.username)
    ensures PostEffect(t, faults, authorization, verify, req, hash, freshId, now) ==
      Insert(t, ErrorJson(400, "User already exists"))
  {
  }

  /**
   * A user is added only by a caller passing `withAdminAuth`, with the hashed
   * password and the submitted role; an accepted request is added and answered
   * without its password; and the store stays consistent.
   */
  lemma PostAddsHashedUser(t: Tables, faults: Faults, authorization: Option<string>, verify: Verifier,
                           req: UserRequest, hash: string -> string, freshId: string, now: int)
    requires Consistent(t)
    ensures var e := PostEffect(t, faults, authorization, verify, req, hash, freshId, now);
      e.tables != t ==>
        && WithAdminAuth(t, faults, authorization, verify).Pass?
        && !Taken(t, req.email, req.username)
        && e.tables.users == t.users + [NewUser(req.email, req.username, req.password, req.roleId, hash, freshId, now)]
        && e.tables.users[|t.users|].password == hash(req.password)
        && e.tables.users[|t.users|].roleId == req.roleId
        && e.reply.Json? && e.reply.body.id == freshId
    ensures var u := NewUser(req.email, req.username, req.password, req.roleId, hash, freshId, now);
      var e := PostEffect(t, faults, authorization, verify, req, hash, freshId, now);
      (&& WithAdminAuth(t, faults, authorization, verify).Pass?
       && FindDuplicateUser !in faults && CreateUser !in faults
       && !Taken(t, req.email, req.username) && !CreateUserRejected(t, u)) ==>
        && e.tables.users == t.users + [u]
        && e.reply == Json(200, Strip(u, RoleById(t, req.roleId).value))
    ensures Consistent(PostEffect(t, faults, authorization, verify, req, hash, freshId, now).tables)
  {
    var e := PostEffect(t, faults, authorization, verify, req, hash, freshId, now);
    if e.tables != t {
      var u := NewUser(req.email, req.username, req.password, req.roleId, hash, freshId, now);
      assert e.tables.users[|t.users|] == u;
      assert RoleById(t, u.roleId).Some?;
      AppendUserKeepsConsistent(t, u);
    }
  }
}
