/**
 * The server-side guard chain: `withAuth` authenticates the bearer token,
 * `withAdminAuth` checks the role name, and `withPermission` resolves the
 * caller's grant on a menu path. Each guard either runs the wrapped handler
 * with the token's principal (`Pass`) or answers in its place.
 */
module AuthMiddleware {
  import opened Wrappers
  import opened Schema
  import opened Tokens
  import opened Http

  /** The role name `withAdminAuth` requires and `withPermission` lets past every grant check. */
  const SuperAdmin := "Super admin"

  const BearerPrefix := "Bearer "

  /** The outcome of a guard. */
  datatype Gate =
    | Pass(principal: TokenPayload)        // the handler runs with this principal
    | Refuse(status: int, error: string)   // NextResponse.json({ error }, { status })
    | Escape                               // a rejection the guard does not catch

  /** `s.replace(pat, '')`: removes the first occurrence of `pat`, if any. */
  function RemoveFirst(s: string, pat: string): (r: string)
    ensures |r| <= |s|
    decreases |s|
  {
    if |s| < |pat| then s
    else if s[..|pat|] == pat then s[|pat|..]
    else [s[0]] + RemoveFirst(s[1..], pat)
  }

  /** The token `withAuth` reads: the header minus its first `"Bearer "`; `""` when absent. */
  function BearerToken(authorization: Option<string>): string {
    match authorization
    case None => ""
    case Some(h) => RemoveFirst(h, BearerPrefix)
  }

  lemma {:induction false} BearerTokenOfPrefixedHeader(token: string)
    ensures BearerToken(Some(BearerPrefix + token)) == token
  {
    assert (BearerPrefix + token)[..|BearerPrefix|] == BearerPrefix;
    assert (BearerPrefix + token)[|BearerPrefix|..] == token;
  }

  /** `withAuth`: passes exactly when a non-empty token verifies, with its payload. */
  function WithAuth(authorization: Option<string>, verify: Verifier): (g: Gate)
    ensures g.Pass? <==> BearerToken(authorization) != "" && verify(BearerToken(authorization)).Some?
    ensures g.Pass? ==> Some(g.principal) == verify(BearerToken(authorization))
    ensures !g.Pass? ==> g.Refuse? && g.status == 401
    ensures BearerToken(authorization) == "" ==> g == Refuse(401, "Authentication required")
    ensures BearerToken(authorization) != "" && verify(BearerToken(authorization)).None? ==> g == Refuse(401, "Invalid token")
  {
    var token := BearerToken(authorization);
    if token == "" then Refuse(401, "Authentication required")
    else match verify(token)
      case None => Refuse(401, "Invalid token")
      case Some(p) => Pass(p)
  }

  /** `withAdminAuth`: the caller's stored role must be named exactly `'Super admin'`. */
  function WithAdminAuth(t: Tables, faults: Faults, authorization: Option<string>, verify: Verifier): (g: Gate)
    ensures !WithAuth(authorization, verify).Pass? ==> g == WithAuth(authorization, verify)
    ensures g.Pass? ==> g == WithAuth(authorization, verify)
    ensures g.Pass? <==>
      && WithAuth(authorization, verify).Pass?
      && FindUserById !in faults
      && var found := UserWithRole(t, WithAuth(authorization, verify).principal.userId);
         found.Some? && found.value.1.name == SuperAdmin
    ensures WithAuth(authorization, verify).Pass? && FindUserById in faults ==> g.Escape?
    ensures WithAuth(authorization, verify).Pass? && g.Refuse? ==> g == Refuse(403, "Admin access required")
    ensures WithAuth(authorization, verify).Pass? && FindUserById !in faults && !g.Pass? ==>
      g == Refuse(403, "Admin access required")
  {
    match WithAuth(authorization, verify)
    case Pass(p) =>
      if FindUserById in faults then Escape
      else
        var found := UserWithRole(t, p.userId);
        if found.None? || found.value.1.name != SuperAdmin then Refuse(403, "Admin access required")
        else Pass(p)
    case other => other
  }

  /** The verdict of the permission check inside `withPermission`. */
  datatype Verdict = Allow | Deny(status: int, error: string)

  function InsufficientMessage(p: Permission, menuPath: string): string {
    "Insufficient permissions. Required: " + PermissionName(p) + " on " + menuPath
  }

  /**
   * The permission check of `withPermission` for the principal `userId`, in
   * the source's order of store calls: user, then menu, then grant.
   */
  function Resolve(t: Tables, faults: Faults, userId: string, menuPath: string, p: Permission): (v: Verdict)
    ensures v.Deny? ==> v.status in {403, 404, 500}
    ensures FindUserById in faults ==> v == Deny(500, "Permission check failed")
    ensures FindUserById !in faults && UserWithRole(t, userId).None? ==> v == Deny(404, "User not found")
  {
    if FindUserById in faults then Deny(500, "Permission check failed")
    else
      var found := UserWithRole(t, userId);
      if found.None? then Deny(404, "User not found")
      else if found.value.1.name == SuperAdmin then Allow
      else if FindMenuByPath in faults then Deny(500, "Permission check failed")
      else
        var menu := MenuByPath(t, menuPath);
        if menu.None? then Deny(404, "Menu not found")
        else if FindGrant in faults then Deny(500, "Permission check failed")
        else
          var grant := GrantFor(t, found.value.0.roleId, menu.value.id);
          if grant.Some? && Flag(grant.value.flags, p) then Allow
          else Deny(403, InsufficientMessage(p, menuPath))
  }

  /** `withPermission(menuPath, permission, handler)`. */
  function WithPermission(t: Tables, faults: Faults, authorization: Option<string>, verify: Verifier,
                          menuPath: string, p: Permission): (g: Gate)
    ensures !WithAuth(authorization, verify).Pass? ==> g == WithAuth(authorization, verify)
    ensures g.Pass? ==> g == WithAuth(authorization, verify)
    ensures g.Pass? <==>
      WithAuth(authorization, verify).Pass? &&
      Resolve(t, faults, WithAuth(authorization, verify).principal.userId, menuPath, p).Allow?
    ensures WithAuth(authorization, verify).Pass? ==>
      var v := Resolve(t, faults, WithAuth(authorization, verify).principal.userId, menuPath, p);
      v.Deny? ==> g == Refuse(v.status, v.error)
    ensures !g.Escape?
  {
    match WithAuth(authorization, verify)
    case Pass(principal) =>
      (match Resolve(t, faults, principal.userId, menuPath, p)
       case Allow => Pass(principal)
       case Deny(status, error) => Refuse(status, error))
    case other => other
  }

  function WithReadPermission(t: Tables, faults: Faults, authorization: Option<string>, verify: Verifier,
                              menuPath: string): Gate {
    WithPermission(t, faults, authorization, verify, menuPath, CanRead)
  }

  function WithWritePermission(t: Tables, faults: Faults, authorization: Option<string>, verify: Verifier,
                               menuPath: string): Gate {
    WithPermission(t, faults, authorization, verify, menuPath, CanWrite)
  }

  function WithUpdatePermission(t: Tables, faults: Faults, authorization: Option<string>, verify: Verifier,
                                menuPath: string): Gate {
    WithPermission(t, faults, authorization, verify, menuPath, CanUpdate)
  }

  function WithDeletePermission(t: Tables, faults: Faults, authorization: Option<string>, verify: Verifier,
                                menuPath: string): Gate {
    WithPermission(t, faults, authorization, verify, menuPath, CanDelete)
  }

  /** The reply a route gives when its guard does not pass. */
  function Refused<B>(g: Gate): (r: Reply<B>)
    requires !g.Pass?
    ensures g.Escape? <==> r.Crashed?
    ensures g.Refuse? ==> r == ErrorJson(g.status, g.error)
  {
    match g
    case Refuse(status, error) => ErrorJson(status, error)
    case Escape => Crashed
  }

  // ---- Properties of the permission check --------------------------------

  /** The superuser passes for every path and permission, whatever the menus, grants or later store calls. */
  lemma SuperAdminBypass(t: Tables, faults: Faults, userId: string, menuPath: string, p: Permission)
    requires FindUserById !in faults
    requires UserWithRole(t, userId).Some? && UserWithRole(t, userId).value.1.name == SuperAdmin
    ensures Resolve(t, faults, userId, menuPath, p) == Allow
  {
  }

  /** For anyone else, a path with no menu is 404. */
  lemma UnconfiguredPathIs404(t: Tables, faults: Faults, userId: string, menuPath: string, p: Permission)
    requires FindUserById !in faults && FindMenuByPath !in faults
    requires UserWithRole(t, userId).Some? && UserWithRole(t, userId).value.1.name != SuperAdmin
    requires forall m :: m in t.menus ==> m.path != menuPath
    ensures Resolve(t, faults, userId, menuPath, p) == Deny(404, "Menu not found")
  {
  }

  /**
   * For anyone else on a configured path, the handler runs iff a grant for
   * (role, menu) exists with the requested flag; otherwise 403 naming both.
   */
  lemma GrantDecides(t: Tables, faults: Faults, userId: string, menuPath: string, p: Permission)
    requires FindUserById !in faults && FindMenuByPath !in faults && FindGrant !in faults
    requires UserWithRole(t, userId).Some? && UserWithRole(t, userId).value.1.name != SuperAdmin
    requires MenuByPath(t, menuPath).Some?
    ensures var u := UserWithRole(t, userId).value.0;
            var g := GrantFor(t, u.roleId, MenuByPath(t, menuPath).value.id);
            Resolve(t, faults, userId, menuPath, p) ==
              if g.Some? && Flag(g.value.flags, p) then Allow else Deny(403, InsufficientMessage(p, menuPath))
  {
  }

  /** A store call that throws on the way to a decision makes it 500, never an allow. */
  lemma StoreFailureIs500(t: Tables, faults: Faults, userId: string, menuPath: string, p: Permission)
    requires UserWithRole(t, userId).Some? && UserWithRole(t, userId).value.1.name != SuperAdmin
    requires MenuByPath(t, menuPath).Some? || FindMenuByPath in faults
    requires FindUserById in faults || FindMenuByPath in faults || FindGrant in faults
    ensures Resolve(t, faults, userId, menuPath, p) == Deny(500, "Permission check failed")
  {
  }

  /** The four convenience guards are `withPermission` with their flag. */
  lemma ConvenienceGuards(t: Tables, faults: Faults, authorization: Option<string>, verify: Verifier, menuPath: string)
    ensures WithReadPermission(t, faults, authorization, verify, menuPath) == WithPermission(t, faults, authorization, verify, menuPath, CanRead)
    ensures WithWritePermission(t, faults, authorization, verify, menuPath) == WithPermission(t, faults, authorization, verify, menuPath, CanWrite)
    ensures WithUpdatePermission(t, faults, authorization, verify, menuPath) == WithPermission(t, faults, authorization, verify, menuPath, CanUpdate)
    ensures WithDeletePermission(t, faults, authorization, verify, menuPath) == WithPermission(t, faults, authorization, verify, menuPath, CanDelete)
  {
  }

  /** The access rule stated directly on the tables (the resolver's reference definition). */
  ghost predicate Entitled(t: Tables, userId: string, menuPath: string, p: Permission) {
    exists u, role :: u in t.users && role in t.roles && u.id == userId && role.id == u.roleId &&
      (role.name == SuperAdmin ||
       exists m, g :: m in t.menus && g in t.grants && m.path == menuPath &&
         g.roleId == u.roleId && g.menuId == m.id && Flag(g.flags, p))
  }

  /** When no store call fails, the resolver allows exactly the entitled requests. */
  lemma ResolveMatchesEntitlement(t: Tables, faults: Faults, userId: string, menuPath: string, p: Permission)
    requires Keyed(t)
    requires FindUserById !in faults && FindMenuByPath !in faults && FindGrant !in faults
    ensures Resolve(t, faults, userId, menuPath, p).Allow? <==> Entitled(t, userId, menuPath, p)
  {
    if Resolve(t, faults, userId, menuPath, p).Allow? {
      AllowedIsEntitled(t, faults, userId, menuPath, p);
    }
    if Entitled(t, userId, menuPath, p) {
      EntitledIsAllowed(t, faults, userId, menuPath, p);
    }
  }

  lemma AllowedIsEntitled(t: Tables, faults: Faults, userId: string, menuPath: string, p: Permission)
    requires Resolve(t, faults, userId, menuPath, p).Allow?
    ensures Entitled(t, userId, menuPath, p)
  {
    var (u, role) := UserWithRole(t, userId).value;
    if role.name != SuperAdmin {
      var m := MenuByPath(t, menuPath).value;
      var g := GrantFor(t, u.roleId, m.id).value;
      assert m in t.menus && g in t.grants && m.path == menuPath && g.roleId == u.roleId && g.menuId == m.id && Flag(g.flags, p);
    }
  }

  lemma EntitledIsAllowed(t: Tables, faults: Faults, userId: string, menuPath: string, p: Permission)
    requires Keyed(t)
    requires FindUserById !in faults && FindMenuByPath !in faults && FindGrant !in faults
    requires Entitled(t, userId, menuPath, p)
    ensures Resolve(t, faults, userId, menuPath, p).Allow?
  {
    var u, role :| u in t.users && role in t.roles && u.id == userId && role.id == u.roleId &&
      (role.name == SuperAdmin ||
       exists m, g :: m in t.menus && g in t.grants && m.path == menuPath &&
         g.roleId == u.roleId && g.menuId == m.id && Flag(g.flags, p));
    KeyedUserWithRole(t, u, role);
    if role.name == SuperAdmin {
      SuperAdminBypass(t, faults, userId, menuPath, p);
    } else {
      var m, g :| m in t.menus && g in t.grants && m.path == menuPath &&
        g.roleId == u.roleId && g.menuId == m.id && Flag(g.flags, p);
      GrantedIsAllowed(t, faults, userId, u, m, g, menuPath, p);
    }
  }

  lemma GrantedIsAllowed(t: Tables, faults: Faults, userId: string, u: User, m: Menu, g: RoleMenu,
                         menuPath: string, p: Permission)
    requires Keyed(t)
    requires FindUserById !in faults && FindMenuByPath !in faults && FindGrant !in faults
    requires UserWithRole(t, userId).Some? && UserWithRole(t, userId).value.0 == u
    requires UserWithRole(t, userId).value.1.name != SuperAdmin
    requires m in t.menus && g in t.grants && m.path == menuPath
    requires g.roleId == u.roleId && g.menuId == m.id && Flag(g.flags, p)
    ensures Resolve(t, faults, userId, menuPath, p).Allow?
  {
    KeyedMenuByPath(t, m);
    KeyedGrantFor(t, g);
    GrantDecides(t, faults, userId, menuPath, p);
  }

  /** The same rule for the whole guard: the handler runs iff the token verifies and the caller is entitled. */
  lemma WithPermissionMatchesEntitlement(t: Tables, faults: Faults, authorization: Option<string>,
                                         verify: Verifier, menuPath: string, p: Permission)
    requires Keyed(t)
    requires FindUserById !in faults && FindMenuByPath !in faults && FindGrant !in faults
    ensures WithPermission(t, faults, authorization, verify, menuPath, p).Pass? <==>
      WithAuth(authorization, verify).Pass? &&
      Entitled(t, WithAuth(authorization, verify).principal.userId, menuPath, p)
  {
    if WithAuth(authorization, verify).Pass? {
      ResolveMatchesEntitlement(t, faults, WithAuth(authorization, verify).principal.userId, menuPath, p);
    }
  }

  /** `withAdminAuth` stated on the tables: the caller's role, found by id, is named `'Super admin'`. */
  lemma AdminAuthMatchesStore(t: Tables, faults: Faults, authorization: Option<string>, verify: Verifier)
    requires Keyed(t)
    requires FindUserById !in faults
    ensures WithAdminAuth(t, faults, authorization, verify).Pass? <==>
      WithAuth(authorization, verify).Pass? &&
      exists u, role :: u in t.users && role in t.roles &&
        u.id == WithAuth(authorization, verify).principal.userId &&
        role.id == u.roleId && role.name == SuperAdmin
  {
    if WithAuth(authorization, verify).Pass? {
      var id := WithAuth(authorization, verify).principal.userId;
      if exists u, role :: u in t.users && role in t.roles && u.id == id && role.id == u.roleId && role.name == SuperAdmin {
        var u, role :| u in t.users && role in t.roles && u.id == id && role.id == u.roleId && role.name == SuperAdmin;
        KeyedUserWithRole(t, u, role);
      }
    }
  }
}
