/**
 * The client-side permission hooks: `useUserPermissions` resolves the
 * logged-in user's flags on a menu path from the role's grant list, and the
 * guard hooks map those flags to what the page may show. The grant list is
 * fetched from `/api/role-menus?roleId=…`; the fetch is an input here.
 */
module UsePermissions {
  import opened Wrappers
  import opened Seqs
  import opened Schema
  import opened Tokens
  import opened Http
  import opened AuthMiddleware
  import opened RoleMenusRoute
  import opened AuthStore

  /** The role name the hook treats as superuser: every flag is shown. */
  const SuperAdminName := "Super admin"

  /** The outcome of `apiClient.get('/role-menus?roleId=…')`. */
  datatype Fetch = Fetched(rows: seq<GrantView>) | FetchFailed

  /** axios resolves with the body of a 2xx reply and rejects on anything else. */
  function FetchOf(r: Reply<seq<GrantView>>): (f: Fetch)
    ensures f.Fetched? <==> r.Json? && 200 <= r.status < 300
  {
    if r.Json? && 200 <= r.status < 300 then Fetched(r.body) else FetchFailed
  }

  /** The `queryFn` of `useUserPermissions(menuPath)`. */
  function QueryPermissions(user: Option<SessionUser>, menuPath: string, fetch: Fetch): (f: Flags)
    ensures user.None? ==> f == NoFlags
    ensures user.Some? && user.value.role.name == SuperAdminName ==> f == AllFlags
    ensures user.Some? && user.value.role.name != SuperAdminName && fetch.FetchFailed? ==> f == NoFlags
    ensures user.Some? && user.value.role.name != SuperAdminName && fetch.Fetched? ==>
      if forall v :: v in fetch.rows ==> v.menu.path != menuPath then f == NoFlags
      else exists k :: 0 <= k < |fetch.rows| && fetch.rows[k].menu.path == menuPath && f == fetch.rows[k].grant.flags &&
             forall j :: 0 <= j < k ==> fetch.rows[j].menu.path != menuPath
  {
    if user.None? then NoFlags
    else if user.value.role.name == SuperAdminName then AllFlags
    else match fetch
      case FetchFailed => NoFlags
      case Fetched(rows) =>
        match FirstOnPath(rows, menuPath)
        case None => NoFlags
        case Some(k) => rows[k].grant.flags
  }

  /** `useHasPermission(menuPath, permission).hasPermission`: the flag, false without data. */
  function HasPermission(data: Option<Flags>, p: Permission): (b: bool)
    ensures b <==> data.Some? && Flag(data.value, p)
  {
    match data
    case None => false
    case Some(f) => Flag(f, p)
  }

  datatype PermissionGuard = PermissionGuard(canRead: bool, canWrite: bool, canUpdate: bool, canDelete: bool,
                                             showAddButton: bool, showEditButton: bool, showDeleteButton: bool)

  /** `usePermissionGuard(menuPath)`: the flags and the buttons they enable, all false without data. */
  function UsePermissionGuard(data: Option<Flags>): (g: PermissionGuard)
    ensures g.showAddButton == g.canWrite && g.showEditButton == g.canUpdate && g.showDeleteButton == g.canDelete
    ensures g.canRead == HasPermission(data, CanRead) && g.canWrite == HasPermission(data, CanWrite)
    ensures g.canUpdate == HasPermission(data, CanUpdate) && g.canDelete == HasPermission(data, CanDelete)
  {
    var f := data.GetOr(NoFlags);
    PermissionGuard(f.canRead, f.canWrite, f.canUpdate, f.canDelete, f.canWrite, f.canUpdate, f.canDelete)
  }

  // ---- The hook against the server ---------------------------------------

  /**
   * The grant list lives behind `withAdminAuth`, so for every caller whose
   * stored role is not `'Super admin'` the fetch is refused and the hook
   * fails closed: all flags false, whatever the grants say.
   */
  lemma HookFailsClosedWithoutAdminRole(t: Tables, faults: Faults, authorization: Option<string>,
                                        verify: Verifier, user: SessionUser, menuPath: string)
    requires user.role.name != SuperAdminName
    requires !WithAdminAuth(t, faults, authorization, verify).Pass?
    ensures QueryPermissions(Some(user), menuPath,
              FetchOf(RoleMenusRoute.Get(t, faults, authorization, verify, Some(user.role.id)))) == NoFlags
  {
  }

  /** The index of the first listed grant on `menuPath`, as the hook's `find` picks it. */
  function FirstOnPath(rows: seq<GrantView>, menuPath: string): (r: Option<nat>)
    ensures r.Some? ==> r.value < |rows| && rows[r.value].menu.path == menuPath
    ensures r.None? <==> forall j :: 0 <= j < |rows| ==> rows[j].menu.path != menuPath
  {
    FirstIndex(rows, (v: GrantView) => v.menu.path == menuPath)
  }

  /** What a delivered grant list gives a non-superuser: the flag of the first grant on the path. */
  lemma HookOnFetchedRows(user: SessionUser, menuPath: string, rows: seq<GrantView>, p: Permission)
    requires user.role.name != SuperAdminName
    ensures Flag(QueryPermissions(Some(user), menuPath, Fetched(rows)), p) <==>
      FirstOnPath(rows, menuPath).Some? && Flag(rows[FirstOnPath(rows, menuPath).value].grant.flags, p)
  {
  }

  /** A flag the hook reports on the role's own grant list is one the grant table gives. */
  lemma HookFlagIsEntitled(t: Tables, user: SessionUser, u: User, menuPath: string, p: Permission)
    requires u in t.users && u.id == user.id && user.role in t.roles && user.role.id == u.roleId
    requires user.role.name != SuperAdminName && user.role.id != ""
    requires var rows := Joined(t, t.grants, RoleFilter(Some(user.role.id)));
      FirstOnPath(rows, menuPath).Some? && Flag(rows[FirstOnPath(rows, menuPath).value].grant.flags, p)
    ensures Entitled(t, user.id, menuPath, p)
  {
    var rows := Joined(t, t.grants, RoleFilter(Some(user.role.id)));
    var v := rows[FirstOnPath(rows, menuPath).value];
    assert v in rows;
    assert v.menu in t.menus && v.grant in t.grants && v.menu.path == menuPath;
    assert v.grant.roleId == u.roleId && v.grant.menuId == v.menu.id && Flag(v.grant.flags, p);
  }

  /** For a non-superuser an entitlement is a grant of the user's own role. */
  lemma EntitledByOwnGrant(t: Tables, user: SessionUser, u: User, menuPath: string, p: Permission)
    requires Keyed(t)
    requires u in t.users && u.id == user.id && user.role in t.roles && user.role.id == u.roleId
    requires user.role.name != SuperAdminName
    requires Entitled(t, user.id, menuPath, p)
    ensures exists m, g :: (m in t.menus && g in t.grants && m.path == menuPath &&
                            g.roleId == u.roleId && g.menuId == m.id && Flag(g.flags, p))
  {
    var u', role :| u' in t.users && role in t.roles && u'.id == user.id && role.id == u'.roleId &&
      (role.name == SuperAdmin ||
       exists m, g :: m in t.menus && g in t.grants && m.path == menuPath &&
         g.roleId == u'.roleId && g.menuId == m.id && Flag(g.flags, p));
    SameUser(t, u, u');
    SameRole(t, role, user.role);
  }

  /** Conversely, an entitlement of a non-superuser shows up in the role's grant list. */
  lemma EntitledShowsInHook(t: Tables, user: SessionUser, u: User, menuPath: string, p: Permission)
    requires Consistent(t)
    requires u in t.users && u.id == user.id && user.role in t.roles && user.role.id == u.roleId
    requires user.role.name != SuperAdminName && user.role.id != ""
    requires Entitled(t, user.id, menuPath, p)
    ensures var rows := Joined(t, t.grants, RoleFilter(Some(user.role.id)));
      FirstOnPath(rows, menuPath).Some? && Flag(rows[FirstOnPath(rows, menuPath).value].grant.flags, p)
  {
    EntitledByOwnGrant(t, user, u, menuPath, p);
    var m, g :| m in t.menus && g in t.grants && m.path == menuPath &&
      g.roleId == u.roleId && g.menuId == m.id && Flag(g.flags, p);
    GrantShowsInHook(t, user.role.id, menuPath, m, g);
  }

  /** A grant of the role on the path's menu is the first grant on that path in the role's list. */
  lemma GrantShowsInHook(t: Tables, roleId: string, menuPath: string, m: Menu, g: RoleMenu)
    requires Consistent(t) && roleId != ""
    requires m in t.menus && g in t.grants && m.path == menuPath && g.roleId == roleId && g.menuId == m.id
    ensures var rows := Joined(t, t.grants, RoleFilter(Some(roleId)));
      FirstOnPath(rows, menuPath).Some? && rows[FirstOnPath(rows, menuPath).value].grant == g
  {
    var keep := RoleFilter(Some(roleId));
    var rows := Joined(t, t.grants, keep);
    JoinedComplete(t, t.grants, keep, g);
    forall v | v in rows ensures v.grant.roleId == roleId {
      assert keep(v.grant);
    }
    FirstOnPathFinds(t, rows, roleId, menuPath, m, g);
  }

  lemma FirstOnPathFinds(t: Tables, rows: seq<GrantView>, roleId: string, menuPath: string, m: Menu, g: RoleMenu)
    requires Keyed(t)
    requires m in t.menus && g in t.grants && m.path == menuPath && g.roleId == roleId && g.menuId == m.id
    requires forall v :: v in rows ==> v.grant in t.grants && v.grant.roleId == roleId
    requires forall v :: v in rows ==> v.menu in t.menus && v.menu.id == v.grant.menuId
    requires exists v :: v in rows && v.grant == g
    ensures FirstOnPath(rows, menuPath).Some? && rows[FirstOnPath(rows, menuPath).value].grant == g
  {
    var v :| v in rows && v.grant == g;
    SameMenu(t, v.menu, m);
    var k :| 0 <= k < |rows| && rows[k] == v;
    assert rows[k].menu.path == menuPath;
    var w := rows[FirstOnPath(rows, menuPath).value];
    assert w in rows;
    SameMenu(t, w.menu, m);
    SameGrant(t, w.grant, g);
  }

  /**
   * When the role's grant list is delivered, the client resolver agrees with
   * the server's for a caller whose session matches the store.
   */
  lemma ClientAgreesWithServer(t: Tables, faults: Faults, user: SessionUser, u: User, menuPath: string, p: Permission)
    requires Consistent(t)
    requires FindUserById !in faults && FindMenuByPath !in faults && FindGrant !in faults
    requires u in t.users && u.id == user.id && user.role in t.roles && user.role.id == u.roleId
    requires user.role.name != SuperAdminName && user.role.id != ""
    ensures var rows := Joined(t, t.grants, RoleFilter(Some(user.role.id)));
      Flag(QueryPermissions(Some(user), menuPath, Fetched(rows)), p) <==>
      Resolve(t, faults, user.id, menuPath, p).Allow?
  {
    var rows := Joined(t, t.grants, RoleFilter(Some(user.role.id)));
    HookOnFetchedRows(user, menuPath, rows, p);
    ResolveMatchesEntitlement(t, faults, user.id, menuPath, p);
    if FirstOnPath(rows, menuPath).Some? && Flag(rows[FirstOnPath(rows, menuPath).value].grant.flags, p) {
      HookFlagIsEntitled(t, user, u, menuPath, p);
    }
    if Entitled(t, user.id, menuPath, p) {
      EntitledShowsInHook(t, user, u, menuPath, p);
    }
  }

  // ---- The hook as evidently intended ---------------------------------------

  /**
   * A grant listing the hook could use: like GET `/api/role-menus`, but it
   * also admits a caller asking for the grants of their own stored role.
   */
  function OwnGrantsReply(t: Tables, faults: Faults, authorization: Option<string>, verify: Verifier,
                          roleId: string): (r: Reply<seq<GrantView>>)
    ensures r.Json? ==> r.status == 200 && WithAuth(authorization, verify).Pass?
  {
    var gate := WithAuth(authorization, verify);
    if !gate.Pass? then Refused(gate)
    else if FindUserById in faults then ErrorJson(500, "Failed to fetch role menus")
    else
      var found := UserWithRole(t, gate.principal.userId);
      if found.None? || (found.value.1.name != SuperAdmin && found.value.0.roleId != roleId) then
        ErrorJson(403, "Admin access required")
      else if ListGrants in faults then ErrorJson(500, "Failed to fetch role menus")
      else Json(200, Joined(t, t.grants, RoleFilter(Some(roleId))))
  }

  /**
   * With that listing, the button a page shows for a flag is shown exactly
   * when the server would run the handler guarded by that flag.
   */
  lemma IntendedHookAgreesWithServer(t: Tables, faults: Faults, authorization: Option<string>, verify: Verifier,
                                     user: SessionUser, u: User, menuPath: string, p: Permission)
    requires Consistent(t)
    requires FindUserById !in faults && ListGrants !in faults && FindMenuByPath !in faults && FindGrant !in faults
    requires WithAuth(authorization, verify).Pass? && WithAuth(authorization, verify).principal.userId == u.id
    requires u in t.users && u.id == user.id && user.role in t.roles && user.role.id == u.roleId
    requires user.role.name != SuperAdminName && user.role.id != ""
    ensures Flag(QueryPermissions(Some(user), menuPath,
                   FetchOf(OwnGrantsReply(t, faults, authorization, verify, user.role.id))), p) <==>
      WithPermission(t, faults, authorization, verify, menuPath, p).Pass?
  {
    KeyedUserWithRole(t, u, user.role);
    ClientAgreesWithServer(t, faults, user, u, menuPath, p);
  }
}
