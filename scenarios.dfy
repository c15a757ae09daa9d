/**
 * The store the seed script builds: the roles `'admin'` and `'user'`, the
 * four menus, full grants for `'admin'`, read-only `/dashboard` for
 * `'user'`, and one user of each role, in the order the script creates them.
 * Ids and timestamps are fixed. A password is a placeholder for its bcrypt
 * hash. The lemmas pin down the resolver's verdicts and the client hook's
 * view for the seeded users.
 */
module Scenarios {
  import opened Wrappers
  import opened Schema
  import opened Tokens
  import opened AuthMiddleware
  import opened RoleMenusRoute
  import opened UsePermissions
  import opened AuthStore

  const AdminRole := Role("r-admin", "admin", Some("Administrator with full system access"))
  const UserRole := Role("r-user", "user", Some("Regular user with limited access"))

  const Dashboard := Menu("m-dashboard", "Dashboard", "/dashboard", Some("LayoutDashboard"), None, 1)
  const UsersMenu := Menu("m-users", "Users", "/users", Some("Users"), None, 2)
  const RolesMenu := Menu("m-roles", "Roles", "/roles", Some("UserCheck"), None, 3)
  const MenusMenu := Menu("m-menus", "Menus", "/menus", Some("MenuIcon"), None, 4)

  const AdminDashboard := RoleMenu("g-1", AdminRole.id, Dashboard.id, AllFlags)
  const AdminUsers := RoleMenu("g-2", AdminRole.id, UsersMenu.id, AllFlags)
  const AdminRoles := RoleMenu("g-3", AdminRole.id, RolesMenu.id, AllFlags)
  const AdminMenus := RoleMenu("g-4", AdminRole.id, MenusMenu.id, AllFlags)
  const ReadDashboard := RoleMenu("g-5", UserRole.id, Dashboard.id, Flags(true, false, false, false))

  const Admin := User("u-admin", "admin@example.com", "admin", "bcrypt(admin123)", AdminRole.id, 1)
  const Member := User("u-user", "user@example.com", "user", "bcrypt(user123)", UserRole.id, 2)

  const Seeded := Tables([Admin, Member], [AdminRole, UserRole],
                         [Dashboard, UsersMenu, RolesMenu, MenusMenu],
                         [AdminDashboard, AdminUsers, AdminRoles, AdminMenus, ReadDashboard])

  /** The seeded store meets the unique constraints and the foreign keys. */
  lemma SeededConsistent()
    ensures Consistent(Seeded)
  {
    SeededKeyed();
    SeededLinked();
  }

  lemma SeededKeyed()
    ensures Keyed(Seeded)
  {
    SeededUsersKeyed();
    SeededMenusKeyed();
    SeededGrantsKeyed();
  }

  lemma SeededUsersKeyed()
    ensures forall i, j :: 0 <= i < |Seeded.users| && 0 <= j < |Seeded.users| && Seeded.users[i].id == Seeded.users[j].id ==> i == j
    ensures forall i, j :: 0 <= i < |Seeded.users| && 0 <= j < |Seeded.users| && Seeded.users[i].email == Seeded.users[j].email ==> i == j
    ensures forall i, j :: 0 <= i < |Seeded.users| && 0 <= j < |Seeded.users| && Seeded.users[i].username == Seeded.users[j].username ==> i == j
    ensures forall i, j :: 0 <= i < |Seeded.roles| && 0 <= j < |Seeded.roles| && Seeded.roles[i].id == Seeded.roles[j].id ==> i == j
    ensures forall i, j :: 0 <= i < |Seeded.roles| && 0 <= j < |Seeded.roles| && Seeded.roles[i].name == Seeded.roles[j].name ==> i == j
  {
  }

  lemma SeededMenusKeyed()
    ensures forall i, j :: 0 <= i < |Seeded.menus| && 0 <= j < |Seeded.menus| && Seeded.menus[i].id == Seeded.menus[j].id ==> i == j
    ensures forall i, j :: 0 <= i < |Seeded.menus| && 0 <= j < |Seeded.menus| && Seeded.menus[i].path == Seeded.menus[j].path ==> i == j
  {
  }

  lemma SeededGrantsKeyed()
    ensures forall i, j :: 0 <= i < |Seeded.grants| && 0 <= j < |Seeded.grants| && Seeded.grants[i].id == Seeded.grants[j].id ==> i == j
    ensures forall i, j ::
      (0 <= i < |Seeded.grants| && 0 <= j < |Seeded.grants| &&
       Seeded.grants[i].roleId == Seeded.grants[j].roleId && Seeded.grants[i].menuId == Seeded.grants[j].menuId) ==> i == j
  {
  }

  lemma SeededLinked()
    ensures Linked(Seeded)
  {
    assert AdminRole in Seeded.roles && UserRole in Seeded.roles;
    assert Dashboard in Seeded.menus && UsersMenu in Seeded.menus && RolesMenu in Seeded.menus && MenusMenu in Seeded.menus;
  }

  /** The lookups the two users' requests make. */
  lemma SeededLookups()
    ensures UserWithRole(Seeded, Member.id) == Some((Member, UserRole))
    ensures UserWithRole(Seeded, Admin.id) == Some((Admin, AdminRole))
    ensures MenuByPath(Seeded, "/dashboard") == Some(Dashboard)
    ensures MenuByPath(Seeded, "/roles") == Some(RolesMenu)
    ensures GrantFor(Seeded, UserRole.id, Dashboard.id) == Some(ReadDashboard)
    ensures GrantFor(Seeded, UserRole.id, RolesMenu.id) == None
  {
    SeededUserLookups();
    SeededMenuLookups();
    SeededGrantLookups();
  }

  lemma SeededUserLookups()
    ensures UserWithRole(Seeded, Member.id) == Some((Member, UserRole))
    ensures UserWithRole(Seeded, Admin.id) == Some((Admin, AdminRole))
  {
    SeededKeyed();
    assert Member in Seeded.users && Admin in Seeded.users;
    assert UserRole in Seeded.roles && AdminRole in Seeded.roles;
    KeyedUserWithRole(Seeded, Member, UserRole);
    KeyedUserWithRole(Seeded, Admin, AdminRole);
  }

  lemma SeededMenuLookups()
    ensures MenuByPath(Seeded, "/dashboard") == Some(Dashboard)
    ensures MenuByPath(Seeded, "/roles") == Some(RolesMenu)
  {
    SeededKeyed();
    assert Dashboard in Seeded.menus && RolesMenu in Seeded.menus;
    KeyedMenuByPath(Seeded, Dashboard);
    KeyedMenuByPath(Seeded, RolesMenu);
  }

  lemma SeededGrantLookups()
    ensures GrantFor(Seeded, UserRole.id, Dashboard.id) == Some(ReadDashboard)
    ensures GrantFor(Seeded, UserRole.id, RolesMenu.id) == None
  {
    SeededKeyed();
    assert ReadDashboard in Seeded.grants;
    KeyedGrantFor(Seeded, ReadDashboard);
  }

  /** The server lets the `'user'` member read the dashboard... */
  lemma DashboardReadable(faults: Faults)
    requires FindUserById !in faults && FindMenuByPath !in faults && FindGrant !in faults
    ensures Resolve(Seeded, faults, Member.id, "/dashboard", CanRead) == Allow
  {
    SeededLookups();
    GrantDecides(Seeded, faults, Member.id, "/dashboard", CanRead);
  }

  /** ...and refuses writing it, naming the flag and the path. */
  lemma DashboardNotWritable(faults: Faults)
    requires FindUserById !in faults && FindMenuByPath !in faults && FindGrant !in faults
    ensures Resolve(Seeded, faults, Member.id, "/dashboard", CanWrite) ==
      Deny(403, "Insufficient permissions. Required: canWrite on /dashboard")
  {
    SeededLookups();
    GrantDecides(Seeded, faults, Member.id, "/dashboard", CanWrite);
    assert !Flag(ReadDashboard.flags, CanWrite);
    WriteMessage();
  }

  lemma WriteMessage()
    ensures InsufficientMessage(CanWrite, "/dashboard") == "Insufficient permissions. Required: canWrite on /dashboard"
  {
    assert PermissionName(CanWrite) == "canWrite";
  }

  /** A seeded menu without a grant of the role is 403 for the member. */
  lemma RolesForbiddenForUser(faults: Faults)
    requires FindUserById !in faults && FindMenuByPath !in faults && FindGrant !in faults
    ensures Resolve(Seeded, faults, Member.id, "/roles", CanRead) ==
      Deny(403, "Insufficient permissions. Required: canRead on /roles")
  {
    SeededLookups();
    GrantDecides(Seeded, faults, Member.id, "/roles", CanRead);
    ReadRolesMessage();
  }

  lemma ReadRolesMessage()
    ensures InsufficientMessage(CanRead, "/roles") == "Insufficient permissions. Required: canRead on /roles"
  {
    assert PermissionName(CanRead) == "canRead";
  }

  /** A path the seed creates no menu for is 404 for the member. */
  lemma UnknownPathForUser(faults: Faults)
    requires FindUserById !in faults && FindMenuByPath !in faults
    ensures Resolve(Seeded, faults, Member.id, "/reports", CanRead) == Deny(404, "Menu not found")
  {
    SeededLookups();
    UnconfiguredPathIs404(Seeded, faults, Member.id, "/reports", CanRead);
  }

  /**
   * The seeded administrator's role is named `'admin'`, not `'Super admin'`,
   * so every `withAdminAuth` route refuses them with 403.
   */
  lemma SeededAdminRefusedByAdminGuard(authorization: Option<string>, verify: Verifier)
    requires WithAuth(authorization, verify).Pass? && WithAuth(authorization, verify).principal.userId == Admin.id
    ensures WithAdminAuth(Seeded, {}, authorization, verify) == Refuse(403, "Admin access required")
  {
    SeededLookups();
  }

  /**
   * Yet the client hook shows the member nothing on the dashboard: the grant
   * listing it fetches is admin-only, so the fetch is refused and every flag is false.
   */
  lemma AsWrittenHookHidesGrantedRead(authorization: Option<string>, verify: Verifier)
    requires WithAuth(authorization, verify).Pass? && WithAuth(authorization, verify).principal.userId == Member.id
    ensures WithReadPermission(Seeded, {}, authorization, verify, "/dashboard").Pass?
    ensures !QueryPermissions(Some(SessionUser(Member.id, Member.email, Member.username, UserRole)), "/dashboard",
              FetchOf(RoleMenusRoute.Get(Seeded, {}, authorization, verify, Some(UserRole.id)))).canRead
  {
    DashboardReadable({});
    SeededLookups();
    HookFailsClosedWithoutAdminRole(Seeded, {}, authorization, verify,
                                    SessionUser(Member.id, Member.email, Member.username, UserRole), "/dashboard");
  }
}
