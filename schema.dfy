/**
 * The relational store behind every route: the User, Role, Menu and RoleMenu
 * tables of the Prisma schema, the lookups the routes make against them, the
 * uniqueness and foreign-key constraints the database enforces, and the set
 * of store calls that may throw on a given request.
 */
module Schema {
  import opened Wrappers
  import opened Seqs

  datatype Role = Role(id: string, name: string, description: Option<string>)

  /** A stored user; `password` holds the bcrypt hash, never the plaintext. */
  datatype User = User(id: string, email: string, username: string, password: string,
                       roleId: string, createdAt: int)

  /** A node of the menu forest, addressed by its unique `path`. */
  datatype Menu = Menu(id: string, name: string, path: string, icon: Option<string>,
                       parentId: Option<string>, orderIndex: int)

  /** The four CRUD flags of a grant. */
  datatype Flags = Flags(canRead: bool, canWrite: bool, canUpdate: bool, canDelete: bool)

  /** A grant of a role on a menu, unique per (roleId, menuId). */
  datatype RoleMenu = RoleMenu(id: string, roleId: string, menuId: string, flags: Flags)

  /** The `PermissionType` names `'canRead' | 'canWrite' | 'canUpdate' | 'canDelete'`. */
  datatype Permission = CanRead | CanWrite | CanUpdate | CanDelete

  const NoFlags := Flags(false, false, false, false)
  const AllFlags := Flags(true, true, true, true)

  /** `flags[permission]`. */
  function Flag(f: Flags, p: Permission): bool {
    match p
    case CanRead => f.canRead
    case CanWrite => f.canWrite
    case CanUpdate => f.canUpdate
    case CanDelete => f.canDelete
  }

  /** `{ ...f, [permission]: v }`. */
  function SetFlag(f: Flags, p: Permission, v: bool): (r: Flags)
    ensures Flag(r, p) == v
    ensures forall q :: q != p ==> Flag(r, q) == Flag(f, q)
  {
    match p
    case CanRead => f.(canRead := v)
    case CanWrite => f.(canWrite := v)
    case CanUpdate => f.(canUpdate := v)
    case CanDelete => f.(canDelete := v)
  }

  /** The permission's name as the source spells it. */
  function PermissionName(p: Permission): string {
    match p
    case CanRead => "canRead"
    case CanWrite => "canWrite"
    case CanUpdate => "canUpdate"
    case CanDelete => "canDelete"
  }

  /** A snapshot of the four tables, rows in storage order. */
  datatype Tables = Tables(users: seq<User>, roles: seq<Role>, menus: seq<Menu>, grants: seq<RoleMenu>)

  /** The store calls the routes make; a call in a request's `Faults` throws. */
  datatype Query =
    | FindUserById      // user.findUnique({ where: { id } })
    | FindCaller        // a handler's own user.findUnique({ where: { id } }) after its guard's
    | FindMenuByPath    // menu.findUnique({ where: { path } })
    | FindGrant         // roleMenu.findFirst({ where: { roleId, menuId } })
    | ListGrants        // roleMenu.findMany
    | UpsertGrant       // roleMenu.upsert
    | ListMenus         // menu.findMany
    | CreateMenu        // menu.create
    | ListUsers         // user.findMany
    | FindDuplicateUser // user.findFirst({ where: { OR: [{ email }, { username }] } })
    | FindRoleByName    // role.findUnique({ where: { name } })
    | CreateUser        // user.create
    | FindUserByEmail   // user.findUnique({ where: { email } })

  type Faults = set<Query>

  function UserById(t: Tables, id: string): (r: Option<User>)
    ensures r.Some? ==> r.value in t.users && r.value.id == id
    ensures r.None? ==> forall u :: u in t.users ==> u.id != id
  {
    Find(t.users, (u: User) => u.id == id)
  }

  function UserByEmail(t: Tables, email: string): (r: Option<User>)
    ensures r.Some? ==> r.value in t.users && r.value.email == email
    ensures r.None? ==> forall u :: u in t.users ==> u.email != email
  {
    Find(t.users, (u: User) => u.email == email)
  }

  function RoleById(t: Tables, id: string): (r: Option<Role>)
    ensures r.Some? ==> r.value in t.roles && r.value.id == id
    ensures r.None? ==> forall x :: x in t.roles ==> x.id != id
  {
    Find(t.roles, (x: Role) => x.id == id)
  }

  function RoleByName(t: Tables, name: string): (r: Option<Role>)
    ensures r.Some? ==> r.value in t.roles && r.value.name == name
    ensures r.None? ==> forall x :: x in t.roles ==> x.name != name
  {
    Find(t.roles, (x: Role) => x.name == name)
  }

  function MenuById(t: Tables, id: string): (r: Option<Menu>)
    ensures r.Some? ==> r.value in t.menus && r.value.id == id
    ensures r.None? ==> forall m :: m in t.menus ==> m.id != id
  {
    Find(t.menus, (m: Menu) => m.id == id)
  }

  function MenuByPath(t: Tables, path: string): (r: Option<Menu>)
    ensures r.Some? ==> r.value in t.menus && r.value.path == path
    ensures r.None? ==> forall m :: m in t.menus ==> m.path != path
  {
    Find(t.menus, (m: Menu) => m.path == path)
  }

  function GrantFor(t: Tables, roleId: string, menuId: string): (r: Option<RoleMenu>)
    ensures r.Some? ==> r.value in t.grants && r.value.roleId == roleId && r.value.menuId == menuId
    ensures r.None? ==> forall g :: g in t.grants ==> !(g.roleId == roleId && g.menuId == menuId)
  {
    Find(t.grants, (g: RoleMenu) => g.roleId == roleId && g.menuId == menuId)
  }

  /** `user.findUnique({ where: { id }, include: { role: true } })`. */
  function UserWithRole(t: Tables, id: string): (r: Option<(User, Role)>)
    ensures r.Some? ==> r.value.0 in t.users && r.value.0.id == id
    ensures r.Some? ==> r.value.1 in t.roles && r.value.1.id == r.value.0.roleId
  {
    match UserById(t, id)
    case None => None
    case Some(u) =>
      match RoleById(t, u.roleId)
      case None => None
      case Some(role) => Some((u, role))
  }

  /** Some user already has this email or this username. */
  predicate Taken(t: Tables, email: string, username: string)
    ensures Taken(t, email, username) <==> exists u :: u in t.users && (u.email == email || u.username == username)
  {
    Find(t.users, (u: User) => u.email == email || u.username == username).Some?
  }

  /** The unique constraints of the schema. */
  ghost predicate Keyed(t: Tables) {
    && (forall i, j :: 0 <= i < |t.users| && 0 <= j < |t.users| && t.users[i].id == t.users[j].id ==> i == j)
    && (forall i, j :: 0 <= i < |t.users| && 0 <= j < |t.users| && t.users[i].email == t.users[j].email ==> i == j)
    && (forall i, j :: 0 <= i < |t.users| && 0 <= j < |t.users| && t.users[i].username == t.users[j].username ==> i == j)
    && (forall i, j :: 0 <= i < |t.roles| && 0 <= j < |t.roles| && t.roles[i].id == t.roles[j].id ==> i == j)
    && (forall i, j :: 0 <= i < |t.roles| && 0 <= j < |t.roles| && t.roles[i].name == t.roles[j].name ==> i == j)
    && (forall i, j :: 0 <= i < |t.menus| && 0 <= j < |t.menus| && t.menus[i].id == t.menus[j].id ==> i == j)
    && (forall i, j :: 0 <= i < |t.menus| && 0 <= j < |t.menus| && t.menus[i].path == t.menus[j].path ==> i == j)
    && (forall i, j :: 0 <= i < |t.grants| && 0 <= j < |t.grants| && t.grants[i].id == t.grants[j].id ==> i == j)
    && (forall i, j ::
          (0 <= i < |t.grants| && 0 <= j < |t.grants| &&
           t.grants[i].roleId == t.grants[j].roleId && t.grants[i].menuId == t.grants[j].menuId) ==> i == j)
  }

  /** The foreign keys of the schema. */
  ghost predicate Linked(t: Tables) {
    && (forall u :: u in t.users ==> exists r :: r in t.roles && r.id == u.roleId)
    && (forall m :: m in t.menus && m.parentId.Some? ==> exists p :: p in t.menus && p.id == m.parentId.value)
    && (forall g :: g in t.grants ==> exists r :: r in t.roles && r.id == g.roleId)
    && (forall g :: g in t.grants ==> exists m :: m in t.menus && m.id == g.menuId)
  }

  /** Every state the database can be in. */
  ghost predicate Consistent(t: Tables) {
    Keyed(t) && Linked(t)
  }

  /** Under the unique constraints, each lookup finds *the* row with that key. */
  lemma KeyedUserById(t: Tables, u: User)
    requires Keyed(t) && u in t.users
    ensures UserById(t, u.id) == Some(u)
  {
    FindTheOne(t.users, (x: User) => x.id == u.id, u);
  }

  lemma KeyedUserByEmail(t: Tables, u: User)
    requires Keyed(t) && u in t.users
    ensures UserByEmail(t, u.email) == Some(u)
  {
    FindTheOne(t.users, (x: User) => x.email == u.email, u);
  }

  lemma KeyedUserWithRole(t: Tables, u: User, role: Role)
    requires Keyed(t) && u in t.users && role in t.roles && role.id == u.roleId
    ensures UserWithRole(t, u.id) == Some((u, role))
  {
    KeyedUserById(t, u);
    FindTheOne(t.roles, (x: Role) => x.id == u.roleId, role);
  }

  lemma KeyedRoleByName(t: Tables, role: Role)
    requires Keyed(t) && role in t.roles
    ensures RoleByName(t, role.name) == Some(role)
  {
    FindTheOne(t.roles, (x: Role) => x.name == role.name, role);
  }

  lemma KeyedMenuByPath(t: Tables, m: Menu)
    requires Keyed(t) && m in t.menus
    ensures MenuByPath(t, m.path) == Some(m)
  {
    FindTheOne(t.menus, (x: Menu) => x.path == m.path, m);
  }

  lemma KeyedGrantFor(t: Tables, g: RoleMenu)
    requires Keyed(t) && g in t.grants
    ensures GrantFor(t, g.roleId, g.menuId) == Some(g)
  {
    FindTheOne(t.grants, (x: RoleMenu) => x.roleId == g.roleId && x.menuId == g.menuId, g);
  }

  /** Under the foreign keys every user's role is found. */
  lemma LinkedUserHasRole(t: Tables, u: User)
    requires Linked(t) && u in t.users
    ensures RoleById(t, u.roleId).Some?
  {
  }

  /** Under the foreign keys every grant's menu is found. */
  lemma LinkedGrantHasMenu(t: Tables, g: RoleMenu)
    requires Linked(t) && g in t.grants
    ensures MenuById(t, g.menuId).Some?
  {
  }

  /** Under the unique constraints a key names one row. */
  lemma SameUser(t: Tables, a: User, b: User)
    requires Keyed(t) && a in t.users && b in t.users && a.id == b.id
    ensures a == b
  {
    KeyedUserById(t, a);
    KeyedUserById(t, b);
  }

  lemma SameRole(t: Tables, a: Role, b: Role)
    requires Keyed(t) && a in t.roles && b in t.roles && a.id == b.id
    ensures a == b
  {
    FindTheOne(t.roles, (x: Role) => x.id == a.id, a);
    FindTheOne(t.roles, (x: Role) => x.id == a.id, b);
  }

  lemma SameMenu(t: Tables, a: Menu, b: Menu)
    requires Keyed(t) && a in t.menus && b in t.menus && (a.id == b.id || a.path == b.path)
    ensures a == b
  {
    if a.path == b.path {
      KeyedMenuByPath(t, a);
      KeyedMenuByPath(t, b);
    } else {
      FindTheOne(t.menus, (x: Menu) => x.id == a.id, a);
      FindTheOne(t.menus, (x: Menu) => x.id == a.id, b);
    }
  }

  lemma SameGrant(t: Tables, a: RoleMenu, b: RoleMenu)
    requires Keyed(t) && a in t.grants && b in t.grants && a.roleId == b.roleId && a.menuId == b.menuId
    ensures a == b
  {
    KeyedGrantFor(t, a);
    KeyedGrantFor(t, b);
  }

  /** Appending a menu with a fresh id, a fresh path and an existing parent keeps the store consistent. */
  lemma AppendMenuKeepsConsistent(t: Tables, m: Menu)
    requires Consistent(t)
    requires forall x :: x in t.menus ==> x.id != m.id && x.path != m.path
    requires m.parentId.Some? ==> exists x :: x in t.menus && x.id == m.parentId.value
    ensures Consistent(t.(menus := t.menus + [m]))
  {
    var t' := t.(menus := t.menus + [m]);
    AppendMenuKeepsKeyed(t, m);
    forall x | x in t.menus ensures x in t'.menus { }
    forall x | x in t'.menus && x.parentId.Some?
      ensures exists p :: p in t'.menus && p.id == x.parentId.value
    {
      if x != m {
        assert x in t.menus;
      }
    }
    forall g | g in t'.grants ensures exists x :: x in t'.menus && x.id == g.menuId {
      assert g in t.grants;
    }
  }

  lemma AppendMenuKeepsKeyed(t: Tables, m: Menu)
    requires Keyed(t)
    requires forall x :: x in t.menus ==> x.id != m.id && x.path != m.path
    ensures Keyed(t.(menus := t.menus + [m]))
  {
    var ms := t.menus + [m];
    var n := |t.menus|;
    forall i, j | 0 <= i < |ms| && 0 <= j < |ms| && i != j
      ensures ms[i].id != ms[j].id && ms[i].path != ms[j].path
    {
      if i < n && j < n {
        assert ms[i] == t.menus[i] && ms[j] == t.menus[j];
      } else if i < n {
        assert ms[i] == t.menus[i] && t.menus[i] in t.menus && ms[j] == m;
      } else {
        assert ms[j] == t.menus[j] && t.menus[j] in t.menus && ms[i] == m;
      }
    }
  }

  /** Appending a user with a fresh id, email and username and an existing role keeps the store consistent. */
  lemma AppendUserKeepsConsistent(t: Tables, u: User)
    requires Consistent(t)
    requires forall x :: x in t.users ==> x.id != u.id && x.email != u.email && x.username != u.username
    requires exists r :: r in t.roles && r.id == u.roleId
    ensures Consistent(t.(users := t.users + [u]))
  {
    var t' := t.(users := t.users + [u]);
    AppendUserKeepsKeyed(t, u);
    forall x | x in t'.users ensures exists r :: r in t'.roles && r.id == x.roleId {
      if x != u {
        assert x in t.users;
      }
    }
  }

  lemma AppendUserKeepsKeyed(t: Tables, u: User)
    requires Keyed(t)
    requires forall x :: x in t.users ==> x.id != u.id && x.email != u.email && x.username != u.username
    ensures Keyed(t.(users := t.users + [u]))
  {
    var us := t.users + [u];
    var n := |t.users|;
    forall i, j | 0 <= i < |us| && 0 <= j < |us| && i != j
      ensures us[i].id != us[j].id && us[i].email != us[j].email && us[i].username != us[j].username
    {
      if i < n && j < n {
        assert us[i] == t.users[i] && us[j] == t.users[j];
      } else if i < n {
        assert us[i] == t.users[i] && t.users[i] in t.users && us[j] == u;
      } else {
        assert us[j] == t.users[j] && t.users[j] in t.users && us[i] == u;
      }
    }
  }

  /** The live database; the write routes change its tables in place. */
  class Database {
    var users: seq<User>
    var roles: seq<Role>
    var menus: seq<Menu>
    var grants: seq<RoleMenu>

    constructor (t: Tables)
      ensures Snapshot() == t
    {
      users, roles, menus, grants := t.users, t.roles, t.menus, t.grants;
    }

    function Snapshot(): Tables
      reads this
    {
      Tables(users, roles, menus, grants)
    }
  }
}
