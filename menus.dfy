/**
 * `/api/menus`: GET lists the caller's readable menus (`forUser=true`) or,
 * for the role literally named `'admin'`, every menu by `orderIndex`; POST
 * creates a menu behind `withAdminAuth`.
 */
module MenusRoute {
  import opened Wrappers
  import opened Seqs
  import opened Schema
  import opened Tokens
  import opened Http
  import opened AuthMiddleware

  /** The role name the full listing checks for, as written. */
  const ListingRole := "admin"

  /** `searchParams.get('forUser') === 'true'`. */
  predicate ForUser(forUserParam: Option<string>) {
    forUserParam == Some("true")
  }

  /** The menus of the `rows` grants on `roleId` with `canRead`, in grant order (an inner join). */
  function MenusOf(t: Tables, rows: seq<RoleMenu>, roleId: string): (r: seq<Menu>)
    ensures |r| <= |rows|
    ensures forall m :: m in r ==> m in t.menus
    ensures forall m :: m in r ==>
      exists g :: g in rows && g.roleId == roleId && g.flags.canRead && g.menuId == m.id
  {
    if |rows| == 0 then []
    else
      var rest := MenusOf(t, rows[1..], roleId);
      var g := rows[0];
      var head := if g.roleId == roleId && g.flags.canRead then MenuById(t, g.menuId) else None;
      if head.Some? then [head.value] + rest else rest
  }

  /** When every grant's menu exists, no readable grant is lost by the join. */
  lemma {:induction false} MenusOfComplete(t: Tables, rows: seq<RoleMenu>, roleId: string, g: RoleMenu)
    requires forall k :: 0 <= k < |rows| ==> MenuById(t, rows[k].menuId).Some?
    requires g in rows && g.roleId == roleId && g.flags.canRead
    ensures exists m :: m in MenusOf(t, rows, roleId) && m.id == g.menuId
  {
    var r := MenusOf(t, rows, roleId);
    var rest := MenusOf(t, rows[1..], roleId);
    if rows[0] == g {
      var m := MenuById(t, g.menuId).value;
      assert r == [m] + rest;
      assert r[0] == m;
    } else {
      var tail := rows[1..];
      assert g in tail;
      assert forall k :: 0 <= k < |tail| ==> tail[k] == rows[k + 1];
      MenusOfComplete(t, tail, roleId, g);
      var m :| m in rest && m.id == g.menuId;
      assert r == rest || r == [r[0]] + rest;
      assert m in r;
    }
  }

  /** `userWithRole?.role.roleMenus.map(rm => rm.menu) || []`. */
  function ReadableMenus(t: Tables, userId: string): (r: seq<Menu>)
    ensures UserWithRole(t, userId).None? ==> r == []
    ensures forall m :: m in r ==> m in t.menus
  {
    var found := UserWithRole(t, userId);
    if found.None? then [] else MenusOf(t, t.grants, found.value.0.roleId)
  }

  /** The menu table ordered by `orderIndex` ascending. */
  function SortedMenus(menus: seq<Menu>): (r: seq<Menu>)
    ensures multiset(r) == multiset(menus)
    ensures forall i, j :: 0 <= i < j < |r| ==> r[i].orderIndex <= r[j].orderIndex
  {
    SortByKey(menus, (m: Menu) => m.orderIndex)
  }

  /** GET, with the role name the full listing requires as a parameter. */
  function GetFor(listingRole: string, t: Tables, faults: Faults, authorization: Option<string>,
                  verify: Verifier, forUserParam: Option<string>): (r: Reply<seq<Menu>>)
    ensures !WithAuth(authorization, verify).Pass? ==> r == Refused(WithAuth(authorization, verify))
    ensures WithAuth(authorization, verify).Pass? && FindUserById in faults ==> r == ErrorJson(500, "Failed to fetch menus")
    ensures (WithAuth(authorization, verify).Pass? && FindUserById !in faults && !ForUser(forUserParam) &&
             UserWithRole(t, WithAuth(authorization, verify).principal.userId).Some? &&
             UserWithRole(t, WithAuth(authorization, verify).principal.userId).value.1.name == listingRole &&
             ListMenus in faults) ==> r == ErrorJson(500, "Failed to fetch menus")
    ensures r.Json? ==> r.status == 200
  {
    var gate := WithAuth(authorization, verify);
    if !gate.Pass? then Refused(gate)
    else if FindUserById in faults then ErrorJson(500, "Failed to fetch menus")
    else if ForUser(forUserParam) then Json(200, ReadableMenus(t, gate.principal.userId))
    else
      var found := UserWithRole(t, gate.principal.userId);
      if found.None? || found.value.1.name != listingRole then ErrorJson(403, "Admin access required")
      else if ListMenus in faults then ErrorJson(500, "Failed to fetch menus")
      else Json(200, SortedMenus(t.menus))
  }

  /** GET `/api/menus` as written. */
  function Get(t: Tables, faults: Faults, authorization: Option<string>, verify: Verifier,
               forUserParam: Option<string>): Reply<seq<Menu>>
  {
    GetFor(ListingRole, t, faults, authorization, verify, forUserParam)
  }

  /** The `forUser` projection: exactly the caller's readable menus, nothing for an unknown user. */
  lemma ForUserListsReadableMenus(t: Tables, faults: Faults, authorization: Option<string>, verify: Verifier)
    requires WithAuth(authorization, verify).Pass? && FindUserById !in faults
    ensures Get(t, faults, authorization, verify, Some("true")) ==
      Json(200, ReadableMenus(t, WithAuth(authorization, verify).principal.userId))
    ensures UserWithRole(t, WithAuth(authorization, verify).principal.userId).None? ==>
      Get(t, faults, authorization, verify, Some("true")) == Json(200, [])
  {
  }

  /**
   * For a non-superuser in a consistent store, the readable menus are exactly
   * the menus on which the server's resolver allows `canRead`.
   */
  lemma ReadableMenusMatchReadPermission(t: Tables, faults: Faults, u: User, role: Role, m: Menu)
    requires Consistent(t)
    requires FindUserById !in faults && FindMenuByPath !in faults && FindGrant !in faults
    requires u in t.users && role in t.roles && role.id == u.roleId && role.name != SuperAdmin
    requires m in t.menus
    ensures m in ReadableMenus(t, u.id) <==> Resolve(t, faults, u.id, m.path, CanRead).Allow?
  {
    KeyedUserWithRole(t, u, role);
    KeyedMenuByPath(t, m);
    GrantDecides(t, faults, u.id, m.path, CanRead);
    ReadableIffGranted(t, u, role, m);
  }

  /** A menu is readable for a user exactly when the user's role holds a `canRead` grant on it. */
  lemma ReadableIffGranted(t: Tables, u: User, role: Role, m: Menu)
    requires Consistent(t)
    requires u in t.users && role in t.roles && role.id == u.roleId && m in t.menus
    ensures var grant := GrantFor(t, u.roleId, m.id);
      m in ReadableMenus(t, u.id) <==> grant.Some? && grant.value.flags.canRead
  {
    KeyedUserWithRole(t, u, role);
    assert ReadableMenus(t, u.id) == MenusOf(t, t.grants, u.roleId);
    var grant := GrantFor(t, u.roleId, m.id);
    if m in ReadableMenus(t, u.id) {
      var g :| g in t.grants && g.roleId == u.roleId && g.flags.canRead && g.menuId == m.id;
      KeyedGrantFor(t, g);
    }
    if grant.Some? && grant.value.flags.canRead {
      forall k | 0 <= k < |t.grants| ensures MenuById(t, t.grants[k].menuId).Some? {
        LinkedGrantHasMenu(t, t.grants[k]);
      }
      MenusOfComplete(t, t.grants, u.roleId, grant.value);
      var m' :| m' in ReadableMenus(t, u.id) && m'.id == grant.value.menuId;
      SameMenu(t, m, m');
    }
  }

  /** Without `forUser`, only the role named `'admin'` gets the listing; everyone else 403. */
  lemma ListingRequiresAdminName(t: Tables, faults: Faults, authorization: Option<string>, verify: Verifier,
                                 forUserParam: Option<string>)
    requires WithAuth(authorization, verify).Pass? && FindUserById !in faults && !ForUser(forUserParam)
    ensures var found := UserWithRole(t, WithAuth(authorization, verify).principal.userId);
      (found.None? || found.value.1.name != ListingRole) <==>
      Get(t, faults, authorization, verify, forUserParam) == ErrorJson(403, "Admin access required")
  {
  }

  /** The full listing is every menu, each once, by `orderIndex` ascending. */
  lemma ListingIsSortedTable(t: Tables, faults: Faults, authorization: Option<string>, verify: Verifier,
                             forUserParam: Option<string>)
    requires !ForUser(forUserParam)
    requires Get(t, faults, authorization, verify, forUserParam).Json?
    ensures var body := Get(t, faults, authorization, verify, forUserParam).body;
      multiset(body) == multiset(t.menus) &&
      forall i, j :: 0 <= i < j < |body| ==> body[i].orderIndex <= body[j].orderIndex
  {
  }

  // ---- The `'admin'` literal of the listing ---------------------------------

  /**
   * As written, every caller that may create menus (`withAdminAuth`, role
   * `'Super admin'`) is refused the full listing, and every caller that gets
   * the listing could not create one.
   */
  lemma AsWrittenAdminsCannotList(t: Tables, faults: Faults, authorization: Option<string>, verify: Verifier,
                                  forUserParam: Option<string>)
    requires !ForUser(forUserParam)
    ensures WithAdminAuth(t, faults, authorization, verify).Pass? ==>
      Get(t, faults, authorization, verify, forUserParam) == ErrorJson(403, "Admin access required")
    ensures Get(t, faults, authorization, verify, forUserParam).Json? ==>
      !WithAdminAuth(t, faults, authorization, verify).Pass?
  {
  }

  /** GET with the evidently intended `'Super admin'`, the name the POST guard and `/api/master-menus` use. */
  function GetIntended(t: Tables, faults: Faults, authorization: Option<string>, verify: Verifier,
                       forUserParam: Option<string>): Reply<seq<Menu>>
  {
    GetFor(SuperAdmin, t, faults, authorization, verify, forUserParam)
  }

  /** With the intended name, those who may create menus are exactly those who may list them all. */
  lemma IntendedListingMatchesAdminAuth(t: Tables, faults: Faults, authorization: Option<string>, verify: Verifier,
                                        forUserParam: Option<string>)
    requires !ForUser(forUserParam) && FindUserById !in faults && ListMenus !in faults
    ensures GetIntended(t, faults, authorization, verify, forUserParam).Json? <==>
      WithAdminAuth(t, faults, authorization, verify).Pass?
    ensures GetIntended(t, faults, authorization, verify, forUserParam).Json? ==>
      GetIntended(t, faults, authorization, verify, forUserParam).body == SortedMenus(t.menus)
  {
  }

  // ---- POST: create a menu ---------------------------------------------------

  /** The JSON body of a POST; an omitted `icon`, `parentId` or `orderIndex` is `None`. */
  datatype MenuRequest = MenuRequest(name: string, path: string, icon: Option<string>,
                                     parentId: Option<string>, orderIndex: Option<int>)

  /** The row `menu.create` stores; `orderIndex || 0` is the submitted number, 0 when omitted. */
  function NewMenu(req: MenuRequest, freshId: string): (m: Menu)
    ensures m.id == freshId && m.name == req.name && m.path == req.path
    ensures m.icon == req.icon && m.parentId == req.parentId
    ensures req.orderIndex.None? ==> m.orderIndex == 0
    ensures req.orderIndex.Some? ==> m.orderIndex == req.orderIndex.value
  {
    Menu(freshId, req.name, req.path, req.icon, req.parentId, req.orderIndex.GetOr(0))
  }

  /** The database refuses the row: duplicate id, duplicate path, or a parent that does not exist. */
  predicate CreateRejected(t: Tables, req: MenuRequest, freshId: string) {
    || MenuById(t, freshId).Some?
    || MenuByPath(t, req.path).Some?
    || (req.parentId.Some? && MenuById(t, req.parentId.value).None?)
  }

  /** A create: the tables afterwards and the reply. */
  datatype Created<+B> = Created(tables: Tables, reply: Reply<B>)

  /** The store side of a create that passed its guard; `reply` wraps the stored row. */
  function CreateMenuEffect<B>(t: Tables, faults: Faults, req: MenuRequest, freshId: string,
                               success: Menu -> Reply<B>, failure: Reply<B>): (c: Created<B>)
    ensures c.tables == t || c.tables == t.(menus := t.menus + [NewMenu(req, freshId)])
    ensures c.tables != t ==> c.reply == success(NewMenu(req, freshId))
    ensures (CreateMenu in faults || CreateRejected(t, req, freshId)) <==> c == Created(t, failure)
    ensures !(CreateMenu in faults || CreateRejected(t, req, freshId)) ==>
      c == Created(t.(menus := t.menus + [NewMenu(req, freshId)]), success(NewMenu(req, freshId)))
  {
    if CreateMenu in faults || CreateRejected(t, req, freshId) then Created(t, failure)
    else
      var m := NewMenu(req, freshId);
      Created(t.(menus := t.menus + [m]), success(m))
  }

  function PostEffect(t: Tables, faults: Faults, authorization: Option<string>, verify: Verifier,
                      req: MenuRequest, freshId: string): Created<Menu>
  {
    var gate := WithAdminAuth(t, faults, authorization, verify);
    if !gate.Pass? then Created(t, Refused(gate))
    else CreateMenuEffect(t, faults, req, freshId, (m: Menu) => Json(200, m), ErrorJson(500, "Failed to create menu"))
  }

  /** Appends the new row to `db.menus` unless the guard refuses or the store throws. */
  method CreateMenuRow<B>(db: Database, faults: Faults, req: MenuRequest, freshId: string,
                          success: Menu -> Reply<B>, failure: Reply<B>) returns (reply: Reply<B>)
    modifies db
    ensures Created(db.Snapshot(), reply) == CreateMenuEffect(old(db.Snapshot()), faults, req, freshId, success, failure)
  {
    var t := db.Snapshot();
    if CreateMenu in faults || CreateRejected(t, req, freshId) {
      return failure;
    }
    var m := NewMenu(req, freshId);
    db.menus := db.menus + [m];
    return success(m);
  }

  /** POST `/api/menus`. */
  method Post(db: Database, faults: Faults, authorization: Option<string>, verify: Verifier,
              req: MenuRequest, freshId: string) returns (reply: Reply<Menu>)
    modifies db
    ensures Created(db.Snapshot(), reply) == PostEffect(old(db.Snapshot()), faults, authorization, verify, req, freshId)
  {
    var gate := WithAdminAuth(db.Snapshot(), faults, authorization, verify);
    if !gate.Pass? {
      return Refused(gate);
    }
    reply := CreateMenuRow(db, faults, req, freshId, (m: Menu) => Json(200, m), ErrorJson(500, "Failed to create menu"));
  }

  /** Only `'Super admin'` creates; a refused caller changes nothing. */
  lemma PostGuardedByAdmin(t: Tables, faults: Faults, authorization: Option<string>, verify: Verifier,
                           req: MenuRequest, freshId: string)
    requires !WithAdminAuth(t, faults, authorization, verify).Pass?
    ensures PostEffect(t, faults, authorization, verify, req, freshId) ==
      Created(t, Refused(WithAdminAuth(t, faults, authorization, verify)))
  {
  }

  /** Whatever the outcome, a create keeps the store consistent. */
  lemma CreateKeepsConsistent<B>(t: Tables, faults: Faults, req: MenuRequest, freshId: string,
                                 success: Menu -> Reply<B>, failure: Reply<B>)
    requires Consistent(t)
    ensures Consistent(CreateMenuEffect(t, faults, req, freshId, success, failure).tables)
  {
    if !(CreateMenu in faults || CreateRejected(t, req, freshId)) {
      var m := NewMenu(req, freshId);
      if m.parentId.Some? {
        assert MenuById(t, m.parentId.value).Some?;
      }
      AppendMenuKeepsConsistent(t, m);
    }
  }
}
