/**
 * `/api/role-menus`: the admin-only grant table. GET lists grants (optionally
 * for one role) with their role and menu; POST upserts the grant of a
 * (roleId, menuId) pair.
 */
module RoleMenusRoute {
  import opened Wrappers
  import opened Seqs
  import opened Schema
  import opened Tokens
  import opened Http
  import opened AuthMiddleware

  /** A grant row with its `include: { role: true, menu: true }`. */
  datatype GrantView = GrantView(grant: RoleMenu, role: Role, menu: Menu)

  /** Joins one grant to its role and menu; `None` only for a dangling key. */
  function Join(t: Tables, g: RoleMenu): (r: Option<GrantView>)
    ensures r.Some? ==> r.value.grant == g && r.value.role in t.roles && r.value.menu in t.menus
    ensures r.Some? ==> r.value.role.id == g.roleId && r.value.menu.id == g.menuId
  {
    match (RoleById(t, g.roleId), MenuById(t, g.menuId))
    case (Some(role), Some(menu)) => Some(GrantView(g, role, menu))
    case _ => None
  }

  /** The grants of `rows` satisfying `keep`, joined to their role and menu, in table order. */
  function Joined(t: Tables, rows: seq<RoleMenu>, keep: RoleMenu -> bool): (r: seq<GrantView>)
    ensures forall v :: v in r ==> v.grant in rows && keep(v.grant)
    ensures forall v :: v in r ==> v.role in t.roles && v.menu in t.menus
    ensures forall v :: v in r ==> v.role.id == v.grant.roleId && v.menu.id == v.grant.menuId
  {
    if |rows| == 0 then []
    else
      var rest := Joined(t, rows[1..], keep);
      var head := if keep(rows[0]) then Join(t, rows[0]) else None;
      if head.Some? then [head.value] + rest else rest
  }

  /** Under the foreign keys every kept grant appears. */
  lemma {:induction false} JoinedComplete(t: Tables, rows: seq<RoleMenu>, keep: RoleMenu -> bool, g: RoleMenu)
    requires Linked(t)
    requires forall x :: x in rows ==> x in t.grants
    requires g in rows && keep(g)
    ensures exists v :: v in Joined(t, rows, keep) && v.grant == g
  {
    if rows[0] == g {
      var role :| role in t.roles && role.id == g.roleId;
      var menu :| menu in t.menus && menu.id == g.menuId;
      assert RoleById(t, g.roleId).Some? && MenuById(t, g.menuId).Some?;
      assert Joined(t, rows, keep)[0].grant == g;
    } else {
      JoinedComplete(t, rows[1..], keep, g);
      var v :| v in Joined(t, rows[1..], keep) && v.grant == g;
      assert v in Joined(t, rows, keep);
    }
  }

  /** `roleId ? { roleId } : {}`: an absent or empty `roleId` does not filter. */
  function RoleFilter(roleId: Option<string>): RoleMenu -> bool {
    if roleId.Some? && roleId.value != "" then (g: RoleMenu) => g.roleId == roleId.value
    else (g: RoleMenu) => true
  }

  /** GET: the grants of the requested role (all grants without a role), behind `withAdminAuth`. */
  function Get(t: Tables, faults: Faults, authorization: Option<string>, verify: Verifier,
               roleId: Option<string>): (r: Reply<seq<GrantView>>)
    ensures !WithAdminAuth(t, faults, authorization, verify).Pass? ==> r == Refused(WithAdminAuth(t, faults, authorization, verify))
    ensures WithAdminAuth(t, faults, authorization, verify).Pass? && ListGrants in faults ==>
      r == ErrorJson(500, "Failed to fetch role menus")
    ensures r.Json? ==> r.status == 200 && forall v :: v in r.body ==> v.grant in t.grants
    ensures r.Json? && roleId.Some? && roleId.value != "" ==> forall v :: v in r.body ==> v.grant.roleId == roleId.value
  {
    var gate := WithAdminAuth(t, faults, authorization, verify);
    if !gate.Pass? then Refused(gate)
    else if ListGrants in faults then ErrorJson(500, "Failed to fetch role menus")
    else Json(200, Joined(t, t.grants, RoleFilter(roleId)))
  }

  /** Every grant of the requested role is listed (the filter loses nothing). */
  lemma GetListsEveryGrantOfRole(t: Tables, faults: Faults, authorization: Option<string>, verify: Verifier,
                                 roleId: Option<string>, g: RoleMenu)
    requires Linked(t)
    requires Get(t, faults, authorization, verify, roleId).Json?
    requires g in t.grants
    requires roleId.None? || roleId.value == "" || g.roleId == roleId.value
    ensures exists v :: v in Get(t, faults, authorization, verify, roleId).body && v.grant == g
  {
    JoinedComplete(t, t.grants, RoleFilter(roleId), g);
  }

  // ---- POST: upsert on the roleId_menuId key ------------------------------

  /** The JSON body of a POST; an omitted flag is `None` (JavaScript `undefined`). */
  datatype GrantRequest = GrantRequest(roleId: string, menuId: string, canRead: Option<bool>,
                                       canWrite: Option<bool>, canUpdate: Option<bool>, canDelete: Option<bool>)

  /** The flags of a created row: `canRead || true`, and `x || false` for the others. */
  function CreatedFlags(req: GrantRequest): (f: Flags)
    ensures f.canRead
    ensures f.canWrite == (req.canWrite == Some(true))
    ensures f.canUpdate == (req.canUpdate == Some(true))
    ensures f.canDelete == (req.canDelete == Some(true))
  {
    Flags(req.canRead == Some(true) || true, req.canWrite == Some(true),
          req.canUpdate == Some(true), req.canDelete == Some(true))
  }

  /** The flags of an updated row: Prisma leaves a field given as `undefined` unchanged. */
  function UpdatedFlags(old_: Flags, req: GrantRequest): (f: Flags)
    ensures f.canRead == req.canRead.GetOr(old_.canRead)
    ensures f.canWrite == req.canWrite.GetOr(old_.canWrite)
    ensures f.canUpdate == req.canUpdate.GetOr(old_.canUpdate)
    ensures f.canDelete == req.canDelete.GetOr(old_.canDelete)
  {
    Flags(req.canRead.GetOr(old_.canRead), req.canWrite.GetOr(old_.canWrite),
          req.canUpdate.GetOr(old_.canUpdate), req.canDelete.GetOr(old_.canDelete))
  }

  predicate SamePair(g: RoleMenu, req: GrantRequest) {
    g.roleId == req.roleId && g.menuId == req.menuId
  }

  /** The create branch is refused by the database: duplicate id or a dangling key. */
  predicate CreateRejected(t: Tables, req: GrantRequest, freshId: string) {
    || Find(t.grants, (g: RoleMenu) => g.id == freshId).Some?
    || RoleById(t, req.roleId).None?
    || MenuById(t, req.menuId).None?
  }

  /** The grant table after a successful upsert whose create branch stores `created`. */
  function UpsertedWith(rows: seq<RoleMenu>, req: GrantRequest, freshId: string, created: Flags): seq<RoleMenu>
  {
    match FirstIndex(rows, (g: RoleMenu) => SamePair(g, req))
    case Some(i) => rows[i := rows[i].(flags := UpdatedFlags(rows[i].flags, req))]
    case None => rows + [RoleMenu(freshId, req.roleId, req.menuId, created)]
  }

  /** The grant table after a successful upsert, as the route writes it. */
  function Upserted(rows: seq<RoleMenu>, req: GrantRequest, freshId: string): seq<RoleMenu> {
    UpsertedWith(rows, req, freshId, CreatedFlags(req))
  }

  /** The outcome of a POST that passed the guard: the new table and the reply. */
  datatype Upsert = Upsert(tables: Tables, reply: Reply<GrantView>)

  function PostEffect(t: Tables, faults: Faults, authorization: Option<string>, verify: Verifier,
                      req: GrantRequest, freshId: string): Upsert
  {
    var gate := WithAdminAuth(t, faults, authorization, verify);
    if !gate.Pass? then Upsert(t, Refused(gate))
    else if UpsertGrant in faults then Upsert(t, ErrorJson(500, "Failed to assign menu to role"))
    else
      var existing := FirstIndex(t.grants, (g: RoleMenu) => SamePair(g, req));
      if existing.None? && CreateRejected(t, req, freshId) then
        Upsert(t, ErrorJson(500, "Failed to assign menu to role"))
      else
        var rows := Upserted(t.grants, req, freshId);
        var t' := t.(grants := rows);
        var row := if existing.Some? then rows[existing.value] else rows[|rows| - 1];
        match Join(t', row)
        case Some(view) => Upsert(t', Json(200, view))
        case None => Upsert(t, ErrorJson(500, "Failed to assign menu to role"))
  }

  /** POST `/api/role-menus`, changing the grant table in place. */
  method Post(db: Database, faults: Faults, authorization: Option<string>, verify: Verifier,
              req: GrantRequest, freshId: string) returns (reply: Reply<GrantView>)
    modifies db
    ensures Upsert(db.Snapshot(), reply) == PostEffect(old(db.Snapshot()), faults, authorization, verify, req, freshId)
  {
    var t := db.Snapshot();
    var gate := WithAdminAuth(t, faults, authorization, verify);
    if !gate.Pass? {
      return Refused(gate);
    }
    if UpsertGrant in faults {
      return ErrorJson(500, "Failed to assign menu to role");
    }
    var existing := FirstIndex(db.grants, (g: RoleMenu) => SamePair(g, req));
    var row: RoleMenu;
    if existing.Some? {
      var i := existing.value;
      row := db.grants[i].(flags := UpdatedFlags(db.grants[i].flags, req));
      assert Upserted(t.grants, req, freshId) == t.grants[i := row];
      match Join(t.(grants := db.grants[i := row]), row) {
        case None => return ErrorJson(500, "Failed to assign menu to role");
        case Some(view) =>
          db.grants := db.grants[i := row];
          return Json(200, view);
      }
    } else {
      if CreateRejected(t, req, freshId) {
        return ErrorJson(500, "Failed to assign menu to role");
      }
      row := RoleMenu(freshId, req.roleId, req.menuId, CreatedFlags(req));
      assert Upserted(t.grants, req, freshId) == t.grants + [row];
      match Join(t.(grants := db.grants + [row]), row) {
        case None => return ErrorJson(500, "Failed to assign menu to role");
        case Some(view) =>
          db.grants := db.grants + [row];
          return Json(200, view);
      }
    }
  }

  // ---- Properties of the upsert --------------------------------------------

  /** (roleId, menuId) identifies at most one row. */
  ghost predicate PairsUnique(rows: seq<RoleMenu>) {
    forall i, j ::
      (0 <= i < |rows| && 0 <= j < |rows| && rows[i].roleId == rows[j].roleId && rows[i].menuId == rows[j].menuId)
      ==> i == j
  }

  /** Afterwards exactly one row holds the pair, and at most one row per pair survives. */
  lemma UpsertKeepsOneRowPerPair(rows: seq<RoleMenu>, req: GrantRequest, freshId: string)
    requires PairsUnique(rows)
    ensures PairsUnique(Upserted(rows, req, freshId))
    ensures exists k :: 0 <= k < |Upserted(rows, req, freshId)| && SamePair(Upserted(rows, req, freshId)[k], req)
  {
    var r := Upserted(rows, req, freshId);
    match FirstIndex(rows, (g: RoleMenu) => SamePair(g, req))
    case Some(i) =>
      assert SamePair(r[i], req);
    case None =>
      assert SamePair(r[|rows|], req);
  }

  /** Rows of other pairs are untouched, and no row is dropped. */
  lemma UpsertChangesOnlyThePair(rows: seq<RoleMenu>, req: GrantRequest, freshId: string)
    ensures |rows| <= |Upserted(rows, req, freshId)| <= |rows| + 1
    ensures forall k :: 0 <= k < |rows| && !SamePair(rows[k], req) ==> Upserted(rows, req, freshId)[k] == rows[k]
    ensures forall k :: 0 <= k < |rows| ==> Upserted(rows, req, freshId)[k].id == rows[k].id
  {
  }

  /** A new pair is created with `canRead` true whatever was submitted, and the other flags only if sent true. */
  lemma CreateForcesCanRead(rows: seq<RoleMenu>, req: GrantRequest, freshId: string)
    requires forall g :: g in rows ==> !SamePair(g, req)
    ensures Upserted(rows, req, freshId) == rows + [RoleMenu(freshId, req.roleId, req.menuId, CreatedFlags(req))]
    ensures Upserted(rows, req, freshId)[|rows|].flags.canRead
  {
  }

  /** An existing pair takes the submitted flags, keeping those not submitted. */
  lemma UpdateSetsSubmittedFlags(rows: seq<RoleMenu>, req: GrantRequest, freshId: string, k: nat)
    requires PairsUnique(rows)
    requires k < |rows| && SamePair(rows[k], req)
    ensures var f := Upserted(rows, req, freshId)[k].flags;
      f == UpdatedFlags(rows[k].flags, req) &&
      (req.canRead.Some? && req.canWrite.Some? && req.canUpdate.Some? && req.canDelete.Some? ==>
        f == Flags(req.canRead.value, req.canWrite.value, req.canUpdate.value, req.canDelete.value))
  {
    var i := FirstIndex(rows, (g: RoleMenu) => SamePair(g, req)).value;
    assert SamePair(rows[i], req);
  }

  /** A caller that is not `'Super admin'` never changes the table. */
  lemma PostGuardedByAdmin(t: Tables, faults: Faults, authorization: Option<string>, verify: Verifier,
                           req: GrantRequest, freshId: string)
    requires !WithAdminAuth(t, faults, authorization, verify).Pass?
    ensures PostEffect(t, faults, authorization, verify, req, freshId).tables == t
    ensures PostEffect(t, faults, authorization, verify, req, freshId).reply.Json? == false
  {
  }

  /** A store failure is 500 and leaves the table alone. */
  lemma PostStoreFailure(t: Tables, faults: Faults, authorization: Option<string>, verify: Verifier,
                         req: GrantRequest, freshId: string)
    requires WithAdminAuth(t, faults, authorization, verify).Pass?
    requires UpsertGrant in faults
    ensures PostEffect(t, faults, authorization, verify, req, freshId) ==
      Upsert(t, ErrorJson(500, "Failed to assign menu to role"))
  {
  }

  // ---- The create-time `canRead || true` -------------------------------------

  /** As written, submitting the same request twice for a new pair does not settle: `canRead` flips. */
  lemma AsWrittenUpsertNotIdempotent()
    ensures var req := GrantRequest("r", "m", Some(false), None, None, None);
      var once := Upserted([], req, "g1");
      once[0].flags.canRead && !Upserted(once, req, "g2")[0].flags.canRead
  {
    var req := GrantRequest("r", "m", Some(false), None, None, None);
    var once := Upserted([], req, "g1");
    assert once == [RoleMenu("g1", "r", "m", Flags(true, false, false, false))];
    assert SamePair(once[0], req);
  }

  /** The evident intent, `canRead ?? true`: a submitted value is kept, an omitted one defaults to true. */
  function IntendedCreatedFlags(req: GrantRequest): (f: Flags)
    ensures f.canRead == req.canRead.GetOr(true)
    ensures f.canWrite == (req.canWrite == Some(true))
    ensures f.canUpdate == (req.canUpdate == Some(true))
    ensures f.canDelete == (req.canDelete == Some(true))
  {
    Flags(req.canRead.GetOr(true), req.canWrite.GetOr(false), req.canUpdate.GetOr(false), req.canDelete.GetOr(false))
  }

  function IntendedUpserted(rows: seq<RoleMenu>, req: GrantRequest, freshId: string): seq<RoleMenu> {
    UpsertedWith(rows, req, freshId, IntendedCreatedFlags(req))
  }

  /** With the intended create branch, repeating a request leaves the table as the first one did. */
  lemma {:induction false} IntendedUpsertIdempotent(rows: seq<RoleMenu>, req: GrantRequest, id1: string, id2: string)
    ensures IntendedUpserted(IntendedUpserted(rows, req, id1), req, id2) == IntendedUpserted(rows, req, id1)
  {
    var p := (g: RoleMenu) => SamePair(g, req);
    var once := IntendedUpserted(rows, req, id1);
    match FirstIndex(rows, p)
    case Some(i) =>
      assert forall j :: 0 <= j < i ==> once[j] == rows[j];
      assert FirstIndex(once, p) == Some(i) by {
        assert p(once[i]);
      }
    case None =>
      assert forall j :: 0 <= j < |rows| ==> once[j] == rows[j];
      assert FirstIndex(once, p) == Some(|rows|) by {
        assert p(once[|rows|]);
      }
  }
}
