/**
 * `/api/master-menus`: the menus route behind grant checks on the
 * `'/master-menus'` path, answering with the response envelope.
 */
module MasterMenusRoute {
  import opened Wrappers
  import opened Schema
  import opened Tokens
  import opened Http
  import opened ApiResponse
  import opened AuthMiddleware
  import opened MenusRoute

  const MasterPath := "/master-menus"

  /** The GET body: the `forUser` projection is a bare array, everything else an envelope. */
  datatype MasterBody = Listing(menus: seq<Menu>) | Enveloped(envelope: Envelope<seq<Menu>>)

  function FetchFailed(now: string): Reply<MasterBody> {
    Json(500, Enveloped(CreateErrorResponse("Failed to fetch menus", now, "Internal server error")))
  }

  /** GET `/api/master-menus`; `now` is the envelope's timestamp. */
  function Get(t: Tables, faults: Faults, authorization: Option<string>, verify: Verifier,
               forUserParam: Option<string>, now: string): (r: Reply<MasterBody>)
    ensures var gate := WithReadPermission(t, faults, authorization, verify, MasterPath);
      !gate.Pass? ==> r == Refused(gate)
    ensures r.Json? && r.body.Listing? ==> r.status == 200 && ForUser(forUserParam)
    ensures r.Json? && r.body.Enveloped? ==> WellFormed(r.body.envelope)
    ensures r.Json? && r.body.Enveloped? ==> (r.status == 200 <==> r.body.envelope.status == Success)
  {
    var gate := WithReadPermission(t, faults, authorization, verify, MasterPath);
    if !gate.Pass? then Refused(gate)
    else if FindCaller in faults then FetchFailed(now)
    else if ForUser(forUserParam) then Json(200, Listing(ReadableMenus(t, gate.principal.userId)))
    else
      var found := UserWithRole(t, gate.principal.userId);
      if found.None? || found.value.1.name != SuperAdmin then
        Json(403, Enveloped(CreateErrorResponse("Admin access required", now, "Admin access required")))
      else if ListMenus in faults then FetchFailed(now)
      else Json(200, Enveloped(CreateSuccessResponse(SortedMenus(t.menus), now, "Menus fetched successfully")))
  }

  /** Nothing is read without `canRead` on `'/master-menus'`. */
  lemma GetNeedsReadGrant(t: Tables, faults: Faults, authorization: Option<string>, verify: Verifier,
                          forUserParam: Option<string>, now: string)
    requires Get(t, faults, authorization, verify, forUserParam, now).Json?
    requires Get(t, faults, authorization, verify, forUserParam, now).status == 200
    ensures WithAuth(authorization, verify).Pass?
    ensures Resolve(t, faults, WithAuth(authorization, verify).principal.userId, MasterPath, CanRead).Allow?
  {
  }

  /** With read access, `forUser` gives the caller's readable menus as a bare array. */
  lemma ForUserIsBareListing(t: Tables, faults: Faults, authorization: Option<string>, verify: Verifier, now: string)
    requires WithReadPermission(t, faults, authorization, verify, MasterPath).Pass? && FindCaller !in faults
    ensures Get(t, faults, authorization, verify, Some("true"), now) ==
      Json(200, Listing(ReadableMenus(t, WithAuth(authorization, verify).principal.userId)))
  {
  }

  /**
   * Without `forUser` and with no store failure, the success envelope holding
   * the sorted table goes exactly to a caller whose role is `'Super admin'`
   * (who always holds the read grant); anyone else with the grant gets the 403 envelope.
   */
  lemma ListingExactlyForSuperAdmin(t: Tables, faults: Faults, authorization: Option<string>, verify: Verifier,
                                    forUserParam: Option<string>, now: string)
    requires !ForUser(forUserParam) && FindUserById !in faults && FindCaller !in faults && ListMenus !in faults
    requires WithAuth(authorization, verify).Pass?
    ensures var found := UserWithRole(t, WithAuth(authorization, verify).principal.userId);
      var isSuper := found.Some? && found.value.1.name == SuperAdmin;
      var r := Get(t, faults, authorization, verify, forUserParam, now);
      (isSuper ==> r == Json(200, Enveloped(CreateSuccessResponse(SortedMenus(t.menus), now, "Menus fetched successfully")))) &&
      (!isSuper && WithReadPermission(t, faults, authorization, verify, MasterPath).Pass? ==>
        r == Json(403, Enveloped(CreateErrorResponse("Admin access required", now, "Admin access required"))))
  {
    var found := UserWithRole(t, WithAuth(authorization, verify).principal.userId);
    if found.Some? && found.value.1.name == SuperAdmin {
      SuperAdminBypass(t, faults, WithAuth(authorization, verify).principal.userId, MasterPath, CanRead);
    }
  }

  /** Store failures past the guard answer with the 500 error envelope. */
  lemma GetStoreFailure(t: Tables, faults: Faults, authorization: Option<string>, verify: Verifier,
                        forUserParam: Option<string>, now: string)
    requires WithReadPermission(t, faults, authorization, verify, MasterPath).Pass?
    requires FindCaller in faults
    ensures Get(t, faults, authorization, verify, forUserParam, now) == FetchFailed(now)
  {
  }

  /** A failing menu listing for a `'Super admin'` caller also answers with the 500 envelope. */
  lemma ListingStoreFailure(t: Tables, faults: Faults, authorization: Option<string>, verify: Verifier,
                            forUserParam: Option<string>, now: string)
    requires WithReadPermission(t, faults, authorization, verify, MasterPath).Pass?
    requires FindCaller !in faults && !ForUser(forUserParam) && ListMenus in faults
    requires UserWithRole(t, WithAuth(authorization, verify).principal.userId).Some?
    requires UserWithRole(t, WithAuth(authorization, verify).principal.userId).value.1.name == SuperAdmin
    ensures Get(t, faults, authorization, verify, forUserParam, now) == FetchFailed(now)
  {
  }

  // ---- POST --------------------------------------------------------------

  function PostEffect(t: Tables, faults: Faults, authorization: Option<string>, verify: Verifier,
                      req: MenuRequest, freshId: string, now: string): Created<Envelope<Menu>>
  {
    var gate := WithWritePermission(t, faults, authorization, verify, MasterPath);
    if !gate.Pass? then Created(t, Refused(gate))
    else CreateMenuEffect(t, faults, req, freshId,
                          (m: Menu) => Json(200, CreateSuccessResponse(m, now, "Menu created successfully")),
                          Json(500, CreateErrorResponse("Failed to create menu", now, "Internal server error")))
  }

  /** POST `/api/master-menus`, behind `canWrite` on `'/master-menus'`. */
  method Post(db: Database, faults: Faults, authorization: Option<string>, verify: Verifier,
              req: MenuRequest, freshId: string, now: string) returns (reply: Reply<Envelope<Menu>>)
    modifies db
    ensures Created(db.Snapshot(), reply) == PostEffect(old(db.Snapshot()), faults, authorization, verify, req, freshId, now)
  {
    var gate := WithWritePermission(db.Snapshot(), faults, authorization, verify, MasterPath);
    if !gate.Pass? {
      return Refused(gate);
    }
    reply := CreateMenuRow(db, faults, req, freshId,
                           (m: Menu) => Json(200, CreateSuccessResponse(m, now, "Menu created successfully")),
                           Json(500, CreateErrorResponse("Failed to create menu", now, "Internal server error")));
  }

  /** A row is added only with `canWrite` on the path, and then it is the submitted menu, wrapped in a success envelope. */
  lemma PostOutcomes(t: Tables, faults: Faults, authorization: Option<string>, verify: Verifier,
                     req: MenuRequest, freshId: string, now: string)
    ensures var c := PostEffect(t, faults, authorization, verify, req, freshId, now);
      c.tables != t ==>
        && WithWritePermission(t, faults, authorization, verify, MasterPath).Pass?
        && c.tables.menus == t.menus + [NewMenu(req, freshId)]
        && c.reply == Json(200, CreateSuccessResponse(NewMenu(req, freshId), now, "Menu created successfully"))
    ensures WithWritePermission(t, faults, authorization, verify, MasterPath).Pass? && CreateMenu in faults ==>
      PostEffect(t, faults, authorization, verify, req, freshId, now) ==
        Created(t, Json(500, CreateErrorResponse("Failed to create menu", now, "Internal server error")))
    ensures WithWritePermission(t, faults, authorization, verify, MasterPath).Pass? &&
            CreateMenu !in faults && !CreateRejected(t, req, freshId) ==>
      PostEffect(t, faults, authorization, verify, req, freshId, now) ==
        Created(t.(menus := t.menus + [NewMenu(req, freshId)]),
                Json(200, CreateSuccessResponse(NewMenu(req, freshId), now, "Menu created successfully")))
  {
  }
}
