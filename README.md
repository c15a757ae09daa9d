# Authorization core of a role-based user-management app

This project models the server and client decision logic of a Next.js admin
application that runs role-based access control. The app has users, roles,
a forest of menus addressed by unique paths, and per-role, per-menu grants
carrying four CRUD flags (`canRead`, `canWrite`, `canUpdate`, `canDelete`).

What is modelled:

- **The store.** `Schema.Tables` holds the four tables as sequences in storage
  order. `Schema.Database` is the live database that the write routes change
  in place. The unique constraints are `Schema.Keyed`, the foreign keys are
  `Schema.Linked`, and both together are `Schema.Consistent`. Prisma's
  `include` is an inner join.
- **Store failures.** Each route takes a set of store calls that throw
  (`Schema.Query`). Every `catch` branch is modelled. A guard's user lookup
  and the handler's own lookup of the same user are separate calls.
- **The guard chain** (`AuthMiddleware`):
  - `withAuth` (bearer token, 401);
  - `withAdminAuth` (role name exactly `'Super admin'`, 403);
  - `withPermission`, the resolver: unknown user 404, superuser bypass,
    unknown path 404, missing or false grant flag 403, store failure 500;
  - the four flag wrappers.
- **The API routes, one module each:**
  - `/api/role-menus`: filtered listing and the upsert on `(roleId, menuId)`;
  - `/api/menus` and `/api/master-menus`: the `forUser` projection, the full
    listing by `orderIndex`, and menu creation;
  - `/api/users`: the password-stripping listing and user creation;
  - `/api/auth/register`, `/api/auth/login` and `/api/auth/refresh`.
- **The client side:**
  - the permission hook's `queryFn` and its two flag mappings;
  - the permission editor's tree builder, its permission map and the save
    filter;
  - the zustand auth store (`AuthStore.Store`);
  - the response envelope constructors.

Token signing and bcrypt are oracles passed in as functions:
- `Tokens.Verifier` maps a token string to `Option<TokenPayload>`.
- `Tokens.Issuer` maps a payload to a token pair.
- `hash` and `compare` are uninterpreted functions.

The clock (`now`, the envelope's `dateTime`), the id the database assigns
(`freshId`) and `NODE_ENV === 'production'` (`production`) are parameters too.

Each role-name literal is kept where it is written:
- `AuthMiddleware.SuperAdmin` (lib/auth-middleware.ts lines 30 and 60);
- `UsePermissions.SuperAdminName` (hooks/use-permissions.ts line 24);
- `MenusRoute.ListingRole`, which is `'admin'` (app/api/menus/route.ts line 40);
- `RegisterRoute.DefaultRole`, which is `'user'`.

The routes are not uniform; the model follows each one:

- **Envelope.** Only `/api/master-menus` answers with the success/error
  envelope. The other routes answer with a bare body or `{ error }`
  (`Http.Reply`).
- **Admin guard failure.** A store failure inside `withAdminAuth` is not
  caught by the guard. The handler promise escapes, so the framework answers
  (`Gate.Escape`, `Reply.Crashed`) and no JSON comes from the app.
- **Resolver lookup.** The resolver re-reads the user by the token's
  `userId`, and a missing user is 404.
- **Upsert.** The grant upsert is not idempotent for a new pair submitted
  with `canRead: false` (see Findings).
- **Tokens.** Token round trips and expiry are not part of the model.

## Model

| member | source | states |
|---|---|---|
| `ApiResponse.CreateSuccessResponse` | lib/api-response.ts:9-16 | status `'success'`, `data` is the argument, no `error`, the given message and timestamp; the envelope is well formed |
| `ApiResponse.CreateErrorResponse` | lib/api-response.ts:18-25 | status `'error'`, `error` is the argument, no `data`, the given message and timestamp; the envelope is well formed |
| `ApiResponse.DefaultMessages` | lib/api-response.ts:9-20 | without a message argument the messages are `'Success'` and `'Error occurred'` |
| `AuthMiddleware.RemoveFirst` | lib/auth-middleware.ts:7 | `replace('Bearer ', '')` never lengthens the header |
| `AuthMiddleware.BearerTokenOfPrefixedHeader` | lib/auth-middleware.ts:7 | a header `"Bearer " + token` yields exactly `token` |
| `AuthMiddleware.WithAuth` | lib/auth-middleware.ts:4-19 | passes iff the token is non-empty and verifies, with the verified payload as principal; an absent or empty token is 401 `'Authentication required'`; a non-empty token that does not verify is 401 `'Invalid token'` |
| `AuthMiddleware.WithAdminAuth` | lib/auth-middleware.ts:21-36 | a refused `withAuth` is passed through; a store failure escapes the guard; it passes iff the principal's stored role is named exactly `'Super admin'`, and, when the lookup does not fail, is otherwise 403 `'Admin access required'`, unknown user included |
| `AuthMiddleware.AdminAuthMatchesStore` | lib/auth-middleware.ts:25-34 | with no store failure, the admin guard passes iff the token verifies and the user found by id has a role named `'Super admin'` |
| `AuthMiddleware.Resolve` | lib/auth-middleware.ts:46-94 | a denial is 403, 404 or 500; a user lookup that throws is 500 `'Permission check failed'`; an unknown user is 404 `'User not found'` before any menu or grant lookup |
| `AuthMiddleware.SuperAdminBypass` | lib/auth-middleware.ts:59-62 | a `'Super admin'` caller is allowed for every path and permission, whatever the menus, the grants or later store calls |
| `AuthMiddleware.UnconfiguredPathIs404` | lib/auth-middleware.ts:64-71 | for any other caller, a path with no menu is 404 `'Menu not found'` |
| `AuthMiddleware.GrantDecides` | lib/auth-middleware.ts:74-90 | for a non-superuser on an existing menu, the request is allowed iff the grant for (role, menu) exists and has the flag; otherwise it is 403 with the message naming the permission and the path |
| `AuthMiddleware.StoreFailureIs500` | lib/auth-middleware.ts:91-94 | a store call that throws on the way to a decision gives 500, never an allow |
| `AuthMiddleware.WithPermission` | lib/auth-middleware.ts:40-96 | a refused `withAuth` is passed through; it passes iff the token verifies and the resolver allows; a resolver denial is answered with that denial's status and error (404, 403 or 500); it never escapes |
| `AuthMiddleware.ConvenienceGuards` | lib/auth-middleware.ts:99-113 | the read, write, update and delete guards are `withPermission` with `canRead`, `canWrite`, `canUpdate` and `canDelete` |
| `AuthMiddleware.Refused` | lib/auth-middleware.ts:9-11 | a refusing guard's reply is its status and `{ error }`; an escaping guard crashes the request |
| `AuthMiddleware.ResolveMatchesEntitlement` | lib/auth-middleware.ts:50-90 | in a store with unique keys and no failing calls, the resolver allows exactly the entitled requests: superuser, or a grant of the user's role on the path's menu with the flag set |
| `AuthMiddleware.AllowedIsEntitled` | lib/auth-middleware.ts:50-90 | an allowed request is entitled (one direction of the rule above) |
| `AuthMiddleware.EntitledIsAllowed` | lib/auth-middleware.ts:50-90 | an entitled request is allowed (the other direction) |
| `AuthMiddleware.WithPermissionMatchesEntitlement` | lib/auth-middleware.ts:40-96 | the guarded handler runs iff the token verifies and its user is entitled |
| `AuthStore.Store.constructor` | store/auth-store.ts:26-28 | the initial state has no user, no token and is not authenticated |
| `AuthStore.Store.SetAuth` | store/auth-store.ts:29-34 | sets the user, the token and `isAuthenticated`, keeping authenticated iff a token is held |
| `AuthStore.Store.Logout` | store/auth-store.ts:35-40 | resets all three fields to the initial state, keeping the invariant |
| `AuthStore.SessionRoundTrip` | store/auth-store.ts:29-40 | from any state, two logouts and then `setAuth(u, t)` leave exactly `u`, `t` and authenticated, with the invariant kept |
| `Tokens.PayloadOf` | app/api/auth/login/route.ts:34-38 | the token payload is exactly the user's id, email and role id |
| `Tokens.Session` | app/api/auth/login/route.ts:34-56 | the success reply holds the public user (no password) and the access token; the cookie holds the refresh token, is httpOnly, `sameSite` strict, lives 604800 s, and is secure exactly in production |
| `LoginRoute.UserWithRoleByEmail` | app/api/auth/login/route.ts:11-14 | the row found has the email and its joined role is the user's role |
| `LoginRoute.Login` | app/api/auth/login/route.ts:6-65 | a failing lookup is 500; every other denial is 401 `'Invalid credentials'`; it succeeds iff the user exists and `compare(password, hash)` holds, with the found user's session |
| `LoginRoute.FailuresIndistinguishable` | app/api/auth/login/route.ts:16-31 | an unknown email and a wrong password produce the identical 401 reply |
| `LoginRoute.OwnCredentialsLogIn` | app/api/auth/login/route.ts:11-56 | in a consistent store a user giving their password gets tokens for their own claims and a seven-day cookie |
| `RefreshRoute.Refresh` | app/api/auth/refresh/route.ts:5-63 | no cookie is 401 `'Refresh token not found'`; a failing verify is 401 `'Invalid refresh token'`; every denial is 401 and sets no cookie; success needs a verified token whose user exists, with that user's session |
| `RefreshRoute.DeletedUserRefused` | app/api/auth/refresh/route.ts:19-29 | a valid token of a user no longer stored is 401 `'User not found'` |
| `RefreshRoute.ClaimsAreCurrent` | app/api/auth/refresh/route.ts:32-54 | the new tokens carry the stored email and role id whatever the old token claimed; the body omits the password and the cookie is replaced for 604800 s |
| `RegisterRoute.Post` | app/api/auth/register/route.ts:6-87 | the database afterwards and the reply are those of the sign-up decision on the database before |
| `RegisterRoute.DuplicateRefused` | app/api/auth/register/route.ts:11-25 | an email or username already taken is 400 `'User already exists'` and nothing is created |
| `RegisterRoute.MissingDefaultRole` | app/api/auth/register/route.ts:31-40 | without a role named `'user'` the result is 500 `'Default role not found'` and nothing is created |
| `RegisterRoute.SignUpOutcome` | app/api/auth/register/route.ts:28-78 | a fresh email and username, a `'user'` role present and no store failure give a successful sign-up; a successful sign-up appends exactly one user with the hashed password and the `'user'` role's id; it answers with tokens for that user's claims, the public user and the refresh cookie; any other outcome changes nothing; the store stays consistent |
| `UsersRoute.Strip` | app/api/users/route.ts:17 | the listed user has every stored field but the password, plus the role |
| `UsersRoute.SafeUsers` | app/api/users/route.ts:8-17 | no more entries than rows, each with its own role |
| `UsersRoute.SafeUsersComplete` | app/api/users/route.ts:8-17 | when every row's role exists, the listing has one entry per row, in row order, each the row stripped |
| `UsersRoute.NewestFirst` | app/api/users/route.ts:12-14 | a permutation of the users with `createdAt` non-increasing |
| `UsersRoute.Get` | app/api/users/route.ts:6-26 | behind the admin guard; a failing listing is 500 `'Failed to fetch users'`; otherwise the stripped users newest first |
| `UsersRoute.GetListsEveryUserNewestFirst` | app/api/users/route.ts:6-19 | in a consistent store the admin listing has one entry per user, reaches every user, and is newest first |
| `UsersRoute.NewUser` | app/api/users/route.ts:48-54 | the stored row holds `hash(password)`, the submitted role id, the fresh id and the timestamp |
| `UsersRoute.Post` | app/api/users/route.ts:28-69 | the database afterwards and the reply are those of the create decision on the database before |
| `UsersRoute.DuplicateRefused` | app/api/users/route.ts:33-44 | a taken email or username is 400 `'User already exists'` and nothing is created |
| `UsersRoute.PostAddsHashedUser` | app/api/users/route.ts:46-62 | a request passing `withAdminAuth` with a fresh email and username, a known role and no store failure appends exactly the hashed row and answers with it stripped of its password; a success happens only so; any other outcome changes nothing; the store stays consistent |
| `RoleMenusRoute.Join` | app/api/role-menus/route.ts:12-15 | a joined grant carries its own role and menu |
| `RoleMenusRoute.Joined` | app/api/role-menus/route.ts:10-16 | every listed grant is a kept row of the table, with its own role and menu |
| `RoleMenusRoute.JoinedComplete` | app/api/role-menus/route.ts:10-16 | under the foreign keys every kept grant is listed |
| `RoleMenusRoute.Get` | app/api/role-menus/route.ts:5-25 | behind the admin guard; a failing listing is 500; a listing holds only stored grants, and only grants of `roleId` when it is given |
| `RoleMenusRoute.GetListsEveryGrantOfRole` | app/api/role-menus/route.ts:8-16 | every grant of the requested role (every grant without one) is listed |
| `RoleMenusRoute.CreatedFlags` | app/api/role-menus/route.ts:38-45 | a created row has `canRead` true whatever was sent, and each other flag true only when sent true |
| `RoleMenusRoute.UpdatedFlags` | app/api/role-menus/route.ts:46-51 | an updated row takes each submitted flag and keeps each flag left `undefined` |
| `RoleMenusRoute.Post` | app/api/role-menus/route.ts:27-65 | the grant table afterwards and the reply are those of the upsert decision on the table before |
| `RoleMenusRoute.UpsertKeepsOneRowPerPair` | app/api/role-menus/route.ts:31-37 | when the table has one row per (role, menu) pair it still has one afterwards, and exactly one row holds the submitted pair |
| `RoleMenusRoute.UpsertChangesOnlyThePair` | app/api/role-menus/route.ts:31-56 | no row is dropped, at most one is added, and rows of other pairs and every row id are unchanged |
| `RoleMenusRoute.CreateForcesCanRead` | app/api/role-menus/route.ts:38-45 | a new pair is appended with `canRead` true |
| `RoleMenusRoute.UpdateSetsSubmittedFlags` | app/api/role-menus/route.ts:46-51 | an existing pair takes the submitted flags and keeps the others |
| `RoleMenusRoute.PostGuardedByAdmin` | app/api/role-menus/route.ts:27 | a caller refused by the admin guard changes nothing and gets no JSON success |
| `RoleMenusRoute.PostStoreFailure` | app/api/role-menus/route.ts:59-64 | a failing upsert is 500 `'Failed to assign menu to role'` and the table is unchanged |
| `RoleMenusRoute.AsWrittenUpsertNotIdempotent` | app/api/role-menus/route.ts:41 | repeating `{canRead: false}` for a new pair stores `canRead` true and then false |
| `RoleMenusRoute.IntendedCreatedFlags` | app/api/role-menus/route.ts:41-44 | with `canRead ?? true` a submitted `canRead` is kept and an omitted one is true |
| `RoleMenusRoute.IntendedUpsertIdempotent` | app/api/role-menus/route.ts:31-56 | with the intended create branch, a repeated request leaves the table as the first one did |
| `MenusRoute.MenusOf` | app/api/menus/route.ts:12-30 | the menus listed are stored menus of `canRead` grants of the role, no more than the grants |
| `MenusRoute.MenusOfComplete` | app/api/menus/route.ts:12-30 | when every grant's menu exists, each readable grant of the role has its menu listed |
| `MenusRoute.ReadableMenus` | app/api/menus/route.ts:30 | an unknown user gets the empty list, and every listed menu is stored |
| `MenusRoute.SortedMenus` | app/api/menus/route.ts:44-52 | a permutation of the menu table with `orderIndex` non-decreasing |
| `MenusRoute.GetFor` | app/api/menus/route.ts:5-61 | a refused token is 401; a failing caller lookup is 500 `'Failed to fetch menus'`; so is a failing menu listing for a caller of the listing role; every JSON answer is 200 |
| `MenusRoute.ForUserListsReadableMenus` | app/api/menus/route.ts:10-31 | with `forUser=true` the answer is the caller's readable menus, empty for an unknown user |
| `MenusRoute.ReadableIffGranted` | app/api/menus/route.ts:12-30 | in a consistent store a menu is listed for a user iff the user's role has a grant on it with `canRead` |
| `MenusRoute.ReadableMenusMatchReadPermission` | app/api/menus/route.ts:10-31 | for a non-superuser the `forUser` list holds a menu iff `withReadPermission` on its path would allow |
| `MenusRoute.ListingRequiresAdminName` | app/api/menus/route.ts:35-42 | without `forUser`, a caller whose role is not named `'admin'` gets 403 `'Admin access required'` |
| `MenusRoute.ListingIsSortedTable` | app/api/menus/route.ts:44-54 | the full listing is every menu, each once, by `orderIndex` ascending |
| `MenusRoute.AsWrittenAdminsCannotList` | app/api/menus/route.ts:40 | a caller who passes `withAdminAuth` is refused the full listing, and a caller who gets it does not pass `withAdminAuth` |
| `MenusRoute.IntendedListingMatchesAdminAuth` | app/api/menus/route.ts:34-54 | with `'Super admin'` as the listing role, a caller gets the full listing iff `withAdminAuth` would let them create menus |
| `MenusRoute.NewMenu` | app/api/menus/route.ts:67-75 | the stored menu has the submitted fields and `orderIndex` 0 when none was sent |
| `MenusRoute.CreateMenuEffect` | app/api/menus/route.ts:64-83 | an insert the database accepts appends exactly the new menu and answers with it; a failing or refused insert is the failure reply with nothing changed |
| `MenusRoute.CreateMenuRow` | app/api/menus/route.ts:67-77 | the menu table afterwards and the reply are those of the create decision on the table before |
| `MenusRoute.Post` | app/api/menus/route.ts:63-84 | the same, behind the admin guard |
| `MenusRoute.PostGuardedByAdmin` | app/api/menus/route.ts:63 | a caller refused by the admin guard changes nothing and gets the guard's reply |
| `MenusRoute.CreateKeepsConsistent` | app/api/menus/route.ts:67-83 | a created menu keeps the store consistent |
| `MasterMenusRoute.Get` | app/api/master-menus/route.ts:6-65 | behind `canRead` on `'/master-menus'`; the bare array comes only for `forUser`; every envelope is well formed and is a success exactly when the status is 200 |
| `MasterMenusRoute.GetNeedsReadGrant` | app/api/master-menus/route.ts:6 | a 200 answer means the token verified and the resolver allowed `canRead` on `'/master-menus'` |
| `MasterMenusRoute.ForUserIsBareListing` | app/api/master-menus/route.ts:11-32 | with read access, `forUser=true` gives the caller's readable menus as a bare array |
| `MasterMenusRoute.ListingExactlyForSuperAdmin` | app/api/master-menus/route.ts:35-58 | without `forUser`, a `'Super admin'` gets the success envelope with the sorted table, and anyone else with the read grant gets the 403 error envelope |
| `MasterMenusRoute.GetStoreFailure` | app/api/master-menus/route.ts:59-64 | past the read guard, a failing caller lookup is the 500 error envelope `'Failed to fetch menus'` |
| `MasterMenusRoute.ListingStoreFailure` | app/api/master-menus/route.ts:48-64 | past the read guard and without `forUser`, a failing menu listing for a `'Super admin'` caller is the same 500 envelope |
| `MasterMenusRoute.Post` | app/api/master-menus/route.ts:67-88 | the menu table afterwards and the reply are those of the create decision behind `canWrite` on `'/master-menus'` |
| `MasterMenusRoute.PostOutcomes` | app/api/master-menus/route.ts:67-87 | with `canWrite` on the path and an insert the database accepts, exactly the new menu is appended and answered in the success envelope; a changed table happens only so; a failing insert is the 500 error envelope with nothing changed |
| `UsePermissions.FetchOf` | hooks/use-permissions.ts:29 | the client gets the grant list exactly for a 2xx JSON reply and fails otherwise |
| `UsePermissions.QueryPermissions` | hooks/use-permissions.ts:18-46 | no user gives all false; `'Super admin'` gives all true; a failed fetch gives all false; otherwise the flags of the first listed grant on the path, all false without one |
| `UsePermissions.HasPermission` | hooks/use-permissions.ts:52-59 | true iff data is present and its named flag is true |
| `UsePermissions.UsePermissionGuard` | hooks/use-permissions.ts:62-76 | each flag is `HasPermission` of that flag; add, edit and delete buttons show exactly with `canWrite`, `canUpdate` and `canDelete` |
| `UsePermissions.FirstOnPath` | hooks/use-permissions.ts:30 | the index found is of a grant on the path; none is found iff no listed grant is on it |
| `UsePermissions.HookOnFetchedRows` | hooks/use-permissions.ts:29-41 | for a non-superuser a delivered list sets a flag iff its first grant on the path has it |
| `UsePermissions.HookFailsClosedWithoutAdminRole` | hooks/use-permissions.ts:29-45 | for any caller the admin guard refuses, the hook reports all flags false whatever the grants say |
| `UsePermissions.HookFlagIsEntitled` | hooks/use-permissions.ts:29-41 | a flag the hook reports from the role's own grants is an entitlement on the server |
| `UsePermissions.EntitledByOwnGrant` | lib/auth-middleware.ts:64-88 | for a non-superuser, an entitlement is a grant of the user's own role on the path's menu |
| `UsePermissions.EntitledShowsInHook` | hooks/use-permissions.ts:29-41 | an entitlement of a non-superuser shows up as the flag the hook reports |
| `UsePermissions.GrantShowsInHook` | hooks/use-permissions.ts:30 | a role's grant on the path's menu is the first grant on that path in the role's list |
| `UsePermissions.ClientAgreesWithServer` | hooks/use-permissions.ts:29-41 | once the role's grants are delivered, the hook's flag agrees with the server resolver, both ways |
| `UsePermissions.OwnGrantsReply` | app/api/role-menus/route.ts:5-25 | the intended listing answers 200 only to a verified token |
| `UsePermissions.IntendedHookAgreesWithServer` | hooks/use-permissions.ts:29-41 | with a listing open to the caller's own role, a button shows iff the server would run the handler guarded by that flag |
| `PermissionModal.GrantFlags` | components/forms/permission-modal.tsx:54-63 | a menu without a grant gets all false, otherwise the flags of the first grant on it |
| `PermissionModal.Children` | components/forms/permission-modal.tsx:51 | exactly the menus whose parent is `parentId` |
| `PermissionModal.Level` | components/forms/permission-modal.tsx:50-52 | a permutation of those children, by `orderIndex` non-decreasing |
| `PermissionModal.BuildMenuTree` | components/forms/permission-modal.tsx:49-66 | one node per menu of the level, in order, each with the flags of its grant |
| `PermissionModal.Nodes` | components/forms/permission-modal.tsx:53-65 | one node per menu, in order, with its grant's flags |
| `PermissionModal.MakeNode` | components/forms/permission-modal.tsx:55-64 | a node is its menu with that menu's grant flags |
| `PermissionModal.TreeWellBuilt` | components/forms/permission-modal.tsx:49-66 | at every depth each node sits under its level's parent, siblings are by `orderIndex`, and each node shows its grant |
| `PermissionModal.NodesWellBuilt` | components/forms/permission-modal.tsx:53-65 | the mapped nodes of a level are well built at every depth |
| `PermissionModal.SubtreeWellBuilt` | components/forms/permission-modal.tsx:57 | the children of a node are well built under that node's id |
| `PermissionModal.NodeMenus` | components/forms/permission-modal.tsx:53-56 | the menus of a level of nodes, one per node, in order |
| `PermissionModal.LevelHoldsChildren` | components/forms/permission-modal.tsx:49-52 | a level holds exactly the menus whose parent is the level's parent (the parentless ones at the root), by `orderIndex` |
| `PermissionModal.NodesAt` | components/forms/permission-modal.tsx:53-65 | the `i`-th node is built from the `i`-th menu |
| `PermissionModal.NodeChildren` | components/forms/permission-modal.tsx:57 | each node's children are the tree under its own id |
| `PermissionModal.ByMenuId` | components/forms/permission-modal.tsx:73-76 | the map has a key exactly for each menu id that has a grant |
| `PermissionModal.ByMenuIdLastWins` | components/forms/permission-modal.tsx:74-76 | the last grant on a menu is the one kept |
| `PermissionModal.CurrentPermissions` | components/forms/permission-modal.tsx:130-135 | a menu without an entry renders all false, otherwise with its entry's flags |
| `PermissionModal.Toggled` | components/forms/permission-modal.tsx:82-88 | flips membership of the menu id only |
| `PermissionModal.ToggleTwice` | components/forms/permission-modal.tsx:81-89 | toggling twice restores the set |
| `PermissionModal.EditedEntry` | components/forms/permission-modal.tsx:96-105 | role and menu set, the entry's id kept, the named flag set to the value, the others kept (false if absent) |
| `PermissionModal.HandleSave` | components/forms/permission-modal.tsx:109-120 | without a role nothing is submitted; otherwise exactly the entries with a true flag, unchanged, for the role |
| `PermissionModal.SaveAfterEdit` | components/forms/permission-modal.tsx:91-114 | after ticking a flag the menu is submitted; after clearing a flag so that none is left it is not |
| `PermissionModal.PermissionEditor.constructor` | components/forms/permission-modal.tsx:41-42 | the editor starts with nothing expanded and an empty map |
| `PermissionModal.PermissionEditor.InitPermissions` | components/forms/permission-modal.tsx:71-79 | an empty grant list changes nothing; otherwise the map becomes the grants by menu id; the expanded set is unchanged |
| `PermissionModal.PermissionEditor.ToggleExpanded` | components/forms/permission-modal.tsx:81-89 | the expanded set has the menu's membership flipped; the map is unchanged |
| `PermissionModal.PermissionEditor.UpdatePermission` | components/forms/permission-modal.tsx:91-107 | without a role nothing changes; otherwise only the menu's entry is rewritten |
| `Schema.SetFlag` | components/forms/permission-modal.tsx:100-104 | the named flag takes the value, the other three are kept |
| `Schema.UserWithRole` | lib/auth-middleware.ts:50-53 | the user found has the id and the joined role is its own |
| `Schema.RoleByName` | app/api/auth/register/route.ts:31-33 | a role found has the name; none found means no role has it |
| `Schema.MenuByPath` | lib/auth-middleware.ts:65-67 | a menu found has the path; none found means no menu has it |
| `Schema.GrantFor` | lib/auth-middleware.ts:75-82 | a grant found is of the role on the menu; none found means there is none |
| `Schema.Taken` | app/api/users/route.ts:33-37 | holds iff some user has the email or the username |
| `Schema.KeyedUserWithRole` | lib/auth-middleware.ts:50-53 | under the unique keys the lookup by id finds exactly the stored user and its role |
| `Schema.KeyedMenuByPath` | lib/auth-middleware.ts:65-67 | under the unique keys the lookup by path finds exactly the stored menu |
| `Schema.KeyedGrantFor` | lib/auth-middleware.ts:75-82 | under the unique pair key the lookup finds exactly the stored grant |
| `Schema.AppendMenuKeepsConsistent` | app/api/menus/route.ts:67-75 | a menu with a fresh id, a fresh path and an existing parent keeps the store consistent |
| `Schema.AppendUserKeepsConsistent` | app/api/users/route.ts:48-58 | a user with a fresh id, email and username and an existing role keeps the store consistent |
| `Seqs.FirstIndex` | hooks/use-permissions.ts:30 | the index found is the first element satisfying the predicate; none is found iff none satisfies it |
| `Seqs.Find` | lib/auth-middleware.ts:75-82 | the element found satisfies the predicate; none is found iff none does |
| `Seqs.FindTheOne` | lib/auth-middleware.ts:75-82 | when at most one element qualifies, `findFirst` returns that one |
| `Seqs.Filter` | components/forms/permission-modal.tsx:51 | exactly the elements satisfying the predicate |
| `Seqs.SortByKey` | components/forms/permission-modal.tsx:52 | a permutation of its input, ordered by the key |
| `Scenarios.SeededConsistent` | prisma/seed.ts:9-189 | the store the seed script builds (two roles, four menus, five grants, two users) satisfies the unique constraints and foreign keys |
| `Scenarios.SeededLookups` | prisma/seed.ts:9-189 | in that store each seeded user is found with their role, `/dashboard` and `/roles` are found by path, `'user'` holds the read-only `/dashboard` grant and no `/roles` grant |
| `Scenarios.DashboardReadable` | prisma/seed.ts:146-163 | in the seeded store `user@example.com` is allowed to read `/dashboard` |
| `Scenarios.DashboardNotWritable` | lib/auth-middleware.ts:84-87 | the same member writing `/dashboard` is 403 `'Insufficient permissions. Required: canWrite on /dashboard'` |
| `Scenarios.RolesForbiddenForUser` | lib/auth-middleware.ts:84-88 | the seeded `/roles` menu, for which `'user'` has no grant, is 403 `'Insufficient permissions. Required: canRead on /roles'` for them |
| `Scenarios.UnknownPathForUser` | lib/auth-middleware.ts:69-71 | `/reports`, a path the seed creates no menu for, is 404 `'Menu not found'` for them |
| `Scenarios.SeededAdminRefusedByAdminGuard` | lib/auth-middleware.ts:30-32 | the seeded `admin@example.com`, whose role is named `'admin'`, is refused 403 `'Admin access required'` by `withAdminAuth` |
| `Scenarios.AsWrittenHookHidesGrantedRead` | hooks/use-permissions.ts:29 | the server lets them read `/dashboard`, but the hook reports `canRead` false, because the grant list is admin-only |

## Left out

- Token signing, secrets and the 15-minute and 7-day expiry of lib/jwt.ts: verification and issuing are oracle parameters, so a token round trip and the expiry boundary are not stated.
- bcrypt's salt and cost: `hash` and `compare` are uninterpreted functions.
- The client in lib/api.ts (axios, the refresh queue, localStorage, the redirect) and `formatApiResponse`: network and browser I/O. The hook's fetch is modelled only through `UsePermissions.FetchOf`.
- react-query caching, `enabled`, `isLoading` and `staleTime`: scheduling by the framework, not decisions.
- Rendering by pages, forms, layout, modal and sidebar, and the data-fetching hooks: UI code with no decision logic.
- The roles, logout and `[id]` routes, store/app-store.ts and the zustand `persist` middleware are not part of this model.
- prisma/seed.ts is used only for the concrete store in `Scenarios`; the script itself is not modelled.
- The `children` and `parent` includes of the full menu listing: the listing is modelled as the menu rows.
- `Object.values` order in `handleSave`: the submitted permissions are a map keyed by menu id.
- Prisma's tie order for equal `orderIndex` or `createdAt`: it is unspecified, so ties keep table order (a stable sort).
- Request-body values outside the modelled types: a `null` or non-boolean flag in the POST `/api/role-menus` body (a flag is a boolean or omitted), a fractional, `NaN` or string `orderIndex` in the POST `/api/menus` and `/api/master-menus` bodies (it is an integer or omitted), and non-string `name`, `path`, `icon`, `parentId`, `roleId` or `menuId` values; likewise non-string or omitted `email`, `username` and `password` in the POST `/api/users` and `/api/auth/register` bodies, which are strings here (an omitted `password` makes `bcrypt.hash` throw, and the route answers 500).
- `keyof RoleMenuPermission` keys other than the four flags.
- `updatedAt` columns and Prisma's `@default` timestamps beyond `createdAt`, which is `now`.
- Console logging.
- Handler exceptions inside the guards: the handler promise is returned without `await`, so the guards never turn a rejection into 401 or 500. The handler is opaque.
- `PermissionModal.BuildMenuTree`: recursion is bounded by a `fuel` argument (the number of menus), so the model does not capture a stack overflow on a parent cycle.
- `UsersRoute.SafeUsers` states membership only; completeness and order are in `UsersRoute.SafeUsersComplete`.
- `MenusRoute.MenusOf` states soundness only; completeness is in `MenusRoute.MenusOfComplete` and `MenusRoute.ReadableIffGranted`.
- `RoleMenusRoute.Joined` states soundness only; completeness is in `RoleMenusRoute.JoinedComplete`.
- `AuthMiddleware.RemoveFirst` states only that the header does not grow; the header's exact token is in `AuthMiddleware.BearerTokenOfPrefixedHeader`.
- `UsePermissions.OwnGrantsReply` states only its guard. It is the listing the hook evidently needs, not a route of the app, and what it yields is in `UsePermissions.IntendedHookAgreesWithServer`.

## Findings

| source | as written | input that shows it | evidently intended | confidence | as-written member | corrected member |
|---|---|---|---|---|---|---|
| app/api/role-menus/route.ts:41 | `canRead: canRead \|\| true` always stores `canRead` true on create | POST `{roleId: "r", menuId: "m", canRead: false}` for a new pair, then the same request again: the first stores `canRead` true, the second false | `canRead ?? true`, so a repeated upsert settles | not executed | `RoleMenusRoute.AsWrittenUpsertNotIdempotent` | `RoleMenusRoute.IntendedUpsertIdempotent` |
| app/api/menus/route.ts:40 | the full listing requires a role named `'admin'` | a `'Super admin'` caller without `forUser` gets 403, though `withAdminAuth` lets them create menus | `'Super admin'`, as in the POST guard and in app/api/master-menus/route.ts:41 | not executed | `MenusRoute.AsWrittenAdminsCannotList` | `MenusRoute.IntendedListingMatchesAdminAuth` |
| hooks/use-permissions.ts:29 | the hook fetches `/role-menus`, which `withAdminAuth` guards | the seeded `user@example.com`, whose `'user'` role has read on `/dashboard`: the server allows the read, the hook reports `canRead` false | a grant listing open to the caller's own role, so the buttons match the server | not executed | `Scenarios.AsWrittenHookHidesGrantedRead` | `UsePermissions.IntendedHookAgreesWithServer` |
