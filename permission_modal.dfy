/**
 * The logic of the role permission editor: the menu tree it renders, with
 * each node's current grant, and the editor state (the expanded set and the
 * per-menu permission map) that its handlers update.
 */
module PermissionModal {
  import opened Wrappers
  import opened Seqs
  import opened Schema
  import opened MenusRoute

  /** A menu with its sub-menus and the role's flags on it. */
  datatype MenuNode = MenuNode(menu: Menu, children: seq<MenuNode>, permissions: Flags)

  /** The flags of the first grant on `menuId`, all false when there is none. */
  function GrantFlags(grants: seq<RoleMenu>, menuId: string): (f: Flags)
    ensures (forall g :: g in grants ==> g.menuId != menuId) ==> f == NoFlags
    ensures (exists g :: g in grants && g.menuId == menuId) ==>
      exists i :: 0 <= i < |grants| && grants[i].menuId == menuId && f == grants[i].flags &&
        forall j :: 0 <= j < i ==> grants[j].menuId != menuId
  {
    match FirstIndex(grants, (g: RoleMenu) => g.menuId == menuId)
    case None => NoFlags
    case Some(i) => grants[i].flags
  }

  /** `menus.filter(menu => menu.parentId === parentId)`. */
  function Children(menus: seq<Menu>, parentId: Option<string>): (r: seq<Menu>)
    ensures forall m :: m in r <==> m in menus && m.parentId == parentId
  {
    Filter(menus, (m: Menu) => m.parentId == parentId)
  }

  /** One level of the tree: the menus under `parentId`, by `orderIndex`. */
  function Level(menus: seq<Menu>, parentId: Option<string>): (r: seq<Menu>)
    ensures multiset(r) == multiset(Children(menus, parentId))
    ensures forall m :: m in r <==> m in menus && m.parentId == parentId
    ensures forall i, j :: 0 <= i < j < |r| ==> r[i].orderIndex <= r[j].orderIndex
  {
    var c := Children(menus, parentId);
    var r := SortedMenus(c);
    SameElements(r, c);
    r
  }

  lemma SameElements<T>(a: seq<T>, b: seq<T>)
    requires multiset(a) == multiset(b)
    ensures forall x :: x in a <==> x in b
  {
    forall x
      ensures x in a <==> x in b
    {
      assert x in a <==> x in multiset(a);
      assert x in b <==> x in multiset(b);
    }
  }

  /**
   * `buildMenuTree(menus, parentId)`. The recursion is bounded by `fuel`;
   * a node reached with no fuel left gets no children.
   */
  function BuildMenuTree(menus: seq<Menu>, grants: seq<RoleMenu>, parentId: Option<string>, fuel: nat): (r: seq<MenuNode>)
    ensures |r| == |Level(menus, parentId)|
    ensures forall i :: 0 <= i < |r| ==> r[i].menu == Level(menus, parentId)[i]
    ensures forall i :: 0 <= i < |r| ==> r[i].permissions == GrantFlags(grants, r[i].menu.id)
    decreases fuel, 3
  {
    Nodes(menus, grants, Level(menus, parentId), fuel)
  }

  /** The `map` step: one node per menu of the level, in order. */
  function Nodes(menus: seq<Menu>, grants: seq<RoleMenu>, level: seq<Menu>, fuel: nat): (r: seq<MenuNode>)
    ensures |r| == |level|
    ensures forall i :: 0 <= i < |r| ==> r[i].menu == level[i] && r[i].permissions == GrantFlags(grants, level[i].id)
    decreases fuel, 2, |level|
  {
    if |level| == 0 then []
    else [MakeNode(menus, grants, level[0], fuel)] + Nodes(menus, grants, level[1..], fuel)
  }

  /** `{ ...menu, children: buildMenuTree(menus, menu.id), permissions }`. */
  function MakeNode(menus: seq<Menu>, grants: seq<RoleMenu>, menu: Menu, fuel: nat): (n: MenuNode)
    ensures n.menu == menu && n.permissions == GrantFlags(grants, menu.id)
    decreases fuel, 1
  {
    MenuNode(menu, Subtree(menus, grants, menu, fuel), GrantFlags(grants, menu.id))
  }

  /** A node's children: the level under it, one fuel step down, or none when the fuel is spent. */
  function Subtree(menus: seq<Menu>, grants: seq<RoleMenu>, menu: Menu, fuel: nat): seq<MenuNode>
    decreases fuel, 0
  {
    if fuel == 0 then [] else BuildMenuTree(menus, grants, Some(menu.id), fuel - 1)
  }

  /** The rendered tree: the roots are the menus without a parent. */
  function MenuTree(menus: seq<Menu>, grants: seq<RoleMenu>): seq<MenuNode> {
    BuildMenuTree(menus, grants, None, |menus|)
  }

  /** Every node of `nodes`, at every depth, sits under `parentId`, after its left sibling in order, and shows its grant. */
  ghost predicate WellBuilt(nodes: seq<MenuNode>, menus: seq<Menu>, grants: seq<RoleMenu>, parentId: Option<string>)
    decreases nodes
  {
    |nodes| == 0 ||
    (&& nodes[0].menu in menus && nodes[0].menu.parentId == parentId
     && nodes[0].permissions == GrantFlags(grants, nodes[0].menu.id)
     && (|nodes| > 1 ==> nodes[0].menu.orderIndex <= nodes[1].menu.orderIndex)
     && WellBuilt(nodes[0].children, menus, grants, Some(nodes[0].menu.id))
     && WellBuilt(nodes[1..], menus, grants, parentId))
  }

  /** The whole tree is well built. */
  lemma {:induction false} TreeWellBuilt(menus: seq<Menu>, grants: seq<RoleMenu>, parentId: Option<string>, fuel: nat)
    ensures WellBuilt(BuildMenuTree(menus, grants, parentId, fuel), menus, grants, parentId)
    decreases fuel, 3
  {
    var level := Level(menus, parentId);
    NodesWellBuilt(menus, grants, level, parentId, fuel);
  }

  lemma {:induction false} NodesWellBuilt(menus: seq<Menu>, grants: seq<RoleMenu>, level: seq<Menu>,
                                          parentId: Option<string>, fuel: nat)
    requires forall i, j :: 0 <= i < j < |level| ==> level[i].orderIndex <= level[j].orderIndex
    requires forall m :: m in level ==> m in menus && m.parentId == parentId
    ensures WellBuilt(Nodes(menus, grants, level, fuel), menus, grants, parentId)
    decreases fuel, 2, |level|
  {
    if |level| > 0 {
      LevelTail(level, menus, parentId);
      NodesWellBuilt(menus, grants, level[1..], parentId, fuel);
      var n := MakeNode(menus, grants, level[0], fuel);
      var rest := Nodes(menus, grants, level[1..], fuel);
      assert Nodes(menus, grants, level, fuel) == [n] + rest;
      assert n.children == Subtree(menus, grants, level[0], fuel);
      SubtreeWellBuilt(menus, grants, level[0], fuel);
      assert level[0] in level;
      assert |rest| > 0 ==> rest[0].menu == level[1];
      WellBuiltCons(n, rest, menus, grants, parentId);
    }
  }

  lemma LevelTail(level: seq<Menu>, menus: seq<Menu>, parentId: Option<string>)
    requires |level| > 0
    requires forall i, j :: 0 <= i < j < |level| ==> level[i].orderIndex <= level[j].orderIndex
    requires forall m :: m in level ==> m in menus && m.parentId == parentId
    ensures forall i, j :: 0 <= i < j < |level[1..]| ==> level[1..][i].orderIndex <= level[1..][j].orderIndex
    ensures forall m :: m in level[1..] ==> m in menus && m.parentId == parentId
  {
    var tail := level[1..];
    forall i, j | 0 <= i < j < |tail| ensures tail[i].orderIndex <= tail[j].orderIndex {
      assert tail[i] == level[i + 1] && tail[j] == level[j + 1];
    }
    forall m | m in tail ensures m in level {
      var k :| 0 <= k < |tail| && tail[k] == m;
      assert level[k + 1] == m;
    }
  }

  lemma WellBuiltCons(n: MenuNode, rest: seq<MenuNode>, menus: seq<Menu>, grants: seq<RoleMenu>, parentId: Option<string>)
    requires n.menu in menus && n.menu.parentId == parentId && n.permissions == GrantFlags(grants, n.menu.id)
    requires |rest| > 0 ==> n.menu.orderIndex <= rest[0].menu.orderIndex
    requires WellBuilt(n.children, menus, grants, Some(n.menu.id)) && WellBuilt(rest, menus, grants, parentId)
    ensures WellBuilt([n] + rest, menus, grants, parentId)
  {
    assert ([n] + rest)[0] == n && ([n] + rest)[1..] == rest;
  }

  lemma {:induction false} SubtreeWellBuilt(menus: seq<Menu>, grants: seq<RoleMenu>, menu: Menu, fuel: nat)
    ensures WellBuilt(Subtree(menus, grants, menu, fuel), menus, grants, Some(menu.id))
    decreases fuel, 0
  {
    if fuel > 0 {
      ChildTreeWellBuilt(menus, grants, menu, fuel - 1);
    }
  }

  lemma {:induction false} ChildTreeWellBuilt(menus: seq<Menu>, grants: seq<RoleMenu>, menu: Menu, f: nat)
    ensures WellBuilt(Subtree(menus, grants, menu, f + 1), menus, grants, Some(menu.id))
    decreases f, 4
  {
    TreeWellBuilt(menus, grants, Some(menu.id), f);
  }

  /** The menus of a level of nodes, in order. */
  function NodeMenus(nodes: seq<MenuNode>): (r: seq<Menu>)
    ensures |r| == |nodes| && forall i :: 0 <= i < |r| ==> r[i] == nodes[i].menu
  {
    seq(|nodes|, i requires 0 <= i < |nodes| => nodes[i].menu)
  }

  /** A level holds exactly the menus whose parent is the level's parent, by `orderIndex`; the roots are the parentless menus. */
  lemma {:induction false} LevelHoldsChildren(menus: seq<Menu>, grants: seq<RoleMenu>, parentId: Option<string>, fuel: nat)
    ensures var r := NodeMenus(BuildMenuTree(menus, grants, parentId, fuel));
      && (forall m :: m in r <==> m in menus && m.parentId == parentId)
      && forall i, j :: 0 <= i < j < |r| ==> r[i].orderIndex <= r[j].orderIndex
  {
    var r := NodeMenus(BuildMenuTree(menus, grants, parentId, fuel));
    var level := Level(menus, parentId);
    assert r == level;
  }

  /** The `i`-th node of a level is built from the `i`-th menu of the level. */
  lemma {:induction false} NodesAt(menus: seq<Menu>, grants: seq<RoleMenu>, level: seq<Menu>, fuel: nat, i: nat)
    requires i < |level|
    ensures Nodes(menus, grants, level, fuel)[i] == MakeNode(menus, grants, level[i], fuel)
  {
    if i > 0 {
      NodesAt(menus, grants, level[1..], fuel, i - 1);
    }
  }

  /** Each node's children are `buildMenuTree(menus, node.id)`, one fuel step down. */
  lemma NodeChildren(menus: seq<Menu>, grants: seq<RoleMenu>, parentId: Option<string>, fuel: nat, i: nat)
    requires fuel > 0 && i < |BuildMenuTree(menus, grants, parentId, fuel)|
    ensures var n := BuildMenuTree(menus, grants, parentId, fuel)[i];
      n.children == BuildMenuTree(menus, grants, Some(n.menu.id), fuel - 1)
  {
    NodesAt(menus, grants, Level(menus, parentId), fuel, i);
  }

  // ---- Editor state ----------------------------------------------------------

  /** The role the modal edits. */
  datatype RoleRef = RoleRef(id: string, name: string)

  /** An entry of the permission map: a stored grant, or a new one without an id. */
  datatype Entry = Entry(id: Option<string>, roleId: string, menuId: string, flags: Flags)

  function EntryOf(g: RoleMenu): Entry {
    Entry(Some(g.id), g.roleId, g.menuId, g.flags)
  }

  /** The map the init effect builds: each grant under its `menuId`, a later grant overwriting an earlier one. */
  function ByMenuId(grants: seq<RoleMenu>): (m: map<string, Entry>)
    ensures forall k :: k in m <==> exists i :: 0 <= i < |grants| && grants[i].menuId == k
  {
    if |grants| == 0 then map[]
    else
      var last := grants[|grants| - 1];
      var m := ByMenuId(grants[..|grants| - 1]);
      assert forall i :: 0 <= i < |grants| - 1 ==> grants[..|grants| - 1][i] == grants[i];
      m[last.menuId := EntryOf(last)]
  }

  /** The last grant on a menu is the one kept. */
  lemma {:induction false} ByMenuIdLastWins(grants: seq<RoleMenu>, i: nat)
    requires i < |grants|
    requires forall j :: i < j < |grants| ==> grants[j].menuId != grants[i].menuId
    ensures grants[i].menuId in ByMenuId(grants) && ByMenuId(grants)[grants[i].menuId] == EntryOf(grants[i])
  {
    var n := |grants| - 1;
    var prefix := grants[..n];
    assert ByMenuId(grants) == ByMenuId(prefix)[grants[n].menuId := EntryOf(grants[n])];
    if i < n {
      assert prefix[i] == grants[i];
      forall j | i < j < n ensures prefix[j].menuId != prefix[i].menuId {
        assert prefix[j] == grants[j];
      }
      ByMenuIdLastWins(prefix, i);
      assert grants[n].menuId != grants[i].menuId;
    }
  }

  /** `menuPermissions[menuId] || { all false }`: the flags a menu renders with. */
  function CurrentPermissions(m: map<string, Entry>, menuId: string): (f: Flags)
    ensures menuId !in m ==> f == NoFlags
    ensures menuId in m ==> f == m[menuId].flags
  {
    if menuId in m then m[menuId].flags else NoFlags
  }

  /** The set with `x`'s membership flipped. */
  function Toggled(s: set<string>, x: string): (r: set<string>)
    ensures x in r <==> x !in s
    ensures forall y :: y != x ==> (y in r <==> y in s)
  {
    if x in s then s - {x} else s + {x}
  }

  lemma ToggleTwice(s: set<string>, x: string)
    ensures Toggled(Toggled(s, x), x) == s
  {
  }

  /** The entry `updatePermission` writes: role and menu set, one flag changed, the others kept (false if absent). */
  function EditedEntry(m: map<string, Entry>, roleId: string, menuId: string, p: Permission, value: bool): (e: Entry)
    ensures e.roleId == roleId && e.menuId == menuId
    ensures e.id == (if menuId in m then m[menuId].id else None)
    ensures Flag(e.flags, p) == value
    ensures forall q :: q != p ==> Flag(e.flags, q) == Flag(CurrentPermissions(m, menuId), q)
  {
    Entry(if menuId in m then m[menuId].id else None, roleId, menuId, SetFlag(CurrentPermissions(m, menuId), p, value))
  }

  /** Some flag is set. */
  predicate AnyFlag(f: Flags) {
    f.canRead || f.canWrite || f.canUpdate || f.canDelete
  }

  /** What `handleSave` submits for the role: the entries with at least one flag set. */
  datatype SaveRequest = SaveRequest(roleId: string, permissions: map<string, Entry>)

  function HandleSave(role: Option<RoleRef>, m: map<string, Entry>): (r: Option<SaveRequest>)
    ensures role.None? <==> r.None?
    ensures r.Some? ==> r.value.roleId == role.value.id
    ensures r.Some? ==> forall k :: k in r.value.permissions <==> k in m && AnyFlag(m[k].flags)
    ensures r.Some? ==> forall k :: k in r.value.permissions ==> r.value.permissions[k] == m[k]
  {
    if role.None? then None
    else Some(SaveRequest(role.value.id, map k | k in m && AnyFlag(m[k].flags) :: m[k]))
  }

  /** A menu left all false is not submitted; one flag ticked submits it. */
  lemma SaveAfterEdit(role: RoleRef, m: map<string, Entry>, menuId: string, p: Permission, value: bool)
    ensures var m' := m[menuId := EditedEntry(m, role.id, menuId, p, value)];
      value ==> menuId in HandleSave(Some(role), m').value.permissions
    ensures var m' := m[menuId := EditedEntry(m, role.id, menuId, p, value)];
      !value && !AnyFlag(SetFlag(CurrentPermissions(m, menuId), p, false)) ==>
        menuId !in HandleSave(Some(role), m').value.permissions
  {
    var e := EditedEntry(m, role.id, menuId, p, value);
    if value {
      match p
      case CanRead => assert e.flags.canRead;
      case CanWrite => assert e.flags.canWrite;
      case CanUpdate => assert e.flags.canUpdate;
      case CanDelete => assert e.flags.canDelete;
    }
  }

  /** The modal's state: which menus are expanded and the edited permission map. */
  class PermissionEditor {
    var expandedMenus: set<string>
    var menuPermissions: map<string, Entry>

    constructor ()
      ensures expandedMenus == {} && menuPermissions == map[]
    {
      expandedMenus, menuPermissions := {}, map[];
    }

    /** The init effect on a fresh grant list: does nothing for an empty list. */
    method InitPermissions(roleMenus: seq<RoleMenu>)
      modifies this
      ensures expandedMenus == old(expandedMenus)
      ensures |roleMenus| == 0 ==> menuPermissions == old(menuPermissions)
      ensures |roleMenus| > 0 ==> menuPermissions == ByMenuId(roleMenus)
    {
      if |roleMenus| > 0 {
        var m := map[];
        var i := 0;
        while i < |roleMenus|
          invariant 0 <= i <= |roleMenus|
          invariant m == ByMenuId(roleMenus[..i])
        {
          assert roleMenus[..i + 1][..i] == roleMenus[..i];
          m := m[roleMenus[i].menuId := EntryOf(roleMenus[i])];
          i := i + 1;
        }
        assert roleMenus[..|roleMenus|] == roleMenus;
        menuPermissions := m;
      }
    }

    method ToggleExpanded(menuId: string)
      modifies this
      ensures expandedMenus == Toggled(old(expandedMenus), menuId)
      ensures menuPermissions == old(menuPermissions)
    {
      var next := expandedMenus;
      if menuId in next {
        next := next - {menuId};
      } else {
        next := next + {menuId};
      }
      expandedMenus := next;
    }

    /** Without a role nothing changes; otherwise only the entry of `menuId` is rewritten. */
    method UpdatePermission(role: Option<RoleRef>, menuId: string, p: Permission, value: bool)
      modifies this
      ensures expandedMenus == old(expandedMenus)
      ensures role.None? ==> menuPermissions == old(menuPermissions)
      ensures role.Some? ==>
        menuPermissions == old(menuPermissions)[menuId := EditedEntry(old(menuPermissions), role.value.id, menuId, p, value)]
    {
      if role.None? {
        return;
      }
      var prev := menuPermissions;
      var base := if menuId in prev then prev[menuId].flags else NoFlags;
      var flags := Flags(if p == CanRead then value else base.canRead,
                         if p == CanWrite then value else base.canWrite,
                         if p == CanUpdate then value else base.canUpdate,
                         if p == CanDelete then value else base.canDelete);
      var id := if menuId in prev then prev[menuId].id else None;
      menuPermissions := prev[menuId := Entry(id, role.value.id, menuId, flags)];
    }
  }
}
