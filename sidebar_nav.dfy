/**
 * The sidebar: which navigation entries a user sees, which one is marked
 * active for the current path, and the per-label open/closed flags of the
 * submenus.
 */
module SidebarNav {
  import opened Types
  import opened Text
  import opened Constants

  // ---------------------------------------------------------------------
  // Access

  /** `userRoles.some(r => allowed.includes(r))` */
  predicate SharesRole(userRoles: seq<string>, allowed: seq<string>)
  {
    exists i :: 0 <= i < |userRoles| && userRoles[i] in allowed
  }

  /**
   * `canUserAccess`: an entry without a role list, or with an empty one, is
   * open to everybody; otherwise a user must hold one of the listed roles.
   */
  predicate CanAccess(user: Option<User>, allowed: Option<seq<string>>)
  {
    if allowed.None? || |allowed.value| == 0 then true
    else if user.None? then false
    else SharesRole(user.value.roles, allowed.value)
  }

  /** Access exactly when the list is absent or empty, or a signed-in user holds a listed role. */
  lemma CanAccessCases(user: Option<User>, allowed: Option<seq<string>>)
    ensures CanAccess(user, allowed) <==>
      || allowed.None? || allowed.value == []
      || (user.Some? && exists r :: r in user.value.roles && r in allowed.value)
  {
    if user.Some? && allowed.Some? && (exists r :: r in user.value.roles && r in allowed.value) {
      var r :| r in user.value.roles && r in allowed.value;
      var i :| 0 <= i < |user.value.roles| && user.value.roles[i] == r;
    }
  }

  /** `subItem.allowedRoles || item.allowedRoles`: any own list, even an empty one, replaces the parent's. */
  function InheritedRoles(own: Option<seq<string>>, parent: Option<seq<string>>): (r: Option<seq<string>>)
    ensures own.Some? ==> r == own
    ensures own.None? ==> r == parent
  {
    if own.Some? then own else parent
  }

  /** A sub-entry with an empty role list of its own is open even below a parent the user cannot reach. */
  lemma EmptyOwnRolesOpen(user: Option<User>, sub: NavItem, parent: Option<seq<string>>)
    requires sub.allowedRoles == Some([])
    ensures CanAccess(user, InheritedRoles(sub.allowedRoles, parent))
  {
  }

  /** The sub-entries the user may open, in their order. */
  function VisibleSubmenu(user: Option<User>, subs: seq<NavItem>, parent: Option<seq<string>>): (r: seq<NavItem>)
    ensures |r| <= |subs|
    ensures forall s :: s in r <==> s in subs && CanAccess(user, InheritedRoles(s.allowedRoles, parent))
  {
    if |subs| == 0 then []
    else
      var rest := VisibleSubmenu(user, subs[1..], parent);
      if CanAccess(user, InheritedRoles(subs[0].allowedRoles, parent)) then [subs[0]] + rest else rest
  }

  /** Visibility of the sub-entries is decided one by one, so filtering a concatenation concatenates the results. */
  lemma {:induction false} VisibleSubmenuAppend(user: Option<User>, a: seq<NavItem>, b: seq<NavItem>, parent: Option<seq<string>>)
    ensures VisibleSubmenu(user, a + b, parent) == VisibleSubmenu(user, a, parent) + VisibleSubmenu(user, b, parent)
  {
    if |a| > 0 {
      assert (a + b)[0] == a[0] && (a + b)[1..] == a[1..] + b;
      VisibleSubmenuAppend(user, a[1..], b, parent);
    } else {
      assert a + b == b;
    }
  }

  /**
   * One top-level entry: dropped when the user cannot reach it, or when it
   * is a bare "#" container left with no visible children; otherwise kept
   * with its submenu filtered.
   */
  function ProcessItem(user: Option<User>, item: NavItem): Option<NavItem>
  {
    if !CanAccess(user, item.allowedRoles) then None
    else if item.submenu.Some? then
      var visible := VisibleSubmenu(user, item.submenu.value, item.allowedRoles);
      if item.href == "#" && |visible| == 0 then None else Some(item.(submenu := Some(visible)))
    else Some(item)
  }

  /** An entry is kept exactly when it is reachable and is not an emptied container; only its submenu can change. */
  lemma ProcessItemCases(user: Option<User>, item: NavItem)
    ensures ProcessItem(user, item).None? <==>
      || !CanAccess(user, item.allowedRoles)
      || (item.submenu.Some? && item.href == "#" && VisibleSubmenu(user, item.submenu.value, item.allowedRoles) == [])
    ensures ProcessItem(user, item).Some? ==>
      var p := ProcessItem(user, item).value;
      && p.(submenu := item.submenu) == item
      && (item.submenu.None? <==> p.submenu.None?)
      && (item.submenu.Some? ==> p.submenu.value == VisibleSubmenu(user, item.submenu.value, item.allowedRoles))
  {
  }

  /** A parent with a real link stays even when none of its children is visible. */
  lemma RealLinkParentKept(user: Option<User>, item: NavItem)
    requires CanAccess(user, item.allowedRoles) && item.href != "#" && item.submenu.Some?
    ensures ProcessItem(user, item) == Some(item.(submenu := Some(VisibleSubmenu(user, item.submenu.value, item.allowedRoles))))
  {
  }

  function Emit(o: Option<NavItem>): seq<NavItem>
  {
    match o
    case Some(x) => [x]
    case None => []
  }

  function ProcessAll(user: Option<User>, items: seq<NavItem>): seq<NavItem>
  {
    if |items| == 0 then [] else Emit(ProcessItem(user, items[0])) + ProcessAll(user, items[1..])
  }

  /** `processedNavItems`: nothing without a user, otherwise every kept entry, in order. */
  function ProcessedNavItems(user: Option<User>, items: seq<NavItem>): (r: seq<NavItem>)
    ensures user.None? ==> r == []
    ensures |r| <= |items|
  {
    if user.None? then [] else ProcessAllShape(user, items); ProcessAll(user, items)
  }

  /** The kept entries are exactly the processed forms of the reachable ones. */
  lemma {:induction false} ProcessAllShape(user: Option<User>, items: seq<NavItem>)
    ensures |ProcessAll(user, items)| <= |items|
    ensures forall x :: x in ProcessAll(user, items) <==> exists i :: 0 <= i < |items| && ProcessItem(user, items[i]) == Some(x)
  {
    if |items| > 0 {
      ProcessAllShape(user, items[1..]);
      var head := Emit(ProcessItem(user, items[0]));
      forall x | x in ProcessAll(user, items)
        ensures exists i :: 0 <= i < |items| && ProcessItem(user, items[i]) == Some(x)
      {
        if x in head {
          assert ProcessItem(user, items[0]) == Some(x);
        } else {
          var i :| 0 <= i < |items[1..]| && ProcessItem(user, items[1..][i]) == Some(x);
          assert items[1..][i] == items[i + 1];
        }
      }
      forall x | exists i :: 0 <= i < |items| && ProcessItem(user, items[i]) == Some(x)
        ensures x in ProcessAll(user, items)
      {
        var i :| 0 <= i < |items| && ProcessItem(user, items[i]) == Some(x);
        if i > 0 {
          assert items[1..][i - 1] == items[i];
        }
      }
    }
  }

  /** Entries are decided one by one, so the order of what survives is the order of the input. */
  lemma {:induction false} ProcessAllAppend(user: Option<User>, a: seq<NavItem>, b: seq<NavItem>)
    ensures ProcessAll(user, a + b) == ProcessAll(user, a) + ProcessAll(user, b)
  {
    if |a| > 0 {
      assert (a + b)[0] == a[0] && (a + b)[1..] == a[1..] + b;
      ProcessAllAppend(user, a[1..], b);
    } else {
      assert a + b == b;
    }
  }

  // ---------------------------------------------------------------------
  // The application's own menu

  /** An employee sees the dashboard, requests and tasks; the restricted entries and the admin container disappear. */
  lemma EmployeeMenu(u: User)
    requires u.roles == [RoleEmployee]
    ensures ProcessedNavItems(Some(u), NavItems) == [NavItems[0], NavItems[2], NavItems[3]]
  {
    var user := Some(u);
    assert !CanAccess(user, NavItems[1].allowedRoles);
    assert !CanAccess(user, NavItems[4].allowedRoles);
    assert !CanAccess(user, NavItems[5].allowedRoles);
    assert NavItems == [NavItems[0]] + [NavItems[1]] + [NavItems[2]] + [NavItems[3]] + [NavItems[4]] + [NavItems[5]];
    ProcessAllAppend(user, [NavItems[0]] + [NavItems[1]] + [NavItems[2]] + [NavItems[3]] + [NavItems[4]], [NavItems[5]]);
    ProcessAllAppend(user, [NavItems[0]] + [NavItems[1]] + [NavItems[2]] + [NavItems[3]], [NavItems[4]]);
    ProcessAllAppend(user, [NavItems[0]] + [NavItems[1]] + [NavItems[2]], [NavItems[3]]);
    ProcessAllAppend(user, [NavItems[0]] + [NavItems[1]], [NavItems[2]]);
    ProcessAllAppend(user, [NavItems[0]], [NavItems[1]]);
  }

  /** An administrator keeps the administration container with all six pages, which inherit its role list. */
  lemma AdminSeesAdministration(u: User)
    requires RoleAdmin in u.roles
    ensures ProcessItem(Some(u), NavItems[5]) == Some(NavItems[5])
  {
    var subs := NavItems[5].submenu.value;
    var i :| 0 <= i < |u.roles| && u.roles[i] == RoleAdmin;
    assert CanAccess(Some(u), NavItems[5].allowedRoles);
    assert forall s :: s in subs ==> CanAccess(Some(u), InheritedRoles(s.allowedRoles, NavItems[5].allowedRoles));
    FullSubmenu(Some(u), subs, NavItems[5].allowedRoles);
  }

  /** Filtering sub-entries that are all visible keeps them all. */
  lemma {:induction false} FullSubmenu(user: Option<User>, subs: seq<NavItem>, parent: Option<seq<string>>)
    requires forall s :: s in subs ==> CanAccess(user, InheritedRoles(s.allowedRoles, parent))
    ensures VisibleSubmenu(user, subs, parent) == subs
  {
    if |subs| > 0 {
      assert subs[0] in subs;
      FullSubmenu(user, subs[1..], parent);
    }
  }

  // ---------------------------------------------------------------------
  // Active entry and submenu flags

  /**
   * An entry is active on its own path and, except for "#", "/dashboard"
   * and "/", on every path below it.
   */
  predicate IsActive(href: string, pathname: string)
  {
    href != "#" && (pathname == href || (href != "/dashboard" && href != "/" && StartsWith(pathname, href)))
  }

  /** The dashboard and the root are active only on their exact path; "#" never is; any other href on every extension of it. */
  lemma ActiveCases(href: string, pathname: string)
    ensures href == "#" ==> !IsActive(href, pathname)
    ensures href == "/dashboard" || href == "/" ==> (IsActive(href, pathname) <==> pathname == href)
    ensures href != "#" && href != "/dashboard" && href != "/" ==> (IsActive(href, pathname) <==> StartsWith(pathname, href))
  {
    if pathname == href {
      assert pathname[..|href|] == href;
    }
  }

  /** `!prev[key]` reads a missing flag as closed. */
  function Flag(flags: map<string, bool>, key: string): bool
  {
    key in flags && flags[key]
  }

  /** The flags after flipping one label's. */
  function Toggled(flags: map<string, bool>, key: string): (r: map<string, bool>)
    ensures Flag(r, key) == !Flag(flags, key)
    ensures forall l :: l != key ==> Flag(r, l) == Flag(flags, l)
    ensures r.Keys == flags.Keys + {key}
  {
    flags[key := !Flag(flags, key)]
  }

  /** Flipping the same label twice leaves every flag as it was. */
  lemma ToggleTwice(flags: map<string, bool>, key: string)
    ensures forall l :: Flag(Toggled(Toggled(flags, key), key), l) == Flag(flags, l)
  {
  }

  /** A submenu is drawn open when its flag is set or when the current path is inside one of its entries. */
  predicate SubmenuOpen(flags: map<string, bool>, item: NavItem, pathname: string)
  {
    Flag(flags, item.labelText)
    || (item.submenu.Some? && exists k :: 0 <= k < |item.submenu.value| && StartsWith(pathname, item.submenu.value[k].href))
  }

  /** Being on one of its pages keeps a submenu open whatever its flag says. */
  lemma OpenOnOwnPage(flags: map<string, bool>, item: NavItem, pathname: string, k: nat)
    requires item.submenu.Some? && k < |item.submenu.value| && pathname == item.submenu.value[k].href
    ensures SubmenuOpen(flags, item, pathname)
    ensures SubmenuOpen(Toggled(flags, item.labelText), item, pathname)
  {
    assert pathname[..|pathname|] == pathname;
  }

  /** The sidebar's open/closed state. */
  class Sidebar {
    var openSubmenus: map<string, bool>

    constructor ()
      ensures openSubmenus == map[]
    {
      openSubmenus := map[];
    }

    /** `toggleSubmenu`: flips that label's flag and no other. */
    method ToggleSubmenu(key: string)
      modifies this
      ensures openSubmenus == Toggled(old(openSubmenus), key)
      ensures Flag(openSubmenus, key) == !Flag(old(openSubmenus), key)
      ensures forall l :: l != key ==> Flag(openSubmenus, l) == Flag(old(openSubmenus), l)
    {
      openSubmenus := openSubmenus[key := !Flag(openSubmenus, key)];
    }
  }
}
