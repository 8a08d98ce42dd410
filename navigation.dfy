/** The sidebar's route table, its role filter and the active-route test. */
module Navigation {
  import opened Wrappers
  import opened Text
  import opened Types

  datatype NavItem = NavItem(labelText: string, href: string, roles: seq<UserRole>)

  const ALL_ROLES: seq<UserRole> := [Administrator, TravelDesigner, SalesAgent, Viewer]

  const DASHBOARD := NavItem("Dashboard", "/dashboard", ALL_ROLES)
  const PACKAGES := NavItem("Packages", "/packages", [Administrator, TravelDesigner])
  const VOYAGES := NavItem("Voyages", "/voyages", ALL_ROLES)
  const SALES := NavItem("Sales", "/sales", [Administrator, SalesAgent])
  const OPS := NavItem("Ops", "/ops", ALL_ROLES)
  const USERS := NavItem("Users", "/users", [Administrator])

  const NAV_ITEMS: seq<NavItem> := [DASHBOARD, PACKAGES, VOYAGES, SALES, OPS, USERS]

  /** `isActive`: the exact route, or any pathname starting with a non-root href. */
  predicate IsActive(pathname: string, href: string): (r: bool)
    ensures href == "/" ==> (r <==> pathname == "/")
    ensures href != "/" ==> (r <==> |href| <= |pathname| && pathname[..|href|] == href)
  {
    pathname == href || (href != "/" && StartsWith(pathname, href))
  }

  /** A route is always active for itself. */
  lemma ActiveOnItself(p: string)
    ensures IsActive(p, p)
  {
  }

  /** The root href is active for the root pathname and for nothing else. */
  lemma RootOnlyForRoot(pathname: string)
    ensures IsActive(pathname, "/") <==> pathname == "/"
  {
  }

  /** A non-root href is active exactly for the pathnames it is a string prefix of. */
  lemma ActiveIffPrefix(pathname: string, href: string)
    requires href != "/"
    ensures IsActive(pathname, href) <==> |href| <= |pathname| && pathname[..|href|] == href
  {
  }

  /** Any extension of a non-root href is active, whether or not it starts a new path segment. */
  lemma ExtensionIsActive(href: string, rest: string)
    requires href != "/"
    ensures IsActive(href + rest, href)
  {
    assert (href + rest)[..|href|] == href;
  }

  /** The prefix test is not segment-aware. */
  lemma NotSegmentAware()
    ensures IsActive("/packagesX", "/packages")
  {
    ExtensionIsActive("/packages", "X");
    assert "/packages" + "X" == "/packagesX";
  }

  /** `navItems.filter((i) => i.roles.includes(role))` */
  function ListedFor(items: seq<NavItem>, role: UserRole): (r: seq<NavItem>)
    ensures |r| <= |items|
    decreases |items|
  {
    if items == [] then []
    else
      var rest := ListedFor(items[..|items| - 1], role);
      if role in items[|items| - 1].roles then rest + [items[|items| - 1]] else rest
  }

  /** The sidebar's items: none without a role. */
  function VisibleItems(role: Option<UserRole>): seq<NavItem> {
    if role.None? then [] else ListedFor(NAV_ITEMS, role.value)
  }

  /** The filter keeps exactly the items listing the role. */
  lemma {:induction false} ListedForMembership(items: seq<NavItem>, role: UserRole, item: NavItem)
    ensures item in ListedFor(items, role) <==> item in items && role in item.roles
    decreases |items|
  {
    if items != [] {
      var init := items[..|items| - 1];
      ListedForMembership(init, role, item);
      assert items == init + [items[|items| - 1]];
    }
  }

  /** The filter keeps the items in their table order. */
  lemma {:induction false} ListedForKeepsOrder(items: seq<NavItem>, role: UserRole, i: nat, j: nat)
    requires i < j < |ListedFor(items, role)|
    ensures exists a, b :: 0 <= a < b < |items| && items[a] == ListedFor(items, role)[i] && items[b] == ListedFor(items, role)[j]
    decreases |items|
  {
    var n := |items| - 1;
    var rest := ListedFor(items[..n], role);
    if j < |rest| {
      ListedForKeepsOrder(items[..n], role, i, j);
      var a, b :| 0 <= a < b < n && items[..n][a] == rest[i] && items[..n][b] == rest[j];
      assert items[a] == items[..n][a] && items[b] == items[..n][b];
    } else {
      assert ListedFor(items, role)[j] == items[n];
      ListedForMembership(items[..n], role, rest[i]);
      assert rest[i] in items[..n];
      var a :| 0 <= a < n && items[..n][a] == rest[i];
      assert items[a] == items[..n][a];
    }
  }

  /** No role, no items. */
  lemma NoRoleNoItems()
    ensures VisibleItems(None) == []
  {
  }

  /** The sidebar shows a table item exactly when its roles include the user's role. */
  lemma VisibleIffRoleListed(role: UserRole, item: NavItem)
    requires item in NAV_ITEMS
    ensures item in VisibleItems(Some(role)) <==> role in item.roles
  {
    ListedForMembership(NAV_ITEMS, role, item);
  }

  /** `Users` is shown to administrators only. */
  lemma UsersOnlyForAdministrator(role: UserRole)
    ensures USERS in VisibleItems(Some(role)) <==> role == Administrator
  {
    ListedForMembership(NAV_ITEMS, role, USERS);
  }

  /** `Packages` is shown to administrators and travel designers only. */
  lemma PackagesOnlyForDesigners(role: UserRole)
    ensures PACKAGES in VisibleItems(Some(role)) <==> role == Administrator || role == TravelDesigner
  {
    ListedForMembership(NAV_ITEMS, role, PACKAGES);
  }

  /** Every role sees the dashboard, the trips and ops. */
  lemma SharedItemsForEveryRole(role: UserRole)
    ensures DASHBOARD in VisibleItems(Some(role)) && VOYAGES in VisibleItems(Some(role)) && OPS in VisibleItems(Some(role))
  {
    ListedForMembership(NAV_ITEMS, role, DASHBOARD);
    ListedForMembership(NAV_ITEMS, role, VOYAGES);
    ListedForMembership(NAV_ITEMS, role, OPS);
  }
}
