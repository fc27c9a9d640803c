/** The sidebar's navigation: four fixed entries, one of them guarded by a
    capability, filtered for the signed-in user. */
module Sidebar {
  import opened Types
  import opened Lists
  import opened Permissions

  /** A navigation entry: its route, its translation key, and the
      capability it needs, if any. */
  datatype NavItem = NavItem(path: string, labelKey: string, permission: Option<Capability>)

  const DashboardItem := NavItem(DashboardRoute, "dashboard", None)
  const UsersItem := NavItem(UsersRoute, "users", Some(CanManageUsers))
  const NotificationsItem := NavItem(NotificationsRoute, "notifications", None)
  const SettingsItem := NavItem(SettingsRoute, "settings", None)

  /** `navigationItems`, in display order. */
  const NavigationItems := [DashboardItem, UsersItem, NotificationsItem, SettingsItem]

  /** An entry without a permission is shown to everyone; the others only
      to users holding their capability. */
  predicate IsVisible(user: Option<User>, item: NavItem)
  {
    item.permission.None? || HasPermission(user, item.permission.value)
  }

  /** The filter callback of `visibleItems`. */
  function VisibleTo(user: Option<User>): NavItem -> bool
  {
    item => IsVisible(user, item)
  }

  /** `visibleItems`: the entries `user` may see, in display order. */
  function VisibleItems(user: Option<User>): (items: seq<NavItem>)
    ensures IsSubsequence(items, NavigationItems)
    ensures forall i :: 0 <= i < |items| ==> IsVisible(user, items[i])
  {
    FilterIsSubsequence(NavigationItems, VisibleTo(user));
    Filter(NavigationItems, VisibleTo(user))
  }

  /** The visible entries, written out: all four for a user who may manage
      users, the other three otherwise. */
  lemma VisibleItemsByCapability(user: Option<User>)
    ensures HasPermission(user, CanManageUsers) ==> VisibleItems(user) == NavigationItems
    ensures !HasPermission(user, CanManageUsers) ==>
      VisibleItems(user) == [DashboardItem, NotificationsItem, SettingsItem]
  {
    var p := VisibleTo(user);
    assert p(DashboardItem) && p(NotificationsItem) && p(SettingsItem);
    assert p(UsersItem) == HasPermission(user, CanManageUsers);
    FilterOfFour(DashboardItem, UsersItem, NotificationsItem, SettingsItem, p);
  }

  /** Dashboard, notifications and settings are shown whoever is signed in,
      and even when nobody is. */
  lemma UnguardedItemsAlwaysVisible(user: Option<User>)
    ensures DashboardItem in VisibleItems(user)
    ensures NotificationsItem in VisibleItems(user)
    ensures SettingsItem in VisibleItems(user)
  {
    VisibleItemsByCapability(user);
  }

  /** The users entry is shown exactly to users who may manage users. */
  lemma UsersItemVisibleIff(user: Option<User>)
    ensures UsersItem in VisibleItems(user) <==> HasPermission(user, CanManageUsers)
  {
    VisibleItemsByCapability(user);
  }

  function PathOf(item: NavItem): string
  {
    item.path
  }

  /** The links' targets, in order. */
  function Paths(items: seq<NavItem>): seq<string>
  {
    Map(items, PathOf)
  }

  function Elements(s: seq<string>): set<string>
  {
    set x | x in s
  }

  /** With nobody signed in the sidebar still shows three entries, while
      the accessible routes hold the login page alone. */
  lemma NobodySeesThreeItemsButOnlyLogin()
    ensures |VisibleItems(None)| == 3
    ensures AccessibleRoutes(None) == [LoginRoute]
    ensures forall i :: 0 <= i < 3 ==> VisibleItems(None)[i].path != LoginRoute
  {
    VisibleItemsByCapability(None);
  }

  /** For a signed-in user the sidebar and the route list name the same
      routes; only the order differs, with the users route second in the
      sidebar and last among the routes. */
  lemma VisiblePathsAreAccessibleRoutes(u: User)
    ensures Elements(Paths(VisibleItems(Some(u)))) == Elements(AccessibleRoutes(Some(u)))
    ensures |VisibleItems(Some(u))| == |AccessibleRoutes(Some(u))|
    ensures HasPermission(Some(u), CanManageUsers) ==> |AccessibleRoutes(Some(u))| == 4
    ensures HasPermission(Some(u), CanManageUsers) ==>
      Paths(VisibleItems(Some(u)))[1] == UsersRoute && AccessibleRoutes(Some(u))[3] == UsersRoute
    ensures Paths(VisibleItems(Some(u))) != AccessibleRoutes(Some(u))
  {
    VisibleItemsByCapability(Some(u));
    var paths := Paths(VisibleItems(Some(u)));
    var routes := AccessibleRoutes(Some(u));
    if HasPermission(Some(u), CanManageUsers) {
      assert paths == [DashboardRoute, UsersRoute, NotificationsRoute, SettingsRoute];
      assert routes == [DashboardRoute, SettingsRoute, NotificationsRoute, UsersRoute];
      assert paths[1] != routes[1];
    } else {
      assert paths == [DashboardRoute, NotificationsRoute, SettingsRoute];
      assert routes == [DashboardRoute, SettingsRoute, NotificationsRoute];
      assert paths[1] != routes[1];
    }
  }
}
