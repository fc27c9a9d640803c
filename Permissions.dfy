/** Authorization rules: a fixed role-to-capability table, the capability
    lookup, the user-management guard and the list of reachable routes. */
module Permissions {
  import opened Types

  datatype Capability =
    | CanManageUsers
    | CanDeleteUsers
    | CanChangeRoles
    | CanViewAllData
    | CanManageSettings
    | CanDeleteNotifications

  /** One row of the table: a value for each of the six capabilities. */
  datatype Capabilities = Capabilities(
    canManageUsers: bool,
    canDeleteUsers: bool,
    canChangeRoles: bool,
    canViewAllData: bool,
    canManageSettings: bool,
    canDeleteNotifications: bool)
  {
    function Get(p: Capability): bool
    {
      match p
      case CanManageUsers => canManageUsers
      case CanDeleteUsers => canDeleteUsers
      case CanChangeRoles => canChangeRoles
      case CanViewAllData => canViewAllData
      case CanManageSettings => canManageSettings
      case CanDeleteNotifications => canDeleteNotifications
    }
  }

  const SuperAdminCapabilities := Capabilities(true, true, true, true, true, true)
  const AdminCapabilities := Capabilities(true, false, true, true, true, true)
  const EmployeeCapabilities := Capabilities(false, false, false, false, false, false)

  /** The table row for a role; a role outside the table has none. */
  function TableRow(r: Role): (row: Option<Capabilities>)
    ensures row.None? <==> r.Unknown?
  {
    match r
    case SuperAdmin => Some(SuperAdminCapabilities)
    case Admin => Some(AdminCapabilities)
    case Employee => Some(EmployeeCapabilities)
    case Unknown(_) => None
  }

  /** Whether `user` holds capability `p`: deny when nobody is signed in or
      the role is outside the table. */
  function HasPermission(user: Option<User>, p: Capability): (b: bool)
    ensures b ==> user.Some? && (user.value.role == SuperAdmin || user.value.role == Admin)
    ensures user.Some? && user.value.role == SuperAdmin ==> b
  {
    if user.None? then false
    else
      match user.value.role
      case SuperAdmin => SuperAdminCapabilities.Get(p)
      case Admin => AdminCapabilities.Get(p)
      case Employee => EmployeeCapabilities.Get(p)
      case Unknown(_) => false
  }

  /** With nobody signed in, every capability is denied. */
  lemma NoUserHasNoPermission(p: Capability)
    ensures !HasPermission(None, p)
  {
  }

  /** A signed-in user gets exactly their role's table entry, and nothing
      when the role has no row. */
  lemma HasPermissionIsTableLookup(u: User, p: Capability)
    ensures TableRow(u.role).Some? ==> HasPermission(Some(u), p) == TableRow(u.role).value.Get(p)
    ensures TableRow(u.role).None? ==> !HasPermission(Some(u), p)
  {
  }

  /** The employee row denies everything. */
  lemma EmployeeHasNoCapability(p: Capability)
    ensures !EmployeeCapabilities.Get(p)
  {
  }

  /** The admin row is the superadmin row with user deletion withdrawn. */
  lemma AdminIsSuperAdminWithoutDelete(p: Capability)
    ensures AdminCapabilities.Get(p) == SuperAdminCapabilities.Get(p) <==> p != CanDeleteUsers
    ensures SuperAdminCapabilities.Get(CanDeleteUsers) && !AdminCapabilities.Get(CanDeleteUsers)
  {
  }

  /** Whether `actor` may edit or delete `target`. A superadmin account can
      be managed by itself alone; this is checked before the capability, so
      no capability can override it. */
  function CanManageUser(actor: Option<User>, target: User): (b: bool)
    ensures b ==> HasPermission(actor, CanManageUsers)
    ensures b ==> target.role != SuperAdmin || actor.value.id == target.id
  {
    if actor.None? then false
    else if target.role == SuperAdmin && actor.value.id != target.id then false
    else HasPermission(actor, CanManageUsers)
  }

  /** Nobody signed in manages nobody. */
  lemma NoUserManagesNobody(target: User)
    ensures !CanManageUser(None, target)
  {
  }

  /** Another superadmin cannot be managed, whatever the actor's role,
      superadmin included. */
  lemma OtherSuperAdminIsProtected(actor: User, target: User)
    requires target.role == SuperAdmin && actor.id != target.id
    ensures !CanManageUser(Some(actor), target)
    ensures actor.role == SuperAdmin ==> HasPermission(Some(actor), CanManageUsers)
  {
  }

  /** Outside the superadmin case, managing a user is the capability
      `canManageUsers`: a superadmin manages itself, an employee nobody. */
  lemma CanManageUserIsCapability(actor: User, target: User)
    requires target.role != SuperAdmin || actor.id == target.id
    ensures CanManageUser(Some(actor), target) == HasPermission(Some(actor), CanManageUsers)
    ensures actor.role == SuperAdmin && target == actor ==> CanManageUser(Some(actor), target)
    ensures actor.role == Employee ==> !CanManageUser(Some(actor), target)
  {
  }

  const LoginRoute := "/login"
  const DashboardRoute := "/dashboard"
  const SettingsRoute := "/settings"
  const NotificationsRoute := "/notifications"
  const UsersRoute := "/users"

  /** The routes a user may open, as `getAccessibleRoutes` lists them. */
  function AccessibleRoutes(user: Option<User>): (routes: seq<string>)
    ensures user.None? ==> routes == [LoginRoute]
    ensures user.Some? ==> |routes| >= 3 && routes[..3] == [DashboardRoute, SettingsRoute, NotificationsRoute]
    ensures user.Some? ==> (UsersRoute in routes <==> HasPermission(user, CanManageUsers))
    ensures user.Some? && HasPermission(user, CanManageUsers) ==> routes == routes[..3] + [UsersRoute]
    ensures user.Some? && !HasPermission(user, CanManageUsers) ==> routes == [DashboardRoute, SettingsRoute, NotificationsRoute]
    ensures user.Some? ==> LoginRoute !in routes
  {
    if user.None? then [LoginRoute]
    else
      var base := [DashboardRoute, SettingsRoute, NotificationsRoute];
      if HasPermission(user, CanManageUsers) then base + [UsersRoute] else base
  }

  /** `getAccessibleRoutes`: start from the base list and push the users
      route onto it when the user may manage users. */
  method GetAccessibleRoutes(user: Option<User>) returns (routes: seq<string>)
    ensures routes == AccessibleRoutes(user)
  {
    if user.None? {
      return [LoginRoute];
    }
    routes := [DashboardRoute, SettingsRoute, NotificationsRoute];
    if HasPermission(user, CanManageUsers) {
      routes := routes + [UsersRoute];
    }
  }

  /** Employees and unknown roles never reach the users page; superadmins
      and admins always do. */
  lemma UsersRouteByRole(u: User)
    ensures UsersRoute in AccessibleRoutes(Some(u)) <==> u.role == SuperAdmin || u.role == Admin
  {
  }
}
