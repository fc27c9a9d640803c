/** The application's entities (users, notifications, roles, preferences)
    and the row shapes the backend stores them in. */
module Types {

  datatype Option<+T> = None | Some(value: T)

  /** The outcome of a backend call: its data, or the error it reported. */
  datatype Result<+T> = Ok(value: T) | Err(message: string)

  /** A role as stored on a profile. The three known roles have their own
      constructors; any other stored role name is carried by `Unknown`. */
  datatype RoleTag = SuperAdmin | Admin | Employee | Unknown(name: string)

  function RoleName(r: RoleTag): string
  {
    match r
    case SuperAdmin => "superadmin"
    case Admin => "admin"
    case Employee => "employee"
    case Unknown(n) => n
  }

  predicate IsKnownRoleName(s: string)
  {
    s == "superadmin" || s == "admin" || s == "employee"
  }

  /** `Unknown` never carries one of the three known names, so every role
      name has exactly one representation. */
  type Role = r: RoleTag | r.Unknown? ==> !IsKnownRoleName(r.name) witness SuperAdmin

  /** The role a stored role name denotes. */
  function RoleFromName(s: string): (r: Role)
    ensures RoleName(r) == s
    ensures r.Unknown? <==> !IsKnownRoleName(s)
  {
    if s == "superadmin" then SuperAdmin
    else if s == "admin" then Admin
    else if s == "employee" then Employee
    else Unknown(s)
  }

  /** Naming a role and reading the name back gives the same role. */
  lemma RoleNameRoundTrip(r: Role)
    ensures RoleFromName(RoleName(r)) == r
  {
  }

  datatype User = User(
    id: string,
    email: string,
    firstName: string,
    lastName: string,
    role: Role,
    avatar: Option<string>,
    createdAt: string,
    updatedAt: string,
    lastLogin: Option<string>)

  datatype NotificationType = Info | Success | Warning | Error

  datatype Notification = Notification(
    id: string,
    userId: string,
    title: string,
    message: string,
    kind: NotificationType,
    isRead: bool,
    createdAt: string)

  datatype Theme = Light | Dark

  datatype Language = Fr | En | Ar

  /** A row of the `profiles` table; field names are the column names. */
  datatype ProfileRow = ProfileRow(
    id: string,
    email: string,
    first_name: string,
    last_name: string,
    role: Role,
    avatar_url: Option<string>,
    created_at: string,
    updated_at: string,
    last_login: Option<string>)

  /** A row of the `notifications` table; field names are the column names. */
  datatype NotificationRow = NotificationRow(
    id: string,
    user_id: string,
    title: string,
    message: string,
    kind: NotificationType,
    is_read: bool,
    created_at: string)
}
