/** The users page: its access guard, the case-insensitive search over the
    user list, which row actions are offered, and the role badge colour. */
module UsersPage {
  import opened Types
  import opened Text
  import opened Lists
  import opened Permissions

  /** The page body is shown only to a signed-in user who may manage users;
      everyone else gets the unauthorized view. */
  predicate CanViewPage(currentUser: Option<User>)
  {
    currentUser.Some? && HasPermission(currentUser, CanManageUsers)
  }

  /** The page guard admits exactly the users whose route list holds the
      users page. */
  lemma PageGuardMatchesRoutes(currentUser: Option<User>)
    ensures CanViewPage(currentUser) <==> UsersRoute in AccessibleRoutes(currentUser)
    ensures CanViewPage(currentUser) ==> currentUser.value.role == SuperAdmin || currentUser.value.role == Admin
  {
  }

  /** A user matches when the lower-cased term occurs in the lower-cased
      first name, last name or email. */
  predicate MatchesSearch(u: User, term: string)
  {
    var t := Lower(term);
    Contains(Lower(u.firstName), t) || Contains(Lower(u.lastName), t) || Contains(Lower(u.email), t)
  }

  /** `filteredUsers`. */
  function FilterUsers(users: seq<User>, term: string): (r: seq<User>)
    ensures IsSubsequence(r, users)
    ensures forall u :: u in r <==> u in users && MatchesSearch(u, term)
  {
    FilterIsSubsequence(users, u => MatchesSearch(u, term));
    FilterMembership(users, u => MatchesSearch(u, term));
    Filter(users, u => MatchesSearch(u, term))
  }

  /** An empty search keeps every user, in order. */
  lemma EmptySearchKeepsAll(users: seq<User>)
    ensures FilterUsers(users, "") == users
  {
    forall i | 0 <= i < |users|
      ensures MatchesSearch(users[i], "")
    {
      ContainsEmpty(Lower(users[i].firstName));
    }
    FilterKeepsAll(users, u => MatchesSearch(u, ""));
  }

  /** Lower-casing after upper-casing is lower-casing. */
  lemma LowerOfUpper(s: string)
    ensures Lower(Upper(s)) == Lower(s)
  {
  }

  /** The search ignores case: the term upper-cased finds the same users. */
  lemma SearchIgnoresCase(users: seq<User>, term: string)
    ensures FilterUsers(users, Upper(term)) == FilterUsers(users, term)
  {
    LowerOfUpper(term);
    FilterCongruent(users, u => MatchesSearch(u, Upper(term)), u => MatchesSearch(u, term));
  }

  /** The "no user found" line: nothing matches and the list is loaded. */
  predicate ShowNoMatch(users: seq<User>, term: string, loading: bool)
  {
    |FilterUsers(users, term)| == 0 && !loading
  }

  /** Once loaded, the empty list is reported exactly when no user
      matches. */
  lemma NoMatchIffNobodyMatches(users: seq<User>, term: string)
    ensures ShowNoMatch(users, term, false) <==> forall i :: 0 <= i < |users| ==> !MatchesSearch(users[i], term)
  {
    var r := FilterUsers(users, term);
    if |r| > 0 {
      assert r[0] in r;
    }
  }

  /** The edit action is offered for rows the current user may manage. */
  predicate ShowEdit(currentUser: Option<User>, row: User)
  {
    CanManageUser(currentUser, row)
  }

  /** The delete action additionally needs the row not to be a superadmin;
      `canDeleteUsers` is not consulted. */
  predicate ShowDelete(currentUser: Option<User>, row: User)
  {
    CanManageUser(currentUser, row) && row.role != SuperAdmin
  }

  /** No superadmin row offers delete, not even the superadmin's own. */
  lemma NoDeleteOnSuperAdminRow(currentUser: Option<User>, row: User)
    requires row.role == SuperAdmin
    ensures !ShowDelete(currentUser, row)
    ensures currentUser == Some(row) ==> ShowEdit(currentUser, row)
  {
  }

  /** Delete is offered only where edit is. */
  lemma DeleteNeedsEdit(currentUser: Option<User>, row: User)
    ensures ShowDelete(currentUser, row) ==> ShowEdit(currentUser, row)
  {
  }

  /** An admin, who lacks `canDeleteUsers`, still sees delete on every
      admin and employee row. */
  lemma AdminSeesDeleteWithoutCapability(admin: User, row: User)
    requires admin.role == Admin && (row.role == Admin || row.role == Employee)
    ensures !HasPermission(Some(admin), CanDeleteUsers)
    ensures ShowDelete(Some(admin), row)
  {
  }

  /** An employee is offered no action on any row, its own included. */
  lemma EmployeeSeesNoAction(employee: User, row: User)
    requires employee.role == Employee
    ensures !ShowEdit(Some(employee), row) && !ShowDelete(Some(employee), row)
  {
  }

  /** The badge colours `getRoleBadgeColor` chooses between. */
  datatype BadgeColor = Red | Blue | Green | Gray

  /** The class list a colour stands for. */
  function BadgeClasses(c: BadgeColor): string
  {
    match c
    case Red => "bg-red-100 text-red-800 dark:bg-red-900 dark:text-red-200"
    case Blue => "bg-blue-100 text-blue-800 dark:bg-blue-900 dark:text-blue-200"
    case Green => "bg-green-100 text-green-800 dark:bg-green-900 dark:text-green-200"
    case Gray => "bg-gray-100 text-gray-800 dark:bg-gray-900 dark:text-gray-200"
  }

  /** `getRoleBadgeColor`, a switch on the role's name. */
  function RoleBadgeColor(role: string): BadgeColor
  {
    if role == "superadmin" then Red
    else if role == "admin" then Blue
    else if role == "employee" then Green
    else Gray
  }

  /** The three roles get three different badges, and a role outside the
      table gets the grey default, which none of the three uses. */
  lemma BadgePerRole(r: Role, s: Role)
    ensures RoleBadgeColor(RoleName(r)) == Gray <==> r.Unknown?
    ensures RoleBadgeColor(RoleName(r)) == RoleBadgeColor(RoleName(s)) <==> r == s || (r.Unknown? && s.Unknown?)
  {
  }
}
