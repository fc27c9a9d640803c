/** The session state: the signed-in user and the loading flag, and how the
    authentication events, sign-in, sign-out and profile updates change
    them. */
module AuthContext {
  import opened Types

  /** The mapping `fetchUserProfile` applies to a `profiles` row. */
  function ProfileToUser(row: ProfileRow): User
  {
    User(row.id, row.email, row.first_name, row.last_name, row.role, row.avatar_url,
         row.created_at, row.updated_at, row.last_login)
  }

  /** The row a user is stored as: the inverse renaming. */
  function UserToProfile(u: User): ProfileRow
  {
    ProfileRow(u.id, u.email, u.firstName, u.lastName, u.role, u.avatar,
               u.createdAt, u.updatedAt, u.lastLogin)
  }

  /** The column mapping loses nothing, in either direction. */
  lemma ProfileRoundTrip(row: ProfileRow, u: User)
    ensures UserToProfile(ProfileToUser(row)) == row
    ensures ProfileToUser(UserToProfile(u)) == u
  {
  }

  /** `Partial<User>`: each field is either supplied or absent. */
  datatype UserPatch = UserPatch(
    id: Option<string>,
    email: Option<string>,
    firstName: Option<string>,
    lastName: Option<string>,
    role: Option<Role>,
    avatar: Option<string>,
    createdAt: Option<string>,
    updatedAt: Option<string>,
    lastLogin: Option<string>)

  /** `{ ...user, ...data }`: every supplied field overrides the user's. */
  function Merge(u: User, d: UserPatch): (r: User)
  {
    User(
      if d.id.Some? then d.id.value else u.id,
      if d.email.Some? then d.email.value else u.email,
      if d.firstName.Some? then d.firstName.value else u.firstName,
      if d.lastName.Some? then d.lastName.value else u.lastName,
      if d.role.Some? then d.role.value else u.role,
      if d.avatar.Some? then d.avatar else u.avatar,
      if d.createdAt.Some? then d.createdAt.value else u.createdAt,
      if d.updatedAt.Some? then d.updatedAt.value else u.updatedAt,
      if d.lastLogin.Some? then d.lastLogin else u.lastLogin)
  }

  const EmptyPatch := UserPatch(None, None, None, None, None, None, None, None, None)

  /** The patch that supplies every field of `u`. */
  function FullPatch(u: User): UserPatch
  {
    UserPatch(Some(u.id), Some(u.email), Some(u.firstName), Some(u.lastName), Some(u.role),
              u.avatar, Some(u.createdAt), Some(u.updatedAt), u.lastLogin)
  }

  /** An empty patch keeps the user; applying a patch twice is applying it
      once; a patch supplying every field of `v` gives `v` whatever the
      user was. */
  lemma MergeLaws(u: User, v: User, d: UserPatch)
    ensures Merge(u, EmptyPatch) == u
    ensures Merge(Merge(u, d), d) == Merge(u, d)
    ensures v.avatar.Some? && v.lastLogin.Some? ==> Merge(u, FullPatch(v)) == v
  {
  }

  /** A supplied string field is sent only when it is truthy. */
  predicate Truthy(s: Option<string>)
  {
    s.Some? && s.value != ""
  }

  /** A role is truthy unless its stored name is the empty string. */
  predicate RoleTruthy(r: Option<Role>)
  {
    r.Some? && RoleName(r.value) != ""
  }

  /** The body of a `profiles` update: the columns present are the ones
      sent. */
  datatype ProfileUpdate = ProfileUpdate(
    first_name: Option<string>,
    last_name: Option<string>,
    role: Option<Role>,
    avatar_url: Option<string>)

  /** The columns `updateProfile` sends for a patch: each of the four
      editable fields, renamed, when it is supplied and truthy. */
  function UpdateColumns(d: UserPatch): (p: ProfileUpdate)
    ensures p.first_name.Some? <==> Truthy(d.firstName)
    ensures p.last_name.Some? <==> Truthy(d.lastName)
    ensures p.role.Some? <==> RoleTruthy(d.role)
    ensures p.avatar_url.Some? <==> Truthy(d.avatar)
    ensures p.first_name.Some? ==> p.first_name == d.firstName
    ensures p.last_name.Some? ==> p.last_name == d.lastName
    ensures p.role.Some? ==> p.role == d.role
    ensures p.avatar_url.Some? ==> p.avatar_url == d.avatar
  {
    ProfileUpdate(
      if Truthy(d.firstName) then d.firstName else None,
      if Truthy(d.lastName) then d.lastName else None,
      if RoleTruthy(d.role) then d.role else None,
      if Truthy(d.avatar) then d.avatar else None)
  }

  /** Whatever is sent agrees with the user the merge produces locally. */
  lemma SentColumnsAgreeWithMerge(u: User, d: UserPatch)
    ensures UpdateColumns(d).first_name.Some? ==> UpdateColumns(d).first_name.value == Merge(u, d).firstName
    ensures UpdateColumns(d).last_name.Some? ==> UpdateColumns(d).last_name.value == Merge(u, d).lastName
    ensures UpdateColumns(d).role.Some? ==> UpdateColumns(d).role.value == Merge(u, d).role
    ensures UpdateColumns(d).avatar_url.Some? ==> UpdateColumns(d).avatar_url == Merge(u, d).avatar
  {
  }

  /** A supplied but empty field is not sent, yet the local user takes it:
      the local copy and the stored profile then disagree. */
  lemma FalsyFieldChangesOnlyLocally(u: User, d: UserPatch)
    requires d.firstName == Some("") && u.firstName != ""
    ensures UpdateColumns(d).first_name.None?
    ensures Merge(u, d).firstName == "" != u.firstName
  {
  }

  /** The events the authentication service reports. */
  datatype AuthEvent = SignedIn | SignedOut | OtherEvent(name: string)

  class AuthState {
    var user: Option<User>
    var loading: bool

    /** No user, and loading until the session is known. */
    constructor ()
      ensures user == None && loading
    {
      user := None;
      loading := true;
    }

    /** `fetchUserProfile`: a profile row found for the id becomes the
        user, whose last-login column is then written (the id written is
        returned); an error is logged and leaves the user as it was. */
    method FetchUserProfile(userId: string, response: Result<ProfileRow>) returns (lastLoginWritten: Option<string>)
      modifies this
      ensures response.Ok? ==> user == Some(ProfileToUser(response.value)) && lastLoginWritten == Some(userId)
      ensures response.Err? ==> user == old(user) && lastLoginWritten == None
      ensures loading == old(loading)
    {
      if response.Err? {
        return None;
      }
      user := Some(ProfileToUser(response.value));
      lastLoginWritten := Some(userId);
    }

    /** `getSession` at start-up: fetch the profile of a session's user;
        whatever happens, loading ends. */
    method RestoreSession(session: Result<Option<string>>, profile: Result<ProfileRow>)
      modifies this
      ensures !loading
      ensures session.Ok? && session.value.Some? && profile.Ok? ==> user == Some(ProfileToUser(profile.value))
      ensures session.Err? || session.value.None? || profile.Err? ==> user == old(user)
    {
      if session.Ok? && session.value.Some? {
        var _ := FetchUserProfile(session.value.value, profile);
      }
      loading := false;
    }

    /** The `onAuthStateChange` handler: a sign-in with a session user
        fetches the profile, a sign-out clears the user, any other event
        keeps it; loading ends in every case. */
    method OnAuthStateChange(event: AuthEvent, sessionUserId: Option<string>, profile: Result<ProfileRow>)
      modifies this
      ensures !loading
      ensures event == SignedOut ==> user == None
      ensures event == SignedIn && sessionUserId.Some? && profile.Ok? ==> user == Some(ProfileToUser(profile.value))
      ensures event == SignedIn && (sessionUserId.None? || profile.Err?) ==> user == old(user)
      ensures event.OtherEvent? ==> user == old(user)
    {
      if event == SignedIn && sessionUserId.Some? {
        var _ := FetchUserProfile(sessionUserId.value, profile);
      } else if event == SignedOut {
        user := None;
      }
      loading := false;
    }

    /** `signIn`: a rejected sign-in is rethrown and changes nothing; an
        accepted one fetches the profile, whose own failure is only
        logged. */
    method SignIn(response: Result<Option<string>>, profile: Result<ProfileRow>) returns (thrown: bool)
      modifies this
      ensures thrown <==> response.Err?
      ensures response.Ok? && response.value.Some? && profile.Ok? ==> user == Some(ProfileToUser(profile.value))
      ensures response.Err? || response.value.None? || profile.Err? ==> user == old(user)
      ensures loading == old(loading)
    {
      if response.Err? {
        return true;
      }
      if response.value.Some? {
        var _ := FetchUserProfile(response.value.value, profile);
      }
      thrown := false;
    }

    /** `signOut`: on success the user is cleared; a failure is rethrown
        and leaves the user. */
    method SignOut(success: bool) returns (thrown: bool)
      modifies this
      ensures thrown <==> !success
      ensures success ==> user == None
      ensures !success ==> user == old(user)
      ensures loading == old(loading)
    {
      if !success {
        return true;
      }
      user := None;
      thrown := false;
    }

    /** `updateProfile`: without a user nothing is sent. Otherwise the
        truthy editable fields are sent under their column names; on
        success the local user takes every supplied field, on failure the
        error is rethrown and the user is kept. */
    method UpdateProfile(data: UserPatch, success: bool) returns (sent: Option<ProfileUpdate>, thrown: bool)
      modifies this
      ensures old(user).None? ==> sent.None? && !thrown && user == old(user)
      ensures old(user).Some? ==> sent == Some(UpdateColumns(data)) && (thrown <==> !success)
      ensures old(user).Some? && success ==> user == Some(Merge(old(user).value, data))
      ensures !success ==> user == old(user)
      ensures loading == old(loading)
    {
      if user.None? {
        return None, false;
      }
      var update := ProfileUpdate(None, None, None, None);
      if Truthy(data.firstName) {
        update := update.(first_name := data.firstName);
      }
      if Truthy(data.lastName) {
        update := update.(last_name := data.lastName);
      }
      if RoleTruthy(data.role) {
        update := update.(role := data.role);
      }
      if Truthy(data.avatar) {
        update := update.(avatar_url := data.avatar);
      }
      sent := Some(update);
      if !success {
        return sent, true;
      }
      user := Some(Merge(user.value, data));
      thrown := false;
    }
  }
}
