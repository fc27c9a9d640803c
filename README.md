# MYKDASHBOARD core in Dafny

A model of the logic of the MYKDASHBOARD admin dashboard, a React and
Supabase application with three roles (superadmin, admin, employee), a
trilingual interface (French, English, Arabic), and per-user notifications
that arrive in real time.

The model covers:

- the role-to-capability table and the access rules built on it
  (`hasPermission`, `canManageUser`, `getAccessibleRoutes`);
- the translation tables and the `t` lookup, which walks a dotted key and
  falls back to the key itself;
- the application store (`AppContext`): theme, language, sidebar state and
  the notification list, changed by the realtime channel, the bulk load,
  the preference toggles and the read marks;
- the session store (`AuthContext`): the signed-in user and the loading
  flag, changed by session restore, authentication events, sign-in,
  sign-out and profile updates;
- the view rules of the sidebar, the header, the users page and the
  notifications page: which entries, actions, counters, badges, icons and
  colours are shown.

Modules follow the source files:

| module | file |
|---|---|
| `Types` | `src/types/index.ts`, `src/lib/database.types.ts` |
| `Text` | the JavaScript string operations the views use |
| `Lists` | `Array.prototype.filter` and the subsequence relation |
| `Permissions` | `src/utils/permissions.ts` |
| `Translations` | `src/utils/translations.ts` |
| `AppContext` | `src/contexts/AppContext.tsx` |
| `AuthContext` | `src/contexts/AuthContext.tsx` |
| `Sidebar` | `src/components/layout/Sidebar.tsx` |
| `Header` | `src/components/layout/Header.tsx` |
| `UsersPage` | `src/pages/UsersPage.tsx` |
| `NotificationsPage` | `src/pages/NotificationsPage.tsx` |

The two React contexts hold state that their callbacks replace step by
step. Each becomes a class: `AppContext.AppStore` and
`AuthContext.AuthState`. Every Supabase call becomes a parameter carrying
its outcome, either a `Result` with the returned data or the error, or a
`success` flag. A call whose error the source rethrows returns
`thrown: bool`. A write the source sends is returned as a value (`saved`,
`sent`, `lastLoginWritten`), so its contents can be stated.

The model follows the code in three places where a reader might expect
otherwise:

- Signing out leaves the notification list and preferences as they were.
  The effect in `AppContext.tsx` only loads when `user?.id` is truthy and
  clears nothing.
- `markNotificationAsRead` and `addNotification` log a backend failure and
  do not rethrow it. `markNotificationAsRead` does not check that a user
  is signed in.
- `addNotification` inserts under the draft's own `userId`, not the
  signed-in user's id, and does not touch the local list.

## Model

| member | source | states |
|---|---|---|
| Types.RoleFromName | src/types/index.ts:7 | the role a stored role name denotes; its name is the input, and it is outside the three known roles exactly when the name is not one of them |
| Types.RoleNameRoundTrip | src/types/index.ts:7 | naming a role and reading the name back gives the same role |
| Text.Lower | src/pages/UsersPage.tsx:88-90 | `toLowerCase` keeps the length, maps each character, and leaves no upper-case ASCII letter |
| Text.Upper | src/components/layout/Header.tsx:23 | `toUpperCase` keeps the length, maps each character, and leaves no lower-case ASCII letter |
| Text.ContainsIffOccurs | src/pages/UsersPage.tsx:88-90 | `includes` holds exactly when the term occurs at some offset |
| Text.ContainsEmpty | src/pages/UsersPage.tsx:88-90 | every string includes the empty string |
| Text.Split | src/utils/translations.ts:219 | `split('.')` gives at least one piece and no piece holds the separator |
| Text.JoinSplit | src/utils/translations.ts:219 | joining the pieces of a split with the separator gives the key back |
| Text.SplitJoin | src/utils/translations.ts:219 | splitting a join of separator-free pieces gives the pieces back |
| Text.SplitWithoutSeparator | src/utils/translations.ts:219 | a key without a dot is a single segment |
| Text.SplitAtFirstSeparator | src/utils/translations.ts:219 | a dot-free head is split off as the first segment |
| Text.DecimalString | src/components/layout/Header.tsx:69 | the rendered count is a canonical numeral, one digit exactly when the count is below ten |
| Text.DecimalRoundTrip | src/components/layout/Header.tsx:69 | reading back a rendered count gives the count |
| Text.DecimalRoundTripBack | src/utils/translations.ts:223 | a canonical array-index key is the rendering of the index it denotes |
| Text.LongNumeralIsLarge | src/components/layout/Header.tsx:69 | a canonical numeral of two or more digits denotes ten or more |
| Lists.Filter | src/components/layout/Sidebar.tsx:49-51 | `filter` returns no more elements than it was given, each satisfying the predicate |
| Lists.FilterMembers | src/pages/UsersPage.tsx:87-91 | an element is kept exactly when it occurs in the input and satisfies the predicate |
| Lists.FilterMembership | src/pages/UsersPage.tsx:87-91 | the same, for every element at once |
| Lists.FilterIsSubsequence | src/components/layout/Sidebar.tsx:49-51 | `filter` keeps the order of the input |
| Lists.FilterKeepsAll | src/pages/UsersPage.tsx:87-91 | a predicate true everywhere keeps the whole input |
| Lists.FilterPartition | src/pages/NotificationsPage.tsx:132-154 | filtering by a predicate and by its negation splits the input, the lengths adding up to the whole |
| Lists.FilterCongruent | src/pages/UsersPage.tsx:87-91 | predicates that agree everywhere filter alike |
| Lists.FilterCons | src/components/layout/Sidebar.tsx:49-51 | a leading element is kept exactly when it satisfies the predicate, ahead of the filtered rest |
| Lists.FilterOfFour | src/components/layout/Sidebar.tsx:49-51 | filtering four elements of which only the second can fail drops exactly that one when it fails |
| Lists.SubsequenceReflexive | src/components/layout/Sidebar.tsx:49-51 | every sequence is a subsequence of itself |
| Lists.SubsequenceOfTail | src/components/layout/Sidebar.tsx:49-51 | a subsequence of the tail is a subsequence of the whole |
| Permissions.TableRow | src/utils/permissions.ts:4-29 | only a role outside the table has no row |
| Permissions.HasPermission | src/utils/permissions.ts:31-44 | only a signed-in superadmin or admin holds a capability, and a superadmin holds every one |
| Permissions.NoUserHasNoPermission | src/utils/permissions.ts:32 | with nobody signed in every capability is denied |
| Permissions.HasPermissionIsTableLookup | src/utils/permissions.ts:34-43 | a signed-in user gets exactly the table entry of their role, and nothing for a role without a row |
| Permissions.EmployeeHasNoCapability | src/utils/permissions.ts:21-28 | the employee row denies every capability |
| Permissions.AdminIsSuperAdminWithoutDelete | src/utils/permissions.ts:5-20 | the admin row differs from the superadmin row in `canDeleteUsers` alone |
| Permissions.CanManageUser | src/utils/permissions.ts:46-56 | managing a user needs `canManageUsers`, and a superadmin target only its own account |
| Permissions.NoUserManagesNobody | src/utils/permissions.ts:47 | nobody signed in manages nobody |
| Permissions.OtherSuperAdminIsProtected | src/utils/permissions.ts:50-52 | another superadmin cannot be managed, even by a superadmin holding `canManageUsers` |
| Permissions.CanManageUserIsCapability | src/utils/permissions.ts:46-56 | outside the protected case managing is the capability; a superadmin manages itself and an employee nobody |
| Permissions.AccessibleRoutes | src/utils/permissions.ts:58-68 | login alone without a user; otherwise exactly dashboard, settings and notifications, with the users route appended last exactly when the user may manage users; never login |
| Permissions.GetAccessibleRoutes | src/utils/permissions.ts:58-68 | building the list by pushing onto the base routes gives `AccessibleRoutes` |
| Permissions.UsersRouteByRole | src/utils/permissions.ts:58-68 | the users route is reachable exactly for superadmins and admins |
| Translations.Union | src/utils/translations.ts:2-215 | a table written in sections defines the keys of every section |
| Translations.UnionSameKeys | src/utils/translations.ts:2-215 | joining sections with equal key sets gives tables with equal key sets |
| Translations.FrAndEnHaveSameKeys | src/utils/translations.ts:2-215 | the French and English tables define the same keys |
| Translations.EnAndArHaveSameKeys | src/utils/translations.ts:2-215 | the English and Arabic tables define the same keys |
| Translations.WalkStaysReachable | src/utils/translations.ts:222-224 | after the first segment the walk only meets `undefined`, a table entry, or one character of an entry |
| Translations.WalkFromUndefined | src/utils/translations.ts:223 | optional chaining keeps `undefined` to the end of the key |
| Translations.Lookup | src/utils/translations.ts:218-227 | `t` never returns an empty string for a non-empty key, and returns the key, an entry of the table, or one character of an entry |
| Translations.Translate | src/utils/translations.ts:217-230 | the same for the table of the chosen language |
| Translations.LookupKey | src/utils/translations.ts:218-227 | the loop over the key's segments computes `Lookup` |
| Translations.T | src/utils/translations.ts:217-230 | `t` in a language computes `Translate` |
| Translations.DefinedKeyLooksUp | src/utils/translations.ts:218-227 | in a flat table with non-empty entries a defined key gives its entry |
| Translations.UndefinedKeyLooksUpItself | src/utils/translations.ts:226 | a dot-free key missing from the table gives the key |
| Translations.UnknownFirstSegmentLooksUpItself | src/utils/translations.ts:222-226 | a dotted key whose first segment is missing gives the key, whatever follows |
| Translations.LookupOfUndefinedWalk | src/utils/translations.ts:226 | a walk ending on `undefined` gives the key |
| Translations.NonIndexLastSegmentLooksUpItself | src/utils/translations.ts:222-226 | in a flat table a two-segment key `entry.b`, whose `b` is not an index into the entry's text, gives the key |
| Translations.NonIndexSecondSegmentLooksUpItself | src/utils/translations.ts:222-226 | in a flat table a key of three or more segments `entry.b.rest`, whose `b` is not an index into the entry's text, gives the key |
| Translations.IndexIntoEntryLooksUpCharacter | src/utils/translations.ts:223 | the two-segment key `entry.i`, where `i` is an index into the entry's text, gives that one character |
| Translations.DefinedKeyTranslates | src/utils/translations.ts:217-230 | a key defined in a language's table translates to its entry |
| Translations.UnknownFirstSegmentFallsBack | src/utils/translations.ts:217-230 | a dotted key with an unknown first segment translates to itself |
| Translations.NonIndexLastSegmentFallsBack | src/utils/translations.ts:217-230 | in every language `entry.b` under a defined entry translates to itself unless `b` indexes the entry's text |
| Translations.NonIndexSecondSegmentFallsBack | src/utils/translations.ts:217-230 | in every language `entry.b.rest` (three or more segments) under a defined entry translates to itself unless `b` indexes the entry's text |
| Translations.IndexIntoEntry | src/utils/translations.ts:217-230 | in every language the two-segment key `entry.i` translates to the i-th character of the entry's text |
| AppContext.TransformRoundTrip | src/contexts/AppContext.tsx:130-138 | the row-to-notification renaming loses nothing, in either direction |
| AppContext.TransformAll | src/contexts/AppContext.tsx:124 | the loaded list has one notification per row, in row order, each renaming its row |
| AppContext.ReplaceById | src/contexts/AppContext.tsx:43-45 | same length and ids; entries with the record's id become the record, the others stay |
| AppContext.MarkRead | src/contexts/AppContext.tsx:178-180 | same length; entries with the id are the same entry marked read, the others stay |
| AppContext.UnreadCount | src/contexts/AppContext.tsx:206 | the unread count is at most the list's length |
| AppContext.UnreadCountZeroIffAllRead | src/contexts/AppContext.tsx:206 | the unread count is zero exactly when every entry is read |
| AppContext.CountIdAbsent | src/contexts/AppContext.tsx:40 | a list without an id holds it zero times |
| AppContext.CountIdPresent | src/contexts/AppContext.tsx:40 | a list holding an id holds it at least once |
| AppContext.InsertPrepends | src/contexts/AppContext.tsx:38-40 | an insert puts the new record in front of the unchanged old list |
| AppContext.InsertDuplicatesKnownId | src/contexts/AppContext.tsx:38-40 | an insert of an id already listed adds a second entry for it |
| AppContext.UpdateReplacesInPlace | src/contexts/AppContext.tsx:41-45 | an update keeps length, order and ids, replaces the entries with its id and leaves the rest |
| AppContext.UpdateOfUnknownIdIsNoOp | src/contexts/AppContext.tsx:41-45 | an update for an id not in the list changes nothing |
| AppContext.DeleteIsIgnored | src/contexts/AppContext.tsx:37-46 | a delete event leaves the list as it is |
| AppContext.InsertThenUpdate | src/contexts/AppContext.tsx:37-46 | an insert of a fresh id followed by its update leaves one entry for it, holding the update, in front of the old list |
| AppContext.MarkReadMarksExactlyThatId | src/contexts/AppContext.tsx:178-180 | after marking, entries with the id are read, the others and every id are unchanged |
| AppContext.MarkReadIdempotent | src/contexts/AppContext.tsx:178-180 | marking the same id twice is marking it once |
| AppContext.MarkReadNeverRaisesUnread | src/contexts/AppContext.tsx:178-180 | marking never raises the unread count, and lowers it when an unread entry has the id |
| AppContext.Opposite | src/contexts/AppContext.tsx:141 | the toggled theme differs from the current one |
| AppContext.OppositeInvolutive | src/contexts/AppContext.tsx:141 | toggling twice gives the theme back |
| AppContext.ReloadedLaws | src/contexts/AppContext.tsx:88-91 | a stored record with every field is adopted whatever the current preferences; a failure, an empty column or an empty record keeps them; reloading twice is reloading once |
| AppContext.StoreScenario | src/contexts/AppContext.tsx:37-206 | a load, an insert and a read mark give the expected list and unread counts 1, 2, 1 |
| AppContext.AppStore.constructor | src/contexts/AppContext.tsx:17-21 | the store starts light, in French, with the sidebar open and no notifications |
| AppContext.AppStore.ApplyEvent | src/contexts/AppContext.tsx:37-46 | the realtime handler applies an insert, update or other event to the list and nothing else |
| AppContext.AppStore.LoadNotifications | src/contexts/AppContext.tsx:112-128 | with a user and a successful query the list becomes the transformed rows; otherwise it stays |
| AppContext.AppStore.LoadUserPreferences | src/contexts/AppContext.tsx:76-95 | with a user the preferences become `Reloaded` of the current ones and the response; without one nothing changes |
| AppContext.AppStore.ToggleTheme | src/contexts/AppContext.tsx:140-148 | the theme flips, the rest stays, and the new preferences are saved exactly when a user is signed in |
| AppContext.AppStore.SetLanguage | src/contexts/AppContext.tsx:150-157 | the language is set, the rest stays, and the new preferences are saved exactly when a user is signed in |
| AppContext.AppStore.ToggleSidebar | src/contexts/AppContext.tsx:159-167 | the sidebar state flips, the rest stays, and the new preferences are saved exactly when a user is signed in |
| AppContext.AppStore.MarkNotificationAsRead | src/contexts/AppContext.tsx:169-184 | an accepted update marks the entries with the id read; a failure changes nothing; the unread count never rises |
| AppContext.AppStore.AddNotification | src/contexts/AppContext.tsx:186-204 | an insert is sent exactly when a user is signed in, unread, under the draft's own user id and contents |
| AppContext.AppStore.OnUserChanged | src/contexts/AppContext.tsx:24-54 | a new signed-in id reloads the preferences (as `Reloaded`) and then the list; the same id or a sign-out changes neither list nor preferences |
| AuthContext.ProfileRoundTrip | src/contexts/AuthContext.tsx:60-70 | the profile-to-user renaming loses nothing, in either direction |
| AuthContext.MergeLaws | src/contexts/AuthContext.tsx:133 | spreading an empty patch keeps the user, spreading twice is spreading once, and a full patch gives its user |
| AuthContext.UpdateColumns | src/contexts/AuthContext.tsx:120-124 | a column is sent exactly when its field is supplied and truthy, and then carries that field |
| AuthContext.SentColumnsAgreeWithMerge | src/contexts/AuthContext.tsx:120-133 | every column sent agrees with the user kept locally after the update |
| AuthContext.FalsyFieldChangesOnlyLocally | src/contexts/AuthContext.tsx:120-133 | an empty first name is not sent but still replaces the local one |
| AuthContext.AuthState.constructor | src/contexts/AuthContext.tsx:17-18 | no user, and loading |
| AuthContext.AuthState.FetchUserProfile | src/contexts/AuthContext.tsx:50-82 | a found profile becomes the user and its last login is written; an error keeps the user |
| AuthContext.AuthState.RestoreSession | src/contexts/AuthContext.tsx:22-35 | a session user's profile becomes the user; loading ends in every case |
| AuthContext.AuthState.OnAuthStateChange | src/contexts/AuthContext.tsx:38-45 | a sign-in fetches the profile, a sign-out clears the user, other events keep it; loading ends |
| AuthContext.AuthState.SignIn | src/contexts/AuthContext.tsx:84-101 | a rejected sign-in is rethrown and changes nothing; an accepted one fetches the profile |
| AuthContext.AuthState.SignOut | src/contexts/AuthContext.tsx:103-114 | success clears the user; a failure is rethrown and keeps it |
| AuthContext.AuthState.UpdateProfile | src/contexts/AuthContext.tsx:116-139 | no user sends nothing; otherwise the truthy fields are sent, success merges the patch and failure is rethrown and keeps the user |
| Sidebar.VisibleItems | src/components/layout/Sidebar.tsx:49-51 | the visible entries keep the display order and are each visible to the user |
| Sidebar.VisibleItemsByCapability | src/components/layout/Sidebar.tsx:22-51 | all four entries for a user who may manage users, the other three otherwise |
| Sidebar.UnguardedItemsAlwaysVisible | src/components/layout/Sidebar.tsx:22-51 | dashboard, notifications and settings are shown to everyone, even with nobody signed in |
| Sidebar.UsersItemVisibleIff | src/components/layout/Sidebar.tsx:29-34 | the users entry is shown exactly to users who may manage users |
| Sidebar.NobodySeesThreeItemsButOnlyLogin | src/components/layout/Sidebar.tsx:49-51 | with nobody signed in three entries are shown while only the login route is accessible |
| Sidebar.VisiblePathsAreAccessibleRoutes | src/components/layout/Sidebar.tsx:22-51 | for a signed-in user the sidebar names the accessible routes, in a different order |
| Header.BadgeShownIffUnread | src/components/layout/Header.tsx:62 | the badge is rendered exactly when some notification is unread |
| Header.BadgeText | src/components/layout/Header.tsx:69 | "99+" exactly above 99, otherwise the count in decimal, never more than three characters |
| Header.BadgeTextDistinguishesCounts | src/components/layout/Header.tsx:69 | two counts up to 99 share a badge text only when equal |
| Header.FirstChar | src/components/layout/Header.tsx:23 | `charAt(0)` is the first character, or empty for an empty string |
| Header.Initials | src/components/layout/Header.tsx:22-24 | one letter per non-empty name, upper-cased, first name first |
| Header.ProfileButtonFallbacks | src/components/layout/Header.tsx:84-92 | without a user the button shows "U", "Utilisateur" and no role; with one, at most two initials, and a non-empty role line when the role has a name |
| UsersPage.PageGuardMatchesRoutes | src/pages/UsersPage.tsx:23-36 | the page guard admits exactly the users whose routes include the users page, all of them superadmins or admins |
| UsersPage.FilterUsers | src/pages/UsersPage.tsx:87-91 | the listed users keep their order and are exactly the users matching the search |
| UsersPage.EmptySearchKeepsAll | src/pages/UsersPage.tsx:87-91 | an empty search lists every user |
| UsersPage.LowerOfUpper | src/pages/UsersPage.tsx:87-91 | lower-casing an upper-cased term is lower-casing it |
| UsersPage.SearchIgnoresCase | src/pages/UsersPage.tsx:87-91 | the upper-cased term finds the same users |
| UsersPage.NoMatchIffNobodyMatches | src/pages/UsersPage.tsx:257 | once loaded, "no user found" is shown exactly when nobody matches |
| UsersPage.NoDeleteOnSuperAdminRow | src/pages/UsersPage.tsx:231-252 | a superadmin row never offers delete, even to itself, which may still edit it |
| UsersPage.DeleteNeedsEdit | src/pages/UsersPage.tsx:231-252 | delete is offered only where edit is |
| UsersPage.AdminSeesDeleteWithoutCapability | src/pages/UsersPage.tsx:231-252 | an admin, who lacks `canDeleteUsers`, sees delete on every admin and employee row |
| UsersPage.EmployeeSeesNoAction | src/pages/UsersPage.tsx:231-252 | an employee is offered no action on any row |
| UsersPage.BadgePerRole | src/pages/UsersPage.tsx:97-108 | the three roles get three different badges, and only a role outside them gets grey |
| NotificationsPage.ReadCount | src/pages/NotificationsPage.tsx:154 | the read counter is at most the total |
| NotificationsPage.CountersAddUp | src/pages/NotificationsPage.tsx:110-154 | the unread and read counters add up to the total |
| NotificationsPage.MarkAllShownIffUnread | src/pages/NotificationsPage.tsx:84 | the mark-all button is shown exactly when the unread count is positive |
| NotificationsPage.EmptyStateHasNothingToMark | src/pages/NotificationsPage.tsx:175 | under the empty state both counters are zero and the button is hidden |
| NotificationsPage.ClickTarget | src/pages/NotificationsPage.tsx:198 | a click marks the entry's id exactly when it is unread |
| NotificationsPage.MarkEachPointwise | src/pages/NotificationsPage.tsx:54-58 | after the calls each entry keeps its place and fields, and is read when a successful call targeted its id |
| NotificationsPage.AllSucceededLeavesNothingUnread | src/pages/NotificationsPage.tsx:54-58 | when every call succeeds nothing is left unread |
| NotificationsPage.ReadEntriesAreNotTargeted | src/pages/NotificationsPage.tsx:55 | a read entry is never the target of a call |
| NotificationsPage.MarkAllAsRead | src/pages/NotificationsPage.tsx:54-58 | one call per unread entry, in list order, and the list ends as those calls leave it |
| NotificationsPage.Opacity | src/pages/NotificationsPage.tsx:27 | the opacity class is `bg-opacity-30` exactly for a read item |
| NotificationsPage.BgColor | src/pages/NotificationsPage.tsx:26-38 | the classes end with the opacity class |
| NotificationsPage.IconAndColourPerType | src/pages/NotificationsPage.tsx:13-38 | each type has its own icon and colour, and the classes mark a read item |

## Left out

- Supabase itself is not modelled: queries, the network and the server-side ordering of `loadNotifications` (`created_at` descending). Each call's outcome is a parameter.
- The realtime subscription's lifecycle is not modelled (opening, the `user_id` filter, unsubscribing), nor the order in which asynchronous calls complete. `markAllAsRead` fires its calls without awaiting them; the model applies them in list order.
- DOM effects are not modelled: the `dark` class, the `dir`/`rtl` attributes, animations, toasts and console logging.
- Dates are not modelled: `formatDate`, locale formatting, and the `last_login` timestamp value. The model records only that the write is sent.
- Lower- and upper-casing are modelled on ASCII letters only; JavaScript maps all of Unicode.
- Strings are sequences of characters; JavaScript indexes UTF-16 code units, which differ outside the Basic Multilingual Plane.
- `Translations.Lookup`: only table entries and the array indices of a string are modelled as properties. Built-in properties such as `length` or `constructor` are treated as absent.
- Stored preferences of the wrong type (a `theme` that is neither light nor dark) are not modelled; each stored field is present or absent.
- `UserPatch` models `Partial<User>` as present-or-absent fields. A key present with the value `undefined` is not modelled.
- The initials the sidebar (`Sidebar.tsx:123`) and the users page (`UsersPage.tsx:202`) render without upper-casing are not modelled; the header's `getInitials` is.
- The sidebar labels and the other `t(...)` calls of the views are not modelled; the lookup itself is.
- The mock user list of `loadUsers` (`UsersPage.tsx:42-85`) is not modelled; the users page is stated over any list.
- The dashboard, settings and login pages, the router and the layout are not modelled.
