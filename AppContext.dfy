/** The application store: theme, language, sidebar state and the signed-in
    user's notification list, with the updates the realtime channel, the
    bulk load and the mutators apply to it. */
module AppContext {
  import opened Types
  import opened Lists

  /** `transformNotification`: a `notifications` row renamed to the
      application's field names. */
  function TransformNotification(row: NotificationRow): Notification
  {
    Notification(row.id, row.user_id, row.title, row.message, row.kind, row.is_read, row.created_at)
  }

  /** The row a notification is stored as: the inverse renaming. */
  function NotificationRowOf(n: Notification): NotificationRow
  {
    NotificationRow(n.id, n.userId, n.title, n.message, n.kind, n.isRead, n.createdAt)
  }

  /** The renaming loses nothing, in either direction. */
  lemma TransformRoundTrip(row: NotificationRow, n: Notification)
    ensures NotificationRowOf(TransformNotification(row)) == row
    ensures TransformNotification(NotificationRowOf(n)) == n
  {
  }

  /** `data.map(transformNotification)`. */
  function TransformAll(rows: seq<NotificationRow>): (ns: seq<Notification>)
    ensures |ns| == |rows|
    ensures forall i :: 0 <= i < |rows| ==> NotificationRowOf(ns[i]) == rows[i]
  {
    seq(|rows|, i requires 0 <= i < |rows| => TransformNotification(rows[i]))
  }

  /** `prev.map(n => n.id === u.id ? u : n)`: every entry carrying `u`'s id
      becomes `u`. */
  function ReplaceById(ns: seq<Notification>, u: Notification): (r: seq<Notification>)
    ensures |r| == |ns|
    ensures forall i :: 0 <= i < |ns| ==> r[i].id == ns[i].id
    ensures forall i :: 0 <= i < |ns| ==> (ns[i].id == u.id ==> r[i] == u) && (ns[i].id != u.id ==> r[i] == ns[i])
    decreases |ns|
  {
    if ns == [] then []
    else [if ns[0].id == u.id then u else ns[0]] + ReplaceById(ns[1..], u)
  }

  /** `prev.map(n => n.id === id ? { ...n, isRead: true } : n)`. */
  function MarkRead(ns: seq<Notification>, id: string): (r: seq<Notification>)
    ensures |r| == |ns|
    ensures forall i :: 0 <= i < |ns| ==> (ns[i].id == id ==> r[i] == ns[i].(isRead := true)) && (ns[i].id != id ==> r[i] == ns[i])
    decreases |ns|
  {
    if ns == [] then []
    else [if ns[0].id == id then ns[0].(isRead := true) else ns[0]] + MarkRead(ns[1..], id)
  }

  function IsUnread(n: Notification): bool { !n.isRead }

  /** `notifications.filter(n => !n.isRead).length`. */
  function UnreadCount(ns: seq<Notification>): (c: nat)
    ensures c <= |ns|
  {
    |Filter(ns, IsUnread)|
  }

  /** The unread count is zero exactly when every entry is read. */
  lemma {:induction false} UnreadCountZeroIffAllRead(ns: seq<Notification>)
    ensures UnreadCount(ns) == 0 <==> forall i :: 0 <= i < |ns| ==> ns[i].isRead
    decreases |ns|
  {
    if ns != [] {
      UnreadCountZeroIffAllRead(ns[1..]);
      assert forall i :: 1 <= i < |ns| ==> ns[i] == ns[1..][i - 1];
    }
  }

  /** The number of entries carrying `id`. */
  function CountId(ns: seq<Notification>, id: string): nat
    decreases |ns|
  {
    if ns == [] then 0 else (if ns[0].id == id then 1 else 0) + CountId(ns[1..], id)
  }

  /** A list without `id` counts it zero times. */
  lemma {:induction false} CountIdAbsent(ns: seq<Notification>, id: string)
    requires forall i :: 0 <= i < |ns| ==> ns[i].id != id
    ensures CountId(ns, id) == 0
    decreases |ns|
  {
    if ns != [] {
      CountIdAbsent(ns[1..], id);
    }
  }

  /** A list holding `id` at position `i` counts it at least once. */
  lemma {:induction false} CountIdPresent(ns: seq<Notification>, id: string, i: nat)
    requires i < |ns| && ns[i].id == id
    ensures CountId(ns, id) >= 1
    decreases i
  {
    if i > 0 {
      CountIdPresent(ns[1..], id, i - 1);
    }
  }

  /** The kinds of change the realtime channel reports on the
      `notifications` table. */
  datatype EventKind = Insert | Update | Delete

  /** The list after one realtime event: an insert prepends the record, an
      update replaces the entries carrying its id, any other event is
      ignored. */
  function ApplyEventTo(ns: seq<Notification>, kind: EventKind, row: NotificationRow): seq<Notification>
  {
    match kind
    case Insert => [TransformNotification(row)] + ns
    case Update => ReplaceById(ns, TransformNotification(row))
    case Delete => ns
  }

  /** An insert puts the record in front and keeps the old list behind it. */
  lemma InsertPrepends(ns: seq<Notification>, row: NotificationRow)
    ensures |ApplyEventTo(ns, Insert, row)| == |ns| + 1
    ensures ApplyEventTo(ns, Insert, row)[0] == TransformNotification(row)
    ensures ApplyEventTo(ns, Insert, row)[1..] == ns
  {
  }

  /** Nothing stops an insert from repeating an id already in the list: the
      id then occurs once more. */
  lemma InsertDuplicatesKnownId(ns: seq<Notification>, row: NotificationRow, i: nat)
    requires i < |ns| && ns[i].id == row.id
    ensures CountId(ApplyEventTo(ns, Insert, row), row.id) == CountId(ns, row.id) + 1 >= 2
  {
    CountIdPresent(ns, row.id, i);
    assert ApplyEventTo(ns, Insert, row)[1..] == ns;
  }

  /** An update keeps the length, the order and every id; entries with
      other ids are untouched, and those with the record's id become the
      record. */
  lemma UpdateReplacesInPlace(ns: seq<Notification>, row: NotificationRow)
    ensures |ApplyEventTo(ns, Update, row)| == |ns|
    ensures forall i :: 0 <= i < |ns| ==> ApplyEventTo(ns, Update, row)[i].id == ns[i].id
    ensures forall i :: 0 <= i < |ns| && ns[i].id != row.id ==> ApplyEventTo(ns, Update, row)[i] == ns[i]
    ensures forall i :: 0 <= i < |ns| && ns[i].id == row.id ==> NotificationRowOf(ApplyEventTo(ns, Update, row)[i]) == row
  {
  }

  /** An update for an id the list does not hold changes nothing. */
  lemma {:induction false} UpdateOfUnknownIdIsNoOp(ns: seq<Notification>, row: NotificationRow)
    requires forall i :: 0 <= i < |ns| ==> ns[i].id != row.id
    ensures ApplyEventTo(ns, Update, row) == ns
    decreases |ns|
  {
    if ns != [] {
      UpdateOfUnknownIdIsNoOp(ns[1..], row);
      assert ns == [ns[0]] + ns[1..];
    }
  }

  /** Events other than insert and update leave the list as it is. */
  lemma DeleteIsIgnored(ns: seq<Notification>, row: NotificationRow)
    ensures ApplyEventTo(ns, Delete, row) == ns
  {
  }

  /** An insert of a fresh id followed by an update of that id leaves one
      entry for it, holding the updated record, in front of the old list. */
  lemma InsertThenUpdate(ns: seq<Notification>, row: NotificationRow, updated: NotificationRow)
    requires forall i :: 0 <= i < |ns| ==> ns[i].id != row.id
    requires updated.id == row.id
    ensures ApplyEventTo(ApplyEventTo(ns, Insert, row), Update, updated) == [TransformNotification(updated)] + ns
    ensures CountId(ApplyEventTo(ApplyEventTo(ns, Insert, row), Update, updated), row.id) == 1
  {
    UpdateOfUnknownIdIsNoOp(ns, updated);
    var inserted := [TransformNotification(row)] + ns;
    assert inserted[1..] == ns;
    CountIdAbsent(ns, row.id);
    assert ([TransformNotification(updated)] + ns)[1..] == ns;
  }

  /** After marking, no entry with that id is unread; every other entry is
      untouched and the order is kept. */
  lemma MarkReadMarksExactlyThatId(ns: seq<Notification>, id: string)
    ensures forall i :: 0 <= i < |ns| && ns[i].id == id ==> MarkRead(ns, id)[i].isRead
    ensures forall i :: 0 <= i < |ns| && ns[i].id != id ==> MarkRead(ns, id)[i] == ns[i]
    ensures forall i :: 0 <= i < |ns| ==> MarkRead(ns, id)[i].id == ns[i].id
  {
  }

  /** Marking the same id twice is marking it once. */
  lemma {:induction false} MarkReadIdempotent(ns: seq<Notification>, id: string)
    ensures MarkRead(MarkRead(ns, id), id) == MarkRead(ns, id)
    decreases |ns|
  {
    if ns != [] {
      MarkReadIdempotent(ns[1..], id);
      assert MarkRead(ns, id)[1..] == MarkRead(ns[1..], id);
    }
  }

  /** Marking never raises the unread count, and lowers it by one for each
      unread entry carrying the id. */
  lemma {:induction false} MarkReadNeverRaisesUnread(ns: seq<Notification>, id: string)
    ensures UnreadCount(MarkRead(ns, id)) <= UnreadCount(ns)
    ensures (exists i :: 0 <= i < |ns| && ns[i].id == id && !ns[i].isRead) ==> UnreadCount(MarkRead(ns, id)) < UnreadCount(ns)
    decreases |ns|
  {
    if ns != [] {
      MarkReadNeverRaisesUnread(ns[1..], id);
      var r := MarkRead(ns, id);
      assert r[1..] == MarkRead(ns[1..], id);
      assert r == [r[0]] + r[1..];
      assert ns == [ns[0]] + ns[1..];
      if exists i :: 0 <= i < |ns| && ns[i].id == id && !ns[i].isRead {
        var i :| 0 <= i < |ns| && ns[i].id == id && !ns[i].isRead;
        if i > 0 {
          assert ns[1..][i - 1] == ns[i];
        }
      }
    }
  }

  /** The preference record the toggles persist. */
  datatype Preferences = Preferences(theme: Theme, language: Language, sidebarCollapsed: bool)

  /** The stored `preferences` column: any field may be missing, and the
      column itself may be empty. */
  datatype StoredPreferences = StoredPreferences(
    theme: Option<Theme>,
    language: Option<Language>,
    sidebarCollapsed: Option<bool>)

  /** The fields `addNotification` receives: a notification without its
      id and creation date. */
  datatype NotificationDraft = NotificationDraft(
    userId: string,
    title: string,
    message: string,
    kind: NotificationType,
    isRead: bool)

  /** The row `addNotification` inserts. */
  datatype NotificationInsert = NotificationInsert(
    user_id: string,
    title: string,
    message: string,
    kind: NotificationType,
    is_read: bool)

  function Opposite(t: Theme): (u: Theme)
    ensures u != t
  {
    if t == Light then Dark else Light
  }

  /** Toggling twice gives the theme back. */
  lemma OppositeInvolutive(t: Theme)
    ensures Opposite(Opposite(t)) == t
  {
  }

  /** The preferences after a load of the stored `preferences` column: a
      failed query or an empty column keeps `current`; otherwise each
      stored field that is present replaces the current one. */
  function Reloaded(current: Preferences, response: Result<Option<StoredPreferences>>): Preferences
  {
    if response.Err? || response.value.None? then current
    else
      var p := response.value.value;
      Preferences(
        if p.theme.Some? then p.theme.value else current.theme,
        if p.language.Some? then p.language.value else current.language,
        if p.sidebarCollapsed.Some? then p.sidebarCollapsed.value else current.sidebarCollapsed)
  }

  /** A stored record with every field present is adopted whatever the
      current preferences; a failure or a record with no field keeps them;
      and loading the same response twice is loading it once. */
  lemma ReloadedLaws(current: Preferences, other: Preferences, response: Result<Option<StoredPreferences>>)
    ensures Reloaded(current, Ok(Some(StoredPreferences(Some(other.theme), Some(other.language), Some(other.sidebarCollapsed))))) == other
    ensures response.Err? || response == Ok(None) || response == Ok(Some(StoredPreferences(None, None, None))) ==>
      Reloaded(current, response) == current
    ensures Reloaded(Reloaded(current, response), response) == Reloaded(current, response)
  {
  }

  /** `user?.id` is truthy: someone is signed in and the id is not empty. */
  predicate HasUserId(userId: Option<string>)
  {
    userId.Some? && userId.value != ""
  }

  class AppStore {
    /** `user?.id` of the authentication context; `None` is `undefined`. */
    var userId: Option<string>
    var theme: Theme
    var language: Language
    var sidebarCollapsed: bool
    var notifications: seq<Notification>

    function CurrentPreferences(): Preferences
      reads this
    {
      Preferences(theme, language, sidebarCollapsed)
    }

    function Unread(): nat
      reads this
    {
      UnreadCount(notifications)
    }

    /** The initial state: light theme, French, sidebar open, no list. */
    constructor ()
      ensures userId == None && theme == Light && language == Fr && !sidebarCollapsed
      ensures notifications == []
    {
      userId := None;
      theme := Light;
      language := Fr;
      sidebarCollapsed := false;
      notifications := [];
    }

    /** The realtime handler: apply one insert, update or other event. */
    method ApplyEvent(kind: EventKind, row: NotificationRow)
      modifies this
      ensures notifications == ApplyEventTo(old(notifications), kind, row)
      ensures userId == old(userId) && CurrentPreferences() == old(CurrentPreferences())
    {
      if kind == Insert {
        notifications := [TransformNotification(row)] + notifications;
      } else if kind == Update {
        notifications := ReplaceById(notifications, TransformNotification(row));
      }
    }

    /** `loadNotifications`: without a user nothing happens; a successful
        query replaces the whole list, a failed one leaves it. */
    method LoadNotifications(response: Result<seq<NotificationRow>>)
      modifies this
      ensures HasUserId(userId) && response.Ok? ==> notifications == TransformAll(response.value)
      ensures !HasUserId(userId) || response.Err? ==> notifications == old(notifications)
      ensures userId == old(userId) && CurrentPreferences() == old(CurrentPreferences())
    {
      if !HasUserId(userId) {
        return;
      }
      if response.Ok? {
        notifications := TransformAll(response.value);
      }
    }

    /** `loadUserPreferences`: without a user nothing happens; otherwise
        the preferences become `Reloaded` of the current ones and the
        response. */
    method LoadUserPreferences(response: Result<Option<StoredPreferences>>)
      modifies this
      ensures HasUserId(userId) ==> CurrentPreferences() == Reloaded(old(CurrentPreferences()), response)
      ensures !HasUserId(userId) ==> CurrentPreferences() == old(CurrentPreferences())
      ensures userId == old(userId) && notifications == old(notifications)
    {
      if !HasUserId(userId) {
        return;
      }
      if response.Err? || response.value.None? {
        return;
      }
      var p := response.value.value;
      if p.theme.Some? {
        theme := p.theme.value;
      }
      if p.language.Some? {
        language := p.language.value;
      }
      if p.sidebarCollapsed.Some? {
        sidebarCollapsed := p.sidebarCollapsed.value;
      }
    }

    /** `toggleTheme`: flip the theme and, with a user, persist the new
        theme along with the current language and sidebar state. */
    method ToggleTheme() returns (saved: Option<Preferences>)
      modifies this
      ensures theme == Opposite(old(theme))
      ensures language == old(language) && sidebarCollapsed == old(sidebarCollapsed)
      ensures userId == old(userId) && notifications == old(notifications)
      ensures saved == (if HasUserId(userId) then Some(CurrentPreferences()) else None)
    {
      theme := Opposite(theme);
      saved := if HasUserId(userId) then Some(CurrentPreferences()) else None;
    }

    /** `setLanguage`: set the language and, with a user, persist it along
        with the current theme and sidebar state. */
    method SetLanguage(lang: Language) returns (saved: Option<Preferences>)
      modifies this
      ensures language == lang
      ensures theme == old(theme) && sidebarCollapsed == old(sidebarCollapsed)
      ensures userId == old(userId) && notifications == old(notifications)
      ensures saved == (if HasUserId(userId) then Some(CurrentPreferences()) else None)
    {
      language := lang;
      saved := if HasUserId(userId) then Some(CurrentPreferences()) else None;
    }

    /** `toggleSidebar`: flip the sidebar state and, with a user, persist
        it along with the current theme and language. */
    method ToggleSidebar() returns (saved: Option<Preferences>)
      modifies this
      ensures sidebarCollapsed == !old(sidebarCollapsed)
      ensures theme == old(theme) && language == old(language)
      ensures userId == old(userId) && notifications == old(notifications)
      ensures saved == (if HasUserId(userId) then Some(CurrentPreferences()) else None)
    {
      sidebarCollapsed := !sidebarCollapsed;
      saved := if HasUserId(userId) then Some(CurrentPreferences()) else None;
    }

    /** `markNotificationAsRead`: once the backend accepts the update, the
        entries with that id are read; a failure is logged and changes
        nothing. No signed-in user is required. */
    method MarkNotificationAsRead(id: string, success: bool)
      modifies this
      ensures success ==> notifications == MarkRead(old(notifications), id)
      ensures !success ==> notifications == old(notifications)
      ensures Unread() <= old(Unread())
      ensures userId == old(userId) && CurrentPreferences() == old(CurrentPreferences())
    {
      MarkReadNeverRaisesUnread(notifications, id);
      if success {
        notifications := MarkRead(notifications, id);
      }
    }

    /** `addNotification`: with a user, insert the draft as unread under the
        draft's own user id; the local list is never touched, the new entry
        arrives through the realtime channel. */
    method AddNotification(draft: NotificationDraft) returns (sent: Option<NotificationInsert>)
      ensures !HasUserId(userId) <==> sent.None?
      ensures sent.Some? ==> !sent.value.is_read && sent.value.user_id == draft.userId
      ensures sent.Some? ==> sent.value.title == draft.title && sent.value.message == draft.message && sent.value.kind == draft.kind
    {
      if !HasUserId(userId) {
        return None;
      }
      sent := Some(NotificationInsert(draft.userId, draft.title, draft.message, draft.kind, false));
    }

    /** The effect keyed on `user?.id`: record the new id and, when it
        changed to a signed-in id, load the preferences and then the
        notifications. Signing out loads nothing and clears nothing. */
    method OnUserChanged(newUserId: Option<string>, prefs: Result<Option<StoredPreferences>>, rows: Result<seq<NotificationRow>>)
      modifies this
      ensures userId == newUserId
      ensures newUserId == old(userId) || !HasUserId(newUserId) ==>
        notifications == old(notifications) && CurrentPreferences() == old(CurrentPreferences())
      ensures newUserId != old(userId) && HasUserId(newUserId) ==>
        CurrentPreferences() == Reloaded(old(CurrentPreferences()), prefs)
      ensures newUserId != old(userId) && HasUserId(newUserId) && rows.Ok? ==> notifications == TransformAll(rows.value)
      ensures newUserId != old(userId) && HasUserId(newUserId) && rows.Err? ==> notifications == old(notifications)
    {
      var changed := newUserId != userId;
      userId := newUserId;
      if changed && HasUserId(userId) {
        LoadUserPreferences(prefs);
        LoadNotifications(rows);
      }
    }
  }

  function Note(id: string, isRead: bool): Notification
  {
    Notification(id, "u", "", "", Info, isRead, "")
  }

  /** The store scenario: a load of an unread "a" and a read "b" gives one
      unread; an insert of an unread "c" puts it in front and gives two;
      marking "a" read keeps the order and gives one again. */
  lemma StoreScenario()
    ensures UnreadCount([Note("a", false), Note("b", true)]) == 1
    ensures ApplyEventTo([Note("a", false), Note("b", true)], Insert, NotificationRowOf(Note("c", false)))
         == [Note("c", false), Note("a", false), Note("b", true)]
    ensures UnreadCount([Note("c", false), Note("a", false), Note("b", true)]) == 2
    ensures MarkRead([Note("c", false), Note("a", false), Note("b", true)], "a")
         == [Note("c", false), Note("a", true), Note("b", true)]
    ensures UnreadCount([Note("c", false), Note("a", true), Note("b", true)]) == 1
  {
    var loaded := [Note("a", false), Note("b", true)];
    assert Filter(loaded, IsUnread) == [Note("a", false)] by {
      assert loaded[1..] == [Note("b", true)];
      assert loaded[1..][1..] == [];
    }
    var three := [Note("c", false), Note("a", false), Note("b", true)];
    assert three[1..] == loaded;
    assert Filter(three, IsUnread) == [Note("c", false), Note("a", false)];
    var marked := [Note("c", false), Note("a", true), Note("b", true)];
    var m := MarkRead(three, "a");
    assert m[0] == marked[0] && m[1] == marked[1] && m[2] == marked[2];
    assert marked[1..] == [Note("a", true), Note("b", true)];
    assert marked[1..][1..] == [Note("b", true)];
    assert marked[1..][1..][1..] == [];
    assert Filter(marked, IsUnread) == [Note("c", false)];
  }
}
