/** The notifications page: its counters, the mark-all button and the loop
    behind it, the click rule, the empty state, and the icon and colour
    chosen for each notification. */
module NotificationsPage {
  import opened Types
  import opened Lists
  import opened AppContext

  function IsRead(n: Notification): bool { n.isRead }

  /** The "read" counter: `notifications.filter(n => n.isRead).length`. */
  function ReadCount(ns: seq<Notification>): (c: nat)
    ensures c <= |ns|
  {
    |Filter(ns, IsRead)|
  }

  /** The unread and read counters add up to the total counter. */
  lemma CountersAddUp(ns: seq<Notification>)
    ensures UnreadCount(ns) + ReadCount(ns) == |ns|
  {
    FilterPartition(ns, IsUnread, IsRead);
  }

  /** The mark-all button: `notifications.some(n => !n.isRead)`. */
  predicate ShowMarkAll(ns: seq<Notification>)
  {
    exists i :: 0 <= i < |ns| && !ns[i].isRead
  }

  /** The button is shown exactly when the unread counter is positive. */
  lemma MarkAllShownIffUnread(ns: seq<Notification>)
    ensures ShowMarkAll(ns) <==> UnreadCount(ns) > 0
  {
    UnreadCountZeroIffAllRead(ns);
  }

  /** The empty state replaces the list exactly when there is nothing. */
  predicate ShowEmptyState(ns: seq<Notification>)
  {
    |ns| == 0
  }

  /** With the empty state shown, both counters are zero and the button is
      hidden. */
  lemma EmptyStateHasNothingToMark(ns: seq<Notification>)
    requires ShowEmptyState(ns)
    ensures !ShowMarkAll(ns) && UnreadCount(ns) == 0 && ReadCount(ns) == 0
  {
  }

  /** A click on an item marks it read only when it is unread: the id to
      mark, if any. */
  function ClickTarget(n: Notification): (target: Option<string>)
    ensures target.Some? <==> !n.isRead
    ensures target.Some? ==> target.value == n.id
  {
    if !n.isRead then Some(n.id) else None
  }

  /** The ids of a list, in order. */
  function Ids(ns: seq<Notification>): seq<string>
  {
    Map(ns, IdOf)
  }

  function IdOf(n: Notification): string
  {
    n.id
  }

  /** `ids` marked one after the other, where the k-th call takes effect
      only when `succeeds(k)`. */
  function MarkEach(ns: seq<Notification>, ids: seq<string>, succeeds: nat -> bool): seq<Notification>
    decreases |ids|
  {
    if ids == [] then ns
    else
      var before := MarkEach(ns, ids[..|ids| - 1], succeeds);
      if succeeds(|ids| - 1) then MarkRead(before, ids[|ids| - 1]) else before
  }

  /** Some call that succeeded targeted `id`. */
  predicate MarkedBy(ids: seq<string>, succeeds: nat -> bool, id: string)
  {
    exists k :: 0 <= k < |ids| && succeeds(k) && ids[k] == id
  }

  /** After the calls, each entry keeps its place and everything but its
      read flag; the flag is set when a successful call targeted its id. */
  lemma {:induction false} MarkEachPointwise(ns: seq<Notification>, ids: seq<string>, succeeds: nat -> bool)
    ensures |MarkEach(ns, ids, succeeds)| == |ns|
    ensures forall j :: 0 <= j < |ns| ==>
      MarkEach(ns, ids, succeeds)[j] == ns[j].(isRead := ns[j].isRead || MarkedBy(ids, succeeds, ns[j].id))
    decreases |ids|
  {
    if ids != [] {
      var init := ids[..|ids| - 1];
      MarkEachPointwise(ns, init, succeeds);
      forall j | 0 <= j < |ns|
        ensures MarkedBy(ids, succeeds, ns[j].id) <==>
          MarkedBy(init, succeeds, ns[j].id) || (succeeds(|ids| - 1) && ids[|ids| - 1] == ns[j].id)
      {
        if MarkedBy(ids, succeeds, ns[j].id) {
          var k :| 0 <= k < |ids| && succeeds(k) && ids[k] == ns[j].id;
          if k < |ids| - 1 {
            assert init[k] == ids[k];
          }
        }
        if MarkedBy(init, succeeds, ns[j].id) {
          var k :| 0 <= k < |init| && succeeds(k) && init[k] == ns[j].id;
          assert ids[k] == init[k];
        }
      }
    }
  }

  /** When every call succeeds, nothing unread is left. */
  lemma AllSucceededLeavesNothingUnread(ns: seq<Notification>, succeeds: nat -> bool)
    requires forall k :: 0 <= k < UnreadCount(ns) ==> succeeds(k)
    ensures UnreadCount(MarkEach(ns, Ids(Filter(ns, IsUnread)), succeeds)) == 0
  {
    var unread := Filter(ns, IsUnread);
    var ids := Ids(unread);
    var r := MarkEach(ns, ids, succeeds);
    MarkEachPointwise(ns, ids, succeeds);
    forall j | 0 <= j < |r|
      ensures r[j].isRead
    {
      if !ns[j].isRead {
        assert IsUnread(ns[j]);
        FilterMembers(ns, IsUnread, ns[j]);
        var k :| 0 <= k < |unread| && unread[k] == ns[j];
        assert ids[k] == ns[j].id && succeeds(k);
        assert MarkedBy(ids, succeeds, ns[j].id);
      }
    }
    UnreadCountZeroIffAllRead(r);
  }

  /** A read entry is never the target of a call. */
  lemma ReadEntriesAreNotTargeted(ns: seq<Notification>, i: nat)
    requires i < |Filter(ns, IsUnread)|
    ensures !Filter(ns, IsUnread)[i].isRead
  {
  }

  /** `markAllAsRead`: call `markNotificationAsRead` once for each unread
      entry, in list order; the k-th call reaches the backend with outcome
      `succeeds(k)`. Returns the ids called, in order. */
  method MarkAllAsRead(store: AppStore, succeeds: nat -> bool) returns (called: seq<string>)
    modifies store
    ensures called == Ids(Filter(old(store.notifications), IsUnread))
    ensures store.notifications == MarkEach(old(store.notifications), called, succeeds)
    ensures store.userId == old(store.userId) && store.CurrentPreferences() == old(store.CurrentPreferences())
  {
    var unread := Filter(store.notifications, IsUnread);
    ghost var start := store.notifications;
    called := [];
    for k := 0 to |unread|
      invariant called == Ids(unread[..k])
      invariant store.notifications == MarkEach(start, called, succeeds)
      invariant store.userId == old(store.userId) && store.CurrentPreferences() == old(store.CurrentPreferences())
    {
      store.MarkNotificationAsRead(unread[k].id, succeeds(k));
      assert unread[..k + 1] == unread[..k] + [unread[k]];
      called := called + [unread[k].id];
      assert called[..|called| - 1] == Ids(unread[..k]);
    }
    assert unread[..|unread|] == unread;
  }

  /** The four icons `getNotificationIcon` chooses between. */
  datatype Icon = CheckCircle | AlertCircle | XCircle | InfoCircle

  /** `getNotificationIcon`: success, warning and error have their own
      icon; any other type falls to the information icon. */
  function IconFor(kind: NotificationType): Icon
  {
    match kind
    case Success => CheckCircle
    case Warning => AlertCircle
    case Error => XCircle
    case _ => InfoCircle
  }

  /** The background colours `getNotificationBgColor` chooses between. */
  datatype Tint = GreenTint | YellowTint | RedTint | BlueTint

  function TintFor(kind: NotificationType): Tint
  {
    match kind
    case Success => GreenTint
    case Warning => YellowTint
    case Error => RedTint
    case _ => BlueTint
  }

  /** The colour classes of a tint. */
  function TintClasses(t: Tint): string
  {
    match t
    case GreenTint => "bg-green-50 dark:bg-green-900/20 border-green-200 dark:border-green-800"
    case YellowTint => "bg-yellow-50 dark:bg-yellow-900/20 border-yellow-200 dark:border-yellow-800"
    case RedTint => "bg-red-50 dark:bg-red-900/20 border-red-200 dark:border-red-800"
    case BlueTint => "bg-blue-50 dark:bg-blue-900/20 border-blue-200 dark:border-blue-800"
  }

  /** The opacity class: lighter for a read item. */
  function Opacity(isRead: bool): (c: string)
    ensures |c| == 13
    ensures c == "bg-opacity-30" <==> isRead
  {
    if isRead then "bg-opacity-30" else "bg-opacity-50"
  }

  /** `getNotificationBgColor`: the type's colour classes followed by the
      opacity class, which ends the list. */
  function BgColor(kind: NotificationType, isRead: bool): (classes: string)
    ensures |classes| >= 13 && classes[|classes| - 13..] == Opacity(isRead)
  {
    var base := TintClasses(TintFor(kind)) + " ";
    assert (base + Opacity(isRead))[|base|..] == Opacity(isRead);
    base + Opacity(isRead)
  }

  /** Each of the four types has its own icon and colour, the information
      type sharing them with nothing; and the classes end in
      `bg-opacity-30` exactly when the item is read. */
  lemma IconAndColourPerType(a: NotificationType, b: NotificationType, isRead: bool)
    ensures IconFor(a) == IconFor(b) <==> a == b
    ensures TintFor(a) == TintFor(b) <==> a == b
    ensures BgColor(a, isRead)[|BgColor(a, isRead)| - 13..] == "bg-opacity-30" <==> isRead
  {
  }
}
