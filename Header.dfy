/** The header: the unread badge on the bell, and the avatar initials, name
    and role line of the profile button, with their fallbacks when nobody
    is signed in. */
module Header {
  import opened Types
  import opened Text
  import opened Translations
  import opened AppContext

  /** The badge is rendered only when something is unread. */
  predicate BadgeVisible(unreadCount: nat)
  {
    unreadCount > 0
  }

  /** The badge appears exactly when some notification is unread. */
  lemma BadgeShownIffUnread(ns: seq<Notification>)
    ensures BadgeVisible(UnreadCount(ns)) <==> exists i :: 0 <= i < |ns| && !ns[i].isRead
  {
    UnreadCountZeroIffAllRead(ns);
  }

  /** Numbers up to 99 are written in full, anything above as "99+". */
  function BadgeText(unreadCount: nat): (s: string)
    ensures s == "99+" <==> unreadCount > 99
    ensures unreadCount <= 99 ==> IsCanonicalDecimal(s) && DecimalValue(s) == unreadCount
    ensures |s| <= 3
  {
    if unreadCount > 99 then "99+"
    else
      DecimalRoundTrip(unreadCount);
      var s := DecimalString(unreadCount);
      assert |s| <= 2 by {
        if unreadCount >= 10 {
          assert s == DecimalString(unreadCount / 10) + [DigitChar(unreadCount % 10)];
        }
      }
      s
  }

  /** A badge text below "99+" reads back as the count it shows, and two
      counts up to 99 never share a text. */
  lemma BadgeTextDistinguishesCounts(a: nat, b: nat)
    requires a <= 99 && b <= 99
    ensures BadgeText(a) == BadgeText(b) <==> a == b
  {
  }

  /** `s.charAt(0)`: the first character, or nothing for an empty string. */
  function FirstChar(s: string): (r: string)
    ensures |r| <= 1
    ensures s != "" ==> r == [s[0]]
    ensures s == "" ==> r == ""
  {
    if s == "" then "" else s[..1]
  }

  /** `getInitials`: the two first letters, upper-cased. */
  function Initials(firstName: string, lastName: string): (r: string)
    ensures |r| == (if firstName == "" then 0 else 1) + (if lastName == "" then 0 else 1) <= 2
    ensures firstName != "" ==> r[0] == UpperChar(firstName[0])
    ensures lastName != "" ==> r[|r| - 1] == UpperChar(lastName[0])
    ensures forall i :: 0 <= i < |r| ==> !IsLowerAscii(r[i])
  {
    Upper(FirstChar(firstName) + FirstChar(lastName))
  }

  /** The avatar text: the user's initials, or "U" when nobody is signed
      in. */
  function AvatarText(user: Option<User>): string
  {
    if user.Some? then Initials(user.value.firstName, user.value.lastName) else "U"
  }

  /** The name line: first and last name, or "Utilisateur". */
  function DisplayName(user: Option<User>): string
  {
    if user.Some? then user.value.firstName + " " + user.value.lastName else "Utilisateur"
  }

  /** The role line: the translated role name, or nothing. */
  function RoleLine(lang: Language, user: Option<User>): string
  {
    if user.Some? then Translate(lang, RoleName(user.value.role)) else ""
  }

  /** Without a user the button shows "U", "Utilisateur" and an empty role
      line; with one, the avatar holds at most two letters and the role
      line is never empty when the role has a name. */
  lemma ProfileButtonFallbacks(lang: Language, user: Option<User>)
    ensures user.None? ==> AvatarText(user) == "U" && DisplayName(user) == "Utilisateur" && RoleLine(lang, user) == ""
    ensures user.Some? ==> |AvatarText(user)| <= 2
    ensures user.Some? && RoleName(user.value.role) != "" ==> RoleLine(lang, user) != ""
    ensures RoleLine(lang, user) == "" ==> user.None? || RoleName(user.value.role) == ""
  {
  }
}
