/** The notification list screen (`src/screens/NotificationPage.tsx`): relative-time
    labels, type icons, the unread badge, mark-as-read on press, and the newest-first
    ordering of the store's notification array. Timestamps are milliseconds since the
    epoch, already parsed; the current time is a parameter. */
module NotificationPage {
  import opened Wrappers
  import opened Text
  import opened Seqs

  datatype Notification = Notification(id: string, kind: string, fromUserName: string, time: int, isRead: bool)

  const HourMs := 1000 * 60 * 60

  /** `Math.floor(diffMs / 3600000)`; `/` on a positive divisor rounds down. */
  function HoursAgo(nowMs: int, timeMs: int): int {
    (nowMs - timeMs) / HourMs
  }

  const JustNow := "刚刚"
  const HoursSuffix := "小时前"
  const DaysSuffix := "天前"

  function FormatTimestamp(nowMs: int, timeMs: int): string {
    var h := HoursAgo(nowMs, timeMs);
    if h < 1 then JustNow
    else if h < 24 then IntToString(h) + HoursSuffix
    else IntToString(h / 24) + DaysSuffix
  }

  /** Less than an hour ago, or in the future, reads "just now". */
  lemma JustNowBucket(nowMs: int, timeMs: int)
    requires nowMs - timeMs < HourMs
    ensures FormatTimestamp(nowMs, timeMs) == JustNow
  {
  }

  /** Between one and twenty-four hours the shown is the whole number of hours, which can be
      read back from it. */
  lemma HoursBucket(nowMs: int, timeMs: int)
    requires 1 <= HoursAgo(nowMs, timeMs) < 24
    ensures var shown := FormatTimestamp(nowMs, timeMs); var h := HoursAgo(nowMs, timeMs);
      |shown| > |HoursSuffix| && shown[|shown| - |HoursSuffix|..] == HoursSuffix &&
      AllDigits(shown[..|shown| - |HoursSuffix|]) && ParseNat(shown[..|shown| - |HoursSuffix|]) == h
  {
    var h := HoursAgo(nowMs, timeMs);
    var digits := NatToString(h);
    assert FormatTimestamp(nowMs, timeMs) == digits + HoursSuffix;
    assert (digits + HoursSuffix)[..|digits|] == digits;
    ParseNatToString(h);
  }

  /** From twenty-four hours on the shown counts whole days, at least one. */
  lemma DaysBucket(nowMs: int, timeMs: int)
    requires HoursAgo(nowMs, timeMs) >= 24
    ensures var shown := FormatTimestamp(nowMs, timeMs); var d := HoursAgo(nowMs, timeMs) / 24;
      d >= 1 && |shown| > |DaysSuffix| && shown[|shown| - |DaysSuffix|..] == DaysSuffix &&
      AllDigits(shown[..|shown| - |DaysSuffix|]) && ParseNat(shown[..|shown| - |DaysSuffix|]) == d
  {
    var d := HoursAgo(nowMs, timeMs) / 24;
    var digits := NatToString(d);
    assert FormatTimestamp(nowMs, timeMs) == digits + DaysSuffix;
    assert (digits + DaysSuffix)[..|digits|] == digits;
    ParseNatToString(d);
  }

  /** `getNotificationIcon`. */
  function Icon(kind: string): string {
    match kind
    case "follow" => "👤"
    case "like" => "❤️"
    case "comment" => "💬"
    case "share" => "📤"
    case _ => "🔔"
  }

  /** The four interaction types have four different icons; every other type, the
      curation type included, gets the bell. */
  lemma IconsDistinct(k1: string, k2: string)
    requires k1 in {"follow", "like", "comment", "share"} && k2 in {"follow", "like", "comment", "share"}
    ensures Icon(k1) == Icon(k2) <==> k1 == k2
    ensures Icon(k1) != "🔔" && Icon("curation") == "🔔"
  {
  }

  /** `handleNotificationPress`: the id passed to `markNotificationAsRead`, if any. */
  function PressCall(n: Notification): (r: Option<string>)
    ensures r.Some? <==> !n.isRead
    ensures r.Some? ==> r.value == n.id
  {
    if !n.isRead then Some(n.id) else None
  }

  function Unread(ns: seq<Notification>): seq<Notification> {
    Filter(ns, (n: Notification) => !n.isRead)
  }

  /** The header badge: shown with the unread count exactly when that count is positive. */
  function Badge(ns: seq<Notification>): (r: Option<nat>)
    ensures r.Some? ==> r.value == |Unread(ns)| && 0 < r.value <= |ns|
    ensures r.None? <==> forall i | 0 <= i < |ns| :: ns[i].isRead
  {
    var count := |Unread(ns)|;
    if count > 0 then
      assert Unread(ns)[0] in ns;
      Some(count)
    else None
  }

  // ---------------------------------------------------------------- newest first

  predicate NewestFirst(s: seq<Notification>) {
    forall i, j | 0 <= i < j < |s| :: s[i].time >= s[j].time
  }

  /** The in-place `notifications.sort(...)` by descending time: afterwards the array holds
      the same notifications, newest first. */
  method SortNewestFirst(a: array<Notification>)
    modifies a
    ensures multiset(a[..]) == multiset(old(a[..]))
    ensures NewestFirst(a[..])
  {
    var i := 0;
    while i < a.Length
      invariant 0 <= i <= a.Length
      invariant NewestFirst(a[..i])
      invariant multiset(a[..]) == multiset(old(a[..]))
    {
      SinkNewest(a, i);
      i := i + 1;
    }
    assert a[..a.Length] == a[..];
  }

  /** One insertion step: moves `a[i]` left past every strictly older notification. */
  method SinkNewest(a: array<Notification>, i: int)
    requires 0 <= i < a.Length
    requires forall x, y | 0 <= x < y < i :: a[x].time >= a[y].time
    modifies a
    ensures multiset(a[..]) == multiset(old(a[..]))
    ensures forall x, y | 0 <= x < y <= i :: a[x].time >= a[y].time
  {
    var j := i;
    while j > 0 && a[j - 1].time < a[j].time
      invariant 0 <= j <= i
      invariant multiset(a[..]) == multiset(old(a[..]))
      invariant forall x, y | 0 <= x < y <= i && x != j && y != j :: a[x].time >= a[y].time
      invariant forall y | j < y <= i :: a[j].time > a[y].time
    {
      Swap(a, j - 1, j);
      j := j - 1;
    }
  }

  method Swap(a: array<Notification>, p: int, q: int)
    requires 0 <= p < a.Length && 0 <= q < a.Length
    modifies a
    ensures a[p] == old(a[q]) && a[q] == old(a[p])
    ensures forall k | 0 <= k < a.Length && k != p && k != q :: a[k] == old(a[k])
    ensures multiset(a[..]) == multiset(old(a[..]))
  {
    a[p], a[q] := a[q], a[p];
  }
}
