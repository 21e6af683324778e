/**
 * The pickup notification panel (src/components/notifications/PickupNotifications.tsx):
 * a list of notifications that reading, dismissing and acting on replace,
 * an expanded flag, and the relative-time text of each entry. The current
 * time and each entry's parsed timestamp are parameters; the `onAction`
 * callbacks that run are recorded, in order, by notification id.
 */
module PickupNotificationsModel {
  import opened Wrappers
  import Text
  import opened NotificationLists

  datatype Level = Info | Success | Warning | Error

  /** The optional action button of an entry: its label and whether it has a callback. */
  datatype Action = Action(actionLabel: Option<string>, hasCallback: bool)

  type PanelNotification = Notification<Level, Action>

  const DefaultMaxVisible := 5
  const MinuteMs := 60000

  /** How long ago a timestamp was, in the unit `formatRelativeTime` picks. */
  datatype Age =
    | JustNow
    | MinutesAgo(minutes: nat)
    | HoursAgo(hours: nat)
    | DaysAgo(days: nat)
    | NaNDaysAgo

  /**
   * `formatRelativeTime`'s arithmetic: whole minutes elapsed, floored; under
   * one minute (the future included) is "just now", then minutes below an
   * hour, hours below a day, and days. An unparsable timestamp (`None`, NaN
   * in JavaScript) fails every comparison and ends in the days branch.
   */
  function AgeOf(timestamp: Option<int>, now: int): (r: Age)
    ensures r.NaNDaysAgo? <==> timestamp.None?
    ensures timestamp.Some? ==> (r.JustNow? <==> now - timestamp.value < MinuteMs)
    ensures r.MinutesAgo? ==>
      1 <= r.minutes < 60 && r.minutes * MinuteMs <= now - timestamp.value < (r.minutes + 1) * MinuteMs
    ensures r.HoursAgo? ==>
      1 <= r.hours < 24 && r.hours * 60 * MinuteMs <= now - timestamp.value < (r.hours + 1) * 60 * MinuteMs
    ensures r.DaysAgo? ==>
      1 <= r.days && r.days * 24 * 60 * MinuteMs <= now - timestamp.value
      && now - timestamp.value < (r.days + 1) * 24 * 60 * MinuteMs
  {
    match timestamp
    case None => NaNDaysAgo
    case Some(t) =>
      var diffInMinutes := (now - t) / MinuteMs;
      if diffInMinutes < 1 then JustNow
      else if diffInMinutes < 60 then MinutesAgo(diffInMinutes)
      else
        var diffInHours := diffInMinutes / 60;
        FloorDivTwice(now - t, MinuteMs, 60);
        if diffInHours < 24 then HoursAgo(diffInHours)
        else
          FloorDivTwice(now - t, MinuteMs * 60, 24);
          DaysAgo(diffInHours / 24)
  }

  /** Flooring twice is flooring once by the product. */
  lemma FloorDivTwice(d: int, a: int, b: int)
    requires a > 0 && b > 0
    ensures d / a / b == d / (a * b)
    ensures (d / (a * b)) * (a * b) <= d < (d / (a * b) + 1) * (a * b)
  {
    var q := d / a;
    var p := q / b;
    DivBounds(d, a);
    DivBounds(q, b);
    MulMonotone(p * b, q, a);
    MulMonotone(q, p * b + b - 1, a);
    assert p * b * a == p * (a * b);
    assert (p * b + b - 1) * a + a == p * (a * b) + a * b;
    DivUnique(d, a * b, p);
    DivBounds(d, a * b);
    assert (d / (a * b) + 1) * (a * b) == d / (a * b) * (a * b) + a * b;
  }

  /** Euclidean division by a positive divisor brackets the dividend. */
  lemma DivBounds(d: int, m: int)
    requires m > 0
    ensures (d / m) * m <= d < (d / m) * m + m
  {
  }

  lemma MulMonotone(x: int, y: int, a: int)
    requires x <= y && a > 0
    ensures x * a <= y * a
  {
  }

  lemma DivUnique(d: int, m: int, p: int)
    requires m > 0 && p * m <= d < p * m + m
    ensures d / m == p
  {
    var q := d / m;
    DivBounds(d, m);
    if q < p {
      MulMonotone(q + 1, p, m);
      assert false;
    } else if q > p {
      MulMonotone(p + 1, q, m);
      assert false;
    }
  }

  /** The unit letter of an "...ago" text. */
  function UnitLetter(r: Age): char {
    match r
    case JustNow => ' '
    case MinutesAgo(_) => 'm'
    case HoursAgo(_) => 'h'
    case DaysAgo(_) => 'd'
    case NaNDaysAgo => 'd'
  }

  /**
   * The text shown under an entry: "Just now", or a number, a unit letter
   * and " ago", where the number is "NaN" exactly for an unparsable timestamp.
   */
  function AgeText(r: Age): (s: string)
    ensures r.JustNow? <==> s == "Just now"
    ensures !r.JustNow? ==> |s| >= 6 && s[|s| - 4..] == " ago" && s[|s| - 5] == UnitLetter(r)
    ensures !r.JustNow? ==> (r.NaNDaysAgo? <==> s[0] == 'N')
  {
    match r
    case JustNow => "Just now"
    case MinutesAgo(m) => NumberAgo(m, 'm')
    case HoursAgo(h) => NumberAgo(h, 'h')
    case DaysAgo(d) => NumberAgo(d, 'd')
    case NaNDaysAgo => "NaNd ago"
  }

  function NumberAgo(n: nat, unit: char): (s: string)
    ensures s == Text.NatToString(n) + ([unit] + " ago")
    ensures |s| >= 6 && s[|s| - 1] == 'o' && s != "Just now" && '0' <= s[0] <= '9'
  {
    var s := Text.NatToString(n) + ([unit] + " ago");
    assert s[|s| - 1] == 'o';
    s
  }

  /** Different ages never render to the same text. */
  lemma AgeTextInjective(a: Age, b: Age)
    ensures AgeText(a) == AgeText(b) ==> a == b
  {
    if AgeText(a) == AgeText(b) && !a.JustNow? && !b.JustNow? {
      var n := |AgeText(a)|;
      assert UnitLetter(a) == AgeText(a)[n - 5] == UnitLetter(b);
      assert a.NaNDaysAgo? == b.NaNDaysAgo?;
      if a.MinutesAgo? {
        Text.SuffixCancel(Text.NatToString(a.minutes), Text.NatToString(b.minutes), ['m'] + " ago");
        Text.NatToStringInjective(a.minutes, b.minutes);
      } else if a.HoursAgo? {
        Text.SuffixCancel(Text.NatToString(a.hours), Text.NatToString(b.hours), ['h'] + " ago");
        Text.NatToStringInjective(a.hours, b.hours);
      } else if a.DaysAgo? {
        Text.SuffixCancel(Text.NatToString(a.days), Text.NatToString(b.days), ['d'] + " ago");
        Text.NatToStringInjective(a.days, b.days);
      }
    }
  }

  /** `formatRelativeTime(timestamp)` at time `now`. */
  function FormatRelativeTime(timestamp: Option<int>, now: int): string {
    AgeText(AgeOf(timestamp, now))
  }

  function Rank(r: Age): nat {
    match r
    case JustNow => 0
    case MinutesAgo(_) => 1
    case HoursAgo(_) => 2
    case DaysAgo(_) => 3
    case NaNDaysAgo => 4
  }

  /**
   * An older timestamp never reads as more recent: its unit is at least as
   * coarse, and in the same unit its number is at least as large.
   */
  lemma OlderIsNeverMoreRecent(t1: int, t2: int, now: int)
    requires t1 <= t2
    ensures Rank(AgeOf(Some(t1), now)) >= Rank(AgeOf(Some(t2), now))
    ensures AgeOf(Some(t1), now).MinutesAgo? && AgeOf(Some(t2), now).MinutesAgo? ==>
      AgeOf(Some(t1), now).minutes >= AgeOf(Some(t2), now).minutes
    ensures AgeOf(Some(t1), now).HoursAgo? && AgeOf(Some(t2), now).HoursAgo? ==>
      AgeOf(Some(t1), now).hours >= AgeOf(Some(t2), now).hours
    ensures AgeOf(Some(t1), now).DaysAgo? && AgeOf(Some(t2), now).DaysAgo? ==>
      AgeOf(Some(t1), now).days >= AgeOf(Some(t2), now).days
  {
    DivMonotone(now - t2, now - t1, MinuteMs);
    DivMonotone((now - t2) / MinuteMs, (now - t1) / MinuteMs, 60);
    DivMonotone((now - t2) / MinuteMs / 60, (now - t1) / MinuteMs / 60, 24);
  }

  lemma DivMonotone(x: int, y: int, m: int)
    requires x <= y && m > 0
    ensures x / m <= y / m
  {
    if x / m > y / m {
      assert (y / m + 1) * m <= (x / m) * m by {
        MulMonotone(y / m + 1, x / m, m);
      }
    }
  }

  class PickupNotifications {
    var notifications: seq<PanelNotification>
    var isExpanded: bool
    /** Ids of the entries whose `onAction` callback ran, oldest first. */
    var actionsRun: seq<string>
    const maxVisible: int

    constructor (initial: seq<PanelNotification>, maxVisible: int)
      ensures notifications == initial && !isExpanded && actionsRun == []
      ensures this.maxVisible == maxVisible
    {
      notifications := initial;
      isExpanded := false;
      actionsRun := [];
      this.maxVisible := maxVisible;
    }

    /** `visibleNotifications`. */
    function VisibleNotifications(): seq<PanelNotification>
      reads this
    {
      Visible(notifications, isExpanded, maxVisible)
    }

    /** The badge counts the unread entries of the whole list, shown or not. */
    function Unread(): nat
      reads this
    {
      UnreadCount(notifications)
    }

    method MarkAsRead(id: string)
      modifies this
      ensures notifications == MarkRead(old(notifications), id)
      ensures isExpanded == old(isExpanded) && actionsRun == old(actionsRun)
    {
      notifications := MarkRead(notifications, id);
    }

    /** The close button of an entry: every entry with its id goes. */
    method DismissNotification(id: string)
      modifies this
      ensures notifications == Dismiss(old(notifications), id)
      ensures isExpanded == old(isExpanded) && actionsRun == old(actionsRun)
    {
      notifications := Dismiss(notifications, id);
    }

    /** "Show All" / "Show Less", a button that exists only for a list longer than `maxVisible`. */
    method ToggleExpanded()
      requires ShowAllOffered(notifications, maxVisible)
      modifies this
      ensures isExpanded == !old(isExpanded)
      ensures notifications == old(notifications) && actionsRun == old(actionsRun)
    {
      isExpanded := !isExpanded;
    }

    /**
     * The action button, rendered only for an entry with a non-empty label:
     * the entry's callback runs first, if it has one, then the entry is
     * marked read.
     */
    method HandleAction(n: PanelNotification)
      requires TruthyString(n.action.actionLabel)
      modifies this
      ensures actionsRun == old(actionsRun) + (if n.action.hasCallback then [n.id] else [])
      ensures notifications == MarkRead(old(notifications), n.id)
      ensures isExpanded == old(isExpanded)
    {
      if n.action.hasCallback {
        actionsRun := actionsRun + [n.id];
      }
      MarkAsRead(n.id);
    }
  }
}
