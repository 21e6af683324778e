/**
 * The header's notification bell (src/components/NotificationDropdown.tsx):
 * an open flag and a list of notifications that the "mark read" actions
 * replace, with the unread badge and the type label derived from them.
 */
module NotificationDropdownModel {
  import opened Wrappers
  import Text
  import opened NotificationLists

  datatype Kind = PickupScheduled | PickupAssigned | PickupInProgress | PickupCompleted | PickupCancelled | DriverMessage

  function KindName(k: Kind): string {
    match k
    case PickupScheduled => "pickup_scheduled"
    case PickupAssigned => "pickup_assigned"
    case PickupInProgress => "pickup_in_progress"
    case PickupCompleted => "pickup_completed"
    case PickupCancelled => "pickup_cancelled"
    case DriverMessage => "driver_message"
  }

  /** The bell's notifications carry no action. */
  type BellNotification = Notification<Kind, ()>

  /**
   * The badge over the bell: absent when nothing is unread, "9+" above nine,
   * the count itself otherwise.
   */
  function BadgeText(count: nat): (r: Option<string>)
    ensures r.Some? <==> count > 0
    ensures r == Some("9+") <==> count > 9
    ensures r.Some? ==> 1 <= |r.value| <= 2
    ensures 0 < count <= 9 ==> r == Some([Text.DigitChar(count)])
  {
    if count == 0 then None
    else if count > 9 then Some("9+")
    else Some(Text.NatToString(count))
  }

  /** Counts up to nine get badges of their own; all larger counts share "9+". */
  lemma BadgeDistinguishesSmallCounts(a: nat, b: nat)
    requires a <= 9 && b <= 9
    ensures BadgeText(a) == BadgeText(b) <==> a == b
  {
    if a != b && a > 0 && b > 0 {
      assert Text.NatToString(a)[0] != Text.NatToString(b)[0];
    }
  }

  /** The label under each entry: the kind's name with its first `_` turned into a space. */
  function TypeLabel(k: Kind): (r: string)
    ensures |r| == |KindName(k)|
    ensures Text.IndexOf(KindName(k), '_') < |r| && r[Text.IndexOf(KindName(k), '_')] == ' '
    ensures forall j :: 0 <= j < |r| && j != Text.IndexOf(KindName(k), '_') ==> r[j] == KindName(k)[j]
    ensures ' ' in r
  {
    var name := KindName(k);
    assert name[6] == '_';
    var r := Text.ReplaceFirst(name, '_', ' ');
    assert r[Text.IndexOf(name, '_')] == ' ';
    r
  }

  /**
   * Only the first underscore goes: "pickup_in_progress" is labelled
   * "pickup in_progress", with a space at 6 and the underscore at 9 kept.
   */
  lemma TypeLabelKeepsSecondUnderscore()
    ensures var r := TypeLabel(PickupInProgress);
      |r| == 18 && r[6] == ' ' && r[9] == '_'
  {
    var name := KindName(PickupInProgress);
    Text.IndexOfFirst(name, '_', 6);
  }

  /** `formatTime`: the timestamp text is shown as it is. */
  function FormatTime(timestamp: string): (r: string)
    ensures r == timestamp
  {
    timestamp
  }

  class NotificationDropdown {
    var isOpen: bool
    var notifications: seq<BellNotification>

    constructor (initial: seq<BellNotification>)
      ensures !isOpen && notifications == initial
    {
      isOpen := false;
      notifications := initial;
    }

    /** The badge for the current list. */
    function Badge(): Option<string>
      reads this
    {
      BadgeText(UnreadCount(notifications))
    }

    /** Clicking an entry: that id becomes read, the rest of the state stays. */
    method MarkAsRead(id: string)
      modifies this
      ensures notifications == MarkRead(old(notifications), id)
      ensures isOpen == old(isOpen)
      ensures UnreadCount(notifications) <= UnreadCount(old(notifications))
    {
      MarkReadUnreadCount(notifications, id);
      notifications := MarkRead(notifications, id);
    }

    /** "Mark all read": every entry becomes read and the badge disappears. */
    method MarkAllAsRead()
      modifies this
      ensures notifications == MarkAllRead(old(notifications))
      ensures isOpen == old(isOpen)
      ensures Badge().None?
    {
      notifications := MarkAllRead(notifications);
    }

    /** The bell button flips the dropdown open or closed. */
    method Toggle()
      modifies this
      ensures isOpen == !old(isOpen) && notifications == old(notifications)
    {
      isOpen := !isOpen;
    }

    /** The backdrop and the close button close the dropdown. */
    method Close()
      modifies this
      ensures !isOpen && notifications == old(notifications)
    {
      isOpen := false;
    }
  }
}
