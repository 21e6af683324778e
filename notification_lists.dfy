/**
 * The notification-list operations the two notification components share:
 * each keeps its notifications as a list and replaces it with `map` (mark
 * read) or `filter` (dismiss), counts the unread entries with `filter`, and
 * shows a prefix of the list with `slice`. A notification's kind and its
 * optional action differ between the components, so they are type
 * parameters here.
 */
module NotificationLists {
  import opened Wrappers
  import opened Sequences

  datatype Notification<K, A> = Notification(
    id: string,
    kind: K,
    title: string,
    message: string,
    timestamp: string,
    isRead: bool,
    pickupId: Option<string>,
    action: A
  )

  predicate IsUnread<K, A>(n: Notification<K, A>) {
    !n.isRead
  }

  /** `notifications.filter(n => !n.isRead).length`. */
  function UnreadCount<K, A>(ns: seq<Notification<K, A>>): (c: nat)
    ensures c == |Filter(ns, IsUnread)|
    ensures c <= |ns|
    ensures c == 0 <==> forall i :: 0 <= i < |ns| ==> ns[i].isRead
  {
    CountZero(ns, IsUnread);
    Count(ns, IsUnread)
  }

  /**
   * `markAsRead(id)`: the entries with that id become read; every other
   * entry, and every other field, is left as it was, in the same order.
   */
  function MarkRead<K, A>(ns: seq<Notification<K, A>>, id: string): (r: seq<Notification<K, A>>)
    ensures |r| == |ns|
    ensures forall i :: 0 <= i < |ns| ==> r[i].isRead == (ns[i].isRead || ns[i].id == id)
    ensures forall i :: 0 <= i < |ns| ==> r[i].(isRead := ns[i].isRead) == ns[i]
  {
    if ns == [] then []
    else [if ns[0].id == id then ns[0].(isRead := true) else ns[0]] + MarkRead(ns[1..], id)
  }

  /** Marking the same id read twice is marking it once. */
  lemma MarkReadIdempotent<K, A>(ns: seq<Notification<K, A>>, id: string)
    ensures MarkRead(MarkRead(ns, id), id) == MarkRead(ns, id)
  {
    var once := MarkRead(ns, id);
    var twice := MarkRead(once, id);
    forall i | 0 <= i < |ns|
      ensures twice[i] == once[i]
    {
      assert twice[i].(isRead := once[i].isRead) == once[i];
    }
  }

  /**
   * Marking `id` read lowers the unread count by exactly the number of unread
   * entries with that id, so it never raises it.
   */
  lemma {:induction false} MarkReadUnreadCount<K, A>(ns: seq<Notification<K, A>>, id: string)
    ensures UnreadCount(MarkRead(ns, id)) == UnreadCount(ns) - Count(ns, (n: Notification<K, A>) => !n.isRead && n.id == id)
    ensures UnreadCount(MarkRead(ns, id)) <= UnreadCount(ns)
  {
    if ns != [] {
      MarkReadUnreadCount(ns[1..], id);
      assert MarkRead(ns, id)[1..] == MarkRead(ns[1..], id);
    }
  }

  /** `markAllAsRead`: every entry becomes read, nothing else changes. */
  function MarkAllRead<K, A>(ns: seq<Notification<K, A>>): (r: seq<Notification<K, A>>)
    ensures |r| == |ns|
    ensures forall i :: 0 <= i < |ns| ==> r[i].isRead && r[i].(isRead := ns[i].isRead) == ns[i]
  {
    if ns == [] then [] else [ns[0].(isRead := true)] + MarkAllRead(ns[1..])
  }

  /** After marking all read, nothing is unread. */
  lemma MarkAllReadClearsUnread<K, A>(ns: seq<Notification<K, A>>)
    ensures UnreadCount(MarkAllRead(ns)) == 0
  {
  }

  /**
   * `dismissNotification(id)`: every entry with that id is removed and the
   * others are kept in their order.
   */
  function Dismiss<K, A>(ns: seq<Notification<K, A>>, id: string): (r: seq<Notification<K, A>>)
    ensures |r| <= |ns|
    ensures forall i :: 0 <= i < |r| ==> r[i].id != id
    ensures IsSubsequence(r, ns)
    ensures r == Filter(ns, (n: Notification<K, A>) => n.id != id)
  {
    if ns == [] then []
    else if ns[0].id == id then Dismiss(ns[1..], id)
    else [ns[0]] + Dismiss(ns[1..], id)
  }

  /** An entry survives a dismissal exactly when it was there and has another id. */
  lemma {:induction false} DismissMembership<K, A>(ns: seq<Notification<K, A>>, id: string, n: Notification<K, A>)
    ensures n in Dismiss(ns, id) <==> n in ns && n.id != id
  {
    if ns != [] {
      DismissMembership(ns[1..], id, n);
      assert ns == [ns[0]] + ns[1..];
    }
  }

  /** Dismissing an id no entry has leaves the list as it is. */
  lemma {:induction false} DismissAbsent<K, A>(ns: seq<Notification<K, A>>, id: string)
    requires forall i :: 0 <= i < |ns| ==> ns[i].id != id
    ensures Dismiss(ns, id) == ns
  {
    if ns != [] {
      DismissAbsent(ns[1..], id);
    }
  }

  /** `s.slice(0, end)`: a negative end counts from the back of the list. */
  function SliceTo<T>(s: seq<T>, end: int): (r: seq<T>)
    ensures end >= 0 ==> |r| == Min(end, |s|)
    ensures end < 0 ==> |r| == Max(0, |s| + end)
    ensures |r| <= |s| && r == s[..|r|]
  {
    if end >= |s| then s
    else if end >= 0 then s[..end]
    else if |s| + end >= 0 then s[..|s| + end]
    else []
  }

  function Min(a: int, b: int): int {
    if a <= b then a else b
  }

  function Max(a: int, b: int): int {
    if a >= b then a else b
  }

  /** The entries on screen: all of them when expanded, else the first `maxVisible`. */
  function Visible<K, A>(ns: seq<Notification<K, A>>, expanded: bool, maxVisible: int): (r: seq<Notification<K, A>>)
    ensures |r| <= |ns| && r == ns[..|r|]
    ensures expanded ==> r == ns
    ensures !expanded && maxVisible >= 0 ==> |r| == Min(maxVisible, |ns|)
  {
    if expanded then ns else SliceTo(ns, maxVisible)
  }

  /** The show-all toggle is offered when the list is longer than `maxVisible`. */
  predicate ShowAllOffered<K, A>(ns: seq<Notification<K, A>>, maxVisible: int) {
    |ns| > maxVisible
  }

  /**
   * Without the toggle nothing is hidden: for a non-negative `maxVisible`,
   * entries are left off the screen only when the toggle is offered.
   */
  lemma NothingHiddenWithoutToggle<K, A>(ns: seq<Notification<K, A>>, expanded: bool, maxVisible: int)
    requires maxVisible >= 0
    ensures Visible(ns, expanded, maxVisible) != ns ==> ShowAllOffered(ns, maxVisible) && !expanded
  {
  }

  /** Unread entries are counted on the whole list, so the badge never undercounts the screen. */
  lemma {:induction false} UnreadCountCoversVisible<K, A>(ns: seq<Notification<K, A>>, expanded: bool, maxVisible: int)
    ensures UnreadCount(Visible(ns, expanded, maxVisible)) <= UnreadCount(ns)
  {
    CountPrefix(ns, |Visible(ns, expanded, maxVisible)|, IsUnread);
  }
}
