// The notification bell: a list of notifications that can be marked read
// one by one or all at once, and removed.

module NotificationCenter {
  import opened Common

  datatype Kind = Info | Warning | Success | Error

  datatype Notification = Notification(
    id: string, kind: Kind, title: string, message: string, timestamp: int, read: bool)

  /** `unreadCount` */
  function UnreadCount(ns: seq<Notification>): (r: nat)
    ensures r <= |ns|
    ensures r == 0 <==> forall i :: 0 <= i < |ns| ==> ns[i].read
  {
    if ns == [] then 0 else (if ns[0].read then 0 else 1) + UnreadCount(ns[1..])
  }

  /** One notification after `markAsRead(id)`: only its read flag can change, and only to true. */
  function ReadIf(n: Notification, id: string): (r: Notification)
    ensures r.(read := n.read) == n
    ensures r.read <==> n.read || n.id == id
  {
    if n.id == id then n.(read := true) else n
  }

  /** The list after `markAsRead(id)`. */
  function MarkRead(ns: seq<Notification>, id: string): (r: seq<Notification>)
    ensures |r| == |ns|
    ensures forall i :: 0 <= i < |ns| ==>
      r[i] == (if ns[i].id == id then ns[i].(read := true) else ns[i])
  {
    Map(ns, n => ReadIf(n, id))
  }

  /** The list after "Mark all as read". */
  function MarkAllRead(ns: seq<Notification>): (r: seq<Notification>)
    ensures |r| == |ns|
    ensures forall i :: 0 <= i < |ns| ==> r[i] == ns[i].(read := true)
  {
    Map(ns, (n: Notification) => n.(read := true))
  }

  /** The list after `removeNotification(id)`. */
  function Remove(ns: seq<Notification>, id: string): (r: seq<Notification>)
    ensures forall n :: n in r <==> n in ns && n.id != id
    ensures IsSubsequence(r, ns)
    ensures |r| == CountWhere(ns, (n: Notification) => n.id != id)
  {
    FilterIsSubsequence(ns, (n: Notification) => n.id != id);
    Filter(ns, (n: Notification) => n.id != id)
  }

  // ---------------------------------------------------------------------
  // Properties of the list operations

  lemma MarkReadIdempotent(ns: seq<Notification>, id: string)
    ensures MarkRead(MarkRead(ns, id), id) == MarkRead(ns, id)
  {
  }

  /** Marking one id read never raises the unread count, and lowers it by the unread matches. */
  lemma {:induction false} MarkReadCount(ns: seq<Notification>, id: string)
    ensures UnreadCount(MarkRead(ns, id)) == UnreadCount(ns) - CountWhere(ns, (n: Notification) => n.id == id && !n.read)
  {
    if ns != [] {
      MarkReadCount(ns[1..], id);
      assert MarkRead(ns, id)[1..] == MarkRead(ns[1..], id);
    }
  }

  lemma MarkAllReadClears(ns: seq<Notification>)
    ensures UnreadCount(MarkAllRead(ns)) == 0
  {
  }

  /** Removing never raises the unread count. */
  lemma {:induction false} RemoveCount(ns: seq<Notification>, id: string)
    ensures UnreadCount(Remove(ns, id)) <= UnreadCount(ns)
  {
    if ns != [] {
      RemoveCount(ns[1..], id);
      var p := (n: Notification) => n.id != id;
      assert Remove(ns, id) == Filter(ns, p);
      assert Remove(ns[1..], id) == Filter(ns[1..], p);
    }
  }

  // ---------------------------------------------------------------------
  // The component

  class NotificationCenter {
    var isOpen: bool
    var notifications: seq<Notification>

    /** The three sample notifications, stamped 2, 5 and 12 minutes before `now`. */
    constructor(now: int)
      ensures !isOpen && |notifications| == 3
      ensures notifications[0].id == "1" && notifications[1].id == "2" && notifications[2].id == "3"
      ensures notifications[0].timestamp == now - 120000 && notifications[1].timestamp == now - 300000
      ensures notifications[2].timestamp == now - 720000
      ensures UnreadCount(notifications) == 2
    {
      isOpen := false;
      notifications := [
        Notification("1", Info, "ISS Position Updated",
          "International Space Station telemetry data has been refreshed", now - 2 * 60 * 1000, false),
        Notification("2", Kind.Success, "Orbital Prediction Complete",
          "Next visible pass calculated for your location", now - 5 * 60 * 1000, false),
        Notification("3", Warning, "Data Sync Delay",
          "Slight delay in satellite data synchronization detected", now - 12 * 60 * 1000, true)
      ];
    }

    method Toggle()
      modifies this
      ensures isOpen == !old(isOpen) && notifications == old(notifications)
    {
      isOpen := !isOpen;
    }

    /** The backdrop and the close button. */
    method Close()
      modifies this
      ensures !isOpen && notifications == old(notifications)
    {
      isOpen := false;
    }

    /** `markAsRead(id)` */
    method MarkAsRead(id: string)
      modifies this
      ensures notifications == MarkRead(old(notifications), id) && isOpen == old(isOpen)
      ensures UnreadCount(notifications) <= UnreadCount(old(notifications))
    {
      MarkReadCount(notifications, id);
      notifications := MarkRead(notifications, id);
    }

    /** `removeNotification(id)` */
    method RemoveNotification(id: string)
      modifies this
      ensures notifications == Remove(old(notifications), id) && isOpen == old(isOpen)
      ensures UnreadCount(notifications) <= UnreadCount(old(notifications))
    {
      RemoveCount(notifications, id);
      notifications := Remove(notifications, id);
    }

    /** The "Mark all as read" button. */
    method MarkAllAsRead()
      modifies this
      ensures notifications == MarkAllRead(old(notifications)) && isOpen == old(isOpen)
      ensures UnreadCount(notifications) == 0
    {
      notifications := MarkAllRead(notifications);
      MarkAllReadClears(old(notifications));
    }
  }
}
