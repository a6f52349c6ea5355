/**
 * js/notifications.js: the notification log (most recent first), the
 * defaults `show` fills in, the 100-entry cap applied on every save, and
 * dismissing, reading and clearing entries.
 */
module Notifications {
  import opened Wrappers
  import opened Lists
  import DataStore

  /** The number of entries `saveNotifications` keeps. */
  const MaxKept: nat := 100

  datatype Notification = Notification(
    id: string,
    kind: string,
    title: string,
    message: string,
    duration: int,
    timestamp: string,
    read: bool)

  /** The `options` object of `show`; an absent key is `None`. */
  datatype ShowOptions = ShowOptions(
    kind: Option<string>,
    title: Option<string>,
    message: Option<string>,
    duration: Option<int>)

  /** `value || fallback` on a string: absent and empty strings are falsy. */
  function OrString(v: Option<string>, fallback: string): (r: string)
    ensures v.Some? && v.value != "" ==> r == v.value
    ensures v.None? || v.value == "" ==> r == fallback
  {
    if v.Some? && v.value != "" then v.value else fallback
  }

  /** `value || fallback` on a number: absent and zero are falsy. */
  function OrInt(v: Option<int>, fallback: int): (r: int)
    ensures v.Some? && v.value != 0 ==> r == v.value
    ensures v.None? || v.value == 0 ==> r == fallback
  {
    if v.Some? && v.value != 0 then v.value else fallback
  }

  /** The entry `show` builds: id from the clock stamp, defaults for falsy options, unread. */
  function MakeNotification(options: ShowOptions, stamp: string, timestamp: string): (n: Notification)
    ensures n.id == "notification-" + stamp && n.timestamp == timestamp && !n.read
    ensures n.kind != "" && n.title != "" && n.duration != 0
    ensures options.kind.None? ==> n.kind == "info"
    ensures options.title.None? ==> n.title == "Notification"
    ensures options.message.None? ==> n.message == ""
    ensures options.duration.None? ==> n.duration == 5000
  {
    Notification(
      "notification-" + stamp,
      OrString(options.kind, "info"),
      OrString(options.title, "Notification"),
      OrString(options.message, ""),
      OrInt(options.duration, 5000),
      timestamp,
      false)
  }

  // ---------------------------------------------------------------- the cap

  /**
   * The cap as written: `slice(-100)` keeps the LAST 100 entries, but the
   * log is most recent first, so it keeps the oldest ones.
   */
  function CapAsWritten(ns: seq<Notification>): seq<Notification> {
    if |ns| > MaxKept then ns[|ns| - MaxKept..] else ns
  }

  /** With a full log, the entry `show` has just put in front is dropped at once. */
  lemma CapAsWrittenDropsNewest(log: seq<Notification>, n: Notification)
    requires |log| == MaxKept
    ensures CapAsWritten([n] + log) == log
  {
    assert ([n] + log)[1..] == log;
  }

  /** The corrected cap: keep the 100 most recent entries, which come first. */
  function Cap(ns: seq<Notification>): (r: seq<Notification>)
    ensures |r| == Min(|ns|, MaxKept) && r == ns[..|r|]
  {
    if |ns| > MaxKept then ns[..MaxKept] else ns
  }

  /** The corrected cap keeps the new entry in front and is idempotent. */
  lemma CapKeepsNewest(log: seq<Notification>, n: Notification)
    ensures |Cap([n] + log)| <= MaxKept && Cap([n] + log)[0] == n
    ensures Cap(Cap(log)) == Cap(log)
    ensures |log| < MaxKept ==> Cap([n] + log) == [n] + log
  {
  }

  // ---------------------------------------------------------------- reading

  predicate IsUnread(n: Notification) { !n.read }

  /** `getUnreadCount` on a log. */
  function UnreadCount(ns: seq<Notification>): nat { Count(ns, IsUnread) }

  /** Showing an entry under the cap adds one unread entry. */
  lemma UnreadAfterShow(log: seq<Notification>, n: Notification)
    requires !n.read && |log| < MaxKept
    ensures UnreadCount(Cap([n] + log)) == UnreadCount(log) + 1
  {
    assert ([n] + log)[1..] == log;
  }

  /** The index of the first entry with the id, as `find` locates it; -1 if none. */
  function NotificationIndex(ns: seq<Notification>, id: string): (k: int)
    ensures -1 <= k < |ns|
    ensures k == -1 <==> forall i :: 0 <= i < |ns| ==> ns[i].id != id
    ensures 0 <= k ==> ns[k].id == id && forall j :: 0 <= j < k ==> ns[j].id != id
  {
    FindFirst(ns, (n: Notification) => n.id == id)
  }

  /** The log with every entry read, as `markAllAsRead` leaves it. */
  predicate AllMarkedRead(before: seq<Notification>, after: seq<Notification>) {
    |after| == |before| && forall i :: 0 <= i < |before| ==> after[i] == before[i].(read := true)
  }

  /** After marking all as read, nothing is unread. */
  lemma MarkedReadHasNoUnread(before: seq<Notification>, after: seq<Notification>)
    requires AllMarkedRead(before, after)
    ensures UnreadCount(after) == 0
  {
    CountZero(after, IsUnread);
  }

  /**
   * `NotificationManager`'s state: the in-memory log, the log kept in local
   * storage (`None` before anything was saved) and the initialisation flag.
   */
  class NotificationManager {
    var notifications: seq<Notification>
    var stored: Option<seq<Notification>>
    var isInitialized: bool

    /** A fresh manager over whatever local storage already holds. */
    constructor (saved: Option<seq<Notification>>)
      ensures notifications == [] && stored == saved && !isInitialized
    {
      notifications := [];
      stored := saved;
      isInitialized := false;
    }

    /** `init`: once only, load the saved log when there is one. */
    method Init()
      modifies this
      ensures isInitialized && stored == old(stored)
      ensures old(isInitialized) ==> notifications == old(notifications)
      ensures !old(isInitialized) ==>
        notifications == (if stored.Some? then stored.value else old(notifications))
    {
      if isInitialized {
        return;
      }
      if stored.Some? {
        notifications := stored.value;
      }
      isInitialized := true;
    }

    /** `saveNotifications`: cap the log in memory, then store it. */
    method SaveNotifications()
      modifies this
      ensures notifications == Cap(old(notifications)) && stored == Some(notifications)
      ensures isInitialized == old(isInitialized)
    {
      notifications := Cap(notifications);
      stored := Some(notifications);
    }

    /** `show`: put the new entry in front, save, and return its id. */
    method Show(options: ShowOptions, stamp: string, timestamp: string) returns (id: string)
      modifies this
      ensures id == "notification-" + stamp
      ensures notifications == Cap([MakeNotification(options, stamp, timestamp)] + old(notifications))
      ensures notifications[0].id == id && stored == Some(notifications)
      ensures isInitialized == old(isInitialized)
    {
      var n := MakeNotification(options, stamp, timestamp);
      notifications := [n] + notifications;
      SaveNotifications();
      id := n.id;
    }

    /** `showAlert`: a warning for a new alert, shown for 7 seconds. */
    method ShowAlert(alert: DataStore.Alert, stamp: string, timestamp: string) returns (id: string)
      modifies this
      ensures id == "notification-" + stamp
      ensures notifications == Cap([MakeNotification(
        ShowOptions(Some("warning"), Some("New Alert Detected"), Some(alert.kind + " at " + alert.location), Some(7000)),
        stamp, timestamp)] + old(notifications))
      ensures stored == Some(notifications) && isInitialized == old(isInitialized)
    {
      id := Show(ShowOptions(Some("warning"), Some("New Alert Detected"), Some(alert.kind + " at " + alert.location), Some(7000)),
                 stamp, timestamp);
    }

    /** `showSuccess`: title defaults to "Success", shown for 4 seconds. */
    method ShowSuccess(message: string, title: Option<string>, stamp: string, timestamp: string) returns (id: string)
      modifies this
      ensures id == "notification-" + stamp
      ensures notifications == Cap([MakeNotification(
        ShowOptions(Some("success"), Some(title.GetOr("Success")), Some(message), Some(4000)), stamp, timestamp)]
        + old(notifications))
      ensures stored == Some(notifications) && isInitialized == old(isInitialized)
    {
      id := Show(ShowOptions(Some("success"), Some(title.GetOr("Success")), Some(message), Some(4000)), stamp, timestamp);
    }

    /** `showError`: title defaults to "Error", shown for 6 seconds. */
    method ShowError(message: string, title: Option<string>, stamp: string, timestamp: string) returns (id: string)
      modifies this
      ensures id == "notification-" + stamp
      ensures notifications == Cap([MakeNotification(
        ShowOptions(Some("error"), Some(title.GetOr("Error")), Some(message), Some(6000)), stamp, timestamp)]
        + old(notifications))
      ensures stored == Some(notifications) && isInitialized == old(isInitialized)
    {
      id := Show(ShowOptions(Some("error"), Some(title.GetOr("Error")), Some(message), Some(6000)), stamp, timestamp);
    }

    /** `showWarning`: title defaults to "Warning", shown for 5 seconds. */
    method ShowWarning(message: string, title: Option<string>, stamp: string, timestamp: string) returns (id: string)
      modifies this
      ensures id == "notification-" + stamp
      ensures notifications == Cap([MakeNotification(
        ShowOptions(Some("warning"), Some(title.GetOr("Warning")), Some(message), Some(5000)), stamp, timestamp)]
        + old(notifications))
      ensures stored == Some(notifications) && isInitialized == old(isInitialized)
    {
      id := Show(ShowOptions(Some("warning"), Some(title.GetOr("Warning")), Some(message), Some(5000)), stamp, timestamp);
    }

    /** `showInfo`: title defaults to "Information", shown for 4 seconds. */
    method ShowInfo(message: string, title: Option<string>, stamp: string, timestamp: string) returns (id: string)
      modifies this
      ensures id == "notification-" + stamp
      ensures notifications == Cap([MakeNotification(
        ShowOptions(Some("info"), Some(title.GetOr("Information")), Some(message), Some(4000)), stamp, timestamp)]
        + old(notifications))
      ensures stored == Some(notifications) && isInitialized == old(isInitialized)
    {
      id := Show(ShowOptions(Some("info"), Some(title.GetOr("Information")), Some(message), Some(4000)), stamp, timestamp);
    }

    /**
     * `dismiss`: mark the first entry with the id as read and save; an
     * unknown id changes nothing.
     */
    method Dismiss(id: string)
      modifies this
      ensures var k := NotificationIndex(old(notifications), id);
        if k == -1 then notifications == old(notifications) && stored == old(stored)
        else notifications == Cap(old(notifications)[k := old(notifications)[k].(read := true)])
             && stored == Some(notifications)
      ensures isInitialized == old(isInitialized)
    {
      var k := NotificationIndex(notifications, id);
      if k == -1 {
        return;
      }
      notifications := notifications[k := notifications[k].(read := true)];
      SaveNotifications();
    }

    /** `getUnreadCount` */
    function GetUnreadCount(): (n: nat)
      reads this
      ensures n <= |notifications|
      ensures n == 0 <==> forall i :: 0 <= i < |notifications| ==> notifications[i].read
    {
      CountZero(notifications, IsUnread);
      UnreadCount(notifications)
    }

    /** `markAllAsRead`: set `read` on every entry in place, then save. */
    method MarkAllAsRead()
      modifies this
      ensures AllMarkedRead(Cap(old(notifications)), notifications)
      ensures GetUnreadCount() == 0 && stored == Some(notifications)
      ensures isInitialized == old(isInitialized)
    {
      var i := 0;
      while i < |notifications|
        invariant 0 <= i <= |notifications| == |old(notifications)|
        invariant forall j :: 0 <= j < i ==> notifications[j] == old(notifications)[j].(read := true)
        invariant forall j :: i <= j < |notifications| ==> notifications[j] == old(notifications)[j]
        invariant isInitialized == old(isInitialized)
      {
        notifications := notifications[i := notifications[i].(read := true)];
        i := i + 1;
      }
      SaveNotifications();
      MarkedReadHasNoUnread(Cap(old(notifications)), notifications);
    }

    /** `clearAll`: empty the log and save the empty log. */
    method ClearAll()
      modifies this
      ensures notifications == [] && stored == Some([]) && isInitialized == old(isInitialized)
    {
      notifications := [];
      SaveNotifications();
    }
  }
}
