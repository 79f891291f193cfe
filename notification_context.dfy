/** The notification provider: the signed-in user's notifications, their
    unread count and the loading flag, refreshed from the backend and updated
    when a notification is marked as read. */
module NotificationContext {

  import opened Wrappers
  import opened Common
  import opened Seqs
  import SupabaseService

  function IsUnread(n: Notification): bool { !n.read }

  /** The number of unread notifications in `ns`. */
  function UnreadCount(ns: seq<Notification>): (r: nat)
    ensures r <= |ns|
    ensures r == 0 <==> forall i :: 0 <= i < |ns| ==> ns[i].read
  {
    var u := Filter(ns, IsUnread);
    assert u == [] <==> forall i :: 0 <= i < |ns| ==> ns[i].read by {
      if u != [] {
        assert u[0] in ns;
      }
      if exists i :: 0 <= i < |ns| && !ns[i].read {
        var i :| 0 <= i < |ns| && !ns[i].read;
        assert ns[i] in u;
      }
    }
    |u|
  }

  /** No notifications, nothing unread. */
  lemma UnreadCountEmpty()
    ensures UnreadCount([]) == 0
  {
  }

  /** One more notification adds one to the count exactly when it is unread. */
  lemma UnreadCountSnoc(ns: seq<Notification>, n: Notification)
    ensures UnreadCount(ns + [n]) == UnreadCount(ns) + (if n.read then 0 else 1)
  {
    FilterSnoc(ns, n, IsUnread);
  }

  class NotificationProvider {
    var notifications: seq<Notification>
    var unreadCount: nat
    var isLoading: bool

    /** The count shown is the number of unread notifications held. */
    ghost predicate Valid()
      reads this
    {
      unreadCount == UnreadCount(notifications)
    }

    constructor ()
      ensures Valid() && notifications == [] && unreadCount == 0 && !isLoading
    {
      notifications, unreadCount, isLoading := [], 0, false;
    }

    /** `fetchNotifications`: without a user everything is cleared and
        nothing is fetched; otherwise the user's notifications replace the
        held ones, unless the fetch fails, and loading ends either way. */
    method FetchNotifications(user: Option<User>, backend: SupabaseService.Backend, fault: bool)
      requires Valid()
      modifies this
      ensures Valid()
      ensures user.None? ==> notifications == [] && unreadCount == 0 && isLoading == old(isLoading)
      ensures user.Some? ==> !isLoading
      ensures user.Some? ==>
                var fetched := backend.GetNotificationsByUser(user.value.id, fault);
                if fetched.Ok? then notifications == fetched.value
                else notifications == old(notifications) && unreadCount == old(unreadCount)
    {
      if user.None? {
        notifications, unreadCount := [], 0;
        return;
      }
      isLoading := true;
      var fetched := backend.GetNotificationsByUser(user.value.id, fault);
      if fetched.Ok? {
        notifications := fetched.value;
        unreadCount := UnreadCount(fetched.value);
      }
      isLoading := false;
    }

    /** `markAsRead`: marks the notification in the backend, then refetches;
        a failed mark changes nothing here and skips the refetch. */
    method MarkAsRead(id: string, user: Option<User>, backend: SupabaseService.Backend, markFault: bool, fetchFault: bool)
      requires Valid()
      modifies this, backend`notifications
      ensures Valid()
      ensures markFault ==>
                backend.notifications == old(backend.notifications) &&
                notifications == old(notifications) && unreadCount == old(unreadCount) && isLoading == old(isLoading)
      ensures !markFault ==> backend.notifications == SupabaseService.MarkRead(old(backend.notifications), id)
      ensures !markFault && user.None? ==> notifications == [] && unreadCount == 0
      ensures !markFault && user.Some? ==>
                var fetched := backend.GetNotificationsByUser(user.value.id, fetchFault);
                !isLoading &&
                if fetched.Ok? then notifications == fetched.value
                else notifications == old(notifications) && unreadCount == old(unreadCount)
    {
      var error := backend.MarkNotificationAsRead(id, markFault);
      if error.Some? {
        return;
      }
      FetchNotifications(user, backend, fetchFault);
    }
  }
}
