/** The notification store (src/store/notificationStore.ts): in-app messages
    to users, written through to storage on every change. */
module Notifications {
  import opened Wrappers
  import opened Types
  import Seqs

  predicate IsUnreadOf(n: Notification, userId: Id) {
    n.userId == userId && !n.read
  }

  /** `getUnreadCount(userId)`: how many of the user's notifications are unread. */
  function GetUnreadCount(notifications: seq<Notification>, userId: Id): (r: nat)
    ensures r == Seqs.Count(notifications, (n: Notification) => IsUnreadOf(n, userId))
    ensures r == 0 <==> forall n :: n in notifications ==> !IsUnreadOf(n, userId)
    ensures r <= |notifications|
  {
    var p := (n: Notification) => IsUnreadOf(n, userId);
    var f := Seqs.Filter(notifications, p);
    Seqs.FilterLength(notifications, p);
    assert forall n :: n in f <==> n in notifications && IsUnreadOf(n, userId);
    assert f != [] ==> f[0] in f;
    |f|
  }

  /** `getNotificationsByUser(userId)`: exactly the user's notifications, every
      one of them and no other, newest first. */
  function GetNotificationsByUser(notifications: seq<Notification>, userId: Id): (r: seq<Notification>)
    ensures Seqs.SortedDesc(r, (n: Notification) => n.createdAt)
    ensures forall n :: multiset(r)[n] == if n.userId == userId then multiset(notifications)[n] else 0
    ensures forall n :: n in r <==> n in notifications && n.userId == userId
  {
    var mine := Seqs.Filter(notifications, (n: Notification) => n.userId == userId);
    var r := Seqs.SortDesc(mine, (n: Notification) => n.createdAt);
    forall n ensures multiset(r)[n] == if n.userId == userId then multiset(notifications)[n] else 0 {
      Seqs.FilterMultiset(notifications, (n: Notification) => n.userId == userId, n);
    }
    assert forall n :: n in r <==> n in multiset(r);
    r
  }

  /** The record `createNotification` stores: unread, with a fresh id and time. */
  function NewNotification(draft: NotificationDraft, id: Id, now: Time): (n: Notification)
    ensures !n.read && n.id == id && n.createdAt == now
    ensures n.userId == draft.userId && n.kind == draft.kind && n.title == draft.title
    ensures n.message == draft.message && n.link == draft.link
  {
    Notification(id, draft.userId, draft.kind, draft.title, draft.message, false, draft.link, now)
  }

  /** Appending a notification raises its recipient's unread count by exactly
      one and leaves every other user's count as it was. */
  lemma {:induction false} CreateNotificationCounts(notifications: seq<Notification>, draft: NotificationDraft,
                                                    id: Id, now: Time, userId: Id)
    ensures var after := notifications + [NewNotification(draft, id, now)];
      GetUnreadCount(after, userId) ==
        GetUnreadCount(notifications, userId) + if userId == draft.userId then 1 else 0
  {
    var n := NewNotification(draft, id, now);
    var p := (x: Notification) => IsUnreadOf(x, userId);
    Seqs.FilterConcat(notifications, [n], p);
    Seqs.FilterLength(notifications + [n], p);
    Seqs.FilterLength(notifications, p);
  }

  /** The list after `markAsRead(id)`: only that id is read; nothing else,
      not even a timestamp, changes. */
  function MarkedAsRead(notifications: seq<Notification>, id: Id): (r: seq<Notification>)
    ensures |r| == |notifications|
    ensures forall i :: 0 <= i < |r| && notifications[i].id == id ==> r[i] == notifications[i].(read := true)
    ensures forall i :: 0 <= i < |r| && notifications[i].id != id ==> r[i] == notifications[i]
  {
    Seqs.MapWhere(notifications, (n: Notification) => n.id == id, (n: Notification) => n.(read := true))
  }

  /** Marking as read twice is marking once. */
  lemma MarkedAsReadIdempotent(notifications: seq<Notification>, id: Id)
    ensures MarkedAsRead(MarkedAsRead(notifications, id), id) == MarkedAsRead(notifications, id)
  {
    var once := MarkedAsRead(notifications, id);
    assert forall i :: 0 <= i < |once| ==> MarkedAsRead(once, id)[i] == once[i];
  }

  /** The list after `markAllAsRead(userId)`. */
  function MarkedAllAsRead(notifications: seq<Notification>, userId: Id): (r: seq<Notification>)
    ensures |r| == |notifications|
    ensures forall i :: 0 <= i < |r| && notifications[i].userId == userId ==>
              r[i] == notifications[i].(read := true)
    ensures forall i :: 0 <= i < |r| && notifications[i].userId != userId ==> r[i] == notifications[i]
  {
    Seqs.MapWhere(notifications, (n: Notification) => n.userId == userId, (n: Notification) => n.(read := true))
  }

  /** After `markAllAsRead(userId)` the user has no unread notification and any
      other user's unread count is unchanged. */
  lemma MarkedAllAsReadCounts(notifications: seq<Notification>, userId: Id, other: Id)
    requires other != userId
    ensures GetUnreadCount(MarkedAllAsRead(notifications, userId), userId) == 0
    ensures GetUnreadCount(MarkedAllAsRead(notifications, userId), other) == GetUnreadCount(notifications, other)
  {
    var r := MarkedAllAsRead(notifications, userId);
    forall n | n in r ensures !IsUnreadOf(n, userId) {
      var i :| 0 <= i < |r| && r[i] == n;
    }
    UnreadCountPointwise(notifications, r, other);
  }

  /** Two lists that agree on whose-and-unread element by element have the same count. */
  lemma {:induction false} UnreadCountPointwise(a: seq<Notification>, b: seq<Notification>, userId: Id)
    requires |a| == |b|
    requires forall i :: 0 <= i < |a| ==> IsUnreadOf(a[i], userId) == IsUnreadOf(b[i], userId)
    ensures GetUnreadCount(a, userId) == GetUnreadCount(b, userId)
    decreases |a|
  {
    if a != [] {
      UnreadCountPointwise(a[1..], b[1..], userId);
    }
  }

  /** The list after `deleteNotification(id)`. */
  function DeletedNotifications(notifications: seq<Notification>, id: Id): (r: seq<Notification>)
    ensures forall n :: n in r <==> n in notifications && n.id != id
    ensures Seqs.IsFilterOf(r, notifications, (n: Notification) => n.id != id)
  {
    Seqs.FilterIsFilterOf(notifications, (n: Notification) => n.id != id);
    Seqs.Filter(notifications, (n: Notification) => n.id != id)
  }

  class NotificationStore {
    var notifications: seq<Notification>
    /** The copy under the notifications storage key. */
    ghost var persisted: seq<Notification>

    ghost predicate Valid()
      reads this
    {
      persisted == notifications
    }

    constructor ()
      ensures notifications == [] && Valid()
    {
      notifications := [];
      persisted := [];
    }

    /** `initializeNotifications`. */
    method InitializeNotifications(stored: seq<Notification>)
      modifies this
      ensures notifications == stored && Valid()
    {
      notifications := stored;
      persisted := stored;
    }

    /** `createNotification`: appends one unread record and returns it. */
    method CreateNotification(draft: NotificationDraft, id: Id, now: Time) returns (n: Notification)
      modifies this
      ensures n == NewNotification(draft, id, now)
      ensures notifications == old(notifications) + [n] && Valid()
    {
      n := NewNotification(draft, id, now);
      notifications := notifications + [n];
      persisted := notifications;
    }

    /** `markAsRead`. */
    method MarkAsRead(id: Id)
      modifies this
      ensures notifications == MarkedAsRead(old(notifications), id) && Valid()
    {
      notifications := MarkedAsRead(notifications, id);
      persisted := notifications;
    }

    /** `markAllAsRead`. */
    method MarkAllAsRead(userId: Id)
      modifies this
      ensures notifications == MarkedAllAsRead(old(notifications), userId) && Valid()
    {
      notifications := MarkedAllAsRead(notifications, userId);
      persisted := notifications;
    }

    /** `deleteNotification`. */
    method DeleteNotification(id: Id)
      modifies this
      ensures notifications == DeletedNotifications(old(notifications), id) && Valid()
    {
      notifications := DeletedNotifications(notifications, id);
      persisted := notifications;
    }
  }
}
