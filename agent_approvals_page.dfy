/** The admin's agent approval page (src/pages/admin/AgentApprovalsPage.tsx):
    the queue of agent applications awaiting a decision. */
module AgentApprovalsPage {
  import opened Wrappers
  import opened Types
  import opened Strings
  import Seqs
  import Auth
  import Notifications
  import NotificationService
  import Lifecycle

  /** The queue: exactly the agents whose status is `pending`, in stored order. */
  function PendingAgents(users: seq<User>): (r: seq<User>)
    ensures forall u :: u in r <==> u in users && u.role == Agent && u.status == UserStatus.Pending
    ensures Seqs.IsFilterOf(r, users, (u: User) => Lifecycle.ApplicationOffered(u))
  {
    Seqs.FilterIsFilterOf(users, (u: User) => Lifecycle.ApplicationOffered(u));
    Seqs.Filter(users, (u: User) => Lifecycle.ApplicationOffered(u))
  }

  /** A decision takes the user out of the queue and leaves every other
      applicant in it. */
  lemma DecisionLeavesQueue(users: seq<User>, userId: Id, d: Lifecycle.Decision)
    ensures var after := PendingAgents(Auth.UpdatedUsers(users, userId, Auth.StatusPatch(Lifecycle.ApplicationTarget(d))));
      (forall u :: u in after ==> u.id != userId) &&
      (forall u :: u in PendingAgents(users) && u.id != userId ==> u in after)
  {
    var updated := Auth.UpdatedUsers(users, userId, Auth.StatusPatch(Lifecycle.ApplicationTarget(d)));
    forall u | u in PendingAgents(updated) ensures u.id != userId {
      var i :| 0 <= i < |updated| && updated[i] == u;
    }
    forall u | u in PendingAgents(users) && u.id != userId ensures u in PendingAgents(updated) {
      var i :| 0 <= i < |users| && users[i] == u;
      assert updated[i] == u;
    }
  }

  /** `handleApprove(userId)`: no lookup; the status becomes `active` and the
      user is notified. */
  method HandleApprove(auth: Auth.AuthStore, notes: Notifications.NotificationStore,
                       userId: Id, noteId: Id, now: Time)
    requires notes.Valid()
    modifies auth, notes
    ensures auth.Valid() && notes.Valid()
    ensures auth.users == Auth.UpdatedUsers(old(auth.users), userId, Auth.StatusPatch(UserStatus.Active))
    ensures auth.currentUser == Auth.UpdatedSession(old(auth.currentUser), userId, Auth.StatusPatch(UserStatus.Active))
    ensures notes.notifications == old(notes.notifications) +
              [Notifications.NewNotification(NotificationService.Draft(NotificationService.AgentApproved(userId)), noteId, now)]
  {
    auth.UpdateUser(userId, Auth.StatusPatch(UserStatus.Active));
    var n := NotificationService.Notify(notes, NotificationService.AgentApproved(userId), noteId, now);
  }

  /** `handleReject(userId)` with the answer `reason` to the prompt: nothing
      for a cancelled or empty answer; otherwise the status becomes
      `rejected` and the user is told why.  The reason is not kept on the user. */
  method HandleReject(auth: Auth.AuthStore, notes: Notifications.NotificationStore,
                      userId: Id, reason: Option<string>, noteId: Id, now: Time)
    requires auth.Valid() && notes.Valid()
    modifies auth, notes
    ensures auth.Valid() && notes.Valid()
    ensures !Truthy(reason) ==>
              auth.users == old(auth.users) && auth.currentUser == old(auth.currentUser) &&
              notes.notifications == old(notes.notifications)
    ensures Truthy(reason) ==>
              auth.users == Auth.UpdatedUsers(old(auth.users), userId, Auth.StatusPatch(UserStatus.Rejected)) &&
              auth.currentUser == Auth.UpdatedSession(old(auth.currentUser), userId, Auth.StatusPatch(UserStatus.Rejected)) &&
              notes.notifications == old(notes.notifications) +
                [Notifications.NewNotification(
                   NotificationService.Draft(NotificationService.AgentRejected(userId, reason.value)), noteId, now)]
  {
    if reason.None? || reason.value == "" {
      return;
    }
    auth.UpdateUser(userId, Auth.StatusPatch(UserStatus.Rejected));
    var n := NotificationService.Notify(notes, NotificationService.AgentRejected(userId, reason.value), noteId, now);
  }
}
