/** The notification service (src/services/notificationService.ts): each of
    its ten `notify*` functions turns one application event into exactly one
    notification, created through the notification store. */
module NotificationService {
  import opened Wrappers
  import opened Types
  import opened Strings
  import Notifications

  /** One call of a `notify*` function, with its arguments. */
  datatype Event =
    | AgentNewBooking(agentId: Id, customerName: string, propertyTitle: string, appointmentId: Id)
    | CustomerConfirmed(customerId: Id, propertyTitle: string, appointmentId: Id)
    | CustomerCompleted(customerId: Id, propertyTitle: string, appointmentId: Id)
    | AppointmentCancelled(userId: Id, propertyTitle: string, reason: string, appointmentId: Id)
    | AdminNewProperty(adminId: Id, agentName: string, propertyTitle: string)
    | AgentPropertyApproved(agentId: Id, propertyTitle: string)
    | AgentPropertyRejected(agentId: Id, propertyTitle: string, reason: string)
    | AgentApproved(agentId: Id)
    | AgentRejected(agentId: Id, reason: string)
    | AgentNewReview(agentId: Id, customerName: string, propertyTitle: string, rating: int)
  {
    predicate ToAgent() {
      AgentNewBooking? || AgentPropertyApproved? || AgentPropertyRejected? ||
      AgentApproved? || AgentRejected? || AgentNewReview?
    }
    predicate ToCustomer() {
      CustomerConfirmed? || CustomerCompleted?
    }
    predicate CarriesReason() {
      AppointmentCancelled? || AgentPropertyRejected? || AgentRejected?
    }
  }

  /** A message that closes with the reason given. */
  function WithReason(text: string, reason: string): (m: string)
    ensures EndsWith(m, "Reason: " + reason)
    ensures |m| == |text| + |"Reason: " + reason|
  {
    text + ("Reason: " + reason)
  }

  /** The user each `notify*` function addresses. */
  function Recipient(e: Event): (id: Id)
    ensures e.ToAgent() ==> id == e.agentId
    ensures e.ToCustomer() ==> id == e.customerId
    ensures e.AppointmentCancelled? ==> id == e.userId
    ensures e.AdminNewProperty? ==> id == e.adminId
  {
    match e
    case CustomerConfirmed(customerId, _, _) => customerId
    case CustomerCompleted(customerId, _, _) => customerId
    case AppointmentCancelled(userId, _, _, _) => userId
    case AdminNewProperty(adminId, _, _) => adminId
    case _ => e.agentId
  }

  /** The notification type: news is `info`, good news `success`, a
      cancellation a `warning` and a rejection an `error`. */
  function Kind(e: Event): (k: NotificationType)
    ensures k == NotificationType.Info <==> e.AgentNewBooking? || e.AdminNewProperty? || e.AgentNewReview?
    ensures k == NotificationType.Success <==>
              e.CustomerConfirmed? || e.CustomerCompleted? || e.AgentPropertyApproved? || e.AgentApproved?
    ensures k == NotificationType.Warning <==> e.AppointmentCancelled?
    ensures k == NotificationType.Error <==> e.AgentPropertyRejected? || e.AgentRejected?
  {
    match e
    case AgentNewBooking(_, _, _, _) => NotificationType.Info
    case CustomerConfirmed(_, _, _) => NotificationType.Success
    case CustomerCompleted(_, _, _) => NotificationType.Success
    case AppointmentCancelled(_, _, _, _) => NotificationType.Warning
    case AdminNewProperty(_, _, _) => NotificationType.Info
    case AgentPropertyApproved(_, _) => NotificationType.Success
    case AgentPropertyRejected(_, _, _) => NotificationType.Error
    case AgentApproved(_) => NotificationType.Success
    case AgentRejected(_, _) => NotificationType.Error
    case AgentNewReview(_, _, _, _) => NotificationType.Info
  }

  function Title(e: Event): string {
    match e
    case AgentNewBooking(_, _, _, _) => "New Appointment Request"
    case CustomerConfirmed(_, _, _) => "Appointment Confirmed"
    case CustomerCompleted(_, _, _) => "Appointment Completed"
    case AppointmentCancelled(_, _, _, _) => "Appointment Cancelled"
    case AdminNewProperty(_, _, _) => "New Property Submission"
    case AgentPropertyApproved(_, _) => "Property Approved"
    case AgentPropertyRejected(_, _, _) => "Property Rejected"
    case AgentApproved(_) => "Agent Application Approved"
    case AgentRejected(_, _) => "Agent Application Rejected"
    case AgentNewReview(_, _, _, _) => "New Review"
  }

  /** The message text; the three events that carry a reason end with it. */
  function Message(e: Event): (m: string)
    ensures e.CarriesReason() ==> EndsWith(m, "Reason: " + e.reason)
  {
    match e
    case AgentNewBooking(_, customerName, propertyTitle, _) =>
      customerName + " has requested to view " + propertyTitle
    case CustomerConfirmed(_, propertyTitle, _) =>
      "Your appointment to view " + propertyTitle + " has been confirmed"
    case CustomerCompleted(_, propertyTitle, _) =>
      "Your viewing of " + propertyTitle + " is complete. Please leave a review!"
    case AppointmentCancelled(_, propertyTitle, reason, _) =>
      WithReason("Appointment for " + propertyTitle + " has been cancelled. ", reason)
    case AdminNewProperty(_, agentName, propertyTitle) =>
      agentName + " has submitted " + propertyTitle + " for approval"
    case AgentPropertyApproved(_, propertyTitle) =>
      "Your property " + propertyTitle + " has been approved and is now visible to customers"
    case AgentPropertyRejected(_, propertyTitle, reason) =>
      WithReason("Your property " + propertyTitle + " has been rejected. ", reason)
    case AgentApproved(_) =>
      "Congratulations! Your agent application has been approved. You can now start listing properties."
    case AgentRejected(_, reason) =>
      WithReason("Your agent application has been rejected. ", reason)
    case AgentNewReview(_, customerName, propertyTitle, rating) =>
      customerName + " left a " + IntToString(rating) + "-star review for " + propertyTitle
  }

  /** The page the notification opens; an agent rejection opens none. */
  function Link(e: Event): (l: Option<string>)
    ensures l.None? <==> e.AgentRejected?
    ensures e.AppointmentCancelled? ==> l == Some("/customer/bookings/" + e.appointmentId)
  {
    match e
    case AgentNewBooking(_, _, _, appointmentId) => Some("/agent/appointments/" + appointmentId)
    case CustomerConfirmed(_, _, appointmentId) => Some("/customer/bookings/" + appointmentId)
    case CustomerCompleted(_, _, appointmentId) => Some("/customer/bookings/" + appointmentId)
    case AppointmentCancelled(_, _, _, appointmentId) => Some("/customer/bookings/" + appointmentId)
    case AdminNewProperty(_, _, _) => Some("/admin/properties")
    case AgentPropertyApproved(_, _) => Some("/agent/properties")
    case AgentPropertyRejected(_, _, _) => Some("/agent/properties")
    case AgentApproved(_) => Some("/agent/dashboard")
    case AgentRejected(_, _) => None
    case AgentNewReview(_, _, _, _) => Some("/agent/performance")
  }

  /** The record each `notify*` function hands to `createNotification`. */
  function Draft(e: Event): (d: NotificationDraft)
    ensures e.ToAgent() ==> d.userId == e.agentId
    ensures e.ToCustomer() ==> d.userId == e.customerId
    ensures e.AppointmentCancelled? ==> d.userId == e.userId
    ensures e.AdminNewProperty? ==> d.userId == e.adminId
    ensures d.kind == NotificationType.Info <==> e.AgentNewBooking? || e.AdminNewProperty? || e.AgentNewReview?
    ensures d.kind == NotificationType.Success <==>
              e.CustomerConfirmed? || e.CustomerCompleted? || e.AgentPropertyApproved? || e.AgentApproved?
    ensures d.kind == NotificationType.Warning <==> e.AppointmentCancelled?
    ensures d.kind == NotificationType.Error <==> e.AgentPropertyRejected? || e.AgentRejected?
    ensures e.CarriesReason() ==> EndsWith(d.message, "Reason: " + e.reason)
    ensures d.link.None? <==> e.AgentRejected?
    ensures e.AppointmentCancelled? ==> d.link == Some("/customer/bookings/" + e.appointmentId)
  {
    NotificationDraft(Recipient(e), Kind(e), Title(e), Message(e), Link(e))
  }

  /** A notification goes to the event's recipient, and raises that user's
      unread count, and no one else's, by one. */
  lemma NotifyCounts(notifications: seq<Notification>, e: Event, id: Id, now: Time, userId: Id)
    ensures Draft(e).userId == Recipient(e)
    ensures var after := notifications + [Notifications.NewNotification(Draft(e), id, now)];
      Notifications.GetUnreadCount(after, userId) ==
        Notifications.GetUnreadCount(notifications, userId) + if userId == Recipient(e) then 1 else 0
  {
    Notifications.CreateNotificationCounts(notifications, Draft(e), id, now, userId);
  }

  /** A `notify*` call: one `createNotification`, and nothing else. */
  method Notify(store: Notifications.NotificationStore, e: Event, id: Id, now: Time) returns (n: Notification)
    modifies store
    ensures n == Notifications.NewNotification(Draft(e), id, now)
    ensures store.notifications == old(store.notifications) + [n] && store.Valid()
  {
    n := store.CreateNotification(Draft(e), id, now);
  }
}
