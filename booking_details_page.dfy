/** The customer's booking details page
    (src/pages/customer/BookingDetailsPage.tsx): one appointment, with a
    Cancel button while it is pending and a Leave Review button once it is
    completed. */
module BookingDetailsPage {
  import opened Wrappers
  import opened Types
  import opened Strings
  import Appointments
  import Properties
  import Auth
  import Notifications
  import NotificationService
  import Lifecycle

  /** What the page shows for the appointment in the address. */
  datatype BookingView =
    | NotFound
    | Details(appointment: Appointment, property: Property, agent: Option<User>)

  /** The page draws the details only when the appointment, its property and
      a signed-in user all exist; otherwise it says the booking was not found. */
  function View(appointments: seq<Appointment>, properties: seq<Property>, users: seq<User>,
                currentUser: Option<User>, id: Id): (v: BookingView)
    ensures v.Details? <==>
              currentUser.Some? && Appointments.GetAppointmentById(appointments, id).Some? &&
              Properties.GetPropertyById(properties, Appointments.GetAppointmentById(appointments, id).value.propertyId).Some?
    ensures v.Details? ==>
              v.appointment == Appointments.GetAppointmentById(appointments, id).value &&
              v.property in properties && v.property.id == v.appointment.propertyId &&
              v.property == Properties.GetPropertyById(properties, v.appointment.propertyId).value &&
              v.agent == Auth.FindUser(users, v.appointment.agentId)
  {
    match Appointments.GetAppointmentById(appointments, id)
    case None => NotFound
    case Some(a) =>
      match Properties.GetPropertyById(properties, a.propertyId)
      case None => NotFound
      case Some(p) => if currentUser.None? then NotFound else Details(a, p, Auth.FindUser(users, a.agentId))
  }

  /** `canCancel`. */
  predicate CanCancel(v: BookingView) {
    v.Details? && v.appointment.status == AppointmentStatus.Pending
  }

  /** `canReview`. */
  predicate CanReview(v: BookingView) {
    v.Details? && v.appointment.status == AppointmentStatus.Completed
  }

  /** The two buttons are never offered together, nothing is offered without
      the details, and Cancel follows the appointment lifecycle. */
  lemma OffersAgreeWithLifecycle(v: BookingView)
    ensures !(CanCancel(v) && CanReview(v))
    ensures v.NotFound? ==> !CanCancel(v) && !CanReview(v)
    ensures v.Details? ==>
              (CanCancel(v) <==> Lifecycle.AppointmentOffered(v.appointment.status, Lifecycle.Cancel)) &&
              (CanReview(v) <==> Lifecycle.IsFinal(v.appointment.status) &&
                                 v.appointment.status != AppointmentStatus.Cancelled)
  {
  }

  /** The notification to the agent, when the agent is one of the users. */
  function AgentNotices(v: BookingView, reason: string, noteId: Id, now: Time): (r: seq<Notification>)
    requires v.Details?
    ensures |r| == if v.agent.Some? then 1 else 0
    ensures forall n :: n in r ==>
              n.userId == v.agent.value.id && n.kind == NotificationType.Warning &&
              EndsWith(n.message, "Reason: " + reason) &&
              n.link == Some("/customer/bookings/" + v.appointment.id)
  {
    match v.agent
    case None => []
    case Some(agent) =>
      [Notifications.NewNotification(
         NotificationService.Draft(NotificationService.AppointmentCancelled(agent.id, v.property.title, reason, v.appointment.id)),
         noteId, now)]
  }

  /** `handleCancel` with `cancelReason` typed in the dialog.  A reason made
      only of white space changes nothing; otherwise the appointment is
      cancelled with the reason exactly as typed, untrimmed, and the agent is
      notified if found.  The status is not checked again here. */
  method HandleCancel(appts: Appointments.AppointmentStore, notes: Notifications.NotificationStore,
                      properties: seq<Property>, users: seq<User>, currentUser: Option<User>,
                      id: Id, cancelReason: string, noteId: Id, now: Time)
    requires appts.Valid() && notes.Valid()
    modifies appts, notes
    ensures appts.Valid() && notes.Valid()
    ensures var v := View(old(appts.appointments), properties, users, currentUser, id);
      if v.NotFound? || IsBlank(cancelReason) then
        appts.appointments == old(appts.appointments) && notes.notifications == old(notes.notifications)
      else
        appts.appointments == Appointments.UpdatedAppointments(old(appts.appointments), v.appointment.id,
                                                              Appointments.CancelPatch(cancelReason), now) &&
        notes.notifications == old(notes.notifications) + AgentNotices(v, cancelReason, noteId, now)
  {
    var v := View(appts.appointments, properties, users, currentUser, id);
    if v.NotFound? {
      return;
    }
    TrimEmptyIffBlank(cancelReason);
    if Trim(cancelReason) == [] {
      return;
    }
    appts.CancelAppointment(v.appointment.id, cancelReason, now);
    if v.agent.Some? {
      var n := NotificationService.Notify(notes,
        NotificationService.AppointmentCancelled(v.agent.value.id, v.property.title, cancelReason, v.appointment.id),
        noteId, now);
    }
  }
}
