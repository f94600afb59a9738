/** The agent's appointment list (src/pages/agent/AgentAppointmentsPage.tsx):
    one card per booking of the signed-in agent, with a Confirm button on
    pending bookings and a Mark Complete button on confirmed ones. */
module AgentAppointmentsPage {
  import opened Wrappers
  import opened Types
  import Seqs
  import Appointments
  import Properties
  import Notifications
  import NotificationService
  import Lifecycle

  /** The appointment a handler acts on: it is looked up among the signed-in
      agent's own appointments, so another agent's booking is never found. */
  function OwnAppointment(appointments: seq<Appointment>, agentId: Id, appointmentId: Id): (r: Option<Appointment>)
    ensures r.Some? ==> r.value in appointments && r.value.agentId == agentId && r.value.id == appointmentId
    ensures r.None? <==> forall a :: a in appointments && a.agentId == agentId ==> a.id != appointmentId
    ensures var own := Appointments.GetAppointmentsByAgent(appointments, agentId);
      r.Some? ==> r.value == own[Seqs.FirstIndex(own, (a: Appointment) => a.id == appointmentId)]
  {
    Seqs.Find(Appointments.GetAppointmentsByAgent(appointments, agentId), (a: Appointment) => a.id == appointmentId)
  }

  predicate HasProperty(properties: seq<Property>, a: Appointment) {
    Properties.GetPropertyById(properties, a.propertyId).Some?
  }

  /** The cards the page draws: the agent's appointments whose property still
      exists, in stored order; a booking of a deleted listing is not shown. */
  function RenderedAppointments(appointments: seq<Appointment>, properties: seq<Property>, agentId: Id)
    : (r: seq<Appointment>)
    ensures forall a :: a in r <==>
              a in appointments && a.agentId == agentId && exists p :: p in properties && p.id == a.propertyId
    ensures Seqs.IsFilterOf(r, appointments, (a: Appointment) => a.agentId == agentId && HasProperty(properties, a))
  {
    var mine := Appointments.GetAppointmentsByAgent(appointments, agentId);
    var p := (a: Appointment) => HasProperty(properties, a);
    Seqs.FilterIsSubsequence(mine, p);
    SubsequenceTransitive(Seqs.Filter(mine, p), mine, appointments);
    forall x ensures multiset(Seqs.Filter(mine, p))[x] ==
                     if x.agentId == agentId && HasProperty(properties, x) then multiset(appointments)[x] else 0 {
      Seqs.FilterMultiset(mine, p, x);
    }
    Seqs.Filter(mine, p)
  }

  lemma {:induction false} SubsequenceTransitive<T>(a: seq<T>, b: seq<T>, c: seq<T>)
    requires Seqs.IsSubsequence(a, b) && Seqs.IsSubsequence(b, c)
    ensures Seqs.IsSubsequence(a, c)
    decreases |c|
  {
    if a != [] && c != [] {
      if b[0] == c[0] && Seqs.IsSubsequence(b[1..], c[1..]) {
        if a[0] == b[0] && Seqs.IsSubsequence(a[1..], b[1..]) {
          SubsequenceTransitive(a[1..], b[1..], c[1..]);
        } else {
          SubsequenceTransitive(a, b[1..], c[1..]);
        }
      } else {
        SubsequenceTransitive(a, b, c[1..]);
      }
    }
  }

  /** The buttons a card shows. */
  function OfferedActions(a: Appointment): (r: set<Lifecycle.AppointmentAction>)
    ensures Lifecycle.Confirm in r <==> a.status == AppointmentStatus.Pending
    ensures Lifecycle.Complete in r <==> a.status == AppointmentStatus.Confirmed
    ensures Lifecycle.Cancel !in r
    ensures forall x :: x in r ==> Lifecycle.AppointmentOffered(a.status, x)
  {
    if a.status == AppointmentStatus.Pending then {Lifecycle.Confirm}
    else if a.status == AppointmentStatus.Confirmed then {Lifecycle.Complete}
    else {}
  }

  /** `{ status: s }`, the whole update either handler sends. */
  function StatusPatch(s: AppointmentStatus): AppointmentPatch {
    NoAppointmentChange.(status := Put(s))
  }

  /** The handlers write the new status over whatever status the record had,
      re-stamp it, and change nothing else; the button shown is the only
      guard. */
  lemma StatusUpdateOnly(appointments: seq<Appointment>, id: Id, s: AppointmentStatus, now: Time)
    ensures var r := Appointments.UpdatedAppointments(appointments, id, StatusPatch(s), now);
      |r| == |appointments| &&
      forall i :: 0 <= i < |r| ==>
        r[i] == if appointments[i].id == id then appointments[i].(status := s, updatedAt := now) else appointments[i]
  {
  }

  /** The notification a handler sends about appointment `a`: to its customer,
      and only when the property can still be found. */
  function CustomerNotices(properties: seq<Property>, a: Appointment, completed: bool, noteId: Id, now: Time)
    : (r: seq<Notification>)
    ensures |r| == if HasProperty(properties, a) then 1 else 0
    ensures forall n :: n in r ==>
              n.userId == a.customerId && !n.read && n.kind == NotificationType.Success &&
              n.link == Some("/customer/bookings/" + a.id)
  {
    match Properties.GetPropertyById(properties, a.propertyId)
    case None => []
    case Some(p) =>
      var e := if completed then NotificationService.CustomerCompleted(a.customerId, p.title, a.id)
               else NotificationService.CustomerConfirmed(a.customerId, p.title, a.id);
      [Notifications.NewNotification(NotificationService.Draft(e), noteId, now)]
  }

  /** `handleConfirm(appointmentId)` for the signed-in agent `agentId`. */
  method HandleConfirm(appts: Appointments.AppointmentStore, properties: seq<Property>,
                       notes: Notifications.NotificationStore, agentId: Id, appointmentId: Id,
                       noteId: Id, now: Time)
    requires appts.Valid() && notes.Valid()
    modifies appts, notes
    ensures appts.Valid() && notes.Valid()
    ensures var found := OwnAppointment(old(appts.appointments), agentId, appointmentId);
      if found.None? then
        appts.appointments == old(appts.appointments) && notes.notifications == old(notes.notifications)
      else
        appts.appointments == Appointments.UpdatedAppointments(old(appts.appointments), appointmentId,
                                                              StatusPatch(AppointmentStatus.Confirmed), now) &&
        notes.notifications == old(notes.notifications) + CustomerNotices(properties, found.value, false, noteId, now)
  {
    var found := OwnAppointment(appts.appointments, agentId, appointmentId);
    if found.None? {
      return;
    }
    var a := found.value;
    appts.UpdateAppointment(appointmentId, StatusPatch(AppointmentStatus.Confirmed), now);
    var property := Properties.GetPropertyById(properties, a.propertyId);
    if property.Some? {
      var n := NotificationService.Notify(notes, NotificationService.CustomerConfirmed(a.customerId, property.value.title, appointmentId), noteId, now);
    }
  }

  /** `handleComplete(appointmentId)` for the signed-in agent `agentId`. */
  method HandleComplete(appts: Appointments.AppointmentStore, properties: seq<Property>,
                        notes: Notifications.NotificationStore, agentId: Id, appointmentId: Id,
                        noteId: Id, now: Time)
    requires appts.Valid() && notes.Valid()
    modifies appts, notes
    ensures appts.Valid() && notes.Valid()
    ensures var found := OwnAppointment(old(appts.appointments), agentId, appointmentId);
      if found.None? then
        appts.appointments == old(appts.appointments) && notes.notifications == old(notes.notifications)
      else
        appts.appointments == Appointments.UpdatedAppointments(old(appts.appointments), appointmentId,
                                                              StatusPatch(AppointmentStatus.Completed), now) &&
        notes.notifications == old(notes.notifications) + CustomerNotices(properties, found.value, true, noteId, now)
  {
    var found := OwnAppointment(appts.appointments, agentId, appointmentId);
    if found.None? {
      return;
    }
    var a := found.value;
    appts.UpdateAppointment(appointmentId, StatusPatch(AppointmentStatus.Completed), now);
    var property := Properties.GetPropertyById(properties, a.propertyId);
    if property.Some? {
      var n := NotificationService.Notify(notes, NotificationService.CustomerCompleted(a.customerId, property.value.title, appointmentId), noteId, now);
    }
  }
}
