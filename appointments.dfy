/** The appointment store (src/store/appointmentStore.ts): the list of all
    bookings, written through to storage on every change. */
module Appointments {
  import opened Wrappers
  import opened Types
  import Seqs

  /** `getAppointmentById`: the first appointment with that id. */
  function GetAppointmentById(appointments: seq<Appointment>, id: Id): (r: Option<Appointment>)
    ensures r.None? <==> forall a :: a in appointments ==> a.id != id
    ensures r.Some? ==> r.value in appointments && r.value.id == id
    ensures r.Some? ==> forall j :: 0 <= j < |appointments| && appointments[j].id == id ==>
                          Seqs.FirstIndex(appointments, (a: Appointment) => a.id == id) <= j
    ensures r.Some? ==> r.value == appointments[Seqs.FirstIndex(appointments, (a: Appointment) => a.id == id)]
  {
    Seqs.Find(appointments, (a: Appointment) => a.id == id)
  }

  /** `getAppointmentsByCustomer`. */
  function GetAppointmentsByCustomer(appointments: seq<Appointment>, customerId: Id): (r: seq<Appointment>)
    ensures forall a :: a in r <==> a in appointments && a.customerId == customerId
    ensures Seqs.IsFilterOf(r, appointments, (a: Appointment) => a.customerId == customerId)
  {
    Seqs.FilterIsFilterOf(appointments, (a: Appointment) => a.customerId == customerId);
    Seqs.Filter(appointments, (a: Appointment) => a.customerId == customerId)
  }

  /** `getAppointmentsByAgent`. */
  function GetAppointmentsByAgent(appointments: seq<Appointment>, agentId: Id): (r: seq<Appointment>)
    ensures forall a :: a in r <==> a in appointments && a.agentId == agentId
    ensures Seqs.IsFilterOf(r, appointments, (a: Appointment) => a.agentId == agentId)
  {
    Seqs.FilterIsFilterOf(appointments, (a: Appointment) => a.agentId == agentId);
    Seqs.Filter(appointments, (a: Appointment) => a.agentId == agentId)
  }

  /** `getAppointmentsByProperty`. */
  function GetAppointmentsByProperty(appointments: seq<Appointment>, propertyId: Id): (r: seq<Appointment>)
    ensures forall a :: a in r <==> a in appointments && a.propertyId == propertyId
    ensures Seqs.IsFilterOf(r, appointments, (a: Appointment) => a.propertyId == propertyId)
  {
    Seqs.FilterIsFilterOf(appointments, (a: Appointment) => a.propertyId == propertyId);
    Seqs.Filter(appointments, (a: Appointment) => a.propertyId == propertyId)
  }

  /** The record `createAppointment` stores: the draft with a fresh id and
      timestamps, and status `pending` whatever status the draft carried. */
  function NewAppointment(draft: AppointmentDraft, id: Id, now: Time): (a: Appointment)
    ensures a.status == AppointmentStatus.Pending
    ensures a.id == id && a.createdAt == now && a.updatedAt == now
    ensures a.propertyId == draft.propertyId && a.customerId == draft.customerId
    ensures a.agentId == draft.agentId && a.date == draft.date && a.time == draft.time
    ensures a.specialRequests == draft.specialRequests
    ensures a.cancellationReason == draft.cancellationReason
  {
    Appointment(id, draft.propertyId, draft.customerId, draft.agentId, draft.date, draft.time,
                AppointmentStatus.Pending, draft.specialRequests, draft.cancellationReason, now, now)
  }

  /** One record after `updateAppointment`: merged and re-stamped. */
  function Stamped(a: Appointment, updates: AppointmentPatch, now: Time): Appointment {
    MergeAppointment(a, updates).(updatedAt := now)
  }

  /** The list after `updateAppointment(id, updates)`: the records with that id
      merged and re-stamped, every other record and the length unchanged. */
  function UpdatedAppointments(appointments: seq<Appointment>, id: Id, updates: AppointmentPatch, now: Time)
    : (r: seq<Appointment>)
    ensures |r| == |appointments|
    ensures forall i :: 0 <= i < |r| && appointments[i].id == id ==>
              r[i] == Stamped(appointments[i], updates, now)
    ensures forall i :: 0 <= i < |r| && appointments[i].id != id ==> r[i] == appointments[i]
    ensures (forall a :: a in appointments ==> a.id != id) ==> r == appointments
  {
    Seqs.MapWhere(appointments, (a: Appointment) => a.id == id, (a: Appointment) => Stamped(a, updates, now))
  }

  /** The update `cancelAppointment` sends. */
  function CancelPatch(reason: string): AppointmentPatch {
    NoAppointmentChange.(status := Put(AppointmentStatus.Cancelled), cancellationReason := Put(Some(reason)))
  }

  /** The list after `cancelAppointment(id, reason)`: whatever its prior status,
      each record with that id is cancelled with exactly that reason. */
  lemma CancelledAppointments(appointments: seq<Appointment>, id: Id, reason: string, now: Time)
    ensures var r := UpdatedAppointments(appointments, id, CancelPatch(reason), now);
      |r| == |appointments| &&
      (forall i :: 0 <= i < |r| && appointments[i].id == id ==>
         r[i] == appointments[i].(status := AppointmentStatus.Cancelled,
                                  cancellationReason := Some(reason), updatedAt := now)) &&
      (forall i :: 0 <= i < |r| && appointments[i].id != id ==> r[i] == appointments[i])
  {
  }

  /** Still open for a visit: neither `cancelled` nor `completed`. */
  predicate IsOpen(a: Appointment) {
    a.status != AppointmentStatus.Cancelled && a.status != AppointmentStatus.Completed
  }

  const PropertyUnavailable := "Property no longer available"

  function ForceCancelled(a: Appointment, now: Time): Appointment {
    a.(status := AppointmentStatus.Cancelled, cancellationReason := Some(PropertyUnavailable), updatedAt := now)
  }

  /** The list after `cancelAppointmentsByProperty(propertyId)`. */
  function CancelledByProperty(appointments: seq<Appointment>, propertyId: Id, now: Time): (r: seq<Appointment>)
    ensures |r| == |appointments|
    ensures forall i :: 0 <= i < |r| && appointments[i].propertyId == propertyId && IsOpen(appointments[i]) ==>
              r[i] == ForceCancelled(appointments[i], now)
    ensures forall i :: 0 <= i < |r| && !(appointments[i].propertyId == propertyId && IsOpen(appointments[i])) ==>
              r[i] == appointments[i]
  {
    Seqs.MapWhere(appointments, (a: Appointment) => a.propertyId == propertyId && IsOpen(a),
                  (a: Appointment) => ForceCancelled(a, now))
  }

  /** Afterwards no appointment of the property is pending or confirmed, and
      each of them that was is now cancelled as unavailable. */
  lemma CancelledByPropertyClosesAll(appointments: seq<Appointment>, propertyId: Id, now: Time)
    ensures var r := CancelledByProperty(appointments, propertyId, now);
      (forall a :: a in r && a.propertyId == propertyId ==> !IsOpen(a)) &&
      (forall i | 0 <= i < |r| && appointments[i].propertyId == propertyId &&
                  appointments[i].status in {AppointmentStatus.Pending, AppointmentStatus.Confirmed} ::
         r[i].status == AppointmentStatus.Cancelled && r[i].cancellationReason == Some(PropertyUnavailable))
  {
    var r := CancelledByProperty(appointments, propertyId, now);
    forall a | a in r && a.propertyId == propertyId ensures !IsOpen(a) {
      var i :| 0 <= i < |r| && r[i] == a;
    }
  }

  /** A second `cancelAppointmentsByProperty` for the same property, at any
      later time, changes nothing. */
  lemma CancelledByPropertyIdempotent(appointments: seq<Appointment>, propertyId: Id, now: Time, later: Time)
    ensures var once := CancelledByProperty(appointments, propertyId, now);
      CancelledByProperty(once, propertyId, later) == once
  {
    var once := CancelledByProperty(appointments, propertyId, now);
    var twice := CancelledByProperty(once, propertyId, later);
    forall i | 0 <= i < |once| ensures twice[i] == once[i] {
      if appointments[i].propertyId == propertyId && IsOpen(appointments[i]) {
        assert !IsOpen(once[i]);
      }
    }
  }

  class AppointmentStore {
    var appointments: seq<Appointment>
    /** The copy under the appointments storage key. */
    ghost var persisted: seq<Appointment>

    ghost predicate Valid()
      reads this
    {
      persisted == appointments
    }

    constructor ()
      ensures appointments == [] && Valid()
    {
      appointments := [];
      persisted := [];
    }

    /** `initializeAppointments`: loads whatever storage holds. */
    method InitializeAppointments(stored: seq<Appointment>)
      modifies this
      ensures appointments == stored && Valid()
    {
      appointments := stored;
      persisted := stored;
    }

    /** `createAppointment`: appends one pending record and returns it. */
    method CreateAppointment(draft: AppointmentDraft, id: Id, now: Time) returns (a: Appointment)
      modifies this
      ensures a == NewAppointment(draft, id, now)
      ensures appointments == old(appointments) + [a] && Valid()
    {
      a := NewAppointment(draft, id, now);
      appointments := appointments + [a];
      persisted := appointments;
    }

    /** `updateAppointment`. */
    method UpdateAppointment(id: Id, updates: AppointmentPatch, now: Time)
      modifies this
      ensures appointments == UpdatedAppointments(old(appointments), id, updates, now) && Valid()
    {
      appointments := UpdatedAppointments(appointments, id, updates, now);
      persisted := appointments;
    }

    /** `cancelAppointment`: an update, with no check of the prior status. */
    method CancelAppointment(id: Id, reason: string, now: Time)
      modifies this
      ensures appointments == UpdatedAppointments(old(appointments), id, CancelPatch(reason), now) && Valid()
    {
      UpdateAppointment(id, CancelPatch(reason), now);
    }

    /** `cancelAppointmentsByProperty`. */
    method CancelAppointmentsByProperty(propertyId: Id, now: Time)
      modifies this
      ensures appointments == CancelledByProperty(old(appointments), propertyId, now) && Valid()
    {
      appointments := CancelledByProperty(appointments, propertyId, now);
      persisted := appointments;
    }
  }
}
