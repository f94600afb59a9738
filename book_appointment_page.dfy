/** The customer's four-step booking wizard
    (src/pages/customer/BookAppointmentPage.tsx): choose a property, a date,
    a time, then confirm.  The page state is a class whose fields are the
    page's state variables. */
module BookAppointmentPage {
  import opened Wrappers
  import opened Types
  import Appointments
  import Properties
  import Auth
  import Notifications
  import NotificationService

  /** Milliseconds in a day. */
  const DayMs := 86_400_000

  /** The day number (days since 1 January 1970) of an instant in UTC: the
      date part of `toISOString()`. */
  function UtcDay(t: Time): int {
    t / DayMs
  }

  /** The day number of an instant on a clock `offset` milliseconds ahead of
      UTC: the date the customer sees, and the date the picker compares its
      minimum with. */
  function LocalDay(t: Time, offset: int): int {
    (t + offset) / DayMs
  }

  /** `getMinDate()` at the instant `now`: one day is added on the local
      clock (24 hours when no daylight-saving change falls in between), then
      the UTC date is taken. */
  function MinBookingDay(now: Time): (r: int)
    ensures r == UtcDay(now) + 1
  {
    UtcDay(now + DayMs)
  }

  /** On a clock that keeps UTC the minimum is the customer's tomorrow. */
  lemma MinBookingDayAtUtc(now: Time)
    ensures MinBookingDay(now) == LocalDay(now, 0) + 1
  {
  }

  /** East of UTC, between local midnight and UTC midnight, the minimum is
      the customer's own today. */
  lemma MinBookingDayEastOfUtc(now: Time, offset: int)
    requires 0 <= offset < DayMs
    requires UtcDay(now) < LocalDay(now, offset)
    ensures MinBookingDay(now) == LocalDay(now, offset)
  {
  }

  /** West of UTC, between UTC midnight and local midnight, the minimum is
      the day after the customer's tomorrow. */
  lemma MinBookingDayWestOfUtc(now: Time, offset: int)
    requires -DayMs < offset <= 0
    requires LocalDay(now, offset) < UtcDay(now)
    ensures MinBookingDay(now) == LocalDay(now, offset) + 2
  {
  }

  /** At 07:00 in Manila (UTC+8), 23:00 UTC on the day before, the picker
      already allows the customer's today. */
  lemma ManilaMorning()
    ensures var now, offset := 82_800_000, 8 * 3_600_000;
      LocalDay(now, offset) == 1 && MinBookingDay(now) == 1
  {
  }

  /** The minimum `getMinDate` is evidently meant to give: the customer's
      tomorrow, whatever the time zone. */
  function LocalMinBookingDay(now: Time, offset: int): (r: int)
    ensures r == LocalDay(now, offset) + 1
  {
    LocalDay(now + DayMs, offset)
  }

  /** The property the wizard has selected, looked up in the whole list. */
  function SelectedProperty(properties: seq<Property>, selectedPropertyId: string): (r: Option<Property>)
    ensures selectedPropertyId == "" ==> r.None?
    ensures r.Some? ==> r.value in properties && r.value.id == selectedPropertyId
    ensures selectedPropertyId != "" && (exists p :: p in properties && p.id == selectedPropertyId) ==> r.Some?
    ensures selectedPropertyId != "" ==> r == Properties.GetPropertyById(properties, selectedPropertyId)
  {
    if selectedPropertyId == "" then None else Properties.GetPropertyById(properties, selectedPropertyId)
  }

  /** What `handleSubmit` hands to `createAppointment`: the agent comes from the
      property, the customer is the signed-in user, the status is pending,
      and empty special requests are left out. */
  function BookingDraft(property: Property, customer: User, date: string, time: string,
                        specialRequests: string): (d: AppointmentDraft)
    ensures d.propertyId == property.id && d.agentId == property.agentId && d.customerId == customer.id
    ensures d.date == date && d.time == time && d.status == AppointmentStatus.Pending
    ensures d.specialRequests == if specialRequests == "" then None else Some(specialRequests)
    ensures d.cancellationReason.None?
  {
    AppointmentDraft(property.id, customer.id, property.agentId, date, time, AppointmentStatus.Pending,
                     if specialRequests == "" then None else Some(specialRequests), None)
  }

  /** The appointment a submission stores copies the agent of the property
      it books, whatever the property's status: the wizard offers only the
      active listings, but the submission does not check again. */
  lemma BookedAgentIsPropertyAgent(property: Property, customer: User, date: string, time: string,
                                   specialRequests: string, id: Id, now: Time)
    ensures var a := Appointments.NewAppointment(BookingDraft(property, customer, date, time, specialRequests), id, now);
      a.agentId == property.agentId && a.propertyId == property.id && a.customerId == customer.id &&
      a.status == AppointmentStatus.Pending && a.cancellationReason.None?
  {
  }

  class BookingWizard {
    var step: int
    var selectedPropertyId: string
    var selectedDate: string
    var selectedTime: string
    var specialRequests: string

    /** The wizard is always on one of its four steps. */
    predicate Valid()
      reads this
    {
      1 <= step <= 4
    }

    /** The page opened with the `propertyId` query parameter, if any: a
      given property skips the first step. */
    constructor (propertyIdParam: Option<string>)
      ensures Valid()
      ensures step == if propertyIdParam.Some? && propertyIdParam.value != "" then 2 else 1
      ensures selectedPropertyId == if propertyIdParam.Some? then propertyIdParam.value else ""
      ensures selectedDate == "" && selectedTime == "" && specialRequests == ""
    {
      step := if propertyIdParam.Some? && propertyIdParam.value != "" then 2 else 1;
      selectedPropertyId := if propertyIdParam.Some? then propertyIdParam.value else "";
      selectedDate := "";
      selectedTime := "";
      specialRequests := "";
    }

    /** The input the current step asks for is still empty. */
    predicate StepIncomplete()
      reads this
    {
      (step == 1 && selectedPropertyId == "") ||
      (step == 2 && selectedDate == "") ||
      (step == 3 && selectedTime == "")
    }

    method SelectProperty(id: string)
      modifies this`selectedPropertyId
      ensures selectedPropertyId == id
    {
      selectedPropertyId := id;
    }

    method SelectDate(date: string)
      modifies this`selectedDate
      ensures selectedDate == date
    {
      selectedDate := date;
    }

    method SelectTime(time: string)
      modifies this`selectedTime
      ensures selectedTime == time
    {
      selectedTime := time;
    }

    method SetSpecialRequests(text: string)
      modifies this`specialRequests
      ensures specialRequests == text
    {
      specialRequests := text;
    }

    /** `handleNext`: stays put while the current step's input is missing,
      and never goes past the fourth step. */
    method HandleNext()
      requires Valid()
      modifies this`step
      ensures Valid()
      ensures old(StepIncomplete()) ==> step == old(step)
      ensures !old(StepIncomplete()) ==> step == if old(step) < 4 then old(step) + 1 else 4
    {
      if step == 1 && selectedPropertyId == "" {
        return;
      }
      if step == 2 && selectedDate == "" {
        return;
      }
      if step == 3 && selectedTime == "" {
        return;
      }
      if step < 4 {
        step := step + 1;
      }
    }

    /** `handleBack`: one step back, never before the first. */
    method HandleBack()
      requires Valid()
      modifies this`step
      ensures Valid()
      ensures step == if old(step) > 1 then old(step) - 1 else 1
    {
      if step > 1 {
        step := step - 1;
      }
    }

    /** `handleSubmit`: nothing without a selected property or a signed-in
      user; otherwise one pending appointment is appended and the property's
      agent, when found among the users, is told about it. */
    method HandleSubmit(appts: Appointments.AppointmentStore, notes: Notifications.NotificationStore,
                        properties: seq<Property>, users: seq<User>, currentUser: Option<User>,
                        appointmentId: Id, noteId: Id, now: Time) returns (booked: Option<Appointment>)
      requires appts.Valid() && notes.Valid()
      modifies appts, notes
      ensures appts.Valid() && notes.Valid()
      ensures var p := SelectedProperty(properties, selectedPropertyId);
        if p.None? || currentUser.None? then
          booked.None? && appts.appointments == old(appts.appointments) &&
          notes.notifications == old(notes.notifications)
        else
          booked == Some(Appointments.NewAppointment(
                      BookingDraft(p.value, currentUser.value, selectedDate, selectedTime, specialRequests),
                      appointmentId, now)) &&
          appts.appointments == old(appts.appointments) + [booked.value] &&
          notes.notifications == old(notes.notifications) +
            (match Auth.FindUser(users, p.value.agentId)
             case None => []
             case Some(agent) =>
               [Notifications.NewNotification(
                  NotificationService.Draft(NotificationService.AgentNewBooking(
                    agent.id, currentUser.value.name, p.value.title, booked.value.id)),
                  noteId, now)])
    {
      var selected := SelectedProperty(properties, selectedPropertyId);
      if selected.None? || currentUser.None? {
        return None;
      }
      var property := selected.value;
      var customer := currentUser.value;
      var a := appts.CreateAppointment(
        BookingDraft(property, customer, selectedDate, selectedTime, specialRequests), appointmentId, now);
      booked := Some(a);
      var agent := Auth.FindUser(users, property.agentId);
      if agent.Some? {
        var n := NotificationService.Notify(notes,
          NotificationService.AgentNewBooking(agent.value.id, customer.name, property.title, a.id), noteId, now);
      }
    }
  }
}
