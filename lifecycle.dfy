/** The status lifecycles the pages enforce.  The stores accept any update;
    what keeps a record on its path is which buttons a page offers for which
    status:
      - appointments: Confirm for `pending` and Mark Complete for `confirmed`
        (src/pages/agent/AgentAppointmentsPage.tsx), Cancel for `pending`
        (src/pages/customer/BookingDetailsPage.tsx);
      - properties: Approve and Reject for `pending`
        (src/pages/admin/AdminPropertiesPage.tsx);
      - agent applications: Approve and Reject for pending agents
        (src/pages/admin/AgentApprovalsPage.tsx). */
module Lifecycle {
  import opened Wrappers
  import opened Types

  // ------------------------------------------------------------ appointments

  datatype AppointmentAction = Confirm | Complete | Cancel

  /** Whether some page offers the action for an appointment in status `s`. */
  predicate AppointmentOffered(s: AppointmentStatus, a: AppointmentAction) {
    match a
    case Confirm => s == AppointmentStatus.Pending
    case Complete => s == AppointmentStatus.Confirmed
    case Cancel => s == AppointmentStatus.Pending
  }

  /** The status the action's handler writes. */
  function AppointmentTarget(a: AppointmentAction): AppointmentStatus {
    match a
    case Confirm => AppointmentStatus.Confirmed
    case Complete => AppointmentStatus.Completed
    case Cancel => AppointmentStatus.Cancelled
  }

  /** The status after a sequence of actions taken through the pages, or None
      as soon as one of them is not offered. */
  function RunAppointment(s: AppointmentStatus, actions: seq<AppointmentAction>): Option<AppointmentStatus>
    decreases |actions|
  {
    if actions == [] then Some(s)
    else if AppointmentOffered(s, actions[0]) then RunAppointment(AppointmentTarget(actions[0]), actions[1..])
    else None
  }

  /** How far along its path an appointment is. */
  function AppointmentRank(s: AppointmentStatus): nat {
    match s
    case Pending => 0
    case Confirmed => 1
    case Completed => 2
    case Cancelled => 2
  }

  /** `completed` and `cancelled` are final: no page offers anything for them. */
  predicate IsFinal(s: AppointmentStatus) {
    s == AppointmentStatus.Completed || s == AppointmentStatus.Cancelled
  }

  /** Every offered action moves the appointment strictly forward, and nothing
      is offered at the end of the path. */
  lemma OfferedAdvances(s: AppointmentStatus, a: AppointmentAction)
    ensures AppointmentOffered(s, a) ==> AppointmentRank(AppointmentTarget(a)) > AppointmentRank(s)
    ensures IsFinal(s) ==> !AppointmentOffered(s, a)
  {
  }

  /** A run of offered actions is at most as long as the path still ahead. */
  lemma {:induction false} RunIsShort(s: AppointmentStatus, actions: seq<AppointmentAction>)
    ensures RunAppointment(s, actions).Some? ==>
              |actions| + AppointmentRank(s) <= 2 &&
              AppointmentRank(s) + |actions| <= AppointmentRank(RunAppointment(s, actions).value)
    decreases |actions|
  {
    if actions != [] && AppointmentOffered(s, actions[0]) {
      RunIsShort(AppointmentTarget(actions[0]), actions[1..]);
    }
  }

  /** From a final status a run succeeds only when it is empty. */
  lemma FinalRun(s: AppointmentStatus, actions: seq<AppointmentAction>)
    requires IsFinal(s)
    ensures RunAppointment(s, actions) == if actions == [] then Some(s) else None
  {
  }

  /** The one enabled way to complete a booking is confirm, then complete. */
  lemma {:induction false} CompletionPath(actions: seq<AppointmentAction>)
    ensures RunAppointment(AppointmentStatus.Pending, actions) == Some(AppointmentStatus.Completed) <==>
              actions == [Confirm, Complete]
  {
    if actions != [] {
      var rest := actions[1..];
      if actions[0] == Cancel {
        FinalRun(AppointmentStatus.Cancelled, rest);
      } else if actions[0] == Confirm && rest != [] && rest[0] == Complete {
        FinalRun(AppointmentStatus.Completed, rest[1..]);
        assert rest[1..] == [] <==> actions == [Confirm, Complete];
      }
    }
  }

  /** A booking can be cancelled only while it is pending, by the customer,
      before anything else happened to it. */
  lemma {:induction false} CancellationPath(actions: seq<AppointmentAction>)
    ensures RunAppointment(AppointmentStatus.Pending, actions) == Some(AppointmentStatus.Cancelled) <==>
              actions == [Cancel]
  {
    if actions != [] {
      var rest := actions[1..];
      if actions[0] == Cancel {
        FinalRun(AppointmentStatus.Cancelled, rest);
        assert rest == [] <==> actions == [Cancel];
      } else if actions[0] == Confirm && rest != [] && rest[0] == Complete {
        FinalRun(AppointmentStatus.Completed, rest[1..]);
      }
    }
  }

  // -------------------------------------------------------------- properties

  datatype Decision = Approve | Reject

  /** The admin's property buttons exist only for `pending` listings. */
  predicate PropertyOffered(s: PropertyStatus) {
    s == PropertyStatus.Pending
  }

  function PropertyTarget(d: Decision): PropertyStatus {
    match d
    case Approve => PropertyStatus.Active
    case Reject => PropertyStatus.Rejected
  }

  /** A listing is decided at most once: after either decision no decision is
      offered again. */
  lemma PropertyDecidedOnce(d: Decision)
    ensures PropertyOffered(PropertyStatus.Pending)
    ensures !PropertyOffered(PropertyTarget(d))
  {
  }

  // ------------------------------------------------------ agent applications

  /** The approval page lists exactly the agents whose status is `pending`. */
  predicate ApplicationOffered(u: User) {
    u.role == Agent && u.status == UserStatus.Pending
  }

  function ApplicationTarget(d: Decision): UserStatus {
    match d
    case Approve => UserStatus.Active
    case Reject => UserStatus.Rejected
  }
}
