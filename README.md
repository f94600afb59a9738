# Real-estate portal: stores, notifications, guard and moderation pages

This project models the client-side core of a real-estate portal in which
customers book property viewings, agents list properties and run their
appointments, and an administrator approves listings and agent accounts
and moderates reviews. All state lives in in-browser stores that copy every
change to local storage.

What is modelled:

- **Stores.** Appointments, properties, reviews, notifications and
  users/session are each a class. Its `seq` field is the store's list. A
  ghost copy stands for what local storage holds, and `Valid()` says the
  two agree. Every mutator states its new list as a function of the old
  one: `UpdatedAppointments`, `DeletedProperties`, `MarkedAllAsRead`, and
  so on. The lemmas beside these functions state what the source
  promises: other records untouched, idempotence, unread counts, the
  cancel cascade closing every open appointment of a property.
- **The six auxiliary stores.** Maintenance requests, contracts, payments,
  inquiries, equipment and vehicles have the same shape. Their records
  keep the fields the stores read: id, the owner ids, and for four of
  them `updatedAt`. All other fields sit in a `details` map.
- **The notification service.** Its ten `notify*` functions are one
  `Event` datatype and one `Draft` function. The contract says who
  receives each event, its type, its link, and that a reason ends the
  message.
- **The page handlers.** Each handler is a method over the store objects.
  Toast messages, prompts and confirmations become parameters: a prompt
  answer is `Option<string>`, a confirmation is a `bool`. Every early
  return is kept.
- **Appointment and approval lifecycle.** `Lifecycle` holds the
  transitions the buttons offer, and proves that every path ends.
- **The route guard** and **the three display helpers** (`formatTime`,
  `getInitials`, `getStatusColor`).

Behaviour worth noting in the code:

- `addProperty` keeps the status the caller passes. It does not force
  `pending`.
- `deleteProperty` does not cancel the property's appointments.
- The booking wizard's submit does not check again that the property is
  active or that the date lies in the future.
- The approve and reject handlers for listings and agents do not look at
  the current status. Only the buttons are limited to pending items.

Other things the model makes explicit:

- A newly registered agent is sent to `/agent/dashboard` but is not signed
  in. With nobody signed in, the route guard then sends the agent home
  (`RegisterPage.NewAgentLandsOnHome`).
- The guard looks at the role only, never at the account status. A
  rejected agent who signs in still passes it
  (`ProtectedRoute.GuardIgnoresStatus`).
- A `sold` listing gets the same gray badge as an unknown status
  (`Helpers.SharedColors`).

`Seqs` holds the generic list reasoning: `filter`, `find`, counting, a
stable descending sort, and `slice`. `Strings` holds the JavaScript string
operations the pages use. Ids, clock readings and the contents of storage
are parameters of the operations that need them.

## Model

| member | source | states |
|---|---|---|
| Appointments.GetAppointmentById | src/store/appointmentStore.ts:27-29 | absent exactly when no appointment has the id; otherwise the first one with it |
| Appointments.GetAppointmentsByCustomer | src/store/appointmentStore.ts:31-33 | exactly the customer's appointments, each occurrence kept, in stored order |
| Appointments.GetAppointmentsByAgent | src/store/appointmentStore.ts:35-37 | exactly the agent's appointments, in stored order |
| Appointments.GetAppointmentsByProperty | src/store/appointmentStore.ts:39-41 | exactly the property's appointments, in stored order |
| Appointments.NewAppointment | src/store/appointmentStore.ts:43-59 | a created appointment is pending whatever the draft says, has the fresh id and both timestamps, and keeps every draft field |
| Appointments.UpdatedAppointments | src/store/appointmentStore.ts:61-71 | same length; every record with the id merged and restamped, every other record untouched; an unknown id changes nothing |
| Appointments.CancelledAppointments | src/store/appointmentStore.ts:73-78 | cancelling sets status cancelled and the reason on the matching records only |
| Appointments.CancelledByProperty | src/store/appointmentStore.ts:80-90 | only pending or confirmed appointments of the property become cancelled with the fixed reason; completed and cancelled ones and other properties are untouched |
| Appointments.CancelledByPropertyClosesAll | src/store/appointmentStore.ts:80-90 | afterwards no appointment of the property is open |
| Appointments.CancelledByPropertyIdempotent | src/store/appointmentStore.ts:80-90 | running the cascade again, at any later time, changes nothing |
| Appointments.AppointmentStore.constructor | src/store/appointmentStore.ts:19-20 | the store starts empty and in step with storage |
| Appointments.AppointmentStore.InitializeAppointments | src/store/appointmentStore.ts:22-25 | the list is what storage holds, no seeding |
| Appointments.AppointmentStore.CreateAppointment | src/store/appointmentStore.ts:43-59 | appends exactly the new pending record and returns it; storage follows |
| Appointments.AppointmentStore.UpdateAppointment | src/store/appointmentStore.ts:61-71 | the list becomes the merged list; storage follows |
| Appointments.AppointmentStore.CancelAppointment | src/store/appointmentStore.ts:73-78 | the list becomes the cancelled list; storage follows |
| Appointments.AppointmentStore.CancelAppointmentsByProperty | src/store/appointmentStore.ts:80-90 | the list becomes the cascaded list; storage follows |
| Properties.GetPropertyById | src/store/propertyStore.ts:32-34 | absent exactly when no listing has the id; otherwise the first one with it |
| Properties.GetPropertiesByAgent | src/store/propertyStore.ts:36-38 | exactly the agent's listings, in stored order |
| Properties.GetActiveProperties | src/store/propertyStore.ts:40-42 | exactly the active listings, in stored order |
| Properties.InitialProperties | src/store/propertyStore.ts:22-30 | the demo listings when storage is empty, the stored ones otherwise |
| Properties.NewProperty | src/store/propertyStore.ts:44-60 | a new listing keeps the caller's status, starts with zero views, the fresh id and both timestamps |
| Properties.UpdatedProperties | src/store/propertyStore.ts:62-72 | same length; matching listings merged and restamped, others untouched |
| Properties.DeletedProperties | src/store/propertyStore.ts:74-80 | every listing with the id removed, the rest kept in order; no cascade |
| Properties.ViewedProperties | src/store/propertyStore.ts:82-89 | same length; every listing with the id gets the views of the first such listing plus one and a new update time; every other listing is untouched; an unknown id changes nothing |
| Properties.ViewedPropertiesCounts | src/store/propertyStore.ts:82-89 | with unique ids, the viewed listing gains exactly one view and no other listing changes |
| Properties.PropertyStore.constructor | src/store/propertyStore.ts:19-20 | empty and in step with storage |
| Properties.PropertyStore.InitializeProperties | src/store/propertyStore.ts:22-30 | seeds the demo listings only into empty storage |
| Properties.PropertyStore.AddProperty | src/store/propertyStore.ts:44-60 | appends exactly the new listing and returns it |
| Properties.PropertyStore.UpdateProperty | src/store/propertyStore.ts:62-72 | the list becomes the merged list; storage follows |
| Properties.PropertyStore.DeleteProperty | src/store/propertyStore.ts:74-80 | the list becomes the filtered list; storage follows |
| Properties.PropertyStore.IncrementViews | src/store/propertyStore.ts:82-89 | the list becomes the viewed list; storage follows |
| Reviews.GetReviewById | src/store/reviewStore.ts:27-29 | absent exactly when no review has the id; otherwise the first one with it |
| Reviews.GetReviewsByProperty | src/store/reviewStore.ts:31-33 | exactly the property's reviews, in stored order |
| Reviews.GetReviewsByCustomer | src/store/reviewStore.ts:35-37 | exactly the customer's reviews, in stored order |
| Reviews.GetReviewByAppointment | src/store/reviewStore.ts:39-41 | absent exactly when no review is about the appointment; otherwise the first such review |
| Reviews.NewReview | src/store/reviewStore.ts:43-60 | a new review is neither flagged nor admin-edited, has the fresh id and both timestamps and keeps the draft fields |
| Reviews.UpdatedReviews | src/store/reviewStore.ts:62-72 | same length; matching reviews merged and restamped, others untouched |
| Reviews.DeletedReviews | src/store/reviewStore.ts:74-80 | every review with the id removed, the rest in order |
| Reviews.FlaggedReviews | src/store/reviewStore.ts:82-87 | flagging sets flagged and the reason on the matching reviews only |
| Reviews.ReviewStore.constructor | src/store/reviewStore.ts:19-20 | empty and in step with storage |
| Reviews.ReviewStore.InitializeReviews | src/store/reviewStore.ts:22-25 | the list is what storage holds |
| Reviews.ReviewStore.CreateReview | src/store/reviewStore.ts:43-60 | appends exactly the new review and returns it |
| Reviews.ReviewStore.UpdateReview | src/store/reviewStore.ts:62-72 | the list becomes the merged list |
| Reviews.ReviewStore.DeleteReview | src/store/reviewStore.ts:74-80 | the list becomes the filtered list |
| Reviews.ReviewStore.FlagReview | src/store/reviewStore.ts:82-87 | the list becomes the flagged list |
| Notifications.GetNotificationsByUser | src/store/notificationStore.ts:25-29 | exactly the user's notifications, every occurrence kept, newest first |
| Notifications.GetUnreadCount | src/store/notificationStore.ts:31-33 | the number of the user's unread notifications; zero exactly when there is none |
| Notifications.NewNotification | src/store/notificationStore.ts:35-50 | a new notification is unread, has the fresh id and time, and keeps the draft fields |
| Notifications.CreateNotificationCounts | src/store/notificationStore.ts:35-50 | creating a notification raises the recipient's unread count by one and leaves every other user's count alone |
| Notifications.MarkedAsRead | src/store/notificationStore.ts:52-60 | the notifications with the id become read; nothing else changes |
| Notifications.MarkedAsReadIdempotent | src/store/notificationStore.ts:52-60 | marking as read twice is marking once |
| Notifications.MarkedAllAsRead | src/store/notificationStore.ts:62-70 | every notification of the user becomes read; other users' are untouched |
| Notifications.MarkedAllAsReadCounts | src/store/notificationStore.ts:62-70 | afterwards the user has no unread notification and every other user's unread count is unchanged |
| Notifications.UnreadCountPointwise | src/store/notificationStore.ts:31-33 | two lists that agree position by position on what is unread for a user give the same count |
| Notifications.DeletedNotifications | src/store/notificationStore.ts:72-78 | every notification with the id removed, the rest in order |
| Notifications.NotificationStore.constructor | src/store/notificationStore.ts:17-18 | empty and in step with storage |
| Notifications.NotificationStore.InitializeNotifications | src/store/notificationStore.ts:20-23 | the list is what storage holds |
| Notifications.NotificationStore.CreateNotification | src/store/notificationStore.ts:35-50 | appends exactly the new notification and returns it |
| Notifications.NotificationStore.MarkAsRead | src/store/notificationStore.ts:52-60 | the list becomes the marked list |
| Notifications.NotificationStore.MarkAllAsRead | src/store/notificationStore.ts:62-70 | the list becomes the list with all the user's notifications read |
| Notifications.NotificationStore.DeleteNotification | src/store/notificationStore.ts:72-78 | the list becomes the filtered list |
| Auth.FindUser | src/store/authStore.ts:34 | absent exactly when no user has the id; otherwise the first one with it |
| Auth.FindUserUnique | src/store/authStore.ts:34 | with ids unique, looking a user up by id finds that very user |
| Auth.FindByCredentials | src/store/authStore.ts:42-53 | absent exactly when no user has both the email and the password; otherwise the first such user |
| Auth.RegisteredStatus | src/store/authStore.ts:60-80 | a new agent is pending, every other new account active |
| Auth.NewUser | src/store/authStore.ts:60-80 | the stored account has the forced status, the fresh id and creation time, and the draft's fields |
| Auth.UpdatedUsers | src/store/authStore.ts:82-96 | same length; matching users merged, others untouched, no timestamp changed |
| Auth.UpdateKeepsSessionInUsers | src/store/authStore.ts:82-96 | when the signed-in user is in the list, the updated session is in the updated list |
| Auth.InitialUsers | src/store/authStore.ts:22-40 | the demo users when storage is empty, the stored ones otherwise |
| Auth.SeededStartRestoresNothing | src/store/authStore.ts:22-40 | on a first start (empty storage) no saved session is restored |
| Auth.RestoredSessionInUsers | src/store/authStore.ts:22-40 | a restored session is one of the stored users |
| Auth.AuthStore.constructor | src/store/authStore.ts:18-20 | no users, nobody signed in |
| Auth.AuthStore.InitializeAuth | src/store/authStore.ts:22-40 | users seeded only into empty storage; the saved session replaced by the stored copy of that user when there is one; the storage copies are the loaded users and the saved or refreshed session |
| Auth.AuthStore.Login | src/store/authStore.ts:42-53 | signs in and saves exactly the first matching user; no match changes nothing |
| Auth.AuthStore.Logout | src/store/authStore.ts:55-58 | nobody signed in, saved session cleared, users unchanged |
| Auth.AuthStore.Register | src/store/authStore.ts:60-80 | appends the new account; signs it in only when it is active |
| Auth.AuthStore.UpdateUser | src/store/authStore.ts:82-96 | the list becomes the merged list; the session is merged too when it is that user |
| Auth.AuthStore.UpdateProfile | src/store/authStore.ts:98-103 | with a signed-in user, the list merged as `updateUser` does and the merged user signed in and written to session storage; nothing without one |
| NotificationService.Recipient | src/services/notificationService.ts:5-111 | agent events go to the agent, confirmations and completions to the customer, a cancellation to the user passed in, a new listing to the admin |
| NotificationService.Kind | src/services/notificationService.ts:5-111 | `info` exactly for a booking request, a new listing and a new review; `success` exactly for the four approvals and confirmations; `warning` exactly for a cancellation; `error` exactly for the two rejections |
| NotificationService.Message | src/services/notificationService.ts:38-100 | a cancellation and the two rejections end the message with the reason given |
| NotificationService.WithReason | src/services/notificationService.ts:43 | the text closes with `Reason: ` and the reason |
| NotificationService.Link | src/services/notificationService.ts:5-111 | every event links a page except an agent rejection; a cancellation links the booking |
| NotificationService.Draft | src/services/notificationService.ts:5-111 | each of the ten events goes to the right user (agent, customer, cancelling party or admin) with its type; reasons end the message; every event but an agent rejection carries a link |
| NotificationService.NotifyCounts | src/services/notificationService.ts:5-111 | a notify call raises the recipient's unread count by one and no other user's |
| NotificationService.Notify | src/services/notificationService.ts:5-111 | appends exactly the drafted notification to the store |
| Lifecycle.OfferedAdvances | src/pages/agent/AgentAppointmentsPage.tsx:82-91 | every offered action moves an appointment strictly forward; nothing is offered for a completed or cancelled one |
| Lifecycle.RunIsShort | src/pages/agent/AgentAppointmentsPage.tsx:82-91 | a run of offered actions is no longer than the path still ahead |
| Lifecycle.FinalRun | src/pages/agent/AgentAppointmentsPage.tsx:82-91 | from a final status only the empty run succeeds |
| Lifecycle.CompletionPath | src/pages/agent/AgentAppointmentsPage.tsx:82-91 | a pending appointment reaches completed through the pages if and only if the actions are confirm then complete |
| Lifecycle.CancellationPath | src/pages/customer/BookingDetailsPage.tsx:60-61 | a pending appointment reaches cancelled if and only if the only action is cancel |
| Lifecycle.PropertyDecidedOnce | src/pages/admin/AdminPropertiesPage.tsx:53-58 | either decision takes a listing out of the pending status the buttons need |
| AgentAppointmentsPage.OwnAppointment | src/pages/agent/AgentAppointmentsPage.tsx:24-26 | the handlers find the appointment among the agent's own only; absent exactly when the agent has none with that id; otherwise the agent's first appointment with it |
| AgentAppointmentsPage.RenderedAppointments | src/pages/agent/AgentAppointmentsPage.tsx:58-61 | exactly the agent's appointments whose property exists, every copy kept, in stored order |
| AgentAppointmentsPage.SubsequenceTransitive | src/pages/agent/AgentAppointmentsPage.tsx:58-61 | a filter of a filter is still a subsequence of the stored list |
| AgentAppointmentsPage.OfferedActions | src/pages/agent/AgentAppointmentsPage.tsx:82-91 | Confirm exactly for pending, Mark Complete exactly for confirmed, never Cancel; all agree with the lifecycle |
| AgentAppointmentsPage.StatusUpdateOnly | src/pages/agent/AgentAppointmentsPage.tsx:28 | the status update changes only status and update time of the matching appointments |
| AgentAppointmentsPage.CustomerNotices | src/pages/agent/AgentAppointmentsPage.tsx:30-35 | one notice to the customer exactly when the property is found, linking the booking |
| AgentAppointmentsPage.HandleConfirm | src/pages/agent/AgentAppointmentsPage.tsx:24-36 | not the agent's appointment: nothing changes; otherwise confirmed and the customer told when the property exists |
| AgentAppointmentsPage.HandleComplete | src/pages/agent/AgentAppointmentsPage.tsx:38-50 | not the agent's appointment: nothing changes; otherwise completed and the customer told when the property exists |
| AdminPropertiesPage.DecisionsOffered | src/pages/admin/AdminPropertiesPage.tsx:53-58 | Approve and Reject are offered exactly for pending listings |
| AdminPropertiesPage.ApprovedIsDecided | src/pages/admin/AdminPropertiesPage.tsx:15-22 | approval leaves the listing active and undecidable, other listings untouched |
| AdminPropertiesPage.RejectedIsDecided | src/pages/admin/AdminPropertiesPage.tsx:24-35 | rejection leaves the listing rejected with the reason and undecidable, other listings untouched |
| AdminPropertiesPage.HandleApprove | src/pages/admin/AdminPropertiesPage.tsx:15-22 | unknown id: nothing; otherwise active and exactly one notification, to the listing's agent |
| AdminPropertiesPage.HandleReject | src/pages/admin/AdminPropertiesPage.tsx:24-35 | unknown id or cancelled or empty reason: nothing; otherwise rejected with the reason and the agent told why |
| AgentApprovalsPage.PendingAgents | src/pages/admin/AgentApprovalsPage.tsx:14 | exactly the pending agents, in stored order |
| AgentApprovalsPage.DecisionLeavesQueue | src/pages/admin/AgentApprovalsPage.tsx:16-29 | after either decision the user is out of the queue and every other applicant still in it |
| AgentApprovalsPage.HandleApprove | src/pages/admin/AgentApprovalsPage.tsx:16-20 | no lookup: the status becomes active and the user is notified |
| AgentApprovalsPage.HandleReject | src/pages/admin/AgentApprovalsPage.tsx:22-29 | cancelled or empty reason: nothing; otherwise rejected and told why; the reason is not stored on the user |
| BookingDetailsPage.View | src/pages/customer/BookingDetailsPage.tsx:30-36 | details exactly when the appointment, its property and a signed-in user exist; the appointment, property and agent shown are the first ones with their ids |
| BookingDetailsPage.OffersAgreeWithLifecycle | src/pages/customer/BookingDetailsPage.tsx:60-61 | Cancel and Leave Review are never offered together; Cancel exactly when the lifecycle allows it, review exactly for completed |
| BookingDetailsPage.AgentNotices | src/pages/customer/BookingDetailsPage.tsx:45-52 | one warning to the agent when found, ending with the reason and linking the booking |
| BookingDetailsPage.HandleCancel | src/pages/customer/BookingDetailsPage.tsx:38-58 | not found or a blank reason: nothing; otherwise cancelled with the reason as typed and the agent told |
| BookAppointmentPage.MinBookingDay | src/pages/customer/BookAppointmentPage.tsx:94-98 | the minimum the picker gets is the UTC day after the UTC day of the current instant |
| BookAppointmentPage.MinBookingDayAtUtc | src/pages/customer/BookAppointmentPage.tsx:94-98 | on a UTC clock that is the customer's tomorrow |
| BookAppointmentPage.MinBookingDayEastOfUtc | src/pages/customer/BookAppointmentPage.tsx:94-98 | east of UTC, between local and UTC midnight, the minimum is the customer's today |
| BookAppointmentPage.MinBookingDayWestOfUtc | src/pages/customer/BookAppointmentPage.tsx:94-98 | west of UTC, between UTC and local midnight, the minimum is the day after the customer's tomorrow |
| BookAppointmentPage.ManilaMorning | src/pages/customer/BookAppointmentPage.tsx:94-98 | at 07:00 in UTC+8 the minimum is already the customer's today |
| BookAppointmentPage.LocalMinBookingDay | src/pages/customer/BookAppointmentPage.tsx:94-98 | the intended minimum: the customer's local tomorrow |
| BookAppointmentPage.SelectedProperty | src/pages/customer/BookAppointmentPage.tsx:38 | no selection gives nothing; a selection gives the first listing with that id, absent exactly when there is none |
| BookAppointmentPage.BookingDraft | src/pages/customer/BookAppointmentPage.tsx:67-75 | the agent comes from the property, the customer is the signed-in user, pending, empty special requests left out |
| BookAppointmentPage.BookedAgentIsPropertyAgent | src/pages/customer/BookAppointmentPage.tsx:64-92 | the stored booking names the property, its agent and the customer, is pending and carries no cancellation reason |
| BookAppointmentPage.BookingWizard.constructor | src/pages/customer/BookAppointmentPage.tsx:29-33 | a property in the address starts the wizard on step two with it selected |
| BookAppointmentPage.BookingWizard.SelectProperty | src/pages/customer/BookAppointmentPage.tsx:30 | records the chosen property |
| BookAppointmentPage.BookingWizard.SelectDate | src/pages/customer/BookAppointmentPage.tsx:31 | records the chosen date |
| BookAppointmentPage.BookingWizard.SelectTime | src/pages/customer/BookAppointmentPage.tsx:32 | records the chosen time |
| BookAppointmentPage.BookingWizard.SetSpecialRequests | src/pages/customer/BookAppointmentPage.tsx:33 | records the special requests |
| BookAppointmentPage.BookingWizard.HandleNext | src/pages/customer/BookAppointmentPage.tsx:40-56 | stays on a step whose input is missing, otherwise advances, never past step four |
| BookAppointmentPage.BookingWizard.HandleBack | src/pages/customer/BookAppointmentPage.tsx:58-62 | one step back, never before step one |
| BookAppointmentPage.BookingWizard.HandleSubmit | src/pages/customer/BookAppointmentPage.tsx:64-92 | no property or no user: nothing; otherwise one pending booking appended and the agent, when found, told |
| UserManagementPage.ByRole | src/pages/admin/UserManagementPage.tsx:25-27 | all users, or exactly those with the role, in order |
| UserManagementPage.BySearch | src/pages/admin/UserManagementPage.tsx:29-34 | an empty query keeps all; otherwise exactly the users whose name or email contains it, ignoring case |
| UserManagementPage.FilteredUsers | src/pages/admin/UserManagementPage.tsx:23-39 | exactly the users kept by both filters, every occurrence, newest account first |
| UserManagementPage.Stats | src/pages/admin/UserManagementPage.tsx:41-46 | the counts per role are the role counts and add up to the total |
| UserManagementPage.RolesPartition | src/pages/admin/UserManagementPage.tsx:41-46 | every user has exactly one of the three roles |
| UserManagementPage.HandleEdit | src/pages/admin/UserManagementPage.tsx:69-78 | renames an existing user only to a non-empty, different name |
| UserManagementPage.HandleDeactivate | src/pages/admin/UserManagementPage.tsx:80-93 | an admin is never deactivated; another existing user is set rejected once confirmed |
| UserManagementPage.HandleActivate | src/pages/admin/UserManagementPage.tsx:95-101 | any existing user becomes active |
| UserManagementPage.DeactivationSparesAdmins | src/pages/admin/UserManagementPage.tsx:80-93 | with unique ids, a deactivation leaves every admin record as it was |
| ReviewModerationPage.Newest | src/pages/admin/ReviewModerationPage.tsx:31-34 | at most twenty reviews, newest first, drawn from the list (all of it when short), and no review left out is newer than one shown |
| ReviewModerationPage.NewestAreFirst | src/pages/admin/ReviewModerationPage.tsx:31-34 | cutting a newest-first list keeps the newest reviews |
| ReviewModerationPage.SplitMultiset | src/pages/admin/ReviewModerationPage.tsx:31-34 | the reviews left out of the first twenty are exactly the rest of the sorted list |
| ReviewModerationPage.OlderBehind | src/pages/admin/ReviewModerationPage.tsx:31-34 | in a newest-first list a later review is never newer |
| ReviewModerationPage.FilterReviews | src/pages/admin/ReviewModerationPage.tsx:27-37 | all; exactly the flagged; the twenty newest; exactly those rated two or less; always drawn from the list |
| ReviewModerationPage.FilteredReviews | src/pages/admin/ReviewModerationPage.tsx:39-49 | an empty query keeps the tab; otherwise exactly the reviews whose property title, reviewer name or comment contains it, ignoring case |
| ReviewModerationPage.RenderedReviews | src/pages/admin/ReviewModerationPage.tsx:180-183 | exactly the reviews whose property and reviewer both exist, every copy kept, in order; a review whose property or reviewer is missing is not drawn |
| ReviewModerationPage.Stats | src/pages/admin/ReviewModerationPage.tsx:51-52 | the total and the number of flagged reviews |
| ReviewModerationPage.UnflagUndoesFlag | src/pages/admin/ReviewModerationPage.tsx:65-68 | unflagging a freshly flagged review restores it, save for its update time |
| ReviewModerationPage.EditKeepsRatingAndFlag | src/pages/admin/ReviewModerationPage.tsx:70-84 | an edit sets the comment and the edited mark, a note only when one was typed, and keeps rating, flag and authorship |
| ReviewModerationPage.EditKeepsFlaggedCount | src/pages/admin/ReviewModerationPage.tsx:70-84 | an edit does not move the flagged count |
| ReviewModerationPage.HandleFlag | src/pages/admin/ReviewModerationPage.tsx:57-63 | a cancelled or empty reason changes nothing; otherwise the review is flagged with it |
| ReviewModerationPage.HandleUnflag | src/pages/admin/ReviewModerationPage.tsx:65-68 | the flag and its reason are cleared |
| ReviewModerationPage.HandleEdit | src/pages/admin/ReviewModerationPage.tsx:70-84 | unknown review or a cancelled, empty or unchanged comment: nothing; otherwise the edit is stored |
| ReviewModerationPage.HandleDelete | src/pages/admin/ReviewModerationPage.tsx:86-91 | deleted only once confirmed |
| RegisterPage.IsValidRegistration | src/pages/auth/RegisterPage.tsx:14-34 | the schema: name of at least 2, phone of at least 10 and password of at least 6 characters, matching passwords, no admin role, and a non-empty licence number and agency for an agent; so a valid form is a customer or an agent, and an agent's licence and agency are present |
| RegisterPage.SubmittedDraft | src/pages/auth/RegisterPage.tsx:61-70 | pending for an agent, active for a customer; the form fields go through unchanged |
| RegisterPage.PageStatusAgreesWithStore | src/pages/auth/RegisterPage.tsx:67 | for a valid form the page's status is the one the store forces |
| RegisterPage.Destination | src/pages/auth/RegisterPage.tsx:72-78 | the new user is sent to the dashboard of the user's role |
| RegisterPage.SignedInIffCustomer | src/pages/auth/RegisterPage.tsx:61-70 | a valid registration is active (and signed in) exactly for a customer, pending exactly for an agent |
| RegisterPage.NewAgentLandsOnHome | src/pages/auth/RegisterPage.tsx:75-77 | a new agent is sent to the agent dashboard without a session, so with nobody signed in the guard sends the agent to the home page |
| RegisterPage.Submit | src/pages/auth/RegisterPage.tsx:57-78 | an invalid form registers nothing; a valid one appends the account, signs in only a customer, and reports the dashboard |
| ProtectedRoute.Guard | src/components/auth/ProtectedRoute.tsx:11-25 | renders exactly for a signed-in user with an allowed role; nobody signed in goes home; a wrong role goes to its own dashboard |
| ProtectedRoute.GuardIgnoresStatus | src/components/auth/ProtectedRoute.tsx:18 | the guard does not look at the account status |
| ProtectedRoute.RedirectLandsOnOwnDashboard | src/components/auth/ProtectedRoute.tsx:18-21 | a redirected user lands on a dashboard guarded by the user's own role |
| ProtectedRoute.DashboardsDistinct | src/components/auth/ProtectedRoute.tsx:20 | the three dashboards are distinct paths, none of them the home page |
| Helpers.FormatTime | src/utils/helpers.ts:13-15 | the time string is shown unchanged |
| Helpers.FirstChars | src/utils/helpers.ts:33-34 | at most one character per piece |
| Helpers.SplitSpaces | src/utils/helpers.ts:32 | always at least one piece |
| Helpers.SkipWord | src/utils/helpers.ts:30-37 | no word starts inside a run of non-space characters |
| Helpers.FirstCharsAreWordStarts | src/utils/helpers.ts:30-37 | first characters of the space-separated pieces are exactly the characters that begin a word |
| Helpers.GetInitials | src/utils/helpers.ts:30-37 | at most two characters: the first two word starts, upper-cased |
| Helpers.GetStatusColor | src/utils/helpers.ts:39-50 | always one of the table colours; gray for a status not in the table |
| Helpers.StatusColorIgnoresCase | src/utils/helpers.ts:49 | the colour does not depend on the case of the status |
| Helpers.UserStatusHasColor | src/utils/helpers.ts:40-48 | every account status has its table entry |
| Helpers.PropertyStatusHasColor | src/utils/helpers.ts:40-48 | every listing status has its table entry |
| Helpers.AppointmentStatusHasColor | src/utils/helpers.ts:40-48 | every appointment status has its table entry |
| Helpers.SharedColors | src/utils/helpers.ts:44-47 | cancelled and rejected share red; sold is the same gray as an unknown status |
| Helpers.LowerFixesLowerCase | src/utils/helpers.ts:49 | a status with no capital letters is its own lower case |
| Seqs.FindAppend | src/store/maintenanceStore.ts:57-59 | appending changes a `find` result only when nothing earlier matched |
| Seqs.SortDescStable | src/store/notificationStore.ts:28 | the newest-first sort keeps elements with equal timestamps in their stored order, as JavaScript's stable sort does |
| Seqs.CountComplement | src/store/maintenanceStore.ts:51-55 | the kept and the removed records add up to the list |
| MaintenanceRequests.MergeTwice | src/store/maintenanceStore.ts:43-49 | merging the same update twice is merging it once |
| MaintenanceRequests.InitialRequests | src/store/maintenanceStore.ts:22-30 | the demo records when storage is empty, the stored ones otherwise |
| MaintenanceRequests.UpdatedRequests | src/store/maintenanceStore.ts:43-49 | same length; matching records merged and `updatedAt` refreshed; others untouched |
| MaintenanceRequests.DeletedRequests | src/store/maintenanceStore.ts:51-55 | every record with the id removed, the rest in order |
| MaintenanceRequests.GetRequestById | src/store/maintenanceStore.ts:57-59 | absent exactly when no record has the id; otherwise the first one with it |
| MaintenanceRequests.GetRequestsByCustomer | src/store/maintenanceStore.ts:61-63 | exactly the records of that customer, in stored order |
| MaintenanceRequests.GetRequestsByAgent | src/store/maintenanceStore.ts:65-67 | exactly the records of that agent, in stored order |
| MaintenanceRequests.GetRequestsByProperty | src/store/maintenanceStore.ts:69-71 | exactly the records of that property, in stored order |
| MaintenanceRequests.AddedRequestFound | src/store/maintenanceStore.ts:37-41 | no duplicate check: the new record is found by its id only when no earlier record has that id |
| MaintenanceRequests.DeletedRequestGone | src/store/maintenanceStore.ts:51-55 | the id is gone and the list is shorter by the number of records that carried it |
| MaintenanceRequests.UpdateRequestIdempotent | src/store/maintenanceStore.ts:43-49 | repeating an update at the same time changes nothing more |
| MaintenanceRequests.EmptyUpdateRequestStamps | src/store/maintenanceStore.ts:43-49 | an empty update still refreshes `updatedAt` of the matching records and nothing else |
| MaintenanceRequests.RequestStore.constructor | src/store/maintenanceStore.ts:19-20 | empty and in step with storage |
| MaintenanceRequests.RequestStore.InitializeRequests | src/store/maintenanceStore.ts:22-30 | seeds the demo records only into empty storage |
| MaintenanceRequests.RequestStore.LoadRequests | src/store/maintenanceStore.ts:32-35 | takes what storage holds, even nothing, and never seeds |
| MaintenanceRequests.RequestStore.AddRequest | src/store/maintenanceStore.ts:37-41 | appends the caller's record unchanged |
| MaintenanceRequests.RequestStore.UpdateRequest | src/store/maintenanceStore.ts:43-49 | the list becomes the merged list; storage follows |
| MaintenanceRequests.RequestStore.DeleteRequest | src/store/maintenanceStore.ts:51-55 | the list becomes the filtered list; storage follows |
| Contracts.MergeTwice | src/store/contractStore.ts:43-49 | merging the same update twice is merging it once |
| Contracts.InitialContracts | src/store/contractStore.ts:22-30 | the demo records when storage is empty, the stored ones otherwise |
| Contracts.UpdatedContracts | src/store/contractStore.ts:43-49 | same length; matching records merged, no timestamp touched; others untouched |
| Contracts.DeletedContracts | src/store/contractStore.ts:51-55 | every record with the id removed, the rest in order |
| Contracts.GetContractById | src/store/contractStore.ts:57-59 | absent exactly when no record has the id; otherwise the first one with it |
| Contracts.GetContractsByCustomer | src/store/contractStore.ts:61-63 | exactly the records of that customer, in stored order |
| Contracts.GetContractsByAgent | src/store/contractStore.ts:65-67 | exactly the records of that agent, in stored order |
| Contracts.GetContractsByProperty | src/store/contractStore.ts:69-71 | exactly the records of that property, in stored order |
| Contracts.AddedContractFound | src/store/contractStore.ts:37-41 | no duplicate check: the new record is found by its id only when no earlier record has that id |
| Contracts.DeletedContractGone | src/store/contractStore.ts:51-55 | the id is gone and the list is shorter by the number of records that carried it |
| Contracts.UpdateContractIdempotent | src/store/contractStore.ts:43-49 | repeating an update changes nothing more |
| Contracts.EmptyUpdateContractChangesNothing | src/store/contractStore.ts:43-49 | no timestamp is refreshed: an empty update leaves the list as it was |
| Contracts.ContractStore.constructor | src/store/contractStore.ts:19-20 | empty and in step with storage |
| Contracts.ContractStore.InitializeContracts | src/store/contractStore.ts:22-30 | seeds the demo records only into empty storage |
| Contracts.ContractStore.LoadContracts | src/store/contractStore.ts:32-35 | takes what storage holds, even nothing, and never seeds |
| Contracts.ContractStore.AddContract | src/store/contractStore.ts:37-41 | appends the caller's record unchanged |
| Contracts.ContractStore.UpdateContract | src/store/contractStore.ts:43-49 | the list becomes the merged list; storage follows |
| Contracts.ContractStore.DeleteContract | src/store/contractStore.ts:51-55 | the list becomes the filtered list; storage follows |
| Payments.MergeTwice | src/store/paymentStore.ts:43-49 | merging the same update twice is merging it once |
| Payments.InitialPayments | src/store/paymentStore.ts:22-30 | the demo records when storage is empty, the stored ones otherwise |
| Payments.UpdatedPayments | src/store/paymentStore.ts:43-49 | same length; matching records merged, no timestamp touched; others untouched |
| Payments.DeletedPayments | src/store/paymentStore.ts:51-55 | every record with the id removed, the rest in order |
| Payments.GetPaymentById | src/store/paymentStore.ts:57-59 | absent exactly when no record has the id; otherwise the first one with it |
| Payments.GetPaymentsByCustomer | src/store/paymentStore.ts:61-63 | exactly the records of that customer, in stored order |
| Payments.GetPaymentsByAgent | src/store/paymentStore.ts:65-67 | exactly the records of that agent, in stored order |
| Payments.GetPaymentsByProperty | src/store/paymentStore.ts:69-71 | exactly the records of that property, in stored order |
| Payments.AddedPaymentFound | src/store/paymentStore.ts:37-41 | no duplicate check: the new record is found by its id only when no earlier record has that id |
| Payments.DeletedPaymentGone | src/store/paymentStore.ts:51-55 | the id is gone and the list is shorter by the number of records that carried it |
| Payments.UpdatePaymentIdempotent | src/store/paymentStore.ts:43-49 | repeating an update changes nothing more |
| Payments.EmptyUpdatePaymentChangesNothing | src/store/paymentStore.ts:43-49 | no timestamp is refreshed: an empty update leaves the list as it was |
| Payments.PaymentStore.constructor | src/store/paymentStore.ts:19-20 | empty and in step with storage |
| Payments.PaymentStore.InitializePayments | src/store/paymentStore.ts:22-30 | seeds the demo records only into empty storage |
| Payments.PaymentStore.LoadPayments | src/store/paymentStore.ts:32-35 | takes what storage holds, even nothing, and never seeds |
| Payments.PaymentStore.AddPayment | src/store/paymentStore.ts:37-41 | appends the caller's record unchanged |
| Payments.PaymentStore.UpdatePayment | src/store/paymentStore.ts:43-49 | the list becomes the merged list; storage follows |
| Payments.PaymentStore.DeletePayment | src/store/paymentStore.ts:51-55 | the list becomes the filtered list; storage follows |
| Inquiries.MergeTwice | src/store/inquiryStore.ts:42-48 | merging the same update twice is merging it once |
| Inquiries.InitialInquiries | src/store/inquiryStore.ts:21-29 | the demo records when storage is empty, the stored ones otherwise |
| Inquiries.UpdatedInquiries | src/store/inquiryStore.ts:42-48 | same length; matching records merged and `updatedAt` refreshed; others untouched |
| Inquiries.DeletedInquiries | src/store/inquiryStore.ts:50-54 | every record with the id removed, the rest in order |
| Inquiries.GetInquiryById | src/store/inquiryStore.ts:56-58 | absent exactly when no record has the id; otherwise the first one with it |
| Inquiries.GetInquiriesByCustomer | src/store/inquiryStore.ts:60-62 | exactly the records of that customer, in stored order |
| Inquiries.GetInquiriesByAgent | src/store/inquiryStore.ts:64-66 | exactly the records of that agent, in stored order (an inquiry without an agent is in nobody's list) |
| Inquiries.AddedInquiryFound | src/store/inquiryStore.ts:36-40 | no duplicate check: the new record is found by its id only when no earlier record has that id |
| Inquiries.DeletedInquiryGone | src/store/inquiryStore.ts:50-54 | the id is gone and the list is shorter by the number of records that carried it |
| Inquiries.UpdateInquiryIdempotent | src/store/inquiryStore.ts:42-48 | repeating an update at the same time changes nothing more |
| Inquiries.EmptyUpdateInquiryStamps | src/store/inquiryStore.ts:42-48 | an empty update still refreshes `updatedAt` of the matching records and nothing else |
| Inquiries.InquiryStore.constructor | src/store/inquiryStore.ts:18-19 | empty and in step with storage |
| Inquiries.InquiryStore.InitializeInquiries | src/store/inquiryStore.ts:21-29 | seeds the demo records only into empty storage |
| Inquiries.InquiryStore.LoadInquiries | src/store/inquiryStore.ts:31-34 | takes what storage holds, even nothing, and never seeds |
| Inquiries.InquiryStore.AddInquiry | src/store/inquiryStore.ts:36-40 | appends the caller's record unchanged |
| Inquiries.InquiryStore.UpdateInquiry | src/store/inquiryStore.ts:42-48 | the list becomes the merged list; storage follows |
| Inquiries.InquiryStore.DeleteInquiry | src/store/inquiryStore.ts:50-54 | the list becomes the filtered list; storage follows |
| EquipmentInventory.MergeTwice | src/store/equipmentStore.ts:41-47 | merging the same update twice is merging it once |
| EquipmentInventory.InitialEquipment | src/store/equipmentStore.ts:20-28 | the demo records when storage is empty, the stored ones otherwise |
| EquipmentInventory.UpdatedEquipment | src/store/equipmentStore.ts:41-47 | same length; matching records merged and `updatedAt` refreshed; others untouched |
| EquipmentInventory.DeletedEquipment | src/store/equipmentStore.ts:49-53 | every record with the id removed, the rest in order |
| EquipmentInventory.GetEquipmentById | src/store/equipmentStore.ts:55-57 | absent exactly when no record has the id; otherwise the first one with it |
| EquipmentInventory.GetEquipmentByAgent | src/store/equipmentStore.ts:59-61 | exactly the records of that agent, in stored order (matched on `assignedTo`; unassigned records are in nobody's list) |
| EquipmentInventory.AddedEquipmentFound | src/store/equipmentStore.ts:35-39 | no duplicate check: the new record is found by its id only when no earlier record has that id |
| EquipmentInventory.DeletedEquipmentGone | src/store/equipmentStore.ts:49-53 | the id is gone and the list is shorter by the number of records that carried it |
| EquipmentInventory.UpdateEquipmentIdempotent | src/store/equipmentStore.ts:41-47 | repeating an update at the same time changes nothing more |
| EquipmentInventory.EmptyUpdateEquipmentStamps | src/store/equipmentStore.ts:41-47 | an empty update still refreshes `updatedAt` of the matching records and nothing else |
| EquipmentInventory.EquipmentStore.constructor | src/store/equipmentStore.ts:17-18 | empty and in step with storage |
| EquipmentInventory.EquipmentStore.InitializeEquipment | src/store/equipmentStore.ts:20-28 | seeds the demo records only into empty storage |
| EquipmentInventory.EquipmentStore.LoadEquipment | src/store/equipmentStore.ts:30-33 | takes what storage holds, even nothing, and never seeds |
| EquipmentInventory.EquipmentStore.AddEquipment | src/store/equipmentStore.ts:35-39 | appends the caller's record unchanged |
| EquipmentInventory.EquipmentStore.UpdateEquipment | src/store/equipmentStore.ts:41-47 | the list becomes the merged list; storage follows |
| EquipmentInventory.EquipmentStore.DeleteEquipment | src/store/equipmentStore.ts:49-53 | the list becomes the filtered list; storage follows |
| Vehicles.MergeTwice | src/store/vehicleStore.ts:41-47 | merging the same update twice is merging it once |
| Vehicles.InitialVehicles | src/store/vehicleStore.ts:20-28 | the demo records when storage is empty, the stored ones otherwise |
| Vehicles.UpdatedVehicles | src/store/vehicleStore.ts:41-47 | same length; matching records merged and `updatedAt` refreshed; others untouched |
| Vehicles.DeletedVehicles | src/store/vehicleStore.ts:49-53 | every record with the id removed, the rest in order |
| Vehicles.GetVehicleById | src/store/vehicleStore.ts:55-57 | absent exactly when no record has the id; otherwise the first one with it |
| Vehicles.GetVehiclesByAgent | src/store/vehicleStore.ts:59-61 | exactly the records of that agent, in stored order (matched on `assignedTo`; unassigned records are in nobody's list) |
| Vehicles.AddedVehicleFound | src/store/vehicleStore.ts:35-39 | no duplicate check: the new record is found by its id only when no earlier record has that id |
| Vehicles.DeletedVehicleGone | src/store/vehicleStore.ts:49-53 | the id is gone and the list is shorter by the number of records that carried it |
| Vehicles.UpdateVehicleIdempotent | src/store/vehicleStore.ts:41-47 | repeating an update at the same time changes nothing more |
| Vehicles.EmptyUpdateVehicleStamps | src/store/vehicleStore.ts:41-47 | an empty update still refreshes `updatedAt` of the matching records and nothing else |
| Vehicles.VehicleStore.constructor | src/store/vehicleStore.ts:17-18 | empty and in step with storage |
| Vehicles.VehicleStore.InitializeVehicles | src/store/vehicleStore.ts:20-28 | seeds the demo records only into empty storage |
| Vehicles.VehicleStore.LoadVehicles | src/store/vehicleStore.ts:30-33 | takes what storage holds, even nothing, and never seeds |
| Vehicles.VehicleStore.AddVehicle | src/store/vehicleStore.ts:35-39 | appends the caller's record unchanged |
| Vehicles.VehicleStore.UpdateVehicle | src/store/vehicleStore.ts:41-47 | the list becomes the merged list; storage follows |
| Vehicles.VehicleStore.DeleteVehicle | src/store/vehicleStore.ts:49-53 | the list becomes the filtered list; storage follows |

## Left out

- Local storage I/O is left out. JSON encoding, `storageService` and the `load*`/`save*` helpers are not modelled. Storage is a ghost copy of each list, and what storage returns is a parameter.
- Id generation (`generateId`) and the clock (`new Date().toISOString()`) are left out. Ids and times are parameters. Times are whole numbers of milliseconds, so the newest-first sorts compare numbers rather than parsed date strings.
- Date and money formatting (`formatDate`, `formatDateTime`, `formatRelativeTime`, `formatCurrency`) is left out. These depend on the locale and on `Intl`, and `formatRelativeTime` also reads the clock.
- ReviewModerationPage.Stats: the average rating is left out because it is floating-point division rounded by `toFixed(1)`. Only the total and the flagged count are stated.
- RegisterPage.IsValidRegistration: the email format check that the schema delegates to its validation library is left out. Any email string is accepted.
- The error toast that `onSubmit` shows when `register` throws is left out. The model's `register` cannot fail.
- Toasts, modal open/close flags, `navigate` calls and the success screen are left out. They are effects on the view only. Where the destination matters, it is returned as a value (`RegisterPage.Submit`).
- UserManagementPage.handleView is left out: it only shows the chosen user's fields in an alert and changes no state. The purely presentational pages and components are left out for the same reason.
- Helpers.GetInitials: only ASCII letters change case. JavaScript's full Unicode `toUpperCase`, which can lengthen a string, is not modelled.
- Strings.Lower: only ASCII letters change case. The same limit applies to the case-insensitive searches and to `getStatusColor`.
- Helpers.GetStatusColor: a status such as `constructor` that names an inherited property of a JavaScript object is treated as unknown. In the source it would return the inherited value instead.
- The auxiliary stores' `updates` objects are modelled without the fields of `details` set to `undefined`. A detail can be changed or kept, not removed.
- MaintenanceRequests, Contracts, Payments, Inquiries, EquipmentInventory and Vehicles: the record types these stores use are not part of this model. Each record keeps the fields the store reads, and all other fields are in `details`.
- The stores' concurrency with React rendering is left out. Each store call is atomic in the model, as `set` makes it in a single JavaScript thread.
- BookAppointmentPage.MinBookingDay: the picker's minimum is a UTC date, so east of UTC it can be the customer's own today and west of UTC the day after tomorrow (`MinBookingDayEastOfUtc`, `MinBookingDayWestOfUtc`). The time-zone offset is a parameter and is assumed fixed for the day; a daylight-saving change inside the added day is not modelled.
- RegisterPage.IsValidRegistration: a Dafny string is a sequence of Unicode scalar values, while the schema's minimum lengths count UTF-16 code units. A character outside the Basic Multilingual Plane counts once here and twice in the source, so the three minimum lengths can differ from the source for such text.
- RegisterPage.Submit: it is valid exactly when `IsValidRegistration` holds, so it inherits that predicate's scalar-value length counting for text outside the Basic Multilingual Plane.
- Helpers.FirstChars: `n[0]` takes one UTF-16 code unit in the source. Here it takes one whole scalar value, so for a word starting with a character outside the Basic Multilingual Plane the source yields a lone surrogate where the model yields the whole character.
- Helpers.GetInitials: `slice(0, 2)` counts UTF-16 code units in the source and scalar values here, so the initials differ from the source for names starting with characters outside the Basic Multilingual Plane.

## Findings

| source | as written | input that shows it | evidently intended | confidence | as-written member | corrected member |
|---|---|---|---|---|---|---|
| src/pages/customer/BookAppointmentPage.tsx:94-98 | `getMinDate` adds a local day and then takes the UTC date with `toISOString()`; the date picker compares that date with the customer's local date | 07:00 in UTC+8 (23:00 UTC the day before): the minimum is the customer's today | the customer's local tomorrow | not executed; high | BookAppointmentPage.MinBookingDay, BookAppointmentPage.ManilaMorning | BookAppointmentPage.LocalMinBookingDay |

The booking wizard never checks the chosen date against this minimum; only the picker does. Nothing else in the model depends on either definition.
