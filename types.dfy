/** The application's entities (src/types/index.ts), their `Partial<T>`
    updates, and the object-spread merge `{ ...record, ...updates }`.

    Ids are opaque strings.  Timestamps are numbers (milliseconds), the value
    `new Date(iso).getTime()` gives for the ISO strings the source stores, so
    that sorting by creation date can be stated; appointment dates and times
    stay strings, as the source keeps them. */
module Types {
  import opened Wrappers

  type Id = string
  type Time = int

  datatype Role = Customer | Agent | Admin
  datatype UserStatus = Active | Pending | Rejected
  datatype PropertyType = House | Condo | Apartment | Lot
  datatype PropertyStatus = Pending | Active | Sold | Rejected
  datatype AppointmentStatus = Pending | Confirmed | Completed | Cancelled
  datatype NotificationType = Info | Success | Warning | Error

  /** The role's path segment, `'customer' | 'agent' | 'admin'`. */
  function RoleName(r: Role): string {
    match r
    case Customer => "customer"
    case Agent => "agent"
    case Admin => "admin"
  }

  /** The status strings the records carry, as the pages pass them to
      `getStatusColor`. */
  function UserStatusName(s: UserStatus): string {
    match s
    case Active => "active"
    case Pending => "pending"
    case Rejected => "rejected"
  }

  function PropertyStatusName(s: PropertyStatus): string {
    match s
    case Pending => "pending"
    case Active => "active"
    case Sold => "sold"
    case Rejected => "rejected"
  }

  function AppointmentStatusName(s: AppointmentStatus): string {
    match s
    case Pending => "pending"
    case Confirmed => "confirmed"
    case Completed => "completed"
    case Cancelled => "cancelled"
  }

  // ---------------------------------------------------------------- User

  datatype User = User(
    id: Id, email: string, password: string, name: string, phone: string,
    role: Role, status: UserStatus, avatar: Option<string>,
    licenseNumber: Option<string>, agency: Option<string>, createdAt: Time)

  /** `Omit<User, 'id' | 'createdAt'>`, what `register` receives. */
  datatype UserDraft = UserDraft(
    email: string, password: string, name: string, phone: string,
    role: Role, status: UserStatus, avatar: Option<string>,
    licenseNumber: Option<string>, agency: Option<string>)

  datatype UserPatch = UserPatch(
    id: Change<Id>, email: Change<string>, password: Change<string>, name: Change<string>,
    phone: Change<string>, role: Change<Role>, status: Change<UserStatus>,
    avatar: Change<Option<string>>, licenseNumber: Change<Option<string>>,
    agency: Change<Option<string>>, createdAt: Change<Time>)

  const NoUserChange := UserPatch(Keep, Keep, Keep, Keep, Keep, Keep, Keep, Keep, Keep, Keep, Keep)

  /** `{ ...u, ...p }`. */
  function MergeUser(u: User, p: UserPatch): User {
    User(p.id.ApplyTo(u.id), p.email.ApplyTo(u.email), p.password.ApplyTo(u.password),
         p.name.ApplyTo(u.name), p.phone.ApplyTo(u.phone), p.role.ApplyTo(u.role),
         p.status.ApplyTo(u.status), p.avatar.ApplyTo(u.avatar),
         p.licenseNumber.ApplyTo(u.licenseNumber), p.agency.ApplyTo(u.agency),
         p.createdAt.ApplyTo(u.createdAt))
  }

  // ------------------------------------------------------------ Property

  datatype Property = Property(
    id: Id, agentId: Id, title: string, kind: PropertyType, price: real,
    location: string, bedrooms: int, bathrooms: int, area: real,
    description: string, photos: seq<string>, status: PropertyStatus,
    rejectionReason: Option<string>, views: int, createdAt: Time, updatedAt: Time)

  /** `Omit<Property, 'id' | 'createdAt' | 'updatedAt' | 'views'>`, what `addProperty` receives. */
  datatype PropertyDraft = PropertyDraft(
    agentId: Id, title: string, kind: PropertyType, price: real,
    location: string, bedrooms: int, bathrooms: int, area: real,
    description: string, photos: seq<string>, status: PropertyStatus,
    rejectionReason: Option<string>)

  datatype PropertyPatch = PropertyPatch(
    id: Change<Id>, agentId: Change<Id>, title: Change<string>, kind: Change<PropertyType>,
    price: Change<real>, location: Change<string>, bedrooms: Change<int>,
    bathrooms: Change<int>, area: Change<real>, description: Change<string>,
    photos: Change<seq<string>>, status: Change<PropertyStatus>,
    rejectionReason: Change<Option<string>>, views: Change<int>,
    createdAt: Change<Time>, updatedAt: Change<Time>)

  const NoPropertyChange := PropertyPatch(Keep, Keep, Keep, Keep, Keep, Keep, Keep, Keep,
                                          Keep, Keep, Keep, Keep, Keep, Keep, Keep, Keep)

  function MergeProperty(x: Property, p: PropertyPatch): Property {
    Property(p.id.ApplyTo(x.id), p.agentId.ApplyTo(x.agentId), p.title.ApplyTo(x.title),
             p.kind.ApplyTo(x.kind), p.price.ApplyTo(x.price), p.location.ApplyTo(x.location),
             p.bedrooms.ApplyTo(x.bedrooms), p.bathrooms.ApplyTo(x.bathrooms),
             p.area.ApplyTo(x.area), p.description.ApplyTo(x.description),
             p.photos.ApplyTo(x.photos), p.status.ApplyTo(x.status),
             p.rejectionReason.ApplyTo(x.rejectionReason), p.views.ApplyTo(x.views),
             p.createdAt.ApplyTo(x.createdAt), p.updatedAt.ApplyTo(x.updatedAt))
  }

  // --------------------------------------------------------- Appointment

  datatype Appointment = Appointment(
    id: Id, propertyId: Id, customerId: Id, agentId: Id, date: string, time: string,
    status: AppointmentStatus, specialRequests: Option<string>,
    cancellationReason: Option<string>, createdAt: Time, updatedAt: Time)

  /** `Omit<Appointment, 'id' | 'createdAt' | 'updatedAt'>`, what `createAppointment` receives. */
  datatype AppointmentDraft = AppointmentDraft(
    propertyId: Id, customerId: Id, agentId: Id, date: string, time: string,
    status: AppointmentStatus, specialRequests: Option<string>,
    cancellationReason: Option<string>)

  datatype AppointmentPatch = AppointmentPatch(
    id: Change<Id>, propertyId: Change<Id>, customerId: Change<Id>, agentId: Change<Id>,
    date: Change<string>, time: Change<string>, status: Change<AppointmentStatus>,
    specialRequests: Change<Option<string>>, cancellationReason: Change<Option<string>>,
    createdAt: Change<Time>, updatedAt: Change<Time>)

  const NoAppointmentChange := AppointmentPatch(Keep, Keep, Keep, Keep, Keep, Keep, Keep,
                                                Keep, Keep, Keep, Keep)

  function MergeAppointment(a: Appointment, p: AppointmentPatch): Appointment {
    Appointment(p.id.ApplyTo(a.id), p.propertyId.ApplyTo(a.propertyId),
                p.customerId.ApplyTo(a.customerId), p.agentId.ApplyTo(a.agentId),
                p.date.ApplyTo(a.date), p.time.ApplyTo(a.time), p.status.ApplyTo(a.status),
                p.specialRequests.ApplyTo(a.specialRequests),
                p.cancellationReason.ApplyTo(a.cancellationReason),
                p.createdAt.ApplyTo(a.createdAt), p.updatedAt.ApplyTo(a.updatedAt))
  }

  // -------------------------------------------------------------- Review

  datatype Review = Review(
    id: Id, propertyId: Id, customerId: Id, appointmentId: Id, rating: int,
    comment: string, flagged: bool, flagReason: Option<string>, adminEdited: bool,
    adminNote: Option<string>, createdAt: Time, updatedAt: Time)

  /** `Omit<Review, 'id' | 'createdAt' | 'updatedAt' | 'flagged' | 'adminEdited'>`. */
  datatype ReviewDraft = ReviewDraft(
    propertyId: Id, customerId: Id, appointmentId: Id, rating: int, comment: string,
    flagReason: Option<string>, adminNote: Option<string>)

  datatype ReviewPatch = ReviewPatch(
    id: Change<Id>, propertyId: Change<Id>, customerId: Change<Id>,
    appointmentId: Change<Id>, rating: Change<int>, comment: Change<string>,
    flagged: Change<bool>, flagReason: Change<Option<string>>, adminEdited: Change<bool>,
    adminNote: Change<Option<string>>, createdAt: Change<Time>, updatedAt: Change<Time>)

  const NoReviewChange := ReviewPatch(Keep, Keep, Keep, Keep, Keep, Keep, Keep, Keep,
                                      Keep, Keep, Keep, Keep)

  function MergeReview(r: Review, p: ReviewPatch): Review {
    Review(p.id.ApplyTo(r.id), p.propertyId.ApplyTo(r.propertyId),
           p.customerId.ApplyTo(r.customerId), p.appointmentId.ApplyTo(r.appointmentId),
           p.rating.ApplyTo(r.rating), p.comment.ApplyTo(r.comment),
           p.flagged.ApplyTo(r.flagged), p.flagReason.ApplyTo(r.flagReason),
           p.adminEdited.ApplyTo(r.adminEdited), p.adminNote.ApplyTo(r.adminNote),
           p.createdAt.ApplyTo(r.createdAt), p.updatedAt.ApplyTo(r.updatedAt))
  }

  // -------------------------------------------------------- Notification

  datatype Notification = Notification(
    id: Id, userId: Id, kind: NotificationType, title: string, message: string,
    read: bool, link: Option<string>, createdAt: Time)

  /** `Omit<Notification, 'id' | 'createdAt' | 'read'>`, what `createNotification` receives. */
  datatype NotificationDraft = NotificationDraft(
    userId: Id, kind: NotificationType, title: string, message: string, link: Option<string>)
}
