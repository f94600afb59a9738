/** The sign-up page (src/pages/auth/RegisterPage.tsx): the form's
    validation rules, the account it hands to `register`, and where the new
    user is sent. */
module RegisterPage {
  import opened Wrappers
  import opened Types
  import opened Strings
  import Auth
  import ProtectedRoute

  /** The form's fields.  The role drop-down offers customer and agent. */
  datatype RegisterForm = RegisterForm(
    name: string, email: string, phone: string, password: string,
    confirmPassword: string, role: Role, licenseNumber: Option<string>, agency: Option<string>)

  /** The form's schema: minimum lengths, matching passwords, no admin
      accounts, and a licence number and agency for agents. */
  predicate IsValidRegistration(f: RegisterForm): (ok: bool)
    ensures ok ==> f.role == Customer || f.role == Agent
    ensures ok && f.role == Agent ==> f.licenseNumber.Some? && f.agency.Some?
    ensures ok ==> |f.confirmPassword| >= 6
  {
    |f.name| >= 2 && |f.phone| >= 10 && |f.password| >= 6 &&
    f.password == f.confirmPassword &&
    f.role != Admin &&
    (f.role == Agent ==> Truthy(f.licenseNumber) && Truthy(f.agency))
  }

  /** What `onSubmit` hands to `register`: the status is `pending` for an
      agent and `active` for a customer; the licence and agency go through
      as typed. */
  function SubmittedDraft(f: RegisterForm): (d: UserDraft)
    ensures d.name == f.name && d.email == f.email && d.phone == f.phone && d.password == f.password
    ensures d.role == f.role && d.avatar.None?
    ensures d.licenseNumber == f.licenseNumber && d.agency == f.agency
    ensures d.status == if f.role == Agent then UserStatus.Pending else UserStatus.Active
  {
    UserDraft(f.email, f.password, f.name, f.phone, f.role,
              if f.role == Agent then UserStatus.Pending else UserStatus.Active,
              None, f.licenseNumber, f.agency)
  }

  /** The page's status agrees with the one the store forces: the store's
      override changes nothing for a form that passed validation. */
  lemma PageStatusAgreesWithStore(f: RegisterForm)
    requires IsValidRegistration(f)
    ensures SubmittedDraft(f).status == Auth.RegisteredStatus(f.role)
  {
  }

  /** Where the page sends the new user. */
  function Destination(u: User): (path: Option<string>)
    ensures path.Some? <==> u.role != Admin
    ensures path.Some? ==> path.value == ProtectedRoute.Dashboard(u.role)
  {
    match u.role
    case Customer => Some("/customer/dashboard")
    case Agent => Some("/agent/dashboard")
    case Admin => None
  }

  /** A valid form signs in exactly the new customers; an agent's account
      waits for approval. */
  lemma SignedInIffCustomer(f: RegisterForm, id: Id, now: Time)
    requires IsValidRegistration(f)
    ensures var u := Auth.NewUser(SubmittedDraft(f), id, now);
      (u.status == UserStatus.Active <==> f.role == Customer) &&
      (u.status == UserStatus.Pending <==> f.role == Agent)
  {
  }

  /** A new agent is sent to the agent dashboard without being signed in,
      so when nobody was signed in before, the guard sends the agent on to
      the home page. */
  lemma NewAgentLandsOnHome(f: RegisterForm, id: Id, now: Time)
    requires IsValidRegistration(f) && f.role == Agent
    ensures var u := Auth.NewUser(SubmittedDraft(f), id, now);
      Destination(u) == Some("/agent/dashboard") &&
      u.status != UserStatus.Active &&
      ProtectedRoute.Guard(None, [Agent]) == ProtectedRoute.Redirect("/")
  {
  }

  /** `handleSubmit(onSubmit)`: an invalid form is refused before `onSubmit`
      runs; a valid one registers the account and reports the page to go
      to. */
  method Submit(auth: Auth.AuthStore, f: RegisterForm, id: Id, now: Time)
    returns (registered: Option<User>, path: Option<string>)
    requires auth.Valid()
    modifies auth
    ensures auth.Valid()
    ensures !IsValidRegistration(f) ==>
              registered.None? && path.None? &&
              auth.users == old(auth.users) && auth.currentUser == old(auth.currentUser)
    ensures IsValidRegistration(f) ==>
              registered == Some(Auth.NewUser(SubmittedDraft(f), id, now)) &&
              auth.users == old(auth.users) + [registered.value] &&
              path == Destination(registered.value) && path.Some? &&
              (f.role == Customer ==> auth.currentUser == registered) &&
              (f.role == Agent ==> auth.currentUser == old(auth.currentUser))
  {
    if !IsValidRegistration(f) {
      return None, None;
    }
    var u := auth.Register(SubmittedDraft(f), id, now);
    registered := Some(u);
    path := Destination(u);
  }
}
