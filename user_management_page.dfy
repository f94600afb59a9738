/** The admin's user list (src/pages/admin/UserManagementPage.tsx): a role
    filter, a search box, newest accounts first, counts per role, and the
    edit, deactivate and activate actions. */
module UserManagementPage {
  import opened Wrappers
  import opened Types
  import opened Strings
  import Seqs
  import Auth

  /** The role drop-down: every user, or one role. */
  datatype RoleFilter = All | Only(role: Role)

  predicate HasRole(u: User, f: RoleFilter) {
    f.All? || u.role == f.role
  }

  /** The search box matches the name or the email, ignoring case. */
  predicate MatchesQuery(u: User, query: string) {
    ContainsIgnoringCase(u.name, query) || ContainsIgnoringCase(u.email, query)
  }

  /** Whether a user survives both the role filter and the search. */
  predicate Kept(u: User, f: RoleFilter, query: string) {
    HasRole(u, f) && (query == "" || MatchesQuery(u, query))
  }

  function ByRole(users: seq<User>, f: RoleFilter): (r: seq<User>)
    ensures f.All? ==> r == users
    ensures Seqs.IsFilterOf(r, users, (u: User) => HasRole(u, f))
  {
    if f.All? then
      Seqs.FilterAll(users, (u: User) => HasRole(u, f));
      Seqs.FilterIsFilterOf(users, (u: User) => HasRole(u, f));
      users
    else
      Seqs.FilterIsFilterOf(users, (u: User) => HasRole(u, f));
      Seqs.Filter(users, (u: User) => HasRole(u, f))
  }

  function BySearch(users: seq<User>, query: string): (r: seq<User>)
    ensures query == "" ==> r == users
    ensures query != "" ==> Seqs.IsFilterOf(r, users, (u: User) => MatchesQuery(u, query))
  {
    if query == "" then users
    else
      Seqs.FilterIsFilterOf(users, (u: User) => MatchesQuery(u, query));
      Seqs.Filter(users, (u: User) => MatchesQuery(u, query))
  }

  /** `filteredUsers`: exactly the users kept by the role filter and the
      search, every occurrence of each, sorted newest account first. */
  function FilteredUsers(users: seq<User>, f: RoleFilter, query: string): (r: seq<User>)
    ensures Seqs.SortedDesc(r, (u: User) => u.createdAt)
    ensures forall u :: multiset(r)[u] == if Kept(u, f, query) then multiset(users)[u] else 0
  {
    var roles := ByRole(users, f);
    var found := BySearch(roles, query);
    var r := Seqs.SortDesc(found, (u: User) => u.createdAt);
    assert forall u :: multiset(roles)[u] == if HasRole(u, f) then multiset(users)[u] else 0;
    r
  }

  /** The header counts. */
  datatype UserStats = UserStats(total: nat, customers: nat, agents: nat, admins: nat)

  /** `stats`: since every user has one of the three roles, the three counts
      add up to the total. */
  function Stats(users: seq<User>): (s: UserStats)
    ensures s.total == |users|
    ensures s.customers == Seqs.Count(users, (u: User) => u.role == Customer)
    ensures s.agents == Seqs.Count(users, (u: User) => u.role == Agent)
    ensures s.admins == Seqs.Count(users, (u: User) => u.role == Admin)
    ensures s.customers + s.agents + s.admins == s.total
  {
    Seqs.FilterLength(users, (u: User) => u.role == Customer);
    Seqs.FilterLength(users, (u: User) => u.role == Agent);
    Seqs.FilterLength(users, (u: User) => u.role == Admin);
    RolesPartition(users);
    UserStats(|users|,
              |Seqs.Filter(users, (u: User) => u.role == Customer)|,
              |Seqs.Filter(users, (u: User) => u.role == Agent)|,
              |Seqs.Filter(users, (u: User) => u.role == Admin)|)
  }

  lemma {:induction false} RolesPartition(users: seq<User>)
    ensures Seqs.Count(users, (u: User) => u.role == Customer) +
            Seqs.Count(users, (u: User) => u.role == Agent) +
            Seqs.Count(users, (u: User) => u.role == Admin) == |users|
    decreases |users|
  {
    if users != [] {
      RolesPartition(users[1..]);
    }
  }

  function NamePatch(name: string): UserPatch {
    NoUserChange.(name := Put(name))
  }

  /** `handleEdit(userId)` with the answer `newName` to the prompt: renames
      only an existing user, and only to a non-empty, different name. */
  method HandleEdit(auth: Auth.AuthStore, userId: Id, newName: Option<string>)
    requires auth.Valid()
    modifies auth
    ensures auth.Valid()
    ensures var u := Auth.FindUser(old(auth.users), userId);
      if u.Some? && Truthy(newName) && newName.value != u.value.name then
        auth.users == Auth.UpdatedUsers(old(auth.users), userId, NamePatch(newName.value)) &&
        auth.currentUser == Auth.UpdatedSession(old(auth.currentUser), userId, NamePatch(newName.value))
      else
        auth.users == old(auth.users) && auth.currentUser == old(auth.currentUser)
  {
    var u := Auth.FindUser(auth.users, userId);
    if u.None? {
      return;
    }
    if newName.Some? && newName.value != "" && newName.value != u.value.name {
      auth.UpdateUser(userId, NamePatch(newName.value));
    }
  }

  /** `handleDeactivate(userId)` with the answer `confirmed` to the dialog:
      an admin is never deactivated; any other existing user is set to
      `rejected` once the admin confirms. */
  method HandleDeactivate(auth: Auth.AuthStore, userId: Id, confirmed: bool)
    requires auth.Valid()
    modifies auth
    ensures auth.Valid()
    ensures var u := Auth.FindUser(old(auth.users), userId);
      if u.Some? && u.value.role != Admin && confirmed then
        auth.users == Auth.UpdatedUsers(old(auth.users), userId, Auth.StatusPatch(UserStatus.Rejected)) &&
        auth.currentUser == Auth.UpdatedSession(old(auth.currentUser), userId, Auth.StatusPatch(UserStatus.Rejected))
      else
        auth.users == old(auth.users) && auth.currentUser == old(auth.currentUser)
  {
    var u := Auth.FindUser(auth.users, userId);
    if u.None? {
      return;
    }
    if u.value.role == Admin {
      return;
    }
    if confirmed {
      auth.UpdateUser(userId, Auth.StatusPatch(UserStatus.Rejected));
    }
  }

  /** `handleActivate(userId)`: any existing user, admins included, becomes `active`. */
  method HandleActivate(auth: Auth.AuthStore, userId: Id)
    requires auth.Valid()
    modifies auth
    ensures auth.Valid()
    ensures if Auth.FindUser(old(auth.users), userId).Some? then
              auth.users == Auth.UpdatedUsers(old(auth.users), userId, Auth.StatusPatch(UserStatus.Active)) &&
              auth.currentUser == Auth.UpdatedSession(old(auth.currentUser), userId, Auth.StatusPatch(UserStatus.Active))
            else
              auth.users == old(auth.users) && auth.currentUser == old(auth.currentUser)
  {
    var u := Auth.FindUser(auth.users, userId);
    if u.Some? {
      auth.UpdateUser(userId, Auth.StatusPatch(UserStatus.Active));
    }
  }

  /** With ids unique, deactivation leaves every admin as it was. */
  lemma DeactivationSparesAdmins(users: seq<User>, userId: Id)
    requires forall i, j :: 0 <= i < j < |users| ==> users[i].id != users[j].id
    requires Auth.FindUser(users, userId).Some? ==> Auth.FindUser(users, userId).value.role != Admin
    ensures var r := Auth.UpdatedUsers(users, userId, Auth.StatusPatch(UserStatus.Rejected));
      forall i :: 0 <= i < |users| && users[i].role == Admin ==> r[i] == users[i]
  {
    var r := Auth.UpdatedUsers(users, userId, Auth.StatusPatch(UserStatus.Rejected));
    forall i | 0 <= i < |users| && users[i].role == Admin ensures r[i] == users[i] {
      Auth.FindUserUnique(users, i);
    }
  }
}
