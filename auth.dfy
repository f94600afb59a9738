/** The authentication store (src/store/authStore.ts): the user list, the
    signed-in user, and the two storage keys behind them. */
module Auth {
  import opened Wrappers
  import opened Types
  import Seqs

  /** The first user with that id (`users.find(u => u.id === id)`). */
  function FindUser(users: seq<User>, id: Id): (r: Option<User>)
    ensures r.None? <==> forall u :: u in users ==> u.id != id
    ensures r.Some? ==> r.value in users && r.value.id == id
    ensures r.Some? ==> r.value == users[Seqs.FirstIndex(users, (u: User) => u.id == id)]
  {
    Seqs.Find(users, (u: User) => u.id == id)
  }

  /** With ids unique, looking a user up by id finds that very user. */
  lemma FindUserUnique(users: seq<User>, i: nat)
    requires forall a, b :: 0 <= a < b < |users| ==> users[a].id != users[b].id
    requires i < |users|
    ensures FindUser(users, users[i].id) == Some(users[i])
  {
    var k := Seqs.FirstIndex(users, (u: User) => u.id == users[i].id);
    assert users[i] in users;
    assert k < |users| && users[k].id == users[i].id;
    assert !(k < i) && !(i < k);
  }

  predicate Matches(u: User, email: string, password: string) {
    u.email == email && u.password == password
  }

  /** The user `login` signs in: the first whose email and password both
      match (plain string equality), absent iff there is none. */
  function FindByCredentials(users: seq<User>, email: string, password: string): (r: Option<User>)
    ensures r.None? <==> forall u :: u in users ==> !Matches(u, email, password)
    ensures r.Some? ==> exists k :: (0 <= k < |users| && r.value == users[k] &&
              Matches(users[k], email, password) &&
              forall j :: 0 <= j < k ==> !Matches(users[j], email, password))
  {
    var p := (u: User) => Matches(u, email, password);
    var r := Seqs.Find(users, p);
    if r.Some? then
      assert r.value == users[Seqs.FirstIndex(users, p)];
      r
    else r
  }

  /** The status `register` forces: agents wait for approval, everyone else is active. */
  function RegisteredStatus(role: Role): (s: UserStatus)
    ensures s == UserStatus.Pending <==> role == Agent
    ensures s == UserStatus.Active <==> role != Agent
  {
    if role == Agent then UserStatus.Pending else UserStatus.Active
  }

  /** The record `register` stores: the draft with a fresh id and creation
      time, and the forced status whatever status the caller passed. */
  function NewUser(draft: UserDraft, id: Id, now: Time): (u: User)
    ensures u.status == RegisteredStatus(draft.role)
    ensures u.id == id && u.createdAt == now
    ensures u.email == draft.email && u.password == draft.password && u.name == draft.name
    ensures u.phone == draft.phone && u.role == draft.role && u.avatar == draft.avatar
    ensures u.licenseNumber == draft.licenseNumber && u.agency == draft.agency
  {
    User(id, draft.email, draft.password, draft.name, draft.phone, draft.role,
         RegisteredStatus(draft.role), draft.avatar, draft.licenseNumber, draft.agency, now)
  }

  /** The list after `updateUser(userId, updates)`: merged into the matching
      users only; no timestamp is touched. */
  function UpdatedUsers(users: seq<User>, userId: Id, updates: UserPatch): (r: seq<User>)
    ensures |r| == |users|
    ensures forall i :: 0 <= i < |r| && users[i].id == userId ==> r[i] == MergeUser(users[i], updates)
    ensures forall i :: 0 <= i < |r| && users[i].id != userId ==> r[i] == users[i]
    ensures (forall u :: u in users ==> u.id != userId) ==> r == users
  {
    Seqs.MapWhere(users, (u: User) => u.id == userId, (u: User) => MergeUser(u, updates))
  }

  /** `{ status: s }`, the update the admin pages send. */
  function StatusPatch(s: UserStatus): UserPatch {
    NoUserChange.(status := Put(s))
  }

  /** The signed-in user after `updateUser(userId, updates)`. */
  function UpdatedSession(current: Option<User>, userId: Id, updates: UserPatch): Option<User> {
    if current.Some? && current.value.id == userId then Some(MergeUser(current.value, updates)) else current
  }

  /** A signed-in user taken from the list is still in the list after an
      update, merged exactly as the list's copy is: the mirror stays in step. */
  lemma {:induction false} UpdateKeepsSessionInUsers(users: seq<User>, current: User, userId: Id, updates: UserPatch)
    requires current in users
    ensures UpdatedSession(Some(current), userId, updates).value in UpdatedUsers(users, userId, updates)
  {
    var k :| 0 <= k < |users| && users[k] == current;
    assert UpdatedUsers(users, userId, updates)[k] == UpdatedSession(Some(current), userId, updates).value;
  }

  /** The users `initializeAuth` loads: the demo users when storage is empty. */
  function InitialUsers(stored: seq<User>, demo: seq<User>): (r: seq<User>)
    ensures stored == [] ==> r == demo
    ensures stored != [] ==> r == stored
  {
    if |stored| == 0 then demo else stored
  }

  /** The signed-in user after `initializeAuth`: the saved session is replaced
      by the fresh copy of that user from the list read from storage, when it
      is there; otherwise the signed-in user is left as it was. */
  function RestoredSession(stored: seq<User>, saved: Option<User>, current: Option<User>): Option<User> {
    if saved.None? then current
    else
      match FindUser(stored, saved.value.id)
      case Some(u) => Some(u)
      case None => current
  }

  /** The lookup runs on the list read from storage, not on the seeded demo
      list: when storage held no users, no session is restored, even one that
      names a demo user. */
  lemma SeededStartRestoresNothing(demo: seq<User>, saved: Option<User>, current: Option<User>)
    ensures RestoredSession([], saved, current) == current
  {
  }

  /** A restored session is a user of the loaded list. */
  lemma RestoredSessionInUsers(stored: seq<User>, demo: seq<User>, saved: Option<User>)
    ensures var s := RestoredSession(stored, saved, None);
      s.Some? ==> s.value in InitialUsers(stored, demo) && s.value.id == saved.value.id
  {
  }

  class AuthStore {
    var users: seq<User>
    var currentUser: Option<User>
    /** The copies under the users and current-user storage keys. */
    ghost var persistedUsers: seq<User>
    ghost var persistedSession: Option<User>

    ghost predicate Valid()
      reads this
    {
      persistedUsers == users
    }

    /** The signed-in user, if any, is one of the users. */
    ghost predicate SessionInUsers()
      reads this
    {
      currentUser.Some? ==> currentUser.value in users
    }

    constructor ()
      ensures users == [] && currentUser == None && Valid()
    {
      users := [];
      currentUser := None;
      persistedUsers := [];
      persistedSession := None;
    }

    /** `initializeAuth`, given what storage holds under the two keys. */
    method InitializeAuth(stored: seq<User>, demo: seq<User>, saved: Option<User>)
      modifies this
      ensures users == InitialUsers(stored, demo) && Valid()
      ensures currentUser == RestoredSession(stored, saved, old(currentUser))
      ensures persistedSession ==
                (if saved.Some? && FindUser(stored, saved.value.id).Some? then currentUser else saved)
      ensures old(currentUser).None? ==> SessionInUsers()
    {
      if |stored| == 0 {
        persistedUsers := demo;
        users := demo;
      } else {
        users := stored;
        persistedUsers := stored;
      }
      persistedSession := saved;
      if saved.Some? {
        var updated := FindUser(stored, saved.value.id);
        if updated.Some? {
          persistedSession := Some(updated.value);
          currentUser := Some(updated.value);
        }
      }
    }

    /** `login`: signs in the first user with those credentials. */
    method Login(email: string, password: string) returns (r: Option<User>)
      modifies this
      ensures r == FindByCredentials(old(users), email, password)
      ensures users == old(users) && persistedUsers == old(persistedUsers)
      ensures r.Some? ==> currentUser == r && persistedSession == r
      ensures r.None? ==> currentUser == old(currentUser) && persistedSession == old(persistedSession)
      ensures old(SessionInUsers()) ==> SessionInUsers()
    {
      r := FindByCredentials(users, email, password);
      if r.Some? {
        persistedSession := r;
        currentUser := r;
      }
    }

    /** `logout`. */
    method Logout()
      modifies this
      ensures currentUser == None && persistedSession == None
      ensures users == old(users) && persistedUsers == old(persistedUsers)
    {
      persistedSession := None;
      currentUser := None;
    }

    /** `register`: appends the user and signs it in only when it is active,
      so a new agent is not signed in. */
    method Register(draft: UserDraft, id: Id, now: Time) returns (u: User)
      modifies this
      ensures u == NewUser(draft, id, now)
      ensures users == old(users) + [u] && Valid()
      ensures u.status == UserStatus.Active ==> currentUser == Some(u) && persistedSession == Some(u)
      ensures u.status != UserStatus.Active ==>
                currentUser == old(currentUser) && persistedSession == old(persistedSession)
      ensures old(SessionInUsers()) ==> SessionInUsers()
    {
      u := NewUser(draft, id, now);
      users := users + [u];
      persistedUsers := users;
      if u.status == UserStatus.Active {
        persistedSession := Some(u);
        currentUser := Some(u);
      }
    }

    /** `updateUser`: merges into the list and, when the ids coincide, applies
      the same merge to the signed-in user. */
    method UpdateUser(userId: Id, updates: UserPatch)
      modifies this
      ensures users == UpdatedUsers(old(users), userId, updates) && Valid()
      ensures currentUser == UpdatedSession(old(currentUser), userId, updates)
      ensures persistedSession ==
                (if old(currentUser).Some? && old(currentUser).value.id == userId then currentUser
                 else old(persistedSession))
      ensures old(SessionInUsers()) ==> SessionInUsers()
    {
      var before := currentUser;
      users := UpdatedUsers(users, userId, updates);
      persistedUsers := users;
      if before.Some? && before.value.id == userId {
        if before.value in old(users) {
          UpdateKeepsSessionInUsers(old(users), before.value, userId, updates);
        }
        var updated := MergeUser(before.value, updates);
        persistedSession := Some(updated);
        currentUser := Some(updated);
      }
    }

    /** `updateProfile`: `updateUser` on the signed-in user; nothing without one. */
    method UpdateProfile(updates: UserPatch)
      modifies this
      ensures old(currentUser).None? ==>
                users == old(users) && currentUser == None && persistedSession == old(persistedSession)
                && persistedUsers == old(persistedUsers)
      ensures old(currentUser).Some? ==>
                users == UpdatedUsers(old(users), old(currentUser).value.id, updates) && Valid() &&
                currentUser == Some(MergeUser(old(currentUser).value, updates)) &&
                persistedSession == currentUser
      ensures old(SessionInUsers()) ==> SessionInUsers()
    {
      if currentUser.Some? {
        UpdateUser(currentUser.value.id, updates);
      }
    }
  }
}
