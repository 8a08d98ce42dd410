/** The local user directory and the signed-in user. */
module UserStore {
  import opened Wrappers
  import opened Text
  import opened Types
  import opened Seqs

  const DEFAULT_ADMIN := User("seed-admin", "admin", "password", Administrator, Some("Admin"))

  const MOCK_USERS: seq<User> := [
    User("seed-designer", "designer", "password", TravelDesigner, Some("Inès Redjem")),
    User("seed-sales", "sales", "password", SalesAgent, Some("Yasmine Bakkali")),
    User("seed-viewer", "viewer", "password", Viewer, Some("Observateur Ops"))]

  const SEED_USERS: seq<User> := [DEFAULT_ADMIN] + MOCK_USERS

  const INVALID_CREDENTIALS := "Identifiants invalides"

  datatype AuthResult = AuthResult(success: bool, message: Option<string>)

  /** A `Partial<Omit<User, "id">>`. */
  datatype UserPatch = UserPatch(username: Option<string>, password: Option<string>, role: Option<UserRole>, fullName: Option<Option<string>>)

  /** `{ ...existing, ...updater, id: existing.id }`: the patch's value where given, and the id kept. */
  function ApplyUserPatch(u: User, patch: UserPatch): (r: User)
    ensures r.id == u.id
    ensures r.username == patch.username.GetOr(u.username) && r.password == patch.password.GetOr(u.password)
    ensures r.role == patch.role.GetOr(u.role) && r.fullName == patch.fullName.GetOr(u.fullName)
    ensures patch == UserPatch(None, None, None, None) ==> r == u
  {
    User(u.id, patch.username.GetOr(u.username), patch.password.GetOr(u.password),
      patch.role.GetOr(u.role), patch.fullName.GetOr(u.fullName))
  }

  /** The first user with these exact credentials. */
  function FindByCredentials(users: seq<User>, username: string, password: string): (r: Option<User>)
    ensures r.None? <==> forall i :: 0 <= i < |users| ==> users[i].username != username || users[i].password != password
    ensures r.Some? ==> r.value.username == username && r.value.password == password
    ensures r.Some? ==> exists i :: 0 <= i < |users| && users[i] == r.value && (forall j :: 0 <= j < i ==> users[j].username != username || users[j].password != password)
  {
    if users == [] then None
    else if users[0].username == username && users[0].password == password then Some(users[0])
    else
      var r := FindByCredentials(users[1..], username, password);
      assert forall j :: 0 <= j < |users| - 1 ==> users[1..][j] == users[j + 1];
      r
  }

  /** The first user with this id. */
  function FindById(users: seq<User>, id: string): (r: Option<User>)
    ensures r.None? <==> forall i :: 0 <= i < |users| ==> users[i].id != id
    ensures r.Some? ==> r.value.id == id
    ensures r.Some? ==> exists i :: 0 <= i < |users| && users[i] == r.value && forall j :: 0 <= j < i ==> users[j].id != id
  {
    if users == [] then None
    else if users[0].id == id then Some(users[0])
    else
      var r := FindById(users[1..], id);
      assert forall j :: 0 <= j < |users| - 1 ==> users[1..][j] == users[j + 1];
      r
  }

  /** Every user with this id becomes `next`. */
  function ReplaceById(users: seq<User>, id: string, next: User): (r: seq<User>)
    ensures |r| == |users|
    ensures forall i :: 0 <= i < |users| ==> r[i] == if users[i].id == id then next else users[i]
  {
    seq(|users|, i requires 0 <= i < |users| => if users[i].id == id then next else users[i])
  }

  /** `users.filter((u) => u.id !== id)`: the other users, each as often as before, in order. */
  function WithoutUser(users: seq<User>, id: string): (r: seq<User>)
    ensures Subsequence(r, users)
    ensures forall u :: multiset(r)[u] == if u.id != id then multiset(users)[u] else 0
    ensures forall u :: u in r <==> u in users && u.id != id
    ensures |r| <= |users|
  {
    var keep := (u: User) => u.id != id;
    FilterKeeps(users, keep);
    Filter(users, keep)
  }

  predicate HasUsername(users: seq<User>, username: string) {
    exists i :: 0 <= i < |users| && users[i].username == username
  }

  /** `mocks.filter((u) => !existing.has(u.username))`: the mocks whose usernames are free, in their own order. */
  function MissingMockUsers(users: seq<User>, mocks: seq<User>): (r: seq<User>)
    ensures Subsequence(r, mocks)
    ensures forall u :: multiset(r)[u] == if !HasUsername(users, u.username) then multiset(mocks)[u] else 0
    ensures forall u :: u in r <==> u in mocks && !HasUsername(users, u.username)
  {
    var keep := (u: User) => !HasUsername(users, u.username);
    FilterKeeps(mocks, keep);
    Filter(mocks, keep)
  }

  /** With every mock username taken, there is nothing to seed. */
  lemma NothingMissingWhenAllTaken(users: seq<User>, mocks: seq<User>)
    requires forall i :: 0 <= i < |mocks| ==> HasUsername(users, mocks[i].username)
    ensures MissingMockUsers(users, mocks) == []
  {
  }

  /** After seeding, every mock username is taken. */
  lemma SeedingTakesEveryMock(users: seq<User>, mocks: seq<User>)
    ensures forall n :: 0 <= n < |mocks| ==> HasUsername(users + MissingMockUsers(users, mocks), mocks[n].username)
  {
    var added := MissingMockUsers(users, mocks);
    var after := users + added;
    forall n | 0 <= n < |mocks| ensures HasUsername(after, mocks[n].username) {
      var m := mocks[n];
      if HasUsername(users, m.username) {
        var i :| 0 <= i < |users| && users[i].username == m.username;
        assert after[i] == users[i];
      } else {
        assert m in added;
        var k :| 0 <= k < |added| && added[k] == m;
        assert after[|users| + k] == m;
      }
    }
  }

  /** After seeding, no mock user is missing any more: a second seeding is a no-op. */
  lemma SeedingIsIdempotent(users: seq<User>, mocks: seq<User>)
    ensures MissingMockUsers(users + MissingMockUsers(users, mocks), mocks) == []
  {
    SeedingTakesEveryMock(users, mocks);
    NothingMissingWhenAllTaken(users + MissingMockUsers(users, mocks), mocks);
  }

  function WithAdmin(users: seq<User>): (r: seq<User>)
    ensures HasUsername(r, DEFAULT_ADMIN.username)
    ensures HasUsername(users, DEFAULT_ADMIN.username) ==> r == users
    ensures !HasUsername(users, DEFAULT_ADMIN.username) ==> r == users + [DEFAULT_ADMIN]
  {
    if HasUsername(users, DEFAULT_ADMIN.username) then users
    else
      var r := users + [DEFAULT_ADMIN];
      assert r[|users|].username == DEFAULT_ADMIN.username;
      r
  }

  lemma EnsureAdminIsIdempotent(users: seq<User>)
    ensures WithAdmin(WithAdmin(users)) == WithAdmin(users)
  {
  }

  class Store {
    var users: seq<User>
    var currentUser: Option<User>

    constructor ()
      ensures users == SEED_USERS && currentUser.None?
    {
      users := SEED_USERS;
      currentUser := None;
    }

    /** `login`: the first user with both credentials becomes the current user. */
    method Login(username: string, password: string) returns (r: AuthResult)
      modifies this
      ensures users == old(users)
      ensures r.success <==> FindByCredentials(old(users), username, password).Some?
      ensures r.success ==> r.message.None? && currentUser == FindByCredentials(old(users), username, password)
      ensures !r.success ==> r.message == Some(INVALID_CREDENTIALS) && currentUser == old(currentUser)
    {
      var found := FindByCredentials(users, username, password);
      if found.None? {
        return AuthResult(false, Some(INVALID_CREDENTIALS));
      }
      currentUser := found;
      r := AuthResult(true, None);
    }

    method Logout()
      modifies this
      ensures users == old(users) && currentUser.None?
    {
      currentUser := None;
    }

    /** `register`: the draft's id is replaced by `id`. */
    method Register(draft: User, id: string) returns (created: User)
      modifies this
      ensures created == draft.(id := id)
      ensures users == old(users) + [created] && currentUser == old(currentUser)
    {
      created := draft.(id := id);
      users := users + [created];
    }

    method UpdateUser(id: string, patch: UserPatch) returns (updated: Option<User>)
      modifies this
      ensures FindById(old(users), id).None? ==> updated.None? && users == old(users) && currentUser == old(currentUser)
      ensures FindById(old(users), id).Some? ==>
        var next := ApplyUserPatch(FindById(old(users), id).value, patch);
        updated == Some(next) && next.id == id &&
        users == ReplaceById(old(users), id, next) &&
        currentUser == if old(currentUser).Some? && old(currentUser).value.id == id then Some(next) else old(currentUser)
    {
      var existing := FindById(users, id);
      if existing.None? {
        return None;
      }
      var next := ApplyUserPatch(existing.value, patch);
      users := ReplaceById(users, id, next);
      if currentUser.Some? && currentUser.value.id == id {
        currentUser := Some(next);
      }
      updated := Some(next);
    }

    /** `deleteUser`: the seeded administrator cannot be deleted. */
    method DeleteUser(id: string) returns (deleted: bool)
      modifies this
      ensures deleted <==> id != DEFAULT_ADMIN.id
      ensures !deleted ==> users == old(users) && currentUser == old(currentUser)
      ensures deleted ==> users == WithoutUser(old(users), id)
      ensures deleted ==> currentUser == if old(currentUser).Some? && old(currentUser).value.id == id then None else old(currentUser)
    {
      if id == DEFAULT_ADMIN.id {
        return false;
      }
      users := WithoutUser(users, id);
      if currentUser.Some? && currentUser.value.id == id {
        currentUser := None;
      }
      deleted := true;
    }

    /** `resetPassword`: a blank password is refused; otherwise the result says whether the user exists. */
    method ResetPassword(id: string, newPassword: string) returns (ok: bool)
      modifies this
      ensures IsBlank(newPassword) ==> !ok && users == old(users) && currentUser == old(currentUser)
      ensures !IsBlank(newPassword) ==> (ok <==> FindById(old(users), id).Some?)
      ensures !IsBlank(newPassword) && !ok ==> users == old(users) && currentUser == old(currentUser)
      ensures !IsBlank(newPassword) && ok ==>
        var next := FindById(old(users), id).value.(password := newPassword);
        users == ReplaceById(old(users), id, next) &&
        currentUser == if old(currentUser).Some? && old(currentUser).value.id == id then Some(next) else old(currentUser)
    {
      TrimEmptyIffBlank(newPassword);
      if Trim(newPassword) == "" {
        return false;
      }
      var updated := UpdateUser(id, UserPatch(None, Some(newPassword), None, None));
      ok := updated.Some?;
    }

    /** `seedDemoUsers` */
    method SeedDemoUsers()
      modifies this
      ensures users == old(users) + MissingMockUsers(old(users), MOCK_USERS) && currentUser == old(currentUser)
    {
      var toAdd := MissingMockUsers(users, MOCK_USERS);
      if |toAdd| == 0 {
        return;
      }
      users := users + toAdd;
    }

    /** `ensureAdmin` */
    method EnsureAdmin()
      modifies this
      ensures users == WithAdmin(old(users)) && currentUser == old(currentUser)
    {
      if !HasUsername(users, DEFAULT_ADMIN.username) {
        users := users + [DEFAULT_ADMIN];
      }
    }
  }
}
