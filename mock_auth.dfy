/** The demo sign-in store (`lib/mock-auth.ts`): two fixed users, a current user held in a static
    field and a copy of it kept in browser storage under one key. */
module MockAuth {
  import opened Common

  datatype MockUser = MockUser(id: string, handle: string, name: string, avatar: string, points: int)

  /** `MOCK_USERS`. */
  const MockUsers: seq<MockUser> := [
    MockUser("mock_user_1", "grindmaster", "Grind Master",
             "https://api.dicebear.com/7.x/avataaars/svg?seed=grindmaster", 3250),
    MockUser("mock_user_2", "newbie", "Grind Newbie",
             "https://api.dicebear.com/7.x/avataaars/svg?seed=newbie", 150)
  ]

  /** The storage key of the signed-in user. */
  const StorageKey := "mock_current_user"

  /** What a call does: it returns a value, or it throws because there is no browser storage. */
  datatype Outcome<T> = Returned(value: T) | Threw

  /** `MOCK_USERS.find(u => u.id === userId)`: the first fixed user with that id. */
  function Find(users: seq<MockUser>, userId: string): (r: Option<MockUser>)
    ensures r.Some? <==> exists i :: 0 <= i < |users| && users[i].id == userId
    ensures r.Some? ==> r.value in users && r.value.id == userId
    decreases |users|
  {
    if users == [] then None
    else if users[0].id == userId then Some(users[0])
    else
      var r := Find(users[1..], userId);
      assert forall i :: 1 <= i < |users| ==> users[i] == users[1..][i - 1];
      r
  }

  /** The fixed users have distinct ids, so `Find` returns the only user with the id. */
  lemma FixedUsersAreDistinct()
    ensures forall i, j :: 0 <= i < j < |MockUsers| ==> MockUsers[i].id != MockUsers[j].id
    ensures forall u :: u in MockUsers ==> Find(MockUsers, u.id) == Some(u)
  {
    assert Find(MockUsers, "mock_user_1") == Some(MockUsers[0]);
    assert Find(MockUsers, "mock_user_2") == Some(MockUsers[1]);
  }

  /** `MockAuth`'s static state and the browser storage it writes. `storage` maps each storage
      key to the user stored there; `hasWindow` says whether the code runs in a browser. */
  class MockAuth {
    const hasWindow: bool
    var currentUser: Option<MockUser>
    var storage: map<string, MockUser>

    constructor (hasWindow: bool, storage: map<string, MockUser>)
      ensures this.hasWindow == hasWindow && this.storage == storage && currentUser == None
    {
      this.hasWindow, this.storage := hasWindow, storage;
      currentUser := None;
    }

    /** `getCurrentUser`: no user outside a browser; otherwise the stored user, if any, becomes
        the current one, and the current user is returned. */
    method GetCurrentUser() returns (r: Option<MockUser>)
      modifies this
      ensures storage == old(storage)
      ensures !hasWindow ==> r == None && currentUser == old(currentUser)
      ensures hasWindow ==> currentUser == (if StorageKey in storage then Some(storage[StorageKey]) else old(currentUser))
      ensures hasWindow ==> r == currentUser
    {
      if !hasWindow {
        return None;
      }
      if StorageKey in storage {
        currentUser := Some(storage[StorageKey]);
      }
      return currentUser;
    }

    /** `login`: a fixed id signs that user in and stores it; any other id changes nothing and
        returns null. Outside a browser the storage write throws after the field is set. */
    method Login(userId: string) returns (r: Outcome<Option<MockUser>>)
      modifies this
      ensures var found := Find(MockUsers, userId);
        && (found.None? ==> r == Returned(None) && currentUser == old(currentUser) && storage == old(storage))
        && (found.Some? ==> currentUser == found)
        && (found.Some? && hasWindow ==> r == Returned(found) && storage == old(storage)[StorageKey := found.value])
        && (found.Some? && !hasWindow ==> r == Threw && storage == old(storage))
    {
      var user := Find(MockUsers, userId);
      if user.Some? {
        currentUser := user;
        if !hasWindow {
          return Threw;
        }
        storage := storage[StorageKey := user.value];
        return Returned(user);
      }
      return Returned(None);
    }

    /** `logout`: no current user and no stored one. Outside a browser the storage removal throws
        after the field is cleared. */
    method Logout() returns (r: Outcome<()>)
      modifies this
      ensures currentUser == None
      ensures hasWindow ==> r == Returned(()) && storage == old(storage) - {StorageKey}
      ensures !hasWindow ==> r == Threw && storage == old(storage)
    {
      currentUser := None;
      if !hasWindow {
        return Threw;
      }
      storage := storage - {StorageKey};
      return Returned(());
    }

    /** `getAvailableUsers`. */
    method GetAvailableUsers() returns (r: seq<MockUser>)
      ensures r == MockUsers
      ensures forall i, j :: 0 <= i < j < |r| ==> r[i].id != r[j].id
    {
      FixedUsersAreDistinct();
      return MockUsers;
    }

    /** `isAuthenticated`: whether reading the current user finds one. */
    method IsAuthenticated() returns (r: bool)
      modifies this
      ensures storage == old(storage)
      ensures !hasWindow ==> !r
      ensures hasWindow ==> r == (StorageKey in storage || old(currentUser).Some?)
      ensures hasWindow ==> (r <==> currentUser.Some?)
    {
      var user := GetCurrentUser();
      return user.Some?;
    }
  }

  /** In a browser, signing in with a fixed id and then reading the current user gives that
      user back, read from storage, and the store then reports a signed-in user. */
  method LoginThenRead(auth: MockAuth, userId: string) returns (read: Option<MockUser>, authenticated: bool)
    requires auth.hasWindow
    modifies auth
    ensures Find(MockUsers, userId).Some? ==> read == Find(MockUsers, userId) && authenticated
    ensures Find(MockUsers, userId).Some? ==> StorageKey in auth.storage && read == Some(auth.storage[StorageKey])
  {
    var _ := auth.Login(userId);
    read := auth.GetCurrentUser();
    authenticated := auth.IsAuthenticated();
  }

  /** Signing out in a browser leaves nobody signed in. */
  method LogoutThenRead(auth: MockAuth) returns (authenticated: bool)
    requires auth.hasWindow
    modifies auth
    ensures !authenticated
  {
    var _ := auth.Logout();
    authenticated := auth.IsAuthenticated();
  }
}
