/**
 * The session of the application (`AuthProvider`): the logged-in user and a loading
 * flag, kept in step with the repository and with the "user" key of the store.
 */
module AuthContext {
  import opened Wrappers
  import opened Types
  import opened Storage
  import opened LocalDatabase

  /** The account a store's "user" key restores, if it holds one. */
  function SavedSession(items: map<string, Value>): Option<User>
  {
    if SessionKey in items && items[SessionKey].SessionBlob? then Some(items[SessionKey].user) else None
  }

  /** Whether the repository's `init` completes on a store in this state. */
  predicate InitSucceeds(initialized: bool, items: map<string, Value>, full: bool)
  {
    initialized || UsersIn(items) != [] || !full
  }

  /**
   * The user a provider that mounts with no user ends `initializeAuth` with: the session
   * saved in the store once the repository has started, and none otherwise.
   */
  function RestoredUser(initialized: bool, items: map<string, Value>, full: bool, now: int): Option<User>
  {
    if InitSucceeds(initialized, items, full) then SavedSession(AfterInit(initialized, items, full, now)) else None
  }

  class AuthProvider {
    var user: Option<User>
    var isLoading: bool
    const db: LocalDatabaseService

    /** The provider mounts with no user and loading under way. */
    constructor (db: LocalDatabaseService)
      ensures this.db == db && user.None? && isLoading
    {
      this.db := db;
      user := None;
      isLoading := true;
    }

    /**
     * `initializeAuth`: starts the repository; once it has started, a session saved under
     * "user" is restored. A failing start is swallowed. Loading always ends.
     */
    method InitializeAuth(now: int)
      modifies this`user, this`isLoading, db`initialized, db.storage`items
      ensures !isLoading
      ensures db.initialized == InitSucceeds(old(db.initialized), old(db.storage.items), db.storage.full)
      ensures db.storage.items == AfterInit(old(db.initialized), old(db.storage.items), db.storage.full, now)
      ensures user == if db.initialized && SavedSession(db.storage.items).Some?
                      then SavedSession(db.storage.items) else old(user)
      ensures old(user).None? ==> user == RestoredUser(old(db.initialized), old(db.storage.items), db.storage.full, now)
    {
      var started := db.Init(now);
      if started {
        var saved := db.storage.GetItem(SessionKey);
        if saved.Some? && saved.value.SessionBlob? {
          user := Some(saved.value.user);
        }
      }
      isLoading := false;
    }

    /**
     * `login`: with matching credentials the password-free account becomes the user and
     * is saved under "user". A refused write is caught: the result is false, but the user
     * has already been set.
     */
    method Login(email: string, password: string) returns (ok: bool)
      modifies this`user, this`isLoading, db.storage`items
      ensures var found := Validate(UsersIn(old(db.storage.items)), email, password);
        && ok == (found.Some? && !db.storage.full)
        && user == (if found.Some? then found else old(user))
        && db.storage.items == if ok then old(db.storage.items)[SessionKey := SessionBlob(found.value)]
                               else old(db.storage.items)
      ensures !isLoading
    {
      isLoading := true;
      var foundUser := db.ValidateUser(email, password);
      if foundUser.Some? {
        user := foundUser;
        ok := db.storage.SetItem(SessionKey, SessionBlob(foundUser.value));
        isLoading := false;
        return;
      }
      isLoading := false;
      ok := false;
    }

    /**
     * `register`: refused when the email is taken; otherwise the account is created and a
     * session user with the new id, email, name and `sessionAt` (no password) is set and
     * saved. `id` is the fresh identifier; `storedAt` and `sessionAt` are the two clock
     * readings the operation takes.
     */
    method Register(id: string, email: string, password: string, name: string, storedAt: int, sessionAt: int)
      returns (ok: bool)
      modifies this`user, this`isLoading, db.storage`items
      ensures var taken := LookupEmail(UsersIn(old(db.storage.items)), email).Some?;
        && ok == (!taken && !db.storage.full)
        && user == (if ok then Some(User(id, email, name, sessionAt)) else old(user))
        && db.storage.items ==
             if ok then old(db.storage.items)
                          [UsersKey := UsersBlob(UsersIn(old(db.storage.items)) + [StoredUser(id, email, password, name, storedAt)])]
                          [SessionKey := SessionBlob(User(id, email, name, sessionAt))]
             else old(db.storage.items)
      ensures !isLoading
    {
      isLoading := true;
      var existingUser := db.GetUserByEmail(email);
      if existingUser.Some? {
        isLoading := false;
        return false;
      }
      var success := db.CreateUser(id, email, password, name, storedAt);
      if success {
        var userWithoutPassword := User(id, email, name, sessionAt);
        user := Some(userWithoutPassword);
        ok := db.storage.SetItem(SessionKey, SessionBlob(userWithoutPassword));
        isLoading := false;
        return;
      }
      isLoading := false;
      ok := false;
    }

    /** `logout`: no user, and no saved session. */
    method Logout()
      modifies this`user, db.storage`items
      ensures user.None? && SavedSession(db.storage.items).None?
      ensures db.storage.items == old(db.storage.items) - {SessionKey}
    {
      user := None;
      db.storage.RemoveItem(SessionKey);
    }

    /** `resetPassword`: true exactly when an account has that email; nothing changes. */
    method ResetPassword(email: string) returns (ok: bool)
      ensures ok <==> exists i :: 0 <= i < |UsersIn(db.storage.items)| && UsersIn(db.storage.items)[i].email == email
    {
      var userExists := db.GetUserByEmail(email);
      ok := userExists.Some?;
    }
  }

  /** Starting the repository never touches the "user" key. */
  lemma InitKeepsSession(initialized: bool, items: map<string, Value>, full: bool, now: int)
    ensures SavedSession(AfterInit(initialized, items, full, now)) == SavedSession(items)
  {
    assert SessionKey != UsersKey && SessionKey != BoletinsKey;
  }

  /**
   * A saved login survives a restart. After a successful `login` or `register` (which
   * happen only on a store that accepts writes), a provider mounted on the same store
   * restores exactly that account. After a `logout`, it restores none.
   */
  lemma SessionRoundTrip(initialized: bool, items: map<string, Value>, full: bool, now: int, u: User)
    ensures !full ==> RestoredUser(initialized, items[SessionKey := SessionBlob(u)], full, now) == Some(u)
    ensures RestoredUser(initialized, items - {SessionKey}, full, now).None?
  {
    InitKeepsSession(initialized, items[SessionKey := SessionBlob(u)], full, now);
    InitKeepsSession(initialized, items - {SessionKey}, full, now);
  }

  /**
   * Registering and then logging in with the same credentials finds the account just
   * created, as the user the registration set (up to its `createdAt`).
   */
  lemma RegisterThenLogin(users: seq<StoredUser>, id: string, email: string, password: string, name: string,
                          storedAt: int)
    requires LookupEmail(users, email).None?
    ensures Validate(users + [StoredUser(id, email, password, name, storedAt)], email, password)
      == Some(User(id, email, name, storedAt))
  {
    InsertThenValidate(users, id, email, password, name, storedAt, password + "x");
  }
}
