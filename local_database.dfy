/**
 * The record repository the application uses (`LocalDatabaseService`): two collections,
 * accounts under "db_users" and reports under "db_boletins", each read whole from the
 * key/value store, changed in memory and written back whole.
 */
module LocalDatabase {
  import opened Wrappers
  import opened Types
  import opened Seqs
  import opened Sorting
  import opened Storage

  // ---------------------------------------------------------------------------
  // Reading the collections (a missing key reads as an empty collection)
  // ---------------------------------------------------------------------------

  function UsersIn(items: map<string, Value>): seq<StoredUser>
  {
    if UsersKey in items && items[UsersKey].UsersBlob? then items[UsersKey].users else []
  }

  function BoletinsIn(items: map<string, Value>): seq<Boletim>
  {
    if BoletinsKey in items && items[BoletinsKey].BoletinsBlob? then items[BoletinsKey].boletins else []
  }

  // ---------------------------------------------------------------------------
  // Accounts
  // ---------------------------------------------------------------------------

  function EmailOf(u: StoredUser): string { u.email }

  /** `users.find(u => u.email === email)`, as the index of the first match. */
  function FindByEmail(users: seq<StoredUser>, email: string): Option<nat>
  {
    FindFirst(users, EmailOf, email)
  }

  /** `getUserByEmail`: the first account with that email, or null. */
  function LookupEmail(users: seq<StoredUser>, email: string): Option<StoredUser>
  {
    match FindByEmail(users, email)
    case None => None
    case Some(i) => Some(users[i])
  }

  /** `validateUser`: the account without its password when the stored password matches exactly. */
  function Validate(users: seq<StoredUser>, email: string, password: string): Option<User>
  {
    match LookupEmail(users, email)
    case Some(u) => if u.password == password then Some(WithoutPassword(u)) else None
    case None => None
  }

  /** `createUser` on the collection: refused when the email is taken, appended otherwise. */
  function InsertUser(users: seq<StoredUser>, id: string, email: string, password: string, name: string, now: int)
    : Option<seq<StoredUser>>
  {
    if LookupEmail(users, email).Some? then None
    else Some(users + [StoredUser(id, email, password, name, now)])
  }

  /** No two accounts share an email. */
  predicate EmailsUnique(users: seq<StoredUser>)
  {
    forall i, j :: 0 <= i < j < |users| ==> users[i].email != users[j].email
  }

  /** A taken email is refused; a free one adds exactly one account at the end, all others kept in order. */
  lemma InsertUserOutcome(users: seq<StoredUser>, id: string, email: string, password: string, name: string, now: int)
    ensures InsertUser(users, id, email, password, name, now).None? <==>
      exists i :: 0 <= i < |users| && users[i].email == email
    ensures match InsertUser(users, id, email, password, name, now)
      case None => true
      case Some(r) => |r| == |users| + 1 && r[..|users|] == users && r[|users|] == StoredUser(id, email, password, name, now)
  {
    if InsertUser(users, id, email, password, name, now).None? {
      var i := FindByEmail(users, email).value;
      assert users[i].email == email;
    } else {
      var r := users + [StoredUser(id, email, password, name, now)];
      assert r[..|users|] == users;
    }
  }

  /** Account creation keeps emails unique. */
  lemma InsertUserKeepsEmailsUnique(users: seq<StoredUser>, id: string, email: string, password: string, name: string, now: int)
    requires EmailsUnique(users)
    ensures match InsertUser(users, id, email, password, name, now)
      case None => true
      case Some(r) => EmailsUnique(r)
  {
  }

  /** A freshly created account validates with its password, and with no other. */
  lemma InsertThenValidate(users: seq<StoredUser>, id: string, email: string, password: string, name: string, now: int, other: string)
    requires LookupEmail(users, email).None?
    requires other != password
    ensures InsertUser(users, id, email, password, name, now).Some?
    ensures var r := InsertUser(users, id, email, password, name, now).value;
      Validate(r, email, password) == Some(User(id, email, name, now)) && Validate(r, email, other).None?
  {
    var r := users + [StoredUser(id, email, password, name, now)];
    assert FindByEmail(users, email).None?;
    assert forall i :: 0 <= i < |users| ==> r[i].email != email;
    assert r[|users|].email == email;
    var k := FindByEmail(r, email);
    assert k.Some?;
  }

  /**
   * With unique emails, validation succeeds exactly for a stored account whose email and
   * password both match, and yields that account without its password.
   */
  lemma ValidateExactly(users: seq<StoredUser>, email: string, password: string, v: User)
    requires EmailsUnique(users)
    ensures Validate(users, email, password) == Some(v) <==>
      exists i :: 0 <= i < |users| && users[i].email == email && users[i].password == password
        && v == WithoutPassword(users[i])
  {
    if exists i :: 0 <= i < |users| && users[i].email == email && users[i].password == password
        && v == WithoutPassword(users[i]) {
      var i :| 0 <= i < |users| && users[i].email == email && users[i].password == password
        && v == WithoutPassword(users[i]);
      var k := FindByEmail(users, email).value;
      assert k == i;
    }
  }

  // ---------------------------------------------------------------------------
  // Reports
  // ---------------------------------------------------------------------------

  /** The reports owned by `userId`, in collection order. */
  function OwnedBy(bs: seq<Boletim>, userId: string): seq<Boletim>
  {
    Filter(bs, OwnerIs(userId))
  }

  function OwnerIs(userId: string): Boletim -> bool
  {
    (b: Boletim) => b.userId == userId
  }

  function CreatedKey(b: Boletim): int
  {
    b.createdAt
  }

  /** `getBoletinsByUserId`: the owner's reports, `sort((a, b) => b.createdAt - a.createdAt)`. */
  function ListByOwner(bs: seq<Boletim>, userId: string): seq<Boletim>
  {
    SortDesc(OwnedBy(bs, userId), CreatedKey)
  }

  /** The reports created at instant `t`, in order. */
  function CreatedAt(bs: seq<Boletim>, t: int): seq<Boletim>
  {
    Filter(bs, KeyIs(CreatedKey, t))
  }

  /**
   * The list for an owner holds exactly that owner's reports (as a permutation of
   * them), newest first, ties in collection order.
   */
  lemma ListByOwnerFacts(bs: seq<Boletim>, userId: string)
    ensures forall b :: b in ListByOwner(bs, userId) <==> b in bs && b.userId == userId
    ensures multiset(ListByOwner(bs, userId)) == multiset(OwnedBy(bs, userId))
    ensures forall i, j :: 0 <= i < j < |ListByOwner(bs, userId)| ==>
      ListByOwner(bs, userId)[i].createdAt >= ListByOwner(bs, userId)[j].createdAt
    ensures forall t :: CreatedAt(ListByOwner(bs, userId), t) == CreatedAt(OwnedBy(bs, userId), t)
  {
    var l := ListByOwner(bs, userId);
    SortDescFacts(OwnedBy(bs, userId), CreatedKey);
    forall b ensures b in l <==> b in OwnedBy(bs, userId) {
      assert b in l <==> b in multiset(l);
    }
    forall t ensures CreatedAt(l, t) == CreatedAt(OwnedBy(bs, userId), t) {
      SortDescStable(OwnedBy(bs, userId), CreatedKey, t);
    }
  }

  function IdOf(b: Boletim): string { b.id }

  /** `findIndex(b => b.id === id)`. */
  function FindById(bs: seq<Boletim>, id: string): Option<nat>
  {
    FindFirst(bs, IdOf, id)
  }

  /** `updateBoletim` on the collection: the first report with the same id is replaced, `updatedAt` refreshed. */
  function ReplaceById(bs: seq<Boletim>, b: Boletim, now: int): Option<seq<Boletim>>
  {
    match FindById(bs, b.id)
    case None => None
    case Some(i) => Some(bs[i := b.(updatedAt := now)])
  }

  /**
   * An update of a missing id is refused; otherwise exactly one position changes, the first
   * holding that id, to the new record stamped `now`, and every other report is unchanged.
   */
  lemma ReplaceByIdOutcome(bs: seq<Boletim>, b: Boletim, now: int)
    ensures ReplaceById(bs, b, now).None? <==> forall c :: c in bs ==> c.id != b.id
    ensures match ReplaceById(bs, b, now)
      case None => true
      case Some(r) =>
        && |r| == |bs|
        && (exists i ::
              && 0 <= i < |bs|
              && bs[i].id == b.id && r[i] == b.(updatedAt := now) && r[i].updatedAt == now
              && (forall j :: 0 <= j < i ==> bs[j].id != b.id)
              && (forall j :: 0 <= j < |bs| && j != i ==> r[j] == bs[j]))
  {
    match FindById(bs, b.id)
    case None =>
    case Some(i) =>
      var r := bs[i := b.(updatedAt := now)];
      assert bs[i].id == b.id && r[i] == b.(updatedAt := now);
  }

  /** `deleteBoletim` on the collection: every report with that id goes, the rest keep their order. */
  function RemoveId(bs: seq<Boletim>, id: string): seq<Boletim>
  {
    Filter(bs, IdIsNot(id))
  }

  function IdIsNot(id: string): Boletim -> bool
  {
    (b: Boletim) => b.id != id
  }

  lemma RemoveIdFacts(bs: seq<Boletim>, id: string)
    ensures forall b :: b in RemoveId(bs, id) <==> b in bs && b.id != id
    ensures IsSubsequence(RemoveId(bs, id), bs)
    ensures RemoveId(RemoveId(bs, id), id) == RemoveId(bs, id)
    ensures (forall b :: b in bs ==> b.id != id) ==> RemoveId(bs, id) == bs
  {
    FilterIsSubsequence(bs, IdIsNot(id));
    FilterIdempotent(bs, IdIsNot(id));
    if forall b :: b in bs ==> b.id != id {
      assert forall i :: 0 <= i < |bs| ==> bs[i] in bs;
      FilterAll(bs, IdIsNot(id));
    }
  }

  /** A created report is listed for its owner; after deleting its id no listed report has it. */
  lemma CreateListDelete(bs: seq<Boletim>, r: Boletim)
    ensures r in ListByOwner(bs + [r], r.userId)
    ensures forall b :: b in ListByOwner(RemoveId(bs + [r], r.id), r.userId) ==> b.id != r.id
  {
    ListByOwnerFacts(bs + [r], r.userId);
    ListByOwnerFacts(RemoveId(bs + [r], r.id), r.userId);
    RemoveIdFacts(bs + [r], r.id);
  }

  /** The store after `insertSampleData`: one sample account, one sample report of it. */
  function Seeded(items: map<string, Value>, now: int): map<string, Value>
  {
    items[UsersKey := UsersBlob([SampleUser(now)])][BoletinsKey := BoletinsBlob([SampleBoletim(now)])]
  }

  /**
   * The store after `init`: seeded when the repository had not started and holds no
   * account, unless the store refuses writes; otherwise unchanged.
   */
  function AfterInit(initialized: bool, items: map<string, Value>, full: bool, now: int): map<string, Value>
  {
    if !initialized && UsersIn(items) == [] && !full then Seeded(items, now) else items
  }

  /**
   * Seeding happens at most once: a first `init` on a writable store leaves an account
   * behind, so a second `init`, even by a fresh repository object, changes nothing.
   */
  lemma AfterInitIdempotent(items: map<string, Value>, full: bool, now: int, later: int)
    ensures !full ==> UsersIn(AfterInit(false, items, full, now)) != []
    ensures var once := AfterInit(false, items, full, now);
      AfterInit(false, once, full, later) == once
  {
    if UsersIn(items) == [] && !full {
      SeededUsers(items, now);
    }
  }

  /** The seeded store's accounts are the sample account alone. */
  lemma SeededUsers(items: map<string, Value>, now: int)
    ensures UsersIn(Seeded(items, now)) == [SampleUser(now)]
  {
    assert |UsersKey| != |BoletinsKey|;
    var m := items[UsersKey := UsersBlob([SampleUser(now)])];
    assert Seeded(items, now) == m[BoletinsKey := BoletinsBlob([SampleBoletim(now)])];
    assert Seeded(items, now)[UsersKey] == m[UsersKey];
  }


  // ---------------------------------------------------------------------------
  // The service object
  // ---------------------------------------------------------------------------

  class LocalDatabaseService {
    var initialized: bool
    const storage: KeyValueStore

    constructor (storage: KeyValueStore)
      ensures this.storage == storage && !initialized
    {
      this.storage := storage;
      initialized := false;
    }

    /** `getUsers`. */
    method GetUsers() returns (users: seq<StoredUser>)
      ensures users == UsersIn(storage.items)
    {
      var v := storage.GetItem(UsersKey);
      users := if v.Some? && v.value.UsersBlob? then v.value.users else [];
    }

    /** `getBoletins`. */
    method GetBoletins() returns (bs: seq<Boletim>)
      ensures bs == BoletinsIn(storage.items)
    {
      var v := storage.GetItem(BoletinsKey);
      bs := if v.Some? && v.value.BoletinsBlob? then v.value.boletins else [];
    }

    /**
     * `init`: runs once per instance. With no accounts stored it writes the sample account
     * and the sample report (replacing the report collection); a refused write aborts it
     * (ok = false) and leaves it to run again.
     */
    method Init(now: int) returns (ok: bool)
      modifies this`initialized, storage`items
      ensures ok == (old(initialized) || UsersIn(old(storage.items)) != [] || !storage.full)
      ensures initialized == ok
      ensures storage.items == AfterInit(old(initialized), old(storage.items), storage.full, now)
    {
      if initialized {
        return true;
      }
      var users := GetUsers();
      ok := true;
      if |users| == 0 {
        ok := InsertSampleData(now);
      }
      initialized := ok;
    }

    method InsertSampleData(now: int) returns (ok: bool)
      modifies storage`items
      ensures ok == !storage.full
      ensures storage.items == if ok then Seeded(old(storage.items), now)
                               else old(storage.items)
    {
      ok := storage.SetItem(UsersKey, UsersBlob([SampleUser(now)]));
      if ok {
        ok := storage.SetItem(BoletinsKey, BoletinsBlob([SampleBoletim(now)]));
      }
    }

    /** `createUser`: false when the email is taken or the write is refused. */
    method CreateUser(id: string, email: string, password: string, name: string, now: int) returns (ok: bool)
      modifies storage`items
      ensures var inserted := InsertUser(UsersIn(old(storage.items)), id, email, password, name, now);
        ok == (inserted.Some? && !storage.full) &&
        storage.items == if ok then old(storage.items)[UsersKey := UsersBlob(inserted.value)] else old(storage.items)
    {
      var users := GetUsers();
      if FindByEmail(users, email).Some? {
        return false;
      }
      users := users + [StoredUser(id, email, password, name, now)];
      ok := storage.SetItem(UsersKey, UsersBlob(users));
    }

    /** `getUserByEmail`. */
    method GetUserByEmail(email: string) returns (u: Option<StoredUser>)
      ensures u.None? <==> forall x :: x in UsersIn(storage.items) ==> x.email != email
      ensures u.Some? ==> u.value in UsersIn(storage.items) && u.value.email == email
      ensures u == LookupEmail(UsersIn(storage.items), email)
    {
      var users := GetUsers();
      var i := FindByEmail(users, email);
      u := if i.Some? then Some(users[i.value]) else None;
    }

    /** `validateUser`. */
    method ValidateUser(email: string, password: string) returns (u: Option<User>)
      ensures u == Validate(UsersIn(storage.items), email, password)
      ensures u.Some? ==> u.value.email == email
    {
      var found := GetUserByEmail(email);
      if found.None? || found.value.password != password {
        return None;
      }
      u := Some(WithoutPassword(found.value));
    }

    /** `createBoletim`: appends without any id check; false only when the write is refused. */
    method CreateBoletim(b: Boletim) returns (ok: bool)
      modifies storage`items
      ensures ok == !storage.full
      ensures storage.items == if ok then old(storage.items)[BoletinsKey := BoletinsBlob(BoletinsIn(old(storage.items)) + [b])]
                               else old(storage.items)
    {
      var bs := GetBoletins();
      bs := bs + [b];
      ok := storage.SetItem(BoletinsKey, BoletinsBlob(bs));
    }

    /** `getBoletinsByUserId`. */
    method GetBoletinsByUserId(userId: string) returns (r: seq<Boletim>)
      ensures r == ListByOwner(BoletinsIn(storage.items), userId)
      ensures forall b :: b in r <==> b in BoletinsIn(storage.items) && b.userId == userId
      ensures forall i, j :: 0 <= i < j < |r| ==> r[i].createdAt >= r[j].createdAt
    {
      var bs := GetBoletins();
      r := SortDesc(OwnedBy(bs, userId), CreatedKey);
      ListByOwnerFacts(bs, userId);
    }

    /** `updateBoletim`: false, with nothing written, when no report has the id. */
    method UpdateBoletim(b: Boletim, now: int) returns (ok: bool)
      modifies storage`items
      ensures var replaced := ReplaceById(BoletinsIn(old(storage.items)), b, now);
        ok == (replaced.Some? && !storage.full) &&
        storage.items == if ok then old(storage.items)[BoletinsKey := BoletinsBlob(replaced.value)] else old(storage.items)
    {
      var bs := GetBoletins();
      var index := FindById(bs, b.id);
      if index.None? {
        return false;
      }
      bs := bs[index.value := b.(updatedAt := now)];
      ok := storage.SetItem(BoletinsKey, BoletinsBlob(bs));
    }

    /** `deleteBoletim`: writes the collection without that id; true even when nothing matched. */
    method DeleteBoletim(id: string) returns (ok: bool)
      modifies storage`items
      ensures ok == !storage.full
      ensures storage.items == if ok then old(storage.items)[BoletinsKey := BoletinsBlob(RemoveId(BoletinsIn(old(storage.items)), id))]
                               else old(storage.items)
    {
      var bs := GetBoletins();
      var filtered := RemoveId(bs, id);
      ok := storage.SetItem(BoletinsKey, BoletinsBlob(filtered));
    }
  }
}
