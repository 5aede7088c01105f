/**
 * The browser's key/value store (`localStorage`) as the application uses it: three keys,
 * each holding one parsed JSON value.
 */
module Storage {
  import opened Wrappers
  import opened Types

  /** What a key holds, after `JSON.parse`. */
  datatype Value =
    | UsersBlob(users: seq<StoredUser>)
    | BoletinsBlob(boletins: seq<Boletim>)
    | SessionBlob(user: User)

  const UsersKey: string := "db_users"
  const BoletinsKey: string := "db_boletins"
  const SessionKey: string := "user"

  class KeyValueStore {
    var items: map<string, Value>
    /** When set, the medium refuses every write (`setItem` throws, as on a full quota). */
    const full: bool

    constructor (items: map<string, Value>, full: bool)
      ensures this.items == items && this.full == full
    {
      this.items := items;
      this.full := full;
    }

    /** `getItem`: the value under `key`, or nothing. */
    method GetItem(key: string) returns (v: Option<Value>)
      ensures v.Some? <==> key in items
      ensures v.Some? ==> v.value == items[key]
    {
      v := Get(items, key);
    }

    /** `setItem`: replaces the value under `key`; throws (ok = false) and changes nothing when full. */
    method SetItem(key: string, v: Value) returns (ok: bool)
      modifies this`items
      ensures ok == !full
      ensures items == if ok then old(items)[key := v] else old(items)
    {
      ok := !full;
      if ok {
        items := items[key := v];
      }
    }

    /** `removeItem`: drops `key`; never throws. */
    method RemoveItem(key: string)
      modifies this`items
      ensures items == old(items) - {key}
    {
      items := items - {key};
    }
  }
}
