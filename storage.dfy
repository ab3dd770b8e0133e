/**
 * The platform's persistent key-value store (AsyncStorage) as the session
 * component uses it: string keys, string values, and calls that either
 * resolve or reject. Whether a call rejects is decided by the platform, so
 * each call takes that outcome as a parameter.
 */
module Storage {
  import opened Wrappers

  /** Whether the platform resolves or rejects one storage call. */
  datatype Outcome = Resolved | Rejected

  /** The error a rejected storage promise carries. */
  datatype StorageError = StorageError

  /** The key under which the raw session token is kept. */
  const TokenKey: string := "userToken"

  /** The key under which the serialised user profile is kept. */
  const DataKey: string := "userData"

  /** The value `getItem` yields for a key: the stored string, or null when absent. */
  function Lookup(items: map<string, string>, key: string): (r: Option<string>)
    ensures r.Some? <==> key in items
    ensures r.Some? ==> r.value == items[key]
  {
    if key in items then Some(items[key]) else None
  }

  class KeyValueStore {
    /** Everything currently persisted. */
    var items: map<string, string>

    constructor (initial: map<string, string>)
      ensures items == initial
    {
      items := initial;
    }

    /** `getItem(key)`: reads one key; a rejected read yields an error and nothing else happens. */
    method GetItem(key: string, io: Outcome) returns (r: Result<Option<string>, StorageError>)
      ensures r.Failure? <==> io.Rejected?
      ensures r.Success? ==> (r.value.Some? <==> key in items)
      ensures r.Success? && r.value.Some? ==> r.value.value == items[key]
    {
      if io.Rejected? {
        r := Failure(StorageError);
      } else {
        r := Success(Lookup(items, key));
      }
    }

    /** `setItem(key, value)`: on success `key` maps to `value`; other keys are untouched. */
    method SetItem(key: string, value: string, io: Outcome) returns (ok: bool)
      modifies this
      ensures ok <==> io.Resolved?
      ensures items == if ok then old(items)[key := value] else old(items)
    {
      ok := io.Resolved?;
      if ok {
        items := items[key := value];
      }
    }

    /** `removeItem(key)`: on success `key` is absent; other keys are untouched. */
    method RemoveItem(key: string, io: Outcome) returns (ok: bool)
      modifies this
      ensures ok <==> io.Resolved?
      ensures items == if ok then old(items) - {key} else old(items)
    {
      ok := io.Resolved?;
      if ok {
        items := items - {key};
      }
    }
  }
}
