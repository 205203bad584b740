/** The browser's `localStorage`: string keys to string values, shared by the
    whole page (the session controller and the API client both use it). */
module Storage {
  import opened Wrappers

  /** The two keys the client persists together. */
  const TokenKey := "token"
  const UserKey := "user"

  class LocalStorage {
    var items: map<string, string>

    constructor (initial: map<string, string>)
      ensures items == initial
    {
      items := initial;
    }

    /** `getItem(key)`: `None` plays the part of `null`. */
    function GetItem(key: string): (r: Option<string>)
      reads this
      ensures r.Some? <==> key in items
      ensures r.Some? ==> r.value == items[key]
    {
      if key in items then Some(items[key]) else None
    }

    /** `if (localStorage.getItem(key))`: present and not the empty string. */
    predicate Holds(key: string)
      reads this
    {
      key in items && items[key] != ""
    }

    method SetItem(key: string, value: string)
      modifies this
      ensures items == old(items)[key := value]
    {
      items := items[key := value];
    }

    /** `removeItem(key)` is a no-op for an absent key. */
    method RemoveItem(key: string)
      modifies this
      ensures items == old(items) - {key}
    {
      items := items - {key};
    }
  }
}
