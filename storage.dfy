/**
 * The browser's `localStorage` as the core uses it: a mutable map from keys
 * to stored values. Quota errors and serialisation are not part of this model.
 */
module Storage {
  import opened Wrappers
  import opened Types

  class LocalStorage {
    var items: map<string, Stored>

    constructor (initial: map<string, Stored>)
      ensures items == initial
    {
      items := initial;
    }

    /** `getItem(key)`: `None` stands for `null`. */
    method GetItem(key: string) returns (v: Option<Stored>)
      ensures v == if key in items then Some(items[key]) else None
    {
      v := if key in items then Some(items[key]) else None;
    }

    method SetItem(key: string, v: Stored)
      modifies this
      ensures items == old(items)[key := v]
    {
      items := items[key := v];
    }

    method RemoveItem(key: string)
      modifies this
      ensures items == old(items) - {key}
    {
      items := items - {key};
    }
  }
}
