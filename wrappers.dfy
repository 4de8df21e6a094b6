/** Optional values: the source's `null` / `undefined` and its "missing key" lookups. */
module Wrappers {

  datatype Option<+T> = None | Some(value: T) {

    /** The value, or `default` when there is none (the source's `x || default` and `x ?? default`). */
    function GetOr(default: T): T {
      match this
      case Some(v) => v
      case None => default
    }
  }

  /** `m[k] || 0`: a missing key of a counter map reads as zero. */
  function Get0<K>(m: map<K, int>, k: K): int {
    if k in m then m[k] else 0
  }

  /** A member of a non-empty set, for loops that visit a set one element at a time. */
  lemma SomeElement<T>(s: set<T>) returns (x: T)
    requires s != {}
    ensures x in s
  {
    x :| x in s;
  }
}
