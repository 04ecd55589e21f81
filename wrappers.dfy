/** The `Option` type the resolution engine is written in, with the two
    combinators it uses: `Or` (Rust's `Option::or`) and `GetOr`
    (Rust's `Option::unwrap_or`). */
module Wrappers {

  datatype Option<+T> = None | Some(value: T) {

    /** This value if it is present, otherwise `other`. */
    function Or(other: Option<T>): Option<T> {
      match this
      case Some(_) => this
      case None => other
    }

    /** The wrapped value, or `default` when absent. */
    function GetOr(default: T): T {
      match this
      case Some(v) => v
      case None => default
    }
  }

  /** Looking up a key in a map, absent when the key is not there. */
  function Get<K, V>(m: map<K, V>, k: K): (r: Option<V>)
    ensures r.Some? <==> k in m
    ensures r.Some? ==> r.value == m[k]
  {
    if k in m then Some(m[k]) else None
  }
}
