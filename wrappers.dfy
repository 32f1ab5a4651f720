/** The two shapes the Java code expresses with `null` and with exceptions. */
module Wrappers {

  /** A value that Java would hold in a nullable reference: `None` is `null`. */
  datatype Option<+T> = None | Some(value: T) {

    /** `Optional.orElse`. */
    function GetOr(default: T): T {
      if Some? then value else default
    }
  }

  /** A value, or the exception that was thrown instead of producing it. */
  datatype Result<+T, +E> = Ok(value: T) | Err(error: E)

  /** `Map.get` and `ValueOperations.get`: the stored value, or `null` when the key is absent. */
  function Lookup<K, V>(m: map<K, V>, k: K): Option<V> {
    if k in m then Some(m[k]) else None
  }
}
