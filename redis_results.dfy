/**
 * The holders a cache lookup returns. `JsonListResult`, `JsonListsResult`, `IntegerResult` and
 * `LongResult` differ only in the type of their value, so one generic class stands for all four.
 */
module RedisResults {
  import opened Wrappers

  /** A mutable (key, value) pair; a `None` value is Java's `null` and means "miss". */
  class CacheResult<V> {
    var key: string
    var value: Option<V>

    /** The two-argument constructor: both fields as given (the value may itself be `null`). */
    constructor (key: string, value: Option<V>)
      ensures this.key == key && this.value == value
    {
      this.key := key;
      this.value := value;
    }

    /** The one-argument constructor: the key, with a `null` value. */
    constructor KeyOnly(key: string)
      ensures this.key == key && this.value == None
    {
      this.key := key;
      this.value := None;
    }

    method GetKey() returns (k: string)
      ensures k == key
    {
      k := key;
    }

    method SetKey(key: string)
      modifies this`key
      ensures this.key == key && value == old(value)
    {
      this.key := key;
    }

    method GetValue() returns (v: Option<V>)
      ensures v == value
    {
      v := value;
    }

    method SetValue(value: Option<V>)
      modifies this`value
      ensures this.value == value && key == old(key)
    {
      this.value := value;
    }
  }
}
