/** Calendar dates as the core sees them. */
module Dates {

  /**
   * A calendar date, as its day number (`LocalDate.toEpochDay()`): consecutive days are
   * consecutive integers, and `plusDays(i)` is `+ i`.
   */
  type Day = int

  /**
   * `LocalDate.toString()` prints an ISO 8601 calendar date in extended format (YYYY-MM-DD,
   * section 4.1.2.2 of ISO 8601:2004). The model passes the printer in as a function and only
   * ever relies on different days printing differently.
   */
  ghost predicate Injective(show: Day -> string) {
    forall a: Day, b: Day :: show(a) == show(b) ==> a == b
  }

  /** What `IntStream.limit` throws when it is given a negative size. */
  datatype StreamError = IllegalArgument(maxSize: int)

  /** Equal strings with a common prefix have equal remainders. */
  lemma PrefixCancel(p: string, x: string, y: string)
    requires p + x == p + y
    ensures x == y
  {
    assert x == (p + x)[|p|..];
    assert y == (p + y)[|p|..];
  }
}
