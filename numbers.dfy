/** The two pieces of Java integer behaviour the core relies on. */
module Numbers {

  const TwoTo31: int := 0x8000_0000
  const TwoTo32: int := 0x1_0000_0000

  /**
   * `Long.intValue()`: the low 32 bits of the value read as a two's-complement `int`.
   * The result is the unique 32-bit integer congruent to `n` modulo 2^32.
   */
  function IntValue(n: int): (r: int)
    ensures -TwoTo31 <= r < TwoTo31
    ensures (r - n) % TwoTo32 == 0
  {
    (n + TwoTo31) % TwoTo32 - TwoTo31
  }

  /** Counts that fit in an `int` survive the conversion. */
  lemma IntValueKeepsSmall(n: int)
    requires -TwoTo31 <= n < TwoTo31
    ensures IntValue(n) == n
  {
  }

  /** A document count of 2^31 comes back negative. */
  lemma IntValueWrapsLargeCount()
    ensures IntValue(TwoTo31) == -TwoTo31
  {
  }

  /** One decimal digit. */
  function DigitChar(d: nat): (c: char)
    requires d < 10
    ensures '0' <= c <= '9'
  {
    (48 + d) as char
  }

  /** Decimal digits of a natural number, most significant first, no leading zeros. */
  function NatToString(n: nat): (s: string)
    ensures 1 <= |s|
    ensures forall i :: 0 <= i < |s| ==> '0' <= s[i] <= '9'
    decreases n
  {
    if n < 10 then [DigitChar(n)] else NatToString(n / 10) + [DigitChar(n % 10)]
  }

  /** `Integer.toString()`: a minus sign for negative values, then the decimal digits. */
  function IntToString(n: int): (s: string)
    ensures 1 <= |s|
    ensures forall i :: 0 <= i < |s| ==> s[i] != ':'
    ensures n >= 0 ==> forall i :: 0 <= i < |s| ==> '0' <= s[i] <= '9'
    ensures n < 0 ==> s[0] == '-' && forall i :: 1 <= i < |s| ==> '0' <= s[i] <= '9'
  {
    if n < 0 then "-" + NatToString(-n) else NatToString(n)
  }

  /** The number a string of decimal digits denotes, most significant digit first. */
  function DigitsValue(s: string): int {
    if s == [] then 0 else DigitsValue(s[..|s| - 1]) * 10 + (s[|s| - 1] as int - '0' as int)
  }

  /** The digits printed for `n` denote `n`: distinct numbers print distinctly. */
  lemma {:induction false} NatToStringRoundTrip(n: nat)
    ensures DigitsValue(NatToString(n)) == n
    decreases n
  {
    var s := NatToString(n);
    if n >= 10 {
      NatToStringRoundTrip(n / 10);
      assert s[..|s| - 1] == NatToString(n / 10);
    }
  }

  /** `Integer.toString` is injective: distinct page sizes give distinct key segments. */
  lemma IntToStringInjective(m: int, n: int)
    requires IntToString(m) == IntToString(n)
    ensures m == n
  {
    if m < 0 && n < 0 {
      assert IntToString(m)[1..] == NatToString(-m);
      assert IntToString(n)[1..] == NatToString(-n);
      NatToStringRoundTrip(-m);
      NatToStringRoundTrip(-n);
    } else if m >= 0 && n >= 0 {
      NatToStringRoundTrip(m);
      NatToStringRoundTrip(n);
    }
  }

  /** The default page size of the all-users ranking prints as "10". */
  lemma TenPrintsAsTen()
    ensures IntToString(10) == "10"
  {
    assert NatToString(1) == ['1'];
    assert NatToString(10) == NatToString(1) + ['0'];
  }
}
