/** The string formatting the report relies on: `%d` of a non-negative
    value, and `snprintf` into a buffer of fixed size, which keeps at most
    size - 1 characters and a terminating NUL. */
module Format {

  predicate IsDigit(c: char) {
    '0' <= c <= '9'
  }

  function DigitChar(d: nat): (c: char)
    requires d < 10
    ensures IsDigit(c)
  {
    "0123456789"[d]
  }

  function DigitValue(c: char): (d: nat)
    requires IsDigit(c)
    ensures d < 10
  {
    (c as int) - ('0' as int)
  }

  lemma DigitRoundTrip(d: nat)
    requires d < 10
    ensures DigitValue(DigitChar(d)) == d
  {
  }

  /** `%d` of a non-negative value: its decimal digits, most significant
      first, without leading zeros. */
  function Decimal(n: nat): (s: string)
    ensures 0 < |s|
    ensures forall i :: 0 <= i < |s| ==> IsDigit(s[i])
    ensures |s| > 1 ==> s[0] != '0'
  {
    if n < 10 then [DigitChar(n)] else Decimal(n / 10) + [DigitChar(n % 10)]
  }

  /** The value of a string of decimal digits. */
  function ParseDecimal(s: string): nat
    requires forall i :: 0 <= i < |s| ==> IsDigit(s[i])
  {
    if s == [] then 0 else 10 * ParseDecimal(s[..|s| - 1]) + DigitValue(s[|s| - 1])
  }

  /** Reading back what `%d` printed gives the value printed. */
  lemma {:induction false} ParseDecimalOfDecimal(n: nat)
    ensures ParseDecimal(Decimal(n)) == n
  {
    var s := Decimal(n);
    if n < 10 {
      DigitRoundTrip(n);
    } else {
      assert s[..|s| - 1] == Decimal(n / 10);
      ParseDecimalOfDecimal(n / 10);
      DigitRoundTrip(n % 10);
    }
  }

  /** Printing is injective: different values print differently. */
  lemma DecimalInjective(m: nat, n: nat)
    requires Decimal(m) == Decimal(n)
    ensures m == n
  {
    ParseDecimalOfDecimal(m);
    ParseDecimalOfDecimal(n);
  }

  function Pow10(k: nat): (p: nat)
    ensures p >= 1
  {
    if k == 0 then 1 else 10 * Pow10(k - 1)
  }

  /** A value below 10^k prints in at most k digits. */
  lemma {:induction false} DecimalLength(n: nat, k: nat)
    requires 1 <= k && n < Pow10(k)
    ensures |Decimal(n)| <= k
  {
    if n >= 10 {
      DecimalLength(n / 10, k - 1);
    }
  }

  /** What `snprintf(buf, size, "%s", s)` leaves in `buf` as a C string. */
  function Snprintf(s: string, size: nat): (r: string)
    requires size >= 1
    ensures |r| <= size - 1 && |r| <= |s|
    ensures r == s[..|r|]
    ensures |s| < size ==> r == s
  {
    if |s| < size then s else s[..size - 1]
  }

  /** The size of the eight cache-size buffers. */
  const CACHE_BUFFER_SIZE: nat := 8

  /** `snprintf(buf, 8, "%d<unit>", n)` */
  function CacheString(n: nat, unit: char): (r: string)
    ensures 0 < |r| <= CACHE_BUFFER_SIZE - 1
  {
    Snprintf(Decimal(n) + [unit], CACHE_BUFFER_SIZE)
  }

  /** Values below one million keep their unit; the larger leaf-4 sizes
      lose it, and the digits beyond the seventh as well. */
  lemma CacheStringUntruncated(n: nat, unit: char)
    requires n < 1000000
    ensures CacheString(n, unit) == Decimal(n) + [unit]
  {
    DecimalLength(n, 6);
  }

  lemma CacheStringTruncated(n: nat, unit: char)
    requires n >= 1000000
    ensures |Decimal(n)| >= 7
    ensures CacheString(n, unit) == Decimal(n)[..7]
  {
    LowerBoundLength(n);
    assert (Decimal(n) + [unit])[..7] == Decimal(n)[..7];
  }

  /** A value of at least 10^6 prints in at least seven digits. */
  lemma {:induction false} LowerBoundLength(n: nat)
    requires n >= 1000000
    ensures |Decimal(n)| >= 7
  {
    DecimalAtLeast(n, 6);
  }

  lemma {:induction false} DecimalAtLeast(n: nat, k: nat)
    requires n >= Pow10(k)
    ensures |Decimal(n)| >= k + 1
  {
    if k > 0 {
      DecimalAtLeast(n / 10, k - 1);
    }
  }

  /** The largest size leaf 4 can report, 4194303 KB, prints as "4194303":
      the unit is cut off. */
  lemma LargestLeaf4Size()
    ensures CacheString(4194303, 'K') == "4194303"
  {
    assert Decimal(4194303) == "4194303";
  }
}
