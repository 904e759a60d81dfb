/** The support masks: which standard leaves (0..0x17) and which extended
    leaves (0x80000000 + 0..8) the report treats as answered. */
module SupportMask {
  import opened Bits

  const CPUID_MAX_STANDARD_FUNCTION: bv32 := 0x17
  const CPUID_MAX_EXTENDED_FUNCTION: bv32 := 0x08

  /** The mask with exactly the bits below `n` set. */
  function LowBits(n: bv32): (m: bv32)
    requires n <= 32
    ensures forall i: bv32 :: i < 32 ==> (BitSet(m, i) <==> i < n)
  {
    (1 << n) - 1
  }

  /** The number of rounds of `for (i = 0; i <= eax && i <= cap; i++)`;
      `i` is converted to unsigned for the comparison with `eax`. */
  function Rounds(eax: bv32, cap: bv32): (n: bv32)
    requires cap < 32
    ensures n == cap + 1 || n == eax + 1
    ensures n <= cap + 1 && (eax < cap ==> n == eax + 1)
    ensures cap <= eax ==> n == cap + 1
  {
    if eax < cap then eax + 1 else cap + 1
  }

  /** The mask after the loop has ORed `1 << i` into `mask` in every round. */
  function AfterLoop(mask: bv32, eax: bv32, cap: bv32): bv32
    requires cap < 32
  {
    mask | LowBits(Rounds(eax, cap))
  }

  /** Starting from the zero mask of the report, bit i of the standard mask
      is set iff i <= min(leaf 0 EAX, 0x17): a contiguous prefix. */
  lemma StandardMaskIsPrefix(eax: bv32, i: bv32)
    requires i < 32
    ensures BitSet(AfterLoop(0, eax, CPUID_MAX_STANDARD_FUNCTION), i)
            <==> i <= eax && i <= CPUID_MAX_STANDARD_FUNCTION
  {
  }

  /** Likewise for the extended mask, with the cap 8. */
  lemma ExtendedMaskIsPrefix(eax: bv32, i: bv32)
    requires i < 32
    ensures BitSet(AfterLoop(0, eax, CPUID_MAX_EXTENDED_FUNCTION), i)
            <==> i <= eax && i <= CPUID_MAX_EXTENDED_FUNCTION
  {
  }

  /** The loop is compared against the raw 0x8000000x answer, so any answer
      of at least 8 (every real one is at least 0x80000000) sets all nine
      extended bits. */
  lemma ExtendedMaskFull(eax: bv32)
    requires eax >= 8
    ensures AfterLoop(0, eax, CPUID_MAX_EXTENDED_FUNCTION) == 0x1FF
  {
  }

  /** The loop only ORs bits in: bits already set stay set, and bits beyond
      the loop's reach are as they were. */
  lemma MaskLoopKeepsOtherBits(mask: bv32, eax: bv32, cap: bv32, i: bv32)
    requires cap < 32 && i < 32
    ensures BitSet(mask, i) ==> BitSet(AfterLoop(mask, eax, cap), i)
    ensures i > cap ==> (BitSet(AfterLoop(mask, eax, cap), i) <==> BitSet(mask, i))
  {
  }

  /** Leaf 0 always counts as answered: bit 0 is set whatever EAX holds. */
  lemma LeafZeroAlwaysSupported(mask: bv32, eax: bv32, cap: bv32)
    requires cap < 32
    ensures BitSet(AfterLoop(mask, eax, cap), 0)
  {
  }

  /** One more round of the loop sets exactly bit n in addition. */
  lemma LowBitsStep(n: bv32)
    requires n < 32
    ensures LowBits(n + 1) == LowBits(n) | (1 << n)
  {
  }

  /** `for (i = 0; i <= eax && i <= cap; i++) mask |= 1 << i;` */
  method MaskLoop(mask: bv32, eax: bv32, cap: bv32) returns (m: bv32)
    requires cap < 32
    ensures m == AfterLoop(mask, eax, cap)
  {
    m := mask;
    var i: bv32 := 0;
    while i <= eax && i <= cap
      invariant i <= cap + 1
      invariant i == 0 || i - 1 <= eax
      invariant m == mask | LowBits(i)
      decreases 32 - i as int
    {
      MaskStep(mask, m, eax, cap, i);
      m := m | (1 << i);
      i := i + 1;
    }
    RoundsAtExit(eax, cap, i);
  }

  /** One round keeps the loop invariant. */
  lemma MaskStep(mask: bv32, m: bv32, eax: bv32, cap: bv32, i: bv32)
    requires cap < 32 && i <= eax && i <= cap && m == mask | LowBits(i)
    ensures m | (1 << i) == mask | LowBits(i + 1)
    ensures i + 1 <= cap + 1 && i + 1 - 1 <= eax
    ensures 32 - (i + 1) as int < 32 - i as int
  {
    OrStep(mask, m, i);
  }

  lemma OrStep(mask: bv32, m: bv32, i: bv32)
    requires i < 32 && m == mask | LowBits(i)
    ensures m | (1 << i) == mask | LowBits(i + 1)
  {
    LowBitsStep(i);
  }

  /** Where the loop stops: after Rounds(eax, cap) rounds. */
  lemma RoundsAtExit(eax: bv32, cap: bv32, i: bv32)
    requires cap < 32 && i <= cap + 1 && (i == 0 || i - 1 <= eax)
    requires !(i <= eax && i <= cap)
    ensures i == Rounds(eax, cap)
  {
  }
}
