/** Register values returned by one CPUID query, bit-field extraction, and the
    C `int` arithmetic that lscpu.c applies to register contents. */
module Bits {

  datatype Option<T> = None | Some(value: T)

  /** The four 32-bit registers that one CPUID query fills. */
  datatype Regs = Regs(eax: bv32, ebx: bv32, ecx: bv32, edx: bv32)

  const TWO32: int := 0x1_0000_0000
  const INT_MIN: int := -0x8000_0000
  const INT_MAX: int := 0x7FFF_FFFF

  /** Byte `k` (0 = least significant) of a register. */
  function ByteOf(x: bv32, k: nat): bv8
    requires k < 4
  {
    if k == 0 then (x & 0xFF) as bv8
    else if k == 1 then ((x >> 8) & 0xFF) as bv8
    else if k == 2 then ((x >> 16) & 0xFF) as bv8
    else (x >> 24) as bv8
  }

  /** `x & (1 << k)` is nonzero; this is x86_cpu_support_standard_flag. */
  predicate BitSet(x: bv32, k: bv32)
    requires k < 32
  {
    x & (1 << k) != 0
  }

  /** A value of the C type `int` (32-bit two's complement). */
  predicate IsInt32(i: int) {
    INT_MIN <= i <= INT_MAX
  }

  /** Reduction of an integer into the `int` range, as the two's complement
      hardware does on overflow and on conversion from `uint32_t`. */
  function Wrap32(i: int): (r: int)
    ensures IsInt32(r)
    ensures (r - i) % TWO32 == 0
    ensures IsInt32(i) ==> r == i
  {
    (i - INT_MIN) % TWO32 + INT_MIN
  }

  /** Conversion of a `uint32_t` register to `int`. */
  function ToInt32(x: bv32): (r: int)
    ensures IsInt32(r)
    ensures r >= 0 <==> x as int < 0x8000_0000
    ensures (r - x as int) % TWO32 == 0
  {
    if x as int <= INT_MAX then x as int else x as int - TWO32
  }

  function Abs(i: int): nat {
    if i < 0 then -i else i
  }

  /** C's `/` on integers: the quotient truncated toward zero. */
  function TruncDiv(a: int, b: int): (q: int)
    requires b != 0
    ensures Abs(q) == Abs(a) / Abs(b)
    ensures q > 0 ==> (a > 0) == (b > 0)
    ensures q < 0 ==> (a > 0) != (b > 0)
  {
    var m: int := NatDiv(Abs(a), Abs(b));
    if (a > 0) == (b > 0) then m else -m
  }

  /** Division of naturals, with the zero dividend spelled out. */
  function NatDiv(x: nat, y: nat): (r: nat)
    requires y > 0
    ensures r == x / y
    ensures x == 0 ==> r == 0
  {
    if x == 0 then 0 else x / y
  }

  /** C's `/` on two `int`s.  The single overflowing case INT_MIN / -1, which
      the C standard leaves undefined, is reduced like any other overflow. */
  function Int32Div(a: int, b: int): (q: int)
    requires b != 0
    ensures IsInt32(q)
    ensures !(a == INT_MIN && b == -1) && IsInt32(a) ==> q == TruncDiv(a, b)
  {
    if IsInt32(a) && !(a == INT_MIN && b == -1) then TruncDivInRange(a, b); Wrap32(TruncDiv(a, b))
    else Wrap32(TruncDiv(a, b))
  }

  lemma TruncDivInRange(a: int, b: int)
    requires b != 0 && IsInt32(a) && !(a == INT_MIN && b == -1)
    ensures IsInt32(TruncDiv(a, b))
  {
    var A, B := Abs(a), Abs(b);
    var q := TruncDiv(a, b);
    assert Abs(q) == A / B;
    if B == 1 {
      assert A / B == A;
      assert q == a || q == -a;
    } else {
      DivBound(A, B);
      assert A <= 0x8000_0000;
      assert Abs(q) <= 0x4000_0000;
    }
  }

  /** Dividing by at least two at least halves. */
  lemma DivBound(A: nat, B: nat)
    requires B >= 2
    ensures A / B <= A / 2
  {
    var m, r := A / B, A % B;
    assert A == m * B + r && 0 <= r;
    assert m * B == m * 2 + m * (B - 2);
    assert m * (B - 2) >= 0;
    assert m * 2 <= A;
  }

  /** A trunc-divided quotient times its divisor never exceeds the dividend
      in magnitude, and has the dividend's sign. */
  lemma {:induction false} TruncDivProduct(a: int, b: int)
    requires b != 0
    ensures Abs(TruncDiv(a, b) * b) <= Abs(a)
    ensures TruncDiv(a, b) * b > 0 ==> a > 0
    ensures TruncDiv(a, b) * b < 0 ==> a < 0
  {
    var q := TruncDiv(a, b);
    var m := Abs(a) / Abs(b);
    assert m * Abs(b) <= Abs(a);
    assert Abs(q * b) == m * Abs(b) by {
      if q >= 0 && b > 0 { assert q * b == m * b; }
      else if q >= 0 { assert q * b == -(m * Abs(b)); }
      else if b > 0 { assert q * b == -(m * b); }
      else { assert q * b == m * Abs(b); }
    }
  }
}
