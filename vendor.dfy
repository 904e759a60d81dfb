/** The processor vendor: the 12-byte string that CPUID leaf 0 returns in
    EBX, EDX and ECX, the two vendor predicates applied to it, and the
    architecture test that decides whether CPUID is used at all. */
module Vendor {
  import opened Bits

  /** The bytes of a register in memory order on x86 (little-endian), as
      `memcpy` copies them out of a `uint32_t`. */
  function LittleEndian(x: bv32): (bs: seq<bv8>)
    ensures |bs| == 4
  {
    [ByteOf(x, 0), ByteOf(x, 1), ByteOf(x, 2), ByteOf(x, 3)]
  }

  /** The register whose memory image is `bs`. */
  function Word(bs: seq<bv8>): bv32
    requires |bs| == 4
  {
    bs[0] as bv32 | ((bs[1] as bv32) << 8) | ((bs[2] as bv32) << 16) | ((bs[3] as bv32) << 24)
  }

  lemma LittleEndianWord(x: bv32)
    ensures Word(LittleEndian(x)) == x
  {
  }

  /** The vendor buffer: EBX, then EDX, then ECX, each little-endian. */
  function VendorBytes(ebx: bv32, edx: bv32, ecx: bv32): (v: seq<bv8>)
    ensures |v| == 12
  {
    LittleEndian(ebx) + LittleEndian(edx) + LittleEndian(ecx)
  }

  /** The vendor buffer determines the three registers it was copied from. */
  lemma {:induction false} VendorBytesInverse(ebx: bv32, edx: bv32, ecx: bv32)
    ensures var v := VendorBytes(ebx, edx, ecx);
            Word(v[0..4]) == ebx && Word(v[4..8]) == edx && Word(v[8..12]) == ecx
  {
    var v := VendorBytes(ebx, edx, ecx);
    assert v[0..4] == LittleEndian(ebx);
    assert v[4..8] == LittleEndian(edx);
    assert v[8..12] == LittleEndian(ecx);
    LittleEndianWord(ebx);
    LittleEndianWord(edx);
    LittleEndianWord(ecx);
  }

  /** The C string held in a buffer: the bytes before the first NUL (the
      vendor buffer is followed by a NUL that is never overwritten). */
  function CString(buf: seq<bv8>): (s: seq<bv8>)
    ensures |s| <= |buf| && s == buf[..|s|]
    ensures forall i :: 0 <= i < |s| ==> s[i] != 0
    ensures |s| < |buf| ==> buf[|s|] == 0
  {
    if buf == [] || buf[0] == 0 then [] else [buf[0]] + CString(buf[1..])
  }

  /** The bytes of an ASCII string. */
  function Ascii(s: string): (bs: seq<bv8>)
    requires forall i :: 0 <= i < |s| ==> s[i] as int < 256
    ensures |bs| == |s|
  {
    seq(|s|, i requires 0 <= i < |s| => (s[i] as int) as bv8)
  }

  /** strcmp(vendor, "GenuineIntel") == 0 */
  predicate IsIntelCpu(vendor: seq<bv8>) {
    CString(vendor) == Ascii("GenuineIntel")
  }

  /** strcmp against the current and the historical AMD vendor strings. */
  predicate IsAmdCpu(vendor: seq<bv8>) {
    CString(vendor) == Ascii("AMDisbetter!") || CString(vendor) == Ascii("AuthenticAMD")
  }

  /** Comparing the C string is comparing all 12 bytes, for a 12-byte name
      such as the vendor names, which contain no NUL. */
  lemma {:induction false} CStringMatchesWhole(v: seq<bv8>, name: seq<bv8>)
    requires |v| == |name|
    requires forall i :: 0 <= i < |name| ==> name[i] != 0
    ensures CString(v) == name <==> v == name
  {
  }

  lemma IntelExactly(v: seq<bv8>)
    requires |v| == 12
    ensures IsIntelCpu(v) <==> v == Ascii("GenuineIntel")
  {
    CStringMatchesWhole(v, Ascii("GenuineIntel"));
  }

  lemma AmdExactly(v: seq<bv8>)
    requires |v| == 12
    ensures IsAmdCpu(v) <==> v == Ascii("AMDisbetter!") || v == Ascii("AuthenticAMD")
  {
    CStringMatchesWhole(v, Ascii("AMDisbetter!"));
    CStringMatchesWhole(v, Ascii("AuthenticAMD"));
  }

  lemma VendorsExclusive(v: seq<bv8>)
    ensures !(IsIntelCpu(v) && IsAmdCpu(v))
  {
    assert Ascii("GenuineIntel")[0] != Ascii("AMDisbetter!")[0];
    assert Ascii("GenuineIntel")[0] != Ascii("AuthenticAMD")[0];
  }

  /** The vendor classes that gate the vendor-specific decoders. */
  datatype VendorTag = Intel | Amd | Other

  function Classify(vendor: seq<bv8>): (t: VendorTag)
    ensures t == Intel <==> IsIntelCpu(vendor)
    ensures t == Amd <==> IsAmdCpu(vendor)
  {
    VendorsExclusive(vendor);
    if IsIntelCpu(vendor) then Intel else if IsAmdCpu(vendor) then Amd else Other
  }

  /** EBX/EDX/ECX = "Genu", "ineI", "ntel" is the Intel vendor. */
  lemma GenuineIntelRegisters()
    ensures VendorBytes(0x756e6547, 0x49656e69, 0x6c65746e) == Ascii("GenuineIntel")
    ensures Classify(VendorBytes(0x756e6547, 0x49656e69, 0x6c65746e)) == Intel
  {
    var v := VendorBytes(0x756e6547, 0x49656e69, 0x6c65746e);
    assert v == Ascii("GenuineIntel");
    IntelExactly(v);
  }

  /** The architecture names on which lscpu.c queries CPUID. */
  predicate IsX86Cpu(arch: string) {
    arch == "i386" || arch == "amd64"
  }
}
