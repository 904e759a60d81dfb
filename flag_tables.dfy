/** The bit-to-mnemonic tables of the three decoders in lscpu.c, entry for
    entry and in the order of the format arguments. */
module FlagTables {
  import opened Bits
  import opened FeatureFlags

  /** Leaf 1 (get_x86_cpu_standard_flags): EDX, then ECX. */
  const STANDARD_EDX: seq<FlagBit> := [
    FlagBit(Edx, 0x00000001, "fpu", Always),
    FlagBit(Edx, 0x00000002, "vme", Always),
    FlagBit(Edx, 0x00000004, "de", Always),
    FlagBit(Edx, 0x00000008, "pse", Always),
    FlagBit(Edx, 0x00000010, "tsc", Always),
    FlagBit(Edx, 0x00000020, "msr", Always),
    FlagBit(Edx, 0x00000040, "pae", Always),
    FlagBit(Edx, 0x00000080, "mce", Always),
    FlagBit(Edx, 0x00000100, "cx8", Always),
    FlagBit(Edx, 0x00000200, "apic", Always),
    FlagBit(Edx, 0x00000800, "sep", Always),
    FlagBit(Edx, 0x00001000, "mtrr", Always),
    FlagBit(Edx, 0x00002000, "pge", Always),
    FlagBit(Edx, 0x00004000, "mca", Always),
    FlagBit(Edx, 0x00008000, "cmov", Always),
    FlagBit(Edx, 0x00010000, "pat", Always),
    FlagBit(Edx, 0x00020000, "pse36", Always),
    FlagBit(Edx, 0x00040000, "psn", IntelOnly),
    FlagBit(Edx, 0x00080000, "cflsh", Always),
    FlagBit(Edx, 0x00200000, "ds", IntelOnly),
    FlagBit(Edx, 0x00400000, "acpi", IntelOnly),
    FlagBit(Edx, 0x00800000, "mmx", Always),
    FlagBit(Edx, 0x01000000, "fxsr", Always),
    FlagBit(Edx, 0x02000000, "sse", Always),
    FlagBit(Edx, 0x04000000, "sse2", Always),
    FlagBit(Edx, 0x08000000, "ss", IntelOnly),
    FlagBit(Edx, 0x10000000, "htt", Always),
    FlagBit(Edx, 0x20000000, "tm", IntelOnly),
    FlagBit(Edx, 0x80000000, "pbe", IntelOnly)
  ]

  const STANDARD_ECX: seq<FlagBit> := [
    FlagBit(Ecx, 0x00000001, "sse3", Always),
    FlagBit(Ecx, 0x00000002, "pclmulqdq", Always),
    FlagBit(Ecx, 0x00000004, "dtes64", IntelOnly),
    FlagBit(Ecx, 0x00000008, "monitor", Always),
    FlagBit(Ecx, 0x00000010, "ds_cpl", IntelOnly),
    FlagBit(Ecx, 0x00000020, "vmx", IntelOnly),
    FlagBit(Ecx, 0x00000040, "smx", IntelOnly),
    FlagBit(Ecx, 0x00000080, "est", IntelOnly),
    FlagBit(Ecx, 0x00000100, "tm2", IntelOnly),
    FlagBit(Ecx, 0x00000200, "ssse3", Always),
    FlagBit(Ecx, 0x00000400, "cnxt-id", IntelOnly),
    FlagBit(Ecx, 0x00000800, "sdbg", IntelOnly),
    FlagBit(Ecx, 0x00001000, "fma", Always),
    FlagBit(Ecx, 0x00002000, "cx16", Always),
    FlagBit(Ecx, 0x00004000, "xtpr", IntelOnly),
    FlagBit(Ecx, 0x00008000, "pdcm", IntelOnly),
    FlagBit(Ecx, 0x00020000, "pcid", IntelOnly),
    FlagBit(Ecx, 0x00040000, "dca", IntelOnly),
    FlagBit(Ecx, 0x00080000, "sse4_1", Always),
    FlagBit(Ecx, 0x00100000, "sse4_2", Always),
    FlagBit(Ecx, 0x00200000, "x2apic", IntelOnly),
    FlagBit(Ecx, 0x00400000, "movbe", IntelOnly),
    FlagBit(Ecx, 0x00800000, "popcnt", Always),
    FlagBit(Ecx, 0x01000000, "tsc_deadline", IntelOnly),
    FlagBit(Ecx, 0x02000000, "aes", Always),
    FlagBit(Ecx, 0x04000000, "xsave", Always),
    FlagBit(Ecx, 0x08000000, "osxsave", Always),
    FlagBit(Ecx, 0x10000000, "avx", Always),
    FlagBit(Ecx, 0x20000000, "f16c", Always),
    FlagBit(Ecx, 0x40000000, "rdrnd", Always),
    FlagBit(Ecx, 0x80000000, "hypervisor", Always)
  ]

  const STANDARD_TABLE: seq<FlagBit> := STANDARD_EDX + STANDARD_ECX

  /** Leaf 7 (get_x86_cpu_structured_extended_flags): EBX, then ECX. */
  const STRUCTURED_EXTENDED_EBX: seq<FlagBit> := [
    FlagBit(Ebx, 0x00000001, "fsgsbase", Always),
    FlagBit(Ebx, 0x00000002, "tsc_adjust", IntelOnly),
    FlagBit(Ebx, 0x00000004, "sgx", IntelOnly),
    FlagBit(Ebx, 0x00000008, "bmi1", Always),
    FlagBit(Ebx, 0x00000010, "hle", IntelOnly),
    FlagBit(Ebx, 0x00000020, "avx2", Always),
    FlagBit(Ebx, 0x00000040, "fp_dp", IntelOnly),
    FlagBit(Ebx, 0x00000080, "smep", Always),
    FlagBit(Ebx, 0x00000100, "bmi2", Always),
    FlagBit(Ebx, 0x00000200, "erms", IntelOnly),
    FlagBit(Ebx, 0x00000400, "invpcid", IntelOnly),
    FlagBit(Ebx, 0x00000800, "rtm", IntelOnly),
    FlagBit(Ebx, 0x00001000, "pqm", IntelOnly),
    FlagBit(Ebx, 0x00002000, "fpcsds", IntelOnly),
    FlagBit(Ebx, 0x00004000, "mpx", IntelOnly),
    FlagBit(Ebx, 0x00008000, "pqe", IntelOnly),
    FlagBit(Ebx, 0x00010000, "pat", IntelOnly),
    FlagBit(Ebx, 0x00020000, "pse36", IntelOnly),
    FlagBit(Ebx, 0x00040000, "rdseed", IntelOnly),
    FlagBit(Ebx, 0x00080000, "adx", IntelOnly),
    FlagBit(Ebx, 0x00100000, "smap", IntelOnly),
    FlagBit(Ebx, 0x00800000, "clflushopt", IntelOnly),
    FlagBit(Ebx, 0x01000000, "clwb", IntelOnly),
    FlagBit(Ebx, 0x02000000, "intel_pt", IntelOnly),
    FlagBit(Ebx, 0x10000000, "sha", IntelOnly)
  ]

  const STRUCTURED_EXTENDED_ECX: seq<FlagBit> := [
    FlagBit(Ecx, 0x00000001, "prefetchwt1", IntelOnly),
    FlagBit(Ecx, 0x00000004, "umip", IntelOnly),
    FlagBit(Ecx, 0x00000008, "pku", IntelOnly),
    FlagBit(Ecx, 0x00000010, "ospke", IntelOnly),
    FlagBit(Ecx, 0x00040000, "rdpid", IntelOnly),
    FlagBit(Ecx, 0x40000000, "sgx_lc", IntelOnly)
  ]

  const STRUCTURED_EXTENDED_TABLE: seq<FlagBit> := STRUCTURED_EXTENDED_EBX + STRUCTURED_EXTENDED_ECX

  /** Leaf 0x80000001 (get_x86_cpu_extended_flags): EDX, then ECX. */
  const EXTENDED_EDX: seq<FlagBit> := [
    FlagBit(Edx, 0x00000800, "syscall", Always),
    FlagBit(Edx, 0x00080000, "mp", AmdOnly),
    FlagBit(Edx, 0x00100000, "nx", Always),
    FlagBit(Edx, 0x00400000, "mmxext", AmdOnly),
    FlagBit(Edx, 0x02000000, "fxsr_opt", AmdOnly),
    FlagBit(Edx, 0x04000000, "pdpe1gb", Always),
    FlagBit(Edx, 0x08000000, "rdtscp", Always),
    FlagBit(Edx, 0x20000000, "lm", Always),
    FlagBit(Edx, 0x40000000, "3dnowext", AmdOnly),
    FlagBit(Edx, 0x80000000, "3dnow", AmdOnly)
  ]

  const EXTENDED_ECX: seq<FlagBit> := [
    FlagBit(Ecx, 0x00000001, "lahf_lm", Always),
    FlagBit(Ecx, 0x00000002, "cmp_legacy", AmdOnly),
    FlagBit(Ecx, 0x00000004, "svm", AmdOnly),
    FlagBit(Ecx, 0x00000008, "extapic", AmdOnly),
    FlagBit(Ecx, 0x00000010, "cr8_legacy", AmdOnly),
    FlagBit(Ecx, 0x00000020, "lzcnt", Always),
    FlagBit(Ecx, 0x00000040, "sse4a", AmdOnly),
    FlagBit(Ecx, 0x00000080, "misalignsse", AmdOnly),
    FlagBit(Ecx, 0x00000100, "3dnowprefetch", AmdOnly),
    FlagBit(Ecx, 0x00000200, "osvw", AmdOnly),
    FlagBit(Ecx, 0x00000400, "ibs", AmdOnly),
    FlagBit(Ecx, 0x00000800, "xop", AmdOnly),
    FlagBit(Ecx, 0x00001000, "skinit", AmdOnly),
    FlagBit(Ecx, 0x00002000, "wdt", AmdOnly),
    FlagBit(Ecx, 0x00008000, "lwp", AmdOnly),
    FlagBit(Ecx, 0x00010000, "fma4", AmdOnly),
    FlagBit(Ecx, 0x00020000, "tce", AmdOnly),
    FlagBit(Ecx, 0x00080000, "nodeid_msr", AmdOnly),
    FlagBit(Ecx, 0x00200000, "tbm", AmdOnly),
    FlagBit(Ecx, 0x00400000, "topoext", AmdOnly),
    FlagBit(Ecx, 0x00800000, "perfctr_core", AmdOnly),
    FlagBit(Ecx, 0x01000000, "perfctr_nb", AmdOnly),
    FlagBit(Ecx, 0x02000000, "dbx", AmdOnly),
    FlagBit(Ecx, 0x08000000, "perftsc", AmdOnly),
    FlagBit(Ecx, 0x10000000, "pcx_l2i", AmdOnly)
  ]

  const EXTENDED_TABLE: seq<FlagBit> := EXTENDED_EDX + EXTENDED_ECX

  /** get_x86_cpu_standard_flags(intel, ecx, edx) */
  function StandardFlags(intel: bool, ecx: bv32, edx: bv32): (s: string)
    ensures |s| <= Width(STANDARD_TABLE)
    ensures s == "" <==> Selected(STANDARD_TABLE, intel, Regs(0, 0, ecx, edx)) == []
    ensures s != "" ==> s == Join(Tokens(Selected(STANDARD_TABLE, intel, Regs(0, 0, ecx, edx)))) + " "
  {
    DecoderOutput(STANDARD_TABLE, intel, Regs(0, 0, ecx, edx));
    DecodeFlags(STANDARD_TABLE, intel, Regs(0, 0, ecx, edx))
  }

  /** get_x86_cpu_structured_extended_flags(intel, ebx, ecx) */
  function StructuredExtendedFlags(intel: bool, ebx: bv32, ecx: bv32): (s: string)
    ensures |s| <= Width(STRUCTURED_EXTENDED_TABLE)
    ensures s == "" <==> Selected(STRUCTURED_EXTENDED_TABLE, intel, Regs(0, ebx, ecx, 0)) == []
    ensures s != "" ==> s == Join(Tokens(Selected(STRUCTURED_EXTENDED_TABLE, intel, Regs(0, ebx, ecx, 0)))) + " "
  {
    DecoderOutput(STRUCTURED_EXTENDED_TABLE, intel, Regs(0, ebx, ecx, 0));
    DecodeFlags(STRUCTURED_EXTENDED_TABLE, intel, Regs(0, ebx, ecx, 0))
  }

  /** get_x86_cpu_extended_flags(intel, ecx, edx) */
  function ExtendedFlags(intel: bool, ecx: bv32, edx: bv32): (s: string)
    ensures |s| <= Width(EXTENDED_TABLE)
    ensures s == "" <==> Selected(EXTENDED_TABLE, intel, Regs(0, 0, ecx, edx)) == []
    ensures s != "" ==> s == Join(Tokens(Selected(EXTENDED_TABLE, intel, Regs(0, 0, ecx, edx)))) + " "
  {
    DecoderOutput(EXTENDED_TABLE, intel, Regs(0, 0, ecx, edx));
    DecodeFlags(EXTENDED_TABLE, intel, Regs(0, 0, ecx, edx))
  }

  /** The three decoders together never need more than 1764 bytes, so
      the 2048-byte flags buffer always holds their output in full. */
  lemma TablesFitBuffer()
    ensures Width(STANDARD_TABLE) + Width(STRUCTURED_EXTENDED_TABLE) + Width(EXTENDED_TABLE) <= 1764
  {
    WidthBound(STANDARD_TABLE);
    WidthBound(STRUCTURED_EXTENDED_TABLE);
    WidthBound(EXTENDED_TABLE);
  }

  /** "pat" is emitted twice on an Intel processor that sets bit 16 of both
      leaf 1 EDX and leaf 7 EBX (and "pse36" likewise for bit 17): the
      decoders' token sets are not disjoint. */
  lemma DuplicatePat(ecx1: bv32, edx: bv32, ebx: bv32, ecx7: bv32)
    requires edx & 0x10000 != 0 && ebx & 0x10000 != 0
    ensures "pat" in Tokens(Selected(STANDARD_TABLE, true, Regs(0, 0, ecx1, edx)))
    ensures "pat" in Tokens(Selected(STRUCTURED_EXTENDED_TABLE, true, Regs(0, ebx, ecx7, 0)))
  {
    assert STANDARD_TABLE[15] == FlagBit(Edx, 0x00010000, "pat", Always);
    assert STRUCTURED_EXTENDED_TABLE[16] == FlagBit(Ebx, 0x00010000, "pat", IntelOnly);
    ShownTokenPresent(STANDARD_TABLE, true, Regs(0, 0, ecx1, edx), STANDARD_TABLE[15]);
    ShownTokenPresent(STRUCTURED_EXTENDED_TABLE, true, Regs(0, ebx, ecx7, 0), STRUCTURED_EXTENDED_TABLE[16]);
  }
}
