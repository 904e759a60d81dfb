/** get_x86_cpu_info: the report it builds from the CPUID answers, first as
    a function of those answers and then as the `x86_cpu_info` object that
    the C function fills in step by step. */
module CpuReport {
  import opened Bits
  import opened Vendor
  import opened SupportMask
  import opened VersionInfo
  import opened FeatureFlags
  import opened FlagTables
  import opened Format
  import opened CacheInfo
  import opened Topology
  import opened FlagText

  /** The answers of the CPUID queries get_x86_cpu_info makes: leaf 0, leaf
      0x80000000, leaves 1 and 2, the leaf-4 subleaves from 0 on, leaf 7,
      the leaf-0BH subleaves from 0 on, and leaves 0x80000001, 0x80000005
      and 0x80000006. */
  datatype Cpuid = Cpuid(leaf0: Regs, ext0: Regs, leaf1: Regs, leaf2: Regs, leaf4: seq<Regs>,
                         leaf7: Regs, leafB: seq<Regs>, ext1: Regs, ext5: Regs, ext6: Regs)

  /** The fields of `x86_cpu_info` other than the flags buffer; `vendor`
      is the 12 name bytes (the 13th byte is the terminator and stays 0). */
  datatype X86Report = X86Report(standardMask: bv32, extendedMask: bv32, vendor: seq<bv8>,
                                 identity: Identity, caches: Caches, counts: Counts)

  /** The zero-initialised global `x86_info`. */
  const INITIAL_REPORT: X86Report :=
    X86Report(0, 0, [0, 0, 0, 0, 0, 0, 0, 0, 0, 0, 0, 0], Identity(0, 0, 0), NO_CACHES, NO_COUNTS)

  function VendorOf(cpu: Cpuid): seq<bv8> {
    VendorBytes(cpu.leaf0.ebx, cpu.leaf0.edx, cpu.leaf0.ecx)
  }

  function TagOf(cpu: Cpuid): VendorTag {
    Classify(VendorOf(cpu))
  }

  function StandardMaskOf(cpu: Cpuid): bv32 {
    AfterLoop(0, cpu.leaf0.eax, CPUID_MAX_STANDARD_FUNCTION)
  }

  function ExtendedMaskOf(cpu: Cpuid): bv32 {
    AfterLoop(0, cpu.ext0.eax, CPUID_MAX_EXTENDED_FUNCTION)
  }

  /** The leaf-2 and leaf-4 gate: standard-mask bit 2 on an Intel part.
      The leaf-4 walk tests `1 << eax` while `eax` still holds 2, so it is
      gated on bit 2, not bit 4. */
  predicate IntelCacheLeaves(cpu: Cpuid) {
    TagOf(cpu) == Intel && BitSet(StandardMaskOf(cpu), 2)
  }

  /** The AMD gate for both Fn8000_0005 and Fn8000_0006: extended-mask
      bit 5. */
  predicate AmdCacheLeaves(cpu: Cpuid) {
    TagOf(cpu) == Amd && BitSet(ExtendedMaskOf(cpu), 5)
  }

  /** The caches after the Intel leaves 2 and 4. */
  function IntelCaches(cpu: Cpuid): Caches {
    var c1 := if IntelCacheLeaves(cpu) then Leaf2(NO_CACHES, cpu.leaf2) else NO_CACHES;
    if IntelCacheLeaves(cpu) && c1.useLeaf4 then Leaf4Walk(c1, cpu.leaf4) else c1
  }

  /** The caches after the AMD leaves as well. */
  function CachesOf(cpu: Cpuid): Caches {
    var c2 := IntelCaches(cpu);
    if AmdCacheLeaves(cpu) then AmdLeaf6(AmdLeaf5(c2, cpu.ext5), cpu.ext6) else c2
  }

  function IdentityOf(cpu: Cpuid): Identity {
    if BitSet(StandardMaskOf(cpu), 1) then DecodeIdentityAsWritten(cpu.leaf1.eax) else Identity(0, 0, 0)
  }

  function CountsOf(cpu: Cpuid): Counts {
    if BitSet(StandardMaskOf(cpu), 0xB) then LeafB(NO_COUNTS, cpu.leafB) else NO_COUNTS
  }

  /** The report get_x86_cpu_info leaves behind. */
  function DecodeReport(cpu: Cpuid): X86Report {
    X86Report(StandardMaskOf(cpu), ExtendedMaskOf(cpu), VendorOf(cpu), IdentityOf(cpu),
              CachesOf(cpu), CountsOf(cpu))
  }

  /** The entries each decoder emits: none when its leaf is not supported
      or the vendor is neither Intel nor AMD. */
  function StandardEntries(cpu: Cpuid): seq<FlagBit> {
    if BitSet(StandardMaskOf(cpu), 1) && TagOf(cpu) != Other
    then Selected(STANDARD_TABLE, TagOf(cpu) == Intel, Regs(0, 0, cpu.leaf1.ecx, cpu.leaf1.edx))
    else []
  }

  function StructuredEntries(cpu: Cpuid): seq<FlagBit> {
    if BitSet(StandardMaskOf(cpu), 7) && TagOf(cpu) != Other
    then Selected(STRUCTURED_EXTENDED_TABLE, TagOf(cpu) == Intel, Regs(0, cpu.leaf7.ebx, cpu.leaf7.ecx, 0))
    else []
  }

  function ExtendedEntries(cpu: Cpuid): seq<FlagBit> {
    if BitSet(ExtendedMaskOf(cpu), 1) && TagOf(cpu) != Other
    then Selected(EXTENDED_TABLE, TagOf(cpu) == Intel, Regs(0, 0, cpu.ext1.ecx, cpu.ext1.edx))
    else []
  }

  function EntriesOf(cpu: Cpuid): seq<FlagBit> {
    StandardEntries(cpu) + StructuredEntries(cpu) + ExtendedEntries(cpu)
  }

  /** What the three `snprintf` calls append, in order. */
  function FlagTextOf(cpu: Cpuid): string {
    Render(StandardEntries(cpu)) + Render(StructuredEntries(cpu)) + Render(ExtendedEntries(cpu))
  }

  /** The flags string of the report, after "Remove last space". */
  function FlagsOf(cpu: Cpuid): string {
    Trim(FlagTextOf(cpu))
  }

  // ---------------------------------------------------------------------
  // Properties of the report

  /** The appended text never exceeds 1764 characters, so no `snprintf`
      is truncated and `flag_len` stays inside the 2048-byte buffer. */
  lemma FlagTextFits(cpu: Cpuid)
    ensures |FlagTextOf(cpu)| <= 1764
  {
    var r1 := Regs(0, 0, cpu.leaf1.ecx, cpu.leaf1.edx);
    var r7 := Regs(0, cpu.leaf7.ebx, cpu.leaf7.ecx, 0);
    var rx := Regs(0, 0, cpu.ext1.ecx, cpu.ext1.edx);
    var intel := TagOf(cpu) == Intel;
    DecodeFlagsLength(STANDARD_TABLE, intel, r1);
    DecodeFlagsLength(STRUCTURED_EXTENDED_TABLE, intel, r7);
    DecodeFlagsLength(EXTENDED_TABLE, intel, rx);
    TablesFitBuffer();
  }

  /** The parts emitted so far are no wider than their tables. */
  lemma PartBounds(cpu: Cpuid)
    ensures |Render(StandardEntries(cpu))| <= Width(STANDARD_TABLE)
    ensures |Render(StructuredEntries(cpu))| <= Width(STRUCTURED_EXTENDED_TABLE)
    ensures Width(STANDARD_TABLE) + Width(STRUCTURED_EXTENDED_TABLE) + Width(EXTENDED_TABLE) <= 1764
  {
    DecodeFlagsLength(STANDARD_TABLE, TagOf(cpu) == Intel, Regs(0, 0, cpu.leaf1.ecx, cpu.leaf1.edx));
    DecodeFlagsLength(STRUCTURED_EXTENDED_TABLE, TagOf(cpu) == Intel, Regs(0, cpu.leaf7.ebx, cpu.leaf7.ecx, 0));
    TablesFitBuffer();
  }

  /** The flags string lists the emitted mnemonics in decoder order,
      separated by single spaces. */
  lemma FlagsAreJoinedTokens(cpu: Cpuid)
    ensures FlagsOf(cpu) == Join(Tokens(EntriesOf(cpu)))
  {
    RenderAppend(StandardEntries(cpu), StructuredEntries(cpu));
    RenderAppend(StandardEntries(cpu) + StructuredEntries(cpu), ExtendedEntries(cpu));
    TrimRenderIsJoin(EntriesOf(cpu));
  }

  /** A vendor other than Intel and AMD gets no flags at all. */
  lemma OtherVendorNoFlags(cpu: Cpuid)
    requires TagOf(cpu) == Other
    ensures FlagsOf(cpu) == ""
  {
  }

  /** Every emitted entry passes its vendor gate: an AMD part gets no
      Intel-only mnemonic and an Intel part no AMD-only one. */
  lemma EntriesRespectVendor(cpu: Cpuid, e: FlagBit)
    requires e in EntriesOf(cpu)
    ensures TagOf(cpu) != Other
    ensures TagOf(cpu) == Intel ==> e.gate != AmdOnly
    ensures TagOf(cpu) == Amd ==> e.gate != IntelOnly
  {
    var intel := TagOf(cpu) == Intel;
    if e in StandardEntries(cpu) {
      GatesRespected(STANDARD_TABLE, intel, Regs(0, 0, cpu.leaf1.ecx, cpu.leaf1.edx), e);
    } else if e in StructuredEntries(cpu) {
      GatesRespected(STRUCTURED_EXTENDED_TABLE, intel, Regs(0, cpu.leaf7.ebx, cpu.leaf7.ecx, 0), e);
    } else {
      assert e in ExtendedEntries(cpu);
      GatesRespected(EXTENDED_TABLE, intel, Regs(0, 0, cpu.ext1.ecx, cpu.ext1.edx), e);
    }
  }

  /** On an Intel part with leaves 1 and 7, bit 16 of leaf 1 EDX and of
      leaf 7 EBX each emit "pat": the mnemonic is listed twice. */
  lemma PatListedTwice(cpu: Cpuid)
    requires TagOf(cpu) == Intel
    requires BitSet(StandardMaskOf(cpu), 1) && BitSet(StandardMaskOf(cpu), 7)
    requires cpu.leaf1.edx & 0x10000 != 0 && cpu.leaf7.ebx & 0x10000 != 0
    ensures exists i, j :: 0 <= i < j < |Tokens(EntriesOf(cpu))|
                           && Tokens(EntriesOf(cpu))[i] == "pat" && Tokens(EntriesOf(cpu))[j] == "pat"
  {
    var s1 := Selected(STANDARD_TABLE, true, Regs(0, 0, cpu.leaf1.ecx, cpu.leaf1.edx));
    var s7 := Selected(STRUCTURED_EXTENDED_TABLE, true, Regs(0, cpu.leaf7.ebx, cpu.leaf7.ecx, 0));
    assert StandardEntries(cpu) == s1;
    assert StructuredEntries(cpu) == s7;
    DuplicatePat(cpu.leaf1.ecx, cpu.leaf1.edx, cpu.leaf7.ebx, cpu.leaf7.ecx);
    var all := EntriesOf(cpu);
    assert all == s1 + s7 + ExtendedEntries(cpu);
    var i, j := TokenInTwoParts(s1, s7, ExtendedEntries(cpu), "pat");
    assert Tokens(all)[i] == "pat" && Tokens(all)[j] == "pat";
  }

  /** A mnemonic emitted by two parts is emitted twice by the whole. */
  lemma TokenInTwoParts(a: seq<FlagBit>, b: seq<FlagBit>, c: seq<FlagBit>, m: string) returns (i: nat, j: nat)
    requires m in Tokens(a) && m in Tokens(b)
    ensures i < j < |Tokens(a + b + c)|
    ensures Tokens(a + b + c)[i] == m && Tokens(a + b + c)[j] == m
  {
    i :| 0 <= i < |a| && Tokens(a)[i] == m;
    var k :| 0 <= k < |b| && Tokens(b)[k] == m;
    j := |a| + k;
    var all := a + b + c;
    assert all[i] == a[i];
    assert all[j] == b[k];
  }

  /** The counts of every report leave the socket count defined: their
      product, when both are nonzero, is never 0. */
  lemma ReportSocketCountDefined(cpu: Cpuid)
    ensures var t := DecodeReport(cpu).counts;
            t.threads != 0 && t.cores != 0 ==> Wrap32(t.threads * t.cores) != 0
  {
    if BitSet(StandardMaskOf(cpu), 0xB) {
      var w := LevelWalk(NO_COUNTS, cpu.leafB);
      WalkIsStepAll(NO_COUNTS, cpu.leafB);
      StepAllValid(NO_COUNTS, WalkedLevels(cpu.leafB));
      SocketCountDefined(w);
    }
  }

  /** With leaf 0 reporting a highest leaf of 2, leaf 4 is not supported,
      yet an Intel part whose leaf-2 descriptors include 0xFF still runs
      the leaf-4 walk. */
  lemma Leaf4GatedOnBit2(cpu: Cpuid)
    requires TagOf(cpu) == Intel && cpu.leaf0.eax == 2
    requires Leaf2(NO_CACHES, cpu.leaf2).useLeaf4
    ensures !BitSet(StandardMaskOf(cpu), 4)
    ensures CachesOf(cpu) == Leaf4Walk(Leaf2(NO_CACHES, cpu.leaf2), cpu.leaf4)
  {
    StandardMaskIsPrefix(2, 2);
    StandardMaskIsPrefix(2, 4);
  }

  /** On an AMD part every real 0x80000000 answer (at least 0x80000000)
      enables both AMD cache leaves, and leaf 6 is read even if leaf
      0x80000006 were the one missing: both are gated on bit 5. */
  lemma AmdLeavesGatedOnBit5(cpu: Cpuid)
    requires TagOf(cpu) == Amd && cpu.ext0.eax >= 5
    ensures CachesOf(cpu) == AmdLeaf6(AmdLeaf5(NO_CACHES, cpu.ext5), cpu.ext6)
  {
    ExtendedMaskIsPrefix(cpu.ext0.eax, 5);
  }

  /** The vendor decides which cache sources apply: the Intel leaves and
      the AMD leaves never both feed one report. */
  lemma CacheSourcesExclusive(cpu: Cpuid)
    ensures !(IntelCacheLeaves(cpu) && AmdCacheLeaves(cpu))
  {
  }

  // ---------------------------------------------------------------------
  // The report object

  class X86CpuInfo {
    var standardMask: bv32
    var extendedMask: bv32
    var useLeaf4: bool
    var vendor: seq<bv8>
    var stepping: bv8
    var model: bv8
    var family: bv16
    var threadsPerCore: int
    var coresPerSocket: int
    var l1dCache: Option<string>
    var l1iCache: Option<string>
    var l2Cache: Option<string>
    var l3Cache: Option<string>
    const flags: array<char>

    predicate Valid()
      reads this
    {
      flags.Length == FLAGS_SIZE
    }

    function CacheFields(): Caches
      reads this
    {
      Caches(l1dCache, l1iCache, l2Cache, l3Cache, useLeaf4)
    }

    function CountFields(): Counts
      reads this
    {
      Counts(threadsPerCore, coresPerSocket)
    }

    function Snapshot(): X86Report
      reads this
    {
      X86Report(standardMask, extendedMask, vendor, Identity(family, model, stepping),
                CacheFields(), CountFields())
    }

    /** The zero-initialised report. */
    constructor ()
      ensures Valid() && fresh(flags)
      ensures Snapshot() == INITIAL_REPORT
      ensures HoldsText(flags[..], "")
    {
      standardMask, extendedMask, useLeaf4 := 0, 0, false;
      vendor := [0, 0, 0, 0, 0, 0, 0, 0, 0, 0, 0, 0];
      stepping, model, family := 0, 0, 0;
      threadsPerCore, coresPerSocket := 0, 0;
      l1dCache, l1iCache, l2Cache, l3Cache := None, None, None, None;
      flags := new char[FLAGS_SIZE](_ => '\0');
    }

    /** The two mask loops of get_x86_cpu_info, over the answers of
        leaf 0 and leaf 0x80000000. */
    method FillMasks(leaf0Eax: bv32, ext0Eax: bv32)
      modifies this
      ensures standardMask == AfterLoop(old(standardMask), leaf0Eax, CPUID_MAX_STANDARD_FUNCTION)
      ensures extendedMask == AfterLoop(old(extendedMask), ext0Eax, CPUID_MAX_EXTENDED_FUNCTION)
      ensures Snapshot() == old(Snapshot()).(standardMask := standardMask, extendedMask := extendedMask)
    {
      standardMask := MaskLoop(standardMask, leaf0Eax, CPUID_MAX_STANDARD_FUNCTION);
      extendedMask := MaskLoop(extendedMask, ext0Eax, CPUID_MAX_EXTENDED_FUNCTION);
    }

    /** Stepping, model and family from leaf 1 EAX, with the extended
        family ORed in as lscpu.c does. */
    method DecodeVersion(eax: bv32)
      modifies this
      ensures Identity(family, model, stepping) == DecodeIdentityAsWritten(eax)
      ensures Snapshot() == old(Snapshot()).(identity := Identity(family, model, stepping))
    {
      VersionFields(eax);
      var f := ((eax >> 8) & 0xF) as bv16;
      var m := ((eax >> 4) & 0xF) as bv8;
      if f == 6 || f == 15 {
        m := m | (((eax >> 12) & 0xF0) as bv8);
        if f == 15 {
          f := f | (((eax >> 16) & 0xFF0) as bv16);
        }
      }
      stepping, family, model := (eax & 0xF) as bv8, f, m;
    }

    /** parse_intel_cache_value: the fields the descriptor's case names are
        assigned, and nothing else changes. */
    method ParseIntelCacheValue(v: bv8)
      modifies this
      ensures CacheFields() == ParseCacheValue(old(CacheFields()), v)
      ensures Snapshot() == old(Snapshot()).(caches := CacheFields())
    {
      var p := Descriptor(v);
      l1dCache, l1iCache, l2Cache, l3Cache := Or(p.l1d, l1dCache), Or(p.l1i, l1iCache), Or(p.l2, l2Cache), Or(p.l3, l3Cache);
      useLeaf4 := useLeaf4 || p.useLeaf4;
    }
  
    /** The body of the leaf-2 `for (i = 0; i < 4; i++)` loop for one
        register: nothing when its bit 31 is set, otherwise its bytes from
        low to high, skipping byte 0 of EAX. */
    method ParseRegister(x: bv32, isEax: bool)
      modifies this
      ensures CacheFields() == ParseBytes(old(CacheFields()), RegisterBytes(x, isEax))
      ensures Snapshot() == old(Snapshot()).(caches := CacheFields())
    {
      if x & 0x8000_0000 == 0 {
        ghost var c0 := CacheFields();
        if !isEax {
          ParseIntelCacheValue(ByteOf(x, 0));
        }
        ghost var c1 := CacheFields();
        ParseIntelCacheValue(ByteOf(x, 1));
        ParseIntelCacheValue(ByteOf(x, 2));
        ParseIntelCacheValue(ByteOf(x, 3));
        ParseHighBytes(c1, x);
        ParseBytesAppend(c0, if isEax then [] else [ByteOf(x, 0)], [ByteOf(x, 1), ByteOf(x, 2), ByteOf(x, 3)]);
      }
    }

    /** The leaf-2 step: `count = cache[0] & 0xFF; while (count--)` scan
        the four registers of the one answer. */
    method ReadLeaf2(r: Regs)
      modifies this
      ensures CacheFields() == Leaf2(old(CacheFields()), r)
      ensures Snapshot() == old(Snapshot()).(caches := CacheFields())
    {
      var cache := [r.eax, r.ebx, r.ecx, r.edx];
      var count: nat := (cache[0] & 0xFF) as nat;
      while count > 0
        invariant Repeat(CacheFields(), Leaf2Bytes(r), count) == Leaf2(old(CacheFields()), r)
        invariant Snapshot() == old(Snapshot()).(caches := CacheFields())
      {
        ghost var before := CacheFields();
        count := count - 1;
        for i := 0 to 4
          invariant CacheFields() == ParseBytes(before, ScanBytes(cache, i))
          invariant Snapshot() == old(Snapshot()).(caches := CacheFields())
        {
          ParseRegister(cache[i], i == 0);
          ParseBytesAppend(before, ScanBytes(cache, i), RegisterBytes(cache[i], i == 0));
        }
        ScanAllRegisters(r, cache);
      }
    }

    /** The leaf-4 `for (subleaf = 0; ; subleaf++)` loop: stop at cache
        type 0, otherwise store the size of the level the subleaf
        describes. */
    method WalkLeaf4(subs: seq<Regs>)
      modifies this
      ensures CacheFields() == Leaf4Walk(old(CacheFields()), subs)
      ensures Snapshot() == old(Snapshot()).(caches := CacheFields())
    {
      var subleaf := 0;
      while subleaf < |subs|
        invariant subleaf <= |subs|
        invariant Leaf4Walk(CacheFields(), subs[subleaf..]) == Leaf4Walk(old(CacheFields()), subs)
        invariant Snapshot() == old(Snapshot()).(caches := CacheFields())
      {
        var r := subs[subleaf];
        if CacheType(r.eax) == 0 {
          break;
        }
        StoreSubleaf(r);
        assert subs[subleaf..][1..] == subs[subleaf + 1..];
        subleaf := subleaf + 1;
      }
    }

    /** The `switch (cache_level)` of the leaf-4 loop for a subleaf whose
        cache type is nonzero. */
    method StoreSubleaf(r: Regs)
      modifies this
      ensures CacheFields() == ApplySubleaf(old(CacheFields()), r)
      ensures Snapshot() == old(Snapshot()).(caches := CacheFields())
    {
      var cacheType := CacheType(r.eax);
      var cacheSize := Leaf4SizeAsWritten(r.ebx, r.ecx);
      var cacheLevel := CacheLevel(r.eax);
      if cacheLevel == 1 {
        if cacheType == 1 {
          l1dCache := Some(CacheString(cacheSize, 'K'));
        } else if cacheType == 2 {
          l1iCache := Some(CacheString(cacheSize, 'K'));
        }
      } else if cacheLevel == 2 {
        if cacheType == 3 {
          l2Cache := Some(CacheString(cacheSize, 'K'));
        }
      } else if cacheLevel == 3 {
        if cacheType == 3 {
          l3Cache := Some(CacheString(cacheSize / 1024, 'M'));
        }
      }
    }

    /** The leaf-0BH loop, then `cores_per_socket /= threads_per_core`
        when the threads are nonzero. */
    method WalkLeafB(subs: seq<Regs>)
      modifies this
      ensures CountFields() == LeafB(old(CountFields()), subs)
      ensures Snapshot() == old(Snapshot()).(counts := CountFields())
    {
      var subleaf := 0;
      while subleaf < |subs|
        invariant subleaf <= |subs|
        invariant LevelWalk(CountFields(), subs[subleaf..]) == LevelWalk(old(CountFields()), subs)
        invariant Snapshot() == old(Snapshot()).(counts := CountFields())
      {
        var r := subs[subleaf];
        if r.eax == 0 && r.ebx == 0 {
          break;
        }
        var levelType := LevelType(r.ecx);
        if levelType == 1 {
          threadsPerCore := ToInt32(r.ebx);
        } else if levelType == 2 {
          coresPerSocket := ToInt32(r.ebx);
        }
        assert subs[subleaf..][1..] == subs[subleaf + 1..];
        subleaf := subleaf + 1;
      }
      if threadsPerCore != 0 {
        coresPerSocket := Int32Div(coresPerSocket, threadsPerCore);
      }
    }

    /** Fn8000_0005: L1d and L1i from ECX[31:24] and EDX[31:24]. */
    method ReadAmdLeaf5(r: Regs)
      modifies this
      ensures CacheFields() == AmdLeaf5(old(CacheFields()), r)
      ensures Snapshot() == old(Snapshot()).(caches := CacheFields())
    {
      l1dCache := Some(CacheString(AmdL1Size(r.ecx), 'K'));
      l1iCache := Some(CacheString(AmdL1Size(r.edx), 'K'));
    }

    /** Fn8000_0006: L2 from ECX[31:16], L3 from EDX[31:18] times 0.512. */
    method ReadAmdLeaf6(r: Regs)
      modifies this
      ensures CacheFields() == AmdLeaf6(old(CacheFields()), r)
      ensures Snapshot() == old(Snapshot()).(caches := CacheFields())
    {
      l2Cache := Some(CacheString(AmdL2Size(r.ecx), 'K'));
      l3Cache := Some(CacheString(AmdL3Megabytes(AmdL3Field(r.edx)), 'M'));
    }

    /** `snprintf(flags + len, sizeof(flags) - len, "%s", s)`, returning
        what `snprintf` returns: the length of `s`. */
    method AppendFlags(len: nat, s: string) returns (n: nat)
      requires Valid() && len < FLAGS_SIZE
      modifies flags
      ensures n == |s|
      ensures Appended(old(flags[..]), flags[..], len, s)
    {
      var w := if |s| < FLAGS_SIZE - len then |s| else FLAGS_SIZE - len - 1;
      for k := 0 to w
        invariant forall j :: 0 <= j < FLAGS_SIZE ==>
                    flags[j] == (if len <= j < len + k then s[j - len] else old(flags[j]))
      {
        flags[len + k] := s[k];
      }
      flags[len + w] := '\0';
      n := |s|;
    }

    /** "Remove last space": overwrite a trailing space of the first
        `len` characters with NUL. */
    method RemoveLastSpace(len: nat, ghost t: string)
      requires Valid() && HoldsText(flags[..], t) && len == |t|
      modifies flags
      ensures HoldsText(flags[..], Trim(t))
      ensures forall k :: 0 <= k < FLAGS_SIZE && k != len - 1 ==> flags[k] == old(flags[k])
    {
      if len > 0 && flags[len - 1] == ' ' {
        ghost var before := flags[..];
        flags[len - 1] := '\0';
        TrimHolds(before, flags[..], t);
      }
    }

    /** `flag_len += <decoder>(..., flags + flag_len, sizeof(flags) - flag_len)`
        for output that fits: the buffer then holds the text so far
        followed by `s`. */
    method AppendDecoder(len: nat, ghost t: string, s: string) returns (newLen: nat, ghost t': string)
      requires Valid() && HoldsText(flags[..], t) && len == |t| && |t| + |s| < FLAGS_SIZE
      modifies flags
      ensures t' == t + s && newLen == |t'|
      ensures HoldsText(flags[..], t')
    {
      ghost var before := flags[..];
      var n := AppendFlags(len, s);
      AppendHolds(before, flags[..], t, s);
      newLen, t' := len + n, t + s;
    }

    /** `if (is_intel_cpu(vendor)) flag_len += <decoder>(1, ...); else if
        (is_amd_cpu(vendor)) flag_len += <decoder>(0, ...);` with the two
        outputs of the decoder given. */
    method AppendForVendor(flagLen: nat, ghost text: string, forIntel: string, forAmd: string)
      returns (newLen: nat, ghost newText: string)
      requires Valid() && HoldsText(flags[..], text) && flagLen == |text|
      requires |text| + |forIntel| < FLAGS_SIZE && |text| + |forAmd| < FLAGS_SIZE
      modifies flags
      ensures newText == text + (if IsIntelCpu(vendor) then forIntel else if IsAmdCpu(vendor) then forAmd else "")
      ensures newLen == |newText| && HoldsText(flags[..], newText)
    {
      if IsIntelCpu(vendor) {
        newLen, newText := AppendDecoder(flagLen, text, forIntel);
      } else if IsAmdCpu(vendor) {
        newLen, newText := AppendDecoder(flagLen, text, forAmd);
      } else {
        newLen, newText := flagLen, text;
        assert newText == text + "";
      }
    }

    /** The vendor name of leaf 0 and the two support masks. */
    method Identify(cpu: Cpuid)
      modifies this
      ensures vendor == VendorOf(cpu)
      ensures standardMask == AfterLoop(old(standardMask), cpu.leaf0.eax, CPUID_MAX_STANDARD_FUNCTION)
      ensures extendedMask == AfterLoop(old(extendedMask), cpu.ext0.eax, CPUID_MAX_EXTENDED_FUNCTION)
      ensures Snapshot() == old(Snapshot()).(vendor := vendor, standardMask := standardMask, extendedMask := extendedMask)
    {
      vendor := VendorBytes(cpu.leaf0.ebx, cpu.leaf0.edx, cpu.leaf0.ecx);
      FillMasks(cpu.leaf0.eax, cpu.ext0.eax);
    }

    /** Leaf 1: the version information, and the standard flags on an
        Intel or AMD part. */
    method StandardLeaf(cpu: Cpuid) returns (flagLen: nat, ghost text: string)
      requires Valid() && HoldsText(flags[..], "")
      requires standardMask == StandardMaskOf(cpu) && vendor == VendorOf(cpu)
      requires Identity(family, model, stepping) == Identity(0, 0, 0)
      modifies this, flags
      ensures Identity(family, model, stepping) == IdentityOf(cpu)
      ensures Snapshot() == old(Snapshot()).(identity := Identity(family, model, stepping))
      ensures text == Render(StandardEntries(cpu)) && flagLen == |text|
      ensures HoldsText(flags[..], text)
    {
      flagLen, text := 0, "";
      if BitSet(standardMask, 1) {
        DecodeVersion(cpu.leaf1.eax);
        PartBounds(cpu);
        DecodeFlagsLength(STANDARD_TABLE, true, Regs(0, 0, cpu.leaf1.ecx, cpu.leaf1.edx));
        DecodeFlagsLength(STANDARD_TABLE, false, Regs(0, 0, cpu.leaf1.ecx, cpu.leaf1.edx));
        flagLen, text := AppendForVendor(flagLen, text, StandardFlags(true, cpu.leaf1.ecx, cpu.leaf1.edx),
                                         StandardFlags(false, cpu.leaf1.ecx, cpu.leaf1.edx));
      }
    }

    /** Leaves 2 and 4 on an Intel part that answers leaf 2. */
    method IntelCacheStage(cpu: Cpuid)
      requires standardMask == StandardMaskOf(cpu) && vendor == VendorOf(cpu) && CacheFields() == NO_CACHES
      modifies this
      ensures CacheFields() == IntelCaches(cpu)
      ensures Snapshot() == old(Snapshot()).(caches := CacheFields())
    {
      if IsIntelCpu(vendor) && BitSet(standardMask, 2) {
        ReadLeaf2(cpu.leaf2);
      }
      if IsIntelCpu(vendor) && BitSet(standardMask, 2) && useLeaf4 {
        WalkLeaf4(cpu.leaf4);
      }
    }

    /** Leaf 7: the structured extended flags on an Intel or AMD part. */
    method StructuredLeaf(cpu: Cpuid, flagLen: nat, ghost text: string) returns (newLen: nat, ghost newText: string)
      requires Valid() && HoldsText(flags[..], text) && flagLen == |text|
      requires text == Render(StandardEntries(cpu))
      requires standardMask == StandardMaskOf(cpu) && vendor == VendorOf(cpu)
      modifies flags
      ensures newText == text + Render(StructuredEntries(cpu)) && newLen == |newText|
      ensures HoldsText(flags[..], newText)
    {
      newLen, newText := flagLen, text;
      if BitSet(standardMask, 7) {
        PartBounds(cpu);
        DecodeFlagsLength(STRUCTURED_EXTENDED_TABLE, true, Regs(0, cpu.leaf7.ebx, cpu.leaf7.ecx, 0));
        DecodeFlagsLength(STRUCTURED_EXTENDED_TABLE, false, Regs(0, cpu.leaf7.ebx, cpu.leaf7.ecx, 0));
        newLen, newText := AppendForVendor(newLen, newText, StructuredExtendedFlags(true, cpu.leaf7.ebx, cpu.leaf7.ecx),
                                           StructuredExtendedFlags(false, cpu.leaf7.ebx, cpu.leaf7.ecx));
      }
    }

    /** Leaf 0BH on a part that answers it. */
    method TopologyStage(cpu: Cpuid)
      requires standardMask == StandardMaskOf(cpu) && CountFields() == NO_COUNTS
      modifies this
      ensures CountFields() == CountsOf(cpu)
      ensures Snapshot() == old(Snapshot()).(counts := CountFields())
    {
      if BitSet(standardMask, 0xB) {
        WalkLeafB(cpu.leafB);
      }
    }

    /** Leaf 0x80000001: the extended flags on an Intel or AMD part. */
    method ExtendedLeaf(cpu: Cpuid, flagLen: nat, ghost text: string) returns (newLen: nat, ghost newText: string)
      requires Valid() && HoldsText(flags[..], text) && flagLen == |text|
      requires text == Render(StandardEntries(cpu)) + Render(StructuredEntries(cpu))
      requires extendedMask == ExtendedMaskOf(cpu) && vendor == VendorOf(cpu)
      modifies flags
      ensures newText == FlagTextOf(cpu) && newLen == |newText|
      ensures HoldsText(flags[..], newText)
    {
      newLen, newText := flagLen, text;
      if BitSet(extendedMask, 1) {
        PartBounds(cpu);
        DecodeFlagsLength(EXTENDED_TABLE, true, Regs(0, 0, cpu.ext1.ecx, cpu.ext1.edx));
        DecodeFlagsLength(EXTENDED_TABLE, false, Regs(0, 0, cpu.ext1.ecx, cpu.ext1.edx));
        newLen, newText := AppendForVendor(newLen, newText, ExtendedFlags(true, cpu.ext1.ecx, cpu.ext1.edx),
                                           ExtendedFlags(false, cpu.ext1.ecx, cpu.ext1.edx));
      }
    }

    /** Fn8000_0005 and Fn8000_0006 on an AMD part, both gated on
        extended-mask bit 5. */
    method AmdCacheStage(cpu: Cpuid)
      requires extendedMask == ExtendedMaskOf(cpu) && vendor == VendorOf(cpu)
      requires CacheFields() == IntelCaches(cpu)
      modifies this
      ensures CacheFields() == CachesOf(cpu)
      ensures Snapshot() == old(Snapshot()).(caches := CacheFields())
    {
      if IsAmdCpu(vendor) && BitSet(extendedMask, 5) {
        ReadAmdLeaf5(cpu.ext5);
      }
      if IsAmdCpu(vendor) && BitSet(extendedMask, 5) {
        ReadAmdLeaf6(cpu.ext6);
      }
    }

    /** get_x86_cpu_info on the zero-initialised report: every field ends
        up as DecodeReport says, and the flags buffer holds FlagsOf. */
    method GetX86CpuInfo(cpu: Cpuid)
      requires Valid() && Snapshot() == INITIAL_REPORT && HoldsText(flags[..], "")
      modifies this, flags
      ensures Snapshot() == DecodeReport(cpu)
      ensures HoldsText(flags[..], FlagsOf(cpu))
    {
      Identify(cpu);
      var flagLen;
      ghost var text;
      flagLen, text := StandardLeaf(cpu);
      IntelCacheStage(cpu);
      flagLen, text := StructuredLeaf(cpu, flagLen, text);
      TopologyStage(cpu);
      flagLen, text := ExtendedLeaf(cpu, flagLen, text);
      AmdCacheStage(cpu);
      RemoveLastSpace(flagLen, text);
    }
  }

  /** DecodeIdentityAsWritten in the order get_x86_cpu_info assigns the
      fields. */
  lemma VersionFields(eax: bv32)
    ensures var f := ((eax >> 8) & 0xF) as bv16;
            var m := ((eax >> 4) & 0xF) as bv8;
            DecodeIdentityAsWritten(eax) == Identity(
              if f == 15 then f | (((eax >> 16) & 0xFF0) as bv16) else f,
              if f == 6 || f == 15 then m | (((eax >> 12) & 0xF0) as bv8) else m,
              (eax & 0xF) as bv8)
  {
  }

  /** The bytes the scan passes on from the first `i` registers. */
  function ScanBytes(cache: seq<bv32>, i: nat): seq<bv8>
    requires i <= |cache|
  {
    if i == 0 then [] else ScanBytes(cache, i - 1) + RegisterBytes(cache[i - 1], i - 1 == 0)
  }

  lemma ParseHighBytes(c: Caches, x: bv32)
    ensures ParseBytes(c, [ByteOf(x, 1), ByteOf(x, 2), ByteOf(x, 3)])
            == ParseCacheValue(ParseCacheValue(ParseCacheValue(c, ByteOf(x, 1)), ByteOf(x, 2)), ByteOf(x, 3))
  {
    var bs := [ByteOf(x, 1), ByteOf(x, 2), ByteOf(x, 3)];
    var c1 := ParseCacheValue(c, ByteOf(x, 1));
    var c2 := ParseCacheValue(c1, ByteOf(x, 2));
    var c3 := ParseCacheValue(c2, ByteOf(x, 3));
    assert bs[1..] == [ByteOf(x, 2), ByteOf(x, 3)];
    assert bs[1..][1..] == [ByteOf(x, 3)];
    assert ParseBytes(c2, [ByteOf(x, 3)]) == ParseBytes(c3, []) == c3;
    assert ParseBytes(c1, bs[1..]) == ParseBytes(c2, [ByteOf(x, 3)]);
  }

  /** The four registers in order are the leaf-2 bytes. */
  lemma ScanAllRegisters(r: Regs, cache: seq<bv32>)
    requires cache == [r.eax, r.ebx, r.ecx, r.edx]
    ensures ScanBytes(cache, 4) == Leaf2Bytes(r)
  {
    assert ScanBytes(cache, 0) == [];
    assert ScanBytes(cache, 1) == RegisterBytes(r.eax, true);
    assert ScanBytes(cache, 2) == RegisterBytes(r.eax, true) + RegisterBytes(r.ebx, false);
    assert ScanBytes(cache, 3) == RegisterBytes(r.eax, true) + RegisterBytes(r.ebx, false) + RegisterBytes(r.ecx, false);
  }
}
