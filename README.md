# lscpu: x86 CPUID decoding, modelled in Dafny

This project models the x86 part of `lscpu.c` from NanXiao/lscpu. The
function `get_x86_cpu_info` queries CPUID leaves and fills the
`x86_cpu_info` report:

- the 12-byte vendor name and its classification as Intel, AMD or other;
- the standard and extended support masks, one bit per answered leaf;
- family, model and stepping from leaf 1;
- the three feature-flag decoders (leaf 1, leaf 7, leaf 0x80000001), which
  append "<mnemonic> " pieces to a 2048-byte buffer, followed by removal of
  the last space;
- the cache sizes: Intel leaf-2 descriptor bytes (`parse_intel_cache_value`),
  the Intel leaf-4 subleaf walk, and the AMD leaves 0x80000005 and 0x80000006;
- threads per core and cores per socket from the leaf-0BH walk, with the
  division of the cores by the threads;
- the socket count that the report printer derives from them.

The CPUID instruction is not modelled. Its answers are an input, the
datatype `CpuReport.Cpuid`, with one register quadruple per fixed leaf and a
sequence of answers for the subleaf walks of leaves 4 and 0BH.

The model has two levels:

- `CpuReport.DecodeReport` and `CpuReport.FlagsOf` state, as functions of the
  answers, everything the report ends up holding.
- `CpuReport.X86CpuInfo` is the report object. Its fields are those of the C
  struct, with the flags buffer as an `array<char>`. Its methods follow the C
  statement by statement: the mask loops, the leaf-2 `while (count--)` and
  `for (i = 0; i < 4; i++)` loops, the leaf-4 and leaf-0BH subleaf loops, and
  the `snprintf` character copy. `GetX86CpuInfo` is proved to leave exactly
  `DecodeReport` in the fields and `FlagsOf` in the buffer.

Modules and files:

| module | file | models |
|---|---|---|
| `Bits` | bits.dfy | registers; C `int` conversion, wrap-around and truncating division |
| `Vendor` | vendor.dfy | the vendor bytes, `is_intel_cpu`, `is_amd_cpu`, `is_x86_cpu` |
| `SupportMask` | masks.dfy | the two support-mask loops |
| `VersionInfo` | identity.dfy | family, model and stepping |
| `FeatureFlags`, `FlagTables` | flags.dfy, flag_tables.dfy | the three flag decoders, with their tables as data |
| `Format` | format.dfy | `%d` and `snprintf` into the 8-byte cache buffers |
| `CacheInfo` | cache.dfy | leaf 2, leaf 4, AMD leaves 5 and 6 |
| `Topology` | topology.dfy | leaf 0BH and the socket count |
| `FlagText` | flagtext.dfy | the flags buffer as text, appending, trimming |
| `CpuReport` | report.dfy | `get_x86_cpu_info`, as a function and as the report object |

The code is followed where it departs from the documented CPUID layouts.
The family ORs the extended family in at bit 4, and the leaf-4 size reads
the partitions from EBX[19:10]. Leaves 2 and 4 are both gated on standard-mask bit 2, because `eax` still
holds 2 when the leaf-4 condition is tested. Both AMD leaves are gated on
extended-mask bit 5. The extended-mask loop compares against the raw
0x8000000x answer. Leaf 2 is queried once and its registers are parsed
`count` times. "pat" and "pse36" can be listed twice. Each cache string is
cut to seven characters by its 8-byte buffer.

The family and the leaf-4 partitions are recorded under "## Findings". The
report, both `DecodeReport` and the `X86CpuInfo` methods, follows the code
as written (`VersionInfo.DecodeIdentityAsWritten`,
`CacheInfo.Leaf4SizeAsWritten`). The corrected decodings are separate
definitions with their own properties (`VersionInfo.DisplayFamily` with
`VersionInfo.DecodeEncode`, `CacheInfo.Leaf4Size` with
`CacheInfo.Leaf4SizeExact`).

## Model

| member | source | states |
|---|---|---|
| Bits.Wrap32 | lscpu.c:797 | the result is a C `int` congruent to the input modulo 2^32, and equal to it when the input is already in range |
| Bits.ToInt32 | lscpu.c:706-710 | a `uint32_t` stored into an `int`: in range, negative exactly when bit 31 is set, congruent modulo 2^32 |
| Bits.TruncDiv | lscpu.c:716 | C division: the magnitude is the quotient of the magnitudes and the sign is the product of the signs |
| Bits.Int32Div | lscpu.c:716 | `int / int` stays in range and truncates toward zero except for INT_MIN / -1 |
| Bits.TruncDivInRange | lscpu.c:716 | the truncated quotient of two `int`s other than INT_MIN / -1 is an `int` |
| Bits.TruncDivProduct | lscpu.c:716 | quotient times divisor never exceeds the dividend in magnitude and has its sign |
| Vendor.LittleEndianWord | lscpu.c:549-551 | the four bytes memcpy'd out of a register give that register back |
| Vendor.VendorBytes | lscpu.c:549-551 | the vendor buffer is 12 bytes: EBX, EDX, ECX |
| Vendor.VendorBytesInverse | lscpu.c:549-551 | the vendor buffer determines the three registers copied into it |
| Vendor.CString | lscpu.c:102-110 | the bytes strcmp compares: a prefix of the buffer with no NUL, followed by a NUL when shorter |
| Vendor.IntelExactly | lscpu.c:107-110 | is_intel_cpu holds on a 12-byte vendor iff it is exactly "GenuineIntel" |
| Vendor.AmdExactly | lscpu.c:102-105 | is_amd_cpu holds iff the vendor is "AMDisbetter!" or "AuthenticAMD" |
| Vendor.VendorsExclusive | lscpu.c:102-110 | no vendor is both Intel and AMD |
| Vendor.Classify | lscpu.c:578-585 | the vendor class is Intel iff is_intel_cpu and AMD iff is_amd_cpu |
| Vendor.GenuineIntelRegisters | lscpu.c:548-551 | the registers "Genu", "ineI", "ntel" give the Intel vendor |
| SupportMask.LowBits | lscpu.c:554 | bit i is set iff i is below n |
| SupportMask.Rounds | lscpu.c:552 | the loop runs min(eax, cap) + 1 rounds |
| SupportMask.MaskLoop | lscpu.c:552-561 | the `for` loop ORs `1 << i` for every i up to min(eax, cap) into the mask |
| SupportMask.StandardMaskIsPrefix | lscpu.c:552-555 | from zero, standard bit i is set iff i <= leaf-0 EAX and i <= 0x17 |
| SupportMask.ExtendedMaskIsPrefix | lscpu.c:557-561 | from zero, extended bit i is set iff i <= the raw 0x80000000 EAX and i <= 8 |
| SupportMask.ExtendedMaskFull | lscpu.c:557-561 | any answer of at least 8, and so every real one, sets all nine extended bits |
| SupportMask.MaskLoopKeepsOtherBits | lscpu.c:552-561 | the loop only sets bits: it clears none and leaves bits above the cap alone |
| SupportMask.LeafZeroAlwaysSupported | lscpu.c:552-555 | bit 0 is always set |
| VersionInfo.Stepping | lscpu.c:567 | the stepping is EAX[3:0] |
| VersionInfo.DisplayModel | lscpu.c:569-572 | the model is EAX[7:4], plus 16 times EAX[19:16] when the family is 6 or 15 |
| VersionInfo.FamilyAsWritten | lscpu.c:568-576 | as written, family 15 yields 15 + 16 times the extended family |
| VersionInfo.DisplayFamily | lscpu.c:568-576 | corrected: family 15 yields 15 + the extended family, and other families are EAX[11:8] |
| VersionInfo.DecodeEncode | lscpu.c:563-577 | decoding the leaf-1 EAX that encodes an expressible identity gives that identity back |
| VersionInfo.DecodeEncodeAsWritten | lscpu.c:563-577 | the decoding as written inverts its own encoding: any identity whose family is below 15, or ends in the nibble 0xF and is below 0x1000, comes back |
| VersionInfo.ExtendedFamilyRecovered | lscpu.c:573-576 | as written, a family-15 EAX reports a family whose bits 4 to 11 are the extended family and whose low nibble is 0xF |
| VersionInfo.Signature906EA | lscpu.c:563-577 | 0x000906EA decodes to family 6, model 0x9E, stepping 0xA, both as written and corrected |
| VersionInfo.FamilyOrDiffersFromSum | lscpu.c:573-576 | on 0x00800F11 the OR gives family 0x8F where the sum gives 0x17 |
| FeatureFlags.Selected | lscpu.c:308-540 | an entry is emitted iff it is in the table, its bit is set and its vendor gate allows it; table order is kept |
| FeatureFlags.DecodeFlagsLength | lscpu.c:308-540 | a decoder's output is never longer than its table's width |
| FeatureFlags.RenderAppend | lscpu.c:308-540 | the output of an earlier part of a format string precedes that of a later part |
| FeatureFlags.ZeroRegistersNoFlags | lscpu.c:308-540 | all-zero registers produce the empty string |
| FeatureFlags.GatesRespected | lscpu.c:470-540 | with `intel` set no AMD-only piece is emitted, and with it clear no Intel-only piece |
| FeatureFlags.IntelOnlyTokenAbsent | lscpu.c:408-468 | a mnemonic listed only under `intel ?` never appears for AMD |
| FeatureFlags.AmdOnlyTokenAbsent | lscpu.c:470-540 | a mnemonic listed only under `intel ? "" :` never appears for Intel |
| FeatureFlags.ShownTokenPresent | lscpu.c:308-540 | every piece whose bit is set and whose gate allows it is emitted |
| FeatureFlags.RenderIsJoinPlusSpace | lscpu.c:308-540 | a nonempty output is the mnemonics joined by single spaces, plus one trailing space |
| FeatureFlags.DecoderOutput | lscpu.c:308-540 | a decoder's output is empty iff no entry is shown, otherwise the shown mnemonics joined by spaces plus one trailing space, and never wider than its table |
| FlagTables.StandardFlags | lscpu.c:308-406 | `get_x86_cpu_standard_flags`: the leaf-1 mnemonics shown for ECX and EDX, joined by spaces with a trailing space, empty iff none is shown, within the table's width |
| FlagTables.StructuredExtendedFlags | lscpu.c:408-468 | `get_x86_cpu_structured_extended_flags`: the same for the leaf-7 EBX and ECX table |
| FlagTables.ExtendedFlags | lscpu.c:470-540 | `get_x86_cpu_extended_flags`: the same for the leaf-0x80000001 ECX and EDX table |
| FlagTables.TablesFitBuffer | lscpu.c:65 | the three tables together need at most 1764 of the 2048 buffer bytes |
| FlagTables.DuplicatePat | lscpu.c:350 | with EDX bit 16 of leaf 1 and EBX bit 16 of leaf 7 both set, both decoders emit "pat" on Intel (see also line 446) |
| Format.DigitChar | lscpu.c:639 | the character is a decimal digit |
| Format.Decimal | lscpu.c:639 | `%d` of n >= 0: digits only, nonempty, no leading zero |
| Format.ParseDecimalOfDecimal | lscpu.c:639 | reading back what `%d` printed gives the value |
| Format.DecimalInjective | lscpu.c:639 | different values print differently |
| Format.Snprintf | lscpu.c:639 | `snprintf(buf, size, ...)` keeps the longest prefix of at most size - 1 characters |
| Format.CacheString | lscpu.c:86-93 | a cache string is 1 to 7 characters |
| Format.CacheStringUntruncated | lscpu.c:639-662 | values below one million keep every digit and the unit |
| Format.CacheStringTruncated | lscpu.c:639-662 | larger values are cut to their first seven digits and lose the unit |
| Format.LargestLeaf4Size | lscpu.c:630-639 | the largest leaf-4 size, 4194303 KB, prints as "4194303" with no unit |
| CacheInfo.Set | lscpu.c:640-663 | storing a cache string changes that one field |
| CacheInfo.Descriptor | lscpu.c:117-306 | the `switch (value)` of parse_intel_cache_value as a table of assignments; its contract is stated by DescriptorAssignsAtMostOne, OnlyFFSelectsLeaf4 and Leaf2Example |
| CacheInfo.ParseCacheValue | lscpu.c:117-306 | unknown bytes change nothing; 0x49 sets L2 and L3 to "4M"; only 0xFF enables leaf 4 |
| CacheInfo.DescriptorAssignsAtMostOne | lscpu.c:117-306 | each case assigns at most one field, except 0x49, which assigns two |
| CacheInfo.OnlyFFSelectsLeaf4 | lscpu.c:295-299 | the leaf-4 switch is turned on by 0xFF alone, which assigns no size |
| CacheInfo.RegisterBytes | lscpu.c:598-610 | a register with bit 31 set gives no bytes; EAX gives bytes 1-3; the others give bytes 0-3 |
| CacheInfo.ParseBytesIsPatch | lscpu.c:596-611 | in a run of descriptors, the last descriptor that names a field decides it |
| CacheInfo.ParseBytesAppend | lscpu.c:598-610 | parsing two runs of bytes is parsing the first and then the second |
| CacheInfo.ParseBytesIdempotent | lscpu.c:596-611 | parsing the same descriptors twice is parsing them once |
| CacheInfo.RepeatIsOnce | lscpu.c:594-611 | re-parsing the one answer `count` >= 1 times is parsing it once, and count 0 parses nothing |
| CacheInfo.EaxLowByteSkipped | lscpu.c:595-605 | the repeat count in EAX[7:0] is never parsed as a descriptor |
| CacheInfo.InvalidRegisterSkipped | lscpu.c:600 | any of EAX, EBX, ECX and EDX with bit 31 set contributes nothing, whatever else it holds |
| CacheInfo.Leaf2 | lscpu.c:588-612 | a count of 0 leaves the caches unchanged, and any count of at least 1 applies the combined patch of the answer's descriptor bytes once |
| CacheInfo.Leaf2Example | lscpu.c:588-611 | one pass over 0x66, an ignored 0x49 and 0x7A gives L1d "8K" and L2 "256K" |
| CacheInfo.SizeInKilobytes | lscpu.c:630-631 | the `uint32_t` product divided by 1024 is below 2^22 |
| CacheInfo.KilobytesExact | lscpu.c:630-631 | a byte count that fits in 32 bits is reported in whole kilobytes, rounded down |
| CacheInfo.Leaf4SizeAsWritten | lscpu.c:630-631 | the size as written, with the partitions read from EBX[19:10] |
| CacheInfo.Leaf4Size | lscpu.c:630-631 | the corrected size, with the partitions read from EBX[21:12] |
| CacheInfo.Leaf4SizesAgree | lscpu.c:630-631 | the two agree whenever EBX[21:10] is zero |
| CacheInfo.Leaf4PartitionsMisread | lscpu.c:630-631 | 8 ways, 2 partitions, 64-byte lines, 64 sets: 64 KB corrected, 160 KB as written |
| CacheInfo.Leaf4FieldsRoundTrip | lscpu.c:630-631 | the ways, partitions and line size read back from an encoded EBX are the ones encoded |
| CacheInfo.Leaf4SizeExact | lscpu.c:630-631 | corrected: a leaf-4 cache that fits in 32 bits is reported as its exact size in KB, rounded down |
| CacheInfo.Leaf4SizeAsWrittenExact | lscpu.c:630-631 | as written: the size is the exact floor of the product with the EBX[19:10] partitions, divided by 1024 |
| CacheInfo.Walked | lscpu.c:617-628 | the processed subleaves are the longest prefix with no cache-type-0 subleaf |
| CacheInfo.ApplyAllLastWriter | lscpu.c:633-671 | each field holds what the last subleaf describing it stored; the leaf-4 switch is unchanged |
| CacheInfo.Leaf4Walk | lscpu.c:614-673 | the walk never changes the leaf-4 switch, and changes nothing when the first subleaf terminates; its last-writer contract is Leaf4LastWriterWins |
| CacheInfo.Leaf4LastWriterWins | lscpu.c:614-673 | after the walk, each field holds the value of the last processed subleaf that describes it, or its earlier value |
| CacheInfo.Leaf4OverridesLeaf2 | lscpu.c:614-673 | a field that leaf 4 describes no longer depends on what leaf 2 stored |
| CacheInfo.Leaf4IgnoresAfterTerminator | lscpu.c:624-628 | nothing after the first cache-type-0 subleaf is looked at |
| CacheInfo.Leaf4Example | lscpu.c:614-673 | a Skylake L1d subleaf gives "32K" (its EBX[21:10] is zero, so both partition readings agree) |
| CacheInfo.AmdL1Size | lscpu.c:737-740 | the L1 sizes are bytes 3 of ECX and EDX, below 256 |
| CacheInfo.AmdL2Size | lscpu.c:748 | the L2 size is ECX[31:16], below 65536 |
| CacheInfo.AmdL3Field | lscpu.c:751 | the L3 field is EDX[31:18], below 16384 |
| CacheInfo.AmdL3Megabytes | lscpu.c:751 | the result is field times 0.512, rounded down |
| CacheInfo.AmdStringsUntruncated | lscpu.c:733-753 | the AMD strings are always the full number and unit |
| CacheInfo.AmdLeaf5 | lscpu.c:733-742 | Fn8000_0005 sets L1d and L1i and leaves L2, L3 and the leaf-4 switch alone |
| CacheInfo.AmdLeaf6 | lscpu.c:744-753 | Fn8000_0006 sets L2 and L3 and leaves L1d, L1i and the leaf-4 switch alone |
| CacheInfo.AmdL3Examples | lscpu.c:751 | field 64 gives 32 MB; the full field gives 8388 MB |
| Topology.WalkedLevels | lscpu.c:693-701 | the processed levels are the longest prefix free of EAX = EBX = 0 |
| Topology.LevelWalk | lscpu.c:690-712 | the subleaf loop keeps both counts C `int` values and changes nothing when the first subleaf is the end marker; its last-writer contract is LevelWalkLastWriter |
| Topology.LevelWalkLastWriter | lscpu.c:693-712 | the threads are the EBX of the last SMT level and the cores that of the last core level, else unchanged |
| Topology.DivideCores | lscpu.c:714-717 | the threads are kept; the cores are divided by truncation when the threads are nonzero, and kept otherwise |
| Topology.LeafB | lscpu.c:690-718 | the threads are the EBX of the last SMT level; the cores are that of the last core level, divided by the threads with truncation when the threads are nonzero |
| Topology.LeafBValid | lscpu.c:690-718 | both counts remain C `int` values |
| Topology.LeafBExample | lscpu.c:690-718 | 2 SMT threads and 8 logical processors per core level give 2 threads and 4 cores |
| Topology.SocketCount | lscpu.c:790-797 | a socket count is printed iff both counts are nonzero |
| Topology.SocketCountDefined | lscpu.c:714-717 | after the division the product of nonzero counts is nonzero, and it does not overflow except after INT_MIN / -1 |
| Topology.SocketCountExample | lscpu.c:797 | 8 CPUs, 2 threads and 4 cores give 1 socket |
| FlagText.AppendHolds | lscpu.c:580 | appending text that fits at the current length leaves the buffer holding the old text followed by the new |
| FlagText.Trim | lscpu.c:755-759 | a trailing space is dropped, and any other text is kept |
| FlagText.TrimHolds | lscpu.c:755-759 | writing NUL over a trailing space makes the buffer hold the trimmed text and changes no other byte |
| FlagText.TrimRenderIsJoin | lscpu.c:755-759 | trimming the decoders' output leaves the mnemonics joined by single spaces |
| CpuReport.DecodeReport | lscpu.c:543-761 | the report as a function of the answers; its contract is the GetX86CpuInfo refinement and the CpuReport lemmas below |
| CpuReport.FlagsOf | lscpu.c:578-759 | the flags string as a function of the answers; its contract is FlagsAreJoinedTokens, FlagTextFits and OtherVendorNoFlags |
| CpuReport.FlagTextFits | lscpu.c:578-731 | the appended text never exceeds 1764 characters, so no decoder output is cut |
| CpuReport.FlagsAreJoinedTokens | lscpu.c:578-759 | the final flags string is the emitted mnemonics, in decoder order, separated by single spaces |
| CpuReport.OtherVendorNoFlags | lscpu.c:578-585 | a vendor other than Intel or AMD gets no flags |
| CpuReport.EntriesRespectVendor | lscpu.c:680-687 | every emitted entry passes its vendor gate |
| CpuReport.PatListedTwice | lscpu.c:578-688 | on Intel, with bit 16 of leaf 1 EDX and of leaf 7 EBX set, "pat" appears twice in the flags |
| CpuReport.ReportSocketCountDefined | lscpu.c:790-797 | for every report, the socket-count division never divides by zero |
| CpuReport.Leaf4GatedOnBit2 | lscpu.c:614 | with leaf 4 unsupported (highest leaf 2), descriptor 0xFF still runs the leaf-4 walk |
| CpuReport.AmdLeavesGatedOnBit5 | lscpu.c:733-753 | an AMD part whose highest extended leaf is at least 5 reads both AMD leaves |
| CpuReport.CacheSourcesExclusive | lscpu.c:589 | the Intel and the AMD cache leaves never both apply (also lines 733 and 744) |
| CpuReport.X86CpuInfo.constructor | lscpu.c:85 | the zero-initialised global report, with an empty flags buffer |
| CpuReport.X86CpuInfo.FillMasks | lscpu.c:552-561 | the two mask loops, changing only the masks |
| CpuReport.X86CpuInfo.DecodeVersion | lscpu.c:563-577 | family, model and stepping are the decoding as written of leaf-1 EAX, with the extended family ORed in; nothing else changes |
| CpuReport.X86CpuInfo.ParseIntelCacheValue | lscpu.c:117-306 | the cache fields become ParseCacheValue of the old ones; nothing else changes |
| CpuReport.X86CpuInfo.ParseRegister | lscpu.c:600-609 | one register's descriptor bytes are parsed in order |
| CpuReport.X86CpuInfo.ReadLeaf2 | lscpu.c:588-612 | the `while (count--)` and `for` loops leave the caches as Leaf2 of the old ones |
| CpuReport.X86CpuInfo.WalkLeaf4 | lscpu.c:614-673 | the subleaf loop leaves the caches as Leaf4Walk of the old ones |
| CpuReport.X86CpuInfo.StoreSubleaf | lscpu.c:630-671 | one subleaf stores its size string, computed as written with the EBX[19:10] partitions, in the field its level and type name, if any |
| CpuReport.X86CpuInfo.WalkLeafB | lscpu.c:690-718 | the counts become LeafB of the old ones |
| CpuReport.X86CpuInfo.ReadAmdLeaf5 | lscpu.c:733-742 | L1d and L1i are set from Fn8000_0005 |
| CpuReport.X86CpuInfo.ReadAmdLeaf6 | lscpu.c:744-753 | L2 and L3 are set from Fn8000_0006 |
| CpuReport.X86CpuInfo.AppendFlags | lscpu.c:580 | the characters `snprintf` writes at `flags + flag_len`, and its return value, the full length |
| CpuReport.X86CpuInfo.RemoveLastSpace | lscpu.c:755-759 | the buffer holds the trimmed text; only the last position may change |
| CpuReport.X86CpuInfo.AppendDecoder | lscpu.c:580 | `flag_len +=` a decoder call: the buffer holds the old text followed by the decoder's |
| CpuReport.X86CpuInfo.AppendForVendor | lscpu.c:578-585 | the Intel output on Intel, the AMD output on AMD, nothing otherwise |
| CpuReport.X86CpuInfo.Identify | lscpu.c:548-561 | the vendor bytes and the two masks |
| CpuReport.X86CpuInfo.StandardLeaf | lscpu.c:563-586 | leaf 1: the identity and the standard flags |
| CpuReport.X86CpuInfo.IntelCacheStage | lscpu.c:588-673 | leaves 2 and 4: the caches become IntelCaches |
| CpuReport.X86CpuInfo.StructuredLeaf | lscpu.c:675-688 | leaf 7: the structured extended flags are appended |
| CpuReport.X86CpuInfo.TopologyStage | lscpu.c:690-718 | leaf 0BH: the counts become CountsOf |
| CpuReport.X86CpuInfo.ExtendedLeaf | lscpu.c:720-731 | leaf 0x80000001: the buffer text becomes the whole decoder output |
| CpuReport.X86CpuInfo.AmdCacheStage | lscpu.c:733-753 | AMD leaves 5 and 6: the caches become CachesOf |
| CpuReport.X86CpuInfo.GetX86CpuInfo | lscpu.c:543-761 | from the zero report, every field ends as DecodeReport says and the buffer holds FlagsOf |

## Left out

- The `__cpuid` and `__cpuid_count` instructions are not modelled. Their answers are the input `CpuReport.Cpuid`. Clearing `ecx` before the leaf-7 query (lscpu.c:675) has no counterpart: the `__cpuid` macro of GCC's cpuid.h takes only the leaf as input, so that value never reaches the instruction and is overwritten by the answer. The leaf-7 answer is an input, so the model is unaffected. cpuid.h is not part of this model.
- The leaf-4 and leaf-0BH walks run over a finite sequence of answers. They stop at the terminator or at the end of the sequence. The C loops have no bound other than the terminator.
- `main`, the sysctl queries, `getopt` and `usage` are not modelled: they are operating-system and command-line I/O. `print_cpu_info` is not modelled either: it is `printf` output. The socket count on lscpu.c:790-797 is the one calculation from the printer that is modelled.
- `total_cpu_num` is a parameter of `Topology.SocketCount`, because it comes from sysctl.
- CacheInfo.AmdL3Megabytes: the C multiplies by the `double` 0.512 and truncates. The model computes the exact floor of field × 512 / 1000. For these 14-bit fields the two agree: the double nearest 0.512 is slightly above it, and the exact product is a multiple of 1/125, so no integer lies strictly between them. Floating point itself is not modelled.
- Bits.Int32Div: INT_MIN / -1 is undefined in C and traps on x86. The model reduces it modulo 2^32 like any other overflow.
- Topology.SocketCount: the product `threads * cores` is reduced modulo 2^32, and the function requires that result to be nonzero. `Topology.SocketCountDefined` and `CpuReport.ReportSocketCountDefined` prove this holds for every report.
- CpuReport.X86CpuInfo.GetX86CpuInfo requires the zero-initialised report. This matches the single call on the global `x86_info`.
- The cache fields are `Option<string>` values, not pointers. Pointer identity is not modelled: which fields share a literal or one of the eight static buffers.
- CpuReport.X86CpuInfo.DecodeVersion and CpuReport.X86CpuInfo.ParseIntelCacheValue compute into locals and assign the fields once. The final state is the same as after the C's sequence of assignments to the struct.
- `x86_cpu_support_standard_flag` (lscpu.c:112-115) and `is_x86_cpu` (lscpu.c:97-100) are plain predicates, `Bits.BitSet` and `Vendor.IsX86Cpu`, with no contract of their own. `is_x86_cpu` only decides whether `main` calls `get_x86_cpu_info`.
- FeatureFlags.Mnemonic: a mnemonic is constrained only to be 1 to 13 characters long. Its alphabet is not constrained.
- CacheInfo.Descriptor, CpuReport.DecodeReport and CpuReport.FlagsOf carry no contract of their own. Their properties are the lemmas about them named in their rows.
- VersionInfo.DecodeIdentity and VersionInfo.DecodeIdentityAsWritten carry no contract of their own. Their fields are stated by `Stepping`, `DisplayModel`, `DisplayFamily` and `FamilyAsWritten`.

## Findings

| source | as written | input that shows it | evidently intended | confidence | as-written member | corrected member |
|---|---|---|---|---|---|---|
| lscpu.c:575 | the family is ORed with `(eax >> 16) & 0xFF0`, so family 15 becomes 15 + 16 × extended family | leaf-1 EAX 0x00800F11 (AMD family 17h) gives family 0x8F (143) | the display family is 15 + extended family, here 0x17 (Intel SDM Vol. 2A, CPUID leaf 01H) | not executed | VersionInfo.FamilyAsWritten (FamilyOrDiffersFromSum) | VersionInfo.DisplayFamily (DecodeEncode) |
| lscpu.c:630 | the partitions are read as `(ebx >> 10) & 0x3FF`, bits 19:10 | EBX 0x01C0103F, ECX 63 (8 ways, 2 partitions, 64-byte lines, 64 sets) gives 160 KB | the partitions are EBX[21:12], which gives 64 KB (Intel SDM Vol. 2A, CPUID leaf 04H) | not executed | CacheInfo.Leaf4SizeAsWritten (Leaf4PartitionsMisread) | CacheInfo.Leaf4Size (Leaf4SizeExact) |
