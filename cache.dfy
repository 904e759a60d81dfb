/** The cache fields of the report and the three ways lscpu.c fills them:
    the leaf-2 descriptor bytes and the leaf-4 deterministic cache
    parameters on Intel (Intel SDM Vol. 2A, CPUID leaves 02H and 04H), and
    the extended leaves 0x80000005 and 0x80000006 on AMD (AMD64 APM Vol. 3,
    Appendix E, Fn8000_0005 and Fn8000_0006). */
module CacheInfo {
  import opened Bits
  import opened Format

  /** The report's `l1d_cache`, `l1i_cache`, `l2_cache` and `l3_cache`
      pointers (`None` is NULL) and `intel_use_leaf_4_get_cache`. */
  datatype Caches = Caches(l1d: Option<string>, l1i: Option<string>, l2: Option<string>,
                           l3: Option<string>, useLeaf4: bool)

  /** The zero-initialised report. */
  const NO_CACHES: Caches := Caches(None, None, None, None, false)

  /** The four cache fields, by name. */
  datatype Slot = L1d | L1i | L2 | L3

  function Get(c: Caches, k: Slot): Option<string> {
    match k
    case L1d => c.l1d
    case L1i => c.l1i
    case L2 => c.l2
    case L3 => c.l3
  }

  function Set(c: Caches, k: Slot, s: string): (r: Caches)
    ensures Get(r, k) == Some(s)
    ensures forall j :: j != k ==> Get(r, j) == Get(c, j)
    ensures r.useLeaf4 == c.useLeaf4
  {
    match k
    case L1d => c.(l1d := Some(s))
    case L1i => c.(l1i := Some(s))
    case L2 => c.(l2 := Some(s))
    case L3 => c.(l3 := Some(s))
  }

  // ---------------------------------------------------------------------
  // Leaf 2: descriptor bytes

  /** The assignments one case of parse_intel_cache_value makes: `Some(s)`
      assigns `s` to that field, `None` leaves it alone. */
  datatype Patch = Patch(l1d: Option<string>, l1i: Option<string>, l2: Option<string>,
                         l3: Option<string>, useLeaf4: bool)

  const NO_PATCH: Patch := Patch(None, None, None, None, false)

  function Or<T>(a: Option<T>, b: Option<T>): Option<T> {
    if a.Some? then a else b
  }

  function Apply(c: Caches, p: Patch): Caches {
    Caches(Or(p.l1d, c.l1d), Or(p.l1i, c.l1i), Or(p.l2, c.l2), Or(p.l3, c.l3),
           c.useLeaf4 || p.useLeaf4)
  }

  /** The patch `p` followed by the patch `q`. */
  function Then(p: Patch, q: Patch): Patch {
    Patch(Or(q.l1d, p.l1d), Or(q.l1i, p.l1i), Or(q.l2, p.l2), Or(q.l3, p.l3),
          p.useLeaf4 || q.useLeaf4)
  }

  lemma ApplyThen(c: Caches, p: Patch, q: Patch)
    ensures Apply(Apply(c, p), q) == Apply(c, Then(p, q))
  {
  }

  lemma ApplyTwice(c: Caches, p: Patch)
    ensures Apply(Apply(c, p), p) == Apply(c, p)
  {
  }

  function SetL1d(s: string): Patch { NO_PATCH.(l1d := Some(s)) }
  function SetL1i(s: string): Patch { NO_PATCH.(l1i := Some(s)) }
  function SetL2(s: string): Patch { NO_PATCH.(l2 := Some(s)) }
  function SetL3(s: string): Patch { NO_PATCH.(l3 := Some(s)) }

  /** The descriptor table of parse_intel_cache_value, case for case. */
  function Descriptor(v: bv8): Patch {
    match v
    case 0x06 => SetL1i("8K")
    case 0x08 => SetL1i("16K")
    case 0x09 | 0x30 => SetL1i("32K")
    case 0x0A | 0x66 => SetL1d("8K")
    case 0x0C | 0x0D | 0x60 | 0x67 => SetL1d("16K")
    case 0x68 | 0x2C => SetL1d("32K")
    case 0x39 | 0x3B | 0x41 | 0x79 => SetL2("128K")
    case 0x3A => SetL2("192K")
    case 0x3C | 0x42 | 0x7A | 0x82 => SetL2("256K")
    case 0x3D => SetL2("384K")
    case 0x3E | 0x43 | 0x7B | 0x7F | 0x83 | 0x86 => SetL2("512K")
    case 0x44 | 0x7C | 0x84 | 0x87 => SetL2("1M")
    case 0x45 | 0x7D | 0x85 => SetL2("2M")
    case 0x48 => SetL2("3M")
    case 0x4E => SetL2("6M")
    case 0x49 => NO_PATCH.(l2 := Some("4M"), l3 := Some("4M"))
    case 0xD0 => SetL3("512K")
    case 0x23 | 0xD1 | 0xD6 => SetL3("1M")
    case 0xDC => SetL3("1.5M")
    case 0xDD => SetL3("3M")
    case 0x25 | 0xD2 | 0xD7 | 0xE2 => SetL3("2M")
    case 0x29 | 0x46 | 0xD8 | 0xE3 => SetL3("4M")
    case 0x4A | 0xDE => SetL3("6M")
    case 0x47 | 0x4B | 0xE4 => SetL3("8M")
    case 0x4C | 0xEA => SetL3("12M")
    case 0x4D => SetL3("16M")
    case 0xEB => SetL3("18M")
    case 0xEC => SetL3("24M")
    case 0xFF => NO_PATCH.(useLeaf4 := true)
    case _ => NO_PATCH
  }

  /** The descriptor bytes the table knows. */
  const KNOWN_DESCRIPTORS: set<bv8> := {
    0x06, 0x08, 0x09, 0x30, 0x0A, 0x66, 0x0C, 0x0D, 0x60, 0x67, 0x68, 0x2C,
    0x39, 0x3B, 0x41, 0x79, 0x3A, 0x3C, 0x42, 0x7A, 0x82, 0x3D,
    0x3E, 0x43, 0x7B, 0x7F, 0x83, 0x86, 0x44, 0x7C, 0x84, 0x87, 0x45, 0x7D, 0x85,
    0x48, 0x4E, 0x49, 0xD0, 0x23, 0xD1, 0xD6, 0xDC, 0xDD, 0x25, 0xD2, 0xD7, 0xE2,
    0x29, 0x46, 0xD8, 0xE3, 0x4A, 0xDE, 0x47, 0x4B, 0xE4, 0x4C, 0xEA, 0x4D, 0xEB,
    0xEC, 0xFF
  }

  /** The number of fields a patch assigns. */
  function Assigned(p: Patch): nat {
    (if p.l1d.Some? then 1 else 0) + (if p.l1i.Some? then 1 else 0)
    + (if p.l2.Some? then 1 else 0) + (if p.l3.Some? then 1 else 0)
  }

  /** parse_intel_cache_value on the cache part of the report. */
  function ParseCacheValue(c: Caches, v: bv8): (r: Caches)
    ensures v !in KNOWN_DESCRIPTORS ==> r == c
    ensures v == 0x49 ==> r == c.(l2 := Some("4M"), l3 := Some("4M"))
    ensures v == 0xFF ==> r == c.(useLeaf4 := true)
    ensures r.useLeaf4 <==> c.useLeaf4 || v == 0xFF
  {
    Apply(c, Descriptor(v))
  }

  /** Every descriptor assigns at most one field, except 0x49, which
      assigns two. */
  lemma DescriptorAssignsAtMostOne(v: bv8)
    ensures v != 0x49 ==> Assigned(Descriptor(v)) <= 1
    ensures v == 0x49 ==> Assigned(Descriptor(v)) == 2
  {
  }

  /** Only 0xFF turns on the leaf-4 walk, and it assigns no field. */
  lemma OnlyFFSelectsLeaf4(v: bv8)
    ensures Descriptor(v).useLeaf4 <==> v == 0xFF
    ensures v == 0xFF ==> Assigned(Descriptor(v)) == 0
  {
  }

  /** The bytes of one leaf-2 register the scan passes to
      parse_intel_cache_value: none when bit 31 is set (the register holds
      no descriptors), otherwise bytes 1 to 3, and byte 0 as well except in
      EAX, whose low byte is the repeat count. */
  function RegisterBytes(x: bv32, isEax: bool): (bs: seq<bv8>)
    ensures x & 0x8000_0000 != 0 ==> bs == []
    ensures x & 0x8000_0000 == 0 ==> |bs| == (if isEax then 3 else 4)
    ensures x & 0x8000_0000 == 0 ==>
              forall j :: 0 <= j < |bs| ==> bs[j] == ByteOf(x, j + (if isEax then 1 else 0))
  {
    if x & 0x8000_0000 != 0 then []
    else (if isEax then [] else [ByteOf(x, 0)]) + [ByteOf(x, 1), ByteOf(x, 2), ByteOf(x, 3)]
  }

  /** One pass of the scan: EAX, EBX, ECX, EDX in that order. */
  function Leaf2Bytes(r: Regs): seq<bv8> {
    RegisterBytes(r.eax, true) + RegisterBytes(r.ebx, false)
    + RegisterBytes(r.ecx, false) + RegisterBytes(r.edx, false)
  }

  /** The repeat count, EAX[7:0]. */
  function Leaf2Count(r: Regs): nat {
    (r.eax & 0xFF) as nat
  }

  /** parse_intel_cache_value applied to each byte in order. */
  function ParseBytes(c: Caches, bs: seq<bv8>): Caches
    decreases |bs|
  {
    if bs == [] then c else ParseBytes(ParseCacheValue(c, bs[0]), bs[1..])
  }

  /** The combined effect of a run of descriptors: for each field, the
      last descriptor that assigns it. */
  function PatchOf(bs: seq<bv8>): Patch {
    if bs == [] then NO_PATCH else Then(Descriptor(bs[0]), PatchOf(bs[1..]))
  }

  /** `n` passes over the same bytes: the `while (count--)` loop. */
  function Repeat(c: Caches, bs: seq<bv8>, n: nat): Caches
    decreases n
  {
    if n == 0 then c else Repeat(ParseBytes(c, bs), bs, n - 1)
  }

  /** The leaf-2 step: one query, and `count` passes over its registers. */
  function Leaf2(c: Caches, r: Regs): (d: Caches)
    ensures Leaf2Count(r) == 0 ==> d == c
    ensures Leaf2Count(r) >= 1 ==> d == Apply(c, PatchOf(Leaf2Bytes(r)))
  {
    RepeatIsOnce(c, Leaf2Bytes(r), Leaf2Count(r));
    ParseBytesIsPatch(c, Leaf2Bytes(r));
    Repeat(c, Leaf2Bytes(r), Leaf2Count(r))
  }

  /** Parsing a run of descriptors applies their combined patch: each field
      ends up with the value of the last descriptor that names it. */
  lemma {:induction false} ParseBytesIsPatch(c: Caches, bs: seq<bv8>)
    ensures ParseBytes(c, bs) == Apply(c, PatchOf(bs))
    decreases |bs|
  {
    if bs != [] {
      ParseBytesIsPatch(ParseCacheValue(c, bs[0]), bs[1..]);
      ApplyThen(c, Descriptor(bs[0]), PatchOf(bs[1..]));
    }
  }

  /** Parsing two runs of bytes is parsing the first, then the second. */
  lemma {:induction false} ParseBytesAppend(c: Caches, xs: seq<bv8>, ys: seq<bv8>)
    ensures ParseBytes(c, xs + ys) == ParseBytes(ParseBytes(c, xs), ys)
    decreases |xs|
  {
    if xs == [] {
      assert xs + ys == ys;
    } else {
      assert (xs + ys)[0] == xs[0];
      assert (xs + ys)[1..] == xs[1..] + ys;
      ParseBytesAppend(ParseCacheValue(c, xs[0]), xs[1..], ys);
    }
  }

  /** Parsing the same descriptors again changes nothing. */
  lemma ParseBytesIdempotent(c: Caches, bs: seq<bv8>)
    ensures ParseBytes(ParseBytes(c, bs), bs) == ParseBytes(c, bs)
  {
    ParseBytesIsPatch(c, bs);
    ParseBytesIsPatch(ParseBytes(c, bs), bs);
    ApplyTwice(c, PatchOf(bs));
  }

  /** Re-parsing the one leaf-2 answer `count` >= 1 times is parsing it
      once, and `count` = 0 parses nothing. */
  lemma {:induction false} RepeatIsOnce(c: Caches, bs: seq<bv8>, n: nat)
    ensures n == 0 ==> Repeat(c, bs, n) == c
    ensures n >= 1 ==> Repeat(c, bs, n) == ParseBytes(c, bs)
    decreases n
  {
    if n > 1 {
      ParseBytesIdempotent(c, bs);
      RepeatIsOnce(ParseBytes(c, bs), bs, n - 1);
    }
  }

  /** The low byte of EAX is never parsed as a descriptor. */
  lemma EaxLowByteSkipped(eax: bv32, lo: bv32)
    requires lo < 0x100
    ensures RegisterBytes((eax & 0xFFFF_FF00) | lo, true) == RegisterBytes(eax, true)
  {
    var e := (eax & 0xFFFF_FF00) | lo;
    HighBytesKept(eax, lo);
    SameHighBytes(e, eax);
  }

  lemma HighBytesKept(x: bv32, lo: bv32)
    requires lo < 0x100
    ensures ((x & 0xFFFF_FF00) | lo) >> 8 == x >> 8
  {
  }

  lemma SameHighBytes(x: bv32, y: bv32)
    requires x >> 8 == y >> 8
    ensures ByteOf(x, 1) == ByteOf(y, 1) && ByteOf(x, 2) == ByteOf(y, 2) && ByteOf(x, 3) == ByteOf(y, 3)
    ensures x & 0x8000_0000 == y & 0x8000_0000
  {
  }

  /** A register with bit 31 set contributes no descriptor, whatever else
      it holds, whichever of the four registers it is. */
  lemma InvalidRegisterSkipped(r: Regs)
    ensures r.eax & 0x8000_0000 != 0 ==> Leaf2Bytes(r) == Leaf2Bytes(r.(eax := 0x8000_0000))
    ensures r.ebx & 0x8000_0000 != 0 ==> Leaf2Bytes(r) == Leaf2Bytes(r.(ebx := 0x8000_0000))
    ensures r.ecx & 0x8000_0000 != 0 ==> Leaf2Bytes(r) == Leaf2Bytes(r.(ecx := 0x8000_0000))
    ensures r.edx & 0x8000_0000 != 0 ==> Leaf2Bytes(r) == Leaf2Bytes(r.(edx := 0x8000_0000))
  {
  }

  /** An answer with one pass (EAX[7:0] = 1) and the descriptor 0x66 in
      EAX, 0x49 in an EBX whose bit 31 is set (so it is ignored), nothing
      in ECX and 0x7A in EDX: the L1d is 8 KB, the L2 256 KB, and the L3,
      which 0x49 would have set, stays unknown. */
  lemma Leaf2Example()
    ensures Leaf2(NO_CACHES, Regs(0x0000_6601, 0x8000_0049, 0x8000_0000, 0x0000_007A))
            == Caches(Some("8K"), None, Some("256K"), None, false)
  {
    var r := Regs(0x0000_6601, 0x8000_0049, 0x8000_0000, 0x0000_007A);
    Leaf2ExampleBytes();
    RepeatIsOnce(NO_CACHES, Leaf2Bytes(r), 1);
    Leaf2ExampleParse();
  }

  lemma Leaf2ExampleBytes()
    ensures Leaf2Bytes(Regs(0x0000_6601, 0x8000_0049, 0x8000_0000, 0x0000_007A))
            == [0x66, 0x00, 0x00, 0x7A, 0x00, 0x00, 0x00]
    ensures Leaf2Count(Regs(0x0000_6601, 0x8000_0049, 0x8000_0000, 0x0000_007A)) == 1
  {
    assert RegisterBytes(0x0000_6601, true) == [0x66, 0x00, 0x00];
    assert RegisterBytes(0x0000_007A, false) == [0x7A, 0x00, 0x00, 0x00];
  }

  lemma Leaf2ExampleParse()
    ensures ParseBytes(NO_CACHES, [0x66, 0x00, 0x00, 0x7A, 0x00, 0x00, 0x00])
            == Caches(Some("8K"), None, Some("256K"), None, false)
  {
    var bs: seq<bv8> := [0x66, 0x00, 0x00, 0x7A, 0x00, 0x00, 0x00];
    assert Descriptor(0x00) == NO_PATCH;
    assert PatchOf([0x7A, 0x00, 0x00, 0x00]) == SetL2("256K");
    assert PatchOf(bs) == NO_PATCH.(l1d := Some("8K"), l2 := Some("256K"));
    ParseBytesIsPatch(NO_CACHES, bs);
  }

  // ---------------------------------------------------------------------
  // Leaf 4: deterministic cache parameters

  /** EAX[4:0]; 0 means no more caches. */
  function CacheType(eax: bv32): bv32 { eax & 0x1F }
  /** EAX[7:5] */
  function CacheLevel(eax: bv32): bv32 { (eax >> 5) & 0x7 }
  /** EBX[31:22], the ways of associativity minus one. */
  function Ways(ebx: bv32): bv32 { (ebx >> 22) & 0x3FF }
  /** EBX[21:12], the physical line partitions minus one. */
  function Partitions(ebx: bv32): bv32 { (ebx >> 12) & 0x3FF }
  /** EBX[19:10]: what lscpu.c takes for the partitions. */
  function PartitionsAsWritten(ebx: bv32): bv32 { (ebx >> 10) & 0x3FF }
  /** EBX[11:0], the line size minus one. */
  function LineSize(ebx: bv32): bv32 { ebx & 0xFFF }

  /** The bytes a cache of the given fields holds: the product of the four
      `(field + 1)` terms. */
  function CacheBytes(ways: bv32, partitions: bv32, line: bv32, sets: bv32): nat {
    Product(ways as nat + 1, partitions as nat + 1, line as nat + 1, sets as nat + 1)
  }

  function Product(a: nat, b: nat, c: nat, d: nat): nat {
    var ab: nat := a * b;
    var abc: nat := ab * c;
    abc * d
  }

  /** That product in `uint32_t` arithmetic, divided by 1024.  Reducing
      the exact product modulo 2^32 once is the same as reducing after each
      multiplication; (ECX + 1) itself wraps to 0 for ECX = 0xFFFFFFFF,
      which the reduction also covers. */
  function SizeInKilobytes(ways: bv32, partitions: bv32, line: bv32, sets: bv32): (n: nat)
    ensures n < 0x40_0000
  {
    Kilobytes(CacheBytes(ways, partitions, line, sets))
  }

  function Kilobytes(bytes: nat): (n: nat)
    ensures n < 0x40_0000
  {
    (bytes % TWO32) / 1024
  }

  lemma KilobytesExact(bytes: nat)
    requires bytes < TWO32
    ensures Kilobytes(bytes) * 1024 <= bytes < (Kilobytes(bytes) + 1) * 1024
  {
    assert bytes % TWO32 == bytes;
    FloorDiv(bytes, 1024);
  }

  /** The size lscpu.c computes, with EBX[19:10] as the partitions. */
  function Leaf4SizeAsWritten(ebx: bv32, ecx: bv32): (n: nat)
    ensures n < 0x40_0000
  {
    SizeInKilobytes(Ways(ebx), PartitionsAsWritten(ebx), LineSize(ebx), ecx)
  }

  /** The size with the partitions in EBX[21:12], as leaf 4 defines them. */
  function Leaf4Size(ebx: bv32, ecx: bv32): (n: nat)
    ensures n < 0x40_0000
  {
    SizeInKilobytes(Ways(ebx), Partitions(ebx), LineSize(ebx), ecx)
  }

  /** The two agree whenever EBX[21:10] is zero: one line partition and a
      line size below 1024 bytes, as on every shipping part. */
  lemma Leaf4SizesAgree(ebx: bv32, ecx: bv32)
    requires (ebx >> 10) & 0xFFF == 0
    ensures Leaf4SizeAsWritten(ebx, ecx) == Leaf4Size(ebx, ecx)
  {
    assert PartitionsAsWritten(ebx) == 0 && Partitions(ebx) == 0;
  }

  /** An 8-way cache with two partitions, 64-byte lines and 64 sets holds
      8 * 2 * 64 * 64 bytes = 64 KB; the code as written reads five
      partitions out of EBX[19:10] and reports 160 KB. */
  lemma Leaf4PartitionsMisread()
    ensures Leaf4Size(0x01C0103F, 63) == 64
    ensures Leaf4SizeAsWritten(0x01C0103F, 63) == 160
  {
    assert Ways(0x01C0103F) == 7 && Partitions(0x01C0103F) == 1;
    assert PartitionsAsWritten(0x01C0103F) == 4 && LineSize(0x01C0103F) == 63;
  }

  /** The EBX that leaf 4 returns for the given fields. */
  function Leaf4Ebx(ways: bv32, partitions: bv32, line: bv32): bv32
    requires ways < 0x400 && partitions < 0x400 && line < 0x1000
  {
    (ways << 22) | (partitions << 12) | line
  }

  lemma Leaf4FieldsRoundTrip(ways: bv32, partitions: bv32, line: bv32)
    requires ways < 0x400 && partitions < 0x400 && line < 0x1000
    ensures Ways(Leaf4Ebx(ways, partitions, line)) == ways
    ensures Partitions(Leaf4Ebx(ways, partitions, line)) == partitions
    ensures LineSize(Leaf4Ebx(ways, partitions, line)) == line
  {
  }

  /** A cache whose size in bytes fits in 32 bits is reported in whole
      kilobytes, rounded down. */
  lemma Leaf4SizeExact(ebx: bv32, ecx: bv32)
    requires CacheBytes(Ways(ebx), Partitions(ebx), LineSize(ebx), ecx) < TWO32
    ensures Leaf4Size(ebx, ecx) * 1024 <= CacheBytes(Ways(ebx), Partitions(ebx), LineSize(ebx), ecx)
            < (Leaf4Size(ebx, ecx) + 1) * 1024
  {
    KilobytesExact(CacheBytes(Ways(ebx), Partitions(ebx), LineSize(ebx), ecx));
  }

  /** The same for the size as written, with its own partition field. */
  lemma Leaf4SizeAsWrittenExact(ebx: bv32, ecx: bv32)
    requires CacheBytes(Ways(ebx), PartitionsAsWritten(ebx), LineSize(ebx), ecx) < TWO32
    ensures Leaf4SizeAsWritten(ebx, ecx) * 1024 <= CacheBytes(Ways(ebx), PartitionsAsWritten(ebx), LineSize(ebx), ecx)
            < (Leaf4SizeAsWritten(ebx, ecx) + 1) * 1024
  {
    KilobytesExact(CacheBytes(Ways(ebx), PartitionsAsWritten(ebx), LineSize(ebx), ecx));
  }

  lemma FloorDiv(x: nat, d: nat)
    requires d > 0
    ensures (x / d) * d <= x < (x / d + 1) * d
  {
  }

  /** Which field a subleaf describes: (level 1, data) is L1d, (level 1,
      instruction) L1i, (level 2, unified) L2, (level 3, unified) L3; any
      other combination none. */
  function SlotOf(eax: bv32): Option<Slot> {
    var level, kind := CacheLevel(eax), CacheType(eax);
    if level == 1 && kind == 1 then Some(L1d)
    else if level == 1 && kind == 2 then Some(L1i)
    else if level == 2 && kind == 3 then Some(L2)
    else if level == 3 && kind == 3 then Some(L3)
    else None
  }

  /** The string a subleaf stores: "<n>K", or "<n / 1024>M" at L3. */
  function SubleafString(r: Regs): string {
    var n := Leaf4SizeAsWritten(r.ebx, r.ecx);
    if SlotOf(r.eax) == Some(L3) then CacheString(n / 1024, 'M') else CacheString(n, 'K')
  }

  function ApplySubleaf(c: Caches, r: Regs): Caches {
    match SlotOf(r.eax)
    case None => c
    case Some(k) => Set(c, k, SubleafString(r))
  }

  predicate Terminates(r: Regs) {
    CacheType(r.eax) == 0
  }

  /** The subleaves the walk processes: those before the first with cache
      type 0. */
  function Walked(subs: seq<Regs>): (w: seq<Regs>)
    ensures |w| <= |subs| && w == subs[..|w|]
    ensures forall i :: 0 <= i < |w| ==> !Terminates(w[i])
    ensures |w| < |subs| ==> Terminates(subs[|w|])
  {
    if subs == [] || Terminates(subs[0]) then [] else [subs[0]] + Walked(subs[1..])
  }

  /** The leaf-4 `for (subleaf = 0; ; subleaf++)` loop over the given
      answers; it also stops when the answers run out. */
  function Leaf4Walk(c: Caches, subs: seq<Regs>): (d: Caches)
    ensures d.useLeaf4 == c.useLeaf4
    ensures Walked(subs) == [] ==> d == c
    decreases |subs|
  {
    if subs == [] || Terminates(subs[0]) then c
    else Leaf4Walk(ApplySubleaf(c, subs[0]), subs[1..])
  }

  /** The subleaves applied in order, regardless of terminators. */
  function ApplyAll(c: Caches, subs: seq<Regs>): Caches
    decreases |subs|
  {
    if subs == [] then c else ApplyAll(ApplySubleaf(c, subs[0]), subs[1..])
  }

  /** The value the last subleaf in `subs` that describes `k` stores. */
  function LastWriter(subs: seq<Regs>, k: Slot): Option<string> {
    if subs == [] then None
    else if SlotOf(subs[|subs| - 1].eax) == Some(k) then Some(SubleafString(subs[|subs| - 1]))
    else LastWriter(subs[..|subs| - 1], k)
  }

  lemma {:induction false} WalkIsApplyAll(c: Caches, subs: seq<Regs>)
    ensures Leaf4Walk(c, subs) == ApplyAll(c, Walked(subs))
    decreases |subs|
  {
    if subs != [] && !Terminates(subs[0]) {
      WalkIsApplyAll(ApplySubleaf(c, subs[0]), subs[1..]);
      assert ([subs[0]] + Walked(subs[1..]))[1..] == Walked(subs[1..]);
    }
  }

  lemma {:induction false} ApplyAllSnoc(c: Caches, subs: seq<Regs>, r: Regs)
    ensures ApplyAll(c, subs + [r]) == ApplySubleaf(ApplyAll(c, subs), r)
    decreases |subs|
  {
    if subs == [] {
      assert [] + [r] == [r];
    } else {
      assert (subs + [r])[1..] == subs[1..] + [r];
      ApplyAllSnoc(ApplySubleaf(c, subs[0]), subs[1..], r);
    }
  }

  lemma {:induction false} ApplyAllLastWriter(c: Caches, subs: seq<Regs>, k: Slot)
    ensures Get(ApplyAll(c, subs), k) == Or(LastWriter(subs, k), Get(c, k))
    ensures ApplyAll(c, subs).useLeaf4 == c.useLeaf4
  {
    if subs != [] {
      var pre, last := subs[..|subs| - 1], subs[|subs| - 1];
      assert subs == pre + [last];
      ApplyAllSnoc(c, pre, last);
      ApplyAllLastWriter(c, pre, k);
    }
  }

  /** Last writer wins: after the walk each field holds what the last
      processed subleaf describing it stored, or its earlier value when no
      processed subleaf describes it; the leaf-4 switch is unchanged. */
  lemma Leaf4LastWriterWins(c: Caches, subs: seq<Regs>, k: Slot)
    ensures Get(Leaf4Walk(c, subs), k) == Or(LastWriter(Walked(subs), k), Get(c, k))
    ensures Leaf4Walk(c, subs).useLeaf4 == c.useLeaf4
  {
    WalkIsApplyAll(c, subs);
    ApplyAllLastWriter(c, Walked(subs), k);
  }

  /** A field that leaf 4 describes no longer depends on what leaf 2
      stored in it. */
  lemma Leaf4OverridesLeaf2(c1: Caches, c2: Caches, subs: seq<Regs>, k: Slot)
    requires LastWriter(Walked(subs), k).Some?
    ensures Get(Leaf4Walk(c1, subs), k) == Get(Leaf4Walk(c2, subs), k)
  {
    Leaf4LastWriterWins(c1, subs, k);
    Leaf4LastWriterWins(c2, subs, k);
  }

  /** Nothing after the first terminating subleaf is looked at. */
  lemma {:induction false} Leaf4IgnoresAfterTerminator(c: Caches, pre: seq<Regs>, t: Regs, rest: seq<Regs>)
    requires forall i :: 0 <= i < |pre| ==> !Terminates(pre[i])
    requires Terminates(t)
    ensures Leaf4Walk(c, pre + [t] + rest) == Leaf4Walk(c, pre)
    decreases |pre|
  {
    if pre == [] {
      assert (pre + [t] + rest)[0] == t;
    } else {
      assert (pre + [t] + rest)[0] == pre[0];
      assert (pre + [t] + rest)[1..] == pre[1..] + [t] + rest;
      Leaf4IgnoresAfterTerminator(ApplySubleaf(c, pre[0]), pre[1..], t, rest);
    }
  }

  /** The L1 data cache of a Skylake core: 8 ways, one partition, 64-byte
      lines, 64 sets, reported as "32K"; the list then ends. */
  lemma Leaf4Example()
    ensures Leaf4Walk(NO_CACHES, [Regs(0x1C004121, 0x01C0003F, 0x3F, 0), Regs(0, 0, 0, 0)])
            == NO_CACHES.(l1d := Some("32K"))
  {
    var a := Regs(0x1C004121, 0x01C0003F, 0x3F, 0);
    assert SlotOf(a.eax) == Some(L1d);
    assert CacheBytes(7, 0, 63, 63) == 32768;
    assert Leaf4SizeAsWritten(0x01C0003F, 0x3F) == 32;
    assert Decimal(32) == "32";
    assert CacheString(32, 'K') == "32K";
    assert SubleafString(a) == "32K";
    assert ApplySubleaf(NO_CACHES, a) == NO_CACHES.(l1d := Some("32K"));
  }

  // ---------------------------------------------------------------------
  // AMD extended leaves

  /** Fn8000_0005 ECX[31:24] and EDX[31:24]: L1 data and instruction cache
      size in KB. */
  function AmdL1Size(x: bv32): (n: nat)
    ensures n < 0x100
  {
    ((x >> 24) & 0xFF) as nat
  }

  /** Fn8000_0006 ECX[31:16]: L2 size in KB. */
  function AmdL2Size(ecx: bv32): (n: nat)
    ensures n < 0x1_0000
  {
    ((ecx >> 16) as bv16) as nat
  }

  /** Fn8000_0006 EDX[31:18]: L3 size in units of 512 KB. */
  function AmdL3Field(edx: bv32): (n: nat)
    ensures n < 0x4000
  {
    ((edx >> 18) & 0x3FFF) as nat
  }

  /** `(int)(field * 0.512)`: the field times 0.512, rounded down. */
  function AmdL3Megabytes(field: nat): (m: nat)
    ensures m * 1000 <= field * 512 < (m + 1) * 1000
  {
    field * 512 / 1000
  }

  /** The Fn8000_0005 step: L1d and L1i in KB. */
  function AmdLeaf5(c: Caches, r: Regs): (d: Caches)
    ensures d.l1d.Some? && d.l1i.Some?
    ensures d.l2 == c.l2 && d.l3 == c.l3 && d.useLeaf4 == c.useLeaf4
  {
    c.(l1d := Some(CacheString(AmdL1Size(r.ecx), 'K')),
       l1i := Some(CacheString(AmdL1Size(r.edx), 'K')))
  }

  /** The Fn8000_0006 step: L2 in KB and L3 in MB. */
  function AmdLeaf6(c: Caches, r: Regs): (d: Caches)
    ensures d.l2.Some? && d.l3.Some?
    ensures d.l1d == c.l1d && d.l1i == c.l1i && d.useLeaf4 == c.useLeaf4
  {
    c.(l2 := Some(CacheString(AmdL2Size(r.ecx), 'K')),
       l3 := Some(CacheString(AmdL3Megabytes(AmdL3Field(r.edx)), 'M')))
  }

  /** The AMD values are small enough never to be truncated by the 8-byte
      buffers. */
  lemma AmdStringsUntruncated(c: Caches, r5: Regs, r6: Regs)
    ensures AmdLeaf5(c, r5).l1d == Some(Decimal(AmdL1Size(r5.ecx)) + "K")
    ensures AmdLeaf5(c, r5).l1i == Some(Decimal(AmdL1Size(r5.edx)) + "K")
    ensures AmdLeaf6(c, r6).l2 == Some(Decimal(AmdL2Size(r6.ecx)) + "K")
    ensures AmdLeaf6(c, r6).l3 == Some(Decimal(AmdL3Megabytes(AmdL3Field(r6.edx))) + "M")
  {
    CacheStringUntruncated(AmdL1Size(r5.ecx), 'K');
    CacheStringUntruncated(AmdL1Size(r5.edx), 'K');
    CacheStringUntruncated(AmdL2Size(r6.ecx), 'K');
    CacheStringUntruncated(AmdL3Megabytes(AmdL3Field(r6.edx)), 'M');
  }

  /** A 32 MB L3 (field 64) is reported as "32M"; the full 14-bit field
      gives 8388 MB. */
  lemma AmdL3Examples()
    ensures AmdL3Megabytes(64) == 32
    ensures AmdL3Megabytes(0x3FFF) == 8388
  {
  }
}
