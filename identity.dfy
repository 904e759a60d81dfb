/** Family, model and stepping from the version information that CPUID
    leaf 1 returns in EAX (Intel SDM Vol. 2A, CPUID, "Version Information"). */
module VersionInfo {
  import opened Bits

  /** The report's `unsigned short family`, `unsigned char model` and
      `unsigned char stepping`. */
  datatype Identity = Identity(family: bv16, model: bv8, stepping: bv8)

  /** EAX[3:0] */
  function SteppingId(eax: bv32): bv32 { eax & 0xF }
  /** EAX[7:4] */
  function ModelId(eax: bv32): bv32 { (eax >> 4) & 0xF }
  /** EAX[11:8] */
  function FamilyId(eax: bv32): bv32 { (eax >> 8) & 0xF }
  /** EAX[19:16] */
  function ExtendedModelId(eax: bv32): bv32 { (eax >> 16) & 0xF }
  /** EAX[27:20] */
  function ExtendedFamilyId(eax: bv32): bv32 { (eax >> 20) & 0xFF }

  /** The stepping, EAX[3:0]. */
  function Stepping(eax: bv32): (s: bv8)
    ensures s as bv32 == SteppingId(eax)
  {
    (eax & 0xF) as bv8
  }

  /** The model: the extended model supplies the high nibble when the
      family is 6 or 15. */
  function DisplayModel(eax: bv32): (m: bv8)
    ensures m as bv32 == if FamilyId(eax) == 6 || FamilyId(eax) == 15
                         then ModelId(eax) + 16 * ExtendedModelId(eax) else ModelId(eax)
  {
    var family := (eax >> 8) & 0xF;
    var model := (eax >> 4) & 0xF;
    (if family == 6 || family == 15 then model | ((eax >> 12) & 0xF0) else model) as bv8
  }

  /** The family as lscpu.c computes it: the extended family is ORed in at
      bit 4, so a base family of 15 yields 15 + 16 * extended family. */
  function FamilyAsWritten(eax: bv32): (f: bv16)
    ensures f as bv32 == if FamilyId(eax) == 15 then 15 + 16 * ExtendedFamilyId(eax) else FamilyId(eax)
  {
    var family := (eax >> 8) & 0xF;
    (if family == 15 then family | ((eax >> 16) & 0xFF0) else family) as bv16
  }

  /** The family as the SDM defines it: the sum of the family and the
      extended family when the family is 15. */
  function DisplayFamily(eax: bv32): (f: bv16)
    ensures f as bv32 == if FamilyId(eax) == 15 then 15 + ExtendedFamilyId(eax) else FamilyId(eax)
  {
    var family := (eax >> 8) & 0xF;
    (if family == 15 then family + ((eax >> 20) & 0xFF) else family) as bv16
  }

  /** The decoding as lscpu.c writes it. */
  function DecodeIdentityAsWritten(eax: bv32): Identity {
    Identity(FamilyAsWritten(eax), DisplayModel(eax), Stepping(eax))
  }

  /** The decoding as the SDM defines it; stepping and model are decoded as
      above. */
  function DecodeIdentity(eax: bv32): Identity {
    Identity(DisplayFamily(eax), DisplayModel(eax), Stepping(eax))
  }

  /** The identities that a leaf-1 EAX can express: a model above 15 needs a
      family of 6 or at least 15, and the family is at most 15 + 255. */
  predicate Expressible(id: Identity) {
    && id.stepping < 16
    && id.family <= 15 + 0xFF
    && (id.family == 6 || id.family >= 15 || id.model < 16)
  }

  /** The leaf-1 EAX that reports `id`; reserved bits are zero. */
  function EncodeIdentity(id: Identity): (eax: bv32)
    requires Expressible(id)
  {
    var f := id.family as bv32;
    var base: bv32 := if f >= 15 then 15 else f;
    var ext: bv32 := if f >= 15 then f - 15 else 0;
    var m := id.model as bv32;
    (id.stepping as bv32) | ((m & 0xF) << 4) | (base << 8) | ((m >> 4) << 16) | (ext << 20)
  }

  /** Decoding inverts encoding on every expressible identity. */
  lemma DecodeEncode(id: Identity)
    requires Expressible(id)
    ensures DecodeIdentity(EncodeIdentity(id)) == id
  {
  }

  /** The identities the decoding as written can produce: a base family of
      15 is kept in the low nibble and the extended family fills bits 4 to
      11, so every family from 15 on ends in the nibble 0xF. */
  predicate ExpressibleAsWritten(id: Identity) {
    && id.stepping < 16
    && id.family < 0x1000
    && (id.family < 15 || id.family & 0xF == 0xF)
    && (id.family == 6 || id.family >= 15 || id.model < 16)
  }

  /** The leaf-1 EAX that the decoding as written reads as `id`: the
      extended family is the family shifted right by four. */
  function EncodeIdentityAsWritten(id: Identity): (eax: bv32)
    requires ExpressibleAsWritten(id)
  {
    var f := id.family as bv32;
    var base: bv32 := if f >= 15 then 15 else f;
    var ext: bv32 := if f >= 15 then f >> 4 else 0;
    var m := id.model as bv32;
    (id.stepping as bv32) | ((m & 0xF) << 4) | (base << 8) | ((m >> 4) << 16) | (ext << 20)
  }

  /** The decoding as written inverts its encoding: the family it reports
      determines the extended family it was built from. */
  lemma DecodeEncodeAsWritten(id: Identity)
    requires ExpressibleAsWritten(id)
    ensures DecodeIdentityAsWritten(EncodeIdentityAsWritten(id)) == id
  {
  }

  /** As written, a family-15 EAX yields its extended family back from bits
      4 to 11 of the reported family. */
  lemma ExtendedFamilyRecovered(eax: bv32)
    requires FamilyId(eax) == 15
    ensures (FamilyAsWritten(eax) >> 4) as bv32 == ExtendedFamilyId(eax)
    ensures FamilyAsWritten(eax) & 0xF == 0xF
  {
  }

  /** A Skylake-family signature. */
  lemma Signature906EA()
    ensures DecodeIdentityAsWritten(0x000906EA) == Identity(6, 0x9E, 0xA)
    ensures DecodeIdentity(0x000906EA) == Identity(6, 0x9E, 0xA)
  {
  }

  /** An AMD family 17h signature: the OR produces 0x8F where the SDM's sum
      gives 0x17. */
  lemma FamilyOrDiffersFromSum()
    ensures DecodeIdentityAsWritten(0x00800F11).family == 0x8F
    ensures DecodeIdentity(0x00800F11).family == 0x17
  {
  }
}
