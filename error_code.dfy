/** The `txt_error_code` union: one 32-bit register value read through
    overlapping bit-field views.  Fields are allocated from the least
    significant bit and the first 16-bit halfword holds the low half of the
    value (the x86 / GCC layout).  Every view reads the value, none changes it. */
module TxtErrorCode {
  import opened Bits

  /** The `uint32_t raw` member. */
  type U32 = x: nat | x < 0x1_0000_0000

  const HalfwordSize: nat := 0x1_0000

  /** First halfword in memory: bits 0-15. */
  function LowHalf(raw: nat): (r: nat)
    ensures r < HalfwordSize
  {
    raw % HalfwordSize
  }

  /** Second halfword in memory: bits 16-31. */
  function HighHalf(raw: U32): (r: nat)
    ensures r < HalfwordSize
    ensures raw == LowHalf(raw) + r * HalfwordSize
  {
    raw / HalfwordSize
  }

  // First halfword, first view: type2 (15 bits) and _r0 (1 bit).

  function Type2(raw: nat): (r: nat)
    ensures r < 0x8000
  {
    Pow2Table();
    Field(raw, 0, 15)
  }

  function Reserved0(raw: nat): (r: nat)
    ensures r <= 1
  {
    Pow2Table();
    Field(raw, 15, 1)
  }

  // First halfword, second view: module_type (4), class_code (6),
  // major_error_code (5) and sw_source (1).

  function ModuleType(raw: nat): (r: nat)
    ensures r < 16
  {
    Pow2Table();
    Field(raw, 0, 4)
  }

  function ClassCode(raw: nat): (r: nat)
    ensures r < 64
  {
    Pow2Table();
    Field(raw, 4, 6)
  }

  function MajorErrorCode(raw: nat): (r: nat)
    ensures r < 32
  {
    Pow2Table();
    Field(raw, 10, 5)
  }

  function SwSource(raw: nat): (r: nat)
    ensures r <= 1
  {
    Pow2Table();
    Field(raw, 15, 1)
  }

  // Second halfword, first view: type1 (14), external (1) and valid (1).

  function Type1(raw: nat): (r: nat)
    ensures r < 0x4000
  {
    Pow2Table();
    Field(raw, 16, 14)
  }

  function External(raw: nat): (r: nat)
    ensures r <= 1
  {
    Pow2Table();
    Field(raw, 30, 1)
  }

  function Valid(raw: nat): (r: nat)
    ensures r <= 1
  {
    Pow2Table();
    Field(raw, 31, 1)
  }

  // Second halfword, third view: minor_error_code (12 bits).

  function MinorErrorCode(raw: nat): (r: nat)
    ensures r < 0x1000
  {
    Pow2Table();
    Field(raw, 16, 12)
  }

  lemma LowHalfIsField(raw: nat)
    ensures LowHalf(raw) == Field(raw, 0, 16)
  {
    Pow2Table();
  }

  /** Both views of the first halfword account for exactly its 16 bits. */
  lemma LowViewsCoverHalfword(raw: nat)
    ensures Type2(raw) + Reserved0(raw) * 0x8000 == LowHalf(raw)
    ensures ModuleType(raw) + ClassCode(raw) * 0x10 + MajorErrorCode(raw) * 0x400
            + SwSource(raw) * 0x8000 == LowHalf(raw)
  {
    Pow2Table();
    LowHalfIsField(raw);
    FieldConcat(raw, 0, 15, 1);
    assert Type2(raw) + Reserved0(raw) * 0x8000 == Field(raw, 0, 16);
    FieldConcat(raw, 0, 4, 6);
    assert ModuleType(raw) + ClassCode(raw) * 0x10 == Field(raw, 0, 10);
    FieldConcat(raw, 0, 10, 5);
    assert Field(raw, 0, 10) + MajorErrorCode(raw) * 0x400 == Type2(raw);
  }

  /** The type1 / external / valid view accounts for exactly the 16 bits of
      the second halfword. */
  lemma HighViewCoversHalfword(raw: U32)
    ensures Type1(raw) + External(raw) * 0x4000 + Valid(raw) * 0x8000 == HighHalf(raw)
  {
    FieldConcat(raw, 16, 14, 1);
    FieldConcat(raw, 16, 15, 1);
    Pow2Table();
    FieldTop(raw, 16, 16);
  }

  /** Views that share bits agree on them: module_type is the low nibble of
      type2, minor_error_code the low 12 bits of type1, and sw_source is _r0. */
  lemma ViewsOverlap(raw: nat)
    ensures ModuleType(raw) == Type2(raw) % 0x10
    ensures MinorErrorCode(raw) == Type1(raw) % 0x1000
    ensures SwSource(raw) == Reserved0(raw)
  {
    FieldPrefix(raw, 0, 15, 4);
    FieldPrefix(raw, 16, 14, 12);
  }

  /** The generic fields and the ACM fields together pin down the raw value:
      the layout leaves no bit unaccounted for. */
  lemma FieldsDetermineRaw(a: U32, b: U32)
    requires ModuleType(a) == ModuleType(b) && ClassCode(a) == ClassCode(b)
    requires MajorErrorCode(a) == MajorErrorCode(b) && SwSource(a) == SwSource(b)
    requires Type1(a) == Type1(b) && External(a) == External(b) && Valid(a) == Valid(b)
    ensures a == b
  {
    LowViewsCoverHalfword(a);
    LowViewsCoverHalfword(b);
    HighViewCoversHalfword(a);
    HighViewCoversHalfword(b);
  }
}
