/** `decode`: the report written for one TXT error-code register value.
    The report is the sequence of lines the decoder writes, each without its
    trailing newline. */
module TxtDecoder {
  import opened TxtErrorCode
  import opened ClassCodes
  import opened MajorCodes
  import Printf

  const GenericHeader := "Generic register values"
  const AcmInitiated := "ACM-initiated TXT-shutdown"
  const CpuInitiated := "CPU-initiated TXT-shutdown"
  const ClassIndent := "    "
  const BadClassLine := ClassIndent + "bad class code"

  /** The first block, written whatever the value: valid, external and
      sw_source with `%d`, type1 with `0x%02hx`, type2 with `%02hx`. */
  function GenericBlock(raw: U32): (lines: seq<string>)
    ensures |lines| == 6 && lines[0] == GenericHeader
  {
    [ GenericHeader,
      "  valid(" + Printf.Decimal(Valid(raw)) + ")",
      "  external(" + Printf.Decimal(External(raw)) + ")",
      "  type1(0x" + Printf.HexShort(Type1(raw)) + ")",
      "  sw_source(" + Printf.Decimal(SwSource(raw)) + ")",
      "  type2(" + Printf.HexShort(Type2(raw)) + ")" ]
  }

  /** The module line: any non-zero module_type is SINIT. */
  function ModuleLine(moduleType: nat): (line: string)
    ensures line == "  module_type(SINIT)" <==> moduleType != 0
    ensures line == "  module_type(BIOS ACM)" <==> moduleType == 0
  {
    "  module_type(" + (if moduleType != 0 then "SINIT" else "BIOS ACM") + ")"
  }

  /** The ACM-initiated header and its four fields; the three codes are
      written with `0x%02hhx`. */
  function AcmFieldLines(raw: U32): (lines: seq<string>)
    ensures |lines| == 5 && lines[0] == AcmInitiated
  {
    [ AcmInitiated,
      ModuleLine(ModuleType(raw)),
      "  class_code(0x" + Printf.HexByte(ClassCode(raw)) + ")",
      "  major_error_code(0x" + Printf.HexByte(MajorErrorCode(raw)) + ")",
      "  minor_error_code(0x" + Printf.HexByte(MinorErrorCode(raw)) + ")" ]
  }

  /** The texts of a sequence of major-code lines, in order. */
  function MajorTexts(lines: seq<MajorLine>): (texts: seq<string>)
    ensures |texts| == |lines|
    ensures forall i :: 0 <= i < |lines| ==> texts[i] == MajorLineText(lines[i])
  {
    if lines == [] then [] else MajorTexts(lines[..|lines| - 1]) + [MajorLineText(lines[|lines| - 1])]
  }

  /** The outer switch on class_code: an unknown class gives only the
      fallback line; a known one gives its name and its inner switch. */
  function ClassLines(classCode: nat, major: nat): (lines: seq<string>)
    ensures 1 <= |lines| <= 3
    ensures lines == [BadClassLine] <==> classCode !in KnownClassCodes
    ensures classCode in KnownClassCodes ==>
              lines[0] == ClassIndent + Name(FromCode(classCode).value)
              && lines[1..] == MajorTexts(MajorLines(FromCode(classCode).value, major))
  {
    match FromCode(classCode)
    case None => [BadClassLine]
    case Some(c) => [ClassIndent + Name(c)] + MajorTexts(MajorLines(c, major))
  }

  /** True when the report must end in the major-code fallback line: a known
      class whose inner switch has no case for the major code, or MTRR check
      code 7, whose case falls through into the default. */
  predicate BadMajorReported(classCode: nat, major: nat)
  {
    && classCode in KnownClassCodes
    && (major !in KnownMajors(FromCode(classCode).value) || (classCode == 0x2 && major == 7))
  }

  /** The whole report for one register value: the generic block, then
      either the CPU-initiated line alone or the ACM-initiated fields followed
      by the class lookup. */
  function Decode(raw: U32): (report: seq<string>)
    ensures |report| >= 7 && report[..6] == GenericBlock(raw)
    ensures External(raw) == 0 <==> report == GenericBlock(raw) + [CpuInitiated]
    ensures External(raw) != 0 ==> report[6] == AcmInitiated
  {
    var block := GenericBlock(raw);
    var rest :=
      if External(raw) != 0 then
        AcmFieldLines(raw) + ClassLines(ClassCode(raw), MajorErrorCode(raw))
      else
        [CpuInitiated];
    assert |rest| >= 6 <==> External(raw) != 0;
    assert (block + rest)[..6] == block;
    assert (block + rest)[6] == rest[0];
    block + rest
  }

  /** An ACM-initiated report is the generic block, the five field lines
      and the class lookup. */
  lemma AcmReportParts(raw: U32)
    requires External(raw) != 0
    ensures var report := Decode(raw);
      && report[6..11] == AcmFieldLines(raw)
      && report[11..] == ClassLines(ClassCode(raw), MajorErrorCode(raw))
      && 12 <= |report| <= 14
  {
    var report := Decode(raw);
    var tail := ClassLines(ClassCode(raw), MajorErrorCode(raw));
    assert report == GenericBlock(raw) + AcmFieldLines(raw) + tail;
  }

  /** For an ACM-initiated shutdown the module line names SINIT exactly when
      module_type is non-zero, and the BIOS ACM otherwise. */
  lemma AcmModuleLine(raw: U32)
    requires External(raw) != 0
    ensures Decode(raw)[7] == "  module_type(SINIT)" <==> ModuleType(raw) != 0
    ensures Decode(raw)[7] == "  module_type(BIOS ACM)" <==> ModuleType(raw) == 0
  {
    ModuleLineOfReport(raw);
  }

  /** The module line is the second of the ACM field lines. */
  lemma ModuleLineOfFields(raw: U32)
    ensures AcmFieldLines(raw)[1] == ModuleLine(ModuleType(raw))
  {
  }

  /** The module line is the eighth line of an ACM-initiated report. */
  lemma ModuleLineOfReport(raw: U32)
    requires External(raw) != 0
    ensures Decode(raw)[7] == ModuleLine(ModuleType(raw))
  {
    AcmReportParts(raw);
    ModuleLineOfFields(raw);
    var report := Decode(raw);
    assert report[7] == report[6..11][1];
  }

  /** For an ACM-initiated shutdown with a class code outside the enum, the
      report ends with the class fallback and no inner-switch line follows. */
  lemma UnknownClassReport(raw: U32)
    requires External(raw) != 0 && ClassCode(raw) !in KnownClassCodes
    ensures |Decode(raw)| == 12 && Decode(raw)[11] == BadClassLine
  {
    AcmReportParts(raw);
  }

  /** For a known class the class line is not the class fallback, and the
      major-code fallback ends the lines exactly when BadMajorReported holds. */
  lemma KnownClassFallback(classCode: nat, major: nat)
    requires classCode in KnownClassCodes
    ensures var lines := ClassLines(classCode, major);
      && lines[0] != BadClassLine
      && (lines[|lines| - 1] == BadMajorLine <==> BadMajorReported(classCode, major))
  {
    var c := FromCode(classCode).value;
    var lines, majors := ClassLines(classCode, major), MajorLines(c, major);
    assert lines[0][4] != BadClassLine[4];
    assert lines[|lines| - 1] == lines[1..][|majors| - 1];
    FallbackLineIsDistinct(majors[|majors| - 1]);
    assert classCode == 0x2 <==> c == MtrrCheckBiosAcAndSinit;
  }

  /** For an ACM-initiated shutdown with a known class, the class line names
      the class and the rest is its inner switch; the major-code fallback
      ends the report exactly when BadMajorReported holds. */
  lemma KnownClassReport(raw: U32)
    requires External(raw) != 0 && ClassCode(raw) in KnownClassCodes
    ensures var report, c := Decode(raw), FromCode(ClassCode(raw)).value;
      && report[11] == ClassIndent + Name(c)
      && report[11] != BadClassLine
      && report[12..] == MajorTexts(MajorLines(c, MajorErrorCode(raw)))
      && (report[|report| - 1] == BadMajorLine
          <==> BadMajorReported(ClassCode(raw), MajorErrorCode(raw)))
  {
    AcmReportParts(raw);
    KnownClassFallback(ClassCode(raw), MajorErrorCode(raw));
    var report := Decode(raw);
    var tail := report[11..];
    assert report[11] == tail[0];
    assert report[12..] == tail[1..];
    assert report[|report| - 1] == tail[|tail| - 1];
  }

  /** `line` is `prefix`, then digits in `base` that denote `n`, then ")". */
  predicate Shows(line: string, prefix: string, n: nat, base: nat)
  {
    && |prefix| < |line|
    && line[..|prefix|] == prefix
    && line[|line| - 1] == ')'
    && (forall i :: |prefix| <= i < |line| - 1 ==> Printf.IsDigit(line[i], base))
    && Printf.Value(line[|prefix|..|line| - 1], base) == n
  }

  lemma ShowsPrefixed(prefix: string, digits: string, n: nat, base: nat)
    requires forall i :: 0 <= i < |digits| ==> Printf.IsDigit(digits[i], base)
    requires Printf.Value(digits, base) == n
    ensures Shows(prefix + digits + ")", prefix, n, base)
  {
    var line := prefix + digits + ")";
    assert forall i :: |prefix| <= i < |line| - 1 ==> line[i] == digits[i - |prefix|];
    assert line[..|prefix|] == prefix;
    assert line[|prefix|..|line| - 1] == digits;
  }

  /** Reading the generic block back gives valid, external, type1, sw_source
      and type2, each in full: the `h` conversions lose nothing because both
      types are narrower than 16 bits.  The one-bit fields are one decimal
      digit each; type1 and type2 are at least two hex digits, with no
      leading zero beyond those two. */
  lemma GenericBlockShowsFields(raw: U32)
    ensures var block := GenericBlock(raw);
      && Shows(block[1], "  valid(", Valid(raw), 10)
      && Shows(block[2], "  external(", External(raw), 10)
      && Shows(block[3], "  type1(0x", Type1(raw), 16)
      && Shows(block[4], "  sw_source(", SwSource(raw), 10)
      && Shows(block[5], "  type2(", Type2(raw), 16)
      && |block[1]| == 10 && |block[2]| == 13 && |block[4]| == 14
      && |block[3]| >= 13 && (|block[3]| > 13 ==> block[3][10] != '0')
      && |block[5]| >= 11 && (|block[5]| > 11 ==> block[5][8] != '0')
  {
    ShowsPrefixed("  valid(", Printf.Decimal(Valid(raw)), Valid(raw), 10);
    ShowsPrefixed("  external(", Printf.Decimal(External(raw)), External(raw), 10);
    ShowsPrefixed("  type1(0x", Printf.HexShort(Type1(raw)), Type1(raw), 16);
    ShowsPrefixed("  sw_source(", Printf.Decimal(SwSource(raw)), SwSource(raw), 10);
    ShowsPrefixed("  type2(", Printf.HexShort(Type2(raw)), Type2(raw), 16);
    var block := GenericBlock(raw);
    assert block[3][10] == Printf.HexShort(Type1(raw))[0];
    assert block[5][8] == Printf.HexShort(Type2(raw))[0];
  }

  /** The generic block is lossless: two register values with the same
      generic block are the same value. */
  lemma GenericBlockDeterminesRaw(a: U32, b: U32)
    requires GenericBlock(a) == GenericBlock(b)
    ensures a == b
  {
    GenericBlockShowsFields(a);
    GenericBlockShowsFields(b);
    LowViewsCoverHalfword(a);
    LowViewsCoverHalfword(b);
    ViewsOverlap(a);
    ViewsOverlap(b);
    HighViewCoversHalfword(a);
    HighViewCoversHalfword(b);
  }

  /** Different register values give different reports. */
  lemma DecodeInjective(a: U32, b: U32)
    requires Decode(a) == Decode(b)
    ensures a == b
  {
    GenericBlockDeterminesRaw(a, b);
  }

  /** Reading the ACM code lines back gives class_code and major_error_code
      in full but only the low byte of minor_error_code, each as exactly two
      hex digits. */
  lemma AcmFieldLinesShowCodes(raw: U32)
    ensures var lines := AcmFieldLines(raw);
      && Shows(lines[2], "  class_code(0x", ClassCode(raw), 16)
      && Shows(lines[3], "  major_error_code(0x", MajorErrorCode(raw), 16)
      && Shows(lines[4], "  minor_error_code(0x", MinorErrorCode(raw) % 0x100, 16)
      && |lines[2]| == 18 && |lines[3]| == 24 && |lines[4]| == 24
  {
    ShowsPrefixed("  class_code(0x", Printf.HexByte(ClassCode(raw)), ClassCode(raw), 16);
    ShowsPrefixed("  major_error_code(0x", Printf.HexByte(MajorErrorCode(raw)), MajorErrorCode(raw), 16);
    ShowsPrefixed("  minor_error_code(0x", Printf.HexByte(MinorErrorCode(raw)), MinorErrorCode(raw) % 0x100, 16);
  }

  /** MTRR check code 7: its case writes the mask description and, lacking a
      `break`, the default arm's fallback after it. */
  lemma MtrrMaskLines()
    ensures MajorTexts(MajorLines(MtrrCheckBiosAcAndSinit, 7))
         == [MajorIndent + "invalid MTRR mask value", BadMajorLine]
  {
    var lines := MajorLines(MtrrCheckBiosAcAndSinit, 7);
    InvalidMtrrMaskText();
    assert lines == [Describe(InvalidMtrrMask), BadMajorCode];
    assert MajorTexts(lines) == [MajorLineText(Describe(InvalidMtrrMask)), MajorLineText(BadMajorCode)];
  }

  /** The report for MTRR check code 7 ends with both of those lines. */
  lemma MtrrMaskReport(raw: U32)
    requires External(raw) != 0 && ClassCode(raw) == 0x2 && MajorErrorCode(raw) == 7
    ensures |Decode(raw)| == 14
    ensures Decode(raw)[12] == MajorIndent + "invalid MTRR mask value"
    ensures Decode(raw)[13] == BadMajorLine
  {
    KnownClassReport(raw);
    MtrrMaskLines();
    var report := Decode(raw);
    assert report[12] == report[12..][0] && report[13] == report[12..][1];
  }

  /** ACM entry code 3 ends the report with its description as the source
      spells it, with the space missing before "Server". */
  lemma LtsxFuseMismatchReport(raw: U32)
    requires External(raw) != 0 && ClassCode(raw) == 0x1 && MajorErrorCode(raw) == 3
    ensures |Decode(raw)| == 13
    ensures Decode(raw)[12] == MajorIndent
      + "client SINIT detected LTSX fused processor orServer SINIT detected non- LTSX fused processor"
  {
    KnownClassReport(raw);
    LtsxFuseMismatchText();
    var report := Decode(raw);
    assert report[12] == report[12..][0] == MajorLineText(Describe(LtsxFuseMismatch));
  }
}
