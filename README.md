# TXT error-code decoder

A model of the decoder for Intel TXT (Trusted Execution Technology) shutdown
error codes in `main.c`. The decoder takes one 32-bit register value, reads it
through the overlapping bit-field views of the `txt_error_code` union and
writes a report. The report always starts with a generic block of six lines:
the header, then `valid`, `external`, `type1`, `sw_source` and `type2`. What
follows depends on `external`:

- **`external` clear:** one more line, "CPU-initiated TXT-shutdown".
- **`external` set:**
  - "ACM-initiated TXT-shutdown";
  - the module line;
  - the class, major and minor codes;
  - then a two-level lookup: `class_code` against the nine classes of
    `enum txt_class_codes`, then `major_error_code` against that class's own
    switch. Each level ends in its own fallback line.

The model is pure: `decode` is a function from the register value to the
sequence of report lines. Each line is given without its trailing newline.

Modules:

- `Bits` (`bits.dfy`): a field of `width` bits at bit `offset` is
  `(x / 2^offset) % 2^width`. Lemmas show how adjacent fields combine.
- `TxtErrorCode` (`error_code.dfy`): the union's views. It assumes fields are
  allocated from the least significant bit and the first halfword is the low
  half of the value (the x86 / GCC layout). Lemmas show the views of each
  halfword cover the same 16 bits and agree where they overlap.
- `Printf` (`printf.dfy`): the three conversions the decoder uses:
  - `%d`;
  - `%02hx`: the value taken as an `unsigned short`, at least two lower-case
    hex digits;
  - `%02hhx`: the value taken as an `unsigned char`, exactly two digits.

  Each is specified by reading the digits back.
- `ClassCodes` (`class_codes.dfy`): the class enum. It also gives the outer
  switch's choice of case, and the name `CASE_PRINT` writes.
- `MajorCodes` (`major_codes.dfy`): the nine inner switches. Each switch gives
  the description (or fallback) lines for each major code. The texts are
  verbatim, in one table. This includes the joins where the source leaves out
  a space ("processor orServer", "exceedssupported", "butnot", "datatables",
  "OsSinitDatatable") and the double space in "PT,  MLE".
- `TxtDecoder` (`decoder.dfy`): `decode` itself, and the properties of the
  report it writes.

Two places where the source's behaviour may be surprising are modelled as
written:

- **MTRR check, major code 7.** The case has no `break`, so it writes "invalid
  MTRR mask value" and then falls into the default arm's "bad major error
  code".
- **The minor code.** It is printed with `%02hhx`, so the report shows only
  `minor_error_code % 256` of its 12 bits.

## Model

| member | source | states |
|---|---|---|
| Bits.Field | main.c:13-40 | a field of `width` bits is below 2^width |
| Bits.FieldConcat | main.c:13-40 | two adjacent fields form the field spanning both: the union's views of one halfword agree |
| Bits.FieldPrefix | main.c:13-40 | the low k bits of a field are the narrower field at the same offset |
| TxtErrorCode.LowHalf | main.c:13-24 | the first halfword, `raw % 2^16`, is below 2^16 |
| TxtErrorCode.HighHalf | main.c:12-42 | the second halfword is below 2^16; the two halfwords rebuild `raw` |
| TxtErrorCode.Type2 | main.c:15 | type2 (bits 0-14) is below 2^15 |
| TxtErrorCode.Reserved0 | main.c:16 | _r0 (bit 15) is 0 or 1 |
| TxtErrorCode.ModuleType | main.c:19 | module_type (bits 0-3) is below 16 |
| TxtErrorCode.ClassCode | main.c:20 | class_code (bits 4-9) is below 64 |
| TxtErrorCode.MajorErrorCode | main.c:21 | major_error_code (bits 10-14) is below 32 |
| TxtErrorCode.SwSource | main.c:22 | sw_source (bit 15) is 0 or 1 |
| TxtErrorCode.Type1 | main.c:27 | type1 (bits 16-29) is below 2^14 |
| TxtErrorCode.External | main.c:28 | external (bit 30) is 0 or 1 |
| TxtErrorCode.Valid | main.c:29 | valid (bit 31) is 0 or 1 |
| TxtErrorCode.MinorErrorCode | main.c:37 | minor_error_code (bits 16-27) is below 4096 |
| TxtErrorCode.LowViewsCoverHalfword | main.c:13-24 | type2 + _r0·2^15 and module_type + class_code·2^4 + major_error_code·2^10 + sw_source·2^15 both equal `raw % 2^16` |
| TxtErrorCode.HighViewCoversHalfword | main.c:25-30 | type1 + external·2^14 + valid·2^15 equals `raw / 2^16` |
| TxtErrorCode.ViewsOverlap | main.c:13-40 | module_type is the low nibble of type2; minor_error_code is the low 12 bits of type1; sw_source is _r0 |
| TxtErrorCode.FieldsDetermineRaw | main.c:10-43 | the named fields leave no bit of `raw` unaccounted for: equal fields mean equal values |
| Printf.DigitsValue | main.c:61-62 | the unpadded digits of n in a base read back as n |
| Printf.LeadingZerosValue | main.c:61-62 | zero padding on the left does not change the number read back |
| Printf.DigitsFit | main.c:61-62 | a number below base^width needs at most width digits |
| Printf.Format | main.c:61-62 | zero-padded digits read back as n; every character is a digit of the base; at least `width` characters, exactly `width` when n fits, and no leading zero beyond the padding |
| Printf.Decimal | main.c:61 | `%d` reads back as the value; only decimal digits, at least one, no leading zero; a single digit below ten |
| Printf.HexShort | main.c:61-62 | `%02hx` reads back as the value mod 2^16; only hex digits, at least two, exactly two below 256, and no leading zero when more than two |
| Printf.HexByte | main.c:73-75 | `%02hhx` reads back as the value mod 256, with exactly two hex digits |
| ClassCodes.Code | main.c:45-55 | every enumerator's value is one of the nine class codes and fits the 6-bit field |
| ClassCodes.FromCode | main.c:76-319 | the outer switch picks a case exactly for the nine enum values, and the case it picks has that value |
| ClassCodes.Name | main.c:57 | the name `CASE_PRINT` writes is never empty and never the class fallback "bad class code" |
| MajorCodes.AcmEntryMajor | main.c:78-91 | one line; the fallback exactly when major is not 1, 3 or 9; only ACM-entry descriptions |
| MajorCodes.MtrrCheckMajor | main.c:94-117 | two lines for code 7 and one otherwise; the fallback alone exactly outside 1-7; the fallback last for those and for 7 (missing `break`); code 7 writes exactly "invalid MTRR mask value" and then the fallback |
| MajorCodes.TpmAccessMajor | main.c:120-146 | one line; the fallback exactly outside {1, 5, 6, 0xd, 0xe, 0xf, 0x10}; only TPM descriptions |
| MajorCodes.LaunchControlPolicyMajor | main.c:149-181 | one line; the fallback exactly outside {2, 4, ..., 0xa}; only launch-control-policy descriptions |
| MajorCodes.HeapTableDataMajor | main.c:184-226 | one line; the fallback exactly outside 1-0xc; only heap-table descriptions |
| MajorCodes.PmrConfigurationMajor | main.c:229-241 | one line; the fallback exactly outside {1, 2, 3}; only PMR descriptions |
| MajorCodes.MleHeaderCheckMajor | main.c:244-268 | one line; the fallback exactly outside 1-7; only MLE-header descriptions |
| MajorCodes.MlePageTablesCheckMajor | main.c:271-294 | one line; the fallback exactly outside 1-6; only MLE-page-table descriptions |
| MajorCodes.EventLogMajor | main.c:297-315 | one line; the fallback exactly outside 1-5; only event-log descriptions |
| MajorCodes.MajorLines | main.c:76-317 | for any class: the line count, the fallback-alone condition, the fallback-last condition (including MTRR 7), that the first line is a description exactly for a known code, that MTRR 7 starts with the mask description, and that every description belongs to the class |
| MajorCodes.Text | main.c:78-315 | the verbatim description table; its texts are stated by LtsxFuseMismatchText, InvalidMtrrMaskText and TextIsNotFallback |
| MajorCodes.MajorLineText | main.c:78-315 | every major-code line starts with the six-space indent |
| MajorCodes.CaseOfMajor | main.c:78-315 | a known code's first line is a description whose case label is that code |
| MajorCodes.DescriptionIsReached | main.c:78-315 | every description is written by its own class's switch at its case label: no description is unreachable |
| MajorCodes.MajorLinesInjective | main.c:78-315 | within a class, different known codes give different lines |
| MajorCodes.LtsxFuseMismatchText | main.c:83-85 | the ACM-entry code 3 line is the source's text verbatim, with no space before "Server" |
| MajorCodes.InvalidMtrrMaskText | main.c:113-114 | the MTRR code 7 line reads "invalid MTRR mask value" |
| MajorCodes.TextIsNotFallback | main.c:78-315 | no description text reads "bad major error code" |
| MajorCodes.FallbackLineIsDistinct | main.c:78-315 | a major-code line reads "      bad major error code" exactly when it was written by a default arm |
| TxtDecoder.GenericBlock | main.c:60-63 | six lines, starting with "Generic register values" |
| TxtDecoder.GenericBlockShowsFields | main.c:60-63 | each generic line shows only digits between its parentheses and reads back as valid, external, type1, sw_source and type2 in full; valid, external and sw_source are one decimal digit (`%d`), type1 and type2 at least two hex digits with no leading zero beyond two (`%02hx`) |
| TxtDecoder.GenericBlockDeterminesRaw | main.c:60-63 | the generic block is lossless: two values with the same block are equal |
| TxtDecoder.ModuleLine | main.c:66-72 | the line names SINIT exactly when module_type is non-zero, and BIOS ACM exactly when it is zero |
| TxtDecoder.AcmFieldLines | main.c:65-75 | five lines, starting with "ACM-initiated TXT-shutdown" |
| TxtDecoder.ModuleLineOfFields | main.c:66-72 | the module line is the second of the ACM field lines |
| TxtDecoder.AcmFieldLinesShowCodes | main.c:73-75 | the code lines show only hex digits between their parentheses and read back as class_code and major_error_code in full and minor_error_code mod 256, each with exactly two hex digits |
| TxtDecoder.MajorTexts | main.c:78-315 | one text per major-code line, in order |
| TxtDecoder.ClassLines | main.c:76-319 | one to three lines; only "    bad class code" exactly for an unknown class; for a known class its name and then its inner switch's lines |
| TxtDecoder.KnownClassFallback | main.c:76-317 | for a known class the first line is not the class fallback, and the last line is the major fallback exactly for an unknown major or MTRR code 7 |
| TxtDecoder.Decode | main.c:59-324 | the report starts with the generic block; it is the generic block plus "CPU-initiated TXT-shutdown" exactly when external is clear; otherwise line 7 is "ACM-initiated TXT-shutdown" |
| TxtDecoder.AcmReportParts | main.c:64-320 | an ACM-initiated report is the generic block, the five field lines and the class lines: 12 to 14 lines |
| TxtDecoder.AcmModuleLine | main.c:64-72 | in an ACM-initiated report the module line reads SINIT exactly when module_type is non-zero and BIOS ACM exactly when it is zero |
| TxtDecoder.ModuleLineOfReport | main.c:64-72 | the module line is the eighth line of an ACM-initiated report |
| TxtDecoder.UnknownClassReport | main.c:318-319 | an unknown class ends the report with "    bad class code", and no major-code line follows |
| TxtDecoder.KnownClassReport | main.c:76-317 | a known class writes its name, then its inner switch's lines; the report ends with the major fallback exactly for an unknown major or MTRR code 7 |
| TxtDecoder.DecodeInjective | main.c:59-324 | different register values give different reports |
| TxtDecoder.MtrrMaskLines | main.c:113-116 | MTRR code 7 writes "invalid MTRR mask value" and then "bad major error code" |
| TxtDecoder.MtrrMaskReport | main.c:113-116 | a report for MTRR code 7 has 14 lines, ending with the mask line and the major fallback |
| TxtDecoder.LtsxFuseMismatchReport | main.c:83-85 | a report for ACM-entry code 3 has 13 lines and ends with the source's text verbatim |

## Left out

- `main` and `usage` (main.c:5-8, 326-334) are left out. They check the command line, print usage to stderr, call `exit`, and print the "Error code : 0x%08x" line before the report.
- The `strtol` parse and its conversion from `long` to `uint32_t` (main.c:330) are left out. The input is a value `0 <= raw < 2^32`.
- `FILE *` streams are not modelled. The report is a returned sequence of lines, one per newline the decoder writes. The module line, which is written by three calls, is one line.
- The compiler's bit-field allocation is not modelled. The layout is fixed as least-significant-bit first, with the first halfword low.
- The views `extended_value`, `_r1`, `_p0`, `_r2` and `_p1` (main.c:31-39) are not modelled, because `decode` never reads them.
- Printf: only the conversions the decoder uses are modelled: `%d` of a non-negative value, and `%02hx` / `%02hhx` of a non-negative value.
- MajorCodes.Text: carries no contract of its own, because any clause over its 58 string literals is beyond the solver's budget. Its texts are stated by LtsxFuseMismatchText, InvalidMtrrMaskText and TextIsNotFallback.
- TxtDecoder.GenericBlock, TxtDecoder.AcmFieldLines: their contracts give only the line count and the header line. What each field line shows is stated by GenericBlockShowsFields and AcmFieldLinesShowCodes.
