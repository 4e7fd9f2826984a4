/** The inner switches of `decode`: for each class, which lines a major
    error code produces.  The texts of the descriptions are kept apart from
    the switches in one table, `Text`. */
module MajorCodes {
  import opened ClassCodes

  /** Every description an inner switch can write, named after its text. */
  datatype Description =
    // ACM_ENTRY_BIOS_AC_AND_SINIT
    | AcmLaunchError
    | LtsxFuseMismatch
    | AcmRevoked
    // MTRR_CHECK_BIOS_AC_AND_SINIT
    | MtrrRule1
    | MtrrRule2
    | MtrrRule3
    | MtrrRule4
    | MtrrRule5
    | MtrrRule6
    | InvalidMtrrMask
    // TPM_ACCESS_BIOS_AC_AND_SINIT
    | TpmError
    | Tpm12Disabled
    | Tpm12Deactivated
    | Tpm20InterfaceUnsupported
    | TpmFamilyUnsupported
    | TooManyPcrBanks
    | TpmHashAlgorithmUnsupported
    // LAUNCH_CONTROL_POLICY_BIOS_AC_AND_SINIT
    | SinitBelowMinimumVersion
    | NoPolicyElementMatch
    | AutoPromotionFailed
    | FailsafeBootFailed
    | PoIntegrityFailed
    | PsIntegrityFailed
    | NoNpwPolicy
    | PsNvIndexUndefined
    // HEAP_TABLE_DATA_SINIT
    | InvalidHeapTableSize
    | InvalidHeapTableVersion
    | InvalidPmrLowAlignment
    | InvalidPmrHighAlignment
    | MleAbove4GB
    | InvalidMleCapabilities
    | HeapOverfilled
    | UnsupportedHeapElementType
    | InvalidHeapElementSize
    | HeapTableNotTerminated
    | InvalidEventLogPointer
    | InvalidRsdtRsdpPointer
    // PMR_CONFIGURATION_SINIT
    | DmaRemappingEnabled
    | InvalidPmrLowConfiguration
    | InvalidPmrHighConfiguration
    // MLE_HEADER_CHECK_SINIT
    | MleHeaderAddressError
    | InvalidMleGuid
    | InvalidMleVersion
    | InvalidFirstPageAddress
    | InvalidMleSize
    | InvalidMleEntryPoint
    | IncompatibleRlmWakeUp
    // MLE_PAGE_TABLES_CHECK_SINIT
    | PagePlacementError
    | PageOrderFailure
    | BigPageDiscovered
    | PageTableOrderFailure
    | InvalidMleHashedSize
    | InvalidRlpEntryPoint
    // EVENT_LOG_SINIT
    | InvalidLogHeaderGuid
    | InvalidLogHeaderVersion
    | InconsistentHeaderFields
    | InsufficientLogSize
    | UnsupportedRecordVersion

  /** The text of each description, as the source writes it (adjacent
      literals joined, without any space the source leaves out). */
  function Text(d: Description): string
  {
    match d
    case AcmLaunchError => "error in ACM launching"
    case LtsxFuseMismatch => "client SINIT detected LTSX fused processor orServer SINIT detected non- LTSX fused processor"
    case AcmRevoked => "ACM is revoked"
    case MtrrRule1 => "MTRR Rule 1 Error"
    case MtrrRule2 => "MTRR Rule 2 Error"
    case MtrrRule3 => "MTRR Rule 3 Error"
    case MtrrRule4 => "MTRR Rule 4 Error"
    case MtrrRule5 => "MTRR Rule 5 Error"
    case MtrrRule6 => "MTRR Rule 6 Error"
    case InvalidMtrrMask => "invalid MTRR mask value"
    case TpmError => "TPM returned an error"
    case Tpm12Disabled => "TPM 1.2 disabled"
    case Tpm12Deactivated => "TPM 1.2 deactivated"
    case Tpm20InterfaceUnsupported => "TPM 2.0 interface type (FIFO/CRB) not supported"
    case TpmFamilyUnsupported => "TPM family (1.2/2.0) not supported"
    case TooManyPcrBanks => "Discovered number of TPM 2.0 PCR banks exceedssupported maximum (3)"
    case TpmHashAlgorithmUnsupported => "Required TPM hash algorithm not supported"
    case SinitBelowMinimumVersion => "SINIT version is below minimum specified in TPM NV policy index"
    case NoPolicyElementMatch => "No match is found for Policy Element"
    case AutoPromotionFailed => "Auto-promotion failed. BIOS hash differs from hash value saved in AUX index"
    case FailsafeBootFailed => "Failsafe boot failed. (FIT table not found or corrupted)"
    case PoIntegrityFailed => "PO integrity check failed"
    case PsIntegrityFailed => "PS integrity check failed"
    case NoNpwPolicy => "No policies are defined to allow NPW execution"
    case PsNvIndexUndefined => "PS TPM NV policy index is required butnot defined"
    case InvalidHeapTableSize => "Invalid size of one of the heap data tables"
    case InvalidHeapTableVersion => "Invalid version of one of the heap datatables"
    case InvalidPmrLowAlignment => "Invalid PMR Low range alignment"
    case InvalidPmrHighAlignment => "Invalid PMR High range alignment"
    case MleAbove4GB => "Invalid MLE placement (Above 4GB)"
    case InvalidMleCapabilities => "Invalid MLE requested capabilities"
    case HeapOverfilled => "Heap region is overfilled"
    case UnsupportedHeapElementType => "Unsupported heap extended element type"
    case InvalidHeapElementSize => "Invalid heap extended element size"
    case HeapTableNotTerminated => "Heap table is not terminated by the extended \"END\" element"
    case InvalidEventLogPointer => "Invalid event log pointer"
    case InvalidRsdtRsdpPointer => "Invalid RSDT/RSDP pointer in OsSinitDatatable"
    case DmaRemappingEnabled => "DMA remapping is enabled"
    case InvalidPmrLowConfiguration => "Invalid PMR Low configuration"
    case InvalidPmrHighConfiguration => "Invalid PMR High configuration"
    case MleHeaderAddressError => "MLE Header linear address conversion error"
    case InvalidMleGuid => "Invalid MLE GUID"
    case InvalidMleVersion => "Invalid MLE version"
    case InvalidFirstPageAddress => "Invalid first page address"
    case InvalidMleSize => "Invalid MLE size"
    case InvalidMleEntryPoint => "Invalid MLE entry point address"
    case IncompatibleRlmWakeUp => "Incompatible RLM wake-up method"
    case PagePlacementError => "Page placement error"
    case PageOrderFailure => "MLE page order rule failure - next page is not above previous one"
    case BigPageDiscovered => "Discovered big page (2MB)"
    case PageTableOrderFailure => "Page Table order rule failure - PDPT, PDT, PT,  MLE pages are not in ascending order"
    case InvalidMleHashedSize => "Invalid MLE hashed size"
    case InvalidRlpEntryPoint => "Invalid RLP entry point address"
    case InvalidLogHeaderGuid => "Invalid Log Header GUID"
    case InvalidLogHeaderVersion => "Invalid Log Header version"
    case InconsistentHeaderFields => "Inconsistent values of header fields"
    case InsufficientLogSize => "Insufficient log size"
    case UnsupportedRecordVersion => "Unsupported record version"
  }

  /** The class whose inner switch has a case for the description. */
  function Owner(d: Description): ErrorClass
  {
    match d
    case AcmLaunchError | LtsxFuseMismatch | AcmRevoked
      => AcmEntryBiosAcAndSinit
    case MtrrRule1 | MtrrRule2 | MtrrRule3 | MtrrRule4 | MtrrRule5 | MtrrRule6 | InvalidMtrrMask
      => MtrrCheckBiosAcAndSinit
    case TpmError | Tpm12Disabled | Tpm12Deactivated | Tpm20InterfaceUnsupported | TpmFamilyUnsupported | TooManyPcrBanks | TpmHashAlgorithmUnsupported
      => TpmAccessBiosAcAndSinit
    case SinitBelowMinimumVersion | NoPolicyElementMatch | AutoPromotionFailed | FailsafeBootFailed | PoIntegrityFailed | PsIntegrityFailed | NoNpwPolicy | PsNvIndexUndefined
      => LaunchControlPolicyBiosAcAndSinit
    case InvalidHeapTableSize | InvalidHeapTableVersion | InvalidPmrLowAlignment | InvalidPmrHighAlignment | MleAbove4GB | InvalidMleCapabilities | HeapOverfilled | UnsupportedHeapElementType | InvalidHeapElementSize | HeapTableNotTerminated | InvalidEventLogPointer | InvalidRsdtRsdpPointer
      => HeapTableDataSinit
    case DmaRemappingEnabled | InvalidPmrLowConfiguration | InvalidPmrHighConfiguration
      => PmrConfigurationSinit
    case MleHeaderAddressError | InvalidMleGuid | InvalidMleVersion | InvalidFirstPageAddress | InvalidMleSize | InvalidMleEntryPoint | IncompatibleRlmWakeUp
      => MleHeaderCheckSinit
    case PagePlacementError | PageOrderFailure | BigPageDiscovered | PageTableOrderFailure | InvalidMleHashedSize | InvalidRlpEntryPoint
      => MlePageTablesCheckSinit
    case InvalidLogHeaderGuid | InvalidLogHeaderVersion | InconsistentHeaderFields | InsufficientLogSize | UnsupportedRecordVersion
      => EventLogSinit
  }

  /** The case label under which the description is written: with Owner,
      the position of the description in the switches. */
  function CaseLabel(d: Description): nat
  {
    match d
    case AcmLaunchError => 1
    case LtsxFuseMismatch => 3
    case AcmRevoked => 9
    case MtrrRule1 => 1
    case MtrrRule2 => 2
    case MtrrRule3 => 3
    case MtrrRule4 => 4
    case MtrrRule5 => 5
    case MtrrRule6 => 6
    case InvalidMtrrMask => 7
    case TpmError => 1
    case Tpm12Disabled => 5
    case Tpm12Deactivated => 6
    case Tpm20InterfaceUnsupported => 0xd
    case TpmFamilyUnsupported => 0xe
    case TooManyPcrBanks => 0xf
    case TpmHashAlgorithmUnsupported => 0x10
    case SinitBelowMinimumVersion => 2
    case NoPolicyElementMatch => 4
    case AutoPromotionFailed => 5
    case FailsafeBootFailed => 6
    case PoIntegrityFailed => 7
    case PsIntegrityFailed => 8
    case NoNpwPolicy => 9
    case PsNvIndexUndefined => 0xa
    case InvalidHeapTableSize => 1
    case InvalidHeapTableVersion => 2
    case InvalidPmrLowAlignment => 3
    case InvalidPmrHighAlignment => 4
    case MleAbove4GB => 5
    case InvalidMleCapabilities => 6
    case HeapOverfilled => 7
    case UnsupportedHeapElementType => 8
    case InvalidHeapElementSize => 9
    case HeapTableNotTerminated => 0xa
    case InvalidEventLogPointer => 0xb
    case InvalidRsdtRsdpPointer => 0xc
    case DmaRemappingEnabled => 1
    case InvalidPmrLowConfiguration => 2
    case InvalidPmrHighConfiguration => 3
    case MleHeaderAddressError => 1
    case InvalidMleGuid => 2
    case InvalidMleVersion => 3
    case InvalidFirstPageAddress => 4
    case InvalidMleSize => 5
    case InvalidMleEntryPoint => 6
    case IncompatibleRlmWakeUp => 7
    case PagePlacementError => 1
    case PageOrderFailure => 2
    case BigPageDiscovered => 3
    case PageTableOrderFailure => 4
    case InvalidMleHashedSize => 5
    case InvalidRlpEntryPoint => 6
    case InvalidLogHeaderGuid => 1
    case InvalidLogHeaderVersion => 2
    case InconsistentHeaderFields => 3
    case InsufficientLogSize => 4
    case UnsupportedRecordVersion => 5
  }

  /** The major error codes each inner switch has a case for. */
  function KnownMajors(c: ErrorClass): set<nat>
  {
    match c
    case AcmEntryBiosAcAndSinit => {1, 3, 9}
    case MtrrCheckBiosAcAndSinit => {1, 2, 3, 4, 5, 6, 7}
    case TpmAccessBiosAcAndSinit => {1, 5, 6, 0xd, 0xe, 0xf, 0x10}
    case LaunchControlPolicyBiosAcAndSinit => {2, 4, 5, 6, 7, 8, 9, 0xa}
    case HeapTableDataSinit => {1, 2, 3, 4, 5, 6, 7, 8, 9, 0xa, 0xb, 0xc}
    case PmrConfigurationSinit => {1, 2, 3}
    case MleHeaderCheckSinit => {1, 2, 3, 4, 5, 6, 7}
    case MlePageTablesCheckSinit => {1, 2, 3, 4, 5, 6}
    case EventLogSinit => {1, 2, 3, 4, 5}
  }

  /** A line written under the class line: a description, or the default
      arm's "bad major error code". */
  datatype MajorLine = Describe(description: Description) | BadMajorCode

  /** The inner switch of class ACM_ENTRY_BIOS_AC_AND_SINIT (main.c:78-91). */
  function AcmEntryMajor(major: nat): (lines: seq<MajorLine>)
    ensures |lines| == 1
    ensures lines[0] == BadMajorCode <==> major !in KnownMajors(AcmEntryBiosAcAndSinit)
    ensures lines[0].Describe? ==> Owner(lines[0].description) == AcmEntryBiosAcAndSinit
  {
    match major
    case 1 => [Describe(AcmLaunchError)]
    case 3 => [Describe(LtsxFuseMismatch)]
    case 9 => [Describe(AcmRevoked)]
    case _ => [BadMajorCode]
  }

  /** The inner switch of class MTRR_CHECK_BIOS_AC_AND_SINIT (main.c:94-117). */
  function MtrrCheckMajor(major: nat): (lines: seq<MajorLine>)
    ensures |lines| == (if major == 7 then 2 else 1)
    ensures lines == [BadMajorCode] <==> major !in KnownMajors(MtrrCheckBiosAcAndSinit)
    ensures lines[|lines| - 1] == BadMajorCode <==> major !in KnownMajors(MtrrCheckBiosAcAndSinit) || major == 7
    ensures forall i :: 0 <= i < |lines| && lines[i].Describe? ==> Owner(lines[i].description) == MtrrCheckBiosAcAndSinit
    ensures major == 7 ==> lines == [Describe(InvalidMtrrMask), BadMajorCode]
  {
    match major
    case 1 => [Describe(MtrrRule1)]
    case 2 => [Describe(MtrrRule2)]
    case 3 => [Describe(MtrrRule3)]
    case 4 => [Describe(MtrrRule4)]
    case 5 => [Describe(MtrrRule5)]
    case 6 => [Describe(MtrrRule6)]
    case 7 => [Describe(InvalidMtrrMask), BadMajorCode]  // no break: falls into default
    case _ => [BadMajorCode]
  }

  /** The inner switch of class TPM_ACCESS_BIOS_AC_AND_SINIT (main.c:120-146). */
  function TpmAccessMajor(major: nat): (lines: seq<MajorLine>)
    ensures |lines| == 1
    ensures lines[0] == BadMajorCode <==> major !in KnownMajors(TpmAccessBiosAcAndSinit)
    ensures lines[0].Describe? ==> Owner(lines[0].description) == TpmAccessBiosAcAndSinit
  {
    match major
    case 1 => [Describe(TpmError)]
    case 5 => [Describe(Tpm12Disabled)]
    case 6 => [Describe(Tpm12Deactivated)]
    case 0xd => [Describe(Tpm20InterfaceUnsupported)]
    case 0xe => [Describe(TpmFamilyUnsupported)]
    case 0xf => [Describe(TooManyPcrBanks)]
    case 0x10 => [Describe(TpmHashAlgorithmUnsupported)]
    case _ => [BadMajorCode]
  }

  /** The inner switch of class LAUNCH_CONTROL_POLICY_BIOS_AC_AND_SINIT (main.c:149-181). */
  function LaunchControlPolicyMajor(major: nat): (lines: seq<MajorLine>)
    ensures |lines| == 1
    ensures lines[0] == BadMajorCode <==> major !in KnownMajors(LaunchControlPolicyBiosAcAndSinit)
    ensures lines[0].Describe? ==> Owner(lines[0].description) == LaunchControlPolicyBiosAcAndSinit
  {
    match major
    case 2 => [Describe(SinitBelowMinimumVersion)]
    case 4 => [Describe(NoPolicyElementMatch)]
    case 5 => [Describe(AutoPromotionFailed)]
    case 6 => [Describe(FailsafeBootFailed)]
    case 7 => [Describe(PoIntegrityFailed)]
    case 8 => [Describe(PsIntegrityFailed)]
    case 9 => [Describe(NoNpwPolicy)]
    case 0xa => [Describe(PsNvIndexUndefined)]
    case _ => [BadMajorCode]
  }

  /** The inner switch of class HEAP_TABLE_DATA_SINIT (main.c:184-226). */
  function HeapTableDataMajor(major: nat): (lines: seq<MajorLine>)
    ensures |lines| == 1
    ensures lines[0] == BadMajorCode <==> major !in KnownMajors(HeapTableDataSinit)
    ensures lines[0].Describe? ==> Owner(lines[0].description) == HeapTableDataSinit
  {
    match major
    case 1 => [Describe(InvalidHeapTableSize)]
    case 2 => [Describe(InvalidHeapTableVersion)]
    case 3 => [Describe(InvalidPmrLowAlignment)]
    case 4 => [Describe(InvalidPmrHighAlignment)]
    case 5 => [Describe(MleAbove4GB)]
    case 6 => [Describe(InvalidMleCapabilities)]
    case 7 => [Describe(HeapOverfilled)]
    case 8 => [Describe(UnsupportedHeapElementType)]
    case 9 => [Describe(InvalidHeapElementSize)]
    case 0xa => [Describe(HeapTableNotTerminated)]
    case 0xb => [Describe(InvalidEventLogPointer)]
    case 0xc => [Describe(InvalidRsdtRsdpPointer)]
    case _ => [BadMajorCode]
  }

  /** The inner switch of class PMR_CONFIGURATION_SINIT (main.c:229-241). */
  function PmrConfigurationMajor(major: nat): (lines: seq<MajorLine>)
    ensures |lines| == 1
    ensures lines[0] == BadMajorCode <==> major !in KnownMajors(PmrConfigurationSinit)
    ensures lines[0].Describe? ==> Owner(lines[0].description) == PmrConfigurationSinit
  {
    match major
    case 1 => [Describe(DmaRemappingEnabled)]
    case 2 => [Describe(InvalidPmrLowConfiguration)]
    case 3 => [Describe(InvalidPmrHighConfiguration)]
    case _ => [BadMajorCode]
  }

  /** The inner switch of class MLE_HEADER_CHECK_SINIT (main.c:244-268). */
  function MleHeaderCheckMajor(major: nat): (lines: seq<MajorLine>)
    ensures |lines| == 1
    ensures lines[0] == BadMajorCode <==> major !in KnownMajors(MleHeaderCheckSinit)
    ensures lines[0].Describe? ==> Owner(lines[0].description) == MleHeaderCheckSinit
  {
    match major
    case 1 => [Describe(MleHeaderAddressError)]
    case 2 => [Describe(InvalidMleGuid)]
    case 3 => [Describe(InvalidMleVersion)]
    case 4 => [Describe(InvalidFirstPageAddress)]
    case 5 => [Describe(InvalidMleSize)]
    case 6 => [Describe(InvalidMleEntryPoint)]
    case 7 => [Describe(IncompatibleRlmWakeUp)]
    case _ => [BadMajorCode]
  }

  /** The inner switch of class MLE_PAGE_TABLES_CHECK_SINIT (main.c:271-294). */
  function MlePageTablesCheckMajor(major: nat): (lines: seq<MajorLine>)
    ensures |lines| == 1
    ensures lines[0] == BadMajorCode <==> major !in KnownMajors(MlePageTablesCheckSinit)
    ensures lines[0].Describe? ==> Owner(lines[0].description) == MlePageTablesCheckSinit
  {
    match major
    case 1 => [Describe(PagePlacementError)]
    case 2 => [Describe(PageOrderFailure)]
    case 3 => [Describe(BigPageDiscovered)]
    case 4 => [Describe(PageTableOrderFailure)]
    case 5 => [Describe(InvalidMleHashedSize)]
    case 6 => [Describe(InvalidRlpEntryPoint)]
    case _ => [BadMajorCode]
  }

  /** The inner switch of class EVENT_LOG_SINIT (main.c:297-315). */
  function EventLogMajor(major: nat): (lines: seq<MajorLine>)
    ensures |lines| == 1
    ensures lines[0] == BadMajorCode <==> major !in KnownMajors(EventLogSinit)
    ensures lines[0].Describe? ==> Owner(lines[0].description) == EventLogSinit
  {
    match major
    case 1 => [Describe(InvalidLogHeaderGuid)]
    case 2 => [Describe(InvalidLogHeaderVersion)]
    case 3 => [Describe(InconsistentHeaderFields)]
    case 4 => [Describe(InsufficientLogSize)]
    case 5 => [Describe(UnsupportedRecordVersion)]
    case _ => [BadMajorCode]
  }

  /** The inner switch of class `c`: one line per case executed; the
      fallback alone exactly for codes without a case; the fallback last
      exactly for those and for MTRR check code 7, whose case writes the mask
      description and falls into the default; and only descriptions of class
      `c`. */
  function MajorLines(c: ErrorClass, major: nat): (lines: seq<MajorLine>)
    ensures |lines| == (if c == MtrrCheckBiosAcAndSinit && major == 7 then 2 else 1)
    ensures lines == [BadMajorCode] <==> major !in KnownMajors(c)
    ensures lines[|lines| - 1] == BadMajorCode
            <==> major !in KnownMajors(c) || (c == MtrrCheckBiosAcAndSinit && major == 7)
    ensures forall i :: 0 <= i < |lines| && lines[i].Describe? ==> Owner(lines[i].description) == c
    ensures lines[0].Describe? <==> major in KnownMajors(c)
    ensures c == MtrrCheckBiosAcAndSinit && major == 7 ==> lines[0] == Describe(InvalidMtrrMask)
  {
    match c
    case AcmEntryBiosAcAndSinit => AcmEntryMajor(major)
    case MtrrCheckBiosAcAndSinit => MtrrCheckMajor(major)
    case TpmAccessBiosAcAndSinit => TpmAccessMajor(major)
    case LaunchControlPolicyBiosAcAndSinit => LaunchControlPolicyMajor(major)
    case HeapTableDataSinit => HeapTableDataMajor(major)
    case PmrConfigurationSinit => PmrConfigurationMajor(major)
    case MleHeaderCheckSinit => MleHeaderCheckMajor(major)
    case MlePageTablesCheckSinit => MlePageTablesCheckMajor(major)
    case EventLogSinit => EventLogMajor(major)
  }

  /** Major-code lines are indented by six spaces, under the class line. */
  const MajorIndent := "      "
  const BadMajorText := "bad major error code"
  const BadMajorLine := MajorIndent + BadMajorText

  /** The text written for one major-code line: six spaces of indent, then
      the text. */
  function MajorLineText(line: MajorLine): (s: string)
    ensures |s| >= 6 && s[..6] == MajorIndent
  {
    MajorIndent + match line
      case Describe(d) => Text(d)
      case BadMajorCode => BadMajorText
  }

  lemma AcmEntryMajorTextsDiffer(d: Description)
    requires Owner(d) == AcmEntryBiosAcAndSinit
    ensures Text(d) != BadMajorText
  {
  }

  lemma MtrrCheckMajorTextsDiffer(d: Description)
    requires Owner(d) == MtrrCheckBiosAcAndSinit
    ensures Text(d) != BadMajorText
  {
  }

  lemma TpmAccessMajorTextsDiffer(d: Description)
    requires Owner(d) == TpmAccessBiosAcAndSinit
    ensures Text(d) != BadMajorText
  {
  }

  lemma LaunchControlPolicyMajorTextsDiffer(d: Description)
    requires Owner(d) == LaunchControlPolicyBiosAcAndSinit
    ensures Text(d) != BadMajorText
  {
  }

  lemma HeapTableDataMajorTextsDiffer(d: Description)
    requires Owner(d) == HeapTableDataSinit
    ensures Text(d) != BadMajorText
  {
  }

  lemma PmrConfigurationMajorTextsDiffer(d: Description)
    requires Owner(d) == PmrConfigurationSinit
    ensures Text(d) != BadMajorText
  {
  }

  lemma MleHeaderCheckMajorTextsDiffer(d: Description)
    requires Owner(d) == MleHeaderCheckSinit
    ensures Text(d) != BadMajorText
  {
  }

  lemma MlePageTablesCheckMajorTextsDiffer(d: Description)
    requires Owner(d) == MlePageTablesCheckSinit
    ensures Text(d) != BadMajorText
  {
  }

  lemma EventLogMajorTextsDiffer(d: Description)
    requires Owner(d) == EventLogSinit
    ensures Text(d) != BadMajorText
  {
  }

  /** No description reads "bad major error code". */
  lemma TextIsNotFallback(d: Description)
    ensures Text(d) != BadMajorText
  {
    match Owner(d)
    case AcmEntryBiosAcAndSinit => AcmEntryMajorTextsDiffer(d);
    case MtrrCheckBiosAcAndSinit => MtrrCheckMajorTextsDiffer(d);
    case TpmAccessBiosAcAndSinit => TpmAccessMajorTextsDiffer(d);
    case LaunchControlPolicyBiosAcAndSinit => LaunchControlPolicyMajorTextsDiffer(d);
    case HeapTableDataSinit => HeapTableDataMajorTextsDiffer(d);
    case PmrConfigurationSinit => PmrConfigurationMajorTextsDiffer(d);
    case MleHeaderCheckSinit => MleHeaderCheckMajorTextsDiffer(d);
    case MlePageTablesCheckSinit => MlePageTablesCheckMajorTextsDiffer(d);
    case EventLogSinit => EventLogMajorTextsDiffer(d);
  }

  /** The fallback line is written by the default arm and by nothing else. */
  lemma FallbackLineIsDistinct(line: MajorLine)
    ensures MajorLineText(line) == BadMajorLine <==> line == BadMajorCode
  {
    if line.Describe? {
      TextIsNotFallback(line.description);
      assert MajorLineText(line)[6..] == Text(line.description);
      assert BadMajorLine[6..] == BadMajorText;
    }
  }

  /** A code with a case in class `c` writes a description carrying that
      code as its label. */
  lemma CaseOfMajor(c: ErrorClass, major: nat)
    requires major in KnownMajors(c)
    ensures MajorLines(c, major)[0].Describe?
    ensures CaseLabel(MajorLines(c, major)[0].description) == major
  {
  }

  /** Every description is written by the case of its own class that carries
      its label.  With CaseOfMajor and the class clause of MajorLines, the
      switches and the pair (Owner, CaseLabel) are inverse tables. */
  lemma DescriptionIsReached(d: Description)
    ensures MajorLines(Owner(d), CaseLabel(d))[0] == Describe(d)
  {
    match Owner(d)
    case AcmEntryBiosAcAndSinit => AcmEntryMajorReaches(d);
    case MtrrCheckBiosAcAndSinit => MtrrCheckMajorReaches(d);
    case TpmAccessBiosAcAndSinit => TpmAccessMajorReaches(d);
    case LaunchControlPolicyBiosAcAndSinit => LaunchControlPolicyMajorReaches(d);
    case HeapTableDataSinit => HeapTableDataMajorReaches(d);
    case PmrConfigurationSinit => PmrConfigurationMajorReaches(d);
    case MleHeaderCheckSinit => MleHeaderCheckMajorReaches(d);
    case MlePageTablesCheckSinit => MlePageTablesCheckMajorReaches(d);
    case EventLogSinit => EventLogMajorReaches(d);
  }

  // One lemma per class: its switch, at the label of one of its descriptions,
  // writes that description.

  lemma AcmEntryMajorReaches(d: Description)
    requires Owner(d) == AcmEntryBiosAcAndSinit
    ensures AcmEntryMajor(CaseLabel(d))[0] == Describe(d)
  {
  }

  lemma MtrrCheckMajorReaches(d: Description)
    requires Owner(d) == MtrrCheckBiosAcAndSinit
    ensures MtrrCheckMajor(CaseLabel(d))[0] == Describe(d)
  {
  }

  lemma TpmAccessMajorReaches(d: Description)
    requires Owner(d) == TpmAccessBiosAcAndSinit
    ensures TpmAccessMajor(CaseLabel(d))[0] == Describe(d)
  {
  }

  lemma LaunchControlPolicyMajorReaches(d: Description)
    requires Owner(d) == LaunchControlPolicyBiosAcAndSinit
    ensures LaunchControlPolicyMajor(CaseLabel(d))[0] == Describe(d)
  {
  }

  lemma HeapTableDataMajorReaches(d: Description)
    requires Owner(d) == HeapTableDataSinit
    ensures HeapTableDataMajor(CaseLabel(d))[0] == Describe(d)
  {
  }

  lemma PmrConfigurationMajorReaches(d: Description)
    requires Owner(d) == PmrConfigurationSinit
    ensures PmrConfigurationMajor(CaseLabel(d))[0] == Describe(d)
  {
  }

  lemma MleHeaderCheckMajorReaches(d: Description)
    requires Owner(d) == MleHeaderCheckSinit
    ensures MleHeaderCheckMajor(CaseLabel(d))[0] == Describe(d)
  {
  }

  lemma MlePageTablesCheckMajorReaches(d: Description)
    requires Owner(d) == MlePageTablesCheckSinit
    ensures MlePageTablesCheckMajor(CaseLabel(d))[0] == Describe(d)
  {
  }

  lemma EventLogMajorReaches(d: Description)
    requires Owner(d) == EventLogSinit
    ensures EventLogMajor(CaseLabel(d))[0] == Describe(d)
  {
  }

  /** Different codes with a case in one class give different lines. */
  lemma MajorLinesInjective(c: ErrorClass, a: nat, b: nat)
    requires a in KnownMajors(c) && b in KnownMajors(c)
    requires MajorLines(c, a) == MajorLines(c, b)
    ensures a == b
  {
    CaseOfMajor(c, a);
    CaseOfMajor(c, b);
  }

  /** The text of ACM entry code 3, as the source spells it: the space before
      "Server" is missing. */
  lemma LtsxFuseMismatchText()
    ensures MajorLineText(Describe(LtsxFuseMismatch)) == MajorIndent
      + "client SINIT detected LTSX fused processor orServer SINIT detected non- LTSX fused processor"
  {
  }

  /** The text of MTRR check code 7. */
  lemma InvalidMtrrMaskText()
    ensures MajorLineText(Describe(InvalidMtrrMask)) == MajorIndent + "invalid MTRR mask value"
  {
  }
}
