/** The class codes of `enum txt_class_codes`: the cases of the outer switch
    of `decode`, and the name each case writes. */
module ClassCodes {

  datatype Option<T> = None | Some(value: T)

  /** The nine classes the decoder knows, in the order of the enum. */
  datatype ErrorClass =
    | AcmEntryBiosAcAndSinit
    | MtrrCheckBiosAcAndSinit
    | TpmAccessBiosAcAndSinit
    | LaunchControlPolicyBiosAcAndSinit
    | HeapTableDataSinit
    | PmrConfigurationSinit
    | MleHeaderCheckSinit
    | MlePageTablesCheckSinit
    | EventLogSinit

  /** The values of the enum: the class codes that have a case. */
  const KnownClassCodes: set<nat> := {0x1, 0x2, 0x4, 0x6, 0x9, 0xe, 0xf, 0x10, 0x14}

  /** The enum value of a class; it fits the 6-bit class_code field. */
  function Code(c: ErrorClass): (n: nat)
    ensures n in KnownClassCodes && n < 64
  {
    match c
    case AcmEntryBiosAcAndSinit => 0x1
    case MtrrCheckBiosAcAndSinit => 0x2
    case TpmAccessBiosAcAndSinit => 0x4
    case LaunchControlPolicyBiosAcAndSinit => 0x6
    case HeapTableDataSinit => 0x9
    case PmrConfigurationSinit => 0xe
    case MleHeaderCheckSinit => 0xf
    case MlePageTablesCheckSinit => 0x10
    case EventLogSinit => 0x14
  }

  /** The outer switch's choice of case: the class whose value is `n`, or
      None for the default arm. */
  function FromCode(n: nat): (r: Option<ErrorClass>)
    ensures r.Some? <==> n in KnownClassCodes
    ensures r.Some? ==> Code(r.value) == n
  {
    match n
    case 0x1 => Some(AcmEntryBiosAcAndSinit)
    case 0x2 => Some(MtrrCheckBiosAcAndSinit)
    case 0x4 => Some(TpmAccessBiosAcAndSinit)
    case 0x6 => Some(LaunchControlPolicyBiosAcAndSinit)
    case 0x9 => Some(HeapTableDataSinit)
    case 0xe => Some(PmrConfigurationSinit)
    case 0xf => Some(MleHeaderCheckSinit)
    case 0x10 => Some(MlePageTablesCheckSinit)
    case 0x14 => Some(EventLogSinit)
    case _ => None
  }

  /** Every class is found again from its own value. */
  lemma FromCodeOfCode(c: ErrorClass)
    ensures FromCode(Code(c)) == Some(c)
  {
  }

  /** The enumerator's name without its CLASS_CODE_ prefix: what CASE_PRINT
      writes for the class. */
  function Name(c: ErrorClass): (s: string)
    ensures |s| > 0
    ensures s != "bad class code"
  {
    match c
    case AcmEntryBiosAcAndSinit => "ACM_ENTRY_BIOS_AC_AND_SINIT"
    case MtrrCheckBiosAcAndSinit => "MTRR_CHECK_BIOS_AC_AND_SINIT"
    case TpmAccessBiosAcAndSinit => "TPM_ACCESS_BIOS_AC_AND_SINIT"
    case LaunchControlPolicyBiosAcAndSinit => "LAUNCH_CONTROL_POLICY_BIOS_AC_AND_SINIT"
    case HeapTableDataSinit => "HEAP_TABLE_DATA_SINIT"
    case PmrConfigurationSinit => "PMR_CONFIGURATION_SINIT"
    case MleHeaderCheckSinit => "MLE_HEADER_CHECK_SINIT"
    case MlePageTablesCheckSinit => "MLE_PAGE_TABLES_CHECK_SINIT"
    case EventLogSinit => "EVENT_LOG_SINIT"
  }
}
