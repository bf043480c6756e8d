/**
 * The shared data model of the library: the vendor enumeration, the error
 * codes, and the fixed-layout device record every backend fills in.
 */
module GpuTypes {
  import opened Wrappers
  import opened CInt

  /** `gpu_vendor_t`. */
  datatype Vendor = Unknown | Nvidia | Amd | Intel {

    /** The enumerator's numeric value. */
    function Code(): (c: int)
      ensures 0 <= c <= 3
      ensures VendorFromCode(c) == Some(this)
    {
      match this
      case Unknown => 0
      case Nvidia => 1
      case Amd => 2
      case Intel => 3
    }
  }

  function VendorFromCode(c: int): (v: Option<Vendor>)
    ensures v.Some? <==> 0 <= c <= 3
  {
    if c == 0 then Some(Unknown)
    else if c == 1 then Some(Nvidia)
    else if c == 2 then Some(Amd)
    else if c == 3 then Some(Intel)
    else None
  }

  /** Decoding a vendor code and encoding it again gives the code back. */
  lemma VendorCodeRoundTrip(c: int)
    requires VendorFromCode(c).Some?
    ensures VendorFromCode(c).value.Code() == c
  {
  }

  /** `gpu_error_t`. */
  datatype ErrorCode = Success | NotSupported | NoGpu | AccessDenied | InvalidParam | ApiFailed {

    /** The enumerator's numeric value: 0 for success, a distinct negative number otherwise. */
    function Code(): (c: int)
      ensures -5 <= c <= 0
      ensures c == 0 <==> this == Success
      ensures ErrorFromCode(c) == Some(this)
    {
      match this
      case Success => 0
      case NotSupported => -1
      case NoGpu => -2
      case AccessDenied => -3
      case InvalidParam => -4
      case ApiFailed => -5
    }
  }

  function ErrorFromCode(c: int): (e: Option<ErrorCode>)
    ensures e.Some? <==> -5 <= c <= 0
  {
    if c == 0 then Some(Success)
    else if c == -1 then Some(NotSupported)
    else if c == -2 then Some(NoGpu)
    else if c == -3 then Some(AccessDenied)
    else if c == -4 then Some(InvalidParam)
    else if c == -5 then Some(ApiFailed)
    else None
  }

  /** Sizes of the record's character arrays; each holds at most one character fewer. */
  const NAME_SIZE: nat := 256
  const UUID_SIZE: nat := 64
  const PCI_BUS_ID_SIZE: nat := 32

  type NameText = s: string | |s| < NAME_SIZE
  type UuidText = s: string | |s| < UUID_SIZE
  type PciText = s: string | |s| < PCI_BUS_ID_SIZE

  /**
   * `gpu_info_t`. Memory is in MB as `uint64_t`, clocks in MHz as `uint32_t`;
   * the C `float` fields are reals.
   */
  datatype GpuInfo = GpuInfo(
    index: Int32,
    vendor: Vendor,
    name: NameText,
    uuid: UuidText,
    pciBusId: PciText,
    memoryTotal: UInt64,
    memoryUsed: UInt64,
    memoryFree: UInt64,
    gpuUtilization: real,
    memoryUtilization: real,
    temperature: real,
    powerUsage: real,
    coreClock: UInt32,
    memoryClock: UInt32,
    fanSpeed: real)

  /** The PCI vendor id of AMD (ATI), which every AMD backend filters on. */
  const AMD_PCI_VENDOR: int := 0x1002

  /** The three memory fields of a record, in MB. */
  datatype MemoryMb = MemoryMb(total: UInt64, used: UInt64, free: UInt64)

  /** A record after `memset(info, 0, sizeof(gpu_info_t))`. */
  const ZERO_RECORD: GpuInfo :=
    GpuInfo(0, Unknown, "", "", "", 0, 0, 0, 0.0, 0.0, 0.0, 0.0, 0, 0, 0.0)

  /** The opening of every backend's fill-in: clear the record, then set index and vendor. */
  function Cleared(index: Int32, vendor: Vendor): GpuInfo {
    ZERO_RECORD.(index := index, vendor := vendor)
  }

  /**
   * What a backend's `*_get_gpu_count(&count)` returns, with `written` the
   * value the caller's zero-initialised variable holds afterwards (0 when the
   * backend did not write it).
   */
  datatype CountReply = CountReply(err: ErrorCode, written: Int32)

  /**
   * What a backend's `*_get_gpu_info(index, info)` returns, with `record` the
   * contents of the caller's buffer afterwards (its prior contents when the
   * backend did not write it).
   */
  datatype InfoReply = InfoReply(err: ErrorCode, record: GpuInfo)
}
