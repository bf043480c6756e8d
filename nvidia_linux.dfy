/**
 * The NVIDIA backend on Linux. It opens the NVML shared library lazily, at
 * most once until cleanup, resolves NVML's entry points, and fills a record
 * from whatever NVML answers, falling back field by field when a query is not
 * available.
 *
 * The libraries `dlopen` can find are an input (`NvmlEnv`), and so is what
 * the loaded library answers during one call (`NvmlRuntime`).
 */
module NvidiaLinux {
  import opened Wrappers
  import opened CInt
  import opened GpuTypes
  import opened Text

  const PRIMARY_PATH := "libnvidia-ml.so"
  const FALLBACK_PATH := "libnvidia-ml.so.1"

  const INIT := "nvmlInit_v2"
  const SHUTDOWN := "nvmlShutdown"
  const GET_COUNT := "nvmlDeviceGetCount_v2"
  const GET_HANDLE := "nvmlDeviceGetHandleByIndex"
  const GET_NAME := "nvmlDeviceGetName"
  const GET_UUID := "nvmlDeviceGetUUID"
  const GET_MEMORY := "nvmlDeviceGetMemoryInfo"
  const GET_UTILIZATION := "nvmlDeviceGetUtilizationRates"
  const GET_TEMPERATURE := "nvmlDeviceGetTemperature"
  const GET_POWER := "nvmlDeviceGetPowerUsage"
  const GET_CLOCK := "nvmlDeviceGetClockInfo"
  const GET_FAN := "nvmlDeviceGetFanSpeed"
  const GET_PCI := "nvmlDeviceGetPciInfo"

  /** Every entry point the loader looks up with `dlsym`. */
  const NVML_FUNCTIONS: set<string> := {INIT, SHUTDOWN, GET_COUNT, GET_HANDLE, GET_NAME, GET_UUID,
    GET_MEMORY, GET_UTILIZATION, GET_TEMPERATURE, GET_POWER, GET_CLOCK, GET_FAN, GET_PCI}

  /** The entry points without which the library is not used. */
  const ESSENTIAL: set<string> := {INIT, GET_COUNT, GET_HANDLE}

  /** A shared library `dlopen` can open: the symbols it exports and whether `nvmlInit_v2` returns 0. */
  datatype NvmlLibrary = NvmlLibrary(exports: set<string>, initOk: bool)

  /** The libraries on the search path, by the name `dlopen` is given. */
  datatype NvmlEnv = NvmlEnv(libraries: map<string, NvmlLibrary>)

  /** `nvmlMemory_t`, in bytes. */
  datatype NvmlMemory = NvmlMemory(total: UInt64, free: UInt64, used: UInt64)

  /** `nvmlUtilization_t`, in percent. */
  datatype NvmlUtilization = NvmlUtilization(gpu: UInt32, memory: UInt32)

  /** What NVML answers about one device handle; a query that returns non-zero is None. */
  datatype NvmlDevice = NvmlDevice(
    name: Option<string>,
    uuid: Option<string>,
    busId: Option<string>,
    memory: Option<NvmlMemory>,
    utilization: Option<NvmlUtilization>,
    temperature: Option<UInt32>,
    powerMilliwatts: Option<UInt32>,
    /** `nvmlDeviceGetClockInfo` for clock type 0, NVML's graphics clock. */
    graphicsClock: Option<UInt32>,
    /**
     * `nvmlDeviceGetClockInfo` for clock type 1, which the record stores as
     * its memory clock; NVML numbers its memory clock 2 and its SM clock 1.
     */
    memoryClock: Option<UInt32>,
    fanSpeed: Option<UInt32>)

  /**
   * The loaded library during one call: what `nvmlDeviceGetCount_v2` reports,
   * and the devices `nvmlDeviceGetHandleByIndex` finds, by unsigned index.
   */
  datatype NvmlRuntime = NvmlRuntime(deviceCount: Option<UInt32>, devices: map<UInt32, NvmlDevice>)

  /** The library `dlopen` returns: the primary name if it opens, else the fallback name. */
  function OpenedPath(env: NvmlEnv): (p: Option<string>)
    ensures p.Some? ==> p.value in env.libraries
    ensures p.None? <==> PRIMARY_PATH !in env.libraries && FALLBACK_PATH !in env.libraries
    ensures PRIMARY_PATH in env.libraries ==> p == Some(PRIMARY_PATH)
  {
    if PRIMARY_PATH in env.libraries then Some(PRIMARY_PATH)
    else if FALLBACK_PATH in env.libraries then Some(FALLBACK_PATH)
    else None
  }

  /** The function pointers that come out non-NULL from `dlsym` on `lib`. */
  function Resolved(lib: NvmlLibrary): (syms: set<string>)
    ensures syms <= NVML_FUNCTIONS
    ensures forall f :: f in NVML_FUNCTIONS ==> (f in syms <==> f in lib.exports)
  {
    lib.exports * NVML_FUNCTIONS
  }

  /** Loading from scratch succeeds: a library opens, exports the essential entry points, and initialises. */
  predicate LoadsFrom(env: NvmlEnv) {
    && OpenedPath(env).Some?
    && ESSENTIAL <= env.libraries[OpenedPath(env).value].exports
    && env.libraries[OpenedPath(env).value].initOk
  }

  /**
   * Once the primary name opens, the fallback name is never tried, even when
   * the primary library turns out to be unusable.
   */
  lemma PrimaryDecides(env: NvmlEnv, other: NvmlLibrary)
    requires PRIMARY_PATH in env.libraries
    ensures LoadsFrom(env) == LoadsFrom(NvmlEnv(env.libraries[FALLBACK_PATH := other]))
  {
    var env' := NvmlEnv(env.libraries[FALLBACK_PATH := other]);
    assert OpenedPath(env') == Some(PRIMARY_PATH);
    assert env'.libraries[PRIMARY_PATH] == env.libraries[PRIMARY_PATH];
  }

  /**
   * The memory fields: each NVML byte count in whole MB when the query is
   * available, else an 8 GB card with nothing used.
   */
  function NvmlMemoryMb(syms: set<string>, m: Option<NvmlMemory>): (r: MemoryMb)
    ensures GET_MEMORY in syms && m.Some? ==>
      && r.total * MIB <= m.value.total < (r.total + 1) * MIB
      && r.used * MIB <= m.value.used < (r.used + 1) * MIB
      && r.free * MIB <= m.value.free < (r.free + 1) * MIB
    ensures GET_MEMORY !in syms || m.None? ==> r == MemoryMb(8192, 0, 8192)
  {
    if GET_MEMORY in syms && m.Some? then
      MemoryMb(m.value.total / MIB, m.value.used / MIB, m.value.free / MIB)
    else MemoryMb(8 * 1024, 0, 8 * 1024)
  }

  /**
   * When NVML's byte counts add up, the MB values lose at most 1 MB to
   * rounding down: used + free is total or total - 1.
   */
  lemma NvmlMemoryRounding(syms: set<string>, m: NvmlMemory)
    requires m.used + m.free == m.total
    ensures var r := NvmlMemoryMb(syms, Some(m));
      r.total - 1 <= r.used + r.free <= r.total
  {
    var r := NvmlMemoryMb(syms, Some(m));
    if GET_MEMORY in syms {
      assert r.used * MIB + r.free * MIB <= m.total;
      assert (r.used + r.free) * MIB <= m.total;
      assert m.total < (r.used + r.free + 2) * MIB;
    }
  }

  /** The name: NVML's when the query is available, else "NVIDIA GPU". */
  function NvmlName(syms: set<string>, d: NvmlDevice): (s: NameText)
    ensures GET_NAME !in syms || d.name.None? ==> s == "NVIDIA GPU"
    ensures GET_NAME in syms && d.name.Some? && |d.name.value| < NAME_SIZE ==> s == d.name.value
  {
    if GET_NAME in syms && d.name.Some? then Bounded(d.name.value, NAME_SIZE) else "NVIDIA GPU"
  }

  /** The UUID: NVML's when the query is available, else "NVIDIA-<index>". */
  function NvmlUuid(index: Int32, syms: set<string>, d: NvmlDevice): (s: UuidText)
    ensures GET_UUID !in syms || d.uuid.None? ==> s == "NVIDIA-" + IntToDecimal(index)
    ensures GET_UUID in syms && d.uuid.Some? && |d.uuid.value| < UUID_SIZE ==> s == d.uuid.value
  {
    if GET_UUID in syms && d.uuid.Some? then Bounded(d.uuid.value, UUID_SIZE)
    else Labelled("NVIDIA-", index, UUID_SIZE)
  }

  /** The PCI bus id: NVML's when the query is available, else "PCI:<index>". */
  function NvmlPciBusId(index: Int32, syms: set<string>, d: NvmlDevice): (s: PciText)
    ensures GET_PCI !in syms || d.busId.None? ==> s == "PCI:" + IntToDecimal(index)
    ensures GET_PCI in syms && d.busId.Some? && |d.busId.value| < PCI_BUS_ID_SIZE ==> s == d.busId.value
  {
    if GET_PCI in syms && d.busId.Some? then Bounded(d.busId.value, PCI_BUS_ID_SIZE)
    else Labelled("PCI:", index, PCI_BUS_ID_SIZE)
  }

  /**
   * `nvidia_linux_get_gpu_info` filling the record of device `d` at `index`,
   * with `syms` the entry points that resolved. Each field comes from its
   * query when the entry point exists and the query succeeds, else from its
   * fallback.
   */
  function NvmlRecord(index: Int32, syms: set<string>, d: NvmlDevice): (r: GpuInfo)
    ensures r.index == index && r.vendor == Nvidia
    ensures r.name == NvmlName(syms, d) && r.uuid == NvmlUuid(index, syms, d)
    ensures r.pciBusId == NvmlPciBusId(index, syms, d)
    ensures MemoryMb(r.memoryTotal, r.memoryUsed, r.memoryFree) == NvmlMemoryMb(syms, d.memory)
    ensures GET_UTILIZATION in syms && d.utilization.Some? ==>
      r.gpuUtilization == d.utilization.value.gpu as real && r.memoryUtilization == d.utilization.value.memory as real
    ensures GET_UTILIZATION !in syms || d.utilization.None? ==> r.gpuUtilization == 0.0 && r.memoryUtilization == 0.0
    ensures GET_TEMPERATURE in syms && d.temperature.Some? ==> r.temperature == d.temperature.value as real
    ensures GET_TEMPERATURE !in syms || d.temperature.None? ==> r.temperature == 0.0
    ensures GET_POWER in syms && d.powerMilliwatts.Some? ==> r.powerUsage * 1000.0 == d.powerMilliwatts.value as real
    ensures GET_POWER !in syms || d.powerMilliwatts.None? ==> r.powerUsage == 0.0
    ensures GET_CLOCK in syms && d.graphicsClock.Some? ==> r.coreClock == d.graphicsClock.value
    ensures GET_CLOCK !in syms || d.graphicsClock.None? ==> r.coreClock == 0
    ensures GET_CLOCK in syms && d.memoryClock.Some? ==> r.memoryClock == d.memoryClock.value
    ensures GET_CLOCK !in syms || d.memoryClock.None? ==> r.memoryClock == 0
    ensures GET_FAN in syms && d.fanSpeed.Some? ==> r.fanSpeed == d.fanSpeed.value as real
    ensures GET_FAN !in syms || d.fanSpeed.None? ==> r.fanSpeed == 0.0
  {
    var util := Queried(GET_UTILIZATION in syms, d.utilization, NvmlUtilization(0, 0));
    var mem := NvmlMemoryMb(syms, d.memory);
    Cleared(index, Nvidia).(
      name := NvmlName(syms, d),
      uuid := NvmlUuid(index, syms, d),
      pciBusId := NvmlPciBusId(index, syms, d),
      memoryTotal := mem.total,
      memoryUsed := mem.used,
      memoryFree := mem.free,
      gpuUtilization := util.gpu as real,
      memoryUtilization := util.memory as real,
      temperature := Queried(GET_TEMPERATURE in syms, d.temperature, 0) as real,
      powerUsage := Queried(GET_POWER in syms, d.powerMilliwatts, 0) as real / 1000.0,
      coreClock := Queried(GET_CLOCK in syms, d.graphicsClock, 0),
      memoryClock := Queried(GET_CLOCK in syms, d.memoryClock, 0),
      fanSpeed := Queried(GET_FAN in syms, d.fanSpeed, 0) as real)
  }

  /** A query's answer when its entry point resolved and the query succeeded, else `fallback`. */
  function Queried<T>(resolved: bool, answer: Option<T>, fallback: T): (v: T)
    ensures resolved && answer.Some? ==> v == answer.value
    ensures !resolved || answer.None? ==> v == fallback
  {
    if resolved && answer.Some? then answer.value else fallback
  }

  /** The file's static state: the `dlopen` handle, the initialised flag and the function pointer table. */
  class NvmlLoader {
    /** The name the open library was loaded under; None for a NULL handle. */
    var library: Option<string>
    var initialized: bool
    /** The entry points whose pointers are non-NULL. */
    var symbols: set<string>

    /** The library is open exactly while NVML is initialised, and then its essential entry points are there. */
    predicate Valid()
      reads this
    {
      && (initialized <==> library.Some?)
      && (initialized ==> ESSENTIAL <= symbols)
    }

    /** The state at program start: nothing open, every pointer NULL. */
    constructor ()
      ensures Valid() && !initialized && symbols == {}
    {
      library := None;
      initialized := false;
      symbols := {};
    }

    /**
     * The effect of one `load_nvml_linux` call: nothing once initialised;
     * otherwise the pointers of whichever library opened are resolved, and
     * the handle is kept only when loading succeeds.
     */
    twostate predicate LoadAttempted(env: NvmlEnv)
      reads this
    {
      if old(initialized) then
        unchanged(this)
      else
        && initialized == LoadsFrom(env)
        && library == (if LoadsFrom(env) then OpenedPath(env) else None)
        && symbols == (if OpenedPath(env).Some? then Resolved(env.libraries[OpenedPath(env).value]) else old(symbols))
    }

    /** `load_nvml_linux`. */
    method Load(env: NvmlEnv) returns (err: ErrorCode)
      requires Valid()
      modifies this
      ensures Valid() && LoadAttempted(env)
      ensures err == Success <==> initialized
      ensures err != Success ==> err == NotSupported
    {
      if initialized {
        return Success;
      }
      library := if PRIMARY_PATH in env.libraries then Some(PRIMARY_PATH) else None;
      if library.None? {
        library := if FALLBACK_PATH in env.libraries then Some(FALLBACK_PATH) else None;
      }
      if library.None? {
        return NotSupported;
      }
      var lib := env.libraries[library.value];
      symbols := Resolved(lib);
      if !(INIT in symbols && GET_COUNT in symbols && GET_HANDLE in symbols) {
        library := None;
        return NotSupported;
      }
      if !lib.initOk {
        library := None;
        return NotSupported;
      }
      initialized := true;
      err := Success;
    }

    /**
     * `nvidia_linux_get_gpu_count`: a library that does not load means no
     * NVIDIA GPU, reported as a successful count of 0; a failing count query
     * is an API failure.
     */
    method Count(env: NvmlEnv, rt: NvmlRuntime) returns (r: CountReply)
      requires Valid()
      modifies this
      ensures Valid() && LoadAttempted(env)
      ensures !initialized ==> r == CountReply(Success, 0)
      ensures initialized && rt.deviceCount.None? ==> r == CountReply(ApiFailed, 0)
      ensures initialized && rt.deviceCount.Some? ==> r == CountReply(Success, ToI32(rt.deviceCount.value))
    {
      var err := Load(env);
      if err != Success {
        return CountReply(Success, 0);
      }
      if rt.deviceCount.None? {
        return CountReply(ApiFailed, 0);
      }
      r := CountReply(Success, ToI32(rt.deviceCount.value));
    }

    /**
     * `nvidia_linux_get_gpu_info`: the record is left as it was when the
     * library does not load or the handle lookup fails; otherwise it is
     * cleared and filled.
     */
    method Info(env: NvmlEnv, rt: NvmlRuntime, index: Int32, buf: GpuInfo) returns (r: InfoReply)
      requires Valid()
      modifies this
      ensures Valid() && LoadAttempted(env)
      ensures !initialized ==> r == InfoReply(NotSupported, buf)
      ensures initialized && ToU32(index) !in rt.devices ==> r == InfoReply(ApiFailed, buf)
      ensures initialized && ToU32(index) in rt.devices ==>
        r == InfoReply(Success, NvmlRecord(index, symbols, rt.devices[ToU32(index)]))
    {
      var err := Load(env);
      if err != Success {
        return InfoReply(err, buf);
      }
      var handle := ToU32(index);
      if handle !in rt.devices {
        return InfoReply(ApiFailed, buf);
      }
      r := InfoReply(Success, NvmlRecord(index, symbols, rt.devices[handle]));
    }

    /**
     * `nvidia_linux_cleanup`: shuts NVML down if it was initialised and the
     * entry point exists, closes the library and clears the flag. The
     * function pointers keep their values.
     */
    method Cleanup() returns (shutdownCalled: bool)
      modifies this
      ensures shutdownCalled <==> old(initialized) && SHUTDOWN in old(symbols)
      ensures Valid() && !initialized && library.None? && symbols == old(symbols)
    {
      shutdownCalled := initialized && SHUTDOWN in symbols;
      if library.Some? {
        library := None;
      }
      initialized := false;
    }
  }
}
