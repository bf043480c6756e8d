/**
 * The AMD backend on Windows. It picks one detection strategy the first time
 * it is asked, ADLX if the ADLX runtime loads and reports GPUs, else DXGI if
 * DXGI enumerates at least one AMD adapter, else a fixed placeholder, and
 * keeps that choice until cleanup.
 *
 * What the ADLX and DXGI runtimes answer during one call is an input
 * (`AdlxRuntime`, `DxgiRuntime`); the static variables of the C file are the
 * fields of `AmdWindowsBackend`.
 */
module AmdWindows {
  import opened Wrappers
  import opened CInt
  import opened GpuTypes
  import opened Seqs
  import opened Text

  /** `detect_method_t`. */
  datatype DetectMethod = NotSelected | Adlx | Dxgi | Placeholder

  // ---------------------------------------------------------------------
  // What the ADLX runtime answers
  // ---------------------------------------------------------------------

  /** The readings of `GetCurrentGPUMetrics`; each is absent when its getter fails. */
  datatype AdlxMetrics = AdlxMetrics(
    gpuUsage: Option<real>,
    temperature: Option<real>,
    power: Option<real>,
    clock: Option<Int32>,
    vramClock: Option<Int32>,
    fanSpeed: Option<Int32>,
    vram: Option<Int32>)

  /**
   * One GPU of the ADLX list: its name, whether `VendorId` succeeded and the
   * id strings the getters returned, and its metrics when the performance
   * services, the metrics support and the current metrics were all obtained.
   */
  datatype AdlxGpu = AdlxGpu(
    name: Option<string>,
    vendorIdOk: bool,
    vendorId: Option<string>,
    deviceId: Option<string>,
    subSystemId: Option<string>,
    revisionId: Option<string>,
    metrics: Option<AdlxMetrics>)

  /** The GPU list: `Size()` is an `adlx_uint`, and `At_GPUList` may fail for an entry. */
  type AdlxList = s: seq<Option<AdlxGpu>> | |s| < TWO_32

  /**
   * The ADLX runtime during one call: whether the helper initialises, whether
   * it hands out the system services, and the GPU list `GetGPUs` returns.
   */
  datatype AdlxRuntime = AdlxRuntime(helperOk: bool, systemOk: bool, gpus: Option<AdlxList>)

  /** `load_adlx` from scratch succeeds exactly when every step does and the list is not empty. */
  predicate Loads(rt: AdlxRuntime) {
    rt.helperOk && rt.systemOk && rt.gpus.Some? && |rt.gpus.value| > 0
  }

  /** `At_GPUList(list, index)`: the GPU, or None when the call fails. */
  function GpuAt(rt: AdlxRuntime, index: nat): Option<AdlxGpu> {
    if rt.gpus.Some? && index < |rt.gpus.value| then rt.gpus.value[index] else None
  }

  // ---------------------------------------------------------------------
  // What DXGI answers, and the adapter filter
  // ---------------------------------------------------------------------

  /** `DXGI_ADAPTER_DESC`. */
  datatype AdapterDesc = AdapterDesc(
    description: string,
    vendorId: UInt32,
    deviceId: UInt32,
    subSysId: UInt32,
    revision: UInt32,
    dedicatedVideoMemory: UInt64,
    dedicatedSystemMemory: UInt64,
    sharedSystemMemory: UInt64)

  /** `EnumAdapters` in order; an entry is None when `GetDesc` fails for it. */
  type AdapterList = s: seq<Option<AdapterDesc>> | |s| < TWO_31

  /** DXGI during one call: the factory, the adapters, and whether the `malloc` succeeds. */
  datatype DxgiRuntime = DxgiRuntime(factoryOk: bool, adapters: AdapterList, allocOk: bool)

  /** `dxgi_adapter_info_t`: an adapter's description and the position it was enumerated at. */
  datatype AdapterInfo = AdapterInfo(
    description: string,
    vendorId: UInt32,
    deviceId: UInt32,
    subSysId: UInt32,
    revision: UInt32,
    dedicatedVideoMemory: UInt64,
    dedicatedSystemMemory: UInt64,
    sharedSystemMemory: UInt64,
    index: UInt32)

  const DESCRIPTION_SIZE: nat := 128

  const NO_ADAPTER := AdapterInfo("", 0, 0, 0, 0, 0, 0, 0, 0)

  /** The test both passes apply: `GetDesc` succeeded and the vendor id is AMD's. */
  predicate IsAmdAdapter(d: Option<AdapterDesc>) {
    d.Some? && d.value.vendorId == AMD_PCI_VENDOR
  }

  /** What the second pass stores for the adapter enumerated at position `i`. */
  function Recorded(d: AdapterDesc, i: UInt32): AdapterInfo {
    AdapterInfo(Bounded(d.description, DESCRIPTION_SIZE), d.vendorId, d.deviceId, d.subSysId,
      d.revision, d.dedicatedVideoMemory, d.dedicatedSystemMemory, d.sharedSystemMemory, i)
  }

  /**
   * The AMD adapters in enumeration order. There are as many as the first
   * pass counts; each is AMD, records the position it came from, and the
   * positions increase.
   */
  function AmdAdapters(s: AdapterList): (r: seq<AdapterInfo>)
    ensures |r| == |Filter(IsAmdAdapter, s)|
    ensures forall k :: 0 <= k < |r| ==>
      && r[k].index < |s|
      && IsAmdAdapter(s[r[k].index])
      && r[k] == Recorded(s[r[k].index].value, r[k].index)
    ensures forall j, k :: 0 <= j < k < |r| ==> r[j].index < r[k].index
  {
    if s == [] then []
    else
      var i := |s| - 1;
      AmdAdapters(s[..i]) + (if IsAmdAdapter(s[i]) then [Recorded(s[i].value, i)] else [])
  }

  /** The outcome of `get_dxgi_adapters`: the code and the adapter array it hands back. */
  function DxgiAdapters(rt: DxgiRuntime): (r: (ErrorCode, seq<AdapterInfo>))
    ensures r.0 == Success <==> rt.factoryOk && |Filter(IsAmdAdapter, rt.adapters)| > 0 && rt.allocOk
    ensures r.0 == Success ==> r.1 == AmdAdapters(rt.adapters) && |r.1| > 0
    ensures r.0 != Success ==> r.1 == [] && (r.0 == ApiFailed <==> rt.factoryOk && |Filter(IsAmdAdapter, rt.adapters)| > 0)
    ensures r.0 != Success ==> r.0 == NotSupported || r.0 == ApiFailed
  {
    if !rt.factoryOk then (NotSupported, [])
    else if |Filter(IsAmdAdapter, rt.adapters)| == 0 then (NotSupported, [])
    else if !rt.allocOk then (ApiFailed, [])
    else (Success, AmdAdapters(rt.adapters))
  }

  /** Scanning one more adapter appends it to the AMD adapters exactly when it is AMD. */
  lemma AmdAdaptersStep(s: AdapterList, i: nat)
    requires i < |s|
    ensures AmdAdapters(s[..i + 1])
      == AmdAdapters(s[..i]) + (if IsAmdAdapter(s[i]) then [Recorded(s[i].value, i)] else [])
  {
    assert s[..i + 1][..i] == s[..i];
  }

  /** The first pass of `get_dxgi_adapters`: count the AMD adapters. */
  method CountAmdAdapters(s: AdapterList) returns (adapterCount: nat)
    ensures adapterCount == |Filter(IsAmdAdapter, s)|
  {
    adapterCount := 0;
    var i := 0;
    while i < |s|
      invariant 0 <= i <= |s|
      invariant adapterCount == |Filter(IsAmdAdapter, s[..i])|
    {
      FilterStep(IsAmdAdapter, s, i);
      if IsAmdAdapter(s[i]) {
        adapterCount := adapterCount + 1;
      }
      i := i + 1;
    }
    assert s[..i] == s;
  }

  /** The second pass: copy the AMD adapters, with their positions, into an array sized by the first. */
  method CopyAmdAdapters(s: AdapterList, list: array<AdapterInfo>)
    requires list.Length == |Filter(IsAmdAdapter, s)|
    modifies list
    ensures list[..] == AmdAdapters(s)
  {
    var amdCount := 0;
    var i := 0;
    while i < |s|
      invariant 0 <= i <= |s|
      invariant amdCount == |AmdAdapters(s[..i])| <= list.Length
      invariant list[..amdCount] == AmdAdapters(s[..i])
    {
      AmdAdaptersStep(s, i);
      FilterPrefix(IsAmdAdapter, s, i + 1);
      if IsAmdAdapter(s[i]) {
        list[amdCount] := Recorded(s[i].value, i);
        amdCount := amdCount + 1;
      }
      i := i + 1;
    }
    assert s[..i] == s;
    assert list[..] == list[..amdCount];
  }

  /** `get_dxgi_adapters`: count the AMD adapters, allocate, then copy them. */
  method GetDxgiAdapters(rt: DxgiRuntime) returns (err: ErrorCode, adapters: seq<AdapterInfo>)
    ensures (err, adapters) == DxgiAdapters(rt)
  {
    if !rt.factoryOk {
      return NotSupported, [];
    }
    var adapterCount := CountAmdAdapters(rt.adapters);
    if adapterCount == 0 {
      return NotSupported, [];
    }
    if !rt.allocOk {
      return ApiFailed, [];
    }
    var list := new AdapterInfo[adapterCount](_ => NO_ADAPTER);
    CopyAmdAdapters(rt.adapters, list);
    return Success, list[..];
  }

  // ---------------------------------------------------------------------
  // Records
  // ---------------------------------------------------------------------

  /** `sscanf(s, "%x", &v)` into a zero-initialised `v`, skipped when `s` is NULL. */
  function HexField(s: Option<string>): (v: UInt32)
    ensures s.None? ==> v == 0
  {
    match s
    case None => 0
    case Some(t) =>
      match ScanHex(t)
      case None => 0
      case Some(d) => d.value
  }

  /** The UUID of an ADLX GPU: its four PCI ids in `%04X`, or a fixed text when `VendorId` fails. */
  function AdlxUuid(g: AdlxGpu): (u: UuidText)
    ensures !g.vendorIdOk ==> u == "AMD-ADLX-Unknown"
    ensures g.vendorIdOk ==> "AMD-" <= u
  {
    if g.vendorIdOk then
      var ids := Hex4(HexField(g.vendorId)) + "-" + Hex4(HexField(g.deviceId)) + "-"
        + Hex4(HexField(g.subSystemId)) + "-" + Hex4(HexField(g.revisionId));
      BoundedKeepsPrefix("AMD-", ids, UUID_SIZE);
      Bounded("AMD-" + ids, UUID_SIZE)
    else "AMD-ADLX-Unknown"
  }

  /**
   * The memory fields of an ADLX record. `used` is the VRAM reading in MB
   * (an `adlx_int` divided in C and stored in a `uint64_t`); a zero `used`
   * means an 8 GB card at a quarter use, otherwise the total is four times
   * the use. The fields add up modulo 2^64 in every case, and exactly when the
   * reading is not negative.
   */
  function AdlxMemory(vram: Option<Int32>): (m: MemoryMb)
    ensures (m.used + m.free - m.total) % TWO_64 == 0
    ensures vram.None? || TruncDiv(vram.value, MIB) == 0 ==> m == MemoryMb(8192, 2048, 6144)
    ensures vram.Some? && vram.value >= MIB ==>
      && m.used == vram.value / MIB
      && m.total == 4 * m.used
      && m.used + m.free == m.total
  {
    var used := if vram.Some? then ToU64(TruncDiv(vram.value, MIB)) else 0;
    if used == 0 then
      var total := 8 * 1024;
      MemoryMb(total, total / 4, total - total / 4)
    else
      var total := ToU64(used * 4);
      MemoryMb(total, used, ToU64(total - used))
  }

  /** The memory utilisation of an ADLX record: used over total in percent, 25 without a total. */
  function AdlxUtilization(m: MemoryMb): real {
    if m.total > 0 then (m.used as real / m.total as real) * 100.0 else 25.0
  }

  /** The readings a GPU without metrics leaves at their defaults: every getter counts as failed. */
  const NO_METRICS := AdlxMetrics(None, None, None, None, None, None, None)

  /** The metrics the record is filled from: the GPU's, or none at all. */
  function MetricsOf(g: AdlxGpu): (m: AdlxMetrics)
    ensures g.metrics.Some? ==> m == g.metrics.value
    ensures g.metrics.None? ==> m == NO_METRICS
  {
    if g.metrics.Some? then g.metrics.value else NO_METRICS
  }

  /**
   * `detect_amd_gpus_adlx` filling the record of GPU `index` from what ADLX
   * reports: each telemetry field is its getter's reading when that getter
   * succeeded and stays 0 otherwise; the clocks, `adlx_int` in ADLX, are
   * stored in `uint32_t` fields.
   */
  function AdlxRecord(index: Int32, g: AdlxGpu): (r: GpuInfo)
    ensures r.index == index && r.vendor == Amd
    ensures g.name.None? ==> r.name == "AMD GPU"
    ensures g.name.Some? ==> r.name == Bounded(g.name.value, NAME_SIZE)
    ensures g.name.Some? && |g.name.value| < NAME_SIZE ==> r.name == g.name.value
    ensures r.uuid == AdlxUuid(g)
    ensures r.pciBusId == Bounded("PCI:" + IntToDecimal(index), PCI_BUS_ID_SIZE)
    ensures MemoryMb(r.memoryTotal, r.memoryUsed, r.memoryFree)
      == AdlxMemory(if g.metrics.Some? then g.metrics.value.vram else None)
    ensures r.memoryUtilization == AdlxUtilization(MemoryMb(r.memoryTotal, r.memoryUsed, r.memoryFree))
    ensures var m := MetricsOf(g);
      && r.gpuUtilization == m.gpuUsage.GetOr(0.0)
      && r.temperature == m.temperature.GetOr(0.0)
      && r.powerUsage == m.power.GetOr(0.0)
      && r.coreClock == ToU32(m.clock.GetOr(0))
      && r.memoryClock == ToU32(m.vramClock.GetOr(0))
      && r.fanSpeed == m.fanSpeed.GetOr(0) as real
    ensures g.metrics.None? ==>
      && r.gpuUtilization == 0.0 && r.temperature == 0.0 && r.powerUsage == 0.0
      && r.coreClock == 0 && r.memoryClock == 0 && r.fanSpeed == 0.0
  {
    var m := MetricsOf(g);
    var mem := AdlxMemory(m.vram);
    Cleared(index, Amd).(
      name := if g.name.Some? then Bounded(g.name.value, NAME_SIZE) else "AMD GPU",
      uuid := AdlxUuid(g),
      pciBusId := Bounded("PCI:" + IntToDecimal(index), PCI_BUS_ID_SIZE),
      gpuUtilization := m.gpuUsage.GetOr(0.0),
      temperature := m.temperature.GetOr(0.0),
      powerUsage := m.power.GetOr(0.0),
      coreClock := ToU32(m.clock.GetOr(0)),
      memoryClock := ToU32(m.vramClock.GetOr(0)),
      fanSpeed := m.fanSpeed.GetOr(0) as real,
      memoryTotal := mem.total,
      memoryUsed := mem.used,
      memoryFree := mem.free,
      memoryUtilization := AdlxUtilization(mem))
  }

  /** With a non-negative VRAM reading, the derived memory utilisation is always 25 %. */
  lemma AdlxUtilizationQuarter(index: Int32, g: AdlxGpu)
    requires g.metrics.None? || g.metrics.value.vram.None? || g.metrics.value.vram.value >= 0
    ensures AdlxRecord(index, g).memoryUtilization == 25.0
  {
    var vram := if g.metrics.Some? then g.metrics.value.vram else None;
    AdlxMemoryQuarter(vram);
  }

  /** The memory an ADLX record derives from a non-negative (or missing) reading is a quarter used. */
  lemma AdlxMemoryQuarter(vram: Option<Int32>)
    requires vram.None? || vram.value >= 0
    ensures AdlxUtilization(AdlxMemory(vram)) == 25.0
  {
    var m := AdlxMemory(vram);
    if vram.Some? && vram.value >= MIB {
      assert m.total as real == 4.0 * (m.used as real);
      QuarterRatio(m.used as real);
    } else {
      if vram.Some? {
        BelowOneMib(vram.value);
      }
      assert m == MemoryMb(8192, 2048, 6144);
      QuarterRatio(2048.0);
    }
  }

  lemma BelowOneMib(v: int)
    requires 0 <= v < MIB
    ensures TruncDiv(v, MIB) == 0
  {
    assert MIB == 1048576;
  }

  lemma QuarterRatio(u: real)
    requires u > 0.0
    ensures (u / (4.0 * u)) * 100.0 == 25.0
  {
    assert u / (4.0 * u) == 0.25 by {
      assert 0.25 * (4.0 * u) == u;
    }
  }

  /**
   * `detect_amd_gpus_dxgi` filling the record of adapter `a`: memory is the
   * dedicated video memory in MB (through an `int32_t` cast), a quarter of it
   * used; no telemetry.
   */
  function DxgiRecord(index: Int32, a: AdapterInfo): (r: GpuInfo)
    requires index >= 0
    ensures r.index == index && r.vendor == Amd
    ensures r.name == Bounded(a.description, NAME_SIZE)
    ensures r.memoryUsed == r.memoryTotal / 4 && r.memoryUsed + r.memoryFree == r.memoryTotal
    ensures a.dedicatedVideoMemory / MIB < TWO_31 ==> r.memoryTotal == a.dedicatedVideoMemory / MIB
    ensures r.uuid == Bounded("AMD-DXGI-" + IntToDecimal(index), UUID_SIZE)
    ensures r.pciBusId == Bounded("PCI:" + IntToDecimal(a.index), PCI_BUS_ID_SIZE)
    ensures r.memoryUtilization == 25.0
    ensures r.gpuUtilization == 0.0 && r.temperature == 0.0 && r.powerUsage == 0.0 && r.fanSpeed == 0.0
    ensures r.coreClock == 0 && r.memoryClock == 0
  {
    var mem := DxgiMemory(a.dedicatedVideoMemory);
    Cleared(index, Amd).(
      name := Bounded(a.description, NAME_SIZE),
      uuid := Bounded("AMD-DXGI-" + IntToDecimal(ToU32(index)), UUID_SIZE),
      pciBusId := Bounded("PCI:" + IntToDecimal(a.index), PCI_BUS_ID_SIZE),
      memoryTotal := mem.total,
      memoryUsed := mem.used,
      memoryFree := mem.free,
      memoryUtilization := 25.0)
  }

  /** The dedicated memory in MB, through the `int32_t` cast, a quarter of it counted as used. */
  function DxgiMemory(bytes: nat): (m: MemoryMb)
    ensures m.used == m.total / 4 && m.used + m.free == m.total
    ensures bytes / MIB < TWO_31 ==> m.total == bytes / MIB
  {
    var total := ToU64(ToI32(bytes / MIB));
    MemoryMb(total, total / 4, total - total / 4)
  }

  /** `get_placeholder_info`: index 0 gets the fixed record, any other index is rejected. */
  function PlaceholderInfo(index: Int32, buf: GpuInfo): (r: InfoReply)
    ensures r.err == Success <==> index == 0
    ensures index != 0 ==> r == InfoReply(InvalidParam, buf)
    ensures index == 0 ==> r.record == PlaceholderRecord()
    ensures index == 0 ==>
      && r.record.index == 0 && r.record.vendor == Amd
      && r.record.name == "AMD Graphics (Placeholder)" && r.record.uuid == "AMD-Windows-Placeholder"
      && r.record.pciBusId == "PCI:0"
      && r.record.memoryUsed + r.record.memoryFree == r.record.memoryTotal == 8192
  {
    if index != 0 then InfoReply(InvalidParam, buf) else InfoReply(Success, PlaceholderRecord())
  }

  const PLACEHOLDER_NAME: NameText := "AMD Graphics (Placeholder)"
  const PLACEHOLDER_UUID: UuidText := "AMD-Windows-Placeholder"
  /** `"PCI:%d"` of the only index the placeholder answers, 0. */
  const PLACEHOLDER_PCI: PciText := "PCI:0"

  /** The fixed record the placeholder strategy reports for GPU 0. */
  function PlaceholderRecord(): (r: GpuInfo)
    ensures r.index == 0 && r.vendor == Amd
    ensures r.name == "AMD Graphics (Placeholder)" && r.uuid == "AMD-Windows-Placeholder"
    ensures r.pciBusId == "PCI:0"
    ensures r.memoryTotal == 8192 && r.memoryUsed == 2048 && r.memoryFree == 6144
    ensures r.memoryUsed + r.memoryFree == r.memoryTotal
    ensures r.memoryUtilization == r.memoryUsed as real / r.memoryTotal as real * 100.0 == 25.0
    ensures r.gpuUtilization == 15.0 && r.temperature == 65.0 && r.powerUsage == 120.0 && r.fanSpeed == 45.0
    ensures r.coreClock == 1800 && r.memoryClock == 2000
  {
    Cleared(0, Amd).(
      name := PLACEHOLDER_NAME,
      uuid := PLACEHOLDER_UUID,
      pciBusId := PLACEHOLDER_PCI,
      memoryTotal := 8 * 1024,
      memoryUsed := 2 * 1024,
      memoryFree := 6 * 1024,
      memoryUtilization := 25.0,
      gpuUtilization := 15.0,
      temperature := 65.0,
      powerUsage := 120.0,
      coreClock := 1800,
      memoryClock := 2000,
      fanSpeed := 45.0)
  }

  // ---------------------------------------------------------------------
  // The strategies as the exported entry points run them
  // ---------------------------------------------------------------------

  /** The strategy `select_detection_method` picks, in priority order. */
  function Selected(rt: AdlxRuntime, dx: DxgiRuntime): (m: DetectMethod)
    ensures m != NotSelected
    ensures m == Adlx <==> Loads(rt)
    ensures m == Dxgi <==> !Loads(rt) && DxgiAdapters(dx).0 == Success
  {
    if Loads(rt) then Adlx
    else if DxgiAdapters(dx).0 == Success && |DxgiAdapters(dx).1| > 0 then Dxgi
    else Placeholder
  }

  /** What the count entry point answers under strategy `m`, with ADLX holding `adlxCount` GPUs. */
  function CountSpec(m: DetectMethod, adlxCount: UInt32, dx: DxgiRuntime): (r: CountReply)
    ensures m == Adlx ==> r == CountReply(Success, ToI32(adlxCount))
    ensures m == Dxgi ==> (r.err == Success <==> DxgiAdapters(dx).0 == Success)
    ensures m == Dxgi && r.err == Success ==> r.written == |Filter(IsAmdAdapter, dx.adapters)| > 0
    ensures r.err != Success ==> r.written == 0
    ensures m == Placeholder || m == NotSelected ==> r == CountReply(Success, 0)
  {
    match m
    case Adlx => CountReply(Success, ToI32(adlxCount))
    case Dxgi =>
      var (err, adapters) := DxgiAdapters(dx);
      if err != Success then CountReply(err, 0) else CountReply(Success, |adapters|)
    case _ => CountReply(Success, 0)
  }

  /** What ADLX info answers for `index` with `adlxCount` GPUs loaded; `buf` is the buffer before. */
  function AdlxInfoSpec(adlxCount: UInt32, rt: AdlxRuntime, index: Int32, buf: GpuInfo): (r: InfoReply)
    ensures r.err == Success ==> 0 <= index < adlxCount && r.record.index == index && r.record.vendor == Amd
    ensures (index < 0 || index >= ToI32(adlxCount)) ==> r == InfoReply(InvalidParam, buf)
    ensures r.err != Success ==> r.record == buf
    ensures 0 <= index < ToI32(adlxCount) && GpuAt(rt, index).Some? ==>
      r == InfoReply(Success, AdlxRecord(index, GpuAt(rt, index).value))
    ensures 0 <= index < ToI32(adlxCount) && GpuAt(rt, index).None? ==> r == InfoReply(ApiFailed, buf)
  {
    if index < 0 || index >= ToI32(adlxCount) then InfoReply(InvalidParam, buf)
    else
      match GpuAt(rt, index)
      case None => InfoReply(ApiFailed, buf)
      case Some(g) => InfoReply(Success, AdlxRecord(index, g))
  }

  /** What DXGI info answers for `index`; `buf` is the buffer before. */
  function DxgiInfoSpec(dx: DxgiRuntime, index: Int32, buf: GpuInfo): (r: InfoReply)
    ensures r.err == Success ==> 0 <= index < |Filter(IsAmdAdapter, dx.adapters)|
    ensures r.err == Success ==>
      var a := AmdAdapters(dx.adapters)[index];
      && IsAmdAdapter(dx.adapters[a.index])
      && r.record == DxgiRecord(index, a)
    ensures r.err != Success ==> r.record == buf
    ensures DxgiAdapters(dx).0 == Success && (index < 0 || index >= |Filter(IsAmdAdapter, dx.adapters)|) ==>
      r == InfoReply(InvalidParam, buf)
    ensures DxgiAdapters(dx).0 == Success && 0 <= index < |Filter(IsAmdAdapter, dx.adapters)| ==> r.err == Success
    ensures DxgiAdapters(dx).0 != Success ==> r == InfoReply(DxgiAdapters(dx).0, buf)
  {
    var (err, adapters) := DxgiAdapters(dx);
    if err != Success then InfoReply(err, buf)
    else if index < 0 || index >= |adapters| then InfoReply(InvalidParam, buf)
    else InfoReply(Success, DxgiRecord(index, adapters[index]))
  }

  /** What the info entry point answers under strategy `m`. */
  function InfoSpec(m: DetectMethod, adlxCount: UInt32, rt: AdlxRuntime, dx: DxgiRuntime, index: Int32, buf: GpuInfo): InfoReply {
    match m
    case Adlx => AdlxInfoSpec(adlxCount, rt, index, buf)
    case Dxgi => DxgiInfoSpec(dx, index, buf)
    case _ => PlaceholderInfo(index, buf)
  }

  /**
   * Under the placeholder strategy the backend reports no GPU, yet answers
   * info for index 0, so the dispatcher never reaches that record.
   */
  lemma PlaceholderCountsNothing(adlxCount: UInt32, rt: AdlxRuntime, dx: DxgiRuntime, buf: GpuInfo)
    ensures CountSpec(Placeholder, adlxCount, dx) == CountReply(Success, 0)
    ensures InfoSpec(Placeholder, adlxCount, rt, dx, 0, buf).err == Success
  {
  }

  // ---------------------------------------------------------------------
  // The backend's state
  // ---------------------------------------------------------------------

  /** The file's static variables; pointers are represented by whether they are set. */
  class AmdWindowsBackend {
    var currentMethod: DetectMethod
    var adlxSystem: bool
    var adlxGpuList: bool
    var adlxGpuCount: UInt32
    var adlxInitialized: bool

    /** The ADLX state is either fully loaded with a non-empty list, or fully rolled back. */
    predicate LoaderValid()
      reads this
    {
      && (adlxInitialized ==> adlxSystem && adlxGpuList && adlxGpuCount > 0)
      && (!adlxInitialized ==> !adlxSystem && !adlxGpuList && adlxGpuCount == 0)
    }

    /** ADLX is loaded exactly while it is the selected strategy. */
    predicate Valid()
      reads this
    {
      LoaderValid() && (adlxInitialized <==> currentMethod == Adlx)
    }

    /** The state at program start. */
    constructor ()
      ensures Valid() && currentMethod == NotSelected
    {
      currentMethod := NotSelected;
      adlxSystem := false;
      adlxGpuList := false;
      adlxGpuCount := 0;
      adlxInitialized := false;
    }

    /**
     * `load_adlx`: nothing to do once loaded; otherwise every failing step
     * rolls back what the earlier ones set, and an empty list is a failure.
     */
    method LoadAdlx(rt: AdlxRuntime) returns (err: ErrorCode)
      requires LoaderValid()
      modifies this
      ensures LoaderValid() && currentMethod == old(currentMethod)
      ensures old(adlxInitialized) ==> err == Success && unchanged(this)
      ensures !old(adlxInitialized) ==>
        && adlxInitialized == Loads(rt)
        && (Loads(rt) ==> adlxGpuCount == |rt.gpus.value|)
      ensures err == Success <==> adlxInitialized
      ensures err != Success ==> err == NotSupported
    {
      if adlxInitialized {
        return Success;
      }
      if !rt.helperOk {
        return NotSupported;
      }
      adlxSystem := rt.systemOk;
      if !adlxSystem {
        return NotSupported;
      }
      if rt.gpus.None? {
        adlxSystem := false;
        return NotSupported;
      }
      adlxGpuList := true;
      adlxGpuCount := |rt.gpus.value|;
      if adlxGpuCount == 0 {
        adlxSystem := false;
        adlxGpuList := false;
        return NotSupported;
      }
      adlxInitialized := true;
      err := Success;
    }

    /** `select_detection_method`, run while no strategy is selected. */
    method SelectDetectionMethod(rt: AdlxRuntime, dx: DxgiRuntime) returns (m: DetectMethod)
      requires Valid() && currentMethod == NotSelected
      modifies this
      ensures LoaderValid() && currentMethod == NotSelected
      ensures m == Selected(rt, dx)
      ensures adlxInitialized <==> m == Adlx
      ensures m == Adlx ==> adlxGpuCount == |rt.gpus.value|
    {
      var err := LoadAdlx(rt);
      if err == Success {
        return Adlx;
      }
      var dxErr, adapters := GetDxgiAdapters(dx);
      if dxErr == Success && |adapters| > 0 {
        return Dxgi;
      }
      m := Placeholder;
    }

    /** `detect_amd_gpus_adlx(count, NULL, -1)`. */
    method AdlxCount(rt: AdlxRuntime) returns (r: CountReply)
      requires LoaderValid()
      modifies this
      ensures LoaderValid() && currentMethod == old(currentMethod)
      ensures old(adlxInitialized) ==> unchanged(this)
      ensures !old(adlxInitialized) ==>
        && adlxInitialized == Loads(rt)
        && (Loads(rt) ==> adlxGpuCount == |rt.gpus.value|)
      ensures r == (if adlxInitialized then CountReply(Success, ToI32(adlxGpuCount)) else CountReply(NotSupported, 0))
    {
      var err := LoadAdlx(rt);
      if err != Success {
        return CountReply(err, 0);
      }
      r := CountReply(Success, ToI32(adlxGpuCount));
    }

    /** `detect_amd_gpus_adlx(NULL, info, index)`; `buf` is the buffer before the call. */
    method AdlxInfo(rt: AdlxRuntime, index: Int32, buf: GpuInfo) returns (r: InfoReply)
      requires LoaderValid()
      modifies this
      ensures LoaderValid() && currentMethod == old(currentMethod)
      ensures old(adlxInitialized) ==> unchanged(this)
      ensures !old(adlxInitialized) ==>
        && adlxInitialized == Loads(rt)
        && (Loads(rt) ==> adlxGpuCount == |rt.gpus.value|)
      ensures r == (if adlxInitialized then AdlxInfoSpec(adlxGpuCount, rt, index, buf) else InfoReply(NotSupported, buf))
    {
      var err := LoadAdlx(rt);
      if err != Success {
        return InfoReply(err, buf);
      }
      if index < 0 || index >= ToI32(adlxGpuCount) {
        return InfoReply(InvalidParam, buf);
      }
      var gpu := GpuAt(rt, index);
      if gpu.None? {
        return InfoReply(ApiFailed, buf);
      }
      r := InfoReply(Success, AdlxRecord(index, gpu.value));
    }

    /** `amd_windows_get_gpu_count`: select a strategy if none is selected yet, then ask it. */
    method Count(rt: AdlxRuntime, dx: DxgiRuntime) returns (r: CountReply)
      requires Valid()
      modifies this
      ensures Valid()
      ensures currentMethod == if old(currentMethod) == NotSelected then Selected(rt, dx) else old(currentMethod)
      ensures old(currentMethod) != NotSelected ==> unchanged(this)
      ensures old(currentMethod) == NotSelected && currentMethod == Adlx ==> adlxGpuCount == |rt.gpus.value|
      ensures r == CountSpec(currentMethod, adlxGpuCount, dx)
    {
      if currentMethod == NotSelected {
        var m := SelectDetectionMethod(rt, dx);
        currentMethod := m;
      }
      if currentMethod == Adlx {
        r := AdlxCount(rt);
      } else if currentMethod == Dxgi {
        var err, adapters := GetDxgiAdapters(dx);
        if err != Success {
          return CountReply(err, 0);
        }
        r := CountReply(Success, |adapters|);
      } else {
        r := CountReply(Success, 0);
      }
    }

    /** `amd_windows_get_gpu_info`: select a strategy if none is selected yet, then ask it. */
    method Info(rt: AdlxRuntime, dx: DxgiRuntime, index: Int32, buf: GpuInfo) returns (r: InfoReply)
      requires Valid()
      modifies this
      ensures Valid()
      ensures currentMethod == if old(currentMethod) == NotSelected then Selected(rt, dx) else old(currentMethod)
      ensures old(currentMethod) != NotSelected ==> unchanged(this)
      ensures old(currentMethod) == NotSelected && currentMethod == Adlx ==> adlxGpuCount == |rt.gpus.value|
      ensures r == InfoSpec(currentMethod, adlxGpuCount, rt, dx, index, buf)
    {
      if currentMethod == NotSelected {
        var m := SelectDetectionMethod(rt, dx);
        currentMethod := m;
      }
      if currentMethod == Adlx {
        r := AdlxInfo(rt, index, buf);
      } else if currentMethod == Dxgi {
        var err, adapters := GetDxgiAdapters(dx);
        if err != Success {
          return InfoReply(err, buf);
        }
        if index < 0 || index >= |adapters| {
          return InfoReply(InvalidParam, buf);
        }
        r := InfoReply(Success, DxgiRecord(index, adapters[index]));
      } else {
        r := PlaceholderInfo(index, buf);
      }
    }

    /** `amd_windows_cleanup`: releases ADLX and forgets the strategy, loaded or not. */
    method Cleanup()
      modifies this
      ensures Valid() && currentMethod == NotSelected
      ensures !adlxInitialized && !adlxSystem && !adlxGpuList && adlxGpuCount == 0
    {
      if adlxGpuList {
        adlxGpuList := false;
      }
      if adlxInitialized {
        adlxInitialized := false;
      }
      adlxSystem := false;
      adlxGpuCount := 0;
      currentMethod := NotSelected;
    }
  }
}
