/**
 * The host-runtime facing layer: what the exported JavaScript functions
 * return, given what the library's C entry points report. JavaScript objects
 * are plain records and a thrown exception is a value.
 */
module Binding {
  import opened Wrappers
  import opened CInt
  import opened GpuTypes
  import opened Dispatcher
  import Text

  /** A JavaScript argument: a number or anything else. */
  datatype JsValue = JsNumber(number: real) | JsOther

  datatype ErrorKind = Error | TypeError

  /** What an exported function does: return a value or throw. */
  datatype JsOutcome<T> = Returned(value: T) | Thrown(kind: ErrorKind, message: string)

  /** The JavaScript object built from one record; every number is a JavaScript number. */
  datatype GpuObject = GpuObject(
    index: real,
    vendor: string,
    name: string,
    uuid: string,
    pciBusId: string,
    memoryTotal: real,
    memoryUsed: real,
    memoryFree: real,
    gpuUtilization: real,
    memoryUtilization: real,
    temperature: real,
    powerUsage: real,
    coreClock: real,
    memoryClock: real,
    fanSpeed: real)

  /** The vendor name the object carries. */
  function VendorName(v: Vendor): (s: string)
    ensures s in {"NVIDIA", "AMD", "Intel", "Unknown"}
    ensures s == "Unknown" <==> !VendorSupported(v)
  {
    match v
    case Nvidia => "NVIDIA"
    case Amd => "AMD"
    case Intel => "Intel"
    case Unknown => "Unknown"
  }

  /** Two different supported vendors never share a name. */
  lemma VendorNameInjective(v: Vendor, w: Vendor)
    requires v != w && VendorSupported(w)
    ensures VendorName(v) != VendorName(w)
  {
  }

  /** `GpuInfoToObject`: the vendor becomes its name, every other field is carried over. */
  function GpuInfoToObject(info: GpuInfo): (o: GpuObject)
    ensures o.vendor == VendorName(info.vendor)
    ensures o.name == info.name && o.uuid == info.uuid && o.pciBusId == info.pciBusId
    ensures o.index == info.index as real
    ensures o.memoryTotal == info.memoryTotal as real && o.memoryUsed == info.memoryUsed as real
    ensures o.memoryFree == info.memoryFree as real
    ensures o.gpuUtilization == info.gpuUtilization && o.memoryUtilization == info.memoryUtilization
    ensures o.temperature == info.temperature && o.powerUsage == info.powerUsage && o.fanSpeed == info.fanSpeed
    ensures o.coreClock == info.coreClock as real && o.memoryClock == info.memoryClock as real
  {
    GpuObject(info.index as real, VendorName(info.vendor), info.name, info.uuid, info.pciBusId,
      info.memoryTotal as real, info.memoryUsed as real, info.memoryFree as real,
      info.gpuUtilization, info.memoryUtilization, info.temperature, info.powerUsage,
      info.coreClock as real, info.memoryClock as real, info.fanSpeed)
  }

  /** The integer part of `x`: its fraction dropped, rounding toward zero. */
  function Truncated(x: real): (t: int)
    ensures 0.0 <= x ==> 0 <= t && t as real <= x < t as real + 1.0
    ensures x < 0.0 ==> t <= 0 && t as real - 1.0 < x <= t as real
  {
    if x >= 0.0 then x.Floor else -((-x).Floor)
  }

  /**
   * `Napi::Number::Int32Value`: truncate toward zero, then wrap to `int32_t`;
   * an integral value in range is kept.
   */
  function Int32Value(x: real): (r: Int32)
    ensures (r - Truncated(x)) % TWO_32 == 0
    ensures -TWO_31 <= Truncated(x) < TWO_31 ==> r == Truncated(x)
    ensures x.Floor as real == x && -TWO_31 <= x.Floor < TWO_31 ==> r == x.Floor
  {
    ToI32(Truncated(x))
  }

  /** `initialize()`: the library's init never fails, so the call returns true. */
  method Initialize(lib: GpuLibrary) returns (o: JsOutcome<bool>)
    modifies lib
    ensures o == Returned(true) && lib.initialized
  {
    var err := lib.Init();
    if err != Success {
      return Thrown(Error, "Failed to initialize GPU library");
    }
    o := Returned(true);
  }

  /** `cleanup()`: the library's cleanup never fails, so the call returns true. */
  method Cleanup(lib: GpuLibrary) returns (o: JsOutcome<bool>)
    modifies lib
    ensures o == Returned(true) && !lib.initialized
  {
    var err := lib.Cleanup();
    if err != Success {
      return Thrown(Error, "Failed to cleanup GPU library");
    }
    o := Returned(true);
  }

  /** Loading the addon initialises the library, so a later `initialize()` changes nothing and succeeds. */
  method LoadModule(lib: GpuLibrary)
    modifies lib
    ensures lib.initialized
  {
    var _ := lib.Init();
  }

  /**
   * `getGpuCount()`: the count when there is one, 0 for the "no GPU"
   * condition, and a thrown error for every other failure.
   */
  method GetGpuCount(lib: GpuLibrary, b: Backends) returns (o: JsOutcome<int>)
    ensures lib.initialized ==> o == Returned(if TotalCount(b) > 0 then TotalCount(b) else 0)
    ensures !lib.initialized ==> o == Thrown(Error, "Failed to get GPU count")
  {
    var err, written := lib.GetCount(true, b);
    if err != Success {
      if err == NoGpu {
        return Returned(0);
      }
      return Thrown(Error, "Failed to get GPU count");
    }
    o := Returned(written.value);
  }

  /**
   * `getGpuInfo(index)`: a missing or non-number argument is a TypeError
   * before the library is asked; otherwise the object for the record, or an
   * error naming the index. `scratch` is the uninitialised stack buffer.
   */
  function GetGpuInfo(lib: GpuLibrary, args: seq<JsValue>, b: Backends, scratch: GpuInfo): (o: JsOutcome<GpuObject>)
    reads lib
    ensures |args| < 1 || !args[0].JsNumber? ==> o == Thrown(TypeError, "Expected GPU index as number")
    ensures |args| >= 1 && args[0].JsNumber? ==>
      var r := lib.GetInfo(Int32Value(args[0].number), Some(scratch), b);
      (o.Returned? <==> r.0 == Success)
      && (o.Returned? ==> r.1.Some? && o.value == GpuInfoToObject(r.1.value))
  {
    if |args| < 1 || !args[0].JsNumber? then Thrown(TypeError, "Expected GPU index as number")
    else
      var index := Int32Value(args[0].number);
      var r := lib.GetInfo(index, Some(scratch), b);
      if r.0 != Success then Thrown(Error, "Failed to get GPU info for index " + Text.IntToDecimal(index))
      else Returned(GpuInfoToObject(r.1.value))
  }

  /** The slot `getAllGpuInfo()` fills for global index i: the object, or null when the call failed. */
  function Slot(lib: GpuLibrary, i: Int32, b: Backends, scratch: GpuInfo): Option<GpuObject>
    reads lib
  {
    var r := lib.GetInfo(i, Some(scratch), b);
    if r.0 == Success then Some(GpuInfoToObject(r.1.value)) else None
  }

  /**
   * `getAllGpuInfo()`: empty unless the count succeeded, otherwise exactly
   * count slots, slot i holding GPU i or null where its info call failed.
   */
  method GetAllGpuInfo(lib: GpuLibrary, b: Backends, scratch: GpuInfo) returns (slots: seq<Option<GpuObject>>)
    ensures !lib.initialized || TotalCount(b) <= 0 ==> slots == []
    ensures lib.initialized && TotalCount(b) > 0 ==>
      && |slots| == TotalCount(b)
      && forall i: Int32 :: 0 <= i < |slots| ==>
           (slots[i].None? <==> lib.GetInfo(i, Some(scratch), b).0 != Success)
           && slots[i] == Slot(lib, i, b, scratch)
  {
    var err, written := lib.GetCount(true, b);
    if err != Success || written.value == 0 {
      return [];
    }
    var count := written.value;
    slots := [];
    var i: Int32 := 0;
    while i < count
      invariant 0 <= i <= count
      invariant |slots| == i
      invariant forall k: Int32 :: 0 <= k < i ==> slots[k] == Slot(lib, k, b, scratch)
    {
      var r := lib.GetInfo(i, Some(scratch), b);
      if r.0 == Success {
        slots := slots + [Some(GpuInfoToObject(r.1.value))];
      } else {
        slots := slots + [None];
      }
      i := i + 1;
    }
  }
}
