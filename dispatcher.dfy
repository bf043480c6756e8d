/**
 * The aggregation core: the process-wide initialisation flag, the count that
 * adds up the vendor backends, and the routing of a flat global index to one
 * backend and a local index.
 *
 * The dispatcher calls the three vendor entry points. What they answer during
 * one call is an input here (`Backends`); the per-platform backend modules
 * say what the concrete backends answer.
 */
module Dispatcher {
  import opened Wrappers
  import opened CInt
  import opened GpuTypes

  /**
   * One vendor backend as the dispatcher sees it during one call: the reply to
   * its count entry point, and its info entry point as a function of the local
   * index and the buffer's prior contents.
   */
  datatype Backend = Backend(count: CountReply, info: (Int32, GpuInfo) -> InfoReply)

  datatype Backends = Backends(nvidia: Backend, amd: Backend, intel: Backend)

  function BackendOf(b: Backends, v: Vendor): Backend
    requires v != Unknown
  {
    match v
    case Nvidia => b.nvidia
    case Amd => b.amd
    case Intel => b.intel
  }

  /** What one backend adds to `gpu_get_count`'s total: its count if it succeeded, else nothing. */
  function Contribution(r: CountReply): int {
    if r.err == Success then r.written else 0
  }

  /**
   * One vendor's step of `gpu_get_count`: add the count to the `int32_t`
   * total when the vendor answered with success. A total that wraps the
   * sum so far still wraps the sum with this vendor's share. The wrap stands
   * for signed overflow, which C leaves undefined; the model takes the
   * two's-complement result.
   */
  method AddCount(total: Int32, reply: CountReply, ghost sum: int) returns (t: Int32)
    requires total == ToI32(sum)
    ensures t == ToI32(sum + Contribution(reply))
  {
    t := total;
    if reply.err == Success {
      ToI32Add(sum, reply.written);
      t := ToI32(total + reply.written);
    }
  }

  /** The total `gpu_get_count` accumulates in its `int32_t`. */
  function TotalCount(b: Backends): Int32 {
    ToI32(Contribution(b.nvidia.count) + Contribution(b.amd.count) + Contribution(b.intel.count))
  }

  /** Every backend wrote a non-negative count and their sum fits an `int32_t`. */
  predicate CountsInRange(b: Backends) {
    && b.nvidia.count.written >= 0
    && b.amd.count.written >= 0
    && b.intel.count.written >= 0
    && b.nvidia.count.written + b.amd.count.written + b.intel.count.written < TWO_31
  }

  /** A failing count entry point leaves the caller's variable at 0 (true of every backend modelled here). */
  predicate FailuresWriteZero(b: Backends) {
    && (b.nvidia.count.err != Success ==> b.nvidia.count.written == 0)
    && (b.amd.count.err != Success ==> b.amd.count.written == 0)
    && (b.intel.count.err != Success ==> b.intel.count.written == 0)
  }

  // ---------------------------------------------------------------------
  // Global index mapping
  // ---------------------------------------------------------------------

  datatype Route = Routed(vendor: Vendor, local: Int32) | NoRoute

  /**
   * The routing of `gpu_get_info`: compare the index with the cumulative
   * counts nv, nv + amd and nv + amd + intel, in `int32_t` arithmetic.
   */
  function RouteIndex(index: Int32, nv: Int32, amd: Int32, intel: Int32): (r: Route)
    ensures r.Routed? ==> r.vendor != Unknown
    ensures nv >= 0 && index < 0 ==> r == Routed(Nvidia, index)
    ensures r.Routed? && r.vendor == Nvidia ==> r.local == index
  {
    if index < nv then Routed(Nvidia, index)
    else if index < ToI32(nv + amd) then Routed(Amd, ToI32(index - nv))
    else if index < ToI32(nv + amd + intel) then Routed(Intel, ToI32(index - nv - amd))
    else NoRoute
  }

  /** Where vendor `v`'s slice of the global index space starts. */
  function Offset(nv: int, amd: int, v: Vendor): int {
    match v
    case Nvidia => 0
    case Amd => nv
    case Intel => nv + amd
    case Unknown => 0
  }

  function CountOf(nv: int, amd: int, intel: int, v: Vendor): int {
    match v
    case Nvidia => nv
    case Amd => amd
    case Intel => intel
    case Unknown => 0
  }

  /**
   * With non-negative counts whose sum fits, a global index in [0, total) is
   * routed to the vendor whose slice holds it, at the matching local index,
   * and every index at or beyond the total is rejected.
   */
  lemma RouteIndexCorrect(index: Int32, nv: Int32, amd: Int32, intel: Int32)
    requires 0 <= nv && 0 <= amd && 0 <= intel && nv + amd + intel < TWO_31
    requires 0 <= index
    ensures RouteIndex(index, nv, amd, intel).NoRoute? <==> index >= nv + amd + intel
    ensures RouteIndex(index, nv, amd, intel).Routed? ==>
      var r := RouteIndex(index, nv, amd, intel);
      && 0 <= r.local < CountOf(nv, amd, intel, r.vendor)
      && index == Offset(nv, amd, r.vendor) + r.local
  {
  }

  /** Routing inverts the slicing: the global index of local GPU `local` of vendor `v` is routed back to it. */
  lemma RouteIndexInverse(v: Vendor, local: int, nv: Int32, amd: Int32, intel: Int32)
    requires v != Unknown
    requires 0 <= nv && 0 <= amd && 0 <= intel && nv + amd + intel < TWO_31
    requires 0 <= local < CountOf(nv, amd, intel, v)
    ensures Offset(nv, amd, v) + local < TWO_31
    ensures RouteIndex(Offset(nv, amd, v) + local, nv, amd, intel) == Routed(v, local)
  {
  }

  // ---------------------------------------------------------------------
  // Lifecycle, count and info
  // ---------------------------------------------------------------------

  /** The library's global state: the `g_initialized` flag. */
  class GpuLibrary {
    var initialized: bool

    /** The flag starts out false. */
    constructor ()
      ensures !initialized
    {
      initialized := false;
    }

    /** `gpu_info_init`: always succeeds; once initialised it changes nothing. */
    method Init() returns (err: ErrorCode)
      modifies this
      ensures err == Success && initialized
    {
      if initialized {
        return Success;
      }
      initialized := true;
      err := Success;
    }

    /** `gpu_info_cleanup`: always succeeds, with or without a prior init, and leaves the library uninitialised. */
    method Cleanup() returns (err: ErrorCode)
      modifies this
      ensures err == Success && !initialized
    {
      if !initialized {
        return Success;
      }
      initialized := false;
      err := Success;
    }

    /**
     * `gpu_get_count`. `countPresent` is false for a NULL out-pointer; `written`
     * is the value stored through it, if any.
     */
    method GetCount(countPresent: bool, b: Backends) returns (err: ErrorCode, written: Option<Int32>)
      ensures !initialized ==> err == ApiFailed && written == None
      ensures initialized && !countPresent ==> err == InvalidParam && written == None
      ensures initialized && countPresent ==>
        && written == Some(ToI32(Contribution(b.nvidia.count) + Contribution(b.amd.count) + Contribution(b.intel.count)))
        && (err == Success <==> written.value > 0)
        && (err != Success ==> err == NoGpu)
    {
      if !initialized {
        return ApiFailed, None;
      }
      if !countPresent {
        return InvalidParam, None;
      }
      var nvidia, amd, intel := Contribution(b.nvidia.count), Contribution(b.amd.count), Contribution(b.intel.count);
      var total: Int32 := 0;
      total := AddCount(total, b.nvidia.count, 0);
      total := AddCount(total, b.amd.count, nvidia);
      total := AddCount(total, b.intel.count, nvidia + amd);
      written := Some(total);
      err := if total > 0 then Success else NoGpu;
    }

    /**
     * `gpu_get_info`. `buf` is None for a NULL record pointer, else the
     * buffer's prior contents; the result pairs the code with the buffer
     * afterwards. The vendor counts are taken as written, whatever code the
     * count entry points returned.
     */
    function GetInfo(index: Int32, buf: Option<GpuInfo>, b: Backends): (r: (ErrorCode, Option<GpuInfo>))
      reads this
      ensures !initialized || buf.None? ==> r == (InvalidParam, buf)
      ensures r.1.None? ==> r.1 == buf
      ensures initialized && buf.Some? ==>
        match RouteIndex(index, b.nvidia.count.written, b.amd.count.written, b.intel.count.written)
        case NoRoute => r == (InvalidParam, buf)
        case Routed(v, local) =>
          var reply := BackendOf(b, v).info(local, buf.value);
          r == (reply.err, Some(reply.record))
    {
      if !initialized || buf.None? then (InvalidParam, buf)
      else
        var nv, amd, intel := b.nvidia.count.written, b.amd.count.written, b.intel.count.written;
        if index < nv then
          var reply := b.nvidia.info(index, buf.value);
          (reply.err, Some(reply.record))
        else if index < ToI32(nv + amd) then
          var reply := b.amd.info(ToI32(index - nv), buf.value);
          (reply.err, Some(reply.record))
        else if index < ToI32(nv + amd + intel) then
          var reply := b.intel.info(ToI32(index - nv - amd), buf.value);
          (reply.err, Some(reply.record))
        else (InvalidParam, buf)
    }
  }

  /**
   * When failing count entry points write 0, the counts `gpu_get_info` routes
   * with add up to the total `gpu_get_count` reports, so every index in
   * [0, count) reaches the backend owning it and count itself is rejected.
   */
  lemma CountAndRoutingAgree(b: Backends, index: Int32)
    requires CountsInRange(b) && FailuresWriteZero(b)
    requires 0 <= index
    ensures TotalCount(b) == b.nvidia.count.written + b.amd.count.written + b.intel.count.written
    ensures var r := RouteIndex(index, b.nvidia.count.written, b.amd.count.written, b.intel.count.written);
      && (r.NoRoute? <==> index >= TotalCount(b))
      && (r.Routed? ==> 0 <= r.local < BackendOf(b, r.vendor).count.written)
  {
    var nv, amd, intel := b.nvidia.count.written, b.amd.count.written, b.intel.count.written;
    RouteIndexCorrect(index, nv, amd, intel);
  }

  /** `gpu_error_string`: one message per code, and a shared fallback for anything else. */
  function ErrorString(code: int): (s: string)
    ensures ErrorFromCode(code).None? <==> s == "Unknown error"
  {
    if code == 0 then "Success"
    else if code == -1 then "Operation not supported"
    else if code == -2 then "No GPU found"
    else if code == -3 then "Access denied"
    else if code == -4 then "Invalid parameter"
    else if code == -5 then "API call failed"
    else "Unknown error"
  }

  /** Distinct error codes have distinct messages. */
  lemma ErrorStringDistinct(e1: ErrorCode, e2: ErrorCode)
    requires e1 != e2
    ensures ErrorString(e1.Code()) != ErrorString(e2.Code())
  {
  }

  /** `gpu_vendor_supported`: the three real vendors, and not UNKNOWN. */
  function VendorSupported(v: Vendor): (r: bool)
    ensures r <==> v in {Nvidia, Amd, Intel}
  {
    match v
    case Nvidia => true
    case Amd => true
    case Intel => true
    case Unknown => false
  }
}
