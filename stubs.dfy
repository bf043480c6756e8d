/**
 * The backends that detect nothing: NVIDIA on macOS, where the platform no
 * longer supports NVIDIA GPUs, and Intel on Linux, which is not implemented.
 * Both report no GPUs and answer every info request as not supported.
 * A C out-pointer is an Option here, None for NULL; the results pair the
 * code with what is stored through the pointer afterwards.
 */
module Stubs {
  import opened Wrappers
  import opened CInt
  import opened GpuTypes
  import opened Dispatcher

  /** The count entry point: a NULL pointer is an invalid parameter, otherwise 0 GPUs. */
  function Count(countPresent: bool): (r: (ErrorCode, Option<Int32>))
    ensures r.0 == Success <==> countPresent
    ensures !countPresent ==> r == (InvalidParam, None)
    ensures countPresent ==> r.1 == Some(0)
  {
    if !countPresent then (InvalidParam, None) else (Success, Some(0))
  }

  /** The info entry point: never writes the record; NULL is an invalid parameter, anything else unsupported. */
  function Info(index: Int32, buf: Option<GpuInfo>): (r: (ErrorCode, Option<GpuInfo>))
    ensures r.1 == buf
    ensures r.0 == (if buf.None? then InvalidParam else NotSupported)
  {
    if buf.None? then (InvalidParam, buf) else (NotSupported, buf)
  }

  /** The backend as the dispatcher calls it, with valid pointers. */
  function AsBackend(): (b: Backend)
    ensures b.count == CountReply(Count(true).0, Count(true).1.value)
    ensures forall index: Int32, buf :: b.info(index, buf) == InfoReply(Info(index, Some(buf)).0, Info(index, Some(buf)).1.value)
  {
    Backend(CountReply(Success, 0), (index: Int32, buf: GpuInfo) => InfoReply(NotSupported, buf))
  }
}
