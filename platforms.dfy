/**
 * The library as built on one platform: the dispatcher over that platform's
 * concrete backends. What the backends answer is given by their
 * specification functions over the platform's inputs.
 */
module Platforms {
  import opened Wrappers
  import opened CInt
  import opened GpuTypes
  import opened Seqs
  import opened Dispatcher
  import Stubs
  import AmdLinux
  import AmdMac

  /** The sysfs AMD backend as the dispatcher sees it. */
  function AmdLinuxBackend(fs: AmdLinux.SysFs): Backend {
    Backend(AmdLinux.CountSpec(fs), (index: Int32, buf: GpuInfo) => AmdLinux.InfoSpec(fs, index, buf))
  }

  /** The IOKit AMD backend as the dispatcher sees it. */
  function AmdMacBackend(services: Option<AmdMac.ServiceList>): Backend {
    Backend(AmdMac.CountSpec(services), (index: Int32, buf: GpuInfo) => AmdMac.InfoSpec(services, index, buf))
  }

  /** Linux: the NVML backend (given as what it answers), AMD from sysfs, and the Intel stub. */
  function LinuxBackends(nvidia: Backend, fs: AmdLinux.SysFs): Backends {
    Backends(nvidia, AmdLinuxBackend(fs), Stubs.AsBackend())
  }

  /** macOS: the NVIDIA stub, AMD from IOKit, and the Intel backend (given as what it answers). */
  function MacBackends(services: Option<AmdMac.ServiceList>, intel: Backend): Backends {
    Backends(Stubs.AsBackend(), AmdMacBackend(services), intel)
  }

  /**
   * On Linux the Intel stub adds nothing to the count and is never asked for
   * a record: every index the NVIDIA and AMD slices do not take is rejected
   * before it.
   */
  lemma LinuxIntelNeverAsked(nvidia: Backend, fs: AmdLinux.SysFs, index: Int32)
    requires 0 <= nvidia.count.written
    requires nvidia.count.written + AmdLinux.CountSpec(fs).written < TWO_31
    ensures TotalCount(LinuxBackends(nvidia, fs)) == Contribution(nvidia.count) + AmdLinux.CountSpec(fs).written
    ensures var r := RouteIndex(index, nvidia.count.written, AmdLinux.CountSpec(fs).written, 0);
      !(r.Routed? && r.vendor == Intel)
  {
    var amd := AmdLinux.CountSpec(fs).written;
    assert 0 <= amd;
  }

  /** The sysfs backend answers local index k with the k-th AMD card's record. */
  lemma AmdLinuxAnswers(fs: AmdLinux.SysFs, k: Int32, buf: GpuInfo)
    requires fs.drm.Some? && 0 <= k < |Filter(AmdLinux.AmdCard(fs), fs.drm.value)|
    ensures AmdLinuxBackend(fs).info(k, buf)
      == InfoReply(Success, AmdLinux.CardRecord(fs, AmdLinux.CardPath(Filter(AmdLinux.AmdCard(fs), fs.drm.value)[k]), k))
  {
    assert AmdLinuxBackend(fs).info(k, buf) == AmdLinux.InfoSpec(fs, k, buf);
  }

  /**
   * On Linux, global index nv + k, for the k-th AMD card of the listing,
   * is answered with that card's record under local index k.
   */
  lemma LinuxAmdSlice(lib: GpuLibrary, nvidia: Backend, fs: AmdLinux.SysFs, k: Int32, buf: GpuInfo)
    requires lib.initialized && fs.drm.Some?
    requires 0 <= nvidia.count.written
    requires 0 <= k < |Filter(AmdLinux.AmdCard(fs), fs.drm.value)|
    requires nvidia.count.written + |Filter(AmdLinux.AmdCard(fs), fs.drm.value)| < TWO_31
    ensures nvidia.count.written + k < TWO_31
    ensures lib.GetInfo(nvidia.count.written + k, Some(buf), LinuxBackends(nvidia, fs))
      == (Success, Some(AmdLinux.CardRecord(fs, AmdLinux.CardPath(Filter(AmdLinux.AmdCard(fs), fs.drm.value)[k]), k)))
  {
    var cards := Filter(AmdLinux.AmdCard(fs), fs.drm.value);
    var bs := LinuxBackends(nvidia, fs);
    assert bs.amd.count.written == |cards| && bs.intel.count.written == 0;
    RouteIndexInverse(Amd, k, nvidia.count.written, |cards|, 0);
    assert RouteIndex(nvidia.count.written + k, nvidia.count.written, |cards|, 0) == Routed(Amd, k);
    assert BackendOf(bs, Amd) == AmdLinuxBackend(fs);
    AmdLinuxAnswers(fs, k, buf);
  }

  /**
   * On macOS the NVIDIA stub takes no indices, so a global index is the AMD
   * backend's local index: the index-th AMD service answers it.
   */
  lemma MacGlobalIsLocal(lib: GpuLibrary, services: Option<AmdMac.ServiceList>, intel: Backend, index: Int32, buf: GpuInfo)
    requires lib.initialized && services.Some?
    requires 0 <= index < |Filter(AmdMac.AmdService(), services.value)|
    ensures lib.GetInfo(index, Some(buf), MacBackends(services, intel))
      == (Success, Some(AmdMac.ServiceRecord(Filter(AmdMac.AmdService(), services.value)[index], index)))
  {
  }
}
