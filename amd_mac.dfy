/**
 * The AMD backend on macOS. It iterates over the IOKit services matching
 * "IOPCIDevice", keeps those whose vendor-id is 0x1002, and fills a record
 * for the index-th one from its model and device-id properties; macOS gives
 * it no memory or telemetry figures.
 *
 * The service iteration is an input: None when the matching call fails,
 * else the services in iteration order with the properties they carry.
 */
module AmdMac {
  import opened Wrappers
  import opened CInt
  import opened GpuTypes
  import opened Seqs
  import opened Text

  /** The "model" property: absent, a data object (read as a C string), or some other type. */
  datatype ModelProperty = NoModel | ModelData(text: string) | ModelOther

  /** One PCI service: its vendor-id and device-id as the 32-bit values read from them, when present. */
  datatype PciService = PciService(vendorId: Option<UInt32>, model: ModelProperty, deviceId: Option<UInt32>)

  /** The iteration; its count is an `int`. */
  type ServiceList = s: seq<PciService> | |s| < TWO_31

  /** A service counts as AMD when it has a vendor-id and that id is 0x1002. */
  predicate IsAmdService(s: PciService) {
    s.vendorId == Some(AMD_PCI_VENDOR as UInt32)
  }

  /** The test the count and info loops apply to each service. */
  function AmdService(): PciService -> bool {
    s => IsAmdService(s)
  }

  /** The name: the model data, else "AMD GPU <index>". */
  function ServiceName(s: PciService, index: Int32): (n: NameText)
    ensures s.model.ModelData? ==> n == Bounded(s.model.text, NAME_SIZE)
    ensures !s.model.ModelData? ==> n == "AMD GPU " + IntToDecimal(index)
  {
    if s.model.ModelData? then Bounded(s.model.text, NAME_SIZE) else Labelled("AMD GPU ", index, NAME_SIZE)
  }

  /** The UUID: "AMD-macOS-0x" and the device id in `%04X`, or empty without a device-id. */
  function ServiceUuid(s: PciService): (u: UuidText)
    ensures s.deviceId.None? ==> u == ""
    ensures s.deviceId.Some? ==> u == "AMD-macOS-0x" + Hex4(s.deviceId.value)
  {
    if s.deviceId.None? then ""
    else
      Hex4Length32(s.deviceId.value);
      "AMD-macOS-0x" + Hex4(s.deviceId.value)
  }

  /** The device id a UUID names reads back from its digits. */
  lemma ServiceUuidNamesDevice(s: PciService)
    requires s.deviceId.Some?
    ensures ScanHex(ServiceUuid(s)[12..]) == Some(Scanned(s.deviceId.value, ""))
  {
    var u := ServiceUuid(s);
    assert u[12..] == Hex4(s.deviceId.value);
    Hex4RoundTrip(s.deviceId.value);
  }

  /** The record for AMD service `s`, GPU `index`: identity only, every figure 0. */
  function ServiceRecord(s: PciService, index: Int32): (r: GpuInfo)
    ensures r == Cleared(index, Amd).(name := r.name, uuid := r.uuid, pciBusId := r.pciBusId)
    ensures r.name == ServiceName(s, index) && r.uuid == ServiceUuid(s)
    ensures r.pciBusId == "PCI:" + IntToDecimal(index)
  {
    Cleared(index, Amd).(
      name := ServiceName(s, index),
      uuid := ServiceUuid(s),
      pciBusId := Labelled("PCI:", index, PCI_BUS_ID_SIZE))
  }

  /** What `amd_macos_get_gpu_count` answers. */
  function CountSpec(services: Option<ServiceList>): (r: CountReply)
    ensures services.None? ==> r == CountReply(ApiFailed, 0)
    ensures services.Some? ==> r.err == Success && r.written == |Filter(AmdService(), services.value)|
  {
    if services.None? then CountReply(ApiFailed, 0)
    else CountReply(Success, |Filter(AmdService(), services.value)|)
  }

  /**
   * What `amd_macos_get_gpu_info` answers; `buf` is the buffer before the
   * call. An index with no AMD service is reported as an API failure, and
   * the buffer is only written when the service is found.
   */
  function InfoSpec(services: Option<ServiceList>, index: Int32, buf: GpuInfo): (r: InfoReply)
    ensures services.None? ==> r == InfoReply(ApiFailed, buf)
    ensures services.Some? ==>
      (r.err == Success <==> 0 <= index < |Filter(AmdService(), services.value)|)
    ensures r.err != Success ==> r == InfoReply(ApiFailed, buf)
  {
    if services.None? then InfoReply(ApiFailed, buf)
    else
      var amd := Filter(AmdService(), services.value);
      if index < 0 || index >= |amd| then InfoReply(ApiFailed, buf)
      else InfoReply(Success, ServiceRecord(amd[index], index))
  }

  /** `amd_macos_get_gpu_count`: the number of AMD services; a failed matching call is an API failure with 0. */
  method Count(services: Option<ServiceList>) returns (r: CountReply)
    ensures r == CountSpec(services)
  {
    if services.None? {
      return CountReply(ApiFailed, 0);
    }
    var list := services.value;
    var p := AmdService();
    var amdCount := 0;
    var i := 0;
    while i < |list|
      invariant 0 <= i <= |list|
      invariant amdCount == |Filter(p, list[..i])|
    {
      FilterStep(p, list, i);
      if IsAmdService(list[i]) {
        amdCount := amdCount + 1;
      }
      i := i + 1;
    }
    assert list[..i] == list;
    r := CountReply(Success, amdCount);
  }

  /** `amd_macos_get_gpu_info`: find the index-th AMD service, then clear and fill the record. */
  method Info(services: Option<ServiceList>, index: Int32, buf: GpuInfo) returns (r: InfoReply)
    ensures r == InfoSpec(services, index, buf)
  {
    if services.None? {
      return InfoReply(ApiFailed, buf);
    }
    var list := services.value;
    var p := AmdService();
    var currentIndex := 0;
    var i := 0;
    while i < |list|
      invariant 0 <= i <= |list|
      invariant currentIndex == |Filter(p, list[..i])|
      invariant index < 0 || currentIndex <= index
    {
      FilterStep(p, list, i);
      var s := list[i];
      if IsAmdService(s) {
        if currentIndex == index {
          SelectAt(p, list, i, index as nat);
          var info := Cleared(index, Amd);
          info := info.(name := ServiceName(s, index), uuid := ServiceUuid(s));
          info := info.(pciBusId := Labelled("PCI:", index, PCI_BUS_ID_SIZE));
          return InfoReply(Success, info);
        }
        currentIndex := currentIndex + 1;
      }
      i := i + 1;
    }
    assert list[..i] == list;
    r := InfoReply(ApiFailed, buf);
  }
}
