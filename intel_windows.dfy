/**
 * The Intel backend on Windows. It enumerates the display-class devices
 * SetupAPI reports, keeps those whose manufacturer names Intel, and fills a
 * record for the index-th one from its description and instance id, with
 * fixed memory and telemetry figures.
 *
 * The device enumeration is an input: None when the device information set
 * cannot be obtained, else the devices in enumeration order with the
 * registry properties that read successfully.
 */
module IntelWindows {
  import opened Wrappers
  import opened CInt
  import opened GpuTypes
  import opened Seqs
  import opened Text

  /** One display device's manufacturer, description and instance id; None where the read fails. */
  datatype DisplayDevice = DisplayDevice(
    manufacturer: Option<string>,
    description: Option<string>,
    instanceId: Option<string>)

  /** The enumeration; its count is an `int32_t`. */
  type DeviceList = s: seq<DisplayDevice> | |s| < TWO_31

  /** The manufacturer test: the property names "Intel" or "INTEL" somewhere. */
  predicate IsIntelManufacturer(m: string) {
    Contains(m, "Intel") || Contains(m, "INTEL")
  }

  /** A device counts as Intel when its manufacturer reads and passes the test. */
  predicate IsIntelDevice(d: DisplayDevice) {
    d.manufacturer.Some? && IsIntelManufacturer(d.manufacturer.value)
  }

  /** The test the count and info loops apply to each device. */
  function IntelDevice(): DisplayDevice -> bool {
    d => IsIntelDevice(d)
  }

  /** The two spellings the test lists are found anywhere in the manufacturer. */
  lemma ManufacturerSpellings()
    ensures IsIntelManufacturer("Intel Corporation")
    ensures IsIntelManufacturer("INTEL")
  {
    ContainsAt("Intel Corporation", "Intel");
    assert "Intel" <= "Intel Corporation"[0..];
    ContainsAt("INTEL", "INTEL");
    assert "INTEL" <= "INTEL"[0..];
  }

  /** Any other capitalisation is not Intel to the test. */
  lemma ManufacturerCaseSensitive()
    ensures !IsIntelManufacturer("intel")
  {
    ContainsAt("intel", "Intel");
    ContainsAt("intel", "INTEL");
    forall i | 0 <= i <= 5
      ensures !("Intel" <= "intel"[i..]) && !("INTEL" <= "intel"[i..])
    {
      if i == 0 {
        assert "intel"[0..][0] == 'i';
      }
    }
  }

  /** The name: the device description, else "Intel Graphics". */
  function DeviceName(d: DisplayDevice): (s: NameText)
    ensures d.description.Some? ==> s == Bounded(d.description.value, NAME_SIZE)
    ensures d.description.None? ==> s == "Intel Graphics"
  {
    if d.description.Some? then Bounded(d.description.value, NAME_SIZE) else "Intel Graphics"
  }

  /** The UUID: "INTEL-" and the instance id, else "INTEL-WIN-<index>". */
  function DeviceUuid(d: DisplayDevice, index: Int32): (s: UuidText)
    ensures d.instanceId.Some? ==> s == Bounded("INTEL-" + d.instanceId.value, UUID_SIZE)
    ensures d.instanceId.Some? && |d.instanceId.value| < UUID_SIZE - 6 ==> s == "INTEL-" + d.instanceId.value
    ensures d.instanceId.None? ==> s == "INTEL-WIN-" + IntToDecimal(index)
  {
    if d.instanceId.Some? then Bounded("INTEL-" + d.instanceId.value, UUID_SIZE)
    else Labelled("INTEL-WIN-", index, UUID_SIZE)
  }

  /**
   * The record for Intel device `d`, GPU `index`: an integrated GPU's
   * estimate of 1024 MB of shared memory with 256 MB used, and fixed
   * telemetry figures.
   */
  function DeviceRecord(d: DisplayDevice, index: Int32): (r: GpuInfo)
    ensures r.index == index && r.vendor == Intel
    ensures r.name == DeviceName(d) && r.uuid == DeviceUuid(d, index)
    ensures r.pciBusId == "PCI:" + IntToDecimal(index)
    ensures r.memoryUsed + r.memoryFree == r.memoryTotal == 1024
    ensures r.memoryUtilization == 10.0 && r.gpuUtilization == 5.0
    ensures r.temperature == 45.0 && r.powerUsage == 15.0
    ensures r.coreClock == 1200 && r.memoryClock == 0 && r.fanSpeed == 0.0
  {
    Cleared(index, Intel).(
      name := DeviceName(d),
      uuid := DeviceUuid(d, index),
      pciBusId := Labelled("PCI:", index, PCI_BUS_ID_SIZE),
      memoryTotal := 1024,
      memoryUsed := 256,
      memoryFree := 768,
      memoryUtilization := 10.0,
      gpuUtilization := 5.0,
      temperature := 45.0,
      powerUsage := 15.0,
      coreClock := 1200,
      memoryClock := 0,
      fanSpeed := 0.0)
  }

  /** What `intel_windows_get_gpu_count` answers: always success, 0 without a device set. */
  function CountSpec(devices: Option<DeviceList>): (r: CountReply)
    ensures r.err == Success
    ensures devices.None? ==> r.written == 0
    ensures devices.Some? ==> r.written == |Filter(IntelDevice(), devices.value)|
  {
    CountReply(Success, if devices.None? then 0 else |Filter(IntelDevice(), devices.value)|)
  }

  /**
   * What `intel_windows_get_gpu_info` answers. The record is cleared and
   * given its index and vendor before the enumeration, so the failures hand
   * back that cleared record, not the caller's buffer.
   */
  function InfoSpec(devices: Option<DeviceList>, index: Int32): (r: InfoReply)
    ensures r.record.index == index && r.record.vendor == Intel
    ensures devices.None? ==> r == InfoReply(ApiFailed, Cleared(index, Intel))
    ensures devices.Some? ==>
      (r.err == Success <==> 0 <= index < |Filter(IntelDevice(), devices.value)|)
    ensures devices.Some? && r.err != Success ==> r == InfoReply(InvalidParam, Cleared(index, Intel))
  {
    if devices.None? then InfoReply(ApiFailed, Cleared(index, Intel))
    else
      var intel := Filter(IntelDevice(), devices.value);
      if index < 0 || index >= |intel| then InfoReply(InvalidParam, Cleared(index, Intel))
      else InfoReply(Success, DeviceRecord(intel[index], index))
  }

  /**
   * `intel_windows_get_gpu_count`: the number of Intel devices; an
   * unobtainable device set is no error and counts 0.
   */
  method Count(devices: Option<DeviceList>) returns (r: CountReply)
    ensures r == CountSpec(devices)
  {
    if devices.None? {
      return CountReply(Success, 0);
    }
    var list := devices.value;
    var p := IntelDevice();
    var intelCount := 0;
    var deviceIndex := 0;
    while deviceIndex < |list|
      invariant 0 <= deviceIndex <= |list|
      invariant intelCount == |Filter(p, list[..deviceIndex])|
    {
      FilterStep(p, list, deviceIndex);
      if IsIntelDevice(list[deviceIndex]) {
        intelCount := intelCount + 1;
      }
      deviceIndex := deviceIndex + 1;
    }
    assert list[..deviceIndex] == list;
    r := CountReply(Success, intelCount);
  }

  /** `intel_windows_get_gpu_info`: clear the record, then fill it from the index-th Intel device. */
  method Info(devices: Option<DeviceList>, index: Int32) returns (r: InfoReply)
    ensures r == InfoSpec(devices, index)
  {
    var info := Cleared(index, Intel);
    if devices.None? {
      return InfoReply(ApiFailed, info);
    }
    var list := devices.value;
    var p := IntelDevice();
    var intelIndex := 0;
    var deviceIndex := 0;
    while deviceIndex < |list|
      invariant 0 <= deviceIndex <= |list|
      invariant intelIndex == |Filter(p, list[..deviceIndex])|
      invariant index < 0 || intelIndex <= index
    {
      FilterStep(p, list, deviceIndex);
      var d := list[deviceIndex];
      if IsIntelDevice(d) {
        if intelIndex == index {
          SelectAt(p, list, deviceIndex, index as nat);
          info := info.(name := DeviceName(d), uuid := DeviceUuid(d, index));
          info := info.(pciBusId := Labelled("PCI:", index, PCI_BUS_ID_SIZE));
          info := info.(memoryTotal := 1024, memoryUsed := 256, memoryFree := 768);
          info := info.(memoryUtilization := 10.0, gpuUtilization := 5.0, temperature := 45.0,
            powerUsage := 15.0, coreClock := 1200, memoryClock := 0, fanSpeed := 0.0);
          return InfoReply(Success, info);
        }
        intelIndex := intelIndex + 1;
      }
      deviceIndex := deviceIndex + 1;
    }
    assert list[..deviceIndex] == list;
    r := InfoReply(InvalidParam, info);
  }
}
