/**
 * The AMD backend on Linux. It walks the entries of /sys/class/drm, keeps the
 * `cardN` entries whose PCI vendor file says AMD, and reads one card's sysfs
 * files to fill its record.
 *
 * The file system is an input: the directory listing, in `readdir` order, and
 * the files that open, with their contents.
 */
module AmdLinux {
  import opened Wrappers
  import opened CInt
  import opened GpuTypes
  import opened Seqs
  import opened Text

  /** A directory listing; the count is an `int`. */
  type Entries = s: seq<string> | |s| < TWO_31

  /** /sys/class/drm's entries (None when `opendir` fails) and the files `fopen` can open. */
  datatype SysFs = SysFs(drm: Option<Entries>, files: map<string, string>)

  const DRM_DIR := "/sys/class/drm"

  /** The size of the line buffer the uevent and pp_dpm scans read into. */
  const LINE_SIZE: nat := 256

  // ---------------------------------------------------------------------
  // Names, paths and sysfs reads
  // ---------------------------------------------------------------------

  /** The directory entry test: "card" followed by exactly one decimal digit. */
  function IsCardName(name: string): (r: bool)
    ensures r <==> exists c :: IsDigit(c) && name == "card" + [c]
  {
    if |name| == 5 && name[..4] == "card" && IsDigit(name[4]) then
      assert name == "card" + [name[4]];
      true
    else false
  }

  /** Longer names that begin like a card, such as connectors and tenth cards, are not cards. */
  lemma CardNameExamples()
    ensures IsCardName("card0") && IsCardName("card9")
    ensures !IsCardName("card10") && !IsCardName("card0-DP-1") && !IsCardName("renderD128")
  {
    assert "card0" == "card" + ['0'];
    assert "card9" == "card" + ['9'];
  }

  function CardPath(name: string): string {
    DRM_DIR + "/" + name
  }

  function DevicePath(card: string, leaf: string): string {
    card + "/device/" + leaf
  }

  /** `fscanf(f, "%x", &v)` on the file at `path`: the value when the file opens and the conversion succeeds. */
  function ReadHex(fs: SysFs, path: string): (r: Option<UInt32>)
    ensures path !in fs.files ==> r.None?
    ensures path in fs.files ==> (r.Some? <==> ScanHex(fs.files[path]).Some?)
    ensures path in fs.files && ScanHex(fs.files[path]).Some? ==> r == Some(ScanHex(fs.files[path]).value.value)
  {
    if path !in fs.files then None
    else
      match ScanHex(fs.files[path])
      case None => None
      case Some(d) => Some(d.value)
  }

  /** An id file in the form sysfs writes, "0x", the digits and a newline, reads as the id. */
  lemma ReadHexPrinted(fs: SysFs, path: string, id: UInt32)
    requires path in fs.files && fs.files[path] == "0x" + Hex4(id) + "\n"
    ensures ReadHex(fs, path) == Some(id)
  {
    PrefixedHexPrinted(id, "\n");
  }

  /** `is_amd_device`: the vendor file opens and holds 0x1002. */
  function IsAmdDevice(fs: SysFs, card: string): (r: bool)
    ensures r <==> ReadHex(fs, DevicePath(card, "vendor")) == Some(AMD_PCI_VENDOR)
  {
    match ReadHex(fs, DevicePath(card, "vendor"))
    case None => false
    case Some(v) => v == AMD_PCI_VENDOR
  }

  /** The test the count and info loops apply to each directory entry. */
  function AmdCard(fs: SysFs): string -> bool {
    name => IsCardName(name) && IsAmdDevice(fs, CardPath(name))
  }

  /**
   * `read_sysfs_long`: the leading `%ld` of the file, or -1 when the file
   * does not open or does not start with a number.
   */
  function ReadSysfsLong(fs: SysFs, path: string): (r: int)
    ensures path !in fs.files || ScanDecimal(fs.files[path]).None? ==> r == -1
    ensures path in fs.files && ScanDecimal(fs.files[path]).Some? ==> r == ScanDecimal(fs.files[path]).value.value
  {
    if path !in fs.files then -1
    else
      match ScanDecimal(fs.files[path])
      case None => -1
      case Some(d) => d.value
  }

  /** A file holding a printed number reads back as that number. */
  lemma ReadSysfsLongPrinted(fs: SysFs, path: string, n: int)
    requires path in fs.files && fs.files[path] == IntToDecimal(n) + "\n"
    ensures ReadSysfsLong(fs, path) == n
  {
    DecimalPrefix(n, "\n");
  }

  /**
   * `read_sysfs_string`: the first line `fgets` reads into a buffer of
   * `size`, without its trailing newline; None when the file does not open
   * or is empty.
   */
  function ReadSysfsString(fs: SysFs, path: string, size: nat): (r: Option<string>)
    requires size >= 2
    ensures r.Some? <==> path in fs.files && |fs.files[path]| > 0
    ensures r.Some? ==> |r.value| < size && r.value <= fs.files[path]
  {
    if path !in fs.files then None
    else
      match FirstFgetsLine(fs.files[path], size)
      case None => None
      case Some(line) => Some(StripNewline(line))
  }

  /** A file whose first line is short is read as that line. */
  lemma ReadSysfsStringLine(fs: SysFs, path: string, size: nat, line: string, rest: string)
    requires size >= 2 && |line| + 1 < size
    requires forall k :: 0 <= k < |line| ==> line[k] != '\n'
    requires path in fs.files && fs.files[path] == line + "\n" + rest
    ensures ReadSysfsString(fs, path, size) == Some(line)
  {
    FirstLineRead(line, rest, size);
  }

  // ---------------------------------------------------------------------
  // Line parsers
  // ---------------------------------------------------------------------

  const SLOT_KEY := "PCI_SLOT_NAME="

  /** A uevent line naming the PCI slot: the text after the key. */
  function SlotName(line: string): (r: Option<string>)
    ensures r.Some? <==> SLOT_KEY <= line
    ensures r.Some? ==> line == SLOT_KEY + r.value
  {
    if SLOT_KEY <= line then Some(line[|SLOT_KEY|..]) else None
  }

  /**
   * `sscanf(line, "%*d: %uMhz", &mhz) == 1`: a decimal number, a colon right
   * after it, then an unsigned number; the text after the number (the "Mhz"
   * of the format) is never checked.
   */
  function DpmClock(line: string): (r: Option<UInt32>)
    ensures r.Some? ==> ScanDecimal(line).Some?
  {
    match ScanDecimal(line)
    case None => None
    case Some(d) => ClockAfterColon(d.rest)
  }

  /** The `: %u` part of the format: a colon right away, then an unsigned number. */
  function ClockAfterColon(rest: string): (r: Option<UInt32>)
    ensures r.Some? ==> |rest| > 0 && rest[0] == ':' && ScanUnsigned(rest[1..]).Some?
  {
    if |rest| > 0 && rest[0] == ':' then
      match ScanUnsigned(rest[1..])
      case None => None
      case Some(u) => Some(u.value)
    else None
  }

  /** After the level and its colon, the clock is what `%u` reads from the rest of the line. */
  lemma DpmClockAfterLevel(line: string, clock: string)
    requires ScanDecimal(line).Some? && ScanDecimal(line).value.rest == ": " + clock
    ensures DpmClock(line) == if ScanUnsigned(clock).Some? then Some(ScanUnsigned(clock).value.value) else None
  {
    ClockAfterColonSpace(clock);
  }

  /** The space after the colon is skipped by `%u`. */
  lemma ClockAfterColonSpace(clock: string)
    ensures ClockAfterColon(": " + clock) ==
      if ScanUnsigned(clock).Some? then Some(ScanUnsigned(clock).value.value) else None
  {
    var rest := ": " + clock;
    assert rest[0] == ':' && rest[1..] == " " + clock;
    ScanDecimalAfterSpace(clock);
  }

  /** One space before a number changes nothing `%d` reads. */
  lemma ScanDecimalAfterSpace(x: string)
    ensures ScanDecimal(" " + x) == ScanDecimal(x)
  {
    assert (" " + x)[0] == ' ' && (" " + x)[1..] == x;
    assert SkipSpace(" " + x) == SkipSpace(x);
  }

  /** A pp_dpm line "level: clock" reads as its clock, whatever follows the clock's digits. */
  lemma DpmClockPrinted(level: int, mhz: UInt32, rest: string)
    requires rest == [] || !IsDigit(rest[0])
    ensures DpmClock(IntToDecimal(level) + ": " + IntToDecimal(mhz) + rest) == Some(mhz)
  {
    var clock := IntToDecimal(mhz) + rest;
    assert IntToDecimal(level) + ": " + IntToDecimal(mhz) + rest == IntToDecimal(level) + ": " + clock;
    LevelPrinted(level, clock);
    DpmClockAfterLevel(IntToDecimal(level) + ": " + clock, clock);
    UnsignedPrinted(mhz, rest);
  }

  /** The level of a printed line reads back, leaving the colon and the clock. */
  lemma LevelPrinted(level: int, clock: string)
    ensures ScanDecimal(IntToDecimal(level) + ": " + clock) == Some(Scanned(level, ": " + clock))
  {
    assert IntToDecimal(level) + ": " + clock == IntToDecimal(level) + (": " + clock);
    DecimalPrefix(level, ": " + clock);
  }

  /** The line the clock scan stops at: one holding '*' whose clock parses. */
  function MarkedClock(line: string): (r: Option<UInt32>)
    ensures r.Some? ==> '*' in line && r == DpmClock(line)
    ensures '*' in line ==> r == DpmClock(line)
  {
    if '*' in line then DpmClock(line) else None
  }

  /** `v` when it is at least `minimum`: the test each hwmon probe applies. */
  function AtLeast(minimum: int): int -> Option<int> {
    v => if v >= minimum then Some(v) else None
  }

  // ---------------------------------------------------------------------
  // The card's record
  // ---------------------------------------------------------------------

  /** The name: product_name, else model, else "AMD GPU <index>". */
  function CardName(fs: SysFs, card: string, index: Int32): (s: NameText)
    ensures ReadSysfsString(fs, DevicePath(card, "product_name"), NAME_SIZE).Some? ==>
      s == ReadSysfsString(fs, DevicePath(card, "product_name"), NAME_SIZE).value
    ensures (ReadSysfsString(fs, DevicePath(card, "product_name"), NAME_SIZE).None?
      && ReadSysfsString(fs, DevicePath(card, "model"), NAME_SIZE).Some?) ==>
      s == ReadSysfsString(fs, DevicePath(card, "model"), NAME_SIZE).value
    ensures (ReadSysfsString(fs, DevicePath(card, "product_name"), NAME_SIZE).None?
      && ReadSysfsString(fs, DevicePath(card, "model"), NAME_SIZE).None?) ==>
      s == "AMD GPU " + IntToDecimal(index)
  {
    match ReadSysfsString(fs, DevicePath(card, "product_name"), NAME_SIZE)
    case Some(n) => n
    case None =>
      match ReadSysfsString(fs, DevicePath(card, "model"), NAME_SIZE)
      case Some(n) => n
      case None => Labelled("AMD GPU ", index, NAME_SIZE)
  }

  /** The lines the `fgets` loop reads from the file at `path`, in order; none when it does not open. */
  function FileLines(fs: SysFs, path: string): (lines: seq<string>)
    ensures path !in fs.files ==> lines == []
    ensures path in fs.files ==> Concat(lines) == fs.files[path]
    ensures forall k :: 0 <= k < |lines| ==> 0 < |lines[k]| < LINE_SIZE
  {
    if path in fs.files then
      FgetsLinesConcat(fs.files[path], LINE_SIZE);
      FgetsLines(fs.files[path], LINE_SIZE)
    else []
  }

  /** The device id the UUID carries: the file's `%x`, or 0 when it does not open or parse. */
  function DeviceId(fs: SysFs, card: string): UInt32 {
    ReadHex(fs, DevicePath(card, "device")).GetOr(0)
  }

  /** `"AMD-Linux-0x%04X-%d"` of the device id and the index. */
  function CardUuid(fs: SysFs, card: string, index: Int32): (s: UuidText)
    ensures s == "AMD-Linux-0x" + Hex4(DeviceId(fs, card)) + "-" + IntToDecimal(index)
  {
    DecimalLengthInt32(index);
    UuidFits("AMD-Linux-0x", DeviceId(fs, card), "-" + IntToDecimal(index));
    "AMD-Linux-0x" + Hex4(DeviceId(fs, card)) + "-" + IntToDecimal(index)
  }

  /** A short prefix, an id in `%04X` and a short suffix fit the UUID buffer. */
  lemma UuidFits(prefix: string, id: UInt32, suffix: string)
    requires |prefix| <= 16 && |suffix| <= 12
    ensures |prefix + Hex4(id) + suffix| < UUID_SIZE
  {
    Hex4Length32(id);
  }

  /** What the uevent scan leaves in the PCI bus id: the first slot line's value, cut and without newline, or "". */
  function UeventSlot(fs: SysFs, card: string): (s: string)
    ensures |s| < PCI_BUS_ID_SIZE
    ensures var lines := FileLines(fs, DevicePath(card, "uevent"));
      forall k :: 0 <= k < |lines| && SlotName(lines[k]).Some? && (forall j :: 0 <= j < k ==> SlotName(lines[j]).None?) ==>
        s == StripNewline(Bounded(SlotName(lines[k]).value, PCI_BUS_ID_SIZE))
    ensures var lines := FileLines(fs, DevicePath(card, "uevent"));
      (forall k :: 0 <= k < |lines| ==> SlotName(lines[k]).None?) ==> s == ""
  {
    match FirstValue(FileLines(fs, DevicePath(card, "uevent")), SlotName)
    case None => ""
    case Some(v) => StripNewline(Bounded(v, PCI_BUS_ID_SIZE))
  }

  /** The PCI bus id: the uevent slot name, or "PCI:<index>" when that is empty. */
  function CardPciBusId(fs: SysFs, card: string, index: Int32): (s: PciText)
    ensures UeventSlot(fs, card) != "" ==> s == UeventSlot(fs, card)
    ensures UeventSlot(fs, card) == "" ==> s == "PCI:" + IntToDecimal(index)
  {
    var slot := UeventSlot(fs, card);
    if slot == "" then Labelled("PCI:", index, PCI_BUS_ID_SIZE) else slot
  }

  /** A uevent file whose first line names the slot gives that slot as the bus id. */
  lemma SlotFromFirstLine(fs: SysFs, card: string, index: Int32, slot: string, rest: string)
    requires 0 < |slot| && |slot| + 1 < PCI_BUS_ID_SIZE
    requires forall k :: 0 <= k < |slot| ==> slot[k] != '\n'
    requires DevicePath(card, "uevent") in fs.files
    requires fs.files[DevicePath(card, "uevent")] == SLOT_KEY + slot + "\n" + rest
    ensures CardPciBusId(fs, card, index) == slot
  {
    var content := SLOT_KEY + slot + "\n" + rest;
    var line := SLOT_KEY + slot;
    assert content == line + "\n" + rest;
    PieceThroughNewline(line, rest, LINE_SIZE - 1);
    var lines := FgetsLines(content, LINE_SIZE);
    assert lines[0] == content[..|line| + 1];
    assert lines[0] == SLOT_KEY + (slot + "\n");
    assert SLOT_KEY <= lines[0];
    assert SlotName(lines[0]) == Some(slot + "\n");
    assert FirstSome(lines, SlotName) == Some(0);
    assert Bounded(slot + "\n", PCI_BUS_ID_SIZE) == slot + "\n";
  }

  /**
   * The memory fields from the two byte counts (-1 when unreadable): total
   * and used in MB (through an `int32_t` cast) when their reads are
   * positive, and free only when the used read is positive and the total is
   * at least 1 MB.
   */
  function CardMemory(totalRead: int, usedRead: int): (m: MemoryMb)
    ensures totalRead <= 0 ==> m.total == 0
    ensures 0 < totalRead && totalRead / MIB < TWO_31 ==> m.total == totalRead / MIB
    ensures 0 < usedRead && usedRead / MIB < TWO_31 ==> m.used == usedRead / MIB
    ensures usedRead <= 0 || m.total == 0 ==> m.free == 0
    ensures m.free != 0 ==> totalRead > 0 && usedRead > 0
    ensures 0 < usedRead <= totalRead && totalRead / MIB < TWO_31 && m.total > 0 ==>
      m.used + m.free == m.total
  {
    var total := Megabytes(totalRead);
    var used := Megabytes(usedRead);
    if usedRead > 0 && total > 0 then
      DivMonotone(usedRead, totalRead, MIB);
      MemoryMb(total, used, ToU64(total - used))
    else MemoryMb(total, used, 0)
  }

  /** A positive byte reading in MB, through the `int32_t` cast the code stores it with; 0 otherwise. */
  function Megabytes(read: int): (mb: UInt64)
    ensures read <= 0 ==> mb == 0
    ensures 0 < read && read / MIB < TWO_31 ==> mb == read / MIB
  {
    if read > 0 then ToU64(ToI32(read / MIB)) else 0
  }

  /** The memory utilisation, set together with the free memory and otherwise 0. */
  function CardMemoryUtilization(totalRead: int, usedRead: int): (u: real)
    ensures var m := CardMemory(totalRead, usedRead);
      u == if usedRead > 0 && m.total > 0 then m.used as real / m.total as real * 100.0 else 0.0
  {
    var m := CardMemory(totalRead, usedRead);
    if usedRead > 0 && m.total > 0 then m.used as real / m.total as real * 100.0 else 0.0
  }

  /** The path of one hwmon probe. */
  function HwmonPath(card: string, hwmon: nat, leaf: string): string {
    DevicePath(card, "hwmon/hwmon" + IntToDecimal(hwmon) + "/" + leaf)
  }

  /** The readings of hwmon0 to hwmon3, in the order they are probed. */
  function HwmonReadings(fs: SysFs, card: string, leaf: string): (rs: seq<int>)
    ensures |rs| == 4 && forall k :: 0 <= k < 4 ==> rs[k] == ReadSysfsLong(fs, HwmonPath(card, k, leaf))
  {
    seq(4, k requires 0 <= k < 4 => ReadSysfsLong(fs, HwmonPath(card, k, leaf)))
  }

  /** The first hwmon reading of at least `minimum`, or None when no probe has one. */
  function Probe(fs: SysFs, card: string, leaf: string, minimum: int): (r: Option<int>)
    ensures r.Some? ==> r.value >= minimum
  {
    FirstValue(HwmonReadings(fs, card, leaf), AtLeast(minimum))
  }

  /**
   * The probe stops at the first of hwmon0 to hwmon3 whose reading is at
   * least `minimum`, and finds nothing only when no reading is.
   */
  lemma ProbeFindsFirst(fs: SysFs, card: string, leaf: string, minimum: int)
    ensures Probe(fs, card, leaf, minimum).Some? ==> exists k ::
      && 0 <= k < 4
      && Probe(fs, card, leaf, minimum).value == ReadSysfsLong(fs, HwmonPath(card, k, leaf))
      && (forall j :: 0 <= j < k ==> ReadSysfsLong(fs, HwmonPath(card, j, leaf)) < minimum)
    ensures Probe(fs, card, leaf, minimum).None? ==>
      forall k :: 0 <= k < 4 ==> ReadSysfsLong(fs, HwmonPath(card, k, leaf)) < minimum
  {
    var rs := HwmonReadings(fs, card, leaf);
    var f := AtLeast(minimum);
    var first := FirstSome(rs, f);
    if first.Some? {
      var k := first.value;
      assert f(rs[k]).Some?;
      forall j | 0 <= j < k
        ensures rs[j] < minimum
      {
        assert f(rs[j]).None?;
      }
    } else {
      forall k | 0 <= k < 4
        ensures rs[k] < minimum
      {
        assert f(rs[k]).None?;
      }
    }
  }

  /** The clock of the first '*'-marked line of a pp_dpm file that parses, or 0. */
  function DpmCurrentClock(fs: SysFs, card: string, leaf: string): (c: UInt32)
    ensures DevicePath(card, leaf) !in fs.files ==> c == 0
    ensures var lines := FileLines(fs, DevicePath(card, leaf));
      forall k :: 0 <= k < |lines| && IsClockLine(lines[k]) && (forall j :: 0 <= j < k ==> !IsClockLine(lines[j])) ==>
        c == DpmClock(lines[k]).value
    ensures var lines := FileLines(fs, DevicePath(card, leaf));
      (forall k :: 0 <= k < |lines| ==> !IsClockLine(lines[k])) ==> c == 0
  {
    var lines := FileLines(fs, DevicePath(card, leaf));
    MarkedClockLines(lines);
    FirstValue(lines, MarkedClock).GetOr(0)
  }

  /** A line the clock scan accepts: it holds '*' and its clock parses. */
  predicate IsClockLine(line: string) {
    '*' in line && DpmClock(line).Some?
  }

  /** The lines MarkedClock gives a value for are the clock lines, and the value is their clock. */
  lemma MarkedClockLines(lines: seq<string>)
    ensures forall k :: 0 <= k < |lines| ==> (MarkedClock(lines[k]).Some? <==> IsClockLine(lines[k]))
    ensures forall k :: 0 <= k < |lines| && IsClockLine(lines[k]) ==> MarkedClock(lines[k]) == DpmClock(lines[k])
  {
  }

  /** The name, UUID and PCI bus id of the card, written into `r`. */
  function WithIdentity(fs: SysFs, card: string, index: Int32, r: GpuInfo): GpuInfo {
    r.(name := CardName(fs, card, index), uuid := CardUuid(fs, card, index), pciBusId := CardPciBusId(fs, card, index))
  }

  /** The memory fields and the GPU utilisation (set when gpu_busy_percent reads as at least 0), written into `r`. */
  function WithMemory(fs: SysFs, card: string, r: GpuInfo): GpuInfo {
    var totalRead := ReadSysfsLong(fs, DevicePath(card, "mem_info_vram_total"));
    var usedRead := ReadSysfsLong(fs, DevicePath(card, "mem_info_vram_used"));
    var mem := CardMemory(totalRead, usedRead);
    var busy := ReadSysfsLong(fs, DevicePath(card, "gpu_busy_percent"));
    r.(memoryTotal := mem.total, memoryUsed := mem.used, memoryFree := mem.free,
       memoryUtilization := CardMemoryUtilization(totalRead, usedRead),
       gpuUtilization := if busy >= 0 then busy as real else r.gpuUtilization)
  }

  /**
   * The sensor fields, written into `r`: temperature in degrees (from
   * millidegrees), power in watts (from microwatts), the marked clocks, and
   * the fan duty cycle as a percentage of 255.
   */
  function WithSensors(fs: SysFs, card: string, r: GpuInfo): GpuInfo {
    r.(temperature := Scaled(Probe(fs, card, "temp1_input", 1), 1000.0, r.temperature),
       powerUsage := Scaled(Probe(fs, card, "power1_average", 1), 1000000.0, r.powerUsage),
       coreClock := DpmCurrentClock(fs, card, "pp_dpm_sclk"),
       memoryClock := DpmCurrentClock(fs, card, "pp_dpm_mclk"),
       fanSpeed := DutyPercent(Probe(fs, card, "pwm1", 0), r.fanSpeed))
  }

  /** A probe's reading divided by `unit`, or `otherwise` when the probe found nothing. */
  function Scaled(reading: Option<int>, unit: real, otherwise: real): real
    requires unit > 0.0
  {
    if reading.Some? then reading.value as real / unit else otherwise
  }

  /** A PWM duty cycle out of 255 as a percentage, or `otherwise` when the probe found nothing. */
  function DutyPercent(pwm: Option<int>, otherwise: real): real {
    if pwm.Some? then pwm.value as real / 255.0 * 100.0 else otherwise
  }

  /** The record `amd_linux_get_gpu_info` fills for the card at `card`, GPU `index`. */
  function CardRecord(fs: SysFs, card: string, index: Int32): (r: GpuInfo)
    ensures r.index == index && r.vendor == Amd
    ensures r.name == CardName(fs, card, index)
    ensures r.uuid == CardUuid(fs, card, index)
    ensures r.pciBusId == CardPciBusId(fs, card, index)
    ensures MemoryMb(r.memoryTotal, r.memoryUsed, r.memoryFree)
      == CardMemory(ReadSysfsLong(fs, DevicePath(card, "mem_info_vram_total")),
                    ReadSysfsLong(fs, DevicePath(card, "mem_info_vram_used")))
    ensures r.memoryUtilization == CardMemoryUtilization(
      ReadSysfsLong(fs, DevicePath(card, "mem_info_vram_total")),
      ReadSysfsLong(fs, DevicePath(card, "mem_info_vram_used")))
    ensures var busy := ReadSysfsLong(fs, DevicePath(card, "gpu_busy_percent"));
      r.gpuUtilization == if busy >= 0 then busy as real else 0.0
    ensures var t := Probe(fs, card, "temp1_input", 1);
      r.temperature == if t.Some? then t.value as real / 1000.0 else 0.0
    ensures var p := Probe(fs, card, "power1_average", 1);
      r.powerUsage == if p.Some? then p.value as real / 1000000.0 else 0.0
    ensures var pwm := Probe(fs, card, "pwm1", 0);
      r.fanSpeed == if pwm.Some? then pwm.value as real / 255.0 * 100.0 else 0.0
    ensures r.coreClock == DpmCurrentClock(fs, card, "pp_dpm_sclk")
    ensures r.memoryClock == DpmCurrentClock(fs, card, "pp_dpm_mclk")
  {
    WithSensors(fs, card, WithMemory(fs, card, WithIdentity(fs, card, index, Cleared(index, Amd))))
  }

  /** What `amd_linux_get_gpu_count` answers: an unreadable directory is an API failure with 0. */
  function CountSpec(fs: SysFs): (r: CountReply)
    ensures fs.drm.None? ==> r == CountReply(ApiFailed, 0)
    ensures fs.drm.Some? ==> r.err == Success && r.written == |Filter(AmdCard(fs), fs.drm.value)|
  {
    if fs.drm.None? then CountReply(ApiFailed, 0)
    else CountReply(Success, |Filter(AmdCard(fs), fs.drm.value)|)
  }

  /** What `amd_linux_get_gpu_info` answers; `buf` is the buffer before the call. */
  function InfoSpec(fs: SysFs, index: Int32, buf: GpuInfo): (r: InfoReply)
    ensures fs.drm.None? ==> r == InfoReply(ApiFailed, buf)
    ensures fs.drm.Some? ==> (r.err == Success <==> 0 <= index < |Filter(AmdCard(fs), fs.drm.value)|)
    ensures fs.drm.Some? && r.err != Success ==> r == InfoReply(InvalidParam, buf)
    ensures r.err == Success ==> r.record.index == index && r.record.vendor == Amd
  {
    if fs.drm.None? then InfoReply(ApiFailed, buf)
    else
      var cards := Filter(AmdCard(fs), fs.drm.value);
      if index < 0 || index >= |cards| then InfoReply(InvalidParam, buf)
      else InfoReply(Success, CardRecord(fs, CardPath(cards[index]), index))
  }

  // ---------------------------------------------------------------------
  // The entry points
  // ---------------------------------------------------------------------

  /** `amd_linux_get_gpu_count`: the number of AMD cards in the listing. */
  method Count(fs: SysFs) returns (r: CountReply)
    ensures r == CountSpec(fs)
  {
    if fs.drm.None? {
      return CountReply(ApiFailed, 0);
    }
    var entries := fs.drm.value;
    var p := AmdCard(fs);
    var amdCount := 0;
    var i := 0;
    while i < |entries|
      invariant 0 <= i <= |entries|
      invariant amdCount == |Filter(p, entries[..i])|
    {
      FilterStep(p, entries, i);
      if p(entries[i]) {
        amdCount := amdCount + 1;
      }
      i := i + 1;
    }
    assert entries[..i] == entries;
    r := CountReply(Success, amdCount);
  }

  /** The selection loop: the index-th entry `p` accepts, in listing order. */
  method SelectCard(entries: Entries, p: string -> bool, index: Int32) returns (found: Option<string>)
    ensures found.Some? <==> 0 <= index < |Filter(p, entries)|
    ensures found.Some? ==> found.value == Filter(p, entries)[index]
  {
    var currentIndex := 0;
    var i := 0;
    found := None;
    while i < |entries|
      invariant 0 <= i <= |entries|
      invariant currentIndex == |Filter(p, entries[..i])|
      invariant index < 0 || currentIndex <= index
    {
      FilterStep(p, entries, i);
      if p(entries[i]) {
        if currentIndex == index {
          SelectAt(p, entries, i, index as nat);
          return Some(entries[i]);
        }
        currentIndex := currentIndex + 1;
      }
      i := i + 1;
    }
    assert entries[..i] == entries;
  }

  /** The uevent scan: the first PCI_SLOT_NAME line's value, cut to the bus id's size, without newline. */
  method ReadSlot(fs: SysFs, card: string) returns (slot: string)
    ensures slot == UeventSlot(fs, card)
  {
    slot := "";
    var line := FindFirst(FileLines(fs, DevicePath(card, "uevent")), SlotName);
    if line.Some? {
      slot := StripNewline(Bounded(line.value, PCI_BUS_ID_SIZE));
    }
  }

  /** One hwmon probe loop: hwmon0 to hwmon3 in turn, stopping at the first reading of at least `minimum`. */
  method ProbeHwmon(fs: SysFs, card: string, leaf: string, minimum: int) returns (r: Option<int>)
    ensures r == Probe(fs, card, leaf, minimum)
  {
    r := FindFirst(HwmonReadings(fs, card, leaf), AtLeast(minimum));
  }

  /** One pp_dpm scan: the clock of the first marked line that parses, or 0. */
  method ReadDpmClock(fs: SysFs, card: string, leaf: string) returns (c: UInt32)
    ensures c == DpmCurrentClock(fs, card, leaf)
  {
    c := 0;
    var clock := FindFirst(FileLines(fs, DevicePath(card, leaf)), MarkedClock);
    if clock.Some? {
      c := clock.value;
    }
  }

  /** Fills the name, UUID and PCI bus id. */
  method ReadIdentity(fs: SysFs, card: string, index: Int32, r: GpuInfo) returns (info: GpuInfo)
    ensures info == WithIdentity(fs, card, index, r)
  {
    info := r.(name := CardName(fs, card, index), uuid := CardUuid(fs, card, index));
    var slot := ReadSlot(fs, card);
    info := info.(pciBusId := if slot == "" then Labelled("PCI:", index, PCI_BUS_ID_SIZE) else slot);
  }

  /** Fills the memory fields and the GPU utilisation. */
  method ReadMemory(fs: SysFs, card: string, r: GpuInfo) returns (info: GpuInfo)
    ensures info == WithMemory(fs, card, r)
  {
    var totalRead := ReadSysfsLong(fs, DevicePath(card, "mem_info_vram_total"));
    var usedRead := ReadSysfsLong(fs, DevicePath(card, "mem_info_vram_used"));
    var mem := CardMemory(totalRead, usedRead);
    info := r.(memoryTotal := mem.total, memoryUsed := mem.used, memoryFree := mem.free,
      memoryUtilization := CardMemoryUtilization(totalRead, usedRead));
    var busy := ReadSysfsLong(fs, DevicePath(card, "gpu_busy_percent"));
    if busy >= 0 {
      info := info.(gpuUtilization := busy as real);
    }
  }

  /** Fills the sensor fields: hwmon probes and pp_dpm scans. */
  method ReadSensors(fs: SysFs, card: string, r: GpuInfo) returns (info: GpuInfo)
    ensures info == WithSensors(fs, card, r)
  {
    var temp := ProbeHwmon(fs, card, "temp1_input", 1);
    var power := ProbeHwmon(fs, card, "power1_average", 1);
    var coreClock := ReadDpmClock(fs, card, "pp_dpm_sclk");
    var memoryClock := ReadDpmClock(fs, card, "pp_dpm_mclk");
    var pwm := ProbeHwmon(fs, card, "pwm1", 0);
    info := r.(temperature := Scaled(temp, 1000.0, r.temperature),
      powerUsage := Scaled(power, 1000000.0, r.powerUsage),
      coreClock := coreClock, memoryClock := memoryClock,
      fanSpeed := DutyPercent(pwm, r.fanSpeed));
  }

  /** Reads the selected card's files into a cleared record. */
  method ReadCard(fs: SysFs, card: string, index: Int32) returns (info: GpuInfo)
    ensures info == CardRecord(fs, card, index)
  {
    info := Cleared(index, Amd);
    info := ReadIdentity(fs, card, index, info);
    info := ReadMemory(fs, card, info);
    info := ReadSensors(fs, card, info);
  }

  /**
   * `amd_linux_get_gpu_info`: the index-th AMD card in listing order, its
   * record cleared and read from its files; a negative or too large index
   * leaves the buffer alone.
   */
  method Info(fs: SysFs, index: Int32, buf: GpuInfo) returns (r: InfoReply)
    ensures r == InfoSpec(fs, index, buf)
  {
    if fs.drm.None? {
      return InfoReply(ApiFailed, buf);
    }
    var found := SelectCard(fs.drm.value, AmdCard(fs), index);
    if found.None? {
      return InfoReply(InvalidParam, buf);
    }
    var record := ReadCard(fs, CardPath(found.value), index);
    r := InfoReply(Success, record);
  }
}
