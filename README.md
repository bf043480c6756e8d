# node-gpu core, modelled in Dafny

node-gpu is a Node.js native addon that reports the GPUs of the machine it
runs on. A C library (`gpu_info`) keeps one global "initialised" flag. It
asks up to three vendor backends (NVIDIA, AMD, Intel) how many GPUs each
sees, and sums their counts. It routes a flat GPU index to the backend that
owns it, at a local index. Each backend fills a fixed-layout record: name,
UUID, PCI bus id, memory in MB, and telemetry. A thin N-API layer exposes
this to JavaScript as `initialize`, `cleanup`, `getGpuCount`, `getGpuInfo`
and `getAllGpuInfo`.

This project models that core.

- **Data model.** `GpuTypes` holds the vendor enum, the error codes and the
  record with its bounded text fields.
- **Dispatcher.** `Dispatcher` models the flag as the class `GpuLibrary`.
  It also holds the count summation and the index routing, with its inverse.
- **JavaScript layer.** `Binding` models the shape logic of the addon.
- **Backends.** There is one module per backend:
  - AMD on Windows: the ADLX → DXGI → placeholder strategy memoised in the
    class `AmdWindowsBackend`.
  - NVIDIA on Linux: the NVML loader, the class `NvmlLoader`. A successful
    load is kept until cleanup; a failed one is retried on every call. The
    record's memory clock is what NVML answers for clock type 1, which
    NVML's own enumeration names the SM clock (its memory clock is type 2);
    the model keeps type 1, as the code asks for it.
  - AMD on Linux: sysfs scanning.
  - Intel on Windows: SetupAPI scanning.
  - AMD on macOS: IOKit scanning.
  - `Stubs`: the constant backends for NVIDIA on macOS and Intel on Linux.
- **Composition.** `Platforms` plugs concrete backends into the dispatcher.
  It proves what a global index reaches on a Linux and a macOS build.
- **C and libc semantics.** `CInt` (casts, wrap-around, truncating
  division), `Text` (`strncpy`/`snprintf` truncation, `%d`/`%u`/`%x`
  scanning, `%d`/`%04X` printing, `fgets` line chunking) and `Seqs`
  (filtering and "n-th match") are the shared vocabulary.

Everything outside the process becomes a value the operations take as a
parameter:

| What the backend asks | Modelled as |
|---|---|
| sysfs | a directory listing plus a path → contents map |
| DXGI | an adapter sequence |
| SetupAPI | a device sequence with optional registry properties |
| IOKit | a service sequence |
| `dlopen`/NVML | a map from library path to exported symbols, plus per-device optional answers |
| ADLX | an optional GPU list with optional per-GPU properties |

A backend, as the dispatcher sees it, is a pair:

- `CountReply(err, written)`: the code and the value left in the caller's
  zero-initialised count variable.
- `info`: a function from index and prior buffer to `InfoReply(err, record)`,
  the code and the buffer afterwards.

So "the record is left untouched" and "the record is cleared first" are
both visible in the model.

`gpu_get_info` does not reject a negative index. It passes the
`index < nvidia_count` test and is forwarded to the NVIDIA backend as it
is, so `RouteIndex` routes it to NVIDIA unchanged.

## Model

| member | source | states |
|---|---|---|
| GpuTypes.Vendor.Code | src/gpu_info.h:12-17 | vendor codes are 0..3 and decode back to the same vendor |
| GpuTypes.VendorFromCode | src/gpu_info.h:12-17 | exactly the codes 0..3 name a vendor |
| GpuTypes.VendorCodeRoundTrip | src/gpu_info.h:12-17 | decoding a valid code and encoding it again gives the code |
| GpuTypes.ErrorCode.Code | src/gpu_info.h:51-58 | success is 0, every error a distinct code in -5..-1 (distinct because each decodes back to itself) |
| GpuTypes.ErrorFromCode | src/gpu_info.h:51-58 | exactly the codes -5..0 name an error code |
| GpuTypes.Cleared | src/gpu_info.h:20-48 | a `memset` record with index and vendor set: empty strings, zero figures |
| CInt.ToU32 | src/linux/nvidia_linux.c:119 | a conversion to `unsigned int` is congruent modulo 2^32 and the identity in range |
| CInt.ToI32 | src/linux/nvidia_linux.c:106 | a conversion to `int32_t` is congruent modulo 2^32 and the identity in range |
| CInt.TruncDiv | src/windows/amd_windows.c:299 | C's signed division truncates toward zero |
| CInt.ToI32Add | src/gpu_info.c:63-73 | wrapping after each addition equals wrapping the sum once |
| Text.Bounded | src/windows/amd_windows.c:215-216 | `strncpy` into an n-byte field keeps a prefix shorter than n, the whole text when it fits |
| Text.ContainsAt | src/windows/intel_windows.c:44-45 | `strstr` finds the needle iff it starts at some position of the haystack |
| Text.StripNewline | src/linux/amd_linux.c:61-65 | at most one trailing newline is removed, and one is removed iff present |
| Text.DecimalRoundTrip | src/linux/amd_linux.c:74-83 | `%ld` reads back a printed decimal |
| Text.DecimalPrefix | src/linux/amd_linux.c:230-233 | `%d` stops at the first non-digit and leaves the rest unread |
| Text.ScanNegated | src/linux/amd_linux.c:78-79 | a minus sign before digits that `%ld` reads as m makes it read -m, with the same text left over |
| Text.PrefixedHexPrinted | src/linux/amd_linux.c:15-16 | `%x` reads "0x" and the `%04X` digits of a value as the value, leaving what follows |
| Text.Hex4RoundTrip | src/windows/amd_windows.c:232-238 | `%x` reads back what `%04X` printed |
| Text.Labelled | src/windows/intel_windows.c:118 | `snprintf("<prefix>%d")` fits its field untruncated |
| Text.FgetsLinesConcat | src/linux/amd_linux.c:228-254 | the `fgets` pieces of a file, concatenated, are the file |
| Text.FirstLineRead | src/linux/amd_linux.c:153-160 | the first `fgets` of a short line returns that line with its newline |
| Seqs.FilterStep | src/linux/amd_linux.c:36-49 | the matches among the first i+1 entries are those among the first i, plus entry i if it matches |
| Seqs.SelectAt | src/linux/amd_linux.c:97-114 | an entry that matches after exactly n earlier matches is the n-th match |
| Seqs.FirstValue | src/linux/amd_linux.c:228-236 | the answer for the first entry that has one, none iff no entry has one |
| Seqs.FindFirst | src/linux/amd_linux.c:201-208 | a first-hit loop returns the first entry's answer that exists, and none iff no entry has one |
| Dispatcher.GpuLibrary.constructor | src/gpu_info.c:19 | the library starts uninitialised |
| Dispatcher.GpuLibrary.Init | src/gpu_info.c:21-35 | init always succeeds and leaves the library initialised; a second init changes nothing |
| Dispatcher.GpuLibrary.Cleanup | src/gpu_info.c:37-46 | cleanup always succeeds, with or without a prior init, and leaves the library uninitialised |
| Dispatcher.GpuLibrary.GetCount | src/gpu_info.c:48-77 | before init: API failure, nothing written; NULL pointer: invalid parameter; else the `int32_t` sum of the counts of exactly the backends that succeeded, with success iff that sum is positive and "no GPU" otherwise |
| Dispatcher.AddCount | src/gpu_info.c:64-74 | adding one vendor's count to an `int32_t` total that wraps the sum so far gives a total that wraps the sum with that vendor's share (its count on success, else nothing) |
| Dispatcher.GpuLibrary.GetInfo | src/gpu_info.c:79-107 | before init or with a NULL record: invalid parameter, record untouched; else the answer of the backend the index routes to, at its local index, or invalid parameter at or beyond the total |
| Dispatcher.RouteIndex | src/gpu_info.c:93-106 | a negative index is routed to NVIDIA unchanged; an NVIDIA route keeps the index |
| Dispatcher.RouteIndexCorrect | src/gpu_info.c:93-106 | a non-negative index is unrouted iff it is at least nv+amd+intel; a routed one lies inside its vendor's slice, at its offset plus the local index |
| Dispatcher.RouteIndexInverse | src/gpu_info.c:93-106 | every (vendor, local index) inside that vendor's count is reached from offset + local |
| Dispatcher.CountAndRoutingAgree | src/gpu_info.c:57-106 | when failing backends write 0, the routing covers exactly [0, total count) and each local index is below its backend's count |
| Dispatcher.ErrorString | src/gpu_info.c:109-119 | exactly the codes outside the enum give "Unknown error" |
| Dispatcher.ErrorStringDistinct | src/gpu_info.c:109-119 | distinct error codes have distinct messages |
| Dispatcher.VendorSupported | src/gpu_info.c:121-130 | supported exactly for NVIDIA, AMD and Intel |
| Binding.VendorName | src/binding.cpp:19-24 | one of "NVIDIA", "AMD", "Intel", "Unknown"; "Unknown" iff the vendor is not supported |
| Binding.VendorNameInjective | src/binding.cpp:19-24 | a supported vendor's name is not shared by any other vendor |
| Binding.GpuInfoToObject | src/binding.cpp:12-54 | the object carries the vendor's name and every other field of the record: the three strings, index, memory, both utilisations, temperature, power, both clocks and fan speed, each unchanged |
| Binding.Int32Value | src/binding.cpp:128 | the number truncated toward zero and wrapped to `int32_t` (congruent modulo 2^32), so an integral number in range converts to itself |
| Binding.Truncated | src/binding.cpp:128 | the integer part of a number: at most its magnitude, within 1 of it, with its sign |
| Binding.Initialize | src/binding.cpp:60-72 | returns true and leaves the library initialised |
| Binding.Cleanup | src/binding.cpp:78-90 | returns true and leaves the library uninitialised |
| Binding.LoadModule | src/binding.cpp:179-191 | loading the module initialises the library, so a later `initialize()` is a no-op success |
| Binding.GetGpuCount | src/binding.cpp:96-112 | initialised: the total count, or 0 when there is no GPU; otherwise the "Failed to get GPU count" error |
| Binding.GetGpuInfo | src/binding.cpp:118-141 | a missing or non-number argument is a TypeError before the core is asked; otherwise an object iff `gpu_get_info` succeeded, built from the record it filled |
| Binding.GetAllGpuInfo | src/binding.cpp:147-174 | empty unless the count call succeeds with a positive count; otherwise exactly count slots, slot i null iff `gpu_get_info(i)` fails |
| AmdWindows.AmdAdapters | src/windows/amd_windows.c:132-153 | the second pass keeps the AMD adapters in order, each with its enumeration position, and as many as the first pass counted |
| AmdWindows.DxgiAdapters | src/windows/amd_windows.c:92-160 | success iff the factory is created, some adapter is AMD and the array is allocated; otherwise not-supported (no AMD adapter) or API failure, with no list |
| AmdWindows.CountAmdAdapters | src/windows/amd_windows.c:107-116 | the first pass counts the adapters with vendor id 0x1002 |
| AmdWindows.CopyAmdAdapters | src/windows/amd_windows.c:132-153 | the second pass fills the array with exactly the AMD adapter list |
| AmdWindows.GetDxgiAdapters | src/windows/amd_windows.c:92-160 | agrees with the DXGI adapter specification |
| AmdWindows.HexField | src/windows/amd_windows.c:232-235 | a missing id string leaves the id 0 |
| AmdWindows.AdlxUuid | src/windows/amd_windows.c:222-245 | "AMD-ADLX-Unknown" without a vendor id, else an "AMD-" identifier |
| AmdWindows.AdlxMemory | src/windows/amd_windows.c:299-318 | no VRAM figure, or under 1 MB: 8192/2048/6144; otherwise used is the VRAM in MB, total four times that, free the difference; used + free = total (mod 2^64) always |
| AmdWindows.AdlxRecord | src/windows/amd_windows.c:207-325 | index, vendor AMD, the ADLX name (bounded) or "AMD GPU", the UUID, "PCI:<index>", the derived memory; each telemetry field is its metric's reading when that getter succeeded (clocks as `uint32_t`) and 0 otherwise, so all zero without metrics |
| AmdWindows.AdlxUtilizationQuarter | src/windows/amd_windows.c:321-325 | the memory utilisation comes out at 25% whenever VRAM use is not negative |
| AmdWindows.AdlxMemoryQuarter | src/windows/amd_windows.c:310-325 | for a missing or non-negative VRAM reading, used over total is exactly a quarter, so the utilisation is 25% |
| AmdWindows.DxgiRecord | src/windows/amd_windows.c:358-382 | the adapter description (bounded) as name; total is dedicated bytes div 2^20, used is total div 4, free the rest; "AMD-DXGI-<index>", "PCI:<enumeration position>", 25% and zero telemetry |
| AmdWindows.DxgiMemory | src/windows/amd_windows.c:371-373 | used is a quarter of total (rounded down) and used + free = total; total is the dedicated bytes in MB when that fits an `int32_t` |
| AmdWindows.PlaceholderInfo | src/windows/amd_windows.c:390-415 | succeeds for index 0 only, with the fixed placeholder record (its name, "AMD-Windows-Placeholder", "PCI:0", 8192 MB); any other index is invalid with the buffer untouched |
| AmdWindows.PlaceholderRecord | src/windows/amd_windows.c:395-413 | the fixed record: "PCI:0", 8192/2048/6144 MB, a 25% utilisation that is used over total, GPU 15%, 65 °C, 120 W, 1800/2000 MHz, fan 45% |
| AmdWindows.Selected | src/windows/amd_windows.c:163-179 | ADLX iff it loads, else DXGI iff an AMD adapter exists, else placeholder; never "none" |
| AmdWindows.CountSpec | src/windows/amd_windows.c:433-450 | ADLX: its GPU count; DXGI: the number of AMD adapters, or the DXGI error with 0; placeholder: 0 with success |
| AmdWindows.AdlxInfoSpec | src/windows/amd_windows.c:182-205 | an index outside [0, count) is invalid with the buffer untouched; inside it, the ADLX record of the GPU the list returns, or API failure with the buffer untouched when the list returns none |
| AmdWindows.DxgiInfoSpec | src/windows/amd_windows.c:334-387 | a failed enumeration returns its own code with the buffer untouched; after a successful one, success iff the index is inside the AMD adapter list, giving that adapter's record, else invalid parameter with the buffer untouched |
| AmdWindows.PlaceholderCountsNothing | src/windows/amd_windows.c:445-448 | under the placeholder strategy the count is 0 yet info for index 0 succeeds |
| AmdWindows.AmdWindowsBackend.constructor | src/windows/amd_windows.c:23-29 | no strategy selected, nothing loaded |
| AmdWindows.AmdWindowsBackend.LoadAdlx | src/windows/amd_windows.c:53-89 | already loaded: success and no change; else loaded iff the runtime loads with a non-empty GPU list, recording its size, with every handle rolled back otherwise |
| AmdWindows.AmdWindowsBackend.SelectDetectionMethod | src/windows/amd_windows.c:163-179 | returns the selected strategy; ADLX is left loaded iff it was chosen |
| AmdWindows.AmdWindowsBackend.AdlxCount | src/windows/amd_windows.c:182-193 | loads ADLX if needed, then answers its GPU count, or not-supported with 0 |
| AmdWindows.AmdWindowsBackend.AdlxInfo | src/windows/amd_windows.c:182-331 | loads ADLX if needed, then answers the ADLX info specification, or not-supported with the buffer untouched |
| AmdWindows.AmdWindowsBackend.Count | src/windows/amd_windows.c:433-450 | selects a strategy only while none is selected (so at most once until cleanup), then answers the count specification |
| AmdWindows.AmdWindowsBackend.Info | src/windows/amd_windows.c:452-468 | the same one-time selection, then the info specification of the strategy |
| AmdWindows.AmdWindowsBackend.Cleanup | src/windows/amd_windows.c:418-430 | back to no strategy, nothing loaded, GPU count 0 |
| NvidiaLinux.OpenedPath | src/linux/nvidia_linux.c:51-57 | "libnvidia-ml.so" when present, else "libnvidia-ml.so.1", else nothing |
| NvidiaLinux.Resolved | src/linux/nvidia_linux.c:59-72 | the entry points resolved are exactly the NVML functions the library exports |
| NvidiaLinux.PrimaryDecides | src/linux/nvidia_linux.c:51-54 | when the first name opens, the second library is never consulted |
| NvidiaLinux.NvmlMemoryMb | src/linux/nvidia_linux.c:169-189 | byte figures divided by 2^20, rounded down; 8192/0/8192 when the query is missing or fails |
| NvidiaLinux.NvmlMemoryRounding | src/linux/nvidia_linux.c:170-172 | when the byte figures add up, the MB figures add up to total or total - 1 |
| NvidiaLinux.NvmlName | src/linux/nvidia_linux.c:129-133 | the NVML name, else "NVIDIA GPU" |
| NvidiaLinux.NvmlUuid | src/linux/nvidia_linux.c:137-141 | the NVML UUID, else "NVIDIA-<index>" |
| NvidiaLinux.NvmlPciBusId | src/linux/nvidia_linux.c:144-165 | the NVML bus id, else "PCI:<index>" |
| NvidiaLinux.NvmlRecord | src/linux/nvidia_linux.c:123-242 | index and vendor NVIDIA, the identity fallbacks, the memory conversion; utilisation, temperature, power (in watts), both clocks and fan are NVML's answers when the entry point resolved and the query succeeded, and 0 otherwise |
| NvidiaLinux.NvmlLoader.constructor | src/linux/nvidia_linux.c:7-8 | not loaded, no handle, no entry points |
| NvidiaLinux.NvmlLoader.Load | src/linux/nvidia_linux.c:47-89 | once loaded, success with no change; else loaded iff a library opens, exports the essential entry points and initialises; otherwise not-supported with no handle |
| NvidiaLinux.NvmlLoader.Count | src/linux/nvidia_linux.c:91-108 | a load failure is count 0 with success; a failed device count is 0 with API failure; else the device count as `int32_t` |
| NvidiaLinux.NvmlLoader.Info | src/linux/nvidia_linux.c:110-245 | load failure or missing handle leaves the record untouched (not-supported / API failure); else the NVML record |
| NvidiaLinux.NvmlLoader.Cleanup | src/linux/nvidia_linux.c:248-257 | shutdown is called iff loaded with the entry point; afterwards no handle and not loaded |
| AmdLinux.IsCardName | src/linux/amd_linux.c:38-40 | "card" followed by exactly one digit |
| AmdLinux.CardNameExamples | src/linux/amd_linux.c:38-40 | "card0" and "card9" pass; "card10", "card0-DP-1" and "renderD128" do not |
| AmdLinux.ReadHex | src/linux/amd_linux.c:8-21 | a value iff the file exists and begins with a hex number, and then that number |
| AmdLinux.ReadHexPrinted | src/linux/amd_linux.c:8-21 | an id file "0x<%04X id>\n", the form sysfs writes, reads as the id |
| AmdLinux.IsAmdDevice | src/linux/amd_linux.c:8-21 | AMD iff the vendor file parses as hex and equals 0x1002 |
| AmdLinux.ReadSysfsLong | src/linux/amd_linux.c:74-83 | -1 for a missing or unparsable file, else the decimal it begins with |
| AmdLinux.ReadSysfsLongPrinted | src/linux/amd_linux.c:74-83 | a file holding a printed number and a newline reads back as that number |
| AmdLinux.ReadSysfsString | src/linux/amd_linux.c:56-72 | a text iff the file exists and is non-empty; a prefix of the file shorter than the buffer |
| AmdLinux.ReadSysfsStringLine | src/linux/amd_linux.c:56-72 | a file whose first line fits gives that line without its newline |
| AmdLinux.SlotName | src/linux/amd_linux.c:153-160 | a slot iff the line starts with "PCI_SLOT_NAME=", and it is the rest of the line |
| AmdLinux.DpmClock | src/linux/amd_linux.c:228-233 | a clock only when the line starts with a level number |
| AmdLinux.DpmClockAfterLevel | src/linux/amd_linux.c:228-233 | after "N: " the clock is the unsigned number that follows, if any |
| AmdLinux.DpmClockPrinted | src/linux/amd_linux.c:228-233 | a line "<level>: <mhz>…" yields mhz, whatever follows the digits |
| AmdLinux.MarkedClock | src/linux/amd_linux.c:228-233 | a line with '*' gives exactly its DPM clock; a line without '*' gives none |
| AmdLinux.FileLines | src/linux/amd_linux.c:150-153 | the lines the `fgets` loop reads, which concatenate to the file and fit the 256-byte buffer; none for a missing file |
| AmdLinux.CardName | src/linux/amd_linux.c:125-134 | product_name, else model, else "AMD GPU <index>" |
| AmdLinux.CardUuid | src/linux/amd_linux.c:137-145 | "AMD-Linux-0x<device %04X>-<index>" in full, for every 32-bit device id |
| AmdLinux.UeventSlot | src/linux/amd_linux.c:148-162 | the value of the first "PCI_SLOT_NAME=" line, cut to the field and without its newline; "" when no line (or no file) has one |
| AmdLinux.CardPciBusId | src/linux/amd_linux.c:148-168 | the slot name, or "PCI:<index>" when it is empty |
| AmdLinux.SlotFromFirstLine | src/linux/amd_linux.c:148-168 | a uevent file starting with "PCI_SLOT_NAME=<slot>" gives that slot as the bus id |
| AmdLinux.CardMemory | src/linux/amd_linux.c:171-186 | total and used are the byte reads in MB when positive; free is 0 unless both reads are positive; when the used read is at most the total read and the total fits an `int32_t`, used + free = total (otherwise free is computed modulo 2^64) |
| AmdLinux.CardMemoryUtilization | src/linux/amd_linux.c:180-185 | used over total in percent when the used read is positive and the total is set, else 0 |
| AmdLinux.Megabytes | src/linux/amd_linux.c:173-181 | a reading of 0 or less gives 0; a positive reading whose MB count fits an `int32_t` gives that count |
| AmdLinux.HwmonReadings | src/linux/amd_linux.c:201-208 | the probe reads hwmon0..hwmon3 in order |
| AmdLinux.Probe | src/linux/amd_linux.c:201-219 | a probe result always reaches its threshold |
| AmdLinux.ProbeFindsFirst | src/linux/amd_linux.c:201-219 | the result is the first hwmon reading reaching the threshold, and none iff no reading does |
| AmdLinux.DpmCurrentClock | src/linux/amd_linux.c:223-254 | the clock of the first line that contains '*' and parses as "N: <u>"; 0 when no line does or the file is missing |
| AmdLinux.CardRecord | src/linux/amd_linux.c:121-266 | index, vendor AMD, name, UUID, bus id, memory and memory utilisation; GPU utilisation from gpu_busy_percent when it reads as at least 0; temperature, power and fan from the first hwmon hit scaled to °C, W and percent, else 0; clocks from the marked DPM lines |
| AmdLinux.CountSpec | src/linux/amd_linux.c:23-54 | no DRM directory: API failure with 0; else the number of AMD card entries |
| AmdLinux.InfoSpec | src/linux/amd_linux.c:85-269 | no directory: API failure, buffer untouched; success iff the index is inside the AMD card list; otherwise invalid parameter, buffer untouched |
| AmdLinux.Count | src/linux/amd_linux.c:23-54 | the counting loop agrees with the count specification |
| AmdLinux.SelectCard | src/linux/amd_linux.c:97-118 | found iff the index is inside the match list, and then it is the index-th match |
| AmdLinux.ReadSlot | src/linux/amd_linux.c:148-162 | the uevent line loop gives the slot of the first matching line |
| AmdLinux.ProbeHwmon | src/linux/amd_linux.c:201-219 | the probe loop agrees with the probe specification |
| AmdLinux.ReadDpmClock | src/linux/amd_linux.c:223-254 | the DPM line loop agrees with the clock specification |
| AmdLinux.ReadIdentity | src/linux/amd_linux.c:125-168 | fills name, UUID and bus id as specified |
| AmdLinux.ReadMemory | src/linux/amd_linux.c:171-194 | fills the memory figures as specified |
| AmdLinux.ReadSensors | src/linux/amd_linux.c:199-266 | fills temperature, power, clocks and fan as specified |
| AmdLinux.ReadCard | src/linux/amd_linux.c:121-266 | clears and fills the record of the selected card |
| AmdLinux.Info | src/linux/amd_linux.c:85-269 | the info entry point agrees with the info specification |
| IntelWindows.ManufacturerSpellings | src/windows/intel_windows.c:44-45 | "Intel Corporation" and "INTEL" pass the manufacturer test |
| IntelWindows.ManufacturerCaseSensitive | src/windows/intel_windows.c:44-45 | "intel" does not: the test is case-sensitive |
| IntelWindows.DeviceName | src/windows/intel_windows.c:98-105 | the device description, else "Intel Graphics" |
| IntelWindows.DeviceUuid | src/windows/intel_windows.c:108-115 | "INTEL-<instance id>", else "INTEL-WIN-<index>" |
| IntelWindows.DeviceRecord | src/windows/intel_windows.c:98-144 | "PCI:<index>", 1024/256/768 MB and the fixed telemetry 10, 5, 45, 15, 1200, 0, 0 |
| IntelWindows.CountSpec | src/windows/intel_windows.c:15-56 | always success; 0 without a device set, else the number of devices whose manufacturer reads and names Intel |
| IntelWindows.InfoSpec | src/windows/intel_windows.c:58-157 | the record always carries index and vendor Intel; no device set: API failure; success iff the index is inside the Intel list; otherwise invalid parameter with the cleared record |
| IntelWindows.Count | src/windows/intel_windows.c:15-56 | the enumeration loop agrees with the count specification |
| IntelWindows.Info | src/windows/intel_windows.c:58-157 | the enumeration loop agrees with the info specification |
| AmdMac.ServiceName | src/macos/amd_mac.c:84-92 | the model data, else "AMD GPU <index>" |
| AmdMac.ServiceUuid | src/macos/amd_mac.c:95-102 | empty without a device id, else "AMD-macOS-0x<%04X id>" in full |
| AmdMac.ServiceUuidNamesDevice | src/macos/amd_mac.c:95-102 | the UUID's digits read back as the device id |
| AmdMac.ServiceRecord | src/macos/amd_mac.c:79-117 | the cleared record with only name, UUID and "PCI:<index>" set: every figure 0 |
| AmdMac.CountSpec | src/macos/amd_mac.c:8-47 | a failed matching call: API failure with 0; else the number of services with vendor id 0x1002 |
| AmdMac.InfoSpec | src/macos/amd_mac.c:49-131 | success iff the index is inside the AMD service list; every failure is an API failure with the buffer untouched |
| AmdMac.Count | src/macos/amd_mac.c:8-47 | the iteration loop agrees with the count specification |
| AmdMac.Info | src/macos/amd_mac.c:49-131 | the iteration loop agrees with the info specification |
| Stubs.Count | src/macos/nvidia_mac.c:8-14 | NULL pointer: invalid parameter; else 0 with success (the same code is src/linux/intel_linux.c:8-14) |
| Stubs.Info | src/linux/intel_linux.c:16-20 | NULL record: invalid parameter; else not-supported; the record is never written (the same code is src/macos/nvidia_mac.c:16-21) |
| Stubs.AsBackend | src/macos/nvidia_mac.c:8-21 | the stub as the dispatcher sees it answers exactly like its two entry points |
| Platforms.LinuxIntelNeverAsked | src/gpu_info.c:63-106 | on Linux the total is the NVIDIA contribution plus the AMD card count, and no index reaches the Intel stub |
| Platforms.AmdLinuxAnswers | src/gpu_info.c:96-99 | the AMD slot answers the AMD Linux info specification |
| Platforms.LinuxAmdSlice | src/gpu_info.c:96-99 | on Linux, global index nv + k returns the k-th AMD card's record |
| Platforms.MacGlobalIsLocal | src/gpu_info.c:93-99 | on macOS, global index i below the AMD count returns the i-th AMD service's record |

## Left out

- Operating-system and vendor calls are not modelled as code. This covers
  `opendir`/`readdir`/`fopen`/`fgets`, `dlopen`/`dlsym`, the NVML entry
  points, the ADLX interfaces, the DXGI factory, SetupAPI, IOKit and
  CoreFoundation. Their answers are parameters of the operations (see the
  table above).
- NULL out-pointers are modelled only where a caller can pass one: the
  dispatcher and the stub backends. The other backends are modelled for a
  valid pointer, which is all the dispatcher passes them.
- Floating-point conversions are modelled as exact `real` arithmetic, with
  no rounding. These are millidegrees / 1000, microwatts / 1e6,
  milliwatts / 1000, PWM / 255 · 100 and the percentages. No [0, 100]
  bound is claimed, because the code enforces none.
- `snprintf` truncation of the 512-byte path buffers is not modelled. Paths
  are assumed to fit.
- Overflow in `sscanf` `%ld`/`%u`/`%x` is not modelled. A parsed number
  keeps its mathematical value, except where the model reduces it
  explicitly.
- AmdWindows.GetDxgiAdapters: both passes see the same adapter enumeration.
  An enumeration that changes between the two passes is not modelled.
- `WideCharToMultiByte` is modelled as a bounded copy of an
  already-narrowed description.
- The ADLX metrics calls are collapsed into one optional metrics value per
  GPU, with optional fields.
- `GlobalMemoryStatusEx` in the Intel backend is not modelled. Both of its
  branches write the same figures.
- IOKit property decoding is not modelled. The vendor id and device id are
  given as numbers, and a data-typed model as its C string.
- Resource release is not modelled. This covers `free`, `Release`,
  `CFRelease`, `IOObjectRelease`, `closedir`/`fclose` and `dlclose`,
  including a model property of another type that is never released.
- Int32Value: NaN and ±Infinity, which N-API converts to 0, are not
  modelled, because JavaScript numbers are `real` here.
- GpuInfoToObject: the conversion of the `uint64_t` memory figures and the
  `uint32_t` clocks to a JavaScript `double` is exact here. Figures above
  2^53 would be rounded by the real conversion.
- AmdLinux.DpmClock: the scan for "N: <u>Mhz" succeeds once the number
  converts. The "Mhz" literal is never checked, and the model follows the
  code in this.
- `gpu_info_cleanup` does not call the backends' cleanup functions. They
  remain separate operations of their backends.
- The JavaScript object construction and exceptions are reduced to a
  returned value or a thrown kind and message. `index.js` and `example.js`
  hold only module loading and a demonstration.
- `src/vendor/nvidia.c` and `src/vendor/intel.c` are compile-time
  forwarders with a NULL check. They appear as the dispatcher's `Backend`
  value for each vendor.
- `nvidia_windows` and `intel_macos` are not part of this model, and
  neither is an AMD forwarder: only the per-platform AMD backends are.
