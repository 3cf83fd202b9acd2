# Flipper PC Monitor: sampler, frame and connection manager

This project models the host side of a PC monitor for a Flipper Zero. Once a
second the host samples its CPU, RAM and (NVIDIA) GPU. It normalises each
memory size to a value in tenths of a binary unit plus a unit label. It packs
the result into a 16-byte little-endian frame and writes the frame to the
device over USB serial. The connection manager in `main` scans the serial
ports for the device's USB identifiers (vendor 0x0483, product 0x5740). It
opens the port at 115200 baud with a 1000 ms timeout, streams frames, and
goes back to scanning when a write fails with anything other than a timeout.

Modules:

- `Wrappers`, `Ints` (prelude.dfy): `Option`, the fixed-width unsigned types,
  and the three casts the source applies. An integer `as u8` wraps. A float
  `as u8` or `as u16` saturates.
- `Units` (units.dfy): `get_exp`, `get_unit`, the four-byte unit field, and
  the value scaled to tenths of the chosen unit.
- `Snapshot` (snapshot.dfy): `GpuInfo::get_gpu_info` on the parsed report
  fields, and `SystemInfo::get_system_info` on one cycle's readings.
- `Frame` (frame.dfy): the serialised layout of `SystemInfo`, with a decoder
  that shows how the device reads the frame.
- `Connection` (connection.dfy): the port scan as a loop, the
  Scanning / Connecting / Streaming state machine as functions over a trace
  of events, and the class `Bridge`, whose methods run that machine in place
  and record the frames the device received.

The model keeps these details of the code as written:

- The scaled memory value is truncated by the cast, not rounded.
- It saturates at 65535 rather than being guaranteed to fit.
- The exponent test is strict (`num > base^k`), so an exact power `base^k`
  is shown as 1024.0 of the unit below (`Units.GetExpAtPowerBoundary`).
- A zero RAM or VRAM total is not guarded. The float division gives NaN or
  infinity, which the cast turns into 0 or 255 (`Snapshot.Percent`).
- Above exponent 0 the scaled value is at least 10, not strictly more than 10.
  For example, 2048 bytes is shown as 2.0 "KB" but 1025 bytes as 1.0 "KB".

## Model

| member | source | states |
|---|---|---|
| Ints.WrapU8 | src/system_info.rs:87 | `as u8` on an integer keeps the value when it fits and is congruent to it modulo 256 in every case |
| Ints.SaturateU8 | src/system_info.rs:84 | `as u8` on a non-negative float never exceeds the value and is either the value or 255 |
| Ints.SaturateU16 | src/system_info.rs:83 | `as u16` on a non-negative float never exceeds the value and is either the value or 65535 |
| Units.Pow | src/system_info.rs:46-48 | a power of a positive base is positive |
| Units.PowStrictlyIncreasing | src/system_info.rs:46-49 | the thresholds `base^1 < … < base^4` increase strictly for base ≥ 2 |
| Units.BasePowers | src/system_info.rs:46-49 | the thresholds for base 1024 are 1, 2^10, 2^20, 2^30 and 2^40 |
| Units.GetExp | src/system_info.rs:44-52 | the exponent is at most 4; when it is k ≥ 1, num > base^k; num ≤ base^j for every larger j up to 4 |
| Units.GetExpMonotone | src/system_info.rs:44-52 | a larger count never gets a smaller exponent |
| Units.GetExpAtPowerBoundary | src/system_info.rs:45-50 | exactly base^k selects k−1 and base^k+1 selects k, for k in 1..4 |
| Units.GetUnit | src/system_info.rs:32-42 | the label has one or two upper-case letters and ends in 'B'; it is "UB" exactly when the exponent is above 4 |
| Units.GetUnitInjective | src/system_info.rs:32-42 | distinct exponents 0..4 have distinct labels, so the label names its exponent |
| Units.GetExpNeverUnknownUnit | src/system_info.rs:32-52 | the exponent `get_exp` returns never gets the "UB" label |
| Units.AsciiBytes | src/system_info.rs:85 | `as_bytes` of an ASCII label has one byte per character, equal to its code |
| Units.Pop4 | src/system_info.rs:85 | `pop_4u8` yields exactly four bytes: the input's first bytes, then zero padding |
| Units.UnitField | src/system_info.rs:85 | the unit field is four bytes: the label's ASCII bytes, then zeros, and it is never empty |
| Units.ScaledTenths | src/system_info.rs:83 | the value in tenths of base^e is the truncated quotient: tenths·base^e ≤ num·10 < (tenths+1)·base^e (the same expression is used for VRAM at line 90) |
| Units.ScaledTenthsBounds | src/system_info.rs:83 | below exponent 4 the scaled value is at most 10·base; above exponent 0 it is at least 10 |
| Units.ScaledTenthsFitU16 | src/system_info.rs:83 | for base 1024 the scaled value is at most 10240 below "TB", and fits u16 up to 6553 TiB |
| Units.SixteenGibibytes | src/system_info.rs:58-61 | 16 GiB gets exponent 3, the value 160 and the label "GB" |
| Snapshot.GetGpuInfo | src/system_info.rs:110-149 | a GPU sample exists exactly when the tool ran and all three fields parsed; its fields are those parsed values |
| Snapshot.Mean | src/system_info.rs:75-81 | the mean of the core usages is the truncated mean: r·n ≤ sum < (r+1)·n |
| Snapshot.MeanOfPercentages | src/system_info.rs:75-81 | when every core usage is at most 100, so is their mean |
| Snapshot.MeanExamples | src/system_info.rs:75-81 | cores [10, 20, 30] average 20 and [10, 11] average 10 (truncated) |
| Snapshot.Percent | src/system_info.rs:84 | for 0 < whole and part ≤ whole the result is the truncated percentage (≤ 100); for part > whole it is at least 100; a zero whole gives 0 (NaN) when part is 0 and 255 (infinity) otherwise |
| Snapshot.PercentScaleFree | src/system_info.rs:91-94 | scaling both quantities by the same positive factor leaves the percentage unchanged |
| Snapshot.VramBytes | src/system_info.rs:66-69 | the VRAM byte count is the MiB figure times 1024^2, and 0 without a GPU sample |
| Snapshot.GetSystemInfo | src/system_info.rs:54-99 | both unit fields start with a non-zero byte, and without a GPU sample both GPU usages are 255; each field is stated by CpuField, RamFields, NoGpuFields, GpuFields and VramUnitFromMebibytes |
| Snapshot.CpuField | src/system_info.rs:75-81 | with percentage core usages the CPU field is their truncated mean, without wrap-around |
| Snapshot.RamFields | src/system_info.rs:60-85 | the RAM unit is the field for `get_exp(total)`; up to 6553 TiB the total is exactly floor(total·10/1024^e), at most 10240 below "TB"; from 6553.6 TiB it saturates at 65535; the used share is the truncated percentage |
| Snapshot.NoGpuFields | src/system_info.rs:66-97 | without a GPU sample both GPU usages are 255, the VRAM total is 0 and the unit is "B" |
| Snapshot.GpuFields | src/system_info.rs:86-97 | a percentage GPU load passes through unchanged and differs from 255; the VRAM unit is chosen for the byte count; the VRAM share equals the share of the MiB figures |
| Snapshot.VramUnitFromMebibytes | src/system_info.rs:63-70 | the VRAM value and unit are exactly the RAM value and unit a host with vramMax·1024^2 bytes of RAM would get, so the MiB figure is converted to bytes before the exponent and scaling |
| Snapshot.EightGibibyteCard | src/system_info.rs:90 | an 8192 MiB card is shown as 80 (8.0) with the "GB" unit field |
| Snapshot.SixteenGibibyteHost | src/system_info.rs:83-85 | 16 GiB of RAM is sent as 160 with the unit bytes "GB\0\0" |
| Frame.Le16 | src/main.rs:75 | a u16 is two bytes, low byte first |
| Frame.FromLe16 | src/main.rs:75 | two little-endian bytes read back as the u16 whose low and high bytes they are |
| Frame.Encode | src/main.rs:78 | the frame is 16 bytes with each field at its offset in the packed layout of `DataStruct`: 0, 1-2, 3, 4-7, 8, 9-10, 11, 12-15 |
| Frame.Decode | src/system_info.rs:6-16 | the device's reading of a frame succeeds exactly on 16 bytes |
| Frame.DecodeEncode | src/main.rs:48-58 | decoding a frame gives back every field of the snapshot |
| Frame.EncodeDecode | src/main.rs:48-58 | every 16-byte frame is the encoding of what it decodes to |
| Frame.EncodeInjective | src/main.rs:78 | distinct snapshots give distinct frames |
| Connection.FirstFlipper | src/main.rs:23-32 | a selected name is the name of some port with the device's USB identifiers; FirstFlipperAt and FirstFlipperNone characterise which |
| Connection.FirstFlipperAt | src/main.rs:23-32 | a matching port preceded only by non-matching ones is the one selected |
| Connection.FirstFlipperNone | src/main.rs:21-32 | no port is selected exactly when no port has the device's USB identifiers |
| Connection.FindFlipperPort | src/main.rs:20-32 | the scan loop returns the name of the first USB port with vendor 0x0483 and product 0x5740, or none |
| Connection.ScanSelectsFirstMatch | src/main.rs:34 | scanning stays in Scanning exactly when no port matches, and otherwise connects to the first match |
| Connection.Next | src/main.rs:17-105 | one pass of `main`'s loops: Connecting is entered only from Scanning and Streaming never directly from Scanning; ScanSelectsFirstMatch, OpenOutcome, WriteOutcome and StateOrder state each transition |
| Connection.Delivered | src/main.rs:78-87 | a step delivers one frame exactly when it is a successful write while streaming, and otherwise none; DeliveredDecodes states which frame |
| Connection.DeliveredDecodes | src/main.rs:47-81 | the frame a successful write delivers decodes to the snapshot of that same cycle's readings |
| Connection.OpenOutcome | src/main.rs:35-46 | the next state after a successful open is the same whatever DTR and RTS returned, and it streams on the chosen port at 115200 baud with a 1000 ms timeout; a failed open rescans |
| Connection.WriteOutcome | src/main.rs:80-92 | the link is kept exactly on success or timeout; every other write error goes back to Scanning |
| Connection.StateOrder | src/main.rs:17-46 | Connecting is entered only from Scanning with the first match; Streaming only from a successful open or from Streaming |
| Connection.NoTerminalState | src/main.rs:17 | every state has an event that leads back to Scanning, so the loops never end |
| Connection.LoggedFramesAreSnapshots | src/main.rs:46-80 | every frame the device receives is the encoded snapshot of some valid readings |
| Connection.WrittenFrames | src/main.rs:47-81 | reference list of what the device should receive: one encoded snapshot per successfully written cycle, never more frames than events |
| Connection.LogIsWrittenFrames | src/main.rs:46-92 | the frames delivered over a trace are exactly the encoded snapshots of its successfully written cycles' readings, in trace order |
| Connection.LogCountsWrites | src/main.rs:80-87 | exactly one frame is delivered per successful write; a timed-out frame is dropped |
| Connection.OpenFailureScenario | src/main.rs:20-99 | with no device, then the device found but the open failing, the states are Scanning, Scanning, Connecting, Scanning and nothing is sent |
| Connection.FullCycleScenario | src/main.rs:17-106 | no device, found but the open fails, found and opened (DTR failing), a timeout, a broken pipe: the states are Scanning, Scanning, Connecting, Scanning, Connecting, Streaming, Streaming, Scanning and nothing is delivered |
| Connection.BrokenPipeScenario | src/main.rs:35-92 | after found, opened (DTR failing), a timeout and a broken pipe, the states are Scanning, Connecting, Streaming, Streaming, Scanning and nothing is delivered |
| Connection.Bridge.constructor | src/main.rs:14-17 | the manager starts in Scanning with nothing delivered |
| Connection.Bridge.Step | src/main.rs:17-105 | one step moves to the transition function's next state and appends the frame a successful write delivers |
| Connection.Bridge.Drive | src/main.rs:17-106 | running a trace ends in the state the trace leads to, with the trace's delivered frames appended in order |

## Left out

- The external GPU tool is not modelled: running `nvidia-smi`, reading its output, the XML-to-JSON conversion and the JSON paths. `Snapshot.GetGpuInfo` takes as input whether the tool yielded a report and, for each of the three fields, its parsed value or `None`.
- `nvd_r2u64`, `avg_vecu32` and `pop_4u8` are defined in src/helpers.rs, which is not part of this model. The model gives them their evident meaning: a parsed integer or `None`, the truncated mean (`Snapshot.Mean`) and take-four-and-zero-pad (`Units.Pop4`).
- `Snapshot.Mean`: the source's behaviour on an empty core list is unknown, so `ValidReadings` requires at least one core.
- Floating point is replaced by integer arithmetic. Scaling is `floor(num·10 / 1024^e)`, which agrees with the f64 computation while `num·10` is exactly representable (below 2^53). Percentages are `floor(part·100 / whole)`. The f64 result can land one below that when the quotient rounds down, for example 29/100·100, or, for totals above about 2^47, one above it.
- `Snapshot.Percent`: for part > whole it states only that the result is at least 100; that it is the truncated quotient saturated at 255 is in its body alone.
- `GetSystemInfo` requires the VRAM size in MiB to be below 2^44, so that converting it to bytes fits u64. The source's `gi.vram_max * vram_mult` would overflow above that.
- The OS readings are inputs of each cycle (`Readings`): the sysinfo refresh calls, the total and used RAM, and the per-core usages. This includes the `as u32` cast of each core's f32 usage, which is taken to yield a natural number.
- Serial I/O is represented by its outcomes:
  - the port enumeration is an event;
  - the open result is an event, carrying whether DTR and RTS succeeded;
  - the write result is an event, carrying an I/O error kind.
- A write that times out part-way, having sent some bytes, is modelled as delivering nothing.
- The panic when the port enumeration fails (`expect`) is not modelled.
- The console messages and the one- and two-second sleeps are left out, as is the flow-control setting of the port. They do not affect the state or the data.
- bincode's internals are not modelled. Its output for this struct is stated directly by `Frame.Encode`: fields in order, little-endian, fixed arrays without a length prefix. The device is assumed to read `DataStruct` as a packed 16-byte struct; with the usual C alignment it would be 18 bytes, with `ram_max` at offset 2.
- The looping forever is modelled by finite traces of any length (`Bridge.Drive`) together with `NoTerminalState`. A full cycle through all states is shown by `FullCycleScenario`.
