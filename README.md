# d3xx core, modelled in Dafny

This project models the core of `d3xx`, a Rust wrapper around FTDI's D3XX driver for the
FT600/FT601 USB 3.0 FIFO bridge chips. The Dafny model covers these parts of the crate:

- the error type and the `try_d3xx!` status check;
- pipes, pipe types and the stream-pipe set;
- an open `Device` session, with blocking and overlapped pipe I/O, the abort-after-failure
  discipline, stream-pipe setup, pipe timeouts, VID/PID and closing on drop;
- the overlapped-I/O record and its polling;
- notification callbacks: registration, clearing and the trampoline's decoding;
- the device-list scan;
- the USB descriptors;
- GPIO access;
- the library version word;
- the chip configuration record and its parts: the string-descriptor block, power,
  pin-drive strengths, FIFO settings and optional features.

The native driver is a `NativeDriver.Driver` object. It records every call it is handed, in
order, in a ghost sequence `calls`. Whatever the driver answers (a status code, a byte count,
a handle, a record) is a parameter of the modelled operation. Each operation's contract
therefore states two things:

- which native calls it makes, in which order and with which arguments;
- what it returns for every possible driver answer.

A `panic!`, `assert!` or `unwrap` in the source is a `requires` clause. The exceptions are the
places where the panic is the bug recorded under "## Findings".

Modules, one file each:

| Module | File | Models |
|---|---|---|
| `Wrappers` | `wrappers.dfy` | `Option`, `Result` and fixed-width integer types |
| `D3xxErrors` | `error.dfy` | `src/error.rs` |
| `NativeDriver` | `driver.dfy` | the driver's entry points, as recorded calls |
| `Pipes` | `pipe.dfy` | `src/pipe.rs` |
| `FfiUtil` | `ffi_util.dfy` | `src/ffi/util.rs` |
| `OverlappedIo` | `overlapped.dfy` | `src/overlapped.rs` |
| `Notifications` | `notification.dfy` | `src/notification.rs` |
| `Devices` | `device.dfy` | `src/device.rs` |
| `Scan` | `scan.dfy` | `src/scan.rs` |
| `Descriptors` | `descriptor.dfy` | `src/descriptor.rs` |
| `Versions` | `version.dfy` | the `Version` type of `src/lib.rs` |
| `GpioAccess` | `gpio.dfy` | `src/gpio.rs` |
| `StringDescriptors` | `string_descriptor.dfy` | `src/configuration/string_descriptor.rs` |
| `OptionalConfig` | `optional.dfy` | `src/configuration/optional.rs` |
| `PowerConfiguration` | `power.dfy` | `src/configuration/power.rs` |
| `PinDrive` | `pin_drive.dfy` | `src/configuration/pin_drive.rs` |
| `DataTransfer` | `data_transfer.dfy` | `src/configuration/data_transfer.rs` |
| `ChipConfigurations` | `chip_configuration.dfy` | `src/configuration/mod.rs` |

Two properties of the code shape the model:

- `write`, `read`, `write_async` and `read_async` (src/device.rs:54-87) do not check the
  pipe's direction, so `Devices.Device.Write` and the other transfer methods accept any pipe.
- The trampoline decodes only the two `CallbackType` kinds, data and GPIO, so the model's
  `CallbackType` has exactly those two values.

## Model

| member | source | states |
|---|---|---|
| D3xxErrors.Code | src/error.rs:86-88 | every error's numeric code lies in 1..32, and it is 32 exactly for `OtherError` |
| D3xxErrors.FromStatus | src/error.rs:99-136 | a non-zero status maps to `OtherError` exactly when it is 32 or larger; status 0 is excluded because the conversion panics on it |
| D3xxErrors.TryD3xx | src/error.rs:165-171 | the check succeeds exactly on status 0; otherwise it fails with the error the status converts to |
| D3xxErrors.CodeRoundTrip | src/error.rs:86-136 | converting an error's code back gives the same error, for every error |
| D3xxErrors.CodeInjective | src/error.rs:86-88 | two errors with the same code are the same error |
| D3xxErrors.StatusRoundTrip | src/error.rs:179-220 | every status 1..32 is the code of the error it converts to |
| D3xxErrors.TryD3xxCode | src/error.rs:222-229 | for every status 1..31 the check fails with the error whose code is that status |
| D3xxErrors.UnknownCodesAreOther | src/error.rs:134 | every status of 32 or more is reported as `OtherError`, whose code is 32 |
| Pipes.PipeFromByte | src/pipe.rs:19-34 | a byte names a pipe exactly when it is 0x02..0x05 or 0x82..0x85, and the pipe named encodes back to that byte |
| Pipes.PipeByteRoundTrip | src/pipe.rs:8-34 | decoding a pipe's endpoint address gives the pipe back |
| Pipes.PipeByteInjective | src/pipe.rs:8-17 | distinct pipes have distinct endpoint addresses |
| Pipes.Direction | src/pipe.rs:59-70 | every pipe is exactly one of in and out; the in pipes are `In0`..`In3`, with addresses 0x82..0x85; the out pipes have addresses 0x02..0x05 |
| Pipes.PipeTypeFromValue | src/pipe.rs:45-56 | a value names a pipe type exactly when it is 0..3, and the type encodes back to that value |
| Pipes.PipeTypeRoundTrip | src/pipe.rs:38-56 | decoding a pipe type's value gives the type back |
| Pipes.PipeInfoFromSpec | src/pipe.rs:102-112 | the conversion fails, with `OtherError`, exactly when the type value or the pipe address is invalid; on success each field is the decoded raw field |
| Pipes.PipeInfoExample | src/descriptor.rs:335-347 | a control-pipe record with address 0x82, packet size 64 and interval 0 decodes to `Control`, `In0`, 64, 0 |
| Pipes.NoStreamPipes | src/pipe.rs:145-170 | the empty stream-pipe set configures no pipe |
| Pipes.WithPipe | src/pipe.rs:155-158 | adding a pipe adds it to the configured pipes with the given size and keeps every other pipe's size |
| Pipes.WithPipeOverwrites | src/pipe.rs:155-158 | adding the same pipe twice keeps only the second size |
| Pipes.WithPipeCommutes | src/pipe.rs:155-158 | adding two different pipes gives the same set in either order |
| FfiUtil.IgnoreIoPending | src/ffi/util.rs:236-241 | an `IoPending` failure becomes success, every other result is kept, and `IoPending` never comes out |
| FfiUtil.IgnoreIoPendingIdempotent | src/ffi/util.rs:236-241 | filtering twice is the same as filtering once |
| FfiUtil.WritePipe | src/ffi/util.rs:20-33 | issues one write of the whole buffer without an overlapped record; succeeds exactly on status 0 with the reported byte count, otherwise fails with the status's error |
| FfiUtil.ReadPipe | src/ffi/util.rs:132-145 | issues one read of the buffer's capacity without an overlapped record; succeeds exactly on status 0 with the reported byte count, otherwise fails with the status's error |
| FfiUtil.WritePipeAsync | src/ffi/util.rs:72-89 | issues one write with the overlapped record; succeeds exactly on status 0 or `IoPending` (24), otherwise fails with the status's error |
| FfiUtil.ReadPipeAsync | src/ffi/util.rs:184-201 | issues one read with the overlapped record; succeeds exactly on status 0 or `IoPending` (24), otherwise fails with the status's error |
| FfiUtil.AsyncIncompleteIsError | src/ffi/util.rs:236-241 | only `IoPending` is filtered: an `IoIncomplete` answer to an asynchronous read is still an error |
| OverlappedIo.QueryResult | src/overlapped.rs:85-97 | the overlapped query succeeds exactly on status 0, with the transferred byte count; otherwise it fails with the status's error |
| OverlappedIo.Classify | src/overlapped.rs:102-114 | polling is pending exactly when the query reports `IoPending` or `IoIncomplete`; otherwise it is ready with the query's result |
| OverlappedIo.ClassifyStatus | src/overlapped.rs:85-114 | a poll is pending exactly for statuses 24 and 25; it is ready with the byte count on status 0 and ready with the status's error otherwise |
| OverlappedIo.Overlapped.Initialized | src/overlapped.rs:44-55 | a new record is live and belongs to the given driver, handle and record |
| OverlappedIo.Overlapped.WithHandle | src/overlapped.rs:44-55 | issues one initialization call; succeeds exactly on status 0 with a fresh live record, otherwise fails with the status's error |
| OverlappedIo.Overlapped.PollOnce | src/overlapped.rs:85-97 | issues one result query on the record, waiting or not as asked, and returns its result |
| OverlappedIo.Overlapped.Poll | src/overlapped.rs:102-114 | issues one non-waiting query, keeps the record live, and is pending or ready as `Classify` says |
| OverlappedIo.Overlapped.Drop | src/overlapped.rs:117-122 | releases the record with one call; the record is no longer live |
| Notifications.ExtractNotificationData | src/notification.rs:239-269 | decoding fails, always with `OtherError`, exactly for a data record whose endpoint byte names no pipe; a success has the kind of the discriminant |
| Notifications.ExtractedFields | src/notification.rs:239-269 | a decoded data notification names the reported endpoint and received length; a GPIO notification carries both values unchanged |
| Notifications.ExtractDataRoundTrip | src/notification.rs:243-251 | a data record built from a pipe and a length decodes to that pipe and length |
| Notifications.NotificationSlot.constructor | src/notification.rs:159-181 | a new slot has no callback registered and no invocations |
| Notifications.NotificationSlot.Set | src/notification.rs:159-181 | issues one registration call with the given context record; succeeds exactly on status 0, and only then is the new callback and context registered |
| Notifications.NotificationSlot.Clear | src/notification.rs:187-191 | issues one clearing call and always leaves no callback registered |
| Notifications.NotificationSlot.Trampoline | src/notification.rs:215-230 | the registered callback runs exactly once, with the registered context and the decoded data, when decoding succeeds, and not at all when it fails |
| Devices.MillisRoundTrip | src/device.rs:119-133 | a timeout read back in milliseconds converts to the same milliseconds; a duration loses only its sub-millisecond part on the way to the driver |
| Devices.FirstFailure | src/device.rs:89-105 | the index of the first stream entry that fails, or the entry count if none does: every entry before it succeeds |
| Devices.SetCalls | src/device.rs:96-103 | the first `n` entries produce exactly `n` stream-pipe calls |
| Devices.StreamOutcome | src/device.rs:89-105 | stream configuration succeeds exactly when every entry succeeds, and then it has issued one call per entry |
| Devices.StreamLoopIsOutcome | src/device.rs:96-103 | the entry-by-entry loop, stopping at the first failure, gives exactly the calls and result that `StreamOutcome` describes |
| Devices.StreamCallsDistinct | src/device.rs:96-103 | the issued stream calls configure pairwise distinct pipes, because the map holds each pipe once |
| Devices.Device.Opened | src/device.rs:20-39 | a new session is open on the given driver, handle and serial number |
| Devices.Device.Open | src/device.rs:20-39 | issues one open-by-serial call; succeeds exactly when the status is 0 and the handle non-null; a null handle is `DeviceNotFound`; otherwise it fails with the status's error |
| Devices.Device.AbortPipe | src/device.rs:107-109 | issues one abort of the pipe and returns the status check |
| Devices.Device.WrapPipeIoAbort | src/device.rs:111-117 | a failed transfer is followed by exactly one abort of the same pipe, whose result is discarded; the transfer's result is returned unchanged |
| Devices.Device.Write | src/device.rs:54-57 | one blocking write, followed by an abort of the pipe exactly when it fails; returns the write's result |
| Devices.Device.Read | src/device.rs:74-77 | one blocking read, followed by an abort of the pipe exactly when it fails; returns the read's result |
| Devices.Device.WriteAsync | src/device.rs:62-67 | creates the record, then issues the write. A failed record creation stops there; a failed write aborts the pipe and releases the record; otherwise the live record is returned |
| Devices.Device.ReadAsync | src/device.rs:82-87 | the same as `WriteAsync`, for a read |
| Devices.Device.SetStreamPipes | src/device.rs:89-105 | clears all stream pipes first. If that fails, nothing else is issued; otherwise the calls and result are those of `StreamOutcome` |
| Devices.Device.ConfigureEntries | src/device.rs:96-103 | the loop over the entries issues exactly the calls of `StreamOutcome` and returns its result |
| Devices.Device.ConfigureEntry | src/device.rs:97-102 | a size above the 32-bit native width is `InvalidArgs` with no call; otherwise one call, then the status check |
| Devices.Device.PipeTimeout | src/device.rs:119-125 | issues one query; on status 0 returns a whole-millisecond duration equal to the reported milliseconds, otherwise the status's error |
| Devices.Device.SetPipeTimeout | src/device.rs:127-133 | issues one call carrying the timeout's whole milliseconds and returns the status check |
| Devices.Device.VidPid | src/device.rs:135-146 | issues one query; on status 0 returns the reported vendor and product IDs, otherwise the status's error |
| Devices.Device.Close | src/device.rs:149-155 | closes the handle with one call; the session is no longer open |
| Scan.DeviceTypeRoundTrip | src/scan.rs:137-153 | each chip type is decoded from the value the driver reports for it (600 and 601); two values decode alike exactly when they are equal or both name no chip |
| Scan.CStrBytes | src/scan.rs:114-133 | the C string is the prefix of the buffer before its first NUL, and contains no NUL |
| Scan.CStrBytesIsPrefix | src/scan.rs:114-133 | if position `n` holds the first NUL, the C string is exactly the first `n` bytes |
| Scan.DeviceInfoFromSpec | src/scan.rs:114-133 | flags, location and handle are the node's; the device type is decoded from the node's type value; VID and PID are the high and low halves of the ID and rebuild it; serial number and description are the node's strings up to their first NUL |
| Scan.FlagPredicates | src/scan.rs:37-51 | with no flag set no predicate holds; with exactly one of opened, high-speed or super-speed set, exactly the matching predicate holds |
| Scan.DeviceInfoExample | src/scan.rs:234-266 | the node of the source's own example gives flags 1, FT600, VID 0x0403, PID 0x6010, location 2, serial "ABC123" and description "FT601" |
| Scan.ListDevices | src/scan.rs:183-221 | builds the list, then reads the table. It succeeds exactly when both statuses are 0, and then returns one device info per table entry, each converted from its node |
| Descriptors.UsbVersionParts | src/descriptor.rs:225-233 | major and minor are bytes, and together they rebuild the BCD version |
| Descriptors.UsbVersionExample | src/descriptor.rs:225-233 | BCD 0x0200 is version 2.0 |
| Descriptors.MaxPowerAsWritten | src/descriptor.rs:201-204 | the doubling in `u8` has a value exactly when `MaxPower` is below 128 |
| Descriptors.MaxPowerMilliamps | src/descriptor.rs:201-204 | the milliamp figure is even and at most 510, as section 9.6.3 of the USB 2.0 specification allows |
| Descriptors.MaxPowerCorrected | src/descriptor.rs:201-204 | where the doubling fits in `u8` it agrees with the milliamp figure, and the figure always halves back to `MaxPower` |
| Descriptors.MaxPowerOverflowExample | src/descriptor.rs:203 | `MaxPower` 250 (500 mA) has no `u8` result with overflow checks, and gives 244 without them |
| Descriptors.MaxPowerUnchecked | src/descriptor.rs:201-204 | without overflow checks the doubling wraps: it is exact below 128 and 256 too small from 128 on |
| Descriptors.MaxPowerUncheckedWraps | src/descriptor.rs:201-204 | without overflow checks every `MaxPower` from 128 on reports 256 mA less than the milliamp figure, and every smaller one reports it exactly |
| Descriptors.AttributeBits | src/descriptor.rs:208-216 | self-powered is bit 6 and remote wakeup bit 5 of `bmAttributes` |
| Versions.VersionFields | src/lib.rs:169-185 | the build number's high byte is the minor number, and major and build together give the word's low 24 bits |
| Versions.TopByteIgnored | src/lib.rs:169-185 | two words have the same major, minor and build exactly when they agree on the low 24 bits |
| Versions.LibraryVersion | src/lib.rs:156-160 | issues one version query; succeeds exactly on status 0 with the reported word, otherwise with the status's error |
| GpioAccess.LevelFrom | src/gpio.rs:105-112 | a byte names a level exactly when it is 0 or 1, and the level encodes back to it |
| GpioAccess.Encodings | src/gpio.rs:86-123 | levels round-trip, and pins, directions and pull modes have distinct encodings |
| GpioAccess.Mask | src/gpio.rs:39-80 | each pin selects a single bit, 1 or 2 |
| GpioAccess.Enable | src/gpio.rs:39-47 | issues one enable call masked to the pin; the pin's bit is set exactly for output and no other bit is set; returns the status check |
| GpioAccess.SetPull | src/gpio.rs:52-60 | issues one pull call masked to the pin with the mode shifted by the pin number; only pull-up reaches beyond the mask; returns the status check |
| GpioAccess.Write | src/gpio.rs:63-71 | issues one write masked to the pin; the pin's bit is set exactly for `High` and no other bit is set; returns the status check |
| GpioAccess.Read | src/gpio.rs:75-80 | issues one read; on status 0 the level is `High` exactly when the pin's bit is set, otherwise the status's error |
| GpioAccess.WriteThenRead | src/gpio.rs:63-80 | reading back a register whose pin bit holds what `Write` sent gives the written level |
| StringDescriptors.LeBytesAt | src/configuration/string_descriptor.rs:97-103 | each code unit is written as its low byte, then its high byte |
| StringDescriptors.LeRoundTrip | src/configuration/string_descriptor.rs:67-72 | reading little-endian pairs back from the encoded bytes gives the code units back |
| StringDescriptors.StrToUtf16 | src/configuration/string_descriptor.rs:97-103 | the bytes are two per kept code unit, at most `max` units, and decode to the string cut to `max` units |
| StringDescriptors.PartStartDefined | src/configuration/string_descriptor.rs:62-66 | if the walk reaches part `index`, it reaches every earlier part inside the block |
| StringDescriptors.PartStartInLayout | src/configuration/string_descriptor.rs:62-66 | in a block that starts with a sequence of records, the walk finds part `i` right after the first `i` records |
| StringDescriptors.DecodeLayout | src/configuration/string_descriptor.rs:59-73 | in such a block, every part can be parsed and decodes to the code units of its record |
| StringDescriptors.EncodeSpec | src/configuration/string_descriptor.rs:75-94 | the encoded block is always 128 bytes |
| StringDescriptors.EncodeDecodeRoundTrip | src/configuration/string_descriptor.rs:59-103 | decoding the encoded block gives back the three strings, each cut to its limit (30, 62, 30 units) |
| StringDescriptors.CapsCanOverrun | src/configuration/string_descriptor.rs:83-91 | strings at their caps (30, 62 and 30 units) need more than the 128-byte block |
| StringDescriptors.StringDescriptor.New | src/configuration/string_descriptor.rs:12-18 | the three strings are the block's parts 0, 1 and 2, decoded |
| StringDescriptors.StringDescriptor.SetManufacturer | src/configuration/string_descriptor.rs:29-31 | sets the manufacturer and leaves the other two strings unchanged |
| StringDescriptors.StringDescriptor.SetProduct | src/configuration/string_descriptor.rs:42-44 | sets the product and leaves the other two strings unchanged |
| StringDescriptors.StringDescriptor.SetSerialNumber | src/configuration/string_descriptor.rs:55-57 | sets the serial number and leaves the other two strings unchanged |
| StringDescriptors.StringDescriptor.ExtractPart | src/configuration/string_descriptor.rs:59-73 | the loop over the length bytes finds part `index`, whose payload decodes to the specified code units |
| StringDescriptors.StringDescriptor.SetPart | src/configuration/string_descriptor.rs:76-81 | writes one record (length byte, type 3, payload) at `offset` and leaves the rest of the block unchanged |
| StringDescriptors.StringDescriptor.AsFfiDescriptor | src/configuration/string_descriptor.rs:75-94 | the block written in place is the specified encoding of the three strings |
| OptionalConfig.InPipeIndex | src/configuration/optional.rs:59-85 | an in pipe's index is below 4 |
| OptionalConfig.InPipeIndexIsOffset | src/configuration/optional.rs:59-85 | an in pipe's index is its endpoint address minus 0x82 |
| OptionalConfig.BatteryChargingBit | src/configuration/optional.rs:23-31 | battery-charging modes are present exactly when bit 0 is set, and then they hold the given byte; the flags are kept |
| OptionalConfig.UnderrunCheckBit | src/configuration/optional.rs:65-67 | the underrun check is enabled exactly when bit 1 is clear |
| OptionalConfig.NotificationBit | src/configuration/optional.rs:59-62 | the corrected query: notifications of in pipe `i` are enabled exactly when bit 2 + `i` is set |
| OptionalConfig.UnderrunBit | src/configuration/optional.rs:82-85 | the corrected query: underrun of in pipe `i` is disabled exactly when bit 6 + `i` is set |
| OptionalConfig.MasksDisjoint | src/configuration/optional.rs:3-14 | the per-pipe masks of different pipes, the two per-pipe families and the global flags all use disjoint bits |
| OptionalConfig.AllDisabledOrEnabled | src/configuration/optional.rs:35-43 | with all features disabled no per-pipe feature is on; with all enabled every per-pipe feature is on |
| OptionalConfig.PipeShift | src/configuration/optional.rs:61 | the amount the source shifts by is in 0x82..0x85 for every in pipe |
| OptionalConfig.PipeShiftIsAddress | src/configuration/optional.rs:61 | that amount is the pipe's endpoint address |
| OptionalConfig.PerPipeQueriesOverflow | src/configuration/optional.rs:59-85 | as written, both per-pipe queries overflow the shift for every in pipe |
| OptionalConfig.UncheckedQueriesReadOtherBits | src/configuration/optional.rs:59-85 | with the shift taken modulo 16, the queries read other pipes' and other features' bits |
| OptionalConfig.UncheckedQueryMissesOwnBit | src/configuration/optional.rs:59-62 | with only `In1`'s notification bit set, the unchecked query for `In1` reports it disabled |
| OptionalConfig.ChargingModeFields | src/configuration/optional.rs:105-125 | each charging mode is a 2-bit field, and the three fields rebuild the byte's top six bits |
| OptionalConfig.ChargingModeRoundTrip | src/configuration/optional.rs:105-125 | packing three 2-bit modes into a byte and reading them back gives the same modes |
| PowerConfiguration.PowerBits | src/configuration/power.rs:8-34 | exactly one of bus- and self-powered holds; self-powered is bit 6, remote wakeup bit 5, and the maximum power is the value given |
| PowerConfiguration.AttributesIndependent | src/configuration/power.rs:20-28 | setting one attribute bit makes that attribute hold and leaves the other unchanged |
| PowerConfiguration.AgreesWithConfigurationDescriptor | src/configuration/power.rs:20-28 | the chip's attribute byte reads the same as a configuration descriptor's `bmAttributes` |
| PinDrive.DriveStrengthFrom | src/configuration/pin_drive.rs:7-12 | a value names a drive strength exactly when it is below 4, and the strength encodes back to it |
| PinDrive.DriveStrengthRoundTrip | src/configuration/pin_drive.rs:7-12 | decoding a strength's encoding gives the strength back |
| PinDrive.FieldDecodes | src/configuration/pin_drive.rs:22-33 | every masked 2-bit field names a strength |
| PinDrive.NewNeverFails | src/configuration/pin_drive.rs:22-33 | decoding never fails; the strengths come from MSIO bits 0..1 and 4..5 and GPIO bits 8..9 and 10..11 |
| PinDrive.ValueInjective | src/configuration/pin_drive.rs:7-12 | two strengths are equal exactly when their encodings are |
| PinDrive.OnlyFieldsMatter | src/configuration/pin_drive.rs:22-33 | two pairs of control words decode alike exactly when they agree on those four fields |
| DataTransfer.FifoClockFrom | src/configuration/data_transfer.rs:65-70 | a byte names a clock exactly when it is 0 or 1, and the clock encodes back to it |
| DataTransfer.FifoModeFrom | src/configuration/data_transfer.rs:55-60 | a byte names a FIFO mode exactly when it is 0 or 1, and the mode encodes back to it |
| DataTransfer.ChannelFrom | src/configuration/data_transfer.rs:78-89 | a byte names a channel configuration exactly when it is 0..4, and the configuration encodes back to it |
| DataTransfer.NewDataTransferSpec | src/configuration/data_transfer.rs:20-27 | decoding succeeds exactly for clock and mode 0..1 and channel 0..4; every failure is `OtherError`; a success encodes back to the three bytes |
| DataTransfer.DataTransferRoundTrip | src/configuration/data_transfer.rs:20-27 | every configuration decodes from its own encoding |
| ChipConfigurations.ChipConfiguration.Assemble | src/configuration/mod.rs:54-74 | the configuration holds exactly the given parts |
| ChipConfigurations.ChipConfiguration.New | src/configuration/mod.rs:54-74 | issues one read of the configuration; a driver failure is returned as is. It otherwise succeeds exactly when the FIFO bytes are valid, fails only with `OtherError`, and decodes every field from the raw record |
| ChipConfigurations.ChipConfiguration.SetInterruptLatency | src/configuration/mod.rs:155-158 | the latency must be 1..16; it is set, and the string descriptor is untouched |

## Left out

- The process-wide lock `with_global_lock` and its panic catching: the model is
  single-threaded and each call runs alone.
- The `Future` and `Waker` machinery of `write_async` and `read_async`. They are modelled up
  to the `await`: `Overlapped.Poll` is one step of the future, and `Overlapped.Drop` releases
  the record.
- Raw FFI bindings, pointers and the `Send` and `Sync` markers. Driver calls are recorded in
  `NativeDriver.Driver.calls`, and the driver's answers are parameters.
- The callback's panic barrier in the trampoline: a callback is an identifier, and its
  invocations are recorded, not run.
- The leaked boxed context of a notification registration: the model records the registered
  context instead.
- Notifications.NotificationSlot.Set: the native context record is a parameter, not an
  allocation. A failed registration keeps the previous registration, as the driver leaves it.
- Text conversion (`from_utf16_lossy`, `to_str`, `encode_utf16`): strings are UTF-16 code
  units and C strings are bytes, so decoding that replaces invalid input is not modelled.
- Read buffers' contents: a read returns a byte count only, because the driver fills the
  buffer.
- `StreamPipes` iteration order: a `HashMap` iterates in an unspecified order. The order is an
  input, `entries`, which must be an iteration of the map (`Devices.IsIterationOf`).
- `DeviceInfo::open`: it only forwards to `Device::open`, which is modelled.
- `src/control.rs` and `src/prelude.rs` are not part of this model.
- Descriptor constructors that fill records through FFI, with their debug-build header
  checks, and `descriptor_string`: they only copy what the driver returns.
- Getters that return a stored field are the datatype's field selectors. The two
  `class_codes` getters (src/descriptor.rs:94-99 and 131-136) only copy three fields; they are
  `Descriptors.DeviceClassCodes` and `Descriptors.InterfaceClassCodes`, with no further
  property stated.
- `ULONG` is taken as 32 bits wide (`ULONG_MAX` is 2^32 - 1), as on the platforms the driver
  supports.
- Devices.Device.Write, Devices.Device.Read, Devices.Device.WriteAsync and
  Devices.Device.ReadAsync require the length to fit `ULONG`, because the source's
  `try_into().unwrap()` panics otherwise.
- Devices.Device.SetStreamPipes: the two `try_d3xx!` checks and the size conversion are written
  out in `ConfigureEntries` and `ConfigureEntry`.
- Devices.Device.Close models `Drop` for `Device`.
- The `*_mut` accessors of `PowerConfig`, `PinDriveStrengths`, `DataTransferConfig` and
  `OptionalFeatures`: these parts are values in the model, not shared objects. Only the
  string descriptor is a shared object that callers change in place.
- `FT_60XCONFIGURATION` fields the crate does not read.
- PinDrive.NewNeverFails: the source narrows each masked field to `u8`. The field is below 4,
  so nothing is lost, and the narrowing is not written out.
- StringDescriptors.StringDescriptor.AsFfiDescriptor requires `Fits`, weaker than the source.
  Strings at their caps need 250 bytes (244 bytes of text and three 2-byte headers), and the source then writes past its 128-byte block
  and panics. `CapsCanOverrun` exhibits such strings.
- StringDescriptors.StringDescriptor.ExtractPart requires the block to parse, because the
  source panics on an index outside the block.

## Findings

| source | as written | input that shows it | evidently intended | confidence | as-written member | corrected member |
|---|---|---|---|---|---|---|
| src/configuration/optional.rs:61 | `FLAG_NOTIFICATION_ENABLE_PIPE0 << in_pipe as u16` shifts by the endpoint address, 0x82..0x85. That overflows a 16-bit shift: it panics in debug builds, and in release builds only the low four bits of the amount are used | any in pipe, e.g. `In0` (shift 130) | shift by the pipe's index 0..3, so pipe `i` reads bit 2 + `i` | not executed | OptionalConfig.PerPipeQueriesOverflow | OptionalConfig.NotificationBit |
| src/configuration/optional.rs:84 | `FLAG_UNDERRUN_DISABLE_PIPE0 << in_pipe as u16` has the same overflow | any in pipe; in a release build `In0` reads `In2`'s underrun bit (bit 8) | shift by the pipe's index, so pipe `i` reads bit 6 + `i` | not executed | OptionalConfig.UncheckedQueriesReadOtherBits | OptionalConfig.UnderrunBit |
| src/descriptor.rs:203 | `self.inner.MaxPower * 2` is computed in `u8` and overflows for `MaxPower` of 128 or more: it panics with overflow checks and wraps without them | `MaxPower` 250, i.e. 500 mA: a panic, or 244 in a release build | a result wide enough for 0..510 mA | not executed | Descriptors.MaxPowerOverflowExample | Descriptors.MaxPowerCorrected |
