# CAN data-acquisition tool: frame codec, drivers and generator

This project models the core of a small CAN-bus data-acquisition tool. It has two programs:

- **Reader.** It opens a bus driver chosen by the configuration. That is either a Linux SocketCAN socket with optional identifier filters, or a mock that always yields one fixed frame. Each frame received is printed as `[RX]` followed by either a human-readable decoding or a raw hex dump.
- **Generator.** It runs a cycle counter with three rate gates: every 2nd, 3rd and 5th cycle. It packs a motor frame, an identification frame and an electrical/manufacturing frame. It writes each to a raw CAN socket and prints `[TX]` lines in the same two styles.

Modules:

- `Ints`: the `<cstdint>` widths. It also defines the bitwise AND on identifiers, written out on natural numbers.
- `Options`: the optional-value type.
- `Numerals`: the `std::dec` / `std::hex` / `std::uppercase` / `std::setw(2)` renderings of numbers. It also has a digit reader that serves as their inverse.
- `CanDefs`: `include/can_defs.hpp`, i.e. identifiers, `CanMessage`, `decode` and `formatRaw`. It also has line readers, used as the inverse of both renderings.
- `Config`: the `SystemConfig` record.
- `LinuxCan`:
  - `struct can_frame` and `struct can_filter`;
  - the 11- and 29-bit masks;
  - the delivery rule of the `CAN_RAW_FILTER` socket option, including filters whose identifier sets `CAN_INV_FILTER` (bit 29), which deliver the frames that do not match.
- `Drivers`: `src/drivers.cpp`. It holds the SocketCAN driver as a class whose descriptor, connection flag and installed filters change in place, the mock driver, `createDriver`, and one pass of the reader loop.
- `Generator`: `src/generator.cpp`. It holds the frame packing, the counter loop, and `CanSender` with `init`, `send` and its destructor.

Kernel calls are inputs to the model, one for each outcome:

- the descriptor that `socket()` returns;
- whether the `SIOCGIFINDEX` lookup and `bind` succeed;
- whether the `setsockopt` call that installs the filters succeeds;
- the byte count and frame that `read()` delivers;
- the byte count that `write()` returns.

The random draws of the generator are inputs too. So are the bytes of the stack frames that the program never writes.

Two details of the code are easy to misread:

- `formatRaw` sets `std::uppercase` for the identifier and never clears it. The data bytes therefore come out in upper-case hex (`DE AD BE EF`).
- The generator's comments say the motor frame goes out "a cada ciclo", the identification frame every 10 cycles and the electrical frame every 20. The gates in the code are `counter % 2`, `% 3` and `% 5`. The model follows the gates.

## Model

| member | source | states |
|---|---|---|
| CanDefs.DispatchIsExact | include/can_defs.hpp:9-12 | The `switch` on the identifier is exact. Every identifier maps to one kind and back. Exactly the three defined identifiers are known. |
| CanDefs.BigEndian16 | include/can_defs.hpp:32 | `(b0 << 8) \| b1` is the 16-bit value whose high byte is b0 and whose low byte is b1. |
| CanDefs.Chars | include/can_defs.hpp:52-54 | Writing the bytes as `char` gives one character per byte, in order. |
| CanDefs.MotorLine | include/can_defs.hpp:28-39 | The motor line reads back as the big-endian rpm of data[0..2), the speed data[2] and the temperature data[3]. The rpm is at most 65535. |
| CanDefs.ElectricalLine | include/can_defs.hpp:41-47 | The electrical line reads back as day data[3], month data[2] and the big-endian year of data[0..2). |
| CanDefs.IdentificationLine | include/can_defs.hpp:49-55 | The identification line is the tag followed by exactly the first dlc bytes, verbatim. |
| CanDefs.UnknownLine | include/can_defs.hpp:57-59 | For any other identifier, the line reads back as that identifier in lower-case hex, with no upper-case digit. |
| CanDefs.Decode | include/can_defs.hpp:24-62 | `decode` itself. It has no contract of its own. Its properties are stated by MotorLine, ElectricalLine, IdentificationLine, UnknownLine, DecodeTag and DecodeIgnoresDlc. |
| CanDefs.DecodeTag | include/can_defs.hpp:24-62 | A decoded line starts with its own kind's tag and with no other tag. |
| CanDefs.DecodeIgnoresDlc | include/can_defs.hpp:28-59 | Only the identification branch uses the DLC. The other lines are the same for any DLC. |
| CanDefs.HexBytes | include/can_defs.hpp:68-70 | The data part is three characters per byte. |
| CanDefs.HexBytesAt | include/can_defs.hpp:68-70 | Byte i occupies characters 3i..3i+3 as two zero-padded upper-case hex digits and a space. |
| CanDefs.ReadHexBytesRoundTrip | include/can_defs.hpp:68-70 | The hex dump of any bytes reads back as exactly those bytes. |
| CanDefs.FormatRaw | include/can_defs.hpp:64-72 | `formatRaw` itself. It has no contract of its own. Its properties are stated by RawLine, HexBytesAt and ReadHexBytesRoundTrip. |
| CanDefs.RawLine | include/can_defs.hpp:64-72 | The raw line reads back as the identifier, the DLC and exactly the first dlc data bytes. Its length is 24 + the hex identifier's length + 3·dlc. |
| CanDefs.HexDigitsExample | include/can_defs.hpp:66 | Identifier 0x123 is written as `123`. |
| CanDefs.HexBytesExample | include/can_defs.hpp:68-70 | Bytes DE AD BE EF are written as `DE AD BE EF `. |
| CanDefs.RawLineExample | include/can_defs.hpp:64-72 | The raw line of the mock frame is `ID: 0x123 \| DLC: 4 \| Data: DE AD BE EF `. |
| Numerals.Digits | include/can_defs.hpp:36-38 | A number is written with digits only, in the selected case. There is no leading zero, and "0" is written for zero. |
| Numerals.Hex2Padded | include/can_defs.hpp:69 | `setw(2) << setfill('0')` is the plain hex form with one '0' in front of a single digit. |
| Numerals.ValueOfDigits | include/can_defs.hpp:36-38 | A number written in decimal or hex reads back as the same number. |
| Numerals.FieldDigits | include/can_defs.hpp:36-38 | A label, a written number and a non-digit continuation read back as the number and the continuation. |
| Ints.AndLowMaskKeeps | src/drivers.cpp:76-77 | AND with a 2^k − 1 mask leaves a value below 2^k unchanged. |
| Ints.AndLowMaskMod | src/drivers.cpp:76-77 | AND with a 2^k − 1 mask keeps exactly the value modulo 2^k. |
| LinuxCan.MaskWidths | src/drivers.cpp:54 | CAN_SFF_MASK is 2^11 − 1 and CAN_EFF_MASK is 2^29 − 1. |
| Drivers.MaskedId | src/drivers.cpp:76-77 | The received identifier is the kernel identifier modulo 2^11 or 2^29, i.e. `can_id & mask`. It fits the configured width, and an identifier already within it is kept. |
| Drivers.ExtendedFlagStripped | src/drivers.cpp:76-77 | In extended mode, masking strips CAN_EFF_FLAG (bit 31) from a received identifier and keeps its 29 bits. |
| Drivers.FilterAdmission | src/drivers.cpp:50-63 | With no configured ids, every frame passes. Otherwise a frame passes iff some configured id lets it through. A configured id is installed as given, whatever its width. Without CAN_INV_FILTER it lets through the frames whose masked identifier equals its masked form. With CAN_INV_FILTER (bit 29) it lets through exactly the others. |
| Drivers.FilterAdmissionInWidth | src/drivers.cpp:50-63 | When every configured id fits the width (so none sets CAN_INV_FILTER), a frame passes iff its masked identifier is one of the configured ids. |
| Drivers.InvertedStandardFilter | src/drivers.cpp:56-61 | A configured id with CAN_INV_FILTER set (0x2000_0123) is installed as given. It rejects the frame 0x123 and admits 0x124. |
| Drivers.WideStandardFilter | src/drivers.cpp:56-61 | A configured id wider than 11 bits (0x923) is installed unmasked and admits the frame 0x123, which is not itself configured. |
| Drivers.SingleStandardFilter | src/drivers.cpp:50-63 | With the one standard filter 0x123, exactly frames whose 11-bit identifier is 0x123 pass. |
| Drivers.LinuxSocketCanDriver.constructor | src/drivers.cpp:12-13 | A new driver has descriptor −1, is not connected and has no filters. |
| Drivers.LinuxSocketCanDriver.Init | src/drivers.cpp:19-62 | Init succeeds iff socket, lookup and bind all succeed, whatever `setsockopt` returns. The descriptor becomes socket's result. On success the driver is connected, and the filters are installed iff `setsockopt` succeeds. A failure leaves the connection flag as it was. |
| Drivers.LinuxSocketCanDriver.ApplyFilters | src/drivers.cpp:50-63 | When `setsockopt` succeeds, installs one filter per configured id, in order, with the width's mask. Installs nothing when no id is configured or when `setsockopt` fails; that failure is not reported. |
| Drivers.LinuxSocketCanDriver.Read | src/drivers.cpp:65-82 | Read fails iff the driver is not connected or the read fails, and then msg is untouched. Otherwise the identifier is masked and fits the width, and the DLC and all eight bytes are copied. |
| Drivers.LinuxSocketCanDriver.CloseConnection | src/drivers.cpp:84-90 | Closes an open descriptor and marks the driver closed. A second call changes nothing. |
| Drivers.LinuxSocketCanDriver.Destroy | src/drivers.cpp:15-17 | The destructor leaves the driver closed. After an explicit close it changes nothing. |
| Drivers.MockCanDriver.Init | src/drivers.cpp:96-99 | The mock always opens. |
| Drivers.MockCanDriver.Read | src/drivers.cpp:101-110 | The mock always yields id 0x123, DLC 4 and DE AD BE EF, and keeps bytes 4..8 of msg. |
| Drivers.MockFrameLines | src/drivers.cpp:101-110 | The mock frame decodes to `[MOTOR] RPM: 57005 \| Vel: 190 km/h \| Temp: 239 C`, and its raw line is `ID: 0x123 \| DLC: 4 \| Data: DE AD BE EF `. |
| Drivers.CreateDriver | src/drivers.cpp:117-123 | Exactly "socketcan" selects a fresh, closed SocketCAN driver. Any other string selects the mock. |
| Drivers.ReaderStep | src/main.cpp:16-23 | A line is printed iff the read succeeds. The line is `[RX] ` followed by the decoding or the raw line of the frame the driver delivered: the masked socket frame or the fixed mock frame. Nothing changes on failure. |
| Generator.ToByte | src/generator.cpp:115-116 | `(uint8_t)` keeps every value in 0..255. |
| Generator.AsciiBytes | src/generator.cpp:127-129 | The bytes copied out of an ASCII string print back as that string. |
| Generator.MotorFrame | src/generator.cpp:103-117 | The motor frame has id 0x123 and DLC 8. Bytes 4..8 are never written. |
| Generator.InfoFrame | src/generator.cpp:124-131 | The identification frame has id 0x700 and DLC 7, and byte 7 is never written. |
| Generator.ElectricalFrame | src/generator.cpp:136-150 | The electrical frame has id 0x456 and DLC 4. Bytes 4..8 are never written. |
| Generator.SplitJoin | src/generator.cpp:113-114 | Splitting a 16-bit value into high and low bytes and joining them gives the value back. |
| Generator.MotorRoundTrip | src/generator.cpp:113-116 | The decoded motor line reports exactly the packed rpm, speed and temperature. |
| Generator.DrawnMotorLine | src/generator.cpp:107-118 | Any in-range draw is reported exactly by the decoded motor line. |
| Generator.ElectricalRoundTrip | src/generator.cpp:141-149 | The decoded electrical line reports exactly the packed day, month and year. |
| Generator.InfoLine | src/generator.cpp:124-131 | The identification frame decodes to `[INFO] Placa: ABC1234`. |
| Generator.ElectricalLineSent | src/generator.cpp:136-152 | The electrical frame decodes to `[ELETRICA] Fabricacao: 10/12/2024`. |
| Generator.CountIdAppend | src/generator.cpp:97-156 | Counting frames by identifier is additive over concatenation. |
| Generator.CycleCounts | src/generator.cpp:111-152 | In one cycle each frame is sent exactly once when the counter is a multiple of its period, and otherwise not at all. |
| Generator.CycleOrder | src/generator.cpp:111-152 | Within a cycle the frames go out in the order motor, identification, electrical. |
| Generator.ScheduleCounts | src/generator.cpp:95-156 | Over cycles 1..n the motor, identification and electrical frames are sent n/2, n/3 and n/5 times. |
| Generator.ThirtyCycles | src/generator.cpp:95-156 | Thirty cycles send 15 motor, 10 identification and 6 electrical frames. |
| Generator.AllGatesOpen | src/generator.cpp:111-152 | On cycle 30 (any multiple of 30) all three frames go out, in order. |
| Generator.ScheduledFramesSendable | src/generator.cpp:97-156 | Every generated frame is of a known kind and has DLC ≤ 8. |
| Generator.Pass | src/generator.cpp:98-152 | One cycle's body hands over exactly that cycle's gated frames. |
| Generator.Run | src/generator.cpp:95-156 | The loop sends the schedule of cycles 1..n, with the n/2, n/3 and n/5 counts. |
| Generator.CanSender.constructor | src/generator.cpp:25-28 | A new sender holds its configuration. |
| Generator.CanSender.Init | src/generator.cpp:34-59 | Init succeeds iff socket, lookup and bind all succeed. The descriptor is socket's result. |
| Generator.CanSender.Destroy | src/generator.cpp:30-32 | The destructor closes the socket iff the descriptor is non-negative. |
| Generator.CanSender.Send | src/generator.cpp:61-77 | The wire frame carries the identifier, the DLC and the first dlc bytes. A line is printed iff the write is complete, and it is `[TX] ` followed by the decoding or the raw line, as configured. |

## Left out

- Kernel calls are not modelled. The outcomes of `socket`, `ioctl(SIOCGIFINDEX)`, `bind`, `setsockopt`, `read` and `write` are parameters. The code never looks at what `close` returns. The model records only which descriptor is closed: `CloseConnection` resets the descriptor, and `CanSender.Destroy` returns whether it closes one. The filter list is kept as a field: the filters installed on the socket.
- Console and error output other than the `[RX]`/`[TX]` lines is not modelled. This covers `perror` text, the start-up banners and the `[MOCK]`/`[DRIVER]` messages.
- `sleep(1)` in the mock and the 300 ms pause of the generator are not modelled, because timing is outside the model.
- The random source is not modelled. `std::mt19937` and `random_int` become the `Draws` inputs. `InDrawRange` states the ranges `random_int` guarantees.
- `loadConfig` and `src/config.cpp` (JSON parsing and file I/O) are not part of this model. `SystemConfig` is a plain value.
- Generator.Run: the endless `while (true)` loop is modelled as a run of a given finite number of cycles. Overflow of the signed `int` counter after 2^31 − 1 cycles (undefined behaviour in C++) is not modelled.
- Generator.CanSender.constructor: `socket_fd` is left uninitialised in the source, so the destructor may close an arbitrary descriptor if `init` never ran. The model starts it at −1.
- The reader loop of `src/main.cpp` is modelled one pass at a time (`ReaderStep`), not as an endless loop. The virtual dispatch of `ICanDriver` is a match on the `Driver` value.
- The bytes a frame never has written (stack garbage) are inputs, not unknown values: `motorStale`, `infoStale`, `elecStale` and `frameStale`.
- Drivers.LinuxSocketCanDriver.Init: the descriptor of an earlier successful `init` is overwritten without being closed. This leak is not visible in the model beyond the descriptor's new value.
- Exceptions (`try`/`catch` in both `main` functions) are not modelled, because no modelled operation throws.
- Out-of-bounds accesses are excluded by preconditions rather than modelled. `decode` of an identification frame with DLC > 8, and `formatRaw` or `send` with DLC > 8, read past `data[8]` in the source.
- Generator.CanSender.Send: the `[TX]` line is tied to a complete write only. A short or failed write prints to stderr, which is not modelled.
