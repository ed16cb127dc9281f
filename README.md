# A usb-can bridge and its telemetry readers, modelled in Dafny

The system is a USB-to-CAN-FD bridge and two host programs that talk to it.

- **Bridge firmware.** The firmware passes frames both ways between USB and the CAN bus.
- **Wire format.** A frame travels as a 2-byte little-endian header and then the payload. The header holds the 11-bit identifier in bits 0..10 and the data length code in bits 11..15.
- **Host programs.**
  - The Rust plotter reads sensor frames. It unpacks the payload into pressure, accelerometer and gyroscope values, computes the frame rate over a 50-frame window and keeps a bounded history of points.
  - Python scripts use the same framing. They pack and unpack typed fields, and pick the serial port by name or by description.

The model covers these parts:

- **`Can`** is the plotter's frame codec: the sixteen length codes, `send_frame` and `receive_frame`. Reading back what was sent returns the frame. A payload whose length does not match its code corrupts the stream in a way the model describes exactly.
- **`PyFrames`** is the Python script's frame codec. It has the same layout but does not mask the identifier. On every input it reads what the plotter's codec reads.
- **`Firmware`** is the bridge's `App_Send` and receive callback, over the static buffers (class `UsbCanApp`). The callback's header is the plotter's header, so the uplink decodes. `App_Send` copies the wrong number of bytes for frames of 12 bytes or more; see Findings.
- **`Telemetry`** is the plotter's payload unpacking loop (an unsigned 16-bit field, six unsigned 24-bit fields, then signed 16-bit fields) and the slicing of the values into channels. The loop succeeds exactly on the lengths that end on a field boundary, and it yields the fields at their offsets.
- **`Rate`** is the 50-interval window and the mean rate over it (class `IntervalWindow`).
- **`History`** is `DataHistory`: twelve channels, each capped at 1000 points with the oldest dropped first (class `DataHistory`). Every channel holds the latest 1000 points pushed onto it.
- **`Reader`** is the two reader loops, `can_reader_thread` and the older `main`. Each step receives a frame, records its interval, unpacks and slices it, scales it, and stores or reports it when its id is 1. Both loops stop at the same place.
- **`SerialManager`** is the Python `pack_data`/`unpack_data`, their format-string ancestors `old_pack_data`/`old_unpack_data`, and the port choice in `SerialManager.__init__`. Covered: the round trip, the failure conditions, and where old and new agree.
- **`Sensors`** is the field list of `python/sensors.py`. Unpacking a payload with it gives the plotter's values.
- **`Serial`** and **`Selection`** are the plotter's port choice in `SerialManager::new`, and the shared rule that the `n`-th matching port is chosen.
- **`Bytes`**, **`Seqs`** and **`Results`** hold little-endian integers, bitwise OR, two's complement, and the `Option`/`Result` wrappers.

## Model

| member | source | states |
|---|---|---|
| Can.Index | rust/plotter/src/can.rs:8-25 | each code's discriminant is below 16 |
| Can.Size | rust/plotter/src/can.rs:28-47 | the byte count of a code is the CAN FD length of its discriminant (ISO 11898-1 coding) |
| Can.FromIndex | rust/plotter/src/can.rs:91-109 | the header's code is accepted exactly when it is below 16, and it maps back to the code with that discriminant |
| Can.SizeStrictlyIncreasing | rust/plotter/src/can.rs:28-47 | sizes grow strictly with the discriminant, so a size determines its code; no size exceeds 64 |
| Can.FromIndexInvertsIndex | rust/plotter/src/can.rs:88-109 | decoding a code's discriminant gives the code back |
| Can.Header | rust/plotter/src/can.rs:72 | the header's low 11 bits are the id's low 11 bits and its top bits are the code |
| Can.SendFrame | rust/plotter/src/can.rs:66-80 | the written bytes are the 2-byte header (id masked to 11 bits, code above) then the payload unchanged |
| Can.HeaderBytes | rust/plotter/src/can.rs:84-89 | the little-endian header splits into the code (second byte / 8) and the id (the rest) |
| Can.ReceiveFrame | rust/plotter/src/can.rs:82-119 | reads the 2-byte header, then the payload of the code's size; its results are stated by Can.ReceiveFrameShape, Can.ReceiveFrameRejectsIff, Can.ReceiveFrameShortInput, Can.ReceiveKnownCode and Can.RoundTrip |
| Can.ReceiveFrameShape | rust/plotter/src/can.rs:82-119 | a successful read has an id below 2048 and a payload of exactly the code's size, and it consumes exactly header + payload |
| Can.ReceiveFrameRejectsIff | rust/plotter/src/can.rs:91-109 | the "Invalid DLC index" error happens exactly when the second byte is 0x80 or more |
| Can.ReceiveFrameShortInput | rust/plotter/src/can.rs:84-86 | too few bytes for the header, or for the payload the code asks for, is a read failure, and only that |
| Can.RoundTrip | rust/plotter/src/can.rs:66-119 | receiving what `send_frame` wrote returns the masked id, the code and the payload, leaving the following bytes untouched |
| Can.IdMasking | rust/plotter/src/can.rs:72 | two ids give the same bytes exactly when their low 11 bits agree |
| Can.MismatchedPayload | rust/plotter/src/can.rs:66-80 | with a payload length other than the code's size, the read fails iff too few bytes follow; otherwise it returns a different payload and shifts the byte boundary of the stream |
| Can.ReceiveKnownCode | rust/plotter/src/can.rs:82-119 | a header carrying a valid code gives that code's frame, or a read failure when the payload is short |
| PyFrames.Value | software/main.py:10-26 | every enum value is below 16 |
| PyFrames.TablesAgree | software/main.py:10-29 | the enum, `dlc_sizes` and the plotter's `CanDlc` give the same codes and sizes |
| PyFrames.SendFrame | software/main.py:32-38 | `struct.pack("<H", dlc_idx << 11 \| id)` then the data; stated by PyFrames.UnmaskedId, PyFrames.SendMatchesPlotter and PyFrames.RoundTrip |
| PyFrames.ReceiveFrame | software/main.py:41-46 | the header split into id and code, then the code's payload; stated by PyFrames.ReceiveKnownHeader, PyFrames.ReceiveMatchesPlotter and PyFrames.RoundTrip |
| PyFrames.UnmaskedId | software/main.py:32-38 | the id's bits above bit 10 are OR-ed into the code; packing fails exactly when the code grows past 5 bits |
| PyFrames.SendMatchesPlotter | software/main.py:32-38 | for an id below 2048 the script writes the plotter's bytes |
| PyFrames.RoundTrip | software/main.py:32-46 | reading back what `send_frame` wrote returns id, payload and code |
| PyFrames.ReceiveKnownHeader | software/main.py:41-46 | a header `code * 2048 + id` with a valid code yields that frame |
| PyFrames.HeaderSplit | software/main.py:43-44 | the mask and the shift recover the id and the code |
| PyFrames.ReceiveMatchesPlotter | software/main.py:41-46 | on every input the script's reader and the plotter's fail alike (table overrun iff invalid code, short read iff short read) and otherwise return the same frame and rest |
| Firmware.DlcSizeIsHostTable | firmware/usb-can/App/Src/app.c:17 | `dlc_size` is the plotter's size table, and no entry exceeds the buffer |
| Firmware.Memcpy | firmware/usb-can/App/Src/app.c:61 | `memcpy` keeps the buffer length |
| Firmware.CopyLength | firmware/usb-can/App/Src/app.c:57-58 | the length `App_Send` copies is below 32, inside `tx_data` |
| Firmware.RxHeaderBytes | firmware/usb-can/App/Src/app.c:76-78 | the callback writes two header bytes |
| Firmware.RxHeaderValue | firmware/usb-can/App/Src/app.c:76-78 | for an 11-bit id and a 4-bit code the header is `code * 2048 + id`, little-endian |
| Firmware.RxHeaderSplit | firmware/usb-can/App/Src/app.c:76-78 | the header bytes of `lo + 256 * hi` are `lo` and `code * 8 + hi` |
| Firmware.HighByte | firmware/usb-can/App/Src/app.c:78 | OR-ing `DataLength << 3` into the id's top bits is addition |
| Firmware.RxHeaderIsHostHeader | firmware/usb-can/App/Src/app.c:76-78 | the callback's header bytes are the plotter's header for the same id and code |
| Firmware.HeaderDigits | rust/plotter/src/can.rs:72 | the plotter's header split into its low byte and `code * 8 + id / 256` |
| Firmware.UplinkDecodes | firmware/usb-can/App/Src/app.c:67-86 | what the callback sends is read by the plotter as the CAN frame received |
| Firmware.SendForwardsStaleBytes | firmware/usb-can/App/Src/app.c:56-65 | as written: `App_Send` copies `code` bytes, so the frame carries the new payload only where its tail equals the stale bytes already in `tx_data` |
| Firmware.CodeAtMostSize | firmware/usb-can/App/Src/app.c:17 | a code never exceeds its size, so the short copy stays inside the payload |
| Firmware.TwelveByteFrameCorrupted | firmware/usb-can/App/Src/app.c:58-61 | a 12-byte frame of 0xFF sent after start-up leaves with zero bytes in its tail |
| Firmware.FixedCopyLength | firmware/usb-can/App/Src/app.c:17 | the corrected length `dlc_size[code]` fits the buffer |
| Firmware.FixedSendForwardsPayload | firmware/usb-can/App/Src/app.c:56-65 | with `dlc_size[code]` copied, every frame leaves with exactly its payload |
| Firmware.UsbCanApp.constructor | firmware/usb-can/App/Src/app.c:14-15 | the static buffers start zeroed, with their declared sizes |
| Firmware.UsbCanApp.Send | firmware/usb-can/App/Src/app.c:56-65 | as written: the id and the length field come from the header, and `tx_data` receives `header >> 11` payload bytes, the rest unchanged |
| Firmware.UsbCanApp.SendChecked | firmware/usb-can/App/Src/app.c:56-65 | corrected: a code of 16 or more is refused with nothing changed; otherwise `dlc_size[code]` bytes are copied |
| Firmware.UsbCanApp.Copy | firmware/usb-can/App/Src/app.c:61 | the first `n` bytes of `tx_data` become the source's, the rest unchanged |
| Firmware.UsbCanApp.RxFifo0Callback | firmware/usb-can/App/Src/app.c:67-86 | `rx_data` holds the header then the payload; exactly header + `dlc_size[DataLength]` bytes are sent |
| Firmware.UsbCanApp.StorePayload | firmware/usb-can/App/Src/app.c:69 | the payload lands after the two header bytes, the rest unchanged |
| Firmware.UsbCanApp.AssembleHeader | firmware/usb-can/App/Src/app.c:76-78 | only the two header bytes change, to the header value |
| Telemetry.U16At | rust/plotter/src/main.rs:209-211 | an unsigned 16-bit value |
| Telemetry.I16At | rust/plotter/src/main.rs:218-221 | a signed 16-bit value |
| Telemetry.U24AtIsLittleEndian | rust/plotter/src/main.rs:213-216 | the three shifted bytes OR-ed together are the little-endian 24-bit value |
| Telemetry.Unpack | rust/plotter/src/main.rs:206-224 | the unpacking loop computes the cursor walk, panicking (`None`) where it reads past the end |
| Telemetry.UnpackFrom | rust/plotter/src/main.rs:206-224 | the loop from a cursor with a count of values already pushed; stated by Telemetry.UnpackFromStep, Telemetry.UnpackFromDefined and Telemetry.UnpackFromField |
| Telemetry.OffsetBoundary | rust/plotter/src/main.rs:206-224 | each field starts where the previous one ends; a field start is a valid length and no length inside a field is |
| Telemetry.FieldsCons | rust/plotter/src/main.rs:206-224 | a field in front of the fields after it |
| Telemetry.UnpackFromStep | rust/plotter/src/main.rs:206-224 | one turn of the loop at a field start reads that field, or panics when it does not fit |
| Telemetry.UnpackFromDefined | rust/plotter/src/main.rs:206-224 | from any field start, the loop succeeds exactly on the valid lengths |
| Telemetry.UnpackFromField | rust/plotter/src/main.rs:206-224 | a successful loop from field `k` yields the remaining fields at their offsets |
| Telemetry.UnpackResult | rust/plotter/src/main.rs:206-224 | the loop succeeds iff the length ends on a field boundary, and then returns exactly the fields at their offsets |
| Telemetry.UnpackRanges | rust/plotter/src/main.rs:206-224 | value 0 is below 2^16, values 1..6 below 2^24, the rest in the signed 16-bit range |
| Telemetry.PayloadLengths | rust/plotter/src/main.rs:206-224 | an even length of 20 or more yields `7 + (n - 20) / 2` values, an odd one panics, 32 bytes give 13 values |
| Telemetry.FieldBytes | rust/plotter/src/main.rs:209-221 | each field read from its own bytes, least significant first |
| Telemetry.MainChannels | rust/plotter/src/main.rs:227-229 | values 1..7, 7..10 and 10..13, panicking on fewer than 13 values; stated by Telemetry.ChannelSlices |
| Telemetry.OldChannels | rust/plotter/src/old_main.rs:65-67 | values 0..7, 7..10 and 10..13, panicking on fewer than 13 values; stated by Telemetry.ChannelSlices |
| Telemetry.ChannelSlices | rust/plotter/src/main.rs:227-229 | both readers need 13 values; the older one's pressures are value 0 followed by the newer one's six |
| Telemetry.ChannelsNeedThirtyTwoBytes | rust/plotter/src/main.rs:206-229 | unpacking and slicing both succeed exactly on even payloads of 32 bytes or more |
| Rate.Elapsed | rust/plotter/src/main.rs:186-189 | the interval is the difference of the readings, saturating at zero |
| Rate.MeanRate | rust/plotter/src/main.rs:199-203 | the rate is infinite exactly when the intervals sum to zero |
| Rate.MeanRateIsMean | rust/plotter/src/main.rs:199-203 | a positive total gives a positive rate whose product with the total time is the count |
| Rate.AverageHz | rust/plotter/src/main.rs:199-203 | an empty window shows 0, a non-empty one is infinite iff its sum is zero |
| Rate.Push | rust/plotter/src/main.rs:192-196 | drop the oldest interval when 50 are held, then append; stated by Rate.PushKeepsLatest, Rate.WindowIsLatest and Rate.WindowFull |
| Rate.PushKeepsLatest | rust/plotter/src/main.rs:192-196 | a push keeps the latest 50 intervals, the new one last |
| Rate.WindowIsLatest | rust/plotter/src/main.rs:192-196 | after any number of pushes the window is the latest 50 intervals ever pushed |
| Rate.WindowFull | rust/plotter/src/main.rs:192-196 | 50 or more pushes onto an empty window leave exactly the last 50 |
| Rate.SumConstant | rust/plotter/src/main.rs:199-203 | the sum of a constant window is its length times the interval |
| Rate.SteadyRate | rust/plotter/src/main.rs:199-203 | a steady period of `d` nanoseconds shows as `10^9 / d` Hz |
| Rate.IntervalWindow.constructor | rust/plotter/src/main.rs:180-182 | the window starts empty, with the start time as the last reading |
| Rate.IntervalWindow.Total | rust/plotter/src/main.rs:200 | the loop computes the sum of the window |
| Rate.IntervalWindow.Record | rust/plotter/src/main.rs:186-203 | the interval is pushed and the reading kept; the rate returned is the window's mean rate and never the empty-window 0 |
| History.AddAll | rust/plotter/src/main.rs:39-62 | every channel group keeps its number of channels |
| History.PushCapped | rust/plotter/src/main.rs:41-44 | drop the oldest point when 1000 are held, then append; stated by History.PushCappedShape and History.PushCappedKeepsLatest |
| History.PushCappedShape | rust/plotter/src/main.rs:39-62 | a push leaves `min(len + 1, 1000)` points, the new one last, dropping the oldest exactly when full |
| History.PushCappedKeepsLatest | rust/plotter/src/main.rs:39-62 | a push keeps the latest 1000 points |
| History.ChannelIsLatest | rust/plotter/src/main.rs:39-62 | after any number of pushes a channel is the latest 1000 points, oldest first |
| History.AddAllCapped | rust/plotter/src/main.rs:39-62 | `add_data` keeps every channel capped; channel `i` gains `values[i]`, channels past the values are unchanged |
| History.DataHistory.constructor | rust/plotter/src/main.rs:24-37 | six empty pressure channels, three and three empty axes, rate 0 |
| History.DataHistory.AddData | rust/plotter/src/main.rs:39-62 | each group becomes its capped push of the values, the rate the new one, the caps preserved |
| History.PushEach | rust/plotter/src/main.rs:41-59 | the per-channel loop computes the capped push of each value onto its channel |
| History.OverflowDropsFirst | rust/plotter/src/main.rs:13 | 1001 samples on a channel keep all but the first |
| Reader.Channels | rust/plotter/src/main.rs:206-229 | the newer loop's unpacking and slicing of a payload; stated by Reader.ChannelsAgree and Reader.ChannelCounts |
| Reader.OldChannels | rust/plotter/src/old_main.rs:38-67 | the older loop's unpacking and slicing; stated by Reader.ChannelsAgree and Reader.ChannelCounts |
| Reader.ChannelCounts | rust/plotter/src/main.rs:227-229 | the newer slicing gives 6, 3 and 3 values, the older one 7, 3 and 3 |
| Reader.StopOf | rust/plotter/src/main.rs:183-236 | why a loop over the byte stream ends: the first read error, or a panic at the first payload that does not unpack into 13 values; stated by Reader.ShortPayloadPanics, Reader.FullPayloadContinues, Reader.CanReaderThread and Reader.OldMain |
| Reader.Processed | rust/plotter/src/main.rs:183-236 | the frames the loop gets through before it stops, each one unpacking into full channels |
| Reader.Scale | rust/plotter/src/main.rs:227-229 | each scaled value times its ticks per unit is the raw value |
| Reader.ChannelsAgree | rust/plotter/src/old_main.rs:38-67 | the two loops panic on the same payloads: exactly those that are not even and at least 32 bytes |
| Reader.ShortPayloadPanics | rust/plotter/src/main.rs:206-229 | a frame shorter than 32 bytes stops the loop with a panic, whatever its id |
| Reader.FullPayloadContinues | rust/plotter/src/main.rs:206-236 | a 32-byte frame is processed and the loop goes on after it |
| Reader.Step | rust/plotter/src/main.rs:183-236 | a read error ends the loop with nothing changed; otherwise the interval is recorded, a bad payload panics, and an id-1 frame adds its scaled channels and the rate to the history |
| Reader.Stored | rust/plotter/src/main.rs:231-235 | storing a sample keeps six pressure channels and three and three axes |
| Reader.HistoryAfter | rust/plotter/src/main.rs:177-237 | the history after the loop, sample by sample, keeps its six, three and three channels |
| Reader.NoSampleKeepsHistory | rust/plotter/src/main.rs:231-235 | a stream whose processed frames include none with id 1 leaves the history as it was |
| Reader.NoSampleFirst | rust/plotter/src/main.rs:231 | in such a stream the first processed frame does not have id 1, and the rest has none either |
| Reader.CanReaderThread | rust/plotter/src/main.rs:177-237 | the loop ends with the stop reason of the byte stream, and the history is the one `HistoryAfter` gives: each id-1 frame before the stop adds its scaled channels at its elapsed time with the rate over the window, clock readings 0 and 1 being `last_time` and `start_time` |
| Reader.OldStep | rust/plotter/src/old_main.rs:18-93 | the same step, reporting seven pressures (value 0 included) for id 1 instead of storing |
| Reader.OldReports | rust/plotter/src/old_main.rs:17-95 | the reports printed so far, then one per processed frame with id 1 |
| Reader.ReportPerSample | rust/plotter/src/old_main.rs:70-93 | the older loop adds exactly one report per processed frame with id 1 |
| Reader.ReportShapes | rust/plotter/src/old_main.rs:65-67 | every report the older loop adds has 7, 3 and 3 values |
| Reader.OldMain | rust/plotter/src/old_main.rs:10-95 | the older loop stops where the newer one does; its reports are exactly `OldReports` from an empty window, one per processed id-1 frame (`ReportPerSample`), each with 7, 3 and 3 values |
| SerialManager.Value | python/serial_manager.py:10-22 | each member's value indexes the tables |
| SerialManager.TableLookups | python/serial_manager.py:25-27 | widths and codes are `data_lengths` and `data_strings` at the member's value |
| SerialManager.CodeSize | python/serial_manager.py:27 | every integer code has a positive standard size |
| SerialManager.PackCode | python/serial_manager.py:36-37 | `struct.pack` of one value succeeds exactly when it fits the code, with the code's size |
| SerialManager.CodeRoundTrip | python/serial_manager.py:37 | unpacking a packed value under the same code returns it |
| SerialManager.StructPack | python/serial_manager.py:62 | a successful pack has the format's size |
| SerialManager.StructUnpack | python/serial_manager.py:70 | unpacking succeeds exactly on data of the format's size, with one value per code |
| SerialManager.PySlice | python/serial_manager.py:46 | a Python slice has at most `hi - lo` elements |
| SerialManager.PySliceClamped | python/serial_manager.py:46 | a Python slice is the Dafny slice with both ends clamped to the length |
| SerialManager.IntCode | python/serial_manager.py:25-27 | an integer type's code is one character whose size is the type's width, signed exactly for the signed types |
| SerialManager.CodeFormat | python/serial_manager.py:27 | a type contributes one code if it is an integer type, none otherwise |
| SerialManager.StructPackOne | python/serial_manager.py:36-37 | packing one value with a one-code format is packing it under that code |
| SerialManager.PackField | python/serial_manager.py:33-37 | a field packs exactly when the value fits (UInt24 by `to_bytes`, raising OverflowError, the rest by `struct`, raising struct.error), to its width |
| SerialManager.ZipLength | python/serial_manager.py:32 | `zip` stops at the shorter list |
| SerialManager.PackData | python/serial_manager.py:30-38 | the loop computes pack-field-by-field over the `zip`, stopping at the first exception |
| SerialManager.PackFrom | python/serial_manager.py:30-38 | packing from pair `i` on, stopping at the first exception; stated by SerialManager.PackStep, SerialManager.PackSucceeds, SerialManager.PackLength and SerialManager.RoundTrip |
| SerialManager.WidthsSnoc | python/serial_manager.py:25 | the widths of one more type add that type's width |
| SerialManager.PackStep | python/serial_manager.py:32-37 | one pair fails or puts its bytes in front of the rest; the whole succeeds iff this pair fits and the rest succeeds |
| SerialManager.PackSucceeds | python/serial_manager.py:30-38 | `pack_data` fails exactly when some paired value does not fit its type |
| SerialManager.PackLength | python/serial_manager.py:30-38 | the packed bytes are as long as the widths of the paired types |
| SerialManager.StructField | python/serial_manager.py:50-52 | an empty format raises IndexError on empty data (struct.error otherwise); a one-code format reads the value iff the chunk has the code's size |
| SerialManager.UnpackField | python/serial_manager.py:44-53 | one field read at an offset; stated by SerialManager.UnpackFieldCases and SerialManager.UnpackIntField |
| SerialManager.UnpackFieldCases | python/serial_manager.py:44-53 | Empty raises IndexError, UInt24 never fails, an integer type fails iff its slice is short, a full field decodes its bytes |
| SerialManager.UnpackIntField | python/serial_manager.py:49-53 | an integer field succeeds iff it fits in the data, and then decodes its bytes |
| SerialManager.UnpackStep | python/serial_manager.py:44-53 | one more type either raises or appends its value |
| SerialManager.UnpackEnd | python/serial_manager.py:54 | with all types read, the values gathered are the result |
| SerialManager.UnpackData | python/serial_manager.py:41-54 | the loop computes the field-by-field reading, stopping at the first exception |
| SerialManager.UnpackFrom | python/serial_manager.py:41-54 | unpacking from type `i` on, stopping at the first exception; stated by SerialManager.UnpackStep, SerialManager.UnpackFields, SerialManager.UnpackDecodes and SerialManager.RoundTrip |
| SerialManager.UnpackFields | python/serial_manager.py:41-54 | with no Empty type and enough bytes, unpacking succeeds with each field read in full at its offset |
| SerialManager.UnpackHead | python/serial_manager.py:44-53 | a full field's decoded value in front of the rest |
| SerialManager.FieldsCons | python/serial_manager.py:44-53 | a field in front of the fields after it |
| SerialManager.UnpackSame | python/serial_manager.py:44-53 | reads that agree on a field and the fields after it agree |
| SerialManager.PySliceTrailing | python/serial_manager.py:46 | a slice inside the data ignores appended bytes |
| SerialManager.UnpackFieldTrailing | python/serial_manager.py:44-53 | a full field ignores bytes after it |
| SerialManager.UnpackIgnoresTrailing | python/serial_manager.py:41-54 | bytes beyond the fields do not change the result |
| SerialManager.ShortUInt24 | python/serial_manager.py:45-48 | a UInt24 cut short by the end of the data reads the bytes there are, without an error |
| SerialManager.EmptyRaises | python/serial_manager.py:50-52 | reaching an Empty type raises IndexError whatever the data |
| SerialManager.FieldRoundTrip | python/serial_manager.py:33-52 | a packed field decodes to its value |
| SerialManager.FieldReadBack | python/serial_manager.py:33-52 | a packed field between any bytes reads back as its value |
| SerialManager.RoundTrip | python/serial_manager.py:30-54 | unpacking what `pack_data` packed, with any bytes before and after, gives the values back |
| SerialManager.RoundTripFrom | python/serial_manager.py:30-54 | the round trip from any field on |
| SerialManager.RoundTripStep | python/serial_manager.py:30-54 | one field of the round trip in front of the rest |
| SerialManager.OldFormat | python/serial_manager.py:58-60 | the older format is made of integer codes |
| SerialManager.BuildFormat | python/serial_manager.py:58-60 | the loop concatenates the codes of the types |
| SerialManager.OldPackData | python/serial_manager.py:57-62 | `struct.pack` of the built format and all values |
| SerialManager.OldUnpackData | python/serial_manager.py:65-70 | `struct.unpack` of the built format and the data |
| SerialManager.OldFormatCons | python/serial_manager.py:58-60 | the older format of plain types is the first code then the rest's format |
| SerialManager.OldFormatSize | python/serial_manager.py:58-60 | one code per plain type, with size the sum of widths |
| SerialManager.OldUnpackNeedsExactLength | python/serial_manager.py:65-70 | `old_unpack_data` accepts exactly one length, the sum of the widths |
| SerialManager.StructUnpackCons | python/serial_manager.py:70 | `struct.unpack` reads the first code's bytes then the rest |
| SerialManager.OldUnpackAgrees | python/serial_manager.py:41-70 | on plain types and data of exactly the right length, old and new unpacking agree |
| SerialManager.Decoded | python/serial_manager.py:41-54 | one decoded value per remaining type |
| SerialManager.OldUnpackDecodes | python/serial_manager.py:65-70 | the older unpacking yields the fields decoded at their offsets |
| SerialManager.UnpackDecodes | python/serial_manager.py:41-54 | the newer unpacking of plain types yields the fields decoded at their offsets |
| SerialManager.OldUnpackHead | python/serial_manager.py:65-70 | the older unpacking's first value in front of the rest |
| SerialManager.StructPackCons | python/serial_manager.py:62 | `struct.pack` packs the first value under the first code, then the rest |
| SerialManager.OldPackAgrees | python/serial_manager.py:30-62 | on plain types with as many values as types, old and new packing agree |
| SerialManager.OldPackAgreesFrom | python/serial_manager.py:30-62 | the same agreement from any field on |
| SerialManager.OldPackCountMismatch | python/serial_manager.py:57-62 | a count of values other than the number of plain types raises struct.error |
| SerialManager.CheckPort | python/serial_manager.py:95-100 | a port matches by description (equal, or prefix with `startswith`) or by device name |
| SerialManager.SelectDevice | python/serial_manager.py:91-112 | the `device_number`-th matching port is chosen; a negative number, too few matches or an empty name raise DeviceNotFound; printing does not change the choice |
| Sensors.SensorTypesPlain | python/sensors.py:12-26 | the sensor list has no Empty type |
| Sensors.SensorOffsets | python/sensors.py:12-26 | each field of the list starts at the plotter's offset and has its width |
| Sensors.SameField | python/sensors.py:12-26 | field `j` decoded by `unpack_data` is the plotter's value `j` |
| Sensors.SensorValue | python/sensors.py:12-26 | value `j` from `unpack_data` with the list is the plotter's value `j` |
| Sensors.PythonMatchesPlotter | python/sensors.py:12-26 | on 32 bytes or more `unpack_data` gives 13 values, the plotter's first 13; on exactly 32 both give the same values |
| Selection.Matching | rust/plotter/src/serial.rs:52-58 | the matches are among the ports and satisfy the rule |
| Selection.CountBefore | rust/plotter/src/serial.rs:52-58 | the scan's running count of matches, never more than the ports scanned |
| Selection.CountMatches | rust/plotter/src/serial.rs:52-58 | the running count over the first `k` ports is the number of matches among them |
| Selection.MatchingStep | rust/plotter/src/serial.rs:52-58 | one more port scanned appends it exactly when it matches |
| Selection.NthMatch | rust/plotter/src/serial.rs:52-58 | a matching port with `n` matches before it is the `n`-th match |
| Selection.CountStep | python/serial_manager.py:101-107 | the count grows by one on a match, which is the match at the old count |
| Selection.MatchingPrefix | rust/plotter/src/serial.rs:23-59 | scanning further only appends matches |
| Selection.NoMatches | rust/plotter/src/serial.rs:23-59 | no matching port means no match |
| Serial.CheckPort | rust/plotter/src/serial.rs:29-50 | a USB port matches by product (equal, or prefix) only by description; any other port by name only when not by description |
| Serial.NotFound | rust/plotter/src/serial.rs:61 | the error message starts with the device name |
| Serial.SelectPort | rust/plotter/src/serial.rs:23-61 | the `device_number`-th matching port is chosen, otherwise "not found" |
| Serial.MatchKinds | rust/plotter/src/serial.rs:29-50 | a USB port never matches by name, another port never by description, a USB port without a product never |
| Serial.UsbPortsNeverMatchByName | rust/plotter/src/serial.rs:29-50 | with only USB ports a search by name finds nothing |
| Serial.PrefixWidens | rust/plotter/src/serial.rs:29-50 | matching by prefix accepts every exact match |
| Bytes.FromLe | rust/plotter/src/can.rs:84-86 | an `n`-byte little-endian value is below 256^n |
| Bytes.ToLe | rust/plotter/src/can.rs:74-76 | `to_le_bytes` gives `n` bytes that read back as the value |
| Bytes.ToLeFromLe | rust/plotter/src/can.rs:74-86 | writing back the value of bytes gives the bytes |
| Bytes.Signed | rust/plotter/src/main.rs:218-221 | two's complement reinterpretation: in range, equal to the unsigned value or that minus 256^n |
| Bytes.Unsigned | python/serial_manager.py:37 | the two's-complement encoding reads back as the signed value |
| Bytes.BitOr | rust/plotter/src/can.rs:72 | bitwise OR of non-negative integers; stated by Bytes.BitOrCommutes, Bytes.BitOrShifted and Bytes.BitOrDisjoint |
| Bytes.BitOrCommutes | rust/plotter/src/can.rs:72 | OR is commutative |
| Bytes.BitOrShifted | software/main.py:33 | OR of values split at bit `k` ORs the high parts and keeps the low bits |
| Bytes.BitOrDisjoint | rust/plotter/src/can.rs:72 | OR of non-overlapping bits is addition |

## Left out

- Floating-point fields (`Float`, `Double`) are outside `SerialManager.FieldType`. `struct`'s `f` and `d` codes and IEEE 754 rounding are not modelled.
- Native byte order for `struct`'s `=` prefix is taken to be little-endian.
- Clock readings, the serial port and the frames still to arrive are parameters: a function from the reading's number to nanoseconds, and the byte sequence still to come. Opening ports (`serialport::new`, `serial.Serial`), `write_bytes`, `read_bytes`, `read_until` and `read_line` are not modelled.
- The egui plotting window and its `update` function are not part of this model. The reader thread's sharing of the history through a `Mutex` is not modelled either; the history is an object the loop owns.
- Rates and scaled values are exact reals; `f64` rounding is not modelled. A zero total gives an infinite rate, as IEEE division by zero does.
- Reader.CanReaderThread: `last_time` and `start_time` are readings 0 and 1 of the clock parameter, as the source reads the clock twice before the loop. Each turn reads it once after the frame (`Instant::now()`, reading `2k + 2` in turn `k`), and once more (`elapsed()`) only for a frame with id 1; reading `2k + 3` is set aside for every turn and used only then. The thread's infinite loop is modelled up to the first stop.
- Reader.StopOf: the plotter opens its port with a 100 ms timeout (rust/plotter/src/serial.rs:63), so a pause of 100 ms or more in the byte stream ends `can_reader_thread` with a read error. Time between bytes is not modelled; such a pause is modelled only by the byte sequence ending there.
- Reader.OldMain: the printed report is a value; its text formatting is not modelled.
- History.DataHistory.AddData: requires at most 6, 3 and 3 values. The source's `enumerate` over longer slices would index past the channel vectors and panic; the callers always pass exactly 6, 3 and 3.
- Serial.SelectPort: `available_ports()?` failing is not modelled; the enumerated ports are an input. Printing the ports with `print_devices` is not modelled because it does not change the choice.
- SerialManager.SelectDevice: the printing with `print_devices` is not modelled; its effect on the scan (continuing past the choice) is.
- PyFrames.SendFrame: ids and codes are non-negative; negative Python integers are not modelled.
- PyFrames.ReceiveFrame: `SerialManager.__init__` opens the port without a timeout (python/serial_manager.py:110), so `read_bytes` (python/serial_manager.py:118-120) waits until all the requested bytes arrive. `ShortRead` stands for a stream that ends before a read completes, that is, a read that never returns; pyserial never hands back a short result here.
- Firmware: `App_Init`, the HAL calls (`HAL_FDCAN_AddMessageToTxFifoQ`, `HAL_FDCAN_GetRxMessage`, `CDC_Transmit_FS`) and their status codes are not modelled. The controller's delivery of the payload into `rx_data + 2` is `StorePayload`.
- The `can_manager` Python module is not part of this model. Of `python/sensors.py` only the field list is used, with `unpack_data`; its read loop and printing are not modelled.
- The bridge's register-level start-up in `rust/usb-can/src/main.rs` is hardware set-up and is not modelled.

## Findings

| source | as written | input that shows it | evidently intended | confidence | as-written member | corrected member |
|---|---|---|---|---|---|---|
| firmware/usb-can/App/Src/app.c:58-61 | `App_Send` copies `header >> 11` bytes (the length code) into `tx_data`, not `dlc_size[code]` | a 12-byte frame of 0xFF bytes (code 9) after start-up: only 9 bytes are copied, and the frame leaves with three zero bytes in its tail | copy `dlc_size[code]` bytes, so the frame carries exactly its payload | not executed | Firmware.SendForwardsStaleBytes | Firmware.FixedSendForwardsPayload |
