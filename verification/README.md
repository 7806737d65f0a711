# SimTelemetry core, modelled in Dafny

SimTelemetry is a browser dashboard for racing-game telemetry. A hub relays the
games' UDP packets over a WebSocket. In the browser, a decoder for the selected
game turns each binary packet into a `Frame`, a flat record of named numbers and
strings. The telemetry provider keeps the frames in per-packet-type buffers and
queues, and the chart helpers turn buffers into Plotly traces. The XLSX helpers
export the buffers to a workbook, import them again, and import legacy CSV.

This project models that core:

- **Byte readers** (`Wire`). Little-endian unsigned and two's-complement reads
  that fail past the end of the buffer (the `RangeError` of a `DataView`). Also
  the Latin-1 and NUL-trimmed strings of the F1 decoders, the bounded UTF-16
  reader of the ACC decoder, and the decimal rendering of a 64-bit session id.
- **Record layouts and the cursor walk** (`Layout`, `BoundedReads`). Every
  decoder reads a record field by field with a moving `offset`. A layout lists
  the reads in wire order. `ReadFrom` is what the walk produces and `ReadLayout`
  is the walk itself. The early-exit loops of the F1 25 decoder are modelled
  separately.
- **The four decoders.**
  - F1 24 (`F1Decoder24`, 15 packet types) and F1 25 (`F1Decoder25`, 16 packet
    types), with the shared header and dispatch in `F1Common`. The field tables
    are in `F1Layouts24`/`F1Layouts25`.
  - Assetto Corsa Competizione (`AccDecoder`), with its derived fields in
    `AccDerived` and its pages in `AccLayouts`.
  - Forza Motorsport (`ForzaDecoder`), with its layout in `ForzaLayout`.
  - The ACC and Forza decoders are classes: they keep the previous frame to
    derive rates from.
- **The decoder registry and the config loader** (`Decoders`, `Config`), as
  classes with caches.
- **The telemetry store** (`Telemetry`). It covers:
  - routing a frame to the live or holding buffers;
  - the trim counter and time-based retention;
  - the packet-size check and its one-second error window;
  - `getSlice`, `getQueued` and `getLatestFrame`;
  - pause and resume with merge, sort and retention;
  - `replaceBuffer` and `clearAll`.

  `TelemetryStore` is a class whose fields are the provider's maps. Each method
  is proved against a function of the whole state (`Store`).
- **XLSX and CSV** (`Xlsx`).
  - Sheet naming, sorting and skipping on export, and sheet-name parsing and row
    normalisation on import.
  - The export-then-import round trip.
  - The CSV import: line split, header trim, quote strip, blank-line filter and
    timestamp fallback.
  - The timestamped file name.
- **Chart helpers** (`Plotly`). Initial and box traces, the x-axis window,
  point extraction with scaling, validation, and the clear-data updates.

Throughout the model:

- Values are `Frames.Value`: an integer, a raw 32- or 64-bit float pattern, a
  real number, a string, a list, or a symbolic square root.
- A frame is a `map<string, Value>`.
- The clock (`Date.now()`) is a parameter `now`.
- Floating-point interpretation is a parameter `f32` from a 32-bit pattern to a
  real number.
- Asynchronous loads (a decoder module, a config file) are a `Result`
  parameter holding what the await gave.

Where the documentation and the code disagree, the model follows the code:

- **Reads past the size check.** The F1 24 lap data, car status and
  participants decoders read more bytes than their size check covers (57 of 53,
  55 of 47, 60 of 56). So do the F1 25 lap data, car status and motion ex
  decoders. A packet that passes the check but is shorter than the read is
  dropped through the caught `RangeError` (`F1Common.DecodeBodyOverread`).
- **F1 25 session packet.** It checks 644 bytes but reads only its first
  62. It reads the safety-car status right after `numMarshalZones`, without
  skipping the marshal-zone and forecast arrays.
- **Unknown packet names.** ACC names an unknown packet `Unknown (<id>)`, while
  F1 and Forza use `Unknown_<id>`.
- **Listed sizes that do not fit a full grid.** At its listed size, the F1 25
  motion ex packet decodes only for player index 0
  (`F1Decoder25.MotionExAtListedSize`). Participants and final classification
  stop at index 20, and car damage at index 19.

## Model

| member | source | states |
|---|---|---|
| Wire.LittleEndianBound | src/decoders/f1-2024.ts:787-802 | an n-byte little-endian reading is below 256^n |
| Wire.LittleEndianRoundTrip | src/decoders/f1-2024.ts:787-802 | reading back the k-byte little-endian encoding of a number below 256^k gives the number |
| Wire.Unsigned | src/decoders/f1-2024.ts:787-802 | `getUintN(pos, true)` is defined exactly when the n bytes lie inside the buffer, and its value is below 256^n |
| Wire.SignedRange | src/decoders/f1-2024.ts:824-829 | a two's-complement read lies in [-256^n/2, 256^n/2) and equals the unsigned read, or the unsigned read minus 256^n when negative |
| Wire.Latin1Codes | src/decoders/f1-2024.ts:1326 | `String.fromCharCode(...bytes)` gives one character per byte, with the byte's code |
| Wire.TrimNulsSpec | src/decoders/f1-2024.ts:1366 | `replace(/\0+$/, '')` keeps a prefix that does not end in NUL, and every dropped character is a NUL |
| Wire.DecimalRoundTrip | src/decoders/f1-2024.ts:1307 | the decimal rendering of the session id is non-empty, all digits, without a leading zero unless it is "0", and reads back as the id |
| Wire.DecimalInjective | src/decoders/f1-2024.ts:1307 | different session ids render as different strings |
| Wire.IntStringInjective | src/decoders/f1-2024.ts:1939 | different integers render differently in `Unknown_${id}` |
| Wire.IntStringSign | src/decoders/f1-2024.ts:1939 | a rendered integer starts with `-` exactly when it is negative |
| Wire.DecodeWideString | src/decoders/assetto-corsa.ts:1105-1119 | the loop returns what the reader specification gives: up to `maxLength` UTF-16 units, stopping at the first zero unit, or '' when a read throws |
| Wire.WideUnitsShape | src/decoders/assetto-corsa.ts:1105-1119 | at most `maxLength` units come back and none of them is zero |
| Wire.WideUnitsSpec | src/decoders/assetto-corsa.ts:1105-1119 | the i-th unit is the 16-bit value at `offset + 2i`, and the loop stopped after `maxLength` units or at a readable zero unit |
| Wire.WideUnitsFailure | src/decoders/assetto-corsa.ts:1105-1119 | the reader fails (giving '') only when its field runs past the end of the buffer |
| Wire.WideUnitsInBounds | src/decoders/assetto-corsa.ts:1105-1119 | when the whole `2 * maxLength` field is inside the buffer the reader never fails |
| Wire.WideUnitsWindow | src/decoders/assetto-corsa.ts:1105-1119 | the reader looks only at the bytes of its own field |
| BoundedReads.UpToLength | src/decoders/f1-2025.ts:1395-1398 | an early-exit loop reads at most `max` values, all inside the buffer, and stops after `max` values or when the next one would pass the end |
| BoundedReads.UpToValues | src/decoders/f1-2025.ts:1395-1398 | the i-th value read is the unsigned value at `offset + i * width` |
| BoundedReads.UpToSplit | src/decoders/f1-2025.ts:1395-1433 | reading a + b values is reading a values, then b more from where the first read stopped |
| BoundedReads.BytesUpTo | src/decoders/f1-2025.ts:1415-1418 | a one-byte early-exit loop takes `max` bytes, or every byte to the end of the buffer if fewer remain |
| BoundedReads.ReadUpTo | src/decoders/f1-2025.ts:1395-1398 | the loop with its `break` returns the specified values, and its cursor ends past exactly what it read |
| BoundedReads.ReadBoundedKeys | src/decoders/f1-2025.ts:1395-1433 | after the run of loops the frame holds its old keys and the array names, nothing else |
| BoundedReads.ReadBoundedKeeps | src/decoders/f1-2025.ts:1395-1433 | a key that no loop writes keeps its value |
| BoundedReads.ReadBoundedAt | src/decoders/f1-2025.ts:1395-1433 | each array of the run is the early-exit read at the cursor where the previous loop stopped |
| BoundedReads.CursorShift | src/decoders/f1-2025.ts:1395-1433 | dropping the first loop moves every later cursor to the place the first loop left it |
| BoundedReads.ReadBoundedArrays | src/decoders/f1-2025.ts:1395-1433 | the run of loops, with the cursor carried from loop to loop, gives the specified frame |
| BoundedReads.PositionRowsFlat | src/decoders/f1-2025.ts:1649-1658 | the rows of the nested loop, joined, are the bytes from the start up to `rows * perRow` or to the end of the buffer |
| BoundedReads.PositionRowsShape | src/decoders/f1-2025.ts:1649-1658 | the nested loop yields between 1 and `rows` rows of at most `perRow` values, and every row but the last is full |
| BoundedReads.PositionRowsStep | src/decoders/f1-2025.ts:1649-1658 | one outer iteration pushes the row read at the cursor, then stops if the cursor reached the end |
| BoundedReads.PositionRowsLoop | src/decoders/f1-2025.ts:1649-1658 | what the outer loop keeps: the rows so far followed by the rows still to read |
| BoundedReads.ReadPositionRows | src/decoders/f1-2025.ts:1649-1658 | the nested loop with both `break`s returns the specified rows |
| Layout.ReadScalar | src/decoders/f1-2024.ts:804-862 | a scalar read succeeds exactly when it fits in the buffer; a wide string never fails |
| Layout.WidthAppend | src/decoders/f1-2024.ts:804-862 | the cursor advance of two layouts read one after the other is the sum of their advances |
| Layout.ReadFromAppend | src/decoders/f1-2024.ts:804-862 | walking `a + b` is walking `a`, then `b` from where `a` ended, and fails if either part fails |
| Layout.RowWidthAppend | src/decoders/f1-2024.ts:1135-1147 | the width of a sub-record is the sum of its columns' widths |
| Layout.RowByColumns | src/decoders/f1-2024.ts:1135-1147 | a sub-record read in one bounds check equals reading its columns one by one |
| Layout.RowStep | src/decoders/f1-2024.ts:1135-1147 | a sub-record whose first column reads is that column followed by the rest |
| Layout.ReadManyLength | src/decoders/f1-2024.ts:1493-1496 | a fixed-count push loop adds exactly `count` values |
| Layout.ManyLength | src/decoders/f1-2024.ts:1493-1496 | an array field holds exactly its count of values |
| Layout.ReadRowsLength | src/decoders/f1-2024.ts:1121-1127 | an array of sub-records holds exactly its count of records |
| Layout.ReadManyStrict | src/decoders/f1-2024.ts:1493-1496 | a fixed-count loop of checked reads fails when its last element is past the end |
| Layout.ReadFromSome | src/decoders/f1-2024.ts:804-862 | a walk that stays inside the buffer never fails |
| Layout.ReadFromStrict | src/decoders/f1-2024.ts:804-862 | a walk ending in a checked read fails whenever it would pass the end |
| Layout.ReadFromSomeIff | src/decoders/f1-2024.ts:804-862 | a walk ending in a checked read succeeds exactly when it fits in the buffer |
| Layout.ReadFromKeys | src/decoders/f1-2024.ts:804-862 | the frame a walk produces holds the keys it started with plus the names of the fields |
| Layout.ReadFromKeeps | src/decoders/f1-2024.ts:804-862 | a key that no field writes keeps its value through the walk |
| Layout.FieldAt | src/decoders/f1-2024.ts:804-862 | a field's value in the frame is what its own read produced at its offset, unless a later field reuses the name |
| Layout.ReadFromPrefix | src/decoders/f1-2024.ts:804-862 | fields appended after a layout that do not write a name leave what the layout put under that name |
| Layout.FieldLast | src/decoders/f1-2024.ts:804-862 | the last field of a walk holds what its own read produced |
| Layout.FieldFirst | src/decoders/f1-2024.ts:804-862 | a walk of one field holds what that read produced |
| Layout.ManyWindow | src/decoders/f1-2024.ts:1493-1496 | an array read looks only at its `count * width` bytes |
| Layout.RowsWindow | src/decoders/f1-2024.ts:1121-1127 | a sub-record array read looks only at its `count * width` bytes |
| Layout.ReadFromWindow | src/decoders/f1-2024.ts:804-862 | two buffers that agree on the bytes a walk passes over give the same frame |
| Layout.ManyStep | src/decoders/f1-2024.ts:1493-1496 | one iteration of the push loop: read at the cursor, push, advance by the width |
| Layout.RowsStep | src/decoders/f1-2024.ts:1121-1127 | one iteration of the sub-record loop: read the record at the cursor, push it, advance |
| Layout.ReadScalars | src/decoders/f1-2024.ts:1493-1496 | the push loop over scalars returns the specified array, or fails as the specification says |
| Layout.ReadRecords | src/decoders/f1-2024.ts:1121-1127 | the push loop over sub-records returns the specified array |
| Layout.ReadField | src/decoders/f1-2024.ts:804-862 | one field read (scalar, wide string, array or sub-record array) gives the specified value |
| Layout.ReadLayout | src/decoders/f1-2024.ts:804-862 | the cursor walk over a layout gives the specified frame, and the first failing read abandons the record |
| Layout.IntegerRead | src/decoders/f1-2024.ts:804-862 | an integer scalar inside the buffer reads as an integer value |
| F1Common.ReadHeader | src/decoders/f1-2024.ts:787-802 | the header is read exactly when the buffer holds its 29 bytes |
| F1Common.HeaderBytes | src/decoders/f1-2024.ts:787-802 | a header written by a game takes exactly 29 bytes |
| F1Common.ReadHeaderRoundTrip | src/decoders/f1-2024.ts:787-802 | `readPacketHeader` recovers every field of a written header, whatever follows it |
| F1Common.HeaderWindow | src/decoders/f1-2024.ts:787-802 | the header depends on the first 29 bytes and nothing else |
| F1Common.BaseFrameKeys | src/decoders/f1-2024.ts:1298-1314 | `headerToFrame` plus `packet_type` carries exactly the header keys |
| F1Common.BaseFrameValues | src/decoders/f1-2024.ts:1298-1314 | the base frame has the packet type, the clock as `t`, the id and player index, and the session id as a decimal string that reads back as the id |
| F1Common.BaseFrameHeader | src/decoders/f1-2024.ts:1915-1920 | `createBasicFrame` keeps every header field with its `headerToFrame` value |
| F1Common.Start | src/decoders/f1-2024.ts:804-815 | a body decoder starts reading at or after the 29-byte header |
| F1Common.DecodeBodyForm | src/decoders/f1-2024.ts:1339-1356 | the count-byte check of a counted body is implied by its record check |
| F1Common.DecodeBodyWithin | src/decoders/f1-2024.ts:804-815 | a body that reads no more than it checks decodes exactly when the size check passes |
| F1Common.DecodeBodyOverread | src/decoders/f1-2024.ts:943-1024 | a body that reads more than it checks decodes exactly when the whole read fits; a buffer that only passes the check is dropped through the caught error |
| F1Common.DecodeBodyHeader | src/decoders/f1-2024.ts:804-862 | a decoded body keeps every header field with its value, and `packet_type` |
| F1Common.InitialHeader | src/decoders/f1-2024.ts:1339-1356 | the frame a body walk starts from (with the count byte if any) carries the header part unchanged |
| F1Common.DecodeBodyKeys | src/decoders/f1-2024.ts:804-862 | a decoded body holds the header keys, the count if any and the layout's field names, nothing else |
| F1Common.DecodeBodyWindow | src/decoders/f1-2024.ts:804-862 | player isolation: buffers that agree on the header, count byte and player record decode to the same frame |
| F1Common.DecodeBodyWalk | src/decoders/f1-2024.ts:804-862 | the statement form of a `decode*Packet` function (size check, spread, cursor walk) gives the specified body |
| F1Common.DecodePacket | src/decoders/f1-2024.ts:731-785 | `decode` gives null below 29 bytes |
| F1Common.DecodeWalk | src/decoders/f1-2024.ts:731-785 | the gate, header read, switch and walk give the specified frame |
| F1Common.PacketSome | src/decoders/f1-2024.ts:731-785 | a packet with a table entry decodes exactly when the size check passes and every byte read lies in the buffer |
| F1Common.PacketAtSize | src/decoders/f1-2024.ts:1963-1981 | a packet of its listed size decodes exactly for the player indices up to the table's last index |
| F1Common.PacketHeader | src/decoders/f1-2024.ts:731-785 | every frame carries the `headerToFrame` fields and `packet_type` equal to the packet id, listed or not |
| F1Common.PacketKeys | src/decoders/f1-2024.ts:731-785 | a frame's keys are the header keys, the count and the body's names; an unlisted id gives the header keys alone |
| F1Common.PacketWindow | src/decoders/f1-2024.ts:731-785 | player isolation for the whole `decode`, for bodies that read no more than they check |
| F1Common.TypeNameFirst | src/decoders/f1-2024.ts:1922-1941 | a packet type name starts with `U` exactly when the id is not listed |
| F1Common.TypeNameInjective | src/decoders/f1-2024.ts:1922-1941 | different packet ids get different names, listed or `Unknown_<id>` |
| F1Layouts24.MotionShape | src/decoders/f1-2024.ts:804-862 | the Motion field table advances the cursor by 60 bytes, ends in a read that throws past the end, and writes no header key |
| F1Layouts24.CarTelemetryShape | src/decoders/f1-2024.ts:863-942 | the CarTelemetry field table advances the cursor by 60 bytes, ends in a read that throws past the end, and writes no header key |
| F1Layouts24.LapDataShape | src/decoders/f1-2024.ts:943-1024 | the LapData field table advances the cursor by 57 bytes, ends in a read that throws past the end, and writes no header key |
| F1Layouts24.CarStatusShape | src/decoders/f1-2024.ts:1025-1092 | the CarStatus field table advances the cursor by 55 bytes, ends in a read that throws past the end, and writes no header key |
| F1Layouts24.SessionShape | src/decoders/f1-2024.ts:1093-1297 | the Session field table advances the cursor by 724 bytes, ends in a read that throws past the end, and writes no header key |
| F1Layouts24.ParticipantsShape | src/decoders/f1-2024.ts:1339-1392 | the Participants field table advances the cursor by 60 bytes, ends in a read that throws past the end, and writes no header key |
| F1Layouts24.CarSetupsShape | src/decoders/f1-2024.ts:1393-1455 | the CarSetups field table advances the cursor by 49 bytes, ends in a read that throws past the end, and writes no header key |
| F1Layouts24.FinalClassificationShape | src/decoders/f1-2024.ts:1456-1529 | the FinalClassification field table advances the cursor by 45 bytes, ends in a read that throws past the end, and writes no header key |
| F1Layouts24.LobbyInfoShape | src/decoders/f1-2024.ts:1530-1573 | the LobbyInfo field table advances the cursor by 54 bytes, ends in a read that throws past the end, and writes no header key |
| F1Layouts24.CarDamageShape | src/decoders/f1-2024.ts:1574-1652 | the CarDamage field table advances the cursor by 42 bytes, ends in a read that throws past the end, and writes no header key |
| F1Layouts24.SessionHistoryShape | src/decoders/f1-2024.ts:1653-1712 | the SessionHistory field table advances the cursor by 1431 bytes, and writes no header key |
| F1Layouts24.TyreSetsShape | src/decoders/f1-2024.ts:1713-1752 | the TyreSets field table advances the cursor by 202 bytes, ends in a read that throws past the end, and writes no header key |
| F1Layouts24.MotionExShape | src/decoders/f1-2024.ts:1753-1873 | the MotionEx field table advances the cursor by 208 bytes, ends in a read that throws past the end, and writes no header key |
| F1Layouts24.TimeTrialShape | src/decoders/f1-2024.ts:1874-1914 | the TimeTrial field table advances the cursor by 24 bytes, ends in a read that throws past the end, and writes no header key |
| F1Layouts24.EventShape | src/decoders/f1-2024.ts:1316-1338 | the Event field table advances the cursor by 4 bytes, and writes no header key |
| F1Layouts25.MotionShape | src/decoders/f1-2025.ts:761-796 | the Motion field table advances the cursor by 60 bytes, ends in a read that throws past the end, and writes no header key |
| F1Layouts25.CarTelemetryShape | src/decoders/f1-2025.ts:798-846 | the CarTelemetry field table advances the cursor by 60 bytes, ends in a read that throws past the end, and writes no header key |
| F1Layouts25.LapDataShape | src/decoders/f1-2025.ts:848-896 | the LapData field table advances the cursor by 55 bytes, ends in a read that throws past the end, and writes no header key |
| F1Layouts25.CarStatusShape | src/decoders/f1-2025.ts:898-940 | the CarStatus field table advances the cursor by 55 bytes, ends in a read that throws past the end, and writes no header key |
| F1Layouts25.SessionShape | src/decoders/f1-2025.ts:942-1005 | the Session field table advances the cursor by 62 bytes, ends in a read that throws past the end, and writes no header key |
| F1Layouts25.ParticipantsShape | src/decoders/f1-2025.ts:1030-1094 | the Participants field table advances the cursor by 55 bytes, and writes no header key |
| F1Layouts25.CarSetupsShape | src/decoders/f1-2025.ts:1096-1157 | the CarSetups field table advances the cursor by 49 bytes, ends in a read that throws past the end, and writes no header key |
| F1Layouts25.FinalClassificationShape | src/decoders/f1-2025.ts:1159-1236 | the FinalClassification field table advances the cursor by 46 bytes, ends in a read that throws past the end, and writes no header key |
| F1Layouts25.LobbyInfoShape | src/decoders/f1-2025.ts:1238-1280 | the LobbyInfo field table advances the cursor by 38 bytes, ends in a read that throws past the end, and writes no header key |
| F1Layouts25.CarDamageShape | src/decoders/f1-2025.ts:1282-1367 | the CarDamage field table advances the cursor by 46 bytes, ends in a read that throws past the end, and writes no header key |
| F1Layouts25.SessionHistoryHeadShape | src/decoders/f1-2025.ts:1369-1393 | the SessionHistoryHead field table advances the cursor by 7 bytes, ends in a read that throws past the end, and writes no header key |
| F1Layouts25.MotionExShape | src/decoders/f1-2025.ts:1479-1592 | the MotionEx field table advances the cursor by 188 bytes, ends in a read that throws past the end, and writes no header key |
| F1Layouts25.TimeTrialShape | src/decoders/f1-2025.ts:1594-1633 | the TimeTrial field table advances the cursor by 24 bytes, ends in a read that throws past the end, and writes no header key |
| F1Layouts25.EventShape | src/decoders/f1-2025.ts:1007-1028 | the Event field table advances the cursor by 4 bytes, and writes no header key |
| F1Layouts25.TyreSetsShape | src/decoders/f1-2025.ts:1459-1477 | the TyreSets field table advances the cursor by 1 bytes, and writes no header key |
| F1Layouts25.LapPositionsHeadShape | src/decoders/f1-2025.ts:1635-1645 | the LapPositionsHead field table advances the cursor by 2 bytes, ends in a read that throws past the end, and writes no header key |
| F1Decoder24.MotionReads | src/decoders/f1-2024.ts:804-862 | the player's 60-byte motion record: 60 bytes read, size check 60, no header key written; no header key is overwritten |
| F1Decoder24.SessionReads | src/decoders/f1-2024.ts:1093-1297 | the 724-byte session body read whole, size check 724; no header key is overwritten |
| F1Decoder24.LapDataReads | src/decoders/f1-2024.ts:943-1024 | the lap data record reads 57 bytes although the size check is 53, ending in a read that throws past the end; no header key is overwritten |
| F1Decoder24.EventReads | src/decoders/f1-2024.ts:1316-1338 | the event code reads 4 bytes of the 7 the check demands; no header key is overwritten |
| F1Decoder24.ParticipantsReads | src/decoders/f1-2024.ts:1339-1392 | after the count byte, the participant record reads 60 bytes against a check of 56, ending in a throwing read; no header key is overwritten |
| F1Decoder24.CarSetupsReads | src/decoders/f1-2024.ts:1393-1455 | the 49-byte setup record, check 49; no header key is overwritten |
| F1Decoder24.CarTelemetryReads | src/decoders/f1-2024.ts:863-942 | the 60-byte telemetry record, check 60; no header key is overwritten |
| F1Decoder24.CarStatusReads | src/decoders/f1-2024.ts:1025-1092 | the car status record reads 55 bytes against a check of 47, ending in a throwing read; no header key is overwritten |
| F1Decoder24.FinalClassificationReads | src/decoders/f1-2024.ts:1456-1529 | after the count byte, the 45-byte classification record, check 45; no header key is overwritten |
| F1Decoder24.LobbyInfoReads | src/decoders/f1-2024.ts:1530-1573 | after the count byte, the 54-byte lobby record, check 54; no header key is overwritten |
| F1Decoder24.CarDamageReads | src/decoders/f1-2024.ts:1574-1652 | the 42-byte damage record, check 42; no header key is overwritten |
| F1Decoder24.SessionHistoryReads | src/decoders/f1-2024.ts:1653-1712 | the 1431-byte session history body, check 1431; no header key is overwritten |
| F1Decoder24.TyreSetsReads | src/decoders/f1-2024.ts:1713-1752 | the 202-byte tyre sets body, check 202; no header key is overwritten |
| F1Decoder24.MotionExReads | src/decoders/f1-2024.ts:1753-1873 | the 208-byte motion ex body, check 208; no header key is overwritten |
| F1Decoder24.TimeTrialReads | src/decoders/f1-2024.ts:1874-1914 | the 24-byte time trial body, check 24; no header key is overwritten |
| F1Decoder24.TableA | src/decoders/f1-2024.ts:731-785 | the bodies of packet ids 0 to 4 read their listed widths and fit their accepted sizes for exactly the listed player indices |
| F1Decoder24.TableB | src/decoders/f1-2024.ts:731-785 | the same for packet ids 5 to 9 |
| F1Decoder24.TableC | src/decoders/f1-2024.ts:731-785 | the same for packet ids 10 to 14 |
| F1Decoder24.Table | src/decoders/f1-2024.ts:745-779 | all fifteen bodies of the switch read their listed widths, write no header key, and fit their accepted sizes for exactly the player indices up to the listed last one |
| F1Decoder24.Decode | src/decoders/f1-2024.ts:731-735 | `decode` returns null for a buffer shorter than the 29-byte header |
| F1Decoder24.DecodeBytes | src/decoders/f1-2024.ts:731-785 | the statement form of `decode` returns the specified frame |
| F1Decoder24.DecodeSome | src/decoders/f1-2024.ts:731-785 | a known packet decodes exactly when the size check passes and every byte read lies in the buffer |
| F1Decoder24.DecodeHeader | src/decoders/f1-2024.ts:1298-1314 | every decoded frame carries the `headerToFrame` fields and `packet_type` equal to the packet id |
| F1Decoder24.DecodeWindow | src/decoders/f1-2024.ts:804-815 | player isolation: packets with the same header whose player records agree decode alike |
| F1Decoder24.AcceptedSizesShape | src/decoders/f1-2024.ts:1963-1981 | fifteen distinct accepted sizes, each at least the header size |
| F1Decoder24.AcceptedSizeDecodes | src/decoders/f1-2024.ts:1963-1981 | a packet of its accepted size decodes exactly for player indices up to the listed last index (21 for a 22-car grid, more where the size has padding) |
| F1Decoder24.MotionAtListedSize | src/decoders/f1-2024.ts:1965 | a 1349-byte motion packet decodes exactly for player indices 0 to 21 |
| F1Decoder24.SupportedAgree | src/decoders/f1-2024.ts:1943-1961 | the supported list is ids 0 to 14 in order, each named as `getPacketTypeName` names it |
| F1Decoder24.NameSignatures | src/decoders/f1-2024.ts:1922-1941 | the fifteen listed names differ in length or in their sixth character |
| F1Decoder24.PacketNamesTable | src/decoders/f1-2024.ts:1922-1941 | the listed names are distinct and none starts with `U` |
| F1Decoder24.SupportedNamesDistinct | src/decoders/f1-2024.ts:1943-1961 | the names of the supported list are pairwise distinct |
| F1Decoder24.PacketTypeNameInjective | src/decoders/f1-2024.ts:1922-1941 | different packet ids get different names, listed or `Unknown_<id>` |
| F1Decoder25.MotionReads | src/decoders/f1-2025.ts:761-796 | the 60-byte motion record, check 60; no header key is overwritten |
| F1Decoder25.SessionReads | src/decoders/f1-2025.ts:942-1005 | the session decoder checks 644 bytes but reads only the first 62; no header key is overwritten |
| F1Decoder25.LapDataReads | src/decoders/f1-2025.ts:848-896 | the lap data record reads 55 bytes against a check of 53, ending in a throwing read; no header key is overwritten |
| F1Decoder25.EventReads | src/decoders/f1-2025.ts:1007-1028 | the event code reads 4 bytes of the 7 the check demands; no header key is overwritten |
| F1Decoder25.ParticipantsReads | src/decoders/f1-2025.ts:1030-1094 | after the count byte, the participant record reads 55 of the 58 bytes checked; no header key is overwritten |
| F1Decoder25.CarSetupsReads | src/decoders/f1-2025.ts:1096-1157 | the 49-byte setup record, check 49; no header key is overwritten |
| F1Decoder25.CarTelemetryReads | src/decoders/f1-2025.ts:798-846 | the 60-byte telemetry record, check 60; no header key is overwritten |
| F1Decoder25.CarStatusReads | src/decoders/f1-2025.ts:898-940 | the car status record reads 55 bytes against a check of 47, ending in a throwing read; no header key is overwritten |
| F1Decoder25.FinalClassificationReads | src/decoders/f1-2025.ts:1159-1236 | after the count byte, the 46-byte classification record, check 46; no header key is overwritten |
| F1Decoder25.LobbyInfoReads | src/decoders/f1-2025.ts:1238-1280 | after the count byte, the lobby record reads 38 of the 42 bytes checked; no header key is overwritten |
| F1Decoder25.CarDamageReads | src/decoders/f1-2025.ts:1282-1367 | the 46-byte damage record, check 46; no header key is overwritten |
| F1Decoder25.SessionHistoryHeadReads | src/decoders/f1-2025.ts:1369-1393 | the session history head reads 7 of the 8 bytes checked, before its loops; no header key is overwritten |
| F1Decoder25.TyreSetsReads | src/decoders/f1-2025.ts:1459-1477 | the tyre sets decoder reads the one car index byte it checks; no header key is overwritten |
| F1Decoder25.MotionExReads | src/decoders/f1-2025.ts:1479-1592 | the motion ex record reads 188 bytes against a per-car check of 156, ending in a throwing read; no header key is overwritten |
| F1Decoder25.TimeTrialReads | src/decoders/f1-2025.ts:1594-1633 | the 24-byte time trial body, check 24; no header key is overwritten |
| F1Decoder25.LapPositionsHeadReads | src/decoders/f1-2025.ts:1635-1645 | the lap positions head reads `numLaps` and `lapStart`, the 2 bytes checked; no header key is overwritten |
| F1Decoder25.TableA | src/decoders/f1-2025.ts:686-742 | the bodies of packet ids 0 to 3 read their listed widths and fit their accepted sizes for exactly the listed player indices |
| F1Decoder25.TableB | src/decoders/f1-2025.ts:686-742 | the same for packet ids 4 to 7 |
| F1Decoder25.TableC | src/decoders/f1-2025.ts:686-742 | the same for packet ids 8 to 11 |
| F1Decoder25.TableD | src/decoders/f1-2025.ts:686-742 | the same for packet ids 12 to 15 |
| F1Decoder25.TableAB | src/decoders/f1-2025.ts:686-742 | the same for packet ids 0 to 7 |
| F1Decoder25.TableCD | src/decoders/f1-2025.ts:686-742 | the same for packet ids 8 to 15 |
| F1Decoder25.Table | src/decoders/f1-2025.ts:700-738 | all sixteen fixed parts of the switch read their listed widths, write no header key, and fit their accepted sizes for exactly the player indices up to the listed last one |
| F1Decoder25.TableReading | src/decoders/f1-2025.ts:700-738 | all sixteen fixed parts read their listed widths and write no header key |
| F1Decoder25.Decode | src/decoders/f1-2025.ts:686-690 | `decode` returns null for a buffer shorter than the 29-byte header |
| F1Decoder25.DecodeBytes | src/decoders/f1-2025.ts:686-742 | the statement form of `decode`, with the session history loops and the lap positions loop, returns the specified frame |
| F1Decoder25.HistoryNames | src/decoders/f1-2025.ts:1395-1433 | the eight session history arrays have distinct names |
| F1Decoder25.HistoryNotHeader | src/decoders/f1-2025.ts:1395-1433 | no session history array is named like a header field |
| F1Decoder25.AfterBodyPlain | src/decoders/f1-2025.ts:1395-1433 | the loops after a body never fail, and other packets pass through unchanged |
| F1Decoder25.DecodePlain | src/decoders/f1-2025.ts:686-742 | for packets other than session history and lap positions, `decode` is the table dispatch |
| F1Decoder25.AfterBodyKeeps | src/decoders/f1-2025.ts:1649-1666 | the loops keep the header part and `packet_type` of the frame |
| F1Decoder25.BoundedKeepsHeader | src/decoders/f1-2025.ts:1395-1433 | the session history loops keep every header key with its value |
| F1Decoder25.MatrixKeepsHeader | src/decoders/f1-2025.ts:1660-1666 | adding `positionData` keeps every header key with its value |
| F1Decoder25.DecodeSome | src/decoders/f1-2025.ts:686-742 | a known packet decodes exactly when the size check passes and every byte its fixed part reads lies in the buffer |
| F1Decoder25.DecodeHeader | src/decoders/f1-2025.ts:1671-1687 | every decoded frame carries the `headerToFrame` fields and `packet_type` equal to the packet id |
| F1Decoder25.DecodeWindow | src/decoders/f1-2025.ts:761-770 | player isolation for the bodies without loops that read no more than they check |
| F1Decoder25.AcceptedSizesShape | src/decoders/f1-2025.ts:1739-1758 | sixteen distinct accepted sizes, each at least the header size |
| F1Decoder25.AcceptedSizeDecodes | src/decoders/f1-2025.ts:1739-1758 | a packet of its accepted size decodes exactly for player indices up to the listed last index; participants and final classification stop at 20, car damage at 19 |
| F1Decoder25.MotionExAtListedSize | src/decoders/f1-2025.ts:1739-1758 | a 237-byte motion ex packet decodes only for player index 0 |
| F1Decoder25.SessionHistorySome | src/decoders/f1-2025.ts:1369-1393 | a session history packet decodes exactly when its 8 head bytes are present |
| F1Decoder25.SessionHistoryArrays | src/decoders/f1-2025.ts:1395-1433 | each session history array is its loop's early-exit read at the cursor the previous loop left |
| F1Decoder25.LapPositionsSome | src/decoders/f1-2025.ts:1635-1645 | a lap positions packet decodes exactly when `numLaps` and `lapStart` are present |
| F1Decoder25.LapPositionsMatrix | src/decoders/f1-2025.ts:1649-1666 | `positionData` holds 1 to 50 rows of at most 22 positions, every row but the last full, which are together the bytes after the two counts |
| F1Decoder25.SupportedAgree | src/decoders/f1-2025.ts:1718-1737 | the supported list is ids 0 to 15 in order, each named as `getPacketTypeName` names it |
| F1Decoder25.NameSignatures | src/decoders/f1-2025.ts:1696-1716 | the sixteen listed names differ in length or in their sixth character |
| F1Decoder25.PacketNamesTable | src/decoders/f1-2025.ts:1696-1716 | the listed names are distinct and none starts with `U` |
| F1Decoder25.SupportedNamesDistinct | src/decoders/f1-2025.ts:1718-1737 | the names of the supported list are pairwise distinct |
| F1Decoder25.PacketTypeNameInjective | src/decoders/f1-2025.ts:1696-1716 | different packet ids get different names, listed or `Unknown_<id>` |
| AccLayouts.PhysicsShape | src/decoders/assetto-corsa.ts:525-869 | the physics walk advances the cursor by 712 bytes, ends in a read that throws past the end, and never overwrites `packet_type` or `t` |
| AccLayouts.GraphicsShape | src/decoders/assetto-corsa.ts:881-993 | the graphics walk advances the cursor by 1318 bytes, ends in a throwing read, and keeps `packet_type` and `t` |
| AccLayouts.StaticShape | src/decoders/assetto-corsa.ts:995-1103 | the static walk advances the cursor by 682 bytes, ends in a throwing read, and keeps `packet_type` and `t` |
| AccLayouts.GraphicsCurrentTimeAt | src/decoders/assetto-corsa.ts:890 | `currentTime` is the 15-unit wide string read at page offset 12 |
| AccLayouts.GraphicsLastTimeAt | src/decoders/assetto-corsa.ts:891 | `lastTime` is the 15-unit wide string read at page offset 42 |
| AccLayouts.GraphicsTyreCompoundAt | src/decoders/assetto-corsa.ts:908 | `tyreCompound` is the 33-unit wide string read at page offset 176 |
| AccLayouts.GraphicsCarCoordinatesAt | src/decoders/assetto-corsa.ts:914-920 | `carCoordinates` is the 180 floats read at page offset 254, and there are always 180 |
| AccLayouts.GraphicsCarIDsAt | src/decoders/assetto-corsa.ts:922-926 | `carIDs` is the 60 signed 32-bit ids read at page offset 974, and there are always 60 |
| AccLayouts.StaticSmVersionAt | src/decoders/assetto-corsa.ts:1000 | `smVersion` is the 15-unit wide string read at page offset 0 |
| AccLayouts.StaticAcVersionAt | src/decoders/assetto-corsa.ts:1001 | `acVersion` is the 15-unit wide string read at page offset 30 |
| AccLayouts.StaticCarModelAt | src/decoders/assetto-corsa.ts:1008 | `carModel` is the 33-unit wide string read at page offset 68 |
| AccLayouts.StaticTrackAt | src/decoders/assetto-corsa.ts:1009 | `track` is the 33-unit wide string read at page offset 134 |
| AccDerived.TimeStep | src/decoders/assetto-corsa.ts:1155 | the time step `Math.abs(t - prev.t) or 0.016` is always positive, so the rates never divide by zero |
| AccDerived.TimeStepRule | src/decoders/assetto-corsa.ts:1155 | the step is the distance between the two stamps, or 0.016 when they are equal |
| AccDerived.OverlayOutside | src/decoders/assetto-corsa.ts:1151-1220 | assigning fields leaves every other field of the frame as it was |
| AccDerived.MotionThrough | src/decoders/assetto-corsa.ts:1153-1193 | each of the eleven motion fields of the result holds its motion value |
| AccDerived.SummaryThrough | src/decoders/assetto-corsa.ts:1196-1218 | each summary field is computed from the frame as decoded, as none of them reads a motion field |
| AccDerived.WheelSlipAfterMotion | src/decoders/assetto-corsa.ts:1196-1201 | the wheel slip sum reads no field the motion step wrote |
| AccDerived.TyreTempAfterMotion | src/decoders/assetto-corsa.ts:1203-1208 | the tyre average reads no field the motion step wrote |
| AccDerived.BrakeTempAfterMotion | src/decoders/assetto-corsa.ts:1210-1215 | the brake average reads no field the motion step wrote |
| AccDerived.SessionAfterMotion | src/decoders/assetto-corsa.ts:1218 | the session id reads no field the motion step wrote |
| AccDerived.DerivedKeeps | src/decoders/assetto-corsa.ts:1151-1220 | `calculateDerivedFields` changes no field other than its fifteen |
| AccDerived.DerivedStamp | src/decoders/assetto-corsa.ts:1151-1220 | `packet_type` and `t` survive the derived fields |
| AccDerived.DerivedFirstFrame | src/decoders/assetto-corsa.ts:1178-1193 | without a previous physics frame the eleven motion fields are all 0 |
| AccDerived.WheelRateValue | src/decoders/assetto-corsa.ts:1158-1167 | after a physics frame a per-corner field's motion value is its rate over the step |
| AccDerived.DerivedWheelRate | src/decoders/assetto-corsa.ts:1158-1167 | after a physics frame each suspension and tyre temperature velocity is the change of its field over the time step |
| AccDerived.EngineValues | src/decoders/assetto-corsa.ts:1170-1176 | the motion values of `rpmVelocity`, `fuelConsumptionRate` and `shifting` |
| AccDerived.DerivedRpmRate | src/decoders/assetto-corsa.ts:1173 | `rpmVelocity` is the change of `rpms` over the time step |
| AccDerived.DerivedFuelRate | src/decoders/assetto-corsa.ts:1176 | `fuelConsumptionRate` is the previous fuel minus the current over the time step |
| AccDerived.DerivedShifting | src/decoders/assetto-corsa.ts:1170 | `shifting` is 1 exactly when the gear changed and 0 exactly when it did not |
| AccDerived.DerivedAverages | src/decoders/assetto-corsa.ts:1203-1215 | the tyre and brake averages are the means of their four corners |
| AccDerived.DerivedWheelSlip | src/decoders/assetto-corsa.ts:1196-1201 | `totalWheelSlip` is the root of the sum of the four squared slips, a sum that is never negative |
| AccDerived.DerivedSessionID | src/decoders/assetto-corsa.ts:1218 | `sessionID` is a multiple of 3600 and the start of the hour holding `t` |
| AccDerived.HourStart | src/decoders/assetto-corsa.ts:1218 | `floor(t / 3600) * 3600` is a multiple of 3600 within the hour before `t` |
| AccDecoder.PageStart | src/decoders/assetto-corsa.ts:788-790 | the frame before its fields are read holds exactly `packet_type` and `t` |
| AccDecoder.DecodePacket | src/decoders/assetto-corsa.ts:494-523 | a frame comes only from a non-empty buffer whose first byte is physics, graphics or static |
| AccDecoder.Decoder.Decode | src/decoders/assetto-corsa.ts:494-523 | `decode` returns the specified frame; the stored previous frame changes only on a physics packet |
| AccDecoder.Decoder.DecodePhysics | src/decoders/assetto-corsa.ts:525-879 | `decodePhysics` derives fields from the stored frame, then stores the result when it decodes |
| AccDecoder.DecodeSome | src/decoders/assetto-corsa.ts:494-523 | a packet decodes exactly when its first byte names a page and the page holds 712, 1318 or 682 bytes |
| AccDecoder.PageStamp | src/decoders/assetto-corsa.ts:788-790 | no read of a page overwrites `packet_type` or `t` |
| AccDecoder.PhysicsStamp | src/decoders/assetto-corsa.ts:788-790 | a physics frame keeps its type and time through the derived fields |
| AccDecoder.DecodeStamp | src/decoders/assetto-corsa.ts:494-523 | every frame carries its page byte as `packet_type` and the receive time in seconds as `t` |
| AccDecoder.PreviousOnlyOnPhysics | src/decoders/assetto-corsa.ts:870-871 | the stored frame becomes the returned frame on a decoded physics packet and is otherwise unchanged |
| AccDecoder.PreviousIsPhysics | src/decoders/assetto-corsa.ts:1153 | the stored frame is always a physics frame, so the type test before the rates passes exactly when a frame is stored |
| AccDecoder.GraphicsTimes | src/decoders/assetto-corsa.ts:890-891 | `currentTime` and `lastTime` are the wide strings at page offsets 12 and 42 |
| AccDecoder.GraphicsTyreCompound | src/decoders/assetto-corsa.ts:908 | `tyreCompound` is the wide string at page offset 176 |
| AccDecoder.GraphicsCarCoordinates | src/decoders/assetto-corsa.ts:914-920 | a graphics frame holds exactly 180 car coordinates, read from offset 254 |
| AccDecoder.GraphicsCarIDs | src/decoders/assetto-corsa.ts:922-926 | a graphics frame holds exactly 60 car ids, read from offset 974 |
| AccDecoder.StaticStrings | src/decoders/assetto-corsa.ts:1000-1009 | the version strings sit at offsets 0 and 30, the car model and track at 68 and 134 |
| AccDecoder.SupportedAgree | src/decoders/assetto-corsa.ts:1134-1140 | the supported list is the three page bytes, each with the name `getPacketTypeName` gives |
| AccDecoder.PacketTypeNameFirst | src/decoders/assetto-corsa.ts:1121-1132 | a name starts with `U` exactly when the id is not one of the three pages |
| AccDecoder.PacketTypeNameInjective | src/decoders/assetto-corsa.ts:1121-1132 | different ids get different names, `Unknown (<id>)` included |
| AccDecoder.AcceptedSizesDecode | src/decoders/assetto-corsa.ts:1142-1149 | a packet of an accepted size whose byte names a supported page always decodes |
| ForzaLayout.BaseShape | src/decoders/forza-motorsport.ts:172-301 | the base reads advance the cursor by 311 bytes, end in a throwing read, and write neither `t` nor `packet_type` nor a derived field |
| ForzaLayout.ExtensionShape | src/decoders/forza-motorsport.ts:306-316 | the extension reads advance the cursor by 20 bytes, end in a throwing read, and write no stamp or derived field |
| ForzaLayout.BaseIsRaceOnAt | src/decoders/forza-motorsport.ts:173 | `IsRaceOn` is the signed 32-bit word at offset 0 |
| ForzaLayout.BaseTimestampMSAt | src/decoders/forza-motorsport.ts:174 | `TimestampMS` is the unsigned 32-bit word at offset 4 |
| ForzaLayout.BaseCurrentLapAt | src/decoders/forza-motorsport.ts:282 | `CurrentLap` is the float at offset 292 |
| ForzaLayout.BaseCurrentRaceTimeAt | src/decoders/forza-motorsport.ts:283 | `CurrentRaceTime` is the float at offset 296 |
| ForzaLayout.BaseLapNumberAt | src/decoders/forza-motorsport.ts:284 | `LapNumber` is the unsigned 16-bit word at offset 300 |
| ForzaLayout.BaseGearAt | src/decoders/forza-motorsport.ts:292 | `Gear` is the byte at offset 307 |
| ForzaLayout.BaseSteerAt | src/decoders/forza-motorsport.ts:293 | `Steer` is the signed byte at offset 308 |
| ForzaLayout.ExtensionTrackOrdinalAt | src/decoders/forza-motorsport.ts:315 | `TrackOrdinal` is the signed 32-bit word 16 bytes into the extension |
| ForzaDecoder.TimeStep | src/decoders/forza-motorsport.ts:483 | the step `(t - prev.t) or 0.016` is never 0, so the velocities never divide by zero |
| ForzaDecoder.TimeStepSigned | src/decoders/forza-motorsport.ts:483 | the step keeps its sign: an earlier race time gives a negative step; it is 0.016 only for equal times or a true step of 0.016 |
| ForzaDecoder.DecodePacket | src/decoders/forza-motorsport.ts:162-166 | a frame comes only from a buffer of exactly 331 bytes |
| ForzaDecoder.Decoder.Decode | src/decoders/forza-motorsport.ts:162-478 | `decode` returns the specified frame, stores it as the previous frame when kept, and keeps the stored frame a kept one |
| ForzaDecoder.Decoder.CalculateDerivedFields | src/decoders/forza-motorsport.ts:480-507 | `calculateDerivedFields` adds the six derived fields against the stored frame and leaves a kept frame kept |
| ForzaDecoder.DerivedAsUpdates | src/decoders/forza-motorsport.ts:480-507 | the six field assignments one after another equal the union with the derived fields |
| ForzaDecoder.LayoutWidth | src/decoders/forza-motorsport.ts:160-316 | the base and extension reads cover exactly the 331 expected bytes |
| ForzaDecoder.FieldsOfPacket | src/decoders/forza-motorsport.ts:306-316 | after the size gate no read throws and the extension is always read, so the `?? 0` fallbacks never apply |
| ForzaDecoder.AddedKeys | src/decoders/forza-motorsport.ts:459-506 | the stamp and derived keys are the ones added after the reads |
| ForzaDecoder.DerivedKeepsGate | src/decoders/forza-motorsport.ts:464-468 | the derived fields touch none of the fields the gate tests, so a kept frame stays kept |
| ForzaDecoder.GateNotDerived | src/decoders/forza-motorsport.ts:464-506 | `IsRaceOn`, `LapNumber` and `CurrentLap` are not derived fields |
| ForzaDecoder.FieldsAvoidAdded | src/decoders/forza-motorsport.ts:319-460 | no read writes `t`, `packet_type` or a derived field |
| ForzaDecoder.DerivedKeeps | src/decoders/forza-motorsport.ts:319-506 | every field read reaches the decoded frame unchanged |
| ForzaDecoder.PinnedFields | src/decoders/forza-motorsport.ts:172-316 | each field the decoder tests or derives from is read from its own offset of a 331-byte packet |
| ForzaDecoder.WalkFields | src/decoders/forza-motorsport.ts:172-316 | the two walks place each of those fields at its offset |
| ForzaDecoder.BaseFields | src/decoders/forza-motorsport.ts:173-293 | the base walk places `IsRaceOn`, `TimestampMS`, `CurrentLap`, `CurrentRaceTime`, `LapNumber`, `Gear` and `Steer` at their offsets |
| ForzaDecoder.ExtensionFields | src/decoders/forza-motorsport.ts:306-316 | the extension adds `TrackOrdinal` at offset 327 and keeps the base fields |
| ForzaDecoder.DecodeGate | src/decoders/forza-motorsport.ts:162-166 | a packet decodes exactly when it is 331 bytes, its `IsRaceOn` word is 1, and it is not lap 0 with a lap time of +0 or -0 |
| ForzaDecoder.GateReads | src/decoders/forza-motorsport.ts:464-466 | the race-on gate of a full-size packet, in terms of its bytes |
| ForzaDecoder.PreviousOnlyOnKept | src/decoders/forza-motorsport.ts:471 | a dropped packet leaves the stored frame as it was; a kept one replaces it |
| ForzaDecoder.DecodeStamp | src/decoders/forza-motorsport.ts:459-460 | every frame has `packet_type` 1 and the receive time as `t` |
| ForzaDecoder.DecodeFields | src/decoders/forza-motorsport.ts:319-460 | the timestamp, race time, gear, steering and track of a frame are the packet's |
| ForzaDecoder.FirstFrame | src/decoders/forza-motorsport.ts:497-503 | on the first kept frame the four suspension velocities and `Shifting` are 0 |
| ForzaDecoder.NextFrame | src/decoders/forza-motorsport.ts:481-495 | after a kept frame, `Shifting` is 1 exactly when the gear changed, and each velocity is the change of its travel over the signed step |
| ForzaDecoder.DecodeRaceID | src/decoders/forza-motorsport.ts:506 | every kept frame carries `RaceID` = floor(timestamp / 1000000) * 1000 + track ordinal, from the packet's bytes |
| ForzaDecoder.RaceIDReads | src/decoders/forza-motorsport.ts:174 | the timestamp and track ordinal of a full-size packet are integers read from its bytes |
| ForzaDecoder.DecodedFrame | src/decoders/forza-motorsport.ts:319-506 | a kept frame is the stamped read with its derived fields |
| ForzaDecoder.StampedRaceID | src/decoders/forza-motorsport.ts:506 | the `RaceID` of a stamped frame comes from its timestamp and track ordinal |
| ForzaDecoder.RaceIDParts | src/decoders/forza-motorsport.ts:506 | `RaceID` less the track ordinal is a whole number of thousands, at most the timestamp in seconds |
| ForzaDecoder.SupportedAgree | src/decoders/forza-motorsport.ts:513-515 | the one supported type is the type every frame carries, under its name |
| ForzaDecoder.PacketTypeNameFirst | src/decoders/forza-motorsport.ts:509-511 | a name starts with `U` exactly when the id is not 1 |
| ForzaDecoder.PacketTypeNameInjective | src/decoders/forza-motorsport.ts:509-511 | different ids get different names |
| ForzaDecoder.AcceptedSizeOnly | src/decoders/forza-motorsport.ts:517-519 | only a packet of the one accepted size can decode |
| Decoders.AvailableDecoderInfos | src/decoders/index.ts:117-119 | `getAvailableDecoders` lists the registry's five entries in declaration order |
| Decoders.RegistryShape | src/decoders/index.ts:18-65 | the registry has five entries with distinct keys, and each entry's `id` is its key |
| Decoders.FindSpec | src/decoders/index.ts:82 | a key lookup finds an entry exactly when some pair has that key, and with distinct keys it is that pair's entry |
| Decoders.RegistryLookup | src/decoders/index.ts:82-85 | the registry knows exactly the five decoder ids, and an entry found under a key has that key as its `id` |
| Decoders.DecodeWith | src/decoders/index.ts:108-115 | `decode` gives null with no current decoder and otherwise exactly the current decoder's result |
| Decoders.DecoderManager.constructor | src/decoders/index.ts:67-70 | a new manager has an empty cache and no current decoder |
| Decoders.DecoderManager.LoadDecoder | src/decoders/index.ts:72-98 | `loadDecoder` serves a cached decoder without loading, throws for an unknown id, caches and selects a loaded decoder, rethrows a loader's error, and keeps the manager consistent |
| Decoders.DecoderManager.GetCurrentDecoder | src/decoders/index.ts:100-102 | returns the current decoder, which LoadOutcome ties to the last successful load |
| Decoders.DecoderManager.GetCurrentDecoderId | src/decoders/index.ts:104-106 | returns the current decoder id, which LoadOutcome ties to the last successful load |
| Decoders.DecoderManager.Decode | src/decoders/index.ts:108-115 | the manager's `decode` is the current decoder's, or null |
| Decoders.LoadKeepsConsistent | src/decoders/index.ts:72-98 | a load keeps every cached id a registry id and the current decoder the cached decoder of the current id |
| Decoders.LoadOutcome | src/decoders/index.ts:72-98 | a successful load caches the decoder and makes it current; a failed one changes nothing; the cache only grows |
| Decoders.LoadCached | src/decoders/index.ts:74-79 | a second load of a cached id returns the same decoder and changes nothing, whatever its loader would do |
| Decoders.UnknownNeverLoads | src/decoders/index.ts:82-85 | an id outside the registry is refused with `Unknown decoder: <id>` and the state is unchanged |
| Config.Cleared | src/config/configLoader.ts:87-91 | `clearCache` leaves an empty cache and no current configuration, a consistent state |
| Config.ConfigManager.constructor | src/config/configLoader.ts:21-24 | a new manager has an empty cache and no current configuration |
| Config.ConfigManager.LoadConfig | src/config/configLoader.ts:30-58 | `loadConfig` serves a cached config without fetching, throws for an unknown game, caches and selects a fetched config, wraps a fetch error, and keeps the manager consistent |
| Config.ConfigManager.GetCurrentConfig | src/config/configLoader.ts:64-66 | returns the current configuration, which LoadOutcome ties to the last successful load |
| Config.ConfigManager.GetCurrentGameId | src/config/configLoader.ts:72-74 | returns the current game id, which LoadOutcome ties to the last successful load |
| Config.ConfigManager.IsConfigLoaded | src/config/configLoader.ts:79-81 | true exactly when a configuration is current |
| Config.ConfigManager.ClearCache | src/config/configLoader.ts:87-91 | after `clearCache` no configuration is loaded and the manager is consistent |
| Config.LoadConfigForDecoder | src/config/configLoader.ts:113-119 | a decoder id without a game throws `No configuration available for decoder` and changes nothing; otherwise it is `loadConfig` of its game |
| Config.LoadKeepsConsistent | src/config/configLoader.ts:30-58 | a load keeps every cached id a game id and the current configuration the cached one of the current id |
| Config.LoadOutcome | src/config/configLoader.ts:30-58 | a cache hit returns the cached config whatever the fetch gives; a failure changes nothing; a success caches and selects the fetched config |
| Config.DecoderToGameSpec | src/config/configLoader.ts:101-107 | the decoders with a game are exactly the registry's five, and each maps to the game of the same name |
| Telemetry.Filter | src/telemetry.tsx:74-76 | `filter` keeps no more elements than it was given; FilterSpec states which |
| Telemetry.FilterSpec | src/telemetry.tsx:74-76 | an element is in the filtered sequence exactly when it was in the input and passes the test |
| Telemetry.FilterSnoc | src/telemetry.tsx:74-76 | filtering a sequence with one more element at the end filters that element on its own |
| Telemetry.FirstKeptSpec | src/telemetry.tsx:243-250 | the search from index i finds the first frame at or after the cutoff, or 0 when none is |
| Telemetry.KeepIndexSpec | src/telemetry.tsx:243-250 | `keepIndex` is the first frame at or after the cutoff; it is 0 only when that is the first frame or no frame qualifies |
| Telemetry.FindKeepIndex | src/telemetry.tsx:243-250 | the search loop with its early `break` computes `keepIndex` |
| Telemetry.Retained | src/telemetry.tsx:237-256 | retention never lengthens a buffer; RetainedSpec states what it keeps |
| Telemetry.RetainedSpec | src/telemetry.tsx:237-256 | retention keeps a suffix ending with the newest frame, drops only frames before the cutoff, leaves a buffer under 100 frames alone, and starts at the first frame at or after the cutoff |
| Telemetry.Retain | src/telemetry.tsx:237-256 | the retention step through the search loop and `splice` computes the specified suffix |
| Telemetry.ArriveSpec | src/telemetry.tsx:225-257 | an arriving frame is the newest of its buffer, the buffer is a suffix of the old one plus the frame, the counter restarts at 0 once it reaches 100 with more than one frame and otherwise counts the frame, and nothing is dropped before that or while the buffer is under 100 frames |
| Telemetry.Insert | src/telemetry.tsx:369-373 | inserting into a run adds one frame |
| Telemetry.SortByTime | src/telemetry.tsx:369-373 | sorting keeps the length; SortSpec states the rest |
| Telemetry.SortedSnoc | src/telemetry.tsx:369-373 | a sorted run stays sorted when a frame no earlier than all of it is appended |
| Telemetry.InsertSpec | src/telemetry.tsx:369-373 | insertion adds exactly the frame and keeps a timed run sorted |
| Telemetry.SortSpec | src/telemetry.tsx:369-373 | the sort by `timeA - timeB` is a permutation, and sorts a buffer whose frames all have times |
| Telemetry.MergedSpec | src/telemetry.tsx:365-398 | a resumed buffer holds only frames of the main and holding buffers, all of them under 100 frames, at least one when frames were held, in time order when all frames have times |
| Telemetry.SuffixKeeps | src/telemetry.tsx:393-396 | a suffix of a buffer holds no frame the buffer lacks and stays sorted when the buffer is |
| Telemetry.Received | src/telemetry.tsx:162-164 | a null frame, a dropped packet, leaves the store unchanged |
| Telemetry.ValidatedSpec | src/telemetry.tsx:58-86 | a packet passes when there is no size list or its size is listed, and then nothing changes; a refused size is logged at `now`, the log keeps exactly the last second's errors, the flag is raised, and nothing else changes |
| Telemetry.SweptSpec | src/telemetry.tsx:91-103 | the 100 ms sweep keeps exactly the errors of the last second and sets the flag from them |
| Telemetry.RouteSpec | src/telemetry.tsx:166-258 | while paused only the frame's holding buffer changes; while live its buffer ends with it, its queue gets it appended, and nothing else changes |
| Telemetry.RoutePaused | src/telemetry.tsx:168-210 | a paused frame changes only the holding buffer and counter of its type, and is that buffer's last frame |
| Telemetry.RouteLive | src/telemetry.tsx:211-258 | a live frame changes only the buffer, queue and counter of its type; it ends the buffer and is appended to the queue |
| Telemetry.SizeCheckDoesNotBlock | src/telemetry.tsx:151-155 | the buffers, queues and holding buffers after a binary message are those after routing the decoded frame alone: the size check never keeps a frame from being routed |
| Telemetry.QueuedSpec | src/telemetry.tsx:302-309 | `getQueued` returns the queue and leaves it empty, so a second call returns nothing; no other state changes |
| Telemetry.QueueSeesLiveFrames | src/telemetry.tsx:225-226 | a type's queue receives exactly the frames routed while live |
| Telemetry.SliceSpec | src/telemetry.tsx:286-296 | `getSlice` returns exactly the buffer's frames within `min(sec, maxRetention)` of the last frame's time, and empty for an empty buffer |
| Telemetry.LatestOf | src/telemetry.tsx:316-319 | `getLatestFrame(pt)` is the last frame of that buffer, and null exactly when it is empty |
| Telemetry.LatestFromSpec | src/telemetry.tsx:322-336 | the scan returns the frame it started with or the last frame of a visited buffer, with a time no lower than the starting bound, and no visited buffer's last frame has a later time |
| Telemetry.LatestFrameSpec | src/telemetry.tsx:322-336 | over the packet types in `order`, `getLatestFrame()` returns the last frame of one of their buffers, none later; with no answer, no such last frame has a time above -1 |
| Telemetry.LatestFrameOfStore | src/telemetry.tsx:322-336 | when `order` lists exactly the types with buffers, as the map's iteration does, the answer is the last frame of some buffer and no buffer's last frame has a later time |
| Telemetry.ToggledSpec | src/telemetry.tsx:344-411 | pausing changes no buffer, queue or signal; resuming empties the holding maps, bumps the signal, leaves types with nothing held alone, and merges the held ones |
| Telemetry.PauseResume | src/telemetry.tsx:344-411 | pausing and resuming with nothing received between only bumps the reset signal |
| Telemetry.ConsistentKept | src/telemetry.tsx:58-492 | every handler keeps the store consistent: error flag agrees with the log, every buffer has a queue, holding maps share keys, nothing held while live |
| Telemetry.ConsistentKeptByMessages | src/telemetry.tsx:58-309 | the size check, the sweep, routing and `getQueued` keep the store consistent |
| Telemetry.ConsistentKeptByResets | src/telemetry.tsx:344-492 | `togglePause`, `replaceBuffer` and `clearAll` keep the store consistent |
| Telemetry.ConsistentToggled | src/telemetry.tsx:344-411 | `togglePause` keeps the store consistent |
| Telemetry.GroupBySpec | src/telemetry.tsx:467-475 | a type has a group exactly when some frame has it, and its group is those frames in input order |
| Telemetry.ReplacedSpec | src/telemetry.tsx:455-479 | with a type, that buffer becomes the frames and its queue empties; without one, each type's buffer is its frames in order, only present types have buffers, every queue is empty; the signal is bumped, and holding and the error log stay |
| Telemetry.ClearedSpec | src/telemetry.tsx:485-492 | after `clearAll` every query returns nothing, the reset signal is bumped, and the pause state and error flag stay |
| Telemetry.MergeStep | src/telemetry.tsx:350-398 | one step of the merge loop advances the merge from the types done to one more |
| Telemetry.MergeStepMain | src/telemetry.tsx:365-398 | the main buffers after one more merged type |
| Telemetry.AddQueueKey | src/telemetry.tsx:353-362 | creating a missing queue (as `[]`) extends the live-queue map by that one key and leaves every other queue as it was |
| Telemetry.AddCounterKey | src/telemetry.tsx:353-362 | creating a missing trim counter (at 0) extends the counter map by that one key and leaves every other counter as it was |
| Telemetry.MergeOne | src/telemetry.tsx:350-398 | the held frames of one type join its buffer, which gets a queue and counter if missing |
| Telemetry.ResumeState | src/telemetry.tsx:401-406 | a resume is the merged maps with the holding maps emptied and the signal bumped |
| Telemetry.MergeHeld | src/telemetry.tsx:350-399 | the merge loop over the holding buffers reaches the merged state for every held type |
| Telemetry.Regroup | src/telemetry.tsx:467-475 | the refill loop groups the frames by type, and every type seen gets an empty queue and a zero counter |
| Telemetry.TelemetryStore.constructor | src/telemetry.tsx:36-53 | a new provider has empty maps, is live, and has no errors |
| Telemetry.TelemetryStore.ValidatePacketSize | src/telemetry.tsx:58-86 | `validatePacketSize` as specified, keeping the store consistent |
| Telemetry.TelemetryStore.SweepErrors | src/telemetry.tsx:91-103 | the sweep as specified, keeping the store consistent |
| Telemetry.TelemetryStore.OnFrame | src/telemetry.tsx:162-258 | the routing of `onmessage`, both branches with their trim loops, as specified, keeping the store consistent |
| Telemetry.TelemetryStore.OnBinaryMessage | src/telemetry.tsx:147-164 | a binary message: the size check, then the decoded frame routed |
| Telemetry.TelemetryStore.GetQueued | src/telemetry.tsx:302-309 | `getQueued` as specified |
| Telemetry.TelemetryStore.GetLatestFrame | src/telemetry.tsx:322-336 | given every packet type with a buffer, in iteration order, the loop computes the scan: the last frame of some buffer, with no buffer's last frame later |
| Telemetry.TelemetryStore.TogglePause | src/telemetry.tsx:344-411 | `togglePause`, with its merge loop, as specified, keeping the store consistent |
| Telemetry.TelemetryStore.ReplaceBuffer | src/telemetry.tsx:455-479 | `replaceBuffer`, with its regroup loop, as specified, keeping the store consistent |
| Telemetry.TelemetryStore.ClearAll | src/telemetry.tsx:485-492 | `clearAll` as specified, keeping the store consistent |
| Xlsx.DigitRun | src/utils/xlsx-helpers.ts:75-81 | the run is all digits and ends at the first non-digit, as `\d+` matches greedily |
| Xlsx.PacketMatch | src/utils/xlsx-helpers.ts:76 | a match found is at or after the start position and is `Packet_` followed by a digit |
| Xlsx.PacketMatchSpec | src/utils/xlsx-helpers.ts:76 | the match found is the leftmost one, and none is found only when there is none |
| Xlsx.DigitRunOf | src/utils/xlsx-helpers.ts:75-81 | the digit run of digits followed by a non-digit is exactly those digits |
| Xlsx.LeadingDigitsRule | src/utils/xlsx-helpers.ts:75-79 | a sheet name of digits then `_` stands for those digits |
| Xlsx.PacketPrefixRule | src/utils/xlsx-helpers.ts:76-82 | a name `Packet_` then digits stands for those digits |
| Xlsx.ParseByMatch | src/utils/xlsx-helpers.ts:76-82 | a name that does not start with a digit but starts with `Packet_` and a digit reads the digits after it |
| Xlsx.DefaultRule | src/utils/xlsx-helpers.ts:74-82 | a name with neither form stands for packet type 1 |
| Xlsx.SheetNameRoundTrip | src/utils/xlsx-helpers.ts:28-37 | the tab name written for a non-negative type, `Packet_<t>`, `<t>_<name>` or `<t>_Unknown`, reads back as that type |
| Xlsx.Ascending | src/utils/xlsx-helpers.ts:18 | the sorted packet types are strictly ascending and are exactly the map's keys |
| Xlsx.NonEmpty | src/utils/xlsx-helpers.ts:20-22 | the types written are exactly the listed types with a non-empty buffer, still ascending |
| Xlsx.ExportTypes | src/utils/xlsx-helpers.ts:18-22 | the types that get a sheet are exactly those with rows, strictly ascending |
| Xlsx.ExportSpec | src/utils/xlsx-helpers.ts:14-47 | the export writes the no-data sheet exactly when every buffer is empty; otherwise one non-empty sheet per non-empty buffer, each named for its type, in strictly ascending type order |
| Xlsx.SheetsForSpec | src/utils/xlsx-helpers.ts:20-47 | the same, for the sheets of any ascending list of exactly the non-empty types |
| Xlsx.RowToFrame | src/utils/xlsx-helpers.ts:85-117 | the per-row body copies the row and fills `t` and `packet_type` as NormalizeRowSpec states |
| Xlsx.ParseXLSXToFrames | src/utils/xlsx-helpers.ts:60-123 | the loop over the sheets computes the import: empty sheets skipped, a later sheet of the same type wins |
| Xlsx.NormalizeRowSpec | src/utils/xlsx-helpers.ts:85-117 | an imported row keeps every other field, keeps its own `t` when truthy or a number, else takes `TimestampMS`, `timestamp`, `CurrentRaceTime` (the first truthy number) or the row index, and keeps a truthy `packet_type`, else takes the sheet's type |
| Xlsx.CompleteRowKept | src/utils/xlsx-helpers.ts:96-114 | a row with a usable `t` and a truthy `packet_type` is imported unchanged |
| Xlsx.NormalizeIdempotent | src/utils/xlsx-helpers.ts:85-117 | importing an imported row again changes nothing |
| Xlsx.SheetsOfParse | src/utils/xlsx-helpers.ts:60-123 | sheets written for types with rows import back as those types' normalised rows |
| Xlsx.ImportSheetsFor | src/utils/xlsx-helpers.ts:14-123 | importing the sheets written for exactly the non-empty types gives back those buffers, normalised |
| Xlsx.ExportImport | src/utils/xlsx-helpers.ts:14-123 | exporting and importing again gives back every non-empty buffer, normalised, under its own type; empty buffers are not written |
| Xlsx.ExportImportComplete | src/utils/xlsx-helpers.ts:14-123 | for frames that already have `t` and `packet_type`, importing an export gives back exactly the non-empty buffers |
| Xlsx.CompleteRowsKept | src/utils/xlsx-helpers.ts:85-117 | rows that all have `t` and `packet_type` are imported unchanged |
| Xlsx.CompleteBuffersKept | src/utils/xlsx-helpers.ts:85-119 | the non-empty buffers of complete rows are imported unchanged |
| Xlsx.Split | src/utils/xlsx-helpers.ts:213 | `split` on one character gives at least one piece |
| Xlsx.SplitJoin | src/utils/xlsx-helpers.ts:213 | joining the pieces of a split gives back the text, and no piece holds the separator |
| Xlsx.JoinSplit | src/utils/xlsx-helpers.ts:213 | pieces without the separator split back out of their join |
| Xlsx.SplitTwo | src/utils/xlsx-helpers.ts:213-216 | a split has a second piece exactly when the separator occurs |
| Xlsx.SpacesBefore | src/utils/xlsx-helpers.ts:218 | the count is the leading run of white space |
| Xlsx.SpacesAfter | src/utils/xlsx-helpers.ts:218 | the count is the trailing run of white space |
| Xlsx.TrimSpec | src/utils/xlsx-helpers.ts:218-232 | `trim` gives the empty string exactly for white space only, never starts or ends with white space, and is idempotent |
| Xlsx.StripQuotesSpec | src/utils/xlsx-helpers.ts:232 | quotes around a cell are removed, and a cell without a quote at either end is left alone |
| Xlsx.DataLines | src/utils/xlsx-helpers.ts:220-222 | the data lines are exactly the non-blank lines, in order |
| Xlsx.HeaderFields | src/utils/xlsx-helpers.ts:228-238 | the header loop gives each header its column's cell, or the empty string past the line's end |
| Xlsx.CellsSpec | src/utils/xlsx-helpers.ts:228-238 | a line's frame has a field exactly for each header, each from the last column with that header |
| Xlsx.LineToFrame | src/utils/xlsx-helpers.ts:224-257 | the body of the row `map` computes the CSV frame |
| Xlsx.LinesToFrames | src/utils/xlsx-helpers.ts:220-261 | the row `map` gives one frame per data line, numbered by its place among them |
| Xlsx.CsvFrameSpec | src/utils/xlsx-helpers.ts:224-257 | a CSV frame has every header, the cell of each, a usable `t` (its own when truthy or a number, else `TimestampMS`, else `timestamp`, else the index) and the given packet type |
| Xlsx.ConvertCSVToFrames | src/utils/xlsx-helpers.ts:212-261 | the whole conversion computes the specified result |
| Xlsx.ConvertCSVSpec | src/utils/xlsx-helpers.ts:212-261 | the import fails exactly when the text has no line break; otherwise one frame per non-blank line after the first, each with every trimmed header, a usable `t` and the given packet type |
| Xlsx.CleanCharSpec | src/utils/xlsx-helpers.ts:168-170 | what is kept of a character is lower-case letters and digits, and such a character is kept as it is |
| Xlsx.CleanNameSpec | src/utils/xlsx-helpers.ts:168-170 | the cleaned game name holds only lower-case letters and digits |
| Xlsx.CleanNameKeeps | src/utils/xlsx-helpers.ts:168-170 | a name of lower-case letters and digits is kept unchanged |
| Xlsx.Pad2Spec | src/utils/xlsx-helpers.ts:157-164 | a field below 100 is padded to two digits that read back as it |
| Xlsx.YearSpec | src/utils/xlsx-helpers.ts:156-159 | a four-digit year renders as four digits that read back as it |
| Xlsx.StampFields | src/utils/xlsx-helpers.ts:155-165 | `yyyymmdd-hhmmss` holds each field, zero-padded, at its fixed place |
| Xlsx.FilenameSpec | src/utils/xlsx-helpers.ts:152-173 | the name is `telemetry-<game>-<yyyymmdd>-<hhmmss>.xlsx`, the game part `unknown` without a name and otherwise only lower-case letters and digits, every field at its place |
| Plotly.InitialTraces | src/utils/plotly-helpers.ts:14-24 | one empty `scattergl` trace per configured trace, in order, with its name and colour, its y axis or `"y"`, its mode or `"lines"` |
| Plotly.BoxTraceOf | src/utils/plotly-helpers.ts:81-94 | a box trace is a single dummy point on `x2`, named after its trace with ` (box)`, in the trace's colour |
| Plotly.BoxTraces | src/utils/plotly-helpers.ts:78-95 | no more box traces than configured traces |
| Plotly.BoxTracesAppend | src/utils/plotly-helpers.ts:78-95 | the box traces keep the configured order |
| Plotly.BoxTracesSpec | src/utils/plotly-helpers.ts:78-95 | every trace with `show_box` gets its box trace, and every box trace belongs to such a trace |
| Plotly.XAxisRangeSpec | src/utils/plotly-helpers.ts:125-146 | for a non-negative retention the window is exactly that wide, never starts below 0, holds a non-negative latest x, is `[0, retention]` until x passes the retention and then ends at x |
| Plotly.Scale | src/utils/plotly-helpers.ts:163 | the divisor is never 0: the scaling factor when given and non-zero, else 1 |
| Plotly.Points | src/utils/plotly-helpers.ts:152-177 | no more points than frames |
| Plotly.PointOfSpec | src/utils/plotly-helpers.ts:160-170 | a frame gives a point exactly when its x is a non-NaN number and its y field converts to a non-NaN number; the point's y times the scale is that number |
| Plotly.PointsAppend | src/utils/plotly-helpers.ts:160-174 | the points of joined frame lists are each part's points, in frame order |
| Plotly.PointsAllValid | src/utils/plotly-helpers.ts:160-174 | when every frame gives a point there is one point per frame, in frame order |
| Plotly.PointsNoneValid | src/utils/plotly-helpers.ts:160-174 | frames that give no point leave both lists empty |
| Plotly.ProcessFrameData | src/utils/plotly-helpers.ts:152-177 | the loop pushes x and y together, so the lists have equal length and pair up into the specified points |
| Plotly.ValidateFrameData | src/utils/plotly-helpers.ts:183-188 | the lists pass exactly when neither holds `undefined` |
| Plotly.PointsValid | src/utils/plotly-helpers.ts:152-188 | the lists `processFrameData` returns always pass `validateFrameData` |
| Plotly.ClearTraceSpec | src/utils/plotly-helpers.ts:194-208 | a count that is absent, NaN or negative counts as 0 and non-list box indices as none; the first n updates clear line traces 0 to n - 1 and the rest put the dummy point back into each box trace, in the order given |

## Left out

- IEEE-754 arithmetic: float fields stay raw 32- or 64-bit patterns. Derived rates and averages are stated over real numbers through the interpretation parameter `f32`, so rounding, infinities and NaN propagation are not modelled.
- `Math.sqrt` is kept symbolic (`Frames.Value.Root`), and only its radicand is stated.
- `Date.now()` and `new Date()` are the parameters `now` and `Clock`; the time zone behind the local fields is not modelled.
- `Number()` and `isNaN` in the CSV import are the oracle parameter `numeric`, and the chart helpers' conversion of a field to a number is the parameter `toNumber`; how JavaScript parses numeric text is not modelled.
- The `forza-horizon` entry of `src/decoders/index.ts` names a decoder module that is not part of this model; its entry is modelled, its decoder is not.
- Dynamic `import()` of decoder modules and `fetch` of configuration files are `Result` parameters holding what the await produced; network and module loading are not modelled.
- React and the WebSocket in `src/telemetry.tsx` are not modelled: the socket lifecycle, `setInterval` scheduling, `setState` batching, the stale `isPaused` value a handler closure may see, and StrictMode's double invocation of effects. The handlers are modelled as atomic steps on the provider's state.
- `JSON.parse` of text messages on the socket is not modelled; the frame it gives is routed by `Telemetry.TelemetryStore.OnFrame` like a decoded one.
- `getFullBuffer` and `getBuffersByPacketType` in `src/telemetry.tsx` are not modelled; they copy the buffers for export and change nothing.
- The XLSX library is not modelled: a sheet is its tab name and the rows that `sheet_to_json` reads back. Cell typing (booleans, dates), the 31-character tab-name limit and duplicate tab names are therefore not modelled.
- `validateXLSXContent` and `downloadXLSX` are not modelled; they only call the XLSX library and the DOM.
- Plotly calls are not modelled: `safeExtendTraces`, `createChartLayout` and the `relayout` inside `updateXAxisRange`. The range it returns is modelled.
- The `custom_function` option of a chart trace is not modelled; no helper in the model uses it.
- A `scaling_factor` of NaN and a non-integer line-trace count in `clearTraceData` are not modelled; the model takes integer counts and real factors.
- `toLowerCase()` in the export file name is modelled only as far as the `[a-z0-9]` filter lets characters through.
- `parseInt` of a digit run above 2^53 loses precision in JavaScript; the model reads it exactly.
- A sheet written for a negative packet type is named `-3_…`, which does not read back as that type; `Xlsx.SheetNameRoundTrip` covers non-negative types only.
- The insertion order of the provider's `Map` of buffers is not modelled: `Telemetry.TelemetryStore.GetLatestFrame` takes the order in which `getLatestFrame()` visits the packet types as the parameter `order`, required to list exactly the types with buffers. Between last frames with equal times the first visited wins, so which of them is returned depends on that order.
- JavaScript object keys that collide with prototype properties, the SameValueZero equality of `Map` keys (which makes NaN a key) and the sort order of frames without a numeric time are not modelled. The sort is stated for buffers whose frames all have times.
- Telemetry.Filter: its own contract states only that no element is added; `Telemetry.FilterSpec` states which elements are kept.
- Telemetry.Retained: its own contract states only that the buffer does not grow; `Telemetry.RetainedSpec` states what is kept.
- Telemetry.Insert: its own contract states only the length; `Telemetry.InsertSpec` states the contents and the order.
- Telemetry.SortByTime: its own contract states only the length; `Telemetry.SortSpec` states the permutation and the order.
- Xlsx.Split: its own contract states only that there is at least one piece; `Xlsx.SplitJoin` and `Xlsx.JoinSplit` state the pieces.
- Plotly.BoxTraces: its own contract states only the count bound; `Plotly.BoxTracesSpec` states which traces get a box.
- Plotly.Points: its own contract states only the count bound; `Plotly.PointOfSpec` and `Plotly.PointsAllValid` state the points.
