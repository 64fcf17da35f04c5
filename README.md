# FTMS Cross Trainer Data decoder

A Dafny model of the decoder in `src/utils/ftms-parser.ts`. The decoder turns one
notification of the Bluetooth Fitness Machine Service characteristic Cross Trainer
Data (0x2ACE) into a partial `WorkoutStats` record. The record has these fields:
speed, cadence, power, resistance, distance, kcal, heart rate and elapsed time.

A payload has this layout:

- bytes 0..2 hold a 24-bit little-endian flags word;
- bytes 3..4 always hold the instantaneous speed;
- then comes one optional field per flag bit 1..16, in ascending bit order.

Each optional field has the fixed width given by the decoder's own table:

| bit | width | what the decoder does with it |
|---|---|---|
| 2 | 3 | reads it as the total distance (uint24) |
| 3 | 4 | reads the first uint16 as the cadence and skips the second |
| 7 | 2 | reads it as the resistance level (sint16 / 10) |
| 8 | 2 | reads it as the power (sint16) |
| 10 | 2 | reads it as the kcal (uint16) |
| 13 | 1 | reads it as the heart rate (uint8) |
| 15 | 2 | reads it as the elapsed time (uint16) |
| 12, 14 | 1 | skips it |
| 1, 4–6, 9, 11, 16 | 2 | skips it |

A read that runs past the end of the `DataView` throws `RangeError`.

The project has four modules.

- `JsRuntime` (`js_runtime.dfy`) models the part of the JavaScript runtime the decoder uses:
  - bytes;
  - the `DataView` reads `getUint8`, `getUint16` and `getInt16`, each of which either
    succeeds or throws `RangeError`;
  - `|`, `&` and `<<` on non-negative integers, defined bit by bit.

  A thrown exception is a `Result.Failure`, and `:-` propagates it the way an
  uncaught throw does.
- `FtmsParser` (`ftms_parser.dfy`) holds the record, `getUint24` and the decoder itself:
  - `ParseCrossTrainerData` is imperative, like the source. It has a local cursor
    `offset` and a record `result`, which the sixteen flag blocks update in turn.
  - Each source block is its own method:
    - `SkipField` covers the blocks that only move the cursor;
    - one `Parse…` method covers each block that reads a field.
  - Each block method is proved against `Walk`, a function that gives the state of the
    locals after the first `bit` blocks. It steps through the blocks with `RunBlock`.
    `Decode` is `Walk` run over all sixteen blocks.
  - The main method is proved to return exactly `Decode(value)`.
- `FtmsLayout` (`ftms_layout.dfy`) is an independent reference for the decoder. It
  describes the frame without a cursor:
  - `FieldOffset` is where each field starts;
  - `ReadsFit` says which reads must fit in the buffer;
  - `Stats` is the record a payload stands for.

  `DecodeMatchesLayout` proves that `Decode` equals this closed form.
- `FtmsProperties` (`ftms_properties.dfy`) proves what the decoder promises about:
  - the layout;
  - when it throws;
  - what a decoded record holds;
  - which flag bits matter;

  and checks some worked frames.

## Model

| member | source | states |
|---|---|---|
| JsRuntime.GetUint16 | src/utils/ftms-parser.ts:34 | the little-endian read succeeds exactly when its two bytes lie inside the view, and then yields `view[offset] + 256 * view[offset + 1]`, a value below 2^16 |
| JsRuntime.GetInt16 | src/utils/ftms-parser.ts:82 | the signed read succeeds exactly when its two bytes lie inside the view, and then yields the two's-complement reading of `view[offset] + 256 * view[offset + 1]`, a value in [-2^15, 2^15) |
| JsRuntime.GetUint8 | src/utils/ftms-parser.ts:118 | the byte read succeeds exactly when the offset lies inside the view, and then yields that byte |
| JsRuntime.ToInt16 | src/utils/ftms-parser.ts:82 | the two's-complement reading of a 16-bit pattern: in range, congruent to the pattern mod 2^16, and negative exactly when the top bit is set |
| JsRuntime.BitOrDisjoint | src/utils/ftms-parser.ts:21 | or-ing a value below 2^n with a value shifted left by n is plain addition |
| JsRuntime.BitAndPow2 | src/utils/ftms-parser.ts:39 | `x & (1 << k)` is non-zero exactly when bit k of x is set |
| FtmsParser.GetUint24 | src/utils/ftms-parser.ts:20-22 | succeeds exactly when bytes offset..offset+2 lie inside the view (otherwise it throws `RangeError`), and then yields their little-endian value, which is below 2^24 |
| FtmsParser.FlagSet | src/utils/ftms-parser.ts:39 | the test `flags & (1 << bit)` holds exactly when flag bit `bit` is set |
| FtmsParser.ReadFlags | src/utils/ftms-parser.ts:30 | the flags read succeeds exactly when the payload has at least 3 bytes, and then yields the 24-bit little-endian value of bytes 0..2 |
| FtmsParser.ThrowIsFinal | src/utils/ftms-parser.ts:24-141 | once a block has thrown, the whole decode throws |
| FtmsParser.SkipField | src/utils/ftms-parser.ts:38-138 | a skip-only block (bits 1, 4, 5, 6, 9, 11, 12, 14, 16) moves the cursor past the field when the bit is set, leaves the record unchanged and never throws; it takes the state after the previous blocks to the state after this one |
| FtmsParser.ParseTotalDistance | src/utils/ftms-parser.ts:43-48 | the bit-2 block throws exactly when bit 2 is set and its 3-byte read runs past the end, and then the whole decode throws; otherwise it takes the state after the bit-1 block to the state after bit 2, storing the uint24 distance and advancing 3 when the bit is set |
| FtmsParser.ParseStepRate | src/utils/ftms-parser.ts:50-62 | the bit-3 block throws exactly when bit 3 is set and its 2-byte read runs past the end, and then the whole decode throws; otherwise it takes the state after the previous block to the state after bit 3: when the bit is set it stores the first uint16 as the cadence and advances 4 |
| FtmsParser.ParseResistanceLevel | src/utils/ftms-parser.ts:80-85 | the bit-7 block throws exactly when bit 7 is set and its 2-byte read runs past the end, and then the whole decode throws; otherwise it takes the state after the previous block to the state after bit 7: when the bit is set it stores the sint16 divided by 10 and advances 2 |
| FtmsParser.ParsePower | src/utils/ftms-parser.ts:87-92 | the bit-8 block throws exactly when bit 8 is set and its 2-byte read runs past the end, and then the whole decode throws; otherwise it takes the state after the previous block to the state after bit 8: when the bit is set it stores the sint16 power and advances 2 |
| FtmsParser.ParseTotalEnergy | src/utils/ftms-parser.ts:99-104 | the bit-10 block throws exactly when bit 10 is set and its 2-byte read runs past the end, and then the whole decode throws; otherwise it takes the state after the previous block to the state after bit 10: when the bit is set it stores the uint16 kcal and advances 2 |
| FtmsParser.ParseHeartRate | src/utils/ftms-parser.ts:116-121 | the bit-13 block throws exactly when bit 13 is set and its byte read runs past the end, and then the whole decode throws; otherwise it takes the state after the previous block to the state after bit 13: when the bit is set it stores the raw uint8 heart rate and advances 1 |
| FtmsParser.ParseElapsedTime | src/utils/ftms-parser.ts:128-133 | the bit-15 block throws exactly when bit 15 is set and its 2-byte read runs past the end, and then the whole decode throws; otherwise it takes the state after the previous block to the state after bit 15: when the bit is set it stores the uint16 elapsed time and advances 2 |
| FtmsParser.ParseCrossTrainerData | src/utils/ftms-parser.ts:24-141 | the decoder returns exactly `Decode(value)`, the record or the `RangeError` of reading the flags, then the speed, then the sixteen blocks in bit order |
| FtmsLayout.WalkFollowsLayout | src/utils/ftms-parser.ts:31-138 | after the blocks below `bit` the cursor is `FieldOffset(flags, bit)` and the record holds exactly the fields below `bit`, unless a read below `bit` ran past the end, in which case the decode has thrown |
| FtmsLayout.DecodeMatchesLayout | src/utils/ftms-parser.ts:24-141 | on every payload the decoder equals the cursor-free layout reading: `RangeError` when the header or a decoded field does not fit, otherwise each field read at its offset |
| FtmsProperties.OffsetMonotone | src/utils/ftms-parser.ts:38-138 | the cursor never moves backwards from one block to a later one |
| FtmsProperties.FieldsInOrder | src/utils/ftms-parser.ts:38-138 | a present field ends at or before the start of every later field and of the end of the frame, so fields never overlap |
| FtmsProperties.OffsetIsSumOfWidths | src/utils/ftms-parser.ts:31-138 | the field of each flag bit starts at 5 plus the widths of the set flag bits below it, summed upwards from bit 1 |
| FtmsProperties.CursorEndsAfterAllFields | src/utils/ftms-parser.ts:31-138 | when the decode succeeds, the cursor ends at exactly 5 plus the widths of all set flag bits 1..16 |
| FtmsProperties.FullFrameDecodes | src/utils/ftms-parser.ts:24-141 | a payload at least as long as the frame its flags describe never throws |
| FtmsProperties.ThrowsIff | src/utils/ftms-parser.ts:24-141 | the decoder throws exactly when the payload is shorter than 5 bytes or the read of some set, decoded field runs past the end |
| FtmsProperties.ShortReadThrows | src/utils/ftms-parser.ts:116-120 | a set decoded field whose bytes run past the end makes the decoder throw `RangeError` |
| FtmsProperties.DecodedFields | src/utils/ftms-parser.ts:33-133 | a decoded record always has the speed as the raw uint16 / 100, and has each other field exactly when its flag bit is set, holding the raw value at the field's offset (no sentinel substitution) |
| FtmsProperties.WalkSeesBits1To16 | src/utils/ftms-parser.ts:38-138 | the blocks look only at flag bits 1..16 and at bytes from 3 on |
| FtmsProperties.OnlyFlagBits1To16Matter | src/utils/ftms-parser.ts:30-138 | two payloads that agree from byte 3 on and whose flags agree on bits 1..16 decode alike |
| FtmsProperties.UnusedFlagBits | src/utils/ftms-parser.ts:30 | flag bit 0 ("more data") and flag bits 17..23 change nothing in the decode |
| FtmsProperties.OneBitOffset | src/utils/ftms-parser.ts:38-138 | with a single flag bit j set, every field starts at byte 5 except those above j, which start after field j |
| FtmsProperties.SpeedOnlyFrame | src/utils/ftms-parser.ts:33-36 | flags 0 with speed 0x09C4 decode to speed 25.0 and nothing else |
| FtmsProperties.HeartRateIsRawByte | src/utils/ftms-parser.ts:116-121 | a heart-rate byte 0xFF decodes to 255, not to a "no reading" value |
| FtmsProperties.StepRateIsFirstHalf | src/utils/ftms-parser.ts:55-62 | with bit 3 the cadence is the first uint16 of the 4-byte group |
| FtmsProperties.SkippedTailIsNotRead | src/utils/ftms-parser.ts:135-138 | with only bit 16 set, a 5-byte payload (frame length 7) still decodes, because skipped fields are never read |
| FtmsProperties.MissingHeartRateThrows | src/utils/ftms-parser.ts:116-120 | with bit 13 set and no byte for it, the decoder throws `RangeError` |

## Left out

- Floating point: the speed (`/ 100`) and the resistance (`/ 10`) are exact rationals, not IEEE doubles.
- The JavaScript `number` fields become `Option<int>` or `Option<real>`. A field of the `Partial<WorkoutStats>` that the decoder does not set is `None`.
- The int32 conversion of the JavaScript `|`, `&` and `<<` is not modelled. The operators work on naturals, which is the same thing here: every operand is below 2^24 and every shift is at most 16.
- The `DataView` is its bytes. Its buffer offset and byte length are not modelled, because the decoder reads only through the view.
- The Bluetooth transport, subscription to notifications, the UI and the build configuration are not part of this model.
- The model follows the code as written:
  - A heart rate of 0xFF decodes to 255 and an elapsed time of 0xFFFF to 65535; no value stands for "not available".
  - There is one fixed little-endian layout for every device.
  - The frame length is not checked. Skip-only fields are never read, so a payload shorter than its flags imply can still decode.
  - Flag bit 0 ("more data") and flag bits 17..23 are ignored.
- The model follows the code's own table of flag bits and widths. That table is not checked against section 4.5 of the Bluetooth SIG Fitness Machine Service specification (v1.0). Examples of the code's choices: bit 3 is one 4-byte group whose first half becomes the cadence, bits 11 and 12 are energy fields, and heart rate is bit 13.
