/** The decoder for the FTMS Cross Trainer Data characteristic (0x2ACE):
    one notification payload in, a partial `WorkoutStats` record out.

    The wire layout is the decoder's own table: a 24-bit flags word at bytes
    0..2, the instantaneous speed always at bytes 3..4, then one optional
    field per flag bit 1..16 in ascending bit order, each of a fixed width.
    Seven of those fields are decoded; the rest are only skipped. */
module FtmsParser {
  import opened JsRuntime

  datatype Option<+T> = None | Some(value: T)

  /** `Partial<WorkoutStats>`: a field is either absent or holds its value.
      Speed and resistance are exact rationals (the code divides by 100 and
      by 10 in floating point). */
  datatype WorkoutStats = WorkoutStats(
    instantSpeed: Option<real>,
    instantCadence: Option<int>,
    instantPower: Option<int>,
    resistanceLevel: Option<real>,
    totalDistance: Option<int>,
    kcal: Option<int>,
    heartRate: Option<int>,
    elapsedTime: Option<int>)

  /** The empty object `{}` the decoder starts from. */
  const NoStats := WorkoutStats(None, None, None, None, None, None, None, None)

  /** `getUint24(view, offset)`: a 16-bit little-endian read or-ed with the
      following byte shifted into bits 16..23. */
  function GetUint24(view: seq<Byte>, offset: int): (r: Result<nat>)
    ensures r.Success? <==> 0 <= offset && offset + 3 <= |view|
    ensures r.Success? ==> r.value == view[offset] as int + 0x100 * view[offset + 1] as int + 0x1_0000 * view[offset + 2] as int
    ensures r.Success? ==> r.value < 0x100_0000
  {
    var lo :- GetUint16(view, offset);
    var hi :- GetUint8(view, offset + 2);
    Pow2Of16();
    BitOrDisjoint(lo, hi, 16);
    Success(BitOr(lo, ShiftLeft(hi, 16)))
  }

  /** The condition `flags & (1 << bit)` the decoder tests before each field. */
  function FlagSet(flags: nat, bit: nat): (isSet: bool)
    ensures isSet <==> Bit(flags, bit)
  {
    BitAndPow2(flags, bit);
    BitAnd(flags, ShiftLeft(1, bit)) != 0
  }

  // ---------------------------------------------------------------------
  // The decoder's table

  /** How many bytes the decoder advances past the field of flag `bit`. */
  function Width(bit: nat): nat
  {
    if bit == 2 then 3           // total distance, uint24
    else if bit == 3 then 4      // step rate and average step rate, uint16 each
    else if 12 <= bit <= 14 then 1   // energy per minute, heart rate, metabolic equivalent
    else if 1 <= bit <= 16 then 2
    else 0
  }

  /** How many bytes the decoder reads from the field of flag `bit`: only
      the seven decoded fields are read, and of the bit-3 group only its
      first uint16. */
  function ReadWidth(bit: nat): nat
  {
    if bit == 2 then 3
    else if bit == 13 then 1
    else if bit == 3 || bit == 7 || bit == 8 || bit == 10 || bit == 15 then 2
    else 0
  }

  // ---------------------------------------------------------------------
  // The specification, block by block

  /** The decoder's locals between two blocks: the cursor and the record. */
  datatype Cursor = Cursor(offset: int, result: WorkoutStats)

  /** The record once the decoded field of flag `bit`, read at `offset`, is stored. */
  function Store(buf: seq<Byte>, bit: nat, offset: int, result: WorkoutStats): WorkoutStats
    requires ReadWidth(bit) > 0 && 0 <= offset && offset + ReadWidth(bit) <= |buf|
  {
    if bit == 2 then result.(totalDistance := Some(LE24(buf, offset)))
    else if bit == 3 then result.(instantCadence := Some(LE16(buf, offset)))
    else if bit == 7 then result.(resistanceLevel := Some(ToInt16(LE16(buf, offset)) as real / 10.0))
    else if bit == 8 then result.(instantPower := Some(ToInt16(LE16(buf, offset))))
    else if bit == 10 then result.(kcal := Some(LE16(buf, offset)))
    else if bit == 13 then result.(heartRate := Some(buf[offset] as int))
    else result.(elapsedTime := Some(LE16(buf, offset)))
  }

  /** What the block `if (flags & (1 << bit)) { ... }` does to the locals:
      nothing when the bit is clear; otherwise, for a decoded field, a read
      that throws when it runs past the end of the buffer, and then a move of
      the cursor past the field. */
  function RunBlock(buf: seq<Byte>, flags: nat, bit: nat, c: Cursor): Result<Cursor>
  {
    if !Bit(flags, bit) then Success(c)
    else if ReadWidth(bit) == 0 then Success(c.(offset := c.offset + Width(bit)))
    else if c.offset < 0 || c.offset + ReadWidth(bit) > |buf| then Failure(RangeError)
    else Success(Cursor(c.offset + Width(bit), Store(buf, bit, c.offset, c.result)))
  }

  /** The locals once the speed is read and the blocks of flag bits below
      `bit` have run, or the exception one of them threw. */
  function Walk(buf: seq<Byte>, flags: nat, bit: nat): (w: Result<Cursor>)
    requires 5 <= |buf| && 1 <= bit <= 17
    ensures w.Success? ==> 5 <= w.value.offset
  {
    if bit == 1 then Success(Cursor(5, NoStats.(instantSpeed := Some(LE16(buf, 3) as real / 100.0))))
    else
      var c :- Walk(buf, flags, bit - 1);
      RunBlock(buf, flags, bit - 1, c)
  }

  /** The specification of the decoder: the flags word is the 24-bit
      little-endian integer at bytes 0..2, the speed the 16-bit one at bytes
      3..4, and then the sixteen blocks run in bit order; a payload too short
      for the flags and the speed throws `RangeError`. */
  function Decode(buf: seq<Byte>): Result<WorkoutStats>
  {
    if |buf| < 5 then Failure(RangeError)
    else
      var c :- Walk(buf, LE24(buf, 0), 17);
      Success(c.result)
  }

  /** Once a block has thrown, the walk over all sixteen blocks throws. */
  lemma {:induction false} ThrowIsFinal(buf: seq<Byte>, flags: nat, bit: nat)
    requires 5 <= |buf| && 1 <= bit <= 17
    ensures Walk(buf, flags, bit).Failure? ==> Walk(buf, flags, 17).Failure?
    decreases 17 - bit
  {
    if bit < 17 {
      ThrowIsFinal(buf, flags, bit + 1);
    }
  }

  // ---------------------------------------------------------------------
  // The decoder

  /** The flags word: `getUint16(0, true) | (getUint8(2) << 16)`. */
  method ReadFlags(value: seq<Byte>) returns (r: Result<nat>)
    ensures r.Success? <==> 3 <= |value|
    ensures r.Success? ==> r.value == value[0] as int + 0x100 * value[1] as int + 0x1_0000 * value[2] as int
  {
    var lo :- GetUint16(value, 0);
    var hi :- GetUint8(value, 2);
    Pow2Of16();
    BitOrDisjoint(lo, hi, 16);
    return Success(BitOr(lo, ShiftLeft(hi, 16)));
  }

  /** A block `if (flags & (1 << bit)) { offset += width; }` for a field the
      decoder skips without reading it. */
  method SkipField(ghost value: seq<Byte>, flags: nat, bit: nat, width: nat, offset: int, ghost result: WorkoutStats)
    returns (next: int)
    requires 5 <= |value| && 1 <= bit <= 16 && ReadWidth(bit) == 0 && width == Width(bit)
    requires Walk(value, flags, bit) == Success(Cursor(offset, result))
    ensures Walk(value, flags, bit + 1) == Success(Cursor(next, result))
  {
    next := offset;
    if FlagSet(flags, bit) {
      next := next + width;
    }
  }

  /** The block for flag bit 2. Total distance, uint24 metres. */
  method ParseTotalDistance(value: seq<Byte>, flags: nat, offset: int, result: WorkoutStats)
    returns (r: Result<WorkoutStats>, next: int)
    requires 5 <= |value|
    requires Walk(value, flags, 2) == Success(Cursor(offset, result))
    ensures r.Failure? <==> Bit(flags, 2) && offset + 3 > |value|
    ensures r.Failure? ==> Walk(value, flags, 17).Failure?
    ensures r.Success? ==> Walk(value, flags, 3) == Success(Cursor(next, r.value))
  {
    ThrowIsFinal(value, flags, 3);
    next := offset;
    var rec := result;
    if FlagSet(flags, 2) {
      var dist :- GetUint24(value, next);
      rec := rec.(totalDistance := Some(dist));
      next := next + 3;
    }
    return Success(rec), next;
  }

  /** The block for flag bit 3. Step rate, kept as the cadence, then the average step rate, which is skipped. */
  method ParseStepRate(value: seq<Byte>, flags: nat, offset: int, result: WorkoutStats)
    returns (r: Result<WorkoutStats>, next: int)
    requires 5 <= |value|
    requires Walk(value, flags, 3) == Success(Cursor(offset, result))
    ensures r.Failure? <==> Bit(flags, 3) && offset + 2 > |value|
    ensures r.Failure? ==> Walk(value, flags, 17).Failure?
    ensures r.Success? ==> Walk(value, flags, 4) == Success(Cursor(next, r.value))
  {
    ThrowIsFinal(value, flags, 4);
    next := offset;
    var rec := result;
    if FlagSet(flags, 3) {
      var stepRate :- GetUint16(value, next);
      rec := rec.(instantCadence := Some(stepRate));
      next := next + 2;
      next := next + 2;
    }
    return Success(rec), next;
  }

  /** The block for flag bit 7. Resistance level, sint16 in tenths. */
  method ParseResistanceLevel(value: seq<Byte>, flags: nat, offset: int, result: WorkoutStats)
    returns (r: Result<WorkoutStats>, next: int)
    requires 5 <= |value|
    requires Walk(value, flags, 7) == Success(Cursor(offset, result))
    ensures r.Failure? <==> Bit(flags, 7) && offset + 2 > |value|
    ensures r.Failure? ==> Walk(value, flags, 17).Failure?
    ensures r.Success? ==> Walk(value, flags, 8) == Success(Cursor(next, r.value))
  {
    ThrowIsFinal(value, flags, 8);
    next := offset;
    var rec := result;
    if FlagSet(flags, 7) {
      var resistance :- GetInt16(value, next);
      rec := rec.(resistanceLevel := Some(resistance as real / 10.0));
      next := next + 2;
    }
    return Success(rec), next;
  }

  /** The block for flag bit 8. Instantaneous power, sint16 watts. */
  method ParsePower(value: seq<Byte>, flags: nat, offset: int, result: WorkoutStats)
    returns (r: Result<WorkoutStats>, next: int)
    requires 5 <= |value|
    requires Walk(value, flags, 8) == Success(Cursor(offset, result))
    ensures r.Failure? <==> Bit(flags, 8) && offset + 2 > |value|
    ensures r.Failure? ==> Walk(value, flags, 17).Failure?
    ensures r.Success? ==> Walk(value, flags, 9) == Success(Cursor(next, r.value))
  {
    ThrowIsFinal(value, flags, 9);
    next := offset;
    var rec := result;
    if FlagSet(flags, 8) {
      var power :- GetInt16(value, next);
      rec := rec.(instantPower := Some(power));
      next := next + 2;
    }
    return Success(rec), next;
  }

  /** The block for flag bit 10. Total energy, uint16 kcal. */
  method ParseTotalEnergy(value: seq<Byte>, flags: nat, offset: int, result: WorkoutStats)
    returns (r: Result<WorkoutStats>, next: int)
    requires 5 <= |value|
    requires Walk(value, flags, 10) == Success(Cursor(offset, result))
    ensures r.Failure? <==> Bit(flags, 10) && offset + 2 > |value|
    ensures r.Failure? ==> Walk(value, flags, 17).Failure?
    ensures r.Success? ==> Walk(value, flags, 11) == Success(Cursor(next, r.value))
  {
    ThrowIsFinal(value, flags, 11);
    next := offset;
    var rec := result;
    if FlagSet(flags, 10) {
      var energy :- GetUint16(value, next);
      rec := rec.(kcal := Some(energy));
      next := next + 2;
    }
    return Success(rec), next;
  }

  /** The block for flag bit 13. Heart rate, uint8 beats per minute. */
  method ParseHeartRate(value: seq<Byte>, flags: nat, offset: int, result: WorkoutStats)
    returns (r: Result<WorkoutStats>, next: int)
    requires 5 <= |value|
    requires Walk(value, flags, 13) == Success(Cursor(offset, result))
    ensures r.Failure? <==> Bit(flags, 13) && offset + 1 > |value|
    ensures r.Failure? ==> Walk(value, flags, 17).Failure?
    ensures r.Success? ==> Walk(value, flags, 14) == Success(Cursor(next, r.value))
  {
    ThrowIsFinal(value, flags, 14);
    next := offset;
    var rec := result;
    if FlagSet(flags, 13) {
      var hr :- GetUint8(value, next);
      rec := rec.(heartRate := Some(hr as int));
      next := next + 1;
    }
    return Success(rec), next;
  }

  /** The block for flag bit 15. Elapsed time, uint16 seconds. */
  method ParseElapsedTime(value: seq<Byte>, flags: nat, offset: int, result: WorkoutStats)
    returns (r: Result<WorkoutStats>, next: int)
    requires 5 <= |value|
    requires Walk(value, flags, 15) == Success(Cursor(offset, result))
    ensures r.Failure? <==> Bit(flags, 15) && offset + 2 > |value|
    ensures r.Failure? ==> Walk(value, flags, 17).Failure?
    ensures r.Success? ==> Walk(value, flags, 16) == Success(Cursor(next, r.value))
  {
    ThrowIsFinal(value, flags, 16);
    next := offset;
    var rec := result;
    if FlagSet(flags, 15) {
      var time :- GetUint16(value, next);
      rec := rec.(elapsedTime := Some(time));
      next := next + 2;
    }
    return Success(rec), next;
  }

  /** `parseCrossTrainerData(value)`: reads the flags and the speed, then runs
      the sixteen flag blocks in bit order, moving the cursor `offset` and
      filling `result`; a read past the end throws `RangeError`. */
  method ParseCrossTrainerData(value: seq<Byte>) returns (r: Result<WorkoutStats>)
    ensures r == Decode(value)
  {
    var result := NoStats;

    var flags :- ReadFlags(value);
    var offset: int := 3;

    // Instantaneous speed, always present, 0.01 km/h
    var speed :- GetUint16(value, offset);
    result := result.(instantSpeed := Some(speed as real / 100.0));
    offset := offset + 2;

    offset := SkipField(value, flags, 1, 2, offset, result);    // average speed
    result, offset :- ParseTotalDistance(value, flags, offset, result);
    result, offset :- ParseStepRate(value, flags, offset, result);
    offset := SkipField(value, flags, 4, 2, offset, result);    // stride count
    offset := SkipField(value, flags, 5, 2, offset, result);    // elevation gain
    offset := SkipField(value, flags, 6, 2, offset, result);    // inclination
    result, offset :- ParseResistanceLevel(value, flags, offset, result);
    result, offset :- ParsePower(value, flags, offset, result);
    offset := SkipField(value, flags, 9, 2, offset, result);    // average power
    result, offset :- ParseTotalEnergy(value, flags, offset, result);
    offset := SkipField(value, flags, 11, 2, offset, result);   // energy per hour
    offset := SkipField(value, flags, 12, 1, offset, result);   // energy per minute
    result, offset :- ParseHeartRate(value, flags, offset, result);
    offset := SkipField(value, flags, 14, 1, offset, result);   // metabolic equivalent
    result, offset :- ParseElapsedTime(value, flags, offset, result);
    offset := SkipField(value, flags, 16, 2, offset, result);   // remaining time

    return Success(result);
  }
}
