/** The frame layout stated without a cursor: where each field starts, which
    reads must fit, and the record a payload stands for. The main theorem,
    `DecodeMatchesLayout`, says the block-by-block specification `Decode`
    computes exactly this. */
module FtmsLayout {
  import opened JsRuntime
  import opened FtmsParser

  /** Where the field of flag `bit` starts: after the flags and the speed
      (5 bytes) and after the field of every set flag bit below `bit`.
      `FieldOffset(flags, 17)` is where the decoder's cursor ends. */
  function FieldOffset(flags: nat, bit: nat): (r: nat)
    requires 1 <= bit <= 17
    ensures r >= 5
  {
    if bit == 1 then 5
    else FieldOffset(flags, bit - 1) + (if Bit(flags, bit - 1) then Width(bit - 1) else 0)
  }

  /** The length of the frame the flags describe. */
  function FrameLength(flags: nat): nat
  {
    FieldOffset(flags, 17)
  }

  /** The read of the field of flag `bit`, if the flag is set and the field
      is decoded, lies inside a buffer of `n` bytes. */
  predicate ReadFits(flags: nat, n: nat, bit: nat)
    requires 1 <= bit <= 16
  {
    Bit(flags, bit) && ReadWidth(bit) > 0 ==> FieldOffset(flags, bit) + ReadWidth(bit) <= n
  }

  /** Every read the decoder makes lies inside a buffer of `n` bytes: the
      flags and the speed, then each decoded field whose bit is set. */
  predicate ReadsFit(flags: nat, n: nat)
  {
    && 5 <= n
    && ReadFits(flags, n, 2) && ReadFits(flags, n, 3) && ReadFits(flags, n, 7)
    && ReadFits(flags, n, 8) && ReadFits(flags, n, 10) && ReadFits(flags, n, 13)
    && ReadFits(flags, n, 15)
  }

  // Each decoded field: present exactly when its flag bit is set, and then
  // the value stored at the field's offset.

  function Speed(buf: seq<Byte>): real
    requires 5 <= |buf|
  {
    LE16(buf, 3) as real / 100.0
  }

  function Distance(buf: seq<Byte>, flags: nat): Option<int>
    requires ReadFits(flags, |buf|, 2)
  {
    if Bit(flags, 2) then Some(LE24(buf, FieldOffset(flags, 2))) else None
  }

  function Cadence(buf: seq<Byte>, flags: nat): Option<int>
    requires ReadFits(flags, |buf|, 3)
  {
    if Bit(flags, 3) then Some(LE16(buf, FieldOffset(flags, 3))) else None
  }

  function Resistance(buf: seq<Byte>, flags: nat): Option<real>
    requires ReadFits(flags, |buf|, 7)
  {
    if Bit(flags, 7) then Some(ToInt16(LE16(buf, FieldOffset(flags, 7))) as real / 10.0) else None
  }

  function Power(buf: seq<Byte>, flags: nat): Option<int>
    requires ReadFits(flags, |buf|, 8)
  {
    if Bit(flags, 8) then Some(ToInt16(LE16(buf, FieldOffset(flags, 8)))) else None
  }

  function Energy(buf: seq<Byte>, flags: nat): Option<int>
    requires ReadFits(flags, |buf|, 10)
  {
    if Bit(flags, 10) then Some(LE16(buf, FieldOffset(flags, 10))) else None
  }

  function HeartRate(buf: seq<Byte>, flags: nat): Option<int>
    requires ReadFits(flags, |buf|, 13)
  {
    if Bit(flags, 13) then Some(buf[FieldOffset(flags, 13)] as int) else None
  }

  function ElapsedTime(buf: seq<Byte>, flags: nat): Option<int>
    requires ReadFits(flags, |buf|, 15)
  {
    if Bit(flags, 15) then Some(LE16(buf, FieldOffset(flags, 15))) else None
  }

  /** The record a payload stands for. */
  function Stats(buf: seq<Byte>, flags: nat): WorkoutStats
    requires ReadsFit(flags, |buf|)
  {
    WorkoutStats(
      instantSpeed := Some(Speed(buf)),
      instantCadence := Cadence(buf, flags),
      instantPower := Power(buf, flags),
      resistanceLevel := Resistance(buf, flags),
      totalDistance := Distance(buf, flags),
      kcal := Energy(buf, flags),
      heartRate := HeartRate(buf, flags),
      elapsedTime := ElapsedTime(buf, flags))
  }

  /** The decoder's result read off the layout: `RangeError` when some read
      does not fit in the buffer, `Stats` otherwise. */
  function LayoutDecode(buf: seq<Byte>): Result<WorkoutStats>
  {
    if |buf| < 5 then Failure(RangeError)
    else
      var flags := LE24(buf, 0);
      if ReadsFit(flags, |buf|) then Success(Stats(buf, flags)) else Failure(RangeError)
  }

  // ---------------------------------------------------------------------
  // The cursor walk follows the layout

  /** The reads of the decoded fields of flag bits below `bit` all lie
      inside a buffer of `n` bytes. */
  predicate FitsBelow(flags: nat, n: nat, bit: nat)
    requires 1 <= bit <= 17
  {
    bit == 1 || (FitsBelow(flags, n, bit - 1) && ReadFits(flags, n, bit - 1))
  }

  lemma {:induction false} FitsBelowAll(flags: nat, n: nat, bit: nat)
    requires 1 <= bit <= 17
    ensures FitsBelow(flags, n, bit) <==> forall b :: 1 <= b < bit ==> ReadFits(flags, n, b)
  {
    if bit > 1 {
      FitsBelowAll(flags, n, bit - 1);
    }
  }

  /** The record once the blocks of flag bits below `bit` have run. */
  function Prefix(buf: seq<Byte>, flags: nat, bit: nat): WorkoutStats
    requires 5 <= |buf| && 1 <= bit <= 17 && FitsBelow(flags, |buf|, bit)
  {
    FitsBelowAll(flags, |buf|, bit);
    WorkoutStats(
      instantSpeed := Some(Speed(buf)),
      instantCadence := if bit > 3 then Cadence(buf, flags) else None,
      instantPower := if bit > 8 then Power(buf, flags) else None,
      resistanceLevel := if bit > 7 then Resistance(buf, flags) else None,
      totalDistance := if bit > 2 then Distance(buf, flags) else None,
      kcal := if bit > 10 then Energy(buf, flags) else None,
      heartRate := if bit > 13 then HeartRate(buf, flags) else None,
      elapsedTime := if bit > 15 then ElapsedTime(buf, flags) else None)
  }

  /** After the blocks below `bit` the cursor is at `FieldOffset(flags, bit)`
      and the record is `Prefix`, unless a read below `bit` ran past the end. */
  lemma {:induction false} WalkFollowsLayout(buf: seq<Byte>, flags: nat, bit: nat)
    requires 5 <= |buf| && 1 <= bit <= 17
    ensures Walk(buf, flags, bit)
      == if FitsBelow(flags, |buf|, bit) then Success(Cursor(FieldOffset(flags, bit), Prefix(buf, flags, bit)))
         else Failure(RangeError)
  {
    if bit > 1 {
      WalkFollowsLayout(buf, flags, bit - 1);
    }
  }

  /** The block-by-block specification and the layout agree on every payload. */
  lemma DecodeMatchesLayout(buf: seq<Byte>)
    ensures Decode(buf) == LayoutDecode(buf)
  {
    if |buf| >= 5 {
      var flags := LE24(buf, 0);
      WalkFollowsLayout(buf, flags, 17);
      FitsBelowAll(flags, |buf|, 17);
    }
  }
}
