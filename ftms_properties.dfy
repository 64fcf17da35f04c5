/** What the Cross Trainer Data decoder promises about its output, stated
    over `Decode` (which `ParseCrossTrainerData` is proved to compute). */
module FtmsProperties {
  import opened JsRuntime
  import opened FtmsParser
  import opened FtmsLayout

  // ---------------------------------------------------------------------
  // The layout

  /** The cursor never moves backwards. */
  lemma {:induction false} OffsetMonotone(flags: nat, j: nat, k: nat)
    requires 1 <= j <= k <= 17
    ensures FieldOffset(flags, j) <= FieldOffset(flags, k)
  {
    if j < k {
      OffsetMonotone(flags, j, k - 1);
    }
  }

  /** Fields are laid out in ascending bit order without overlapping: a
      present field ends at or before the start of every later field, and
      at or before the end of the frame. */
  lemma {:induction false} FieldsInOrder(flags: nat, j: nat, k: nat)
    requires 1 <= j < k <= 17 && Bit(flags, j)
    ensures FieldOffset(flags, j) + Width(j) <= FieldOffset(flags, k)
  {
    if k > j + 1 {
      FieldsInOrder(flags, j, k - 1);
    }
  }

  /** The sum of `Width(b)` over the set flag bits `b` with `lo <= b < hi`,
      added from `lo` upwards. */
  function WidthSum(flags: nat, lo: nat, hi: nat): nat
    decreases hi - lo
  {
    if lo >= hi then 0
    else (if Bit(flags, lo) then Width(lo) else 0) + WidthSum(flags, lo + 1, hi)
  }

  /** Extending the range by its top bit adds that bit's width. */
  lemma {:induction false} WidthSumExtend(flags: nat, lo: nat, hi: nat)
    requires lo <= hi
    ensures WidthSum(flags, lo, hi + 1) == WidthSum(flags, lo, hi) + (if Bit(flags, hi) then Width(hi) else 0)
    decreases hi - lo
  {
    if lo < hi {
      WidthSumExtend(flags, lo + 1, hi);
    }
  }

  /** The field of flag `bit` starts at 5 plus the widths of the set flag
      bits below it; in particular the frame is 5 bytes plus the widths of
      all set flag bits 1..16. */
  lemma {:induction false} OffsetIsSumOfWidths(flags: nat, bit: nat)
    requires 1 <= bit <= 17
    ensures FieldOffset(flags, bit) == 5 + WidthSum(flags, 1, bit)
  {
    if bit > 1 {
      OffsetIsSumOfWidths(flags, bit - 1);
      WidthSumExtend(flags, 1, bit - 1);
    }
  }

  /** When the decode succeeds, the decoder's cursor ends exactly at 5 plus
      the widths of the set flag bits 1..16: every present field is consumed
      and nothing else. */
  lemma CursorEndsAfterAllFields(buf: seq<Byte>)
    requires 5 <= |buf|
    ensures var w := Walk(buf, LE24(buf, 0), 17);
      w.Success? ==> w.value.offset == 5 + WidthSum(LE24(buf, 0), 1, 17)
  {
    WalkFollowsLayout(buf, LE24(buf, 0), 17);
    OffsetIsSumOfWidths(LE24(buf, 0), 17);
  }

  // ---------------------------------------------------------------------
  // When the decoder throws

  /** A payload that holds the whole frame its flags describe always decodes. */
  lemma FullFrameDecodes(buf: seq<Byte>)
    requires 5 <= |buf| && FrameLength(LE24(buf, 0)) <= |buf|
    ensures Decode(buf).Success?
  {
    DecodeMatchesLayout(buf);
    var flags := LE24(buf, 0);
    var bits := [2, 3, 7, 8, 10, 13, 15];
    forall i | 0 <= i < |bits| && Bit(flags, bits[i])
      ensures FieldOffset(flags, bits[i]) + ReadWidth(bits[i]) <= |buf|
    {
      FieldsInOrder(flags, bits[i], 17);
    }
    assert ReadsFit(flags, |buf|) by {
      assert bits[0] == 2 && bits[1] == 3 && bits[2] == 7 && bits[3] == 8;
      assert bits[4] == 10 && bits[5] == 13 && bits[6] == 15;
    }
  }

  /** The decoder throws exactly when the payload is shorter than the flags
      and the speed, or some decoded field's read runs past the end. */
  lemma ThrowsIff(buf: seq<Byte>)
    ensures Decode(buf).Failure? <==> |buf| < 5 || !ReadsFit(LE24(buf, 0), |buf|)
  {
    DecodeMatchesLayout(buf);
  }

  /** A decoded field whose flag is set but whose bytes run past the end of
      the payload makes the decoder throw. */
  lemma ShortReadThrows(buf: seq<Byte>, bit: nat)
    requires 5 <= |buf| && 1 <= bit <= 16 && ReadWidth(bit) > 0
    requires Bit(LE24(buf, 0), bit) && FieldOffset(LE24(buf, 0), bit) + ReadWidth(bit) > |buf|
    ensures Decode(buf) == Failure(RangeError)
  {
    DecodeMatchesLayout(buf);
  }

  // ---------------------------------------------------------------------
  // What a decoded record holds

  /** Every field of a decoded record: the speed always, each other field
      exactly when its flag bit is set, holding the raw little-endian value
      at that field's offset with no sentinel substitution. */
  lemma DecodedFields(buf: seq<Byte>)
    requires Decode(buf).Success?
    ensures 5 <= |buf| && ReadsFit(LE24(buf, 0), |buf|)
    ensures Decode(buf).value.instantSpeed == Some((buf[3] as int + 0x100 * buf[4] as int) as real / 100.0)
    ensures var st, flags := Decode(buf).value, LE24(buf, 0);
      && (st.totalDistance.Some? <==> Bit(flags, 2))
      && (st.instantCadence.Some? <==> Bit(flags, 3))
      && (st.resistanceLevel.Some? <==> Bit(flags, 7))
      && (st.instantPower.Some? <==> Bit(flags, 8))
      && (st.kcal.Some? <==> Bit(flags, 10))
      && (st.heartRate.Some? <==> Bit(flags, 13))
      && (st.elapsedTime.Some? <==> Bit(flags, 15))
    ensures var st, o := Decode(buf).value, FieldOffset(LE24(buf, 0), 2);
      st.totalDistance.Some? ==>
        st.totalDistance.value == buf[o] as int + 0x100 * buf[o + 1] as int + 0x1_0000 * buf[o + 2] as int
    ensures var st, o := Decode(buf).value, FieldOffset(LE24(buf, 0), 3);
      st.instantCadence.Some? ==> st.instantCadence.value == buf[o] as int + 0x100 * buf[o + 1] as int
    ensures var st, o := Decode(buf).value, FieldOffset(LE24(buf, 0), 7);
      st.resistanceLevel.Some? ==>
        st.resistanceLevel.value == ToInt16(buf[o] as int + 0x100 * buf[o + 1] as int) as real / 10.0
    ensures var st, o := Decode(buf).value, FieldOffset(LE24(buf, 0), 8);
      st.instantPower.Some? ==>
        && st.instantPower.value == ToInt16(buf[o] as int + 0x100 * buf[o + 1] as int)
        && -0x8000 <= st.instantPower.value < 0x8000
    ensures var st, o := Decode(buf).value, FieldOffset(LE24(buf, 0), 10);
      st.kcal.Some? ==> st.kcal.value == buf[o] as int + 0x100 * buf[o + 1] as int
    ensures var st, o := Decode(buf).value, FieldOffset(LE24(buf, 0), 13);
      st.heartRate.Some? ==> st.heartRate.value == buf[o] as int
    ensures var st, o := Decode(buf).value, FieldOffset(LE24(buf, 0), 15);
      st.elapsedTime.Some? ==> st.elapsedTime.value == buf[o] as int + 0x100 * buf[o + 1] as int
  {
    DecodeMatchesLayout(buf);
  }

  // ---------------------------------------------------------------------
  // Which flag bits matter

  /** The walk looks at the flags only through bits 1..16, and at the
      payload only from byte 3 on. */
  lemma {:induction false} WalkSeesBits1To16(buf: seq<Byte>, buf': seq<Byte>, f: nat, g: nat, bit: nat)
    requires 5 <= |buf| == |buf'| && 1 <= bit <= 17
    requires forall i :: 3 <= i < |buf| ==> buf[i] == buf'[i]
    requires forall k :: 1 <= k <= 16 ==> (Bit(f, k) <==> Bit(g, k))
    ensures Walk(buf, f, bit) == Walk(buf', g, bit)
  {
    if bit > 1 {
      WalkSeesBits1To16(buf, buf', f, g, bit - 1);
    }
  }

  /** Two payloads that agree from byte 3 on and whose flags agree on bits
      1..16 decode alike: bit 0 ("more data") and bits 17..23 change
      neither the cursor nor the record. */
  lemma OnlyFlagBits1To16Matter(buf: seq<Byte>, buf': seq<Byte>)
    requires 5 <= |buf| == |buf'| && buf[3..] == buf'[3..]
    requires forall k :: 1 <= k <= 16 ==> (Bit(LE24(buf, 0), k) <==> Bit(LE24(buf', 0), k))
    ensures Decode(buf) == Decode(buf')
  {
    assert forall i :: 3 <= i < |buf| ==> buf[i] == buf[3..][i - 3] == buf'[i];
    WalkSeesBits1To16(buf, buf', LE24(buf, 0), LE24(buf', 0), 17);
  }

  /** Adding a multiple of `2^n` leaves the bits below `n` alone. */
  lemma {:induction false} LowBitsIgnoreHighPart(x: nat, d: int, n: nat, k: nat)
    requires k < n && x + Pow2(n) * d >= 0
    ensures Bit(x + Pow2(n) * d, k) == Bit(x, k)
  {
    var m := Pow2(n - 1) * d;
    assert Pow2(n) * d == 2 * m;
    if k > 0 {
      assert (x + 2 * m) / 2 == x / 2 + m;
      LowBitsIgnoreHighPart(x / 2, d, n - 1, k - 1);
    }
  }

  /** Two flags words whose halves differ by a multiple of `2^n` agree on
      bits 1..n. */
  lemma SameFlagBits(x: nat, y: nat, d: int, n: nat)
    requires y / 2 == x / 2 + Pow2(n) * d
    ensures forall k :: 1 <= k <= n ==> (Bit(x, k) <==> Bit(y, k))
  {
    forall k | 1 <= k <= n
      ensures Bit(x, k) <==> Bit(y, k)
    {
      LowBitsIgnoreHighPart(x / 2, d, n, k - 1);
    }
  }

  /** Bit 0 of the first flags byte and bits 1..7 of the third (flag bits
      17..23) can be anything: rewriting them leaves the decode unchanged. */
  lemma UnusedFlagBits(buf: seq<Byte>, b0: Byte, b2: Byte)
    requires 5 <= |buf| && b0 / 2 == buf[0] / 2 && b2 % 2 == buf[2] % 2
    ensures Decode(buf[0 := b0][2 := b2]) == Decode(buf)
  {
    var buf' := buf[0 := b0][2 := b2];
    var d := (b2 as int - buf[2] as int) / 2;
    assert LE24(buf', 0) / 2 == LE24(buf, 0) / 2 + 0x1_0000 * d;
    Pow2Of16();
    SameFlagBits(LE24(buf, 0), LE24(buf', 0), d, 16);
    assert buf[3..] == buf'[3..];
    OnlyFlagBits1To16Matter(buf, buf');
  }

  // ---------------------------------------------------------------------
  // Worked frames

  /** `1 << j` has bit `j` set and no other. */
  lemma {:induction false} OneBit(j: nat, k: nat)
    ensures Bit(Pow2(j), k) <==> k == j
  {
    if j == 0 {
      if k > 0 {
        NoBitOfZero(k - 1);
      }
    } else if k > 0 {
      OneBit(j - 1, k - 1);
    }
  }

  /** With the single flag bit `j` set, every field starts right after the
      speed, except that the fields above `j` come after field `j`. */
  lemma {:induction false} OneBitOffset(j: nat, bit: nat)
    requires 1 <= bit <= 17
    ensures FieldOffset(Pow2(j), bit) == 5 + if 1 <= j < bit then Width(j) else 0
  {
    if bit > 1 {
      OneBitOffset(j, bit - 1);
      OneBit(j, bit - 1);
    }
  }

  /** Flags 0 and speed 0x09C4 = 2500: only the speed, 25.00 km/h. */
  lemma SpeedOnlyFrame()
    ensures Decode([0x00, 0x00, 0x00, 0xC4, 0x09]) == Success(NoStats.(instantSpeed := Some(25.0)))
  {
    var buf := [0x00, 0x00, 0x00, 0xC4, 0x09];
    assert LE24(buf, 0) == 0;
    forall k: nat ensures !Bit(0, k) { NoBitOfZero(k); }
    DecodeMatchesLayout(buf);
  }

  /** Flag bit 13 with the byte 0xFF: the heart rate is 255, not a
      "no reading" marker. */
  lemma HeartRateIsRawByte()
    ensures Decode([0x00, 0x20, 0x00, 0x00, 0x00, 0xFF])
      == Success(NoStats.(instantSpeed := Some(0.0), heartRate := Some(255)))
  {
    var buf := [0x00, 0x20, 0x00, 0x00, 0x00, 0xFF];
    var flags := Pow2(13);
    assert LE24(buf, 0) == flags;
    forall k: nat ensures Bit(flags, k) <==> k == 13 { OneBit(13, k); }
    OneBitOffset(13, 13);
    assert ReadsFit(flags, |buf|);
    assert HeartRate(buf, flags) == Some(255);
    DecodeMatchesLayout(buf);
  }

  /** Flag bit 3: the cadence is the first uint16 of the four-byte group
      (0x003C = 60); the second (the average step rate) is not read. */
  lemma StepRateIsFirstHalf()
    ensures Decode([0x08, 0x00, 0x00, 0x00, 0x00, 0x3C, 0x00, 0x28, 0x00])
      == Success(NoStats.(instantSpeed := Some(0.0), instantCadence := Some(60)))
  {
    var buf := [0x08, 0x00, 0x00, 0x00, 0x00, 0x3C, 0x00, 0x28, 0x00];
    var flags := Pow2(3);
    assert LE24(buf, 0) == flags;
    forall k: nat ensures Bit(flags, k) <==> k == 3 { OneBit(3, k); }
    OneBitOffset(3, 3);
    assert ReadsFit(flags, |buf|);
    assert Cadence(buf, flags) == Some(60);
    DecodeMatchesLayout(buf);
  }

  /** Flag bit 16 alone in a five-byte payload: the frame its flags describe
      is seven bytes long, yet nothing past byte 4 is read, so the decode
      succeeds. The decoder checks no frame length. */
  lemma SkippedTailIsNotRead()
    ensures FrameLength(LE24([0x00, 0x00, 0x01, 0x00, 0x00], 0)) == 7
    ensures Decode([0x00, 0x00, 0x01, 0x00, 0x00]) == Success(NoStats.(instantSpeed := Some(0.0)))
  {
    var buf := [0x00, 0x00, 0x01, 0x00, 0x00];
    Pow2Of16();
    var flags := Pow2(16);
    assert LE24(buf, 0) == flags;
    forall k: nat ensures Bit(flags, k) <==> k == 16 { OneBit(16, k); }
    OneBitOffset(16, 17);
    assert ReadsFit(flags, |buf|);
    DecodeMatchesLayout(buf);
  }

  /** Flag bit 13 in a five-byte payload: the heart-rate read runs past the
      end and the decoder throws. */
  lemma MissingHeartRateThrows()
    ensures Decode([0x00, 0x20, 0x00, 0x00, 0x00]) == Failure(RangeError)
  {
    var buf := [0x00, 0x20, 0x00, 0x00, 0x00];
    assert LE24(buf, 0) == Pow2(13);
    OneBit(13, 13);
    OneBitOffset(13, 13);
    DecodeMatchesLayout(buf);
  }
}
