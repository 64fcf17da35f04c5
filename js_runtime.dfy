/** The parts of the JavaScript runtime the FTMS decoder relies on: the bytes
    behind a `DataView`, its little-endian reads (which throw `RangeError`
    when a read runs past the end of the buffer), and the bitwise operators
    `|`, `&` and `<<` on the small non-negative integers the decoder uses. */
module JsRuntime {

  /** One byte of the notification payload. */
  type Byte = x: int | 0 <= x < 0x100

  /** The only exception a `DataView` read can raise here. */
  datatype Error = RangeError

  /** The outcome of code that may throw: a value, or the exception it raised.
      `:-` propagates the exception the way an uncaught JavaScript throw does. */
  datatype Result<+T> = Success(value: T) | Failure(error: Error) {
    predicate IsFailure() {
      Failure?
    }

    function PropagateFailure<U>(): Result<U>
      requires Failure?
    {
      Failure(error)
    }

    function Extract(): T
      requires Success?
    {
      value
    }
  }

  // ---------------------------------------------------------------------
  // Little-endian integers, as arithmetic on bytes

  /** The unsigned 16-bit little-endian integer stored at `buf[i..i+2]`. */
  function LE16(buf: seq<Byte>, i: nat): (r: nat)
    requires i + 2 <= |buf|
    ensures r < 0x1_0000
  {
    buf[i] as int + 0x100 * buf[i + 1] as int
  }

  /** The unsigned 24-bit little-endian integer stored at `buf[i..i+3]`. */
  function LE24(buf: seq<Byte>, i: nat): (r: nat)
    requires i + 3 <= |buf|
    ensures r < 0x100_0000
  {
    LE16(buf, i) + 0x1_0000 * buf[i + 2] as int
  }

  /** The two's-complement reading of a 16-bit pattern. */
  function ToInt16(u: nat): (r: int)
    requires u < 0x1_0000
    ensures -0x8000 <= r < 0x8000
    ensures (r - u) % 0x1_0000 == 0
    ensures (r < 0) == (u >= 0x8000)
  {
    if u < 0x8000 then u else u - 0x1_0000
  }

  // ---------------------------------------------------------------------
  // DataView reads

  /** `view.getUint8(offset)`. */
  function GetUint8(view: seq<Byte>, offset: int): (r: Result<Byte>)
    ensures r.Success? <==> 0 <= offset < |view|
    ensures r.Success? ==> r.value == view[offset]
  {
    if 0 <= offset < |view| then Success(view[offset]) else Failure(RangeError)
  }

  /** `view.getUint16(offset, true)`: little-endian unsigned. */
  function GetUint16(view: seq<Byte>, offset: int): (r: Result<nat>)
    ensures r.Success? <==> 0 <= offset && offset + 2 <= |view|
    ensures r.Success? ==> r.value == view[offset] as int + 0x100 * view[offset + 1] as int
    ensures r.Success? ==> r.value < 0x1_0000
  {
    if 0 <= offset && offset + 2 <= |view| then Success(LE16(view, offset)) else Failure(RangeError)
  }

  /** `view.getInt16(offset, true)`: little-endian two's complement. */
  function GetInt16(view: seq<Byte>, offset: int): (r: Result<int>)
    ensures r.Success? <==> 0 <= offset && offset + 2 <= |view|
    ensures r.Success? ==> r.value == ToInt16(view[offset] as int + 0x100 * view[offset + 1] as int)
    ensures r.Success? ==> -0x8000 <= r.value < 0x8000
  {
    if 0 <= offset && offset + 2 <= |view| then Success(ToInt16(LE16(view, offset))) else Failure(RangeError)
  }

  // ---------------------------------------------------------------------
  // Bitwise operators on non-negative integers

  function Pow2(n: nat): (r: nat)
    ensures r >= 1
  {
    if n == 0 then 1 else 2 * Pow2(n - 1)
  }

  /** Bit `k` of `x` (bit 0 is the least significant). */
  predicate Bit(x: nat, k: nat)
  {
    if k == 0 then x % 2 == 1 else Bit(x / 2, k - 1)
  }

  /** `a | b`, computed bit by bit from the least significant end. */
  function BitOr(a: nat, b: nat): nat
    decreases a
  {
    if a == 0 then b
    else if b == 0 then a
    else 2 * BitOr(a / 2, b / 2) + (if a % 2 == 1 || b % 2 == 1 then 1 else 0)
  }

  /** `a & b`, computed bit by bit from the least significant end. */
  function BitAnd(a: nat, b: nat): nat
    decreases a
  {
    if a == 0 || b == 0 then 0
    else 2 * BitAnd(a / 2, b / 2) + (if a % 2 == 1 && b % 2 == 1 then 1 else 0)
  }

  /** `a << n`. */
  function ShiftLeft(a: nat, n: nat): nat
  {
    a * Pow2(n)
  }

  /** `1 << 16`, the shift the decoder uses to place the third flags byte. */
  lemma Pow2Of16()
    ensures Pow2(16) == 0x1_0000
  {
    assert Pow2(1) == 2;
    assert Pow2(2) == 4;
    assert Pow2(3) == 8;
    assert Pow2(4) == 16;
    assert Pow2(5) == 32;
    assert Pow2(6) == 64;
    assert Pow2(7) == 128;
    assert Pow2(8) == 256;
    assert Pow2(9) == 512;
    assert Pow2(10) == 1024;
    assert Pow2(11) == 2048;
    assert Pow2(12) == 4096;
    assert Pow2(13) == 8192;
    assert Pow2(14) == 16384;
    assert Pow2(15) == 32768;
  }

  lemma {:induction false} NoBitOfZero(k: nat)
    ensures !Bit(0, k)
  {
    if k > 0 {
      NoBitOfZero(k - 1);
    }
  }

  /** Or-ing a value below `2^n` with a value shifted left by `n` adds them:
      the two operands have no set bit in common. */
  lemma {:induction false} BitOrDisjoint(lo: nat, hi: nat, n: nat)
    requires lo < Pow2(n)
    ensures BitOr(lo, ShiftLeft(hi, n)) == lo + ShiftLeft(hi, n)
  {
    var b := ShiftLeft(hi, n);
    if lo != 0 && b != 0 {
      var b' := ShiftLeft(hi, n - 1);
      assert b == 2 * b' by {
        assert Pow2(n) == 2 * Pow2(n - 1);
      }
      BitOrDisjoint(lo / 2, hi, n - 1);
    }
  }

  /** `x & (1 << k)` is non-zero exactly when bit `k` of `x` is set. */
  lemma {:induction false} BitAndPow2(x: nat, k: nat)
    ensures BitAnd(x, ShiftLeft(1, k)) != 0 <==> Bit(x, k)
  {
    if x == 0 {
      NoBitOfZero(k);
    } else if k > 0 {
      assert ShiftLeft(1, k) == 2 * ShiftLeft(1, k - 1);
      BitAndPow2(x / 2, k - 1);
    }
  }
}
