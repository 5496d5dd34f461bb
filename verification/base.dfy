/** Optional values and success-or-error results, as used by every module. */
module Wrappers {
  datatype Option<T> = None | Some(value: T)

  datatype Result<T, E> = Success(value: T) | Failure(error: E)
}

/** The fixed-width unsigned and signed integers of the Swift source, as ranges of `int`. */
module Ints {
  type u8 = x: int | 0 <= x < 0x100
  type u16 = x: int | 0 <= x < 0x1_0000
  type u32 = x: int | 0 <= x < 0x1_0000_0000
  type i8 = x: int | -0x80 <= x < 0x80
  type i16 = x: int | -0x8000 <= x < 0x8000

  /** `UInt8(truncatingIfNeeded:)`, the wrap-around of `&+` and `&*` on `UInt8`. */
  function Wrap8(x: int): u8
  {
    x % 0x100
  }

  /** `UInt16(truncatingIfNeeded:)`. */
  function Wrap16(x: int): u16
  {
    x % 0x1_0000
  }

  /** `UInt32(truncatingIfNeeded:)`. */
  function Wrap32(x: int): u32
  {
    x % 0x1_0000_0000
  }

  /** `Int8(truncatingIfNeeded:)`: two's complement reinterpretation of the low 8 bits. */
  function WrapI8(x: int): i8
  {
    var b := x % 0x100;
    if b < 0x80 then b else b - 0x100
  }

  /** `Int16(truncatingIfNeeded:)`. */
  function WrapI16(x: int): i16
  {
    var b := x % 0x1_0000;
    if b < 0x8000 then b else b - 0x1_0000
  }

  /** Swift's `/` on integers truncates toward zero (Dafny's `/` is Euclidean). */
  function TruncDiv(a: int, b: int): (r: int)
    requires b != 0
    ensures b > 0 && a >= 0 ==> r == a / b
    ensures b > 0 && a < 0 ==> r == -((-a) / b)
  {
    var q := (if a < 0 then -a else a) / (if b < 0 then -b else b);
    if (a < 0) == (b < 0) then q else -q
  }

  /** Swift's `%` on integers: the remainder takes the sign of the dividend. */
  function TruncMod(a: int, b: int): (r: int)
    requires b != 0
    ensures b > 0 && a >= 0 ==> r == a % b
    ensures b > 0 ==> -b < r < b
  {
    a - b * TruncDiv(a, b)
  }

  function Min(a: int, b: int): (r: int)
    ensures r <= a && r <= b && (r == a || r == b)
  {
    if a < b then a else b
  }

  function Max(a: int, b: int): (r: int)
    ensures r >= a && r >= b && (r == a || r == b)
  {
    if a < b then b else a
  }
  /** `x & mask != 0` for a single-bit `mask`. */
  predicate HasFlag(x: nat, mask: nat)
    requires mask > 0
  {
    (x / mask) % 2 == 1
  }

  /** 2 to the power `n`. */
  function Pow2(n: nat): (p: nat)
    ensures p > 0
  {
    if n == 0 then 1 else 2 * Pow2(n - 1)
  }

  /** Bitwise `^` on the low `n` bits, lowest bit first: a bit is set when exactly one operand has it. */
  function XorBits(a: nat, b: nat, n: nat): nat
  {
    if n == 0 then 0 else (a % 2 + b % 2) % 2 + 2 * XorBits(a / 2, b / 2, n - 1)
  }

  /** The exclusive or of `n` bits has `n` bits. */
  lemma {:induction false} XorBitsBound(a: nat, b: nat, n: nat)
    ensures XorBits(a, b, n) < Pow2(n)
  {
    if n > 0 {
      XorBitsBound(a / 2, b / 2, n - 1);
    }
  }

  /** Exclusive or with zero keeps a number of `n` bits. */
  lemma {:induction false} XorBitsZero(a: nat, n: nat)
    requires a < Pow2(n)
    ensures XorBits(a, 0, n) == a
  {
    if n > 0 {
      XorBitsZero(a / 2, n - 1);
    }
  }

  /** Bitwise `^` on `UInt8`. */
  function Xor8(a: u8, b: u8): u8
  {
    XorBitsBound(a, b, 8);
    XorBits(a, b, 8)
  }

  /** `x ^ 8` flips bit 3: it subtracts 8 when the bit is set and adds 8 when it is clear. */
  lemma Xor8Bit3(x: u8)
    ensures Xor8(x, 8) == if (x / 8) % 2 == 1 then x - 8 else x + 8
  {
    var x1 := x / 2;
    var x2 := x1 / 2;
    var x3 := x2 / 2;
    var high := x3 / 2;
    assert x == 8 * x3 + (x % 2 + 2 * (x1 % 2) + 4 * (x2 % 2));
    assert x / 8 == x3;
    assert Pow2(4) == 16;
    XorBitsZero(high, 4);
    var r3 := XorBits(x3, 1, 5);
    assert r3 == (x3 % 2 + 1) % 2 + 2 * high;
    var r2 := XorBits(x2, 2, 6);
    assert r2 == x2 % 2 + 2 * r3;
    var r1 := XorBits(x1, 4, 7);
    assert r1 == x1 % 2 + 2 * r2;
    assert XorBits(x, 8, 8) == x % 2 + 2 * r1;
  }

  /** Wrapping once at the end is the same as wrapping after every `&+`. */
  lemma WrapAdd32(a: int, b: int)
    ensures Wrap32(Wrap32(a) + b) == Wrap32(a + b)
  {
  }

  lemma WrapAdd16(a: int, b: int)
    ensures Wrap16(Wrap16(a) + b) == Wrap16(a + b)
  {
  }

  lemma WrapAdd8(a: int, b: int)
    ensures Wrap8(Wrap8(a) + b) == Wrap8(a + b)
  {
  }

  /** `a &+ b` on `UInt32`: the sum wraps at most once, so one subtraction suffices. */
  function AddWrap32(a: u32, b: u32): (r: u32)
  {
    if a + b < 0x1_0000_0000 then a + b else a + b - 0x1_0000_0000
  }

  /** `a &+ b` on `UInt16`. */
  function AddWrap16(a: u16, b: u16): (r: u16)
  {
    if a + b < 0x1_0000 then a + b else a + b - 0x1_0000
  }

  /** Adding with `&+` to a wrapped total wraps the exact total. */
  lemma AddWrap32Total(total: nat, b: u32)
    ensures AddWrap32(Wrap32(total), b) == Wrap32(total + b)
  {
  }

  lemma AddWrap16Total(total: nat, b: u16)
    ensures AddWrap16(Wrap16(total), b) == Wrap16(total + b)
  {
  }

  /** `Int8(bitPattern:)`: the byte read as two's complement. */
  function AsI8(b: u8): (r: i8)
    ensures r % 0x100 == b % 0x100
  {
    if b < 0x80 then b else b - 0x100
  }

  /** `Int16(bitPattern:)`. */
  function AsI16(w: u16): (r: i16)
    ensures r % 0x1_0000 == w % 0x1_0000
  {
    if w < 0x8000 then w else w - 0x1_0000
  }

  /** `a &+ b` on `Int8`: the sum wraps at most once. */
  function AddWrapI8(a: i8, b: i8): i8
  {
    if a + b >= 0x80 then a + b - 0x100 else if a + b < -0x80 then a + b + 0x100 else a + b
  }

  /** `a &+ b` on `Int16`. */
  function AddWrapI16(a: i16, b: i16): i16
  {
    if a + b >= 0x8000 then a + b - 0x1_0000 else if a + b < -0x8000 then a + b + 0x1_0000 else a + b
  }
}
