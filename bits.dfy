/**
 * Fixed-width integers of the emulator (u8, u16, u32, i8, i32) and the bit
 * operations it uses, written as arithmetic on unbounded integers. Every
 * wrap-around, truncation and sign conversion of the C++ code goes through
 * one of the functions here.
 */
module Bits {
  type u8 = x: int | 0 <= x < 0x100
  type u16 = x: int | 0 <= x < 0x1_0000
  type u32 = x: int | 0 <= x < 0x1_0000_0000
  type i8 = x: int | -0x80 <= x < 0x80
  type i32 = x: int | -0x8000_0000 <= x < 0x8000_0000

  /** n zero bytes: a value-initialised byte array. */
  function Zeros(n: nat): (r: seq<u8>)
    ensures |r| == n && forall i | 0 <= i < n :: r[i] == 0
  {
    seq(n, _ => 0)
  }

  /** Assignment of an int to a u8 variable. */
  function Wrap8(x: int): (r: u8)
    ensures 0 <= x < 0x100 ==> r == x
    ensures (r - x) % 0x100 == 0
  {
    x % 0x100
  }

  /** Assignment of an int to a u16 variable. */
  function Wrap16(x: int): (r: u16)
    ensures 0 <= x < 0x1_0000 ==> r == x
    ensures (r - x) % 0x1_0000 == 0
  {
    x % 0x1_0000
  }

  /** Assignment of an int to a u32 variable. */
  function Wrap32(x: int): (r: u32)
    ensures 0 <= x < 0x1_0000_0000 ==> r == x
    ensures (r - x) % 0x1_0000_0000 == 0
  {
    x % 0x1_0000_0000
  }

  /** The 16-bit address k bytes on from a (below it when k < 0), wrapping round the address space. */
  function Offset16(a: u16, k: int): (r: u16)
    ensures (r - (a + k)) % 0x1_0000 == 0
  {
    Wrap16(a + k)
  }

  /** Moving by j and then by k is moving by j + k. */
  lemma OffsetCompose(a: u16, j: int, k: int, c: int)
    requires c == j + k
    ensures Offset16(Offset16(a, j), k) == Offset16(a, c)
  {
    var q := (a + j) / 0x1_0000;
    assert a + j == q * 0x1_0000 + Offset16(a, j);
    assert a + c == q * 0x1_0000 + (Offset16(a, j) + k);
  }

  /** Conversion of an int to i32 (two's complement). */
  function WrapI32(x: int): (r: i32)
    ensures -0x8000_0000 <= x < 0x8000_0000 ==> r == x
    ensures (r - x) % 0x1_0000_0000 == 0
  {
    var w := x % 0x1_0000_0000;
    if w < 0x8000_0000 then w else w - 0x1_0000_0000
  }

  /** The cast (i8)b of a byte: two's complement reading. */
  function ToI8(b: u8): (r: i8)
    ensures (r - b) % 0x100 == 0
    ensures r < 0 <==> b >= 0x80
  {
    if b < 0x80 then b else b - 0x100
  }

  /** The cast (u8)v of a signed byte. */
  function I8ToU8(v: i8): (r: u8)
    ensures ToI8(r) == v
  {
    if v < 0 then v + 0x100 else v
  }

  /** The cast (i16)x, read back as an int. */
  function ToI16(x: int): (r: int)
    ensures -0x8000 <= r < 0x8000
    ensures (r - x) % 0x1_0000 == 0
  {
    var w := x % 0x1_0000;
    if w < 0x8000 then w else w - 0x1_0000
  }

  /** A bool used where the C++ code expects a number. */
  function BoolToInt(b: bool): (r: u8)
    ensures r == 0 || r == 1
    ensures r == 1 <==> b
  {
    if b then 1 else 0
  }

  function Pow2(k: nat): (r: nat)
    ensures r >= 1
  {
    if k == 0 then 1 else 2 * Pow2(k - 1)
  }

  /** The powers of two the byte and word widths use. */
  lemma Pow2Values()
    ensures Pow2(0) == 1 && Pow2(1) == 2 && Pow2(2) == 4 && Pow2(3) == 8
    ensures Pow2(4) == 16 && Pow2(5) == 32 && Pow2(6) == 64 && Pow2(7) == 128
    ensures Pow2(8) == 0x100 && Pow2(12) == 0x1000 && Pow2(16) == 0x1_0000
  {
    assert Pow2(2) == 4;
    assert Pow2(4) == 16;
    assert Pow2(6) == 64;
    assert Pow2(8) == 0x100;
    assert Pow2(10) == 0x400;
    assert Pow2(12) == 0x1000;
    assert Pow2(14) == 0x4000;
  }

  /** Bit k of x, as 0 or 1: (x >> k) & 1, shifting one place at a time. */
  function Bit(x: nat, k: nat): (r: nat)
    ensures r == 0 || r == 1
    decreases k
  {
    if k == 0 then x % 2 else Bit(x / 2, k - 1)
  }

  /** The low byte of a word: w & 0xFF */
  function Lo(w: u16): u8 { w % 0x100 }

  /** The high byte of a word: (w & 0xFF00) >> 8 */
  function Hi(w: u16): u8 { w / 0x100 }

  /** hi << 8 | lo */
  function Join(hi: u8, lo: u8): (r: u16)
    ensures Hi(r) == hi && Lo(r) == lo
  {
    hi * 0x100 + lo
  }

  lemma JoinSplit(w: u16)
    ensures Join(Hi(w), Lo(w)) == w
  {
  }

  /** The bitwise operators the CPU applies to whole bytes. */
  datatype BitOp = AndOp | OrOp | XorOp

  function ApplyBit(op: BitOp, x: nat, y: nat): (r: nat)
    requires x < 2 && y < 2
    ensures r < 2
  {
    match op
    case AndOp => x * y
    case OrOp => if x + y > 0 then 1 else 0
    case XorOp => (x + y) % 2
  }

  /** a op b on the low `width` bits, least significant bit first. */
  function Bitwise(op: BitOp, a: nat, b: nat, width: nat): (r: nat)
    requires a < Pow2(width) && b < Pow2(width)
    ensures r < Pow2(width)
    ensures width > 0 ==> r % 2 == ApplyBit(op, a % 2, b % 2)
    decreases width
  {
    if width == 0 then 0
    else
      HalveBelow(a, width);
      HalveBelow(b, width);
      var rest := Bitwise(op, a / 2, b / 2, width - 1);
      var low := ApplyBit(op, a % 2, b % 2);
      AppendBit(rest, low, width);
      2 * rest + low
  }

  /** Dropping the low bit of a width-bit number leaves a (width - 1)-bit number. */
  lemma HalveBelow(a: nat, width: nat)
    requires width > 0 && a < Pow2(width)
    ensures a / 2 < Pow2(width - 1)
  {
  }

  /** Appending a bit below a (width - 1)-bit number gives a width-bit number whose low bit it is. */
  lemma AppendBit(rest: nat, low: nat, width: nat)
    requires width > 0 && rest < Pow2(width - 1) && low < 2
    ensures 2 * rest + low < Pow2(width) && (2 * rest + low) % 2 == low
  {
  }

  function And8(a: u8, b: u8): u8 { Bitwise(AndOp, a, b, 8) }
  function Or8(a: u8, b: u8): u8 { Bitwise(OrOp, a, b, 8) }
  function Xor8(a: u8, b: u8): u8 { Bitwise(XorOp, a, b, 8) }

  /** The exact bit k of a bitwise result is the operator applied to bit k of the operands. */
  lemma {:induction false} BitwiseBit(op: BitOp, a: nat, b: nat, width: nat, k: nat)
    requires a < Pow2(width) && b < Pow2(width) && k < width
    ensures Bit(Bitwise(op, a, b, width), k) == ApplyBit(op, Bit(a, k), Bit(b, k))
    decreases k
  {
    var rest := Bitwise(op, a / 2, b / 2, width - 1);
    var low := ApplyBit(op, a % 2, b % 2);
    assert Bitwise(op, a, b, width) == 2 * rest + low;
    if k > 0 {
      BitwiseBit(op, a / 2, b / 2, width - 1, k - 1);
      assert (2 * rest + low) / 2 == rest;
    }
  }

  lemma MulDistrib(a: int, b: int, c: int)
    ensures (a + b) * c == a * c + b * c
  {
  }

  lemma MulMono(a: nat, b: nat, c: nat)
    requires a <= b
    ensures a * c <= b * c
  {
  }

  /** Quotient and remainder are the unique q, r with x == q * d + r and 0 <= r < d. */
  lemma DivUnique(x: int, d: int, q: int, r: int)
    requires d > 0 && 0 <= r < d && x == q * d + r
    ensures x / d == q && x % d == r
  {
    var q' := x / d;
    var r' := x % d;
    assert x == q' * d + r';
    if q' < q {
      assert (q - q') * d == r' - r;
      MulMono(1, q - q', d);
    } else if q' > q {
      assert (q' - q) * d == r - r';
      MulMono(1, q' - q, d);
    }
  }

  /** Adding an even number keeps the parity. */
  lemma Parity(a: int, k: int)
    ensures (a + 2 * k) % 2 == a % 2
  {
    DivUnique(a + 2 * k, 2, a / 2 + k, a % 2);
  }

  /** The parity of a sum is that of the sum of the parities. */
  lemma ParitySum(a: int, b: int, c: int)
    ensures (a + b + c) % 2 == (a % 2 + b % 2 + c) % 2
  {
    Parity(a % 2 + b % 2 + c, a / 2 + b / 2);
  }

  /** XOR of a byte with itself is zero: `XOR A` clears the accumulator. */
  lemma {:induction false} XorSelf(a: nat, width: nat)
    requires a < Pow2(width)
    ensures Bitwise(XorOp, a, a, width) == 0
    decreases width
  {
    if width > 0 {
      XorSelf(a / 2, width - 1);
    }
  }

  /** `OR x, x` and `AND x, x` return x unchanged (`OR A` only sets flags). */
  lemma {:induction false} IdempotentSelf(op: BitOp, a: nat, width: nat)
    requires op != XorOp && a < Pow2(width)
    ensures Bitwise(op, a, a, width) == a
    decreases width
  {
    if width > 0 {
      IdempotentSelf(op, a / 2, width - 1);
      assert Bitwise(op, a, a, width) == 2 * (a / 2) + ApplyBit(op, a % 2, a % 2);
      ApplySelf(op, a % 2);
    }
  }

  /** AND and OR of a bit with itself give that bit. */
  lemma ApplySelf(op: BitOp, x: nat)
    requires op != XorOp && x < 2
    ensures ApplyBit(op, x, x) == x
  {
    if x == 0 { assert ApplyBit(op, 0, 0) == 0; } else { assert ApplyBit(op, 1, 1) == 1; }
  }

  /** x | (1 << k) */
  function SetBit(x: nat, k: nat): (r: nat)
  {
    if Bit(x, k) == 1 then x else x + Pow2(k)
  }

  /** x & ~(1 << k) */
  function ClearBit(x: nat, k: nat): (r: nat)
    ensures r <= x
  {
    if Bit(x, k) == 1 then SetBitBound(x, k); x - Pow2(k) else x
  }

  /** A set bit k means x is at least 1 << k. */
  lemma {:induction false} SetBitBound(x: nat, k: nat)
    requires Bit(x, k) == 1
    ensures x >= Pow2(k)
    decreases k
  {
    if k > 0 {
      SetBitBound(x / 2, k - 1);
    }
  }

  /** Setting a bit below `width` keeps x below 1 << width. */
  lemma {:induction false} SetBitInRange(x: nat, k: nat, width: nat)
    requires k < width && x < Pow2(width)
    ensures SetBit(x, k) < Pow2(width)
    decreases k
  {
    if k > 0 {
      SetBitInRange(x / 2, k - 1, width - 1);
      SetBitStep(x, k);
    }
  }

  lemma {:induction false} BitwiseZero(op: BitOp, a: nat, width: nat)
    requires op != AndOp && a < Pow2(width)
    ensures Bitwise(op, a, 0, width) == a
    decreases width
  {
    if width > 0 {
      BitwiseZero(op, a / 2, width - 1);
    }
  }

  lemma {:induction false} AndAllOnes(a: nat, width: nat)
    requires a < Pow2(width)
    ensures Bitwise(AndOp, a, Pow2(width) - 1, width) == a
    decreases width
  {
    if width > 0 {
      assert (Pow2(width) - 1) / 2 == Pow2(width - 1) - 1;
      AndAllOnes(a / 2, width - 1);
    }
  }

  lemma {:induction false} AndZero(a: nat, width: nat)
    requires a < Pow2(width)
    ensures Bitwise(AndOp, a, 0, width) == 0
    decreases width
  {
    if width > 0 {
      AndZero(a / 2, width - 1);
    }
  }

  /** `x & (1 << k)` keeps bit k of x and nothing else. */
  lemma {:induction false} AndSingleBit(x: nat, k: nat, width: nat)
    requires k < width && x < Pow2(width)
    ensures Pow2(k) < Pow2(width)
    ensures Bitwise(AndOp, x, Pow2(k), width) == Bit(x, k) * Pow2(k)
    decreases k
  {
    PowMono(k, width);
    if k == 0 {
      AndZero(x / 2, width - 1);
    } else {
      assert Pow2(k) / 2 == Pow2(k - 1) && Pow2(k) % 2 == 0;
      AndSingleBit(x / 2, k - 1, width - 1);
    }
  }

  /** A bit times a positive mask is nonzero exactly when the bit is 1. */
  lemma BitTimesPositive(b: nat, m: nat)
    requires b < 2 && m > 0
    ensures b * m != 0 <==> b == 1
  {
  }

  /** The arithmetic SetBit is the C++ `x | (1 << k)`. */
  lemma {:induction false} SetBitIsOr(x: nat, k: nat, width: nat)
    requires k < width && x < Pow2(width)
    ensures Pow2(k) < Pow2(width)
    ensures SetBit(x, k) == Bitwise(OrOp, x, Pow2(k), width)
    decreases k
  {
    PowMono(k, width);
    if k == 0 {
      BitwiseZero(OrOp, x / 2, width - 1);
    } else {
      assert Pow2(k) / 2 == Pow2(k - 1) && Pow2(k) % 2 == 0;
      SetBitIsOr(x / 2, k - 1, width - 1);
    }
  }

  /** Setting bit k > 0 of x is setting bit k - 1 of x / 2 and keeping bit 0. */
  lemma SetBitStep(x: nat, k: nat)
    requires k > 0
    ensures SetBit(x, k) == 2 * SetBit(x / 2, k - 1) + x % 2
  {
    assert Pow2(k) == 2 * Pow2(k - 1);
  }

  /** Setting bit k makes bit k 1 and leaves every other bit. */
  lemma {:induction false} SetBitBit(x: nat, k: nat, j: nat)
    ensures Bit(SetBit(x, k), j) == if j == k then 1 else Bit(x, j)
    decreases k
  {
    if k == 0 {
      if j > 0 {
        assert SetBit(x, 0) / 2 == x / 2;
      }
    } else {
      SetBitStep(x, k);
      var q := SetBit(x / 2, k - 1);
      assert (2 * q + x % 2) / 2 == q && (2 * q + x % 2) % 2 == x % 2;
      if j > 0 {
        SetBitBit(x / 2, k - 1, j - 1);
      }
    }
  }

  /** Clearing bit k makes bit k 0 and leaves every other bit. */
  lemma {:induction false} ClearBitBit(x: nat, k: nat, j: nat)
    ensures Bit(ClearBit(x, k), j) == if j == k then 0 else Bit(x, j)
    decreases k
  {
    if k == 0 {
      if j > 0 {
        assert ClearBit(x, 0) / 2 == x / 2;
      }
    } else {
      ClearBitStep(x, k);
      var q := ClearBit(x / 2, k - 1);
      assert (2 * q + x % 2) / 2 == q && (2 * q + x % 2) % 2 == x % 2;
      if j > 0 {
        ClearBitBit(x / 2, k - 1, j - 1);
      }
    }
  }

  /** Bit k is the remainder of x shifted right by k: `(x >> k) & 1`. */
  lemma {:induction false} BitIsShift(x: nat, k: nat)
    ensures Bit(x, k) == (x / Pow2(k)) % 2
    decreases k
  {
    if k > 0 {
      BitIsShift(x / 2, k - 1);
      DivTwice(x, Pow2(k - 1));
    }
  }

  /** x / 2 / d == x / (2 * d). */
  lemma DivTwice(x: nat, d: nat)
    requires d > 0
    ensures (x / 2) / d == x / (2 * d)
  {
    var q := (x / 2) / d;
    var r := x - 2 * d * q;
    assert x / 2 == d * q + (x / 2) % d;
    assert 0 <= r < 2 * d;
    DivUnique(x, 2 * d, q, r);
  }

  /** Clearing bit k > 0 of x is clearing bit k - 1 of x / 2 and keeping bit 0. */
  lemma ClearBitStep(x: nat, k: nat)
    requires k > 0
    ensures ClearBit(x, k) == 2 * ClearBit(x / 2, k - 1) + x % 2
  {
    assert Pow2(k) == 2 * Pow2(k - 1);
  }

  /** The mask ~(1 << k) within `width` bits, halved, is the mask for k - 1 within width - 1 bits. */
  lemma MaskStep(k: nat, width: nat)
    requires 0 < k < width
    ensures Pow2(k - 1) < Pow2(width - 1)
    ensures (Pow2(width) - 1 - Pow2(k)) / 2 == Pow2(width - 1) - 1 - Pow2(k - 1)
    ensures (Pow2(width) - 1 - Pow2(k)) % 2 == 1
  {
    PowMono(k - 1, width - 1);
  }

  /** Clearing bit 0 is AND with all ones but the lowest bit. */
  lemma ClearBitZero(x: nat, width: nat)
    requires 0 < width && x < Pow2(width)
    ensures Pow2(0) < Pow2(width)
    ensures ClearBit(x, 0) == Bitwise(AndOp, x, Pow2(width) - 2, width)
  {
    PowMono(0, width);
    var mask := Pow2(width) - 2;
    assert mask / 2 == Pow2(width - 1) - 1 && mask % 2 == 0;
    AndAllOnes(x / 2, width - 1);
    assert Bitwise(AndOp, x, mask, width) == 2 * (x / 2);
  }

  /** The arithmetic ClearBit is the C++ `x & ~(1 << k)` truncated to `width` bits. */
  lemma {:induction false} ClearBitIsAndNot(x: nat, k: nat, width: nat)
    requires k < width && x < Pow2(width)
    ensures Pow2(k) < Pow2(width)
    ensures ClearBit(x, k) == Bitwise(AndOp, x, Pow2(width) - 1 - Pow2(k), width)
    decreases k
  {
    PowMono(k, width);
    var mask := Pow2(width) - 1 - Pow2(k);
    if k == 0 {
      ClearBitZero(x, width);
    } else {
      MaskStep(k, width);
      ClearBitIsAndNot(x / 2, k - 1, width - 1);
      ClearBitStep(x, k);
    }
  }

  lemma {:induction false} PowMono(k: nat, width: nat)
    requires k < width
    ensures Pow2(k) < Pow2(width)
    decreases width
  {
    if k < width - 1 {
      PowMono(k, width - 1);
    }
  }
}
