/** The JavaScript number operations that the hand-written codecs use, on integers a double holds exactly. */
module JsNumbers {
  const TWO_32 := 0x1_0000_0000
  const MAX_SAFE := 0x1F_FFFF_FFFF_FFFF   // 2^53 - 1

  type Safe = x: int | -MAX_SAFE <= x <= MAX_SAFE witness 0
  type Word = x: int | 0 <= x < TWO_32 witness 0
  type Byte = x: int | 0 <= x < 256 witness 0

  function Pow2(n: nat): (p: nat)
    ensures p > 0
  {
    if n == 0 then 1 else 2 * Pow2(n - 1)
  }

  lemma {:induction false} Pow2Add(m: nat, n: nat)
    ensures Pow2(m + n) == Pow2(m) * Pow2(n)
    decreases m
  {
    if m > 0 { Pow2Add(m - 1, n); }
  }

  lemma Pow2Of32()
    ensures Pow2(8) == 0x100 && Pow2(16) == 0x1_0000 && Pow2(24) == 0x100_0000 && Pow2(32) == TWO_32
  {
    assert Pow2(4) == 16;
    Pow2Add(4, 4);
    Pow2Add(8, 8);
    Pow2Add(16, 8);
    Pow2Add(16, 16);
  }

  // ----- Bitwise operations, binary digit by binary digit -----

  function Bit(b: bool): nat {
    if b then 1 else 0
  }

  function AndBits(x: nat, y: nat, width: nat): (r: nat)
    ensures r < Pow2(width)
  {
    if width == 0 then 0 else Bit(x % 2 == 1 && y % 2 == 1) + 2 * AndBits(x / 2, y / 2, width - 1)
  }

  function OrBits(x: nat, y: nat, width: nat): (r: nat)
    ensures r < Pow2(width)
  {
    if width == 0 then 0 else Bit(x % 2 == 1 || y % 2 == 1) + 2 * OrBits(x / 2, y / 2, width - 1)
  }

  function XorBits(x: nat, y: nat, width: nat): (r: nat)
    ensures r < Pow2(width)
  {
    if width == 0 then 0 else Bit(x % 2 != y % 2) + 2 * XorBits(x / 2, y / 2, width - 1)
  }

  function NotBits(x: nat, width: nat): (r: nat)
    ensures r < Pow2(width)
  {
    if width == 0 then 0 else Bit(x % 2 == 0) + 2 * NotBits(x / 2, width - 1)
  }

  // On words.
  function AndWord(x: Word, y: Word): Word { Pow2Of32(); AndBits(x, y, 32) }
  function OrWord(x: Word, y: Word): Word { Pow2Of32(); OrBits(x, y, 32) }
  function XorWord(x: Word, y: Word): Word { Pow2Of32(); XorBits(x, y, 32) }
  function NotWord(x: Word): Word { Pow2Of32(); NotBits(x, 32) }

  // ----- The operators -----

  // `x >>> 0`
  function ToUint32(x: Safe): Word {
    x % TWO_32
  }

  // What every bitwise operator converts its operands to and, but for `>>>`, returns.
  function ToInt32(x: Safe): Safe {
    var n := ToUint32(x);
    if n < 0x8000_0000 then n else n - TWO_32
  }

  function And(x: Safe, y: Safe): Safe {
    ToInt32(AndWord(ToUint32(x), ToUint32(y)))
  }

  function Or(x: Safe, y: Safe): Safe {
    ToInt32(OrWord(ToUint32(x), ToUint32(y)))
  }

  function Xor(x: Safe, y: Safe): Safe {
    ToInt32(XorWord(ToUint32(x), ToUint32(y)))
  }

  function Not(x: Safe): Safe {
    ToInt32(NotWord(ToUint32(x)))
  }

  // `x << n` keeps the low 32 bits of the product.
  function ShiftLeft(x: Safe, n: nat): Safe
    requires n < 32
  {
    var w: int := ToUint32(x);
    ToInt32((w * Pow2(n)) % TWO_32)
  }

  // `x >>> n`
  function UnsignedShiftRight(x: Safe, n: nat): Word
    requires n < 32
  {
    var w: int := ToUint32(x);
    Quotient(w, Pow2(n));
    w / Pow2(n)
  }

  lemma Quotient(x: int, p: int)
    requires 0 <= x < TWO_32 && p > 0
    ensures 0 <= x / p < TWO_32
  {
    assert x / p <= x;
  }

  // `x + y`, where no rounding can occur.
  function Plus(x: Safe, y: Safe): Safe
    requires -MAX_SAFE <= x + y <= MAX_SAFE
  {
    x + y
  }

  // `x * y`, where no rounding can occur.
  function Times(x: Safe, y: Safe): Safe
    requires -MAX_SAFE <= x * y <= MAX_SAFE
  {
    x * y
  }

  // A bitwise result keeps its 32 bits through the next conversion, negative though it may be.
  lemma SignIsForgotten(x: Word)
    ensures ToUint32(ToInt32(x)) == x && ToUint32(x) == x
    ensures -0x8000_0000 <= ToInt32(x) < 0x8000_0000
  {}

  // ----- Digits as arithmetic -----

  // A multiple of 2^s and a number below 2^s share no digit.
  lemma {:induction false} OrDisjoint(k: nat, b: nat, s: nat, width: nat)
    requires s <= width && b < Pow2(s) && k * Pow2(s) < Pow2(width)
    ensures OrBits(k * Pow2(s), b, width) == k * Pow2(s) + b
    decreases s
  {
    if s == 0 {
      OrZero(k, width);
    } else {
      assert k * Pow2(s) == 2 * (k * Pow2(s - 1));
      OrDisjoint(k, b / 2, s - 1, width - 1);
    }
  }

  lemma {:induction false} OrZero(x: nat, width: nat)
    requires x < Pow2(width)
    ensures OrBits(x, 0, width) == x
    decreases width
  {
    if width > 0 { OrZero(x / 2, width - 1); }
  }

  // Masking with 2^n - 1 keeps the remainder.
  lemma {:induction false} MaskIsRemainder(x: nat, n: nat, width: nat)
    requires n <= width
    ensures AndBits(x, Pow2(n) - 1, width) == x % Pow2(n)
    decreases n
  {
    if n == 0 {
      AndZero(x, width);
    } else {
      var y := Pow2(n) - 1;
      assert y % 2 == 1 && y / 2 == Pow2(n - 1) - 1;
      MaskIsRemainder(x / 2, n - 1, width - 1);
      HalfRemainder(x, Pow2(n - 1));
      hide Pow2;
    }
  }

  lemma {:induction false} AndZero(x: nat, width: nat)
    ensures AndBits(x, 0, width) == 0
    decreases width
  {
    if width > 0 { AndZero(x / 2, width - 1); }
  }

  lemma RemainderIs(x: int, m: int, q: int, r: int)
    requires x == q * m + r && 0 <= r < m
    ensures x % m == r && x / m == q
  {
    var d := x / m - q;
    assert -m < d * m == r - x % m < m;
    assert d == 0;
  }

  lemma HalfRemainder(x: nat, p: nat)
    requires p > 0
    ensures x % (2 * p) == x % 2 + 2 * ((x / 2) % p)
  {
    var q, r := (x / 2) / p, (x / 2) % p;
    assert x == q * (2 * p) + (x % 2 + 2 * r) by { assert x / 2 == q * p + r; assert q * (2 * p) == 2 * (q * p); }
    RemainderIs(x, 2 * p, q, x % 2 + 2 * r);
  }

  // A bitwise exclusive or is zero exactly between equals, an inclusive or exactly between zeros.
  lemma {:induction false} XorIsZero(x: nat, y: nat, width: nat)
    requires x < Pow2(width) && y < Pow2(width)
    ensures XorBits(x, y, width) == 0 <==> x == y
    decreases width
  {
    if width > 0 { XorIsZero(x / 2, y / 2, width - 1); }
  }

  lemma {:induction false} OrIsZero(x: nat, y: nat, width: nat)
    requires x < Pow2(width) && y < Pow2(width)
    ensures OrBits(x, y, width) == 0 <==> x == 0 && y == 0
    decreases width
  {
    if width > 0 { OrIsZero(x / 2, y / 2, width - 1); }
  }

  // ----- The operators, digit by digit -----

  // The k-th binary digit.
  function DigitAt(x: nat, k: nat): nat {
    x / Pow2(k) % 2
  }

  lemma DigitBelow(x: nat, k: nat)
    requires k > 0
    ensures DigitAt(x, k) == DigitAt(x / 2, k - 1)
  {
    var p: int := Pow2(k - 1);
    var q, r := x / 2 / p, x / 2 % p;
    assert x / 2 == q * p + r;
    assert x == q * (2 * p) + (x % 2 + 2 * r) by { assert q * (2 * p) == 2 * (q * p); }
    RemainderIs(x, 2 * p, q, x % 2 + 2 * r);
  }

  // Each digit of a result is the truth table of the operator applied to the digits of the operands.
  lemma {:induction false} DigitByDigit(x: nat, y: nat, width: nat, k: nat)
    requires k < width
    ensures DigitAt(AndBits(x, y, width), k) == DigitAt(x, k) * DigitAt(y, k)
    ensures DigitAt(OrBits(x, y, width), k) == DigitAt(x, k) + DigitAt(y, k) - DigitAt(x, k) * DigitAt(y, k)
    ensures DigitAt(XorBits(x, y, width), k) == (DigitAt(x, k) + DigitAt(y, k)) % 2
    ensures DigitAt(NotBits(x, width), k) == 1 - DigitAt(x, k)
    decreases k
  {
    if k == 0 {
      FirstDigitsAndOr(x, y, width);
      FirstDigitsXorNot(x, y, width);
      hide DigitAt, AndBits, OrBits, XorBits, NotBits;
    } else {
      DigitBelow(x, k);
      DigitBelow(y, k);
      DigitBelow(AndBits(x, y, width), k);
      DigitBelow(OrBits(x, y, width), k);
      DigitBelow(XorBits(x, y, width), k);
      DigitBelow(NotBits(x, width), k);
      DigitByDigit(x / 2, y / 2, width - 1, k - 1);
      RestOfDigits(x, y, width);
      hide DigitAt, AndBits, OrBits, XorBits, NotBits;
    }
  }

  lemma FirstDigitsAndOr(x: nat, y: nat, width: nat)
    requires 0 < width
    ensures DigitAt(AndBits(x, y, width), 0) == DigitAt(x, 0) * DigitAt(y, 0)
    ensures DigitAt(OrBits(x, y, width), 0) == DigitAt(x, 0) + DigitAt(y, 0) - DigitAt(x, 0) * DigitAt(y, 0)
  {
    LowDigit(x);
    LowDigit(y);
    LowDigit(AndBits(x, y, width));
    LowDigit(OrBits(x, y, width));
    hide DigitAt;
    if x % 2 == 0 { assert x % 2 * (y % 2) == 0; } else { assert x % 2 == 1; }
  }

  lemma FirstDigitsXorNot(x: nat, y: nat, width: nat)
    requires 0 < width
    ensures DigitAt(XorBits(x, y, width), 0) == (DigitAt(x, 0) + DigitAt(y, 0)) % 2
    ensures DigitAt(NotBits(x, width), 0) == 1 - DigitAt(x, 0)
  {
    LowDigit(x);
    LowDigit(y);
    LowDigit(XorBits(x, y, width));
    LowDigit(NotBits(x, width));
    hide DigitAt;
  }

  lemma LowDigit(x: nat)
    ensures DigitAt(x, 0) == x % 2
  {
    assert Pow2(0) == 1;
  }

  lemma RestOfDigits(x: nat, y: nat, width: nat)
    requires 0 < width
    ensures AndBits(x, y, width) / 2 == AndBits(x / 2, y / 2, width - 1)
    ensures OrBits(x, y, width) / 2 == OrBits(x / 2, y / 2, width - 1)
    ensures XorBits(x, y, width) / 2 == XorBits(x / 2, y / 2, width - 1)
    ensures NotBits(x, width) / 2 == NotBits(x / 2, width - 1)
  {}
}
