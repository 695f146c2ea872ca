/** MD5 as `md5Hex` computes it, in JavaScript number arithmetic over a byte buffer, against sections
    3.1 to 3.5 of RFC 1321.  The sine table (64 words) is a parameter. */
module Md5 {
  import opened JsNumbers

  // ----- RFC 1321 -----

  type Table = t: seq<Word> | |t| == 64 witness seq(64, _ => 0)

  // Section 3.1: the fewest zero bytes that leave the length 8 short of a multiple of 64.
  function Zeros(n: nat): nat {
    (119 - n % 64) % 64
  }

  function LittleEndian(x: nat, width: nat): (bytes: seq<Byte>)
    ensures |bytes| == width
  {
    if width == 0 then [] else [x % 256] + LittleEndian(x / 256, width - 1)
  }

  // Sections 3.1 and 3.2: a single 1 bit, zeros, and the low-order 64 bits of the length in bits.
  function Padded(msg: seq<Byte>): seq<Byte> {
    msg + [0x80] + seq(Zeros(|msg|), _ => 0) + LittleEndian(8 * |msg|, 8)
  }

  // The padding is the least that fits: the padded length is the least multiple of 64 that is at least n + 9.
  lemma PaddedLength(msg: seq<Byte>)
    ensures var n, p := |msg|, |Padded(msg)|;
      p % 64 == 0 && n + 9 <= p && forall q :: q % 64 == 0 && n + 9 <= q ==> p <= q
  {
    LeastMultiple(|msg|);
  }

  lemma LeastMultiple(n: nat)
    ensures var p := n + 9 + Zeros(n); p % 64 == 0 && forall q :: q % 64 == 0 && n + 9 <= q ==> p <= q
  {
    var p := n + 9 + Zeros(n);
    assert p % 64 == 0 && p < n + 9 + 64;
    hide Zeros;
    forall q | q % 64 == 0 && n + 9 <= q
      ensures p <= q
    {
      assert q == 64 * (q / 64) && p == 64 * (p / 64);
    }
  }

  datatype Registers = Registers(A: Word, B: Word, C: Word, D: Word)

  // Section 3.3: the bytes of the four registers, the low-order byte first.
  const START: seq<Byte> := [0x01, 0x23, 0x45, 0x67, 0x89, 0xab, 0xcd, 0xef, 0xfe, 0xdc, 0xba, 0x98, 0x76, 0x54, 0x32, 0x10]
  const INITIAL := Registers(WordAt(START, 0), WordAt(START, 4), WordAt(START, 8), WordAt(START, 12))

  // Section 3.4: the four auxiliary functions.
  function F(x: Word, y: Word, z: Word): Word { OrWord(AndWord(x, y), AndWord(NotWord(x), z)) }
  function G(x: Word, y: Word, z: Word): Word { OrWord(AndWord(x, z), AndWord(y, NotWord(z))) }
  function H(x: Word, y: Word, z: Word): Word { XorWord(XorWord(x, y), z) }
  function I(x: Word, y: Word, z: Word): Word { XorWord(y, OrWord(x, NotWord(z))) }

  function Auxiliary(round: nat, x: Word, y: Word, z: Word): Word
    requires round < 4
  {
    if round == 0 then F(x, y, z) else if round == 1 then G(x, y, z) else if round == 2 then H(x, y, z) else I(x, y, z)
  }

  // Addition of words is modulo 2^32.
  function Add(x: Word, y: Word): Word {
    (x + y) % TWO_32
  }

  // The top s bits move to the bottom.
  function RotatedLeft(x: Word, s: nat): Word
    requires 0 < s < 32
  {
    RotationFits(x, s);
    hide Raised, Top; Raised(x, s) + Top(x, s)
  }

  function Raised(x: int, s: nat): int {
    (x * Pow2(s)) % TWO_32
  }

  function Top(x: int, s: nat): int
    requires s <= 32
  {
    x / Pow2(32 - s)
  }

  // n is q * m + k, and p * m is 2^32.
  lemma SplitAt(n: int, p: int, m: int, q: int, k: int)
    requires 0 <= n < TWO_32 && p > 0 && m > 0 && p * m == TWO_32 && n == q * m + k && 0 <= k < m && q >= 0
    ensures (n * p) % TWO_32 == k * p && q < p && 0 <= k * p <= TWO_32 - p
  {
    assert n * p == q * (m * p) + k * p;
    assert k * p <= (m - 1) * p;
    assert (m - 1) * p == TWO_32 - p;
    assert q < p;
    RemainderIs(n * p, TWO_32, q, k * p);
  }

  lemma RotationFits(x: Word, s: nat)
    requires 0 < s < 32
    ensures var p := Pow2(s);
      && (exists k: nat :: Raised(x, s) == k * p) && 0 <= Top(x, s) < p && 0 <= Raised(x, s) <= TWO_32 - p
  {
    Pow2Of32();
    Pow2Add(s, 32 - s);
    var n: int, p, m := x, Pow2(s), Pow2(32 - s);
    var q, k := n / m, n % m;
    Division(n, m);
    hide Pow2;
    SplitAt(n, p, m, q, k);
    assert Raised(n, s) == k * p;
  }

  lemma Division(n: int, m: int)
    requires n >= 0 && m > 0
    ensures n == (n / m) * m + n % m && n / m >= 0
  {}

  // Which word of the block each of the 64 operations uses, and by how much it rotates.
  type Place = x: int | 0 <= x < 16 witness 0

  const K: seq<seq<Place>> := [[0, 1, 2, 3, 4, 5, 6, 7, 8, 9, 10, 11, 12, 13, 14, 15],
                               [1, 6, 11, 0, 5, 10, 15, 4, 9, 14, 3, 8, 13, 2, 7, 12],
                               [5, 8, 11, 14, 1, 4, 7, 10, 13, 0, 3, 6, 9, 12, 15, 2],
                               [0, 7, 14, 5, 12, 3, 10, 1, 8, 15, 6, 13, 4, 11, 2, 9]]
  const S: seq<seq<nat>> := [[7, 12, 17, 22], [5, 9, 14, 20], [4, 11, 16, 23], [6, 10, 15, 21]]

  function WordIndex(i: nat): Place
    requires i < 64
  {
    K[i / 16][i % 16]
  }

  function Rotation(i: nat): (s: nat)
    requires i < 64
    ensures 0 < s < 32
  {
    S[i / 16][i % 4]
  }

  type Block = x: seq<Word> | |x| == 16 witness seq(16, _ => 0)

  // The operation a = b + ((a + aux(b, c, d) + X[k] + T[i]) <<< s).
  function Mixed(a: Word, b: Word, c: Word, d: Word, X: Block, T: Table, i: nat): Word
    requires i < 64
  {
    Add(b, RotatedLeft(Add(Add(Add(a, Auxiliary(i / 16, b, c, d)), X[WordIndex(i)]), T[i]), Rotation(i)))
  }

  // The operations take the registers in the orders ABCD, DABC, CDAB, BCDA, over and over.
  function Operation(r: Registers, X: Block, T: Table, i: nat): Registers
    requires i < 64
  {
    if i % 4 == 0 then r.(A := Mixed(r.A, r.B, r.C, r.D, X, T, i))
    else if i % 4 == 1 then r.(D := Mixed(r.D, r.A, r.B, r.C, X, T, i))
    else if i % 4 == 2 then r.(C := Mixed(r.C, r.D, r.A, r.B, X, T, i))
    else r.(B := Mixed(r.B, r.C, r.D, r.A, X, T, i))
  }

  function Operations(r: Registers, X: Block, T: Table, n: nat): Registers
    requires n <= 64
  {
    if n == 0 then r else Operation(Operations(r, X, T, n - 1), X, T, n - 1)
  }

  function Absorb(r: Registers, X: Block, T: Table): Registers {
    var q := Operations(r, X, T, 64);
    Registers(Add(r.A, q.A), Add(r.B, q.B), Add(r.C, q.C), Add(r.D, q.D))
  }

  // Bytes to words, the low-order byte first (section 2).
  function WordAt(m: seq<Byte>, at: nat): Word
    requires at + 4 <= |m|
  {
    var b0: int, b1: int, b2: int, b3: int := m[at], m[at + 1], m[at + 2], m[at + 3];
    b0 + b1 * 0x100 + b2 * 0x1_0000 + b3 * 0x100_0000
  }

  function BlockAt(m: seq<Byte>, at: nat): Block
    requires at + 64 <= |m|
  {
    seq(16, j requires 0 <= j < 16 => WordAt(m, at + 4 * j))
  }

  function State(m: seq<Byte>, T: Table, blocks: nat): Registers
    requires 64 * blocks <= |m|
  {
    if blocks == 0 then INITIAL else Absorb(State(m, T, blocks - 1), BlockAt(m, 64 * (blocks - 1)), T)
  }

  // Section 3.5: from the low-order byte of A to the high-order byte of D.
  function ByteOf(w: Word, i: nat): Byte
    requires i < 4
  {
    (w / (if i == 0 then 1 else if i == 1 then 0x100 else if i == 2 then 0x1_0000 else 0x100_0000)) % 256
  }

  function Bytes(w: Word): seq<Byte> {
    [ByteOf(w, 0), ByteOf(w, 1), ByteOf(w, 2), ByteOf(w, 3)]
  }

  function Digest(msg: seq<Byte>, T: Table): (digest: seq<Byte>)
    ensures |digest| == 16
  {
    var r := State(Padded(msg), T, |Padded(msg)| / 64);
    Bytes(r.A) + Bytes(r.B) + Bytes(r.C) + Bytes(r.D)
  }

  // ----- `md5Hex` -----

  function RotateLeft(value: Word, shift: nat): Word
    requires 0 < shift < 32
  {
    ToUint32(Or(ShiftLeft(value, shift), UnsignedShiftRight(value, 32 - shift)))
  }

  lemma RotateLeftRotates(x: Word, s: nat)
    requires 0 < s < 32
    ensures RotateLeft(x, s) == RotatedLeft(x, s)
  {
    hide ToUint32, ToInt32, Pow2, OrBits, Raised, Top;
    RotationFits(x, s);
    var k: nat :| Raised(x, s) == k * Pow2(s);
    Pow2Of32();
    SignsForgotten(x, Raised(x, s), Top(x, s));
    SignIsForgotten(Raised(x, s));
    OrDisjoint(k, Top(x, s), s, 32);
    SignIsForgotten(RotatedLeft(x, s));
    ShiftsAre(x, s);
  }

  lemma ShiftsAre(x: Word, s: nat)
    requires 0 < s < 32
    ensures 0 <= Raised(x, s) < TWO_32 && 0 <= Top(x, s) < TWO_32
    ensures ShiftLeft(x, s) == ToInt32(Raised(x, s)) && UnsignedShiftRight(x, 32 - s) == Top(x, s)
  {
    SignsForgotten(x, x, x);
    Quotient(x, Pow2(32 - s));
    hide ToInt32, Pow2;
  }

  // The shift table of the source, cut into its four rounds.
  const MD5_SHIFT: seq<seq<nat>> := [[7, 12, 17, 22, 7, 12, 17, 22, 7, 12, 17, 22, 7, 12, 17, 22],
                                     [5, 9, 14, 20, 5, 9, 14, 20, 5, 9, 14, 20, 5, 9, 14, 20],
                                     [4, 11, 16, 23, 4, 11, 16, 23, 4, 11, 16, 23, 4, 11, 16, 23],
                                     [6, 10, 15, 21, 6, 10, 15, 21, 6, 10, 15, 21, 6, 10, 15, 21]]

  function Shift(index: nat): nat
    requires index < 64
  {
    MD5_SHIFT[index / 16][index % 16]
  }

  lemma ShiftTable(i: nat)
    requires i < 64
    ensures Shift(i) == Rotation(i)
  {}

  lemma FirstPlaces(j: nat)
    requires j < 16
    ensures K[0][j] == j && K[1][j] == (5 * (j + 16) + 1) % 16
  {}

  lemma LastPlaces(j: nat)
    requires j < 16
    ensures K[2][j] == (3 * (j + 32) + 5) % 16 && K[3][j] == (7 * (j + 48)) % 16
  {}

  lemma Places(i: nat)
    requires i < 64
    ensures WordIndex(i) == (if i < 16 then i else if i < 32 then (5 * i + 1) % 16 else if i < 48 then (3 * i + 5) % 16 else (7 * i) % 16)
  {
    if i < 32 { FirstPlaces(i % 16); } else { LastPlaces(i % 16); }
  }

  lemma FirstRound(b: Word, c: Word, d: Word)
    ensures ToUint32(Or(And(b, c), And(Not(b), d))) == Auxiliary(0, b, c, d)
  {
    hide ToUint32, ToInt32, AndWord, OrWord, NotWord;
    SignsForgotten(b, c, d);
    SignIsForgotten(NotWord(b));
    SignIsForgotten(AndWord(b, c));
    SignIsForgotten(AndWord(NotWord(b), d));
    SignIsForgotten(F(b, c, d));
  }

  lemma SecondRound(b: Word, c: Word, d: Word)
    ensures ToUint32(Or(And(d, b), And(Not(d), c))) == Auxiliary(1, b, c, d)
  {
    hide ToUint32, ToInt32, AndWord, OrWord, NotWord;
    SignsForgotten(b, c, d);
    SignIsForgotten(NotWord(d));
    SignIsForgotten(AndWord(d, b));
    SignIsForgotten(AndWord(NotWord(d), c));
    AndCommutes(d, b);
    AndCommutes(NotWord(d), c);
    SignIsForgotten(G(b, c, d));
  }

  lemma ThirdRound(b: Word, c: Word, d: Word)
    ensures ToUint32(Xor(Xor(b, c), d)) == Auxiliary(2, b, c, d)
  {
    hide ToUint32, ToInt32, XorWord;
    SignsForgotten(b, c, d);
    SignIsForgotten(XorWord(b, c));
    SignIsForgotten(H(b, c, d));
  }

  lemma FourthRound(b: Word, c: Word, d: Word)
    ensures ToUint32(Xor(c, Or(b, Not(d)))) == Auxiliary(3, b, c, d)
  {
    hide ToUint32, ToInt32, XorWord, OrWord, NotWord;
    SignsForgotten(b, c, d);
    SignIsForgotten(NotWord(d));
    SignIsForgotten(OrWord(b, NotWord(d)));
    SignIsForgotten(I(b, c, d));
  }

  lemma SignsForgotten(b: Word, c: Word, d: Word)
    ensures ToUint32(b) == b && ToUint32(c) == c && ToUint32(d) == d
  {}

  lemma AndCommutes(x: Word, y: Word)
    ensures AndWord(x, y) == AndWord(y, x)
  {
    AndBitsCommute(x, y, 32);
  }

  lemma {:induction false} AndBitsCommute(x: nat, y: nat, width: nat)
    ensures AndBits(x, y, width) == AndBits(y, x, width)
    decreases width
  {
    if width > 0 { AndBitsCommute(x / 2, y / 2, width - 1); }
  }

  // The exact sum of a signed and three unsigned words, reduced once, is the RFC's chain of word additions.
  lemma SumOnce(a: Word, mixed: Safe, x: Word, t: Word)
    requires -0x8000_0000 <= mixed < TWO_32
    ensures ToUint32(a + mixed + t + x) == Add(Add(Add(a, ToUint32(mixed)), x), t)
  {
    var m: int := mixed;
    ReduceLater(m, a);
    ReduceLater(a + m, x);
    ReduceLater(a + m + x, t);
  }

  lemma ReduceLater(x: int, y: int)
    ensures (x % TWO_32 + y) % TWO_32 == (x + y) % TWO_32
  {}

  // How the rotating local variables of the source stand for the four registers after i operations.
  predicate Aligned(a: Word, b: Word, c: Word, d: Word, r: Registers, i: nat) {
    if i % 4 == 0 then a == r.A && b == r.B && c == r.C && d == r.D
    else if i % 4 == 1 then a == r.D && b == r.A && c == r.B && d == r.C
    else if i % 4 == 2 then a == r.C && b == r.D && c == r.A && d == r.B
    else a == r.B && b == r.C && c == r.D && d == r.A
  }

  lemma AlignedStep(a: Word, b: Word, c: Word, d: Word, r: Registers, X: Block, T: Table, i: nat)
    requires i < 64 && Aligned(a, b, c, d, Operations(r, X, T, i), i)
    ensures Aligned(d, Mixed(a, b, c, d, X, T, i), b, c, Operations(r, X, T, i + 1), i + 1)
  {
    hide Mixed;
  }

  lemma AlignedEnds(a: Word, b: Word, c: Word, d: Word, r: Registers)
    ensures Aligned(a, b, c, d, r, 0) <==> Registers(a, b, c, d) == r
    ensures Aligned(a, b, c, d, r, 64) <==> Registers(a, b, c, d) == r
  {}

  // One turn of the inner loop, from its exact sum to the new b.
  lemma TurnIsMixed(a: Word, b: Word, c: Word, d: Word, X: Block, T: Table, i: nat, mixed: Safe, at: nat)
    requires i < 64 && ToUint32(mixed) == Auxiliary(i / 16, b, c, d) && -0x8000_0000 <= mixed < TWO_32
    requires at == WordIndex(i)
    ensures var sum := ToUint32(Plus(Plus(Plus(a, mixed), T[i]), X[at]));
      ToUint32(Plus(b, RotateLeft(sum, Rotation(i)))) == Mixed(a, b, c, d, X, T, i)
  {
    hide Auxiliary, RotateLeft, RotatedLeft, WordIndex, Rotation;
    SumOnce(a, mixed, X[at], T[i]);
    RotateLeftRotates(ToUint32(a + mixed + T[i] + X[at]), Rotation(i));
  }

  // The four branches of the inner loop.
  method Select(index: nat, b: Word, c: Word, d: Word) returns (mixed: Safe, wordIndex: nat)
    requires index < 64
    ensures -0x8000_0000 <= mixed < 0x8000_0000 && ToUint32(mixed) == Auxiliary(index / 16, b, c, d)
    ensures wordIndex == WordIndex(index)
  {
    hide Auxiliary, WordIndex, AndWord, OrWord, XorWord, NotWord;
    Places(index);
    if index < 16 {
      mixed := Or(And(b, c), And(Not(b), d));
      wordIndex := index;
      FirstRound(b, c, d);
    } else if index < 32 {
      mixed := Or(And(d, b), And(Not(d), c));
      wordIndex := (5 * index + 1) % 16;
      SecondRound(b, c, d);
    } else if index < 48 {
      mixed := Xor(Xor(b, c), d);
      wordIndex := (3 * index + 5) % 16;
      ThirdRound(b, c, d);
    } else {
      mixed := Xor(c, Or(b, Not(d)));
      wordIndex := (7 * index) % 16;
      FourthRound(b, c, d);
    }
  }

  // One turn of the inner loop.
  method Turn(message: array<Byte>, offset: nat, T: Table, index: nat, a: Word, b: Word, c: Word, d: Word)
    returns (a': Word, b': Word, c': Word, d': Word)
    requires offset + 64 <= message.Length && index < 64
    ensures a' == d && b' == Mixed(a, b, c, d, BlockAt(message[..], offset), T, index) && c' == b && d' == c
  {
    hide Mixed, Auxiliary, RotateLeft, Rotation, Shift, WordIndex, WordAt, ToUint32;
    a', b', c', d' := a, b, c, d;
    var mixed, wordIndex := Select(index, b, c, d);
    ShiftTable(index);
    TurnIsMixed(a, b, c, d, BlockAt(message[..], offset), T, index, mixed, wordIndex);

    var nextD := c';
    c' := b';
    var sum := ToUint32(Plus(Plus(Plus(a', mixed), T[index]), GetUint32(message, offset + 4 * wordIndex)));
    b' := ToUint32(Plus(b', RotateLeft(sum, Shift(index))));
    a' := d';
    d' := nextD;
  }

  // The inner loop over one block.
  method MixBlock(message: array<Byte>, offset: nat, T: Table, r: Registers) returns (a: Word, b: Word, c: Word, d: Word)
    requires offset + 64 <= message.Length
    ensures Registers(a, b, c, d) == Operations(r, BlockAt(message[..], offset), T, 64)
  {
    hide Aligned, Mixed, BlockAt, Operation;
    ghost var X := BlockAt(message[..], offset);
    a, b, c, d := r.A, r.B, r.C, r.D;
    assert Operations(r, X, T, 0) == r;
    hide Operations;
    AlignedEnds(a, b, c, d, r);
    for index := 0 to 64
      invariant Aligned(a, b, c, d, Operations(r, X, T, index), index)
    {
      AlignedStep(a, b, c, d, r, X, T, index);
      a, b, c, d := Turn(message, offset, T, index, a, b, c, d);
    }
    AlignedEnds(a, b, c, d, Operations(r, X, T, 64));
  }

  // `view.getUint32(at, true)`
  function GetUint32(message: array<Byte>, at: nat): Word
    requires at + 4 <= message.Length
    reads message
  {
    WordAt(message[..], at)
  }

  // ----- The padded buffer -----

  lemma Quarters(x: nat)
    ensures x / 256 / 256 / 256 / 256 == x / TWO_32
    ensures var y := x % TWO_32;
      && y % 256 == x % 256 && y / 256 % 256 == x / 256 % 256
      && y / 256 / 256 % 256 == x / 256 / 256 % 256 && y / 256 / 256 / 256 % 256 == x / 256 / 256 / 256 % 256
  {}

  lemma FourBytes(x: nat, more: nat)
    ensures LittleEndian(x, 4 + more) ==
      [x % 256, x / 256 % 256, x / 256 / 256 % 256, x / 256 / 256 / 256 % 256] + LittleEndian(x / 256 / 256 / 256 / 256, more)
  {
    var y := x / 256;
    var z := y / 256;
    assert LittleEndian(x, 4 + more) == [x % 256] + LittleEndian(y, 3 + more);
    assert LittleEndian(y, 3 + more) == [y % 256] + LittleEndian(z, 2 + more);
    assert LittleEndian(z, 2 + more) == [z % 256] + LittleEndian(z / 256, 1 + more);
    assert LittleEndian(z / 256, 1 + more) == [z / 256 % 256] + LittleEndian(z / 256 / 256, more);
  }

  // `view.setUint32(at, value, true)`
  method SetUint32(message: array<Byte>, at: nat, value: Word)
    requires at + 4 <= message.Length
    modifies message
    ensures message[..] == old(message[..at]) + LittleEndian(value, 4) + old(message[at + 4..])
  {
    var n: int := value;
    message[at] := n % 256;
    message[at + 1] := n / 256 % 256;
    message[at + 2] := n / 256 / 256 % 256;
    message[at + 3] := n / 256 / 256 / 256 % 256;
    FourBytes(n, 0);
  }

  // What `getUint32` reads is the word whose bytes `setUint32` writes.
  lemma ReadsWhatIsWritten(m: seq<Byte>, at: nat)
    requires at + 4 <= |m|
    ensures LittleEndian(WordAt(m, at), 4) == m[at..at + 4]
  {
    FourBytes(WordAt(m, at), 0);
    FourDigits(m[at], m[at + 1], m[at + 2], m[at + 3]);
    hide LittleEndian, WordAt;
    NoBytes(WordAt(m, at) / 256 / 256 / 256 / 256);
  }

  lemma FourDigits(b0: Byte, b1: Byte, b2: Byte, b3: Byte)
    ensures var a: int, b: int, c: int, d: int := b0, b1, b2, b3;
      var x := a + b * 0x100 + c * 0x1_0000 + d * 0x100_0000;
      x % 256 == a && x / 256 % 256 == b && x / 256 / 256 % 256 == c && x / 256 / 256 / 256 % 256 == d
  {}

  // `message.set(source)`
  method Copy(message: array<Byte>, source: seq<Byte>)
    requires |source| <= message.Length
    modifies message
    ensures message[..] == source + old(message[|source|..])
  {
    for i := 0 to |source|
      invariant forall j :: 0 <= j < i ==> message[j] == source[j]
      invariant forall j :: i <= j < message.Length ==> message[j] == old(message[j])
    {
      message[i] := source[i];
    }
  }

  method Prepare(source: seq<Byte>) returns (message: array<Byte>)
    ensures fresh(message) && message[..] == Padded(source)
  {
    var paddedLength := (|source| + 9 + 63) / 64 * 64;
    assert paddedLength == |source| + 9 + Zeros(|source|);
    hide Zeros, LittleEndian;
    message := new Byte[paddedLength](_ => 0);
    Copy(message, source);
    message[|source|] := 0x80;
    ghost var text := source + [0x80] + seq(Zeros(|source|), _ => 0);
    assert message[..] == text + seq(8, _ => 0);

    var bitLength := 8 * |source|;
    SetUint32(message, paddedLength - 8, bitLength % TWO_32);
    ghost var half := message[..];
    SetUint32(message, paddedLength - 4, bitLength / TWO_32 % TWO_32);
    Filled(text, seq(8, _ => 0), LittleEndian(bitLength % TWO_32, 4), LittleEndian(bitLength / TWO_32 % TWO_32, 4), half, message[..]);
    LengthBytes(bitLength);
  }

  // Two writes of four bytes over the last eight.
  lemma Filled(text: seq<Byte>, blank: seq<Byte>, low: seq<Byte>, high: seq<Byte>, half: seq<Byte>, full: seq<Byte>)
    requires |blank| == 8 && |low| == |high| == 4
    requires half == (text + blank)[..|text|] + low + (text + blank)[|text| + 4..]
    requires full == half[..|text| + 4] + high + half[|text| + 8..]
    ensures full == text + (low + high)
  {}

  lemma LengthBytes(x: nat)
    ensures LittleEndian(x % TWO_32, 4) + LittleEndian(x / TWO_32 % TWO_32, 4) == LittleEndian(x, 8)
  {
    hide LittleEndian;
    FourBytes(x, 4);
    FourBytes(x / TWO_32, 0);
    FourBytes(x % TWO_32, 0);
    FourBytes(x / TWO_32 % TWO_32, 0);
    Quarters(x);
    Quarters(x / TWO_32);
    NoBytes(x / 256 / 256 / 256 / 256);
    NoBytes(x / TWO_32 / 256 / 256 / 256 / 256);
    NoBytes(x % TWO_32 / 256 / 256 / 256 / 256);
    NoBytes(x / TWO_32 % TWO_32 / 256 / 256 / 256 / 256);
  }

  lemma NoBytes(x: nat)
    ensures LittleEndian(x, 0) == []
  {}

  // ----- The digest in hexadecimal -----

  const DIGITS := "0123456789abcdef"

  function HexByte(b: Byte): string {
    [DIGITS[b / 16], DIGITS[b % 16]]
  }

  function Hex(bytes: seq<Byte>): (hex: string)
    ensures |hex| == 2 * |bytes|
  {
    if bytes == [] then "" else Hex(bytes[..|bytes| - 1]) + HexByte(bytes[|bytes| - 1])
  }

  // `byte.toString(16).padStart(2, '0')`
  function ToString16(b: Byte): string {
    if b < 16 then [DIGITS[b]] else [DIGITS[b / 16], DIGITS[b % 16]]
  }

  function PadStart(s: string, width: nat, fill: char): string {
    seq(if |s| < width then width - |s| else 0, _ => fill) + s
  }

  lemma PaddedDigits(b: Byte)
    ensures PadStart(ToString16(b), 2, '0') == HexByte(b)
  {}

  // What `(word >>> 8 * i) & 0xff` is.
  lemma MaskedByte(w: Word, i: nat)
    requires i < 4
    ensures And(UnsignedShiftRight(w, 8 * i), 0xff) == ByteOf(w, i)
  {
    ShiftedByBytes(w, i);
    hide UnsignedShiftRight, Pow2, AndBits, ToInt32, ToUint32;
    var v := UnsignedShiftRight(w, 8 * i);
    Pow2Of32();
    MaskIsRemainder(v, 8, 32);
    SignsForgotten(v, 0xff, v % 256);
    SmallStaysPositive(v % 256);
  }

  lemma SmallStaysPositive(b: Byte)
    ensures ToInt32(b) == b
  {}

  lemma ShiftedByBytes(w: Word, i: nat)
    requires i < 4
    ensures UnsignedShiftRight(w, 8 * i) % 256 == ByteOf(w, i)
  {
    Pow2Of32();
    assert Pow2(0) == 1;
    SignIsForgotten(w);
    hide Pow2, ToUint32;
  }

  lemma AbsorbIs(r: Registers, q: Registers, X: Block, T: Table)
    requires q == Operations(r, X, T, 64)
    ensures Absorb(r, X, T) == Registers(ToUint32(Plus(r.A, q.A)), ToUint32(Plus(r.B, q.B)), ToUint32(Plus(r.C, q.C)), ToUint32(Plus(r.D, q.D)))
  {
    hide Operations;
  }

  lemma StateStep(m: seq<Byte>, T: Table, blocks: nat)
    requires 64 * blocks + 64 <= |m|
    ensures State(m, T, blocks + 1) == Absorb(State(m, T, blocks), BlockAt(m, 64 * blocks), T)
    ensures State(m, T, 0) == INITIAL
  {
    hide Absorb, BlockAt;
  }

  lemma InitialIs()
    ensures INITIAL == Registers(0x67452301, 0xefcdab89, 0x98badcfe, 0x10325476)
  {}

  // The outer loop.
  method Fold(message: array<Byte>, T: Table) returns (r: Registers)
    requires message.Length % 64 == 0 && message.Length > 0
    ensures r == State(message[..], T, message.Length / 64)
  {
    hide Absorb, BlockAt, State, Operations, ToUint32;
    ghost var blocks := 0;
    StateStep(message[..], T, 0);
    r := Registers(0x67452301, 0xefcdab89, 0x98badcfe, 0x10325476);
    InitialIs();
    var offset := 0;
    while offset < message.Length
      invariant offset == 64 * blocks <= message.Length && r == State(message[..], T, blocks)
      decreases message.Length - offset
    {
      var a, b, c, d := MixBlock(message, offset, T, r);
      AbsorbIs(r, Registers(a, b, c, d), BlockAt(message[..], offset), T);
      StateStep(message[..], T, blocks);
      r := Registers(ToUint32(Plus(r.A, a)), ToUint32(Plus(r.B, b)), ToUint32(Plus(r.C, c)), ToUint32(Plus(r.D, d)));
      offset, blocks := offset + 64, blocks + 1;
    }
  }

  // The four bytes of a word, the low one first, by shifting and masking.
  method Serialise(w: Word) returns (hex: string)
    ensures hex == HexByte(ByteOf(w, 0)) + HexByte(ByteOf(w, 1)) + HexByte(ByteOf(w, 2)) + HexByte(ByteOf(w, 3))
  {
    hide And, UnsignedShiftRight, ByteOf, HexByte, PadStart, ToString16;
    hex := "";
    for i := 0 to 4
      invariant hex == HexBytesOf(w, i)
    {
      MaskedByte(w, i);
      PaddedDigits(ByteOf(w, i));
      hex := hex + PadStart(ToString16(And(UnsignedShiftRight(w, 8 * i), 0xff)), 2, '0');
    }
    FourHexBytes(w);
  }

  lemma FourHexBytes(w: Word)
    ensures HexBytesOf(w, 4) == HexByte(ByteOf(w, 0)) + HexByte(ByteOf(w, 1)) + HexByte(ByteOf(w, 2)) + HexByte(ByteOf(w, 3))
  {
    hide HexByte, ByteOf;
    assert HexBytesOf(w, 1) == HexByte(ByteOf(w, 0));
    assert HexBytesOf(w, 2) == HexBytesOf(w, 1) + HexByte(ByteOf(w, 1));
    assert HexBytesOf(w, 3) == HexBytesOf(w, 2) + HexByte(ByteOf(w, 2));
  }

  function HexBytesOf(w: Word, n: nat): string
    requires n <= 4
  {
    if n == 0 then "" else HexBytesOf(w, n - 1) + HexByte(ByteOf(w, n - 1))
  }

  lemma HexOfWord(before: seq<Byte>, w: Word)
    ensures Hex(before + Bytes(w)) ==
      Hex(before) + (HexByte(ByteOf(w, 0)) + HexByte(ByteOf(w, 1)) + HexByte(ByteOf(w, 2)) + HexByte(ByteOf(w, 3)))
  {
    hide ByteOf, HexByte;
    var b0, b1, b2, b3 := ByteOf(w, 0), ByteOf(w, 1), ByteOf(w, 2), ByteOf(w, 3);
    HexSnoc(before, b0);
    HexSnoc(before + [b0], b1);
    HexSnoc(before + [b0] + [b1], b2);
    HexSnoc(before + [b0] + [b1] + [b2], b3);
    assert before + Bytes(w) == before + [b0] + [b1] + [b2] + [b3];
  }

  lemma HexSnoc(bytes: seq<Byte>, b: Byte)
    ensures Hex(bytes + [b]) == Hex(bytes) + HexByte(b)
  {
    assert (bytes + [b])[..|bytes|] == bytes;
  }

  method Md5Hex(source: seq<Byte>, T: Table) returns (hex: string)
    ensures hex == Hex(Digest(source, T))
  {
    var message := Prepare(source);
    PaddedLength(source);
    hide Hex, State, Padded, HexByte, ByteOf, Bytes;
    var r := Fold(message, T);
    var a := Serialise(r.A);
    var b := Serialise(r.B);
    var c := Serialise(r.C);
    var d := Serialise(r.D);
    hex := a + b + c + d;
    HexEmpty();
    HexOfWord([], r.A);
    HexOfWord([] + Bytes(r.A), r.B);
    HexOfWord([] + Bytes(r.A) + Bytes(r.B), r.C);
    HexOfWord([] + Bytes(r.A) + Bytes(r.B) + Bytes(r.C), r.D);
    assert [] + Bytes(r.A) + Bytes(r.B) + Bytes(r.C) + Bytes(r.D) == Digest(source, T);
  }

  lemma HexEmpty()
    ensures Hex([]) == ""
  {}

  // ----- Fever keys -----

  predicate IsHexDigit(c: char) { '0' <= c <= '9' || 'a' <= c <= 'f' }

  // What `/^[0-9a-fA-F]{32}$/u` accepts.
  predicate IsFeverKey(s: string) {
    |s| == 32 && forall i :: 0 <= i < 32 ==> IsHexDigit(s[i]) || 'A' <= s[i] <= 'F'
  }

  function LowerChar(c: char): char {
    if 'A' <= c <= 'Z' then c - 'A' + 'a' else c
  }

  function Lower(s: string): string {
    seq(|s|, i requires 0 <= i < |s| => LowerChar(s[i]))
  }

  lemma {:induction false} HexDigits(bytes: seq<Byte>)
    ensures forall i :: 0 <= i < |Hex(bytes)| ==> IsHexDigit(Hex(bytes)[i])
    decreases |bytes|
  {
    if bytes != [] {
      HexDigits(bytes[..|bytes| - 1]);
      HexByteDigits(bytes[|bytes| - 1]);
    }
  }

  lemma HexByteDigits(b: Byte)
    ensures IsHexDigit(HexByte(b)[0]) && IsHexDigit(HexByte(b)[1])
  {}

  // ----- The texts read back -----

  // What a lowercase hexadecimal digit is worth.
  function Worth(c: char): int {
    if '0' <= c <= '9' then (c - '0') as int else c as int - 'a' as int + 10
  }

  function FromHex(hex: string): seq<int>
    requires |hex| % 2 == 0
    decreases |hex|
  {
    if hex == "" then [] else FromHex(hex[..|hex| - 2]) + [16 * Worth(hex[|hex| - 2]) + Worth(hex[|hex| - 1])]
  }

  lemma DigitsAre(n: nat)
    requires n < 16
    ensures DIGITS[n] == if n < 10 then '0' + n as char else 'a' + (n - 10) as char
    ensures Worth(DIGITS[n]) == n
  {}

  lemma {:induction false} FromHexSnoc(hex: string, c: char, d: char)
    requires |hex| % 2 == 0
    ensures FromHex(hex + [c, d]) == FromHex(hex) + [16 * Worth(c) + Worth(d)]
  {
    hide Worth;
    var more := hex + [c, d];
    assert |more| == |hex| + 2 && more[|hex|] == c && more[|hex| + 1] == d;
    assert more[..|hex|] == hex;
  }

  lemma WorthTheByte(b: Byte)
    ensures |HexByte(b)| == 2 && 16 * Worth(HexByte(b)[0]) + Worth(HexByte(b)[1]) == b
  {
    DigitsAre(b / 16);
    DigitsAre(b % 16);
    hide Worth;
  }

  // The two digits of a byte are worth the byte.
  lemma {:induction false} HexReadsBack(bytes: seq<Byte>)
    ensures FromHex(Hex(bytes)) == bytes
    decreases |bytes|
  {
    hide Worth, HexByte, FromHex;
    if bytes == [] {
      NoText();
    } else {
      var n := |bytes| - 1;
      var last := HexByte(bytes[n]);
      HexReadsBack(bytes[..n]);
      WorthTheByte(bytes[n]);
      FromHexSnoc(Hex(bytes[..n]), last[0], last[1]);
      assert last == [last[0], last[1]];
      assert bytes == bytes[..n] + [bytes[n]];
    }
  }

  lemma NoText()
    ensures FromHex("") == []
  {}

  // Different digests are written differently.
  lemma HexInjective(a: seq<Byte>, b: seq<Byte>)
    requires Hex(a) == Hex(b)
    ensures a == b
  {
    HexReadsBack(a);
    HexReadsBack(b);
  }

  // The output is 32 lowercase hexadecimal digits, which lowering leaves alone, whatever the digest.
  lemma DigestIsLowercase(digest: seq<Byte>)
    requires |digest| == 16
    ensures |Hex(digest)| == 32 && forall i :: 0 <= i < 32 ==> IsHexDigit(Hex(digest)[i])
    ensures IsFeverKey(Hex(digest)) && Lower(Hex(digest)) == Hex(digest)
  {
    HexDigits(digest);
    hide Hex;
  }

  // `key` writes the same digits, each letter in either case.
  predicate Spells(key: string, hex: string) {
    |key| == |hex| && forall i :: 0 <= i < |key| ==> key[i] == hex[i] || ('a' <= hex[i] <= 'f' && key[i] == hex[i] - 'a' + 'A')
  }

  // A key reaches the stored verifier, the hash of the digest, exactly when it spells the digest in some
  // case; SHA-256 is taken to be injective.
  lemma FeverKeyReachesVerifier(key: string, digest: seq<Byte>, hash: string -> nat)
    requires |digest| == 16 && forall x, y :: hash(x) == hash(y) ==> x == y
    ensures IsFeverKey(key) && hash(Lower(key)) == hash(Hex(digest)) <==> Spells(key, Hex(digest))
  {
    DigestIsLowercase(digest);
    hide Hex;
    SpellsIsLower(key, Hex(digest));
  }

  lemma SpellsIsLower(key: string, hex: string)
    requires |hex| == 32 && forall i :: 0 <= i < 32 ==> IsHexDigit(hex[i])
    ensures IsFeverKey(key) && Lower(key) == hex <==> Spells(key, hex)
  {
    if IsFeverKey(key) && Lower(key) == hex {
      forall i | 0 <= i < 32
        ensures key[i] == hex[i] || ('a' <= hex[i] <= 'f' && key[i] == hex[i] - 'a' + 'A')
      {
        assert Lower(key)[i] == LowerChar(key[i]);
      }
    }
    if Spells(key, hex) {
      forall i | 0 <= i < 32
        ensures (IsHexDigit(key[i]) || 'A' <= key[i] <= 'F') && LowerChar(key[i]) == hex[i]
      {
        assert IsHexDigit(hex[i]);
      }
      assert Lower(key) == hex;
    }
  }
}
