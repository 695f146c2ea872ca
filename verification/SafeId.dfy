/** The 53-bit id generator and the constant-time comparison. */
module SafeId {
  import opened JsNumbers

  const LENGTH := 7
  const HIGH_MASK := 0x1f

  // What `bytes[0] &= 0x1f` leaves of a draw.
  predicate Masked(b: seq<Byte>) {
    |b| == LENGTH && b[0] < 32
  }

  // The big-endian value of a byte string.
  function BigEndian(b: seq<Byte>): (n: nat)
    ensures n < Pow2(8 * |b|)
  {
    if b == [] then 0
    else
      Pow2Add(8, 8 * (|b| - 1));
      Pow2Of32();
      var last: int := b[|b| - 1];
      BigEndian(b[..|b| - 1]) * 256 + last
  }

  // The bytes of an id, most significant first.
  function Bytes(n: nat, width: nat): (b: seq<Byte>)
    ensures |b| == width
  {
    if width == 0 then [] else Bytes(n / 256, width - 1) + [n % 256]
  }

  lemma {:induction false} BytesOfValue(b: seq<Byte>)
    ensures Bytes(BigEndian(b), |b|) == b
    decreases |b|
  {
    if b != [] {
      var init, last: int := b[..|b| - 1], b[|b| - 1];
      BytesOfValue(init);
      RemainderIs(BigEndian(init) * 256 + last, 256, BigEndian(init), last);
      assert b == init + [b[|b| - 1]];
    }
  }

  lemma {:induction false} ValueOfBytes(n: nat, width: nat)
    requires n < Pow2(8 * width)
    ensures BigEndian(Bytes(n, width)) == n
    decreases width
  {
    if width > 0 {
      Pow2Add(8, 8 * (width - 1));
      Pow2Of32();
      ValueOfBytes(n / 256, width - 1);
      assert Bytes(n, width)[..width - 1] == Bytes(n / 256, width - 1);
    }
  }

  // Masking the three high bits leaves exactly the values that a double holds exactly.
  lemma {:induction false} MaskedBound(b: seq<Byte>)
    requires 0 < |b| <= LENGTH && b[0] < 32
    ensures BigEndian(b) < 32 * Pow2(8 * (|b| - 1)) <= MAX_SAFE + 1
    decreases |b|
  {
    if |b| == 1 {
      assert BigEndian(b[..0]) == 0 && Pow2(0) == 1;
    } else {
      MaskedBound(b[..|b| - 1]);
      Pow2Add(8, 8 * (|b| - 2));
      Pow2Of32();
      PowerFits(|b| - 1);
    }
  }

  lemma PowerFits(n: nat)
    requires n < LENGTH
    ensures 32 * Pow2(8 * n) <= MAX_SAFE + 1
  {
    Pow2Of32();
    assert Pow2(0) == 1;
    Pow2Add(8, 32);
    Pow2Add(16, 32);
  }

  // Ids and masked strings correspond one to one.
  lemma IdsAreMaskedStrings(n: nat)
    requires n <= MAX_SAFE
    ensures Masked(Bytes(n, LENGTH)) && BigEndian(Bytes(n, LENGTH)) == n
    ensures forall b :: Masked(b) && BigEndian(b) == n ==> b == Bytes(n, LENGTH)
  {
    Pow2Of32();
    Pow2Add(16, 32);
    Pow2Add(8, 48);
    ValueOfBytes(n, LENGTH);
    TopByte(n);
    forall b | Masked(b) && BigEndian(b) == n
      ensures b == Bytes(n, LENGTH)
    {
      BytesOfValue(b);
    }
  }

  lemma TopByte(n: nat)
    ensures Bytes(n, LENGTH)[0] == n / 256 / 256 / 256 / 256 / 256 / 256 % 256
  {
    var m := n / 256 / 256;
    assert Bytes(n, 7)[0] == Bytes(n / 256, 6)[0] == Bytes(m, 5)[0];
    assert Bytes(m, 5)[0] == Bytes(m / 256, 4)[0] == Bytes(m / 256 / 256, 3)[0];
    assert Bytes(m / 256 / 256, 3)[0] == Bytes(m / 256 / 256 / 256, 2)[0] == Bytes(m / 256 / 256 / 256 / 256, 1)[0];
  }

  function Mask(draw: seq<Byte>): (b: seq<Byte>)
    requires |draw| == LENGTH
    ensures Masked(b)
  {
    [draw[0] % 32] + draw[1..]
  }

  lemma MaskedAnd(x: Byte)
    ensures And(x, HIGH_MASK) == x % 32
  {
    var w: Word := x;
    SignIsForgotten(w);
    SignIsForgotten(HIGH_MASK);
    assert Pow2(5) == 32;
    MaskIsRemainder(w, 5, 32);
    SmallStays(w % 32);
    hide AndBits, Pow2, ToInt32, ToUint32;
  }

  lemma SmallStays(b: int)
    requires 0 <= b < 256
    ensures ToInt32(b) == b
  {}

  // The inner loop: no intermediate value leaves the exact range.
  method Accumulate(bytes: seq<Byte>) returns (id: Safe)
    requires Masked(bytes)
    ensures id == BigEndian(bytes) && 0 <= id <= MAX_SAFE
  {
    id := 0;
    for i := 0 to LENGTH
      invariant id == BigEndian(bytes[..i])
    {
      assert bytes[..i + 1][..i] == bytes[..i];
      MaskedBound(bytes[..i + 1]);
      id := Plus(Times(id, 256), bytes[i]);
    }
    assert bytes[..LENGTH] == bytes;
    MaskedBound(bytes);
    assert Pow2(0) == 1;
  }

  // The i-th string that the random source delivers.
  type Source = d: nat -> seq<Byte> | forall i :: |d(i)| == LENGTH ghost witness (_: nat) => [0, 0, 0, 0, 0, 0, 0]

  function Drawn(draws: Source, i: nat): (n: nat)
    ensures n <= MAX_SAFE
  {
    MaskedBound(Mask(draws(i)));
    PowerFits(LENGTH - 1);
    BigEndian(Mask(draws(i)))
  }

  ghost predicate ZeroBefore(draws: Source, n: nat) {
    forall j: nat :: j < n ==> Drawn(draws, j) == 0
  }

  // The loop draws until a masked string is not zero; that one of the draws, here the `some`-th, is not
  // zero is what its ending needs of the source.
  method GenerateSafeId(draws: Source, ghost some: nat) returns (id: Safe)
    requires Drawn(draws, some) != 0
    ensures 1 <= id <= MAX_SAFE
    ensures exists i: nat :: i <= some && id == Drawn(draws, i) && ZeroBefore(draws, i)
  {
    var next := 0;
    id := 0;
    hide BigEndian, And, Mask, Drawn, ZeroBefore;
    NothingBefore(draws);
    while id == 0
      invariant 0 <= id <= MAX_SAFE
      invariant id == 0 ==> next <= some && ZeroBefore(draws, next)
      invariant id != 0 ==> 0 < next <= some + 1 && id == Drawn(draws, next - 1) && ZeroBefore(draws, next - 1)
      decreases some + 1 - next
    {
      var bytes := draws(next);
      MaskedAnd(bytes[0]);
      bytes := bytes[0 := And(bytes[0], HIGH_MASK)];
      MaskedDraw(draws, next, bytes);
      OneMoreZero(draws, next, some);
      id := Accumulate(bytes);
      next := next + 1;
    }
  }

  lemma NothingBefore(draws: Source)
    ensures ZeroBefore(draws, 0)
  {}

  lemma OneMoreZero(draws: Source, n: nat, some: nat)
    requires ZeroBefore(draws, n) && n <= some && Drawn(draws, some) != 0
    ensures Drawn(draws, n) == 0 ==> ZeroBefore(draws, n + 1) && n < some
  {
    hide Drawn;
  }

  lemma MaskedDraw(draws: Source, i: nat, bytes: seq<Byte>)
    requires bytes == draws(i)[0 := draws(i)[0] % 32]
    ensures Masked(bytes) && BigEndian(bytes) == Drawn(draws, i)
  {
    hide BigEndian;
    assert bytes == Mask(draws(i));
  }

  // ----- timingSafeEqual -----

  function At(b: seq<Byte>, i: nat): Byte {
    if i < |b| then b[i] else 0
  }

  // The lengths are compared as 32-bit numbers, the bytes as if the shorter side were filled with zeros.
  ghost predicate SameBits(left: seq<Byte>, right: seq<Byte>) {
    |left| % TWO_32 == |right| % TWO_32 && forall i :: 0 <= i < |left| || 0 <= i < |right| ==> At(left, i) == At(right, i)
  }

  // Up to position n nothing differs.
  predicate SameTo(left: seq<Byte>, right: seq<Byte>, n: nat) {
    |left| % TWO_32 == |right| % TWO_32 && forall i :: 0 <= i < n ==> At(left, i) == At(right, i)
  }

  lemma SameOneMore(left: seq<Byte>, right: seq<Byte>, n: nat)
    ensures SameTo(left, right, n + 1) <==> SameTo(left, right, n) && At(left, n) == At(right, n)
  {}

  method TimingSafeEqual(left: seq<Byte>, right: seq<Byte>) returns (equal: bool)
    requires |left| <= MAX_SAFE && |right| <= MAX_SAFE
    ensures equal <==> SameBits(left, right)
  {
    var length := if |left| > |right| then |left| else |right|;
    var difference: Safe := Xor(|left|, |right|);
    XorZero(|left|, |right|);
    assert SameTo(left, right, 0) <==> difference == 0;
    hide Xor, Or, At, SameTo;
    for index := 0 to length
      invariant -0x8000_0000 <= difference < 0x8000_0000
      invariant difference == 0 <==> SameTo(left, right, index)
    {
      var x := Xor(At(left, index), At(right, index));
      XorZero(At(left, index), At(right, index));
      SmallResidues(At(left, index), At(right, index));
      SameOneMore(left, right, index);
      OrZero32(difference, x);
      difference := Or(difference, x);
    }
    equal := difference == 0;
    SameToEnd(left, right);
  }

  lemma SmallResidues(x: Byte, y: Byte)
    ensures x % TWO_32 == y % TWO_32 <==> x == y
  {}

  lemma SameToEnd(left: seq<Byte>, right: seq<Byte>)
    ensures SameTo(left, right, if |left| > |right| then |left| else |right|) <==> SameBits(left, right)
  {}

  lemma XorZero(x: Safe, y: Safe)
    ensures Xor(x, y) == 0 <==> x % TWO_32 == y % TWO_32
    ensures -0x8000_0000 <= Xor(x, y) < 0x8000_0000
  {
    Pow2Of32();
    XorIsZero(ToUint32(x), ToUint32(y), 32);
    SignIsForgotten(XorWord(ToUint32(x), ToUint32(y)));
    hide XorBits, Pow2;
  }

  lemma OrZero32(x: Safe, y: Safe)
    requires -0x8000_0000 <= x < 0x8000_0000 && -0x8000_0000 <= y < 0x8000_0000
    ensures Or(x, y) == 0 <==> x == 0 && y == 0
    ensures -0x8000_0000 <= Or(x, y) < 0x8000_0000
  {
    hide OrBits, Pow2;
    Pow2Of32();
    var a, b := ToUint32(x), ToUint32(y);
    assert (a == 0 <==> x == 0) && (b == 0 <==> y == 0);
    OrIsZero(a, b, 32);
    SignIsForgotten(OrWord(a, b));
    hide ToUint32;
  }

  // For anything shorter than 4 GiB that is equality; beyond, a long run of zeros goes unnoticed.
  lemma SameBitsIsEquality(left: seq<Byte>, right: seq<Byte>)
    ensures |left| < TWO_32 && |right| < TWO_32 ==> (SameBits(left, right) <==> left == right)
    ensures SameBits(left, right) ==> (left == right <==> |left| == |right|)
  {
    if |left| == |right| && SameBits(left, right) {
      assert forall i :: 0 <= i < |left| ==> At(left, i) == left[i] && At(right, i) == right[i];
      assert left == right;
    }
  }
}
