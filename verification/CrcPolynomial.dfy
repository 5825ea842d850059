// What the CRC is, without its register: the remainder of a division of
// polynomials over the two-element field, as section 8.1.1.6.2 of ITU-T V.42
// defines it.
module CrcPolynomial {
  import opened Crc32

  // A polynomial is the list of its coefficients, the highest first.

  // The generator x^32 + x^26 + x^23 + x^22 + x^16 + x^12 + x^11 + x^10 + x^8
  // + x^7 + x^5 + x^4 + x^2 + x + 1 without its leading term.
  const EXPONENTS: set<int> := {26, 23, 22, 16, 12, 11, 10, 8, 7, 5, 4, 2, 1, 0}

  function Generator(): (g: seq<bool>)
    ensures |g| == 32
  {
    seq(32, j => 31 - j in EXPONENTS)
  }

  // Subtraction of a short polynomial from the front of a long one.
  function Minus(p: seq<bool>, q: seq<bool>): (r: seq<bool>)
    requires |q| <= |p|
    ensures |r| == |p| && forall i | 0 <= i < |p| :: r[i] == (p[i] != (i < |q| && q[i]))
  {
    seq(|p|, i requires 0 <= i < |p| => p[i] != (i < |q| && q[i]))
  }

  // Long division by the generator: a leading term is cancelled, until fewer
  // than 33 coefficients are left.
  function Remainder(p: seq<bool>): (r: seq<bool>)
    requires |p| >= 32
    ensures |r| == 32
    decreases |p|
  {
    if |p| == 32 then p
    else Remainder(if p[0] then Minus(p[1..], Generator()) else p[1..])
  }

  // A message is sent byte after byte, the low bit of each byte first.
  function ByteBits(b: bv8): (r: seq<bool>)
    ensures |r| == 8
  {
    [b & 0x01 != 0, b & 0x02 != 0, b & 0x04 != 0, b & 0x08 != 0,
     b & 0x10 != 0, b & 0x20 != 0, b & 0x40 != 0, b & 0x80 != 0]
  }

  function MessageBits(data: seq<bv8>): seq<bool>
    decreases |data|
  {
    if data == [] then [] else ByteBits(data[0]) + MessageBits(data[1..])
  }

  function Zeros(n: nat): (r: seq<bool>)
    ensures |r| == n
  {
    seq(n, _ => false)
  }

  function Ones(n: nat): (r: seq<bool>)
    ensures |r| == n
  {
    seq(n, _ => true)
  }

  // The message with 32 zeros behind it and its first 32 bits complemented is
  // divided, and the remainder complemented.
  function Checksum(data: seq<bv8>): (r: seq<bool>)
    ensures |r| == 32
  {
    Minus(Remainder(Minus(MessageBits(data) + Zeros(32), Ones(32))), Ones(32))
  }

  // ------------------------------------------------------- words as polynomials

  predicate Odd(c: bv32) {
    c & 1 == 1
  }

  // The low n bits of a word, the lowest first: the register's low bit is the
  // highest coefficient.
  function Bits(c: bv32, n: nat): (r: seq<bool>)
    ensures |r| == n
  {
    if n == 0 then [] else [Odd(c)] + Bits(Half(c), n - 1)
  }

  function Top(c: bv32, n: nat): bool {
    if n == 0 then Odd(c) else Top(Half(c), n - 1)
  }

  lemma {:induction false} BitsSnoc(c: bv32, n: nat)
    ensures Bits(c, n + 1) == Bits(c, n) + [Top(c, n)]
    decreases n
  {
    hide Odd, Half;
    if n == 0 {
      assert Bits(Half(c), 0) == [];
    } else {
      BitsSnoc(Half(c), n - 1);
    }
  }

  lemma SumHalves(a: bv32, b: bv32)
    ensures Half(Sum(a, b)) == Sum(Half(a), Half(b))
    ensures Odd(Sum(a, b)) <==> Odd(a) != Odd(b)
  {
  }

  lemma {:induction false} BitsOfSum(a: bv32, b: bv32, n: nat)
    ensures Bits(Sum(a, b), n) == Minus(Bits(a, n), Bits(b, n))
    decreases n
  {
    hide Sum, Half, Odd;
    if n == 0 {
    } else {
      SumHalves(a, b);
      BitsOfSum(Half(a), Half(b), n - 1);
    }
  }

  function Eighth(c: bv32): bv32 {
    c >> 8
  }

  lemma EightHalves(c: bv32, n: nat)
    ensures Top(c, n + 8) == Top(Eighth(c), n)
  {
    HalvedEightTimes(c);
    assert Half(Half(Half(Half(Half(Half(Half(Half(c)))))))) == Eighth(c);
    hide Half, Odd, Eighth;
    var c1 := Half(c); var c2 := Half(c1); var c3 := Half(c2); var c4 := Half(c3);
    var c5 := Half(c4); var c6 := Half(c5); var c7 := Half(c6);
    assert Top(c, n + 8) == Top(c1, n + 7);
    assert Top(c1, n + 7) == Top(c2, n + 6);
    assert Top(c2, n + 6) == Top(c3, n + 5);
    assert Top(c3, n + 5) == Top(c4, n + 4);
    assert Top(c4, n + 4) == Top(c5, n + 3);
    assert Top(c5, n + 3) == Top(c6, n + 2);
    assert Top(c6, n + 2) == Top(c7, n + 1);
  }

  lemma SevenHalves(c: bv32)
    ensures Top(c, 7) == Odd(Half(Half(Half(Half(Half(Half(Half(c))))))))
  {
    hide Half, Odd;
    var c1 := Half(c); var c2 := Half(c1); var c3 := Half(c2); var c4 := Half(c3);
    assert Top(c, 7) == Top(c1, 6);
    assert Top(c1, 6) == Top(c2, 5);
    assert Top(c2, 5) == Top(c3, 4);
    assert Top(c3, 4) == Top(c4, 3);
    assert Top(c4, 3) == Top(Half(c4), 2);
    assert Top(Half(c4), 2) == Top(Half(Half(c4)), 1);
    assert Top(Half(Half(c4)), 1) == Top(Half(Half(Half(c4))), 0);
  }

  lemma ShiftedOut(c: bv32)
    ensures !Odd(Half(Half(Half(Half(Half(Half(Half(Eighth(Eighth(Eighth(Half(c))))))))))))
  {
  }

  lemma TopCleared(c: bv32)
    ensures !Top(Half(c), 31)
  {
    hide Half, Odd, Top, Eighth;
    var d := Half(c);
    ShiftedOut(c);
    EightHalves(d, 23);
    EightHalves(Eighth(d), 15);
    EightHalves(Eighth(Eighth(d)), 7);
    SevenHalves(Eighth(Eighth(Eighth(d))));
  }

  // A shift moves the list by one place.
  lemma HalfMoves(c: bv32)
    ensures Bits(c, 32) == [Odd(c)] + Bits(Half(c), 31)
    ensures Bits(Half(c), 32) == Bits(c, 32)[1..] + [false]
  {
    hide Half, Odd, Top;
    BitsSnoc(Half(c), 31);
    TopCleared(c);
    assert Bits(c, 32) == [Odd(c)] + Bits(Half(c), 31);
  }

  // ------------------------------------------------------------ the generator

  // The low byte of a word.
  function Low(c: bv32): (r: seq<bool>)
    ensures |r| == 8
  {
    [c & 0x01 != 0, c & 0x02 != 0, c & 0x04 != 0, c & 0x08 != 0,
     c & 0x10 != 0, c & 0x20 != 0, c & 0x40 != 0, c & 0x80 != 0]
  }

  lemma LowIsOdd(c: bv32)
    ensures var c1 := Half(c); var c2 := Half(c1); var c3 := Half(c2); var c4 := Half(c3);
            var c5 := Half(c4); var c6 := Half(c5); var c7 := Half(c6);
      && Low(c) == [Odd(c), Odd(c1), Odd(c2), Odd(c3), Odd(c4), Odd(c5), Odd(c6), Odd(c7)]
      && Half(c7) == Eighth(c)
  {
  }

  lemma OneBit(c: bv32, n: nat)
    ensures Bits(c, n + 1) == [Odd(c)] + Bits(Half(c), n)
  {
  }

  lemma FourBits(c: bv32, n: nat)
    ensures var c1 := Half(c); var c2 := Half(c1); var c3 := Half(c2);
      Bits(c, n + 4) == [Odd(c), Odd(c1), Odd(c2), Odd(c3)] + Bits(Half(c3), n)
  {
    hide Half, Odd, Bits;
    var c1 := Half(c); var c2 := Half(c1); var c3 := Half(c2);
    OneBit(c3, n);
    OneBit(c2, n + 1);
    OneBit(c1, n + 2);
    OneBit(c, n + 3);
  }

  lemma LowByteFirst(c: bv32, n: nat)
    ensures Bits(c, n + 8) == Low(c) + Bits(Eighth(c), n)
  {
    LowIsOdd(c);
    FourBits(c, n + 4);
    FourBits(Half(Half(Half(Half(c)))), n);
    hide Half, Odd, Low, Eighth, Bits;
    var c4 := Half(Half(Half(Half(c))));
    assert Bits(c, n + 8) == Low(c)[..4] + (Low(c)[4..] + Bits(Eighth(c), n));
  }

  // The constant of the loop is the generator.
  lemma PolynomialIsGenerator()
    ensures Bits(POLYNOMIAL, 32) == Generator()
  {
    LowByteFirst(POLYNOMIAL, 24);
    LowByteFirst(Eighth(POLYNOMIAL), 16);
    LowByteFirst(Eighth(Eighth(POLYNOMIAL)), 8);
    LowByteFirst(Eighth(Eighth(Eighth(POLYNOMIAL))), 0);
    GeneratorBytes();
    hide Generator, Bits;
  }

  lemma GeneratorBytes()
    ensures Generator() == Low(POLYNOMIAL) + (Low(Eighth(POLYNOMIAL)) + (Low(Eighth(Eighth(POLYNOMIAL)))
                           + (Low(Eighth(Eighth(Eighth(POLYNOMIAL)))) + [])))
  {
    assert Low(POLYNOMIAL) == [false, false, false, false, false, true, false, false];
    assert Low(Eighth(POLYNOMIAL)) == [true, true, false, false, false, false, false, true];
    assert Low(Eighth(Eighth(POLYNOMIAL))) == [false, false, false, true, true, true, false, true];
    assert Low(Eighth(Eighth(Eighth(POLYNOMIAL)))) == [true, false, true, true, false, true, true, true];
  }

  // One round of the loop multiplies the register by x and subtracts the
  // generator when that makes its leading term.
  lemma StepIsDivision(c: bv32)
    ensures var r := Bits(c, 32);
      Bits(BitStep(c), 32) == if r[0] then Minus(r[1..] + [false], Generator()) else r[1..] + [false]
  {
    HalfMoves(c);
    StepByParts(c);
    PolynomialIsGenerator();
    BitsOfSum(Half(c), POLYNOMIAL, 32);
    hide Half, Odd, Sum, BitStep, Generator;
  }

  lemma StepByParts(c: bv32)
    ensures BitStep(c) == if Odd(c) then Sum(Half(c), POLYNOMIAL) else Half(c)
  {
  }

  // ------------------------------------------------------------ the division

  // The remainder of what is left of a message, when the division has left r
  // of what came before.
  function Left(r: seq<bool>, m: seq<bool>): seq<bool>
    requires |r| == 32
  {
    Remainder(Minus(m + Zeros(32), r))
  }

  lemma LeftStep(r: seq<bool>, m: seq<bool>)
    requires |r| == 32
    ensures Left(r, [false] + m)
         == Left(if r[0] then Minus(r[1..] + [false], Generator()) else r[1..] + [false], m)
  {
    hide Generator;
    var p := Minus([false] + m + Zeros(32), r);
    var q := Minus(m + Zeros(32), r[1..] + [false]);
    assert p[0] == r[0] && p[1..] == q;
    if r[0] {
      assert Minus(q, Generator()) == Minus(m + Zeros(32), Minus(r[1..] + [false], Generator()));
    }
  }

  lemma {:induction false} LeftSteps(c: bv32, n: nat, m: seq<bool>)
    ensures Left(Bits(c, 32), Zeros(n) + m) == Left(Bits(BitSteps(c, n), 32), m)
    decreases n
  {
    hide Bits, BitStep, Left, Generator;
    if n == 0 {
      assert Zeros(0) + m == m;
    } else {
      assert Zeros(n) + m == Zeros(n - 1) + ([false] + m);
      LeftSteps(c, n - 1, [false] + m);
      LeftStep(Bits(BitSteps(c, n - 1), 32), m);
      StepIsDivision(BitSteps(c, n - 1));
    }
  }

  lemma WideBits(b: bv8)
    ensures Bits(Wide(b), 32) == ByteBits(b) + Zeros(24)
  {
    LowByteFirst(Wide(b), 24);
    WideIsLow(b);
    ZeroBits(24);
    hide Bits, Low, ByteBits, Wide, Eighth;
  }

  lemma WideIsLow(b: bv8)
    ensures Low(Wide(b)) == ByteBits(b) && Eighth(Wide(b)) == 0
  {
  }

  lemma {:induction false} ZeroBits(n: nat)
    ensures Bits(0, n) == Zeros(n)
  {
    if n == 0 {
    } else {
      ZeroBits(n - 1);
      assert Half(0) == 0 && !Odd(0);
    }
  }

  // A byte of the message can be taken into the remainder before it.
  lemma TakeByte(r: seq<bool>, b: bv8, m: seq<bool>)
    requires |r| == 32
    ensures Left(r, ByteBits(b) + m) == Left(Minus(r, ByteBits(b) + Zeros(24)), Zeros(8) + m)
  {
    hide ByteBits, Remainder;
    var x, s := ByteBits(b), Minus(r, ByteBits(b) + Zeros(24));
    var p, q := Minus(x + m + Zeros(32), r), Minus(Zeros(8) + m + Zeros(32), s);
    forall i | 0 <= i < |p| ensures p[i] == q[i] {
    }
    assert p == q;
  }

  lemma {:induction false} FeedIsDivision(c: bv32, data: seq<bv8>)
    ensures Left(Bits(c, 32), MessageBits(data)) == Bits(Feed(c, data), 32)
    decreases |data|
  {
    hide Bits, ByteBits, ByteStep, Remainder, Sum, Wide;
    if data == [] {
      NothingLeft(Bits(c, 32));
    } else {
      var rest := MessageBits(data[1..]);
      TakeByte(Bits(c, 32), data[0], rest);
      WideBits(data[0]);
      BitsOfSum(c, Wide(data[0]), 32);
      LeftSteps(Sum(c, Wide(data[0])), 8, rest);
      ByteStepIsEight(c, data[0]);
      hide Left;
      FeedIsDivision(ByteStep(c, data[0]), data[1..]);
      FeedFromFront(c, data);
    }
  }

  lemma ByteStepIsEight(c: bv32, b: bv8)
    ensures ByteStep(c, b) == BitSteps(Sum(c, Wide(b)), 8)
  {
    hide BitSteps;
  }

  lemma NothingLeft(r: seq<bool>)
    requires |r| == 32
    ensures Left(r, []) == r
  {
    assert Minus([] + Zeros(32), r) == r;
  }

  lemma OnesAreOnes()
    ensures Bits(0xFFFF_FFFF, 32) == Ones(32)
  {
    var c: bv32 := 0xFFFF_FFFF;
    LowByteFirst(c, 24);
    LowByteFirst(Eighth(c), 16);
    LowByteFirst(Eighth(Eighth(c)), 8);
    LowByteFirst(Eighth(Eighth(Eighth(c))), 0);
    hide Bits;
    var ones := [true, true, true, true, true, true, true, true];
    assert Low(c) == ones && Low(Eighth(c)) == ones && Low(Eighth(Eighth(c))) == ones
        && Low(Eighth(Eighth(Eighth(c)))) == ones;
  }

  // The CRC of every message is the checksum that the standard defines, its
  // highest coefficient in the low bit.
  lemma CrcIsRemainder(data: seq<bv8>)
    ensures Bits(Crc(data), 32) == Checksum(data)
  {
    hide Bits, Feed, Remainder, Sum;
    OnesAreOnes();
    FeedIsDivision(0xFFFF_FFFF, data);
    BitsOfSum(Feed(0xFFFF_FFFF, data), 0xFFFF_FFFF, 32);
  }
}
