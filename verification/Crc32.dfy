// The bitwise CRC-32 over the reflected polynomial of section 8.1.1.6.2 of
// ITU-T V.42.
module Crc32 {

  const POLYNOMIAL: bv32 := 0xEDB88320
  const ONES: bv32 := 0xFFFF_FFFF

  // One round of the inner loop.
  function BitStep(c: bv32): bv32 {
    if c & 1 == 1 then (c >> 1) ^ POLYNOMIAL else c >> 1
  }

  function BitSteps(c: bv32, n: nat): bv32 {
    if n == 0 then c else BitStep(BitSteps(c, n - 1))
  }

  // Addition of words over the two-element field, and a byte as a word. They
  // have names so that proofs about many rounds can leave their bits alone.
  function Sum(c: bv32, d: bv32): bv32 {
    c ^ d
  }

  function Wide(b: bv8): bv32 {
    b as bv32
  }

  function ByteStep(c: bv32, b: bv8): bv32 {
    BitSteps(Sum(c, Wide(b)), 8)
  }

  // The register after a run of bytes.
  function Feed(c: bv32, data: seq<bv8>): bv32 {
    if data == [] then c else ByteStep(Feed(c, data[..|data| - 1]), data[|data| - 1])
  }

  function Crc(data: seq<bv8>): bv32 {
    Sum(Feed(ONES, data), ONES)
  }

  method Crc32(data: array<bv8>, size: nat) returns (crc: bv32)
    requires size <= data.Length && size < 0x1_0000
    ensures crc == Crc(data[..size])
  {
    crc := ONES;
    for i := 0 to size
      invariant crc == Feed(ONES, data[..i])
    {
      assert data[..i + 1][..i] == data[..i];
      crc := Rounds(crc, data[i]);
    }
    NotIsSum(crc);
    crc := !crc;
  }

  // The body of the outer loop.
  method Rounds(register: bv32, byte: bv8) returns (crc: bv32)
    ensures crc == ByteStep(register, byte)
  {
    crc := register ^ byte as bv32;
    ghost var start := crc;
    for j := 0 to 8
      invariant crc == BitSteps(start, j)
    {
      crc := Round(crc);
    }
  }

  method Round(register: bv32) returns (crc: bv32)
    ensures crc == BitStep(register)
  {
    crc := register;
    if crc & 1 == 1 {
      crc := (crc >> 1) ^ POLYNOMIAL;
    } else {
      crc := crc >> 1;
    }
  }

  // ------------------------------------------- facts about 32-bit words

  lemma NotIsSum(c: bv32)
    ensures !c == Sum(c, ONES)
  {
  }

  lemma SumCommutes(a: bv32, b: bv32)
    ensures Sum(a, b) == Sum(b, a)
  {
  }

  lemma SumAssociates(a: bv32, b: bv32, c: bv32)
    ensures Sum(a, Sum(b, c)) == Sum(Sum(a, b), c)
  {
  }

  lemma SumSwap(a: bv32, b: bv32, c: bv32, d: bv32)
    ensures Sum(Sum(a, b), Sum(c, d)) == Sum(Sum(a, c), Sum(b, d))
  {
    hide Sum;
    SumAssociates(Sum(a, b), c, d);
    SumAssociates(a, b, c);
    SumCommutes(b, c);
    SumAssociates(a, c, b);
    SumAssociates(Sum(a, c), b, d);
  }

  lemma SumUnit(a: bv32)
    ensures Sum(a, a) == 0 && Sum(a, 0) == a == Sum(0, a)
  {
  }

  // Words under addition are a commutative group in which all are their own
  // opposites.
  lemma SumGroup(a: bv32, b: bv32, c: bv32, d: bv32)
    ensures Sum(Sum(a, b), Sum(c, d)) == Sum(Sum(a, c), Sum(b, d))
    ensures Sum(a, Sum(b, c)) == Sum(Sum(a, b), c) == Sum(Sum(a, c), b)
    ensures Sum(a, a) == 0 && Sum(a, 0) == a == Sum(0, a)
  {
    hide Sum;
    SumSwap(a, b, c, d);
    SumAssociates(a, b, c);
    SumAssociates(a, c, b);
    SumCommutes(b, c);
    SumUnit(a);
  }

  lemma SumCancel(c: bv32, d: bv32, b: bv32)
    requires Sum(c, b) == Sum(d, b)
    ensures c == d
  {
  }

  lemma SumWidens(x: bv8, y: bv8)
    ensures Wide(x ^ y) == Sum(Wide(x), Wide(y))
  {
  }

  lemma XorByteZero(x: bv8, y: bv8)
    requires x ^ y == 0
    ensures x == y
  {
  }

  lemma UnstepOdd(c: bv32)
    requires c & 0x8000_0000 != 0
    ensures (((c ^ 0xEDB88320) << 1) | 1) & 1 == 1
    ensures ((((c ^ 0xEDB88320) << 1) | 1) >> 1) ^ 0xEDB88320 == c
  {
  }

  lemma UnstepEven(c: bv32)
    requires c & 0x8000_0000 == 0
    ensures (c << 1) & 1 == 0 && (c << 1) >> 1 == c
  {
  }

  lemma StepOdd(c: bv32)
    requires c & 1 == 1
    ensures ((c >> 1) ^ 0xEDB88320) & 0x8000_0000 != 0
    ensures ((((c >> 1) ^ 0xEDB88320) ^ 0xEDB88320) << 1) | 1 == c
  {
  }

  lemma StepEven(c: bv32)
    requires c & 1 != 1
    ensures (c >> 1) & 0x8000_0000 == 0 && (c >> 1) << 1 == c
  {
  }

  lemma LowAndHigh(c: bv32, b: bv8)
    ensures Sum(Sum(c, Wide(b)) & 0xff, Sum(c, Wide(b)) & 0xffff_ff00) == Sum(c, Wide(b))
    ensures (Sum(c, Wide(b)) & 0xffff_ff00) & 0xff == 0
    ensures (Sum(c, Wide(b)) & 0xffff_ff00) >> 8 == c >> 8
  {
  }

  lemma ByteFits(b: bv8)
    ensures (b as bv32) & 0xff == b as bv32
  {
  }

  lemma ShiftedByte(x: bv32)
    requires x & 0xff == x
    ensures (x << 8) & 0xff == 0 && (x << 8) >> 8 == x
    ensures (x << 16) & 0xff == 0 && (x << 16) >> 8 == x << 8
    ensures (x << 24) & 0xff == 0 && (x << 24) >> 8 == x << 16
  {
  }

  // ------------------------------------------------------------- one round

  function BitUnstep(c: bv32): bv32 {
    if c & 0x8000_0000 != 0 then ((c ^ POLYNOMIAL) << 1) | 1 else c << 1
  }

  // Every round is a bijection on register values.
  lemma StepUndone(c: bv32)
    ensures BitUnstep(BitStep(c)) == c
  {
    if c & 1 == 1 { StepOdd(c); } else { StepEven(c); }
  }

  lemma UnstepUndone(c: bv32)
    ensures BitStep(BitUnstep(c)) == c
  {
    if c & 0x8000_0000 != 0 { UnstepOdd(c); } else { UnstepEven(c); }
  }

  lemma BitStepBijective(c: bv32)
    ensures BitUnstep(BitStep(c)) == c
    ensures BitStep(BitUnstep(c)) == c
  {
    hide BitStep, BitUnstep;
    StepUndone(c);
    UnstepUndone(c);
  }

  lemma EvenStep(c: bv32)
    requires c & 1 != 1
    ensures BitStep(c) == c >> 1
  {
  }

  // One round is linear, by the low bits of its arguments.
  lemma OddAndOdd(c: bv32, d: bv32)
    requires c & 1 == 1 && d & 1 == 1
    ensures BitStep(Sum(c, d)) == Sum(BitStep(c), BitStep(d))
  {
  }

  lemma EvenAndOdd(c: bv32, d: bv32)
    requires c & 1 != 1 && d & 1 == 1
    ensures BitStep(Sum(c, d)) == Sum(BitStep(c), BitStep(d))
  {
  }

  lemma EvenAndEven(c: bv32, d: bv32)
    requires c & 1 != 1 && d & 1 != 1
    ensures BitStep(Sum(c, d)) == Sum(BitStep(c), BitStep(d))
  {
  }

  // Any number of rounds is linear.
  lemma {:induction false} BitStepsLinear(c: bv32, d: bv32, n: nat)
    ensures BitSteps(Sum(c, d), n) == Sum(BitSteps(c, n), BitSteps(d, n))
  {
    hide BitStep, Sum;
    if n == 0 {
    } else {
      BitStepsLinear(c, d, n - 1);
      var x, y := BitSteps(c, n - 1), BitSteps(d, n - 1);
      if x & 1 == 1 && y & 1 == 1 {
        OddAndOdd(x, y);
      } else if y & 1 == 1 {
        EvenAndOdd(x, y);
      } else if x & 1 == 1 {
        EvenAndOdd(y, x);
        SumCommutes(x, y);
        SumCommutes(BitStep(x), BitStep(y));
      } else {
        EvenAndEven(x, y);
      }
    }
  }

  lemma {:induction false} BitStepsInjective(c: bv32, d: bv32, n: nat)
    requires BitSteps(c, n) == BitSteps(d, n)
    ensures c == d
  {
    hide BitStep, BitUnstep;
    if n == 0 {
    } else {
      BitStepBijective(BitSteps(c, n - 1));
      BitStepBijective(BitSteps(d, n - 1));
      BitStepsInjective(c, d, n - 1);
    }
  }

  lemma {:induction false} BitStepsAdd(c: bv32, m: nat, n: nat)
    ensures BitSteps(c, m + n) == BitSteps(BitSteps(c, m), n)
  {
    hide BitStep;
    if n == 0 {
    } else {
      BitStepsAdd(c, m, n - 1);
    }
  }

  lemma {:induction false} BitStepsZero(n: nat)
    ensures BitSteps(0, n) == 0
  {
    if n == 0 {
    } else {
      BitStepsZero(n - 1);
    }
  }

  function Half(c: bv32): bv32 {
    c >> 1
  }

  lemma MaskedLow(c: bv32, m: bv32)
    requires c & ((m << 1) | 1) == 0
    ensures c & 1 == 0
  {
  }

  lemma MaskedHigh(c: bv32, m: bv32)
    requires c & ((m << 1) | 1) == 0
    ensures (c >> 1) & m == 0
  {
  }

  lemma HalfStep(c: bv32, m: bv32)
    requires c & ((m << 1) | 1) == 0
    ensures BitStep(c) == Half(c) && Half(c) & m == 0
  {
    hide BitStep;
    MaskedLow(c, m);
    MaskedHigh(c, m);
    ZeroIsEven(c);
    EvenStep(c);
  }

  lemma ZeroIsEven(c: bv32)
    requires c & 1 == 0
    ensures c & 1 != 1
  {
  }

  lemma HalvedEightTimes(c: bv32)
    ensures Half(Half(Half(Half(Half(Half(Half(Half(c)))))))) == c >> 8
  {
  }

  // Eight rounds only shift while the low byte is clear.
  lemma HighBytesShift(c: bv32)
    requires c & 0xff == 0
    ensures BitSteps(c, 8) == c >> 8
  {
    hide BitStep, Half;
    var c1 := Half(c); var c2 := Half(c1); var c3 := Half(c2); var c4 := Half(c3);
    var c5 := Half(c4); var c6 := Half(c5); var c7 := Half(c6);
    HalfStep(c, 0x7f); HalfStep(c1, 0x3f); HalfStep(c2, 0x1f); HalfStep(c3, 0xf);
    HalfStep(c4, 0x7); HalfStep(c5, 0x3); HalfStep(c6, 0x1); HalfStep(c7, 0x0);
    HalvedEightTimes(c);
    EightSteps(c);
  }

  lemma EightSteps(c: bv32)
    ensures BitSteps(c, 8)
         == BitStep(BitStep(BitStep(BitStep(BitStep(BitStep(BitStep(BitStep(c))))))))
  {
    hide BitStep;
    assert BitSteps(c, 2) == BitStep(BitStep(c)) by { assert BitSteps(c, 1) == BitStep(c); }
    assert BitSteps(c, 4) == BitStep(BitStep(BitSteps(c, 2))) by { assert BitSteps(c, 3) == BitStep(BitSteps(c, 2)); }
    assert BitSteps(c, 6) == BitStep(BitStep(BitSteps(c, 4))) by { assert BitSteps(c, 5) == BitStep(BitSteps(c, 4)); }
    assert BitSteps(c, 7) == BitStep(BitSteps(c, 6));
  }

  // ---------------------------------------------------------- table driven

  // The table of section 8 of RFC 1952, as it builds it: eight turns for each
  // entry.
  function TableTurns(n: bv32, turns: nat): bv32 {
    if turns == 0 then n
    else
      var c := TableTurns(n, turns - 1);
      if c & 1 != 0 then 0xedb88320 ^ (c >> 1) else c >> 1
  }

  function TableEntry(n: bv32): bv32 {
    TableTurns(n, 8)
  }

  lemma {:induction false} TurnsAreSteps(n: bv32, turns: nat)
    ensures TableTurns(n, turns) == BitSteps(n, turns)
  {
    hide BitStep;
    if turns == 0 {
    } else {
      TurnsAreSteps(n, turns - 1);
      TurnIsStep(BitSteps(n, turns - 1));
    }
  }

  lemma TurnIsStep(c: bv32)
    ensures BitStep(c) == if c & 1 != 0 then 0xedb88320 ^ (c >> 1) else c >> 1
  {
  }

  // The update step of section 8 of RFC 1952.
  function TableUpdate(c: bv32, b: bv8): bv32 {
    Sum(TableEntry(Sum(c, Wide(b)) & 0xff), c >> 8)
  }

  function TableFeed(c: bv32, data: seq<bv8>): bv32
    decreases |data|
  {
    if data == [] then c else TableFeed(TableUpdate(c, data[0]), data[1..])
  }

  lemma ByteStepIsTableUpdate(c: bv32, b: bv8)
    ensures ByteStep(c, b) == TableUpdate(c, b)
  {
    hide BitStep, Sum, Wide, TableTurns;
    LowAndHigh(c, b);
    var low, high := Sum(c, Wide(b)) & 0xff, Sum(c, Wide(b)) & 0xffff_ff00;
    TurnsAreSteps(low, 8);
    BitStepsLinear(low, high, 8);
    HighBytesShift(high);
  }

  lemma {:induction false} FeedFromFront(c: bv32, data: seq<bv8>)
    requires data != []
    ensures Feed(c, data) == Feed(ByteStep(c, data[0]), data[1..])
    decreases |data|
  {
    hide ByteStep;
    var n := |data| - 1;
    if n > 0 {
      FeedFromFront(c, data[..n]);
      assert data[..n][1..] == data[1..][..n - 1] && data[1..][n - 1] == data[n];
    } else {
      assert data[..0] == [] && data[1..] == [];
    }
  }

  lemma {:induction false} FeedIsTableFeed(c: bv32, data: seq<bv8>)
    ensures Feed(c, data) == TableFeed(c, data)
    decreases |data|
  {
    hide ByteStep, TableUpdate;
    if data == [] {
    } else {
      FeedFromFront(c, data);
      ByteStepIsTableUpdate(c, data[0]);
      FeedIsTableFeed(ByteStep(c, data[0]), data[1..]);
    }
  }

  // The bitwise loop computes the CRC of section 8 of RFC 1952.
  lemma CrcIsTableDriven(data: seq<bv8>)
    ensures Crc(data) == TableFeed(0xffffffff, data) ^ 0xffffffff
  {
    hide ByteStep, TableUpdate;
    FeedIsTableFeed(ONES, data);
  }

  // ---------------------------------------------------------------- affine

  function Xor(a: seq<bv8>, b: seq<bv8>): (r: seq<bv8>)
    requires |a| == |b|
    ensures |r| == |a| && forall i | 0 <= i < |r| :: r[i] == a[i] ^ b[i]
  {
    seq(|a|, i requires 0 <= i < |a| => a[i] ^ b[i])
  }

  lemma ByteStepLinear(c: bv32, d: bv32, x: bv8, y: bv8)
    ensures ByteStep(Sum(c, d), x ^ y) == Sum(ByteStep(c, x), ByteStep(d, y))
  {
    hide BitSteps, Sum, Wide;
    SumWidens(x, y);
    SumGroup(c, d, Wide(x), Wide(y));
    BitStepsLinear(Sum(c, Wide(x)), Sum(d, Wide(y)), 8);
  }

  lemma {:induction false} FeedLinear(c: bv32, d: bv32, a: seq<bv8>, b: seq<bv8>)
    requires |a| == |b|
    ensures Feed(Sum(c, d), Xor(a, b)) == Sum(Feed(c, a), Feed(d, b))
    decreases |a|
  {
    hide ByteStep, Sum;
    if a == [] {
    } else {
      var n := |a| - 1;
      FeedLinear(c, d, a[..n], b[..n]);
      assert Xor(a, b)[..n] == Xor(a[..n], b[..n]);
      ByteStepLinear(Feed(c, a[..n]), Feed(d, b[..n]), a[n], b[n]);
    }
  }

  // The CRC of a bytewise sum of three messages is the sum of their CRCs.
  lemma CrcAffine(a: seq<bv8>, b: seq<bv8>, c: seq<bv8>)
    requires |a| == |b| == |c|
    ensures Crc(Xor(Xor(a, b), c)) == Sum(Sum(Crc(a), Crc(b)), Crc(c))
  {
    hide Feed, Sum, Xor;
    FeedLinear(ONES, ONES, a, b);
    FeedLinear(Sum(ONES, ONES), ONES, Xor(a, b), c);
    SumGroup(ONES, ONES, ONES, ONES);
    var x, y, z := Feed(ONES, a), Feed(ONES, b), Feed(ONES, c);
    SumGroup(x, ONES, y, ONES);
    SumGroup(Sum(x, y), 0, 0, 0);
    SumGroup(Sum(x, y), z, ONES, 0);
  }

  // ------------------------------------------------------- error detection

  // A byte in place k of a word.
  function Placed(b: bv8, k: nat): bv32
    requires k < 4
  {
    if k == 0 then Wide(b) else if k == 1 then Wide(b) << 8
    else if k == 2 then Wide(b) << 16 else Wide(b) << 24
  }

  // Up to four bytes as one word, the first byte lowest.
  function WordOf(w: seq<bv8>): bv32
    requires |w| <= 4
  {
    if w == [] then 0 else Sum(WordOf(w[..|w| - 1]), Placed(w[|w| - 1], |w| - 1))
  }

  lemma PlacedFirst(b: bv8)
    ensures Placed(b, 0) == Wide(b)
  {
  }

  lemma PlacedDown(b: bv8, k: nat)
    requires 0 < k < 4
    ensures Placed(b, k) & 0xff == 0 && Placed(b, k) >> 8 == Placed(b, k - 1)
  {
    ByteFits(b);
    ShiftedByte(b as bv32);
  }

  lemma {:induction false} LateByte(b: bv8, k: nat)
    requires k < 4
    ensures BitSteps(Placed(b, k), 8 * k) == Wide(b)
  {
    hide BitStep, Placed, Wide;
    if k == 0 {
      PlacedFirst(b);
    } else {
      ByteDown(b, k);
      LateByte(b, k - 1);
      BitStepsAdd(Placed(b, k), 8, 8 * (k - 1));
    }
  }

  lemma ByteDown(b: bv8, k: nat)
    requires 0 < k < 4
    ensures BitSteps(Placed(b, k), 8) == Placed(b, k - 1)
  {
    hide BitSteps, Placed;
    PlacedDown(b, k);
    HighBytesShift(Placed(b, k));
  }

  // Up to four bytes act on the register as one word added to it, followed by
  // eight rounds for each byte.
  lemma {:induction false} WindowIsOneWord(c: bv32, w: seq<bv8>)
    requires |w| <= 4
    ensures Feed(c, w) == BitSteps(Sum(c, WordOf(w)), 8 * |w|)
    decreases |w|
  {
    hide BitStep, Sum, Wide, Placed;
    if w == [] {
      SumGroup(c, 0, 0, 0);
    } else {
      var n := |w| - 1;
      var front, late := WordOf(w[..n]), Placed(w[n], n);
      WindowIsOneWord(c, w[..n]);
      LateByte(w[n], n);
      BitStepsLinear(Sum(c, front), late, 8 * n);
      BitStepsAdd(Sum(Sum(c, front), late), 8 * n, 8);
      SumGroup(c, front, late, 0);
    }
  }

  lemma WordOfFour(a: bv8, b: bv8, c: bv8, d: bv8)
    ensures WordOf([a, b, c, d]) == Sum(Sum(Sum(Placed(a, 0), Placed(b, 1)), Placed(c, 2)), Placed(d, 3))
  {
    hide Sum, Placed;
    assert [a, b, c, d][..3] == [a, b, c] && [a, b, c][..2] == [a, b] && [a, b][..1] == [a] && [a][..0] == [];
    SumGroup(Placed(a, 0), 0, 0, 0);
    assert WordOf([a]) == Placed(a, 0);
    assert WordOf([a, b]) == Sum(Placed(a, 0), Placed(b, 1));
  }

  lemma BytesOfZero(a: bv8, b: bv8, c: bv8, d: bv8)
    requires Sum(Sum(Sum(Placed(a, 0), Placed(b, 1)), Placed(c, 2)), Placed(d, 3)) == 0
    ensures a == 0 && b == 0 && c == 0 && d == 0
  {
  }

  lemma PlacedZero(k: nat)
    requires k < 4
    ensures Placed(0, k) == 0
  {
  }

  // Zero bytes behind the window leave the word as it is.
  lemma {:induction false} PadTo(w: seq<bv8>, v: seq<bv8>, k: nat)
    requires |w| <= k <= 4 && |v| == 4
    requires forall i | 0 <= i < 4 :: v[i] == if i < |w| then w[i] else 0
    ensures WordOf(v[..k]) == WordOf(w)
  {
    hide Sum, Placed;
    if k == |w| {
      assert v[..k] == w;
    } else {
      PadTo(w, v, k - 1);
      assert v[..k][..k - 1] == v[..k - 1];
      PlacedZero(k - 1);
      SumGroup(WordOf(w), 0, 0, 0);
    }
  }

  // Only zero bytes make the zero word.
  lemma WordZero(w: seq<bv8>)
    requires |w| <= 4 && WordOf(w) == 0
    ensures forall i | 0 <= i < |w| :: w[i] == 0
  {
    hide Sum, Placed;
    var v: seq<bv8> := w + seq(4 - |w|, _ => 0);
    PadTo(w, v, 4);
    assert v[..4] == [v[0], v[1], v[2], v[3]];
    WordOfFour(v[0], v[1], v[2], v[3]);
    BytesOfZero(v[0], v[1], v[2], v[3]);
  }

  lemma {:induction false} FeedConcat(c: bv32, a: seq<bv8>, b: seq<bv8>)
    ensures Feed(c, a + b) == Feed(Feed(c, a), b)
    decreases |b|
  {
    hide ByteStep;
    if b == [] {
      assert a + b == a;
    } else {
      var n := |b| - 1;
      FeedConcat(c, a, b[..n]);
      assert (a + b)[..|a + b| - 1] == a + b[..n];
    }
  }

  lemma {:induction false} FeedInjective(c: bv32, d: bv32, data: seq<bv8>)
    requires Feed(c, data) == Feed(d, data)
    ensures c == d
    decreases |data|
  {
    hide BitStep, Sum, Wide;
    if data == [] {
    } else {
      var n := |data| - 1;
      var p, q, b := Feed(c, data[..n]), Feed(d, data[..n]), Wide(data[n]);
      BitStepsInjective(Sum(p, b), Sum(q, b), 8);
      SumCancel(p, q, b);
      FeedInjective(c, d, data[..n]);
    }
  }

  // A window whose difference is not all zero leaves a difference behind.
  lemma WindowSeparates(c: bv32, w: seq<bv8>, v: seq<bv8>)
    requires |w| == |v| <= 4
    requires Feed(c, w) == Feed(c, v)
    ensures w == v
  {
    hide BitStep, Sum, ByteStep, Xor;
    var x := Xor(w, v);
    FeedLinear(c, c, w, v);
    SumGroup(c, 0, 0, 0);
    SumGroup(Feed(c, w), 0, 0, 0);
    WindowIsOneWord(0, x);
    BitStepsZero(8 * |w|);
    SumGroup(WordOf(x), 0, 0, 0);
    BitStepsInjective(WordOf(x), 0, 8 * |w|);
    WordZero(x);
    forall i | 0 <= i < |w| ensures w[i] == v[i] {
      assert x[i] == 0;
      XorByteZero(w[i], v[i]);
    }
  }

  // Error detection: two messages of one length that differ only inside a
  // window of at most four consecutive bytes never have the same CRC.
  lemma BurstDetected(before: seq<bv8>, w: seq<bv8>, v: seq<bv8>, after: seq<bv8>)
    requires |w| == |v| <= 4 && w != v
    ensures Crc(before + w + after) != Crc(before + v + after)
  {
    hide Sum, ByteStep;
    var c := Feed(ONES, before);
    FeedConcat(ONES, before, w); FeedConcat(ONES, before + w, after);
    FeedConcat(ONES, before, v); FeedConcat(ONES, before + v, after);
    if Crc(before + w + after) == Crc(before + v + after) {
      SumCancel(Feed(Feed(c, w), after), Feed(Feed(c, v), after), ONES);
      FeedInjective(Feed(c, w), Feed(c, v), after);
      WindowSeparates(c, w, v);
      assert false;
    }
  }
}
