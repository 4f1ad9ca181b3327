/** The table-driven CRC-32 of the ZIP writer against the bit-by-bit register of
    section 8 of RFC 1952. */
module Crc {
  type Byte = x: int | 0 <= x < 256

  const POLYNOMIAL: bv32 := 0xEDB88320

  function Xor(a: bv32, b: bv32): bv32 { a ^ b }

  function Half(c: bv32): bv32 { c >> 1 }

  function Word(b: Byte): bv32 { b as bv32 }

  function Low8(c: bv32): bv32 { c & 0xff }

  function High24(c: bv32): bv32 { c & 0xffffff00 }

  function Shift8(c: bv32): bv32 { c >> 8 }

  function Low1(c: bv32): bv32 { c & 1 }

  /** The polynomial, if a one leaves the register. */
  function Tap(c: bv32): bv32 { if c & 1 == 1 then POLYNOMIAL else 0 }

  // ---- Bit by bit ----

  /** One message bit, in the low place of `m`, enters the register. */
  function Feed(c: bv32, m: bv32): bv32 { Xor(Half(c), Tap(Xor(c, m))) }

  /** The low `n` bits of `m` enter, lowest first. */
  function FeedBits(c: bv32, m: bv32, n: nat): bv32
    decreases n
  {
    if n == 0 then c else FeedBits(Feed(c, Low1(m)), Half(m), n - 1)
  }

  function FeedBytes(c: bv32, bytes: seq<Byte>): bv32
    decreases |bytes|
  {
    if bytes == [] then c else FeedBytes(FeedBits(c, Word(bytes[0]), 8), bytes[1..])
  }

  /** CRC-32 of some bytes after those whose CRC is `previous`. */
  function Crc32(bytes: seq<Byte>, previous: bv32): bv32 {
    Xor(FeedBytes(Xor(previous, 0xffffffff), bytes), 0xffffffff)
  }

  // ---- The table ----

  function Step(c: bv32): bv32 { Xor(Half(c), Tap(c)) }

  function Steps(c: bv32, n: nat): bv32
    decreases n
  {
    if n == 0 then c else Steps(Step(c), n - 1)
  }

  lemma XorHalf(a: bv32, b: bv32)
    ensures Half(Xor(a, b)) == Xor(Half(a), Half(b))
  {
  }

  lemma LowBit(a: bv32, b: bv32)
    ensures (a ^ b) & 1 == (a & 1) ^ (b & 1) && (a & 1 == 0 || a & 1 == 1)
  {
  }

  lemma XorTap(a: bv32, b: bv32)
    ensures Tap(Xor(a, b)) == Xor(Tap(a), Tap(b))
  {
    LowBit(a, b);
    LowBit(b, a);
  }

  lemma XorAssociates(a: bv32, b: bv32, c: bv32)
    ensures Xor(Xor(a, b), c) == Xor(a, Xor(b, c))
  {
  }

  lemma XorCommutes(a: bv32, b: bv32)
    ensures Xor(a, b) == Xor(b, a)
  {
  }

  lemma XorSwap(a: bv32, b: bv32, c: bv32)
    ensures Xor(Xor(a, b), c) == Xor(Xor(a, c), b)
  {
    hide Xor;
    XorAssociates(a, b, c);
    XorAssociates(a, c, b);
    XorCommutes(b, c);
  }

  lemma XorShuffle(a: bv32, b: bv32, c: bv32, d: bv32)
    ensures Xor(Xor(a, b), Xor(c, d)) == Xor(Xor(a, c), Xor(b, d))
  {
    hide Xor;
    XorAssociates(Xor(a, b), c, d);
    XorSwap(a, b, c);
    XorAssociates(Xor(a, c), b, d);
  }

  lemma StepLinear(a: bv32, b: bv32)
    ensures Step(Xor(a, b)) == Xor(Step(a), Step(b))
  {
    hide Xor, Half, Tap;
    XorHalf(a, b);
    XorTap(a, b);
    XorShuffle(Half(a), Half(b), Tap(a), Tap(b));
  }

  lemma {:induction false} StepsLinear(a: bv32, b: bv32, n: nat)
    ensures Steps(Xor(a, b), n) == Xor(Steps(a, n), Steps(b, n))
    decreases n
  {
    hide Xor, Step;
    if n > 0 {
      StepLinear(a, b);
      StepsLinear(Step(a), Step(b), n - 1);
    }
  }

  function Halves(c: bv32, n: nat): bv32
    decreases n
  {
    if n == 0 then c else Halves(Half(c), n - 1)
  }

  predicate LowZero(c: bv32, n: nat)
    decreases n
  {
    n == 0 || (c & 1 == 0 && LowZero(Half(c), n - 1))
  }

  lemma ZeroStep(c: bv32)
    requires c & 1 == 0
    ensures Step(c) == Half(c)
  {
  }

  /** Zeros leaving the register only shift it. */
  lemma {:induction false} ZerosShift(c: bv32, n: nat)
    requires LowZero(c, n)
    ensures Steps(c, n) == Halves(c, n)
    decreases n
  {
    hide Step, Half;
    if n > 0 {
      ZeroStep(c);
      ZerosShift(Half(c), n - 1);
    }
  }

  lemma HighPart(c: bv32)
    ensures LowZero(High24(c), 8) && Halves(High24(c), 8) == Shift8(c)
  {
    hide Half, High24, Shift8, Halves;
    var x := High24(c);
    LowBits(c, x);
    HighShift(c, x);
    var y := Half(Half(Half(Half(x))));
    assert LowZero(Half(Half(y)), 2) by { assert LowZero(Half(Half(Half(y))), 1) by { assert LowZero(Half(Half(Half(Half(y)))), 0); } }
    assert LowZero(Half(y), 3);
    assert LowZero(y, 4);
    assert LowZero(Half(Half(Half(x))), 5);
    assert LowZero(Half(Half(x)), 6);
    assert LowZero(Half(x), 7);
    HalvesEight(x);
  }

  lemma LowBits(c: bv32, x: bv32)
    requires x == High24(c)
    ensures x & 1 == 0 && Half(x) & 1 == 0 && Half(Half(x)) & 1 == 0 && Half(Half(Half(x))) & 1 == 0
    ensures var y := Half(Half(Half(Half(x))));
      y & 1 == 0 && Half(y) & 1 == 0 && Half(Half(y)) & 1 == 0 && Half(Half(Half(y))) & 1 == 0
  {
  }

  function Shift2(c: bv32): bv32 { c >> 2 }

  function Shift4(c: bv32): bv32 { c >> 4 }

  lemma TwoHalves(c: bv32)
    ensures Half(Half(c)) == Shift2(c)
  {
  }

  lemma TwoTwos(c: bv32)
    ensures Shift2(Shift2(c)) == Shift4(c)
  {
  }

  lemma TwoFours(c: bv32)
    ensures Shift4(Shift4(High24(c))) == Shift8(c)
  {
  }

  lemma HighShift(c: bv32, x: bv32)
    requires x == High24(c)
    ensures Half(Half(Half(Half(Half(Half(Half(Half(x)))))))) == Shift8(c)
  {
    hide *;
    TwoHalves(x);
    TwoHalves(Shift2(x));
    TwoTwos(x);
    TwoHalves(Shift4(x));
    TwoHalves(Shift2(Shift4(x)));
    TwoTwos(Shift4(x));
    TwoFours(c);
  }

  lemma HalvesEight(x: bv32)
    ensures Halves(x, 8) == Half(Half(Half(Half(Half(Half(Half(Half(x))))))))
  {
    hide Half;
    var y := Half(Half(Half(Half(x))));
    assert Halves(x, 8) == Halves(Half(x), 7) == Halves(Half(Half(x)), 6) == Halves(Half(Half(Half(x))), 5) == Halves(y, 4);
    assert Halves(y, 4) == Halves(Half(y), 3) == Halves(Half(Half(y)), 2) == Halves(Half(Half(Half(y))), 1);
    assert Halves(Half(Half(Half(y))), 1) == Halves(Half(Half(Half(Half(y)))), 0);
  }

  lemma SplitByte(c: bv32)
    ensures c == Xor(Low8(c), High24(c))
  {
  }

  /** Eight steps of the whole register: the table entry of its low byte, and the rest shifted. */
  lemma EightSteps(c: bv32)
    ensures Steps(c, 8) == Xor(Steps(Low8(c), 8), Shift8(c))
  {
    hide *;
    SplitByte(c);
    StepsLinear(Low8(c), High24(c), 8);
    HighPart(c);
    ZerosShift(High24(c), 8);
  }

  lemma TapLow(c: bv32, m: bv32)
    ensures Tap(Xor(c, m)) == Tap(Xor(c, Low1(m)))
  {
    LowBit(c, m);
    LowBit(c, m & 1);
  }

  lemma FeedIsStep(c: bv32, m: bv32)
    ensures Step(Xor(c, m)) == Xor(Feed(c, Low1(m)), Half(m))
  {
    hide Xor, Half, Tap, Low1;
    XorHalf(c, m);
    TapLow(c, m);
    XorSwap(Half(c), Half(m), Tap(Xor(c, m)));
  }

  /** Feeding the bits of `m` one by one is xoring them in at once and stepping. */
  lemma {:induction false} FeedAtOnce(c: bv32, m: bv32, n: nat)
    requires Halves(m, n) == 0
    ensures FeedBits(c, m, n) == Steps(Xor(c, m), n)
    decreases n
  {
    hide Xor, Step, Half, Feed, Low1;
    if n > 0 {
      FeedIsStep(c, m);
      FeedAtOnce(Feed(c, Low1(m)), Half(m), n - 1);
    } else {
      XorZero(c);
    }
  }

  lemma XorZero(c: bv32)
    ensures Xor(c, 0) == c
  {
  }

  lemma WordSmall(b: Byte)
    ensures Word(b) < 256
  {
  }

  lemma EightHalves(x: bv32)
    requires x < 256
    ensures Half(Half(Half(Half(Half(Half(Half(Half(x)))))))) == 0
  {
  }

  lemma ShiftedByte(c: bv32, x: bv32)
    requires x < 256
    ensures Shift8(Xor(c, x)) == Shift8(c)
  {
  }

  lemma WordEnds(b: Byte)
    ensures Halves(Word(b), 8) == 0
  {
    hide *;
    WordSmall(b);
    HalvesEight(Word(b));
    EightHalves(Word(b));
  }

  /** The step of the loop for one byte. */
  lemma ByTable(c: bv32, b: Byte)
    ensures FeedBits(c, Word(b), 8) == Xor(Steps(Low8(Xor(c, Word(b))), 8), Shift8(c))
  {
    hide *;
    WordEnds(b);
    WordSmall(b);
    FeedAtOnce(c, Word(b), 8);
    EightSteps(Xor(c, Word(b)));
    ShiftedByte(c, Word(b));
  }

  /** Where the low byte of the register points in the table. */
  function Index(c: bv32): int { Low8(c) as int }

  lemma SmallInt(c: bv32)
    ensures 0 <= (c & 0xff) as int < 256
  {
  }

  lemma BackToWord(c: bv32)
    ensures (c as int) as bv32 == c
  {
  }

  lemma IndexIs(c: bv32)
    ensures 0 <= Index(c) < 256 && Word(Index(c)) == Low8(c)
  {
    SmallInt(c);
    BackToWord(Low8(c));
  }

  lemma EntryStep(c: bv32)
    ensures (if c & 1 == 1 then 0xEDB88320 ^ (c >> 1) else c >> 1) == Step(c)
  {
    if c & 1 == 1 {
      assert Step(c) == (c >> 1) ^ 0xEDB88320;
    } else {
      assert Step(c) == (c >> 1) ^ 0;
    }
  }

  method MakeTable() returns (table: array<bv32>)
    ensures fresh(table) && table.Length == 256
    ensures forall n | 0 <= n < 256 :: table[n] == Steps(Word(n), 8)
  {
    hide Step, Steps, Word;
    table := new bv32[256](_ => 0);
    var i := 0;
    while i < 256
      invariant 0 <= i <= 256
      invariant forall n | 0 <= n < i :: table[n] == Steps(Word(n), 8)
    {
      table[i] := MakeEntry(i);
      i := i + 1;
    }
  }

  method MakeEntry(i: Byte) returns (n: bv32)
    ensures n == Steps(Word(i), 8)
  {
    hide Step, Word;
    n := Word(i);
    var bit := 0;
    while bit < 8
      invariant 0 <= bit <= 8 && Steps(n, 8 - bit) == Steps(Word(i), 8)
    {
      EntryStep(n);
      n := if n & 1 == 1 then 0xEDB88320 ^ (n >> 1) else n >> 1;
      bit := bit + 1;
    }
  }

  /** The table-driven loop computes the bit-by-bit CRC-32, from any start value. */
  method Compute(table: array<bv32>, bytes: seq<Byte>, previous: bv32) returns (crc: bv32)
    requires table.Length == 256 && forall n | 0 <= n < 256 :: table[n] == Steps(Word(n), 8)
    ensures crc == Crc32(bytes, previous)
  {
    hide Xor, Steps, FeedBits, Index, Word, Low8, Shift8;
    crc := Xor(previous, 0xffffffff);
    var i := 0;
    while i < |bytes|
      invariant 0 <= i <= |bytes|
      invariant FeedBytes(crc, bytes[i..]) == FeedBytes(Xor(previous, 0xffffffff), bytes)
    {
      ByTable(crc, bytes[i]);
      IndexIs(Xor(crc, Word(bytes[i])));
      assert bytes[i..][1..] == bytes[i + 1..];
      crc := Xor(table[Index(Xor(crc, Word(bytes[i])))], Shift8(crc));
      i := i + 1;
    }
    crc := Xor(crc, 0xffffffff);
  }

  // ---- Streaming ----

  lemma {:induction false} FeedJoin(c: bv32, a: seq<Byte>, b: seq<Byte>)
    ensures FeedBytes(c, a + b) == FeedBytes(FeedBytes(c, a), b)
    decreases |a|
  {
    hide FeedBits;
    if a == [] {
      assert a + b == b;
    } else {
      assert (a + b)[1..] == a[1..] + b;
      FeedJoin(FeedBits(c, Word(a[0]), 8), a[1..], b);
    }
  }

  lemma XorTwice(c: bv32, m: bv32)
    ensures Xor(Xor(c, m), m) == c
  {
  }

  /** The CRC of a whole is the CRC of its end carried on from that of its start. */
  lemma Streaming(a: seq<Byte>, b: seq<Byte>, previous: bv32)
    ensures Crc32(b, Crc32(a, previous)) == Crc32(a + b, previous)
    ensures Crc32([], previous) == previous
  {
    hide Xor;
    FeedJoin(Xor(previous, 0xffffffff), a, b);
    XorTwice(FeedBytes(Xor(previous, 0xffffffff), a), 0xffffffff);
    XorTwice(previous, 0xffffffff);
  }
}
