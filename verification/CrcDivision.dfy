/** The shift register computes the remainder of the message polynomial: the CRC-32 of the standard. */
module CrcDivision {
  import opened Crc
  import opened Division

  // ----- the register as a polynomial

  function Low(c: bv32): bool { c & 1 == 1 }

  function Half(c: bv32): bv32 { c >> 1 }

  /** The lowest `n` bits of a word, the least significant first: the coefficients from x^31 down. */
  function BitsOfWord(c: bv32, n: nat): (r: seq<bool>)
    ensures |r| == n
  {
    if n == 0 then [] else [Low(c)] + BitsOfWord(Half(c), n - 1)
  }

  function Plus(p: seq<bool>, q: seq<bool>): seq<bool>
    requires |p| == |q|
  {
    seq(|p|, i requires 0 <= i < |p| => p[i] != q[i])
  }

  lemma XorHalves(c: bv32, d: bv32)
    ensures (Low(Xor(c, d)) <==> Low(c) != Low(d)) && Half(Xor(c, d)) == Xor(Half(c), Half(d))
  {
    XorParts(c, d);
    LowBit(c);
    LowBit(d);
  }

  lemma {:induction false} XorBits(c: bv32, d: bv32, n: nat)
    ensures BitsOfWord(Xor(c, d), n) == Plus(BitsOfWord(c, n), BitsOfWord(d, n))
    decreases n
  {
    hide Xor, Low, Half;
    if n > 0 {
      XorHalves(c, d);
      XorBits(Half(c), Half(d), n - 1);
    }
  }

  /** Four bits at a time. */
  lemma Nibble(c: bv32, n: nat)
    ensures BitsOfWord(c, n + 4) ==
            [c & 1 == 1, (c >> 1) & 1 == 1, (c >> 2) & 1 == 1, (c >> 3) & 1 == 1] + BitsOfWord(c >> 4, n)
  {
    FourHalves(c);
    FourBits(c, n);
    hide Low, Half, BitsOfWord;
  }

  lemma FourBits(c: bv32, n: nat)
    ensures BitsOfWord(c, n + 4) ==
            [Low(c), Low(Half(c)), Low(Half(Half(c))), Low(Half(Half(Half(c))))]
              + BitsOfWord(Half(Half(Half(Half(c)))), n)
  {
    hide Low, Half, BitsOfWord;
    var c1, c2, c3 := Half(c), Half(Half(c)), Half(Half(Half(c)));
    OneBit(c, n + 3);
    OneBit(c1, n + 2);
    OneBit(c2, n + 1);
    OneBit(c3, n);
    OneByOne(Low(c), Low(c1), Low(c2), Low(c3), BitsOfWord(Half(c3), n));
  }

  lemma OneBit(c: bv32, n: nat)
    ensures BitsOfWord(c, n + 1) == [Low(c)] + BitsOfWord(Half(c), n)
  {
    hide Low, Half;
  }

  lemma OneByOne(a: bool, b: bool, c: bool, d: bool, r: seq<bool>)
    ensures [a] + ([b] + ([c] + ([d] + r))) == [a, b, c, d] + r
  {
  }

  lemma FourHalves(c: bv32)
    ensures Low(c) == (c & 1 == 1) && Low(Half(c)) == ((c >> 1) & 1 == 1) && Low(Half(Half(c))) == ((c >> 2) & 1 == 1)
    ensures Low(Half(Half(Half(c)))) == ((c >> 3) & 1 == 1) && Half(Half(Half(Half(c)))) == c >> 4
  {
  }

  /** The generator without its leading term, from the coefficient of x^31 down. */
  function Generator(): seq<bool> { seq(32, i => 31 - i in EXPONENTS) }

  const FRONT: seq<bool> :=
    [false, false, false, false, false, true, false, false, true, true, false, false, false, false, false, true]
  const BACK: seq<bool> :=
    [false, false, false, true, true, true, false, true, true, false, true, true, false, true, true, true]

  lemma GeneratorIsListed()
    ensures Generator() == FRONT + BACK
  {
  }

  /** The constant of the code holds exactly the generator's coefficients. */
  lemma GeneratorBits()
    ensures BitsOfWord(POLYNOMIAL, 32) == Generator()
  {
    hide BitsOfWord, Generator;
    BackBits();
    FrontBits();
    GeneratorIsListed();
  }

  lemma FrontBits()
    ensures BitsOfWord(0xEDB88320, 32) == FRONT + BitsOfWord(0xEDB8, 16)
  {
    hide BitsOfWord;
    Nibble(0xEDB88320, 28);
    Nibble(0xEDB8832, 24);
    Nibble(0xEDB883, 20);
    Nibble(0xEDB88, 16);
  }

  lemma BackBits()
    ensures BitsOfWord(0xEDB8, 16) == BACK
  {
    hide BitsOfWord;
    Nibble(0xEDB8, 12);
    Nibble(0xEDB, 8);
    Nibble(0xED, 4);
    Nibble(0xE, 0);
    NoBits(0);
  }

  lemma NoBits(c: bv32)
    ensures BitsOfWord(c, 0) == []
  {
  }

  // ----- the bits above the word

  function Halves(c: bv32, n: nat): bv32 { if n == 0 then c else Halves(Half(c), n - 1) }

  lemma {:induction false} SplitBits(c: bv32, m: nat, n: nat)
    ensures BitsOfWord(c, m + n) == BitsOfWord(c, m) + BitsOfWord(Halves(c, m), n)
    decreases m
  {
    hide Low, Half;
    if m > 0 { SplitBits(Half(c), m - 1, n); }
  }

  lemma {:induction false} HalvesAdd(c: bv32, m: nat, n: nat)
    ensures Halves(c, m + n) == Halves(Halves(c, m), n)
    decreases m
  {
    hide Half;
    if m > 0 { HalvesAdd(Half(c), m - 1, n); }
  }

  lemma FourAtOnce(c: bv32)
    ensures Halves(c, 4) == c >> 4
  {
    FourHalves(c);
    hide Half;
    var c1, c2, c3 := Half(c), Half(Half(c)), Half(Half(Half(c)));
    assert Halves(c, 4) == Halves(c1, 3) && Halves(c1, 3) == Halves(c2, 2);
    assert Halves(c2, 2) == Halves(c3, 1) && Halves(c3, 1) == Halves(Half(c3), 0);
  }

  lemma EightAtOnce(c: bv32)
    ensures Halves(c, 8) == c >> 8
  {
    hide Halves;
    FourAtOnce(c);
    FourAtOnce(c >> 4);
    HalvesAdd(c, 4, 4);
    assert (c >> 4) >> 4 == c >> 8;
  }

  lemma SixteenAtOnce(c: bv32)
    ensures Halves(c, 16) == c >> 16
  {
    hide Halves;
    EightAtOnce(c);
    EightAtOnce(c >> 8);
    HalvesAdd(c, 8, 8);
    assert (c >> 8) >> 8 == c >> 16;
  }

  lemma AllGone(c: bv32)
    ensures Halves(c, 32) == 0
  {
    hide Halves;
    SixteenAtOnce(c);
    SixteenAtOnce(c >> 16);
    HalvesAdd(c, 16, 16);
    assert (c >> 16) >> 16 == 0;
  }

  lemma ShiftedBits(c: bv32)
    ensures BitsOfWord(Half(c), 32) == BitsOfWord(c, 32)[1..] + [false]
  {
    hide Half, Halves, Low, BitsOfWord;
    SplitBits(c, 32, 1);
    AllGone(c);
    ZeroBit();
    OneMoreBit(c, 32);
    assert BitsOfWord(Half(c), 32) == BitsOfWord(c, 33)[1..];
  }

  lemma OneMoreBit(c: bv32, n: nat)
    ensures BitsOfWord(c, n + 1) == [Low(c)] + BitsOfWord(Half(c), n)
  {
    hide Half, Low;
  }

  lemma ZeroBit()
    ensures BitsOfWord(0, 1) == [false]
  {
    assert !Low(0);
    assert BitsOfWord(0, 1) == [Low(0)] + BitsOfWord(Half(0), 0);
  }

  // ----- one step of the register is one step of the division

  lemma BitStepIsStep(c: bv32)
    ensures BitStep(c) == if Low(c) then Xor(Half(c), POLYNOMIAL) else Half(c)
  {
    LowBit(c);
  }

  /** The register's bits after one step: one place on, less the generator if the leading term was there. */
  function Advanced(b: seq<bool>): seq<bool>
    requires |b| == 32
  {
    seq(32, i requires 0 <= i < 32 => (i < 31 && b[i + 1]) != (b[0] && 31 - i in EXPONENTS))
  }

  lemma AdvancedParts(b: seq<bool>)
    requires |b| == 32
    ensures Advanced(b) == if b[0] then Plus(b[1..] + [false], Generator()) else b[1..] + [false]
  {
  }

  lemma BitStepBits(c: bv32)
    ensures BitsOfWord(BitStep(c), 32) == Advanced(BitsOfWord(c, 32))
  {
    hide Half, BitStep, Xor, Low, BitsOfWord, Advanced, Generator, Plus;
    BitStepIsStep(c);
    ShiftedBits(c);
    XorBits(Half(c), POLYNOMIAL, 32);
    GeneratorBits();
    AdvancedParts(BitsOfWord(c, 32));
    FirstBit(c);
  }

  lemma FirstBit(c: bv32)
    ensures BitsOfWord(c, 32)[0] == Low(c)
  {
    hide Low, Half;
  }

  lemma CancelledWord(b: seq<bool>, k: nat)
    requires |b| == 32
    ensures Cancelled(b + Zeros(k + 1)) == Advanced(b) + Zeros(k)
  {
  }

  lemma StepBits(c: bv32, k: nat)
    ensures Cancelled(BitsOfWord(c, 32) + Zeros(k + 1)) == BitsOfWord(BitStep(c), 32) + Zeros(k)
  {
    hide BitsOfWord, BitStep, Cancelled, Advanced;
    BitStepBits(c);
    CancelledWord(BitsOfWord(c, 32), k);
  }

  lemma CancelledPlus(p: seq<bool>, q: seq<bool>)
    requires |p| == |q| > 32
    ensures Cancelled(Plus(p, q)) == Plus(Cancelled(p), Cancelled(q))
  {
  }

  /** `n` steps of long division. */
  function Steps(p: seq<bool>, n: nat): (r: seq<bool>)
    requires |p| >= 32 + n
    ensures |r| == |p| - n
    decreases n
  {
    if n == 0 then p else Steps(Cancelled(p), n - 1)
  }

  lemma {:induction false} StepsPlus(p: seq<bool>, q: seq<bool>, n: nat)
    requires |p| == |q| >= 32 + n
    ensures Steps(Plus(p, q), n) == Plus(Steps(p, n), Steps(q, n))
    decreases n
  {
    if n > 0 {
      CancelledPlus(p, q);
      StepsPlus(Cancelled(p), Cancelled(q), n - 1);
    }
  }

  lemma {:induction false} StepsRegister(c: bv32, n: nat, k: nat)
    ensures Steps(BitsOfWord(c, 32) + Zeros(n + k), n) == BitsOfWord(BitSteps(c, n), 32) + Zeros(k)
    decreases n
  {
    hide BitsOfWord, BitStep;
    if n > 0 {
      StepBits(c, n + k - 1);
      StepsRegister(BitStep(c), n - 1, k);
    }
  }

  /** Leading zeros are only dropped. */
  lemma {:induction false} StepsZeros(r: seq<bool>, n: nat)
    requires |r| >= 32
    ensures Steps(Zeros(n) + r, n) == r
    decreases n
  {
    if n == 0 {
      assert Zeros(0) + r == r;
    } else {
      assert Cancelled(Zeros(n) + r) == Zeros(n - 1) + r;
      StepsZeros(r, n - 1);
    }
  }

  lemma {:induction false} RemainderOfSteps(p: seq<bool>, n: nat)
    requires |p| >= 32 + n
    ensures Remainder(p) == Remainder(Steps(p, n))
    decreases n
  {
    if n > 0 { RemainderOfSteps(Cancelled(p), n - 1); }
  }

  // ----- bytes

  /** The message bits with the register added to the first 32 coefficients. */
  function Entry(c: bv32, m: seq<bool>): (r: seq<bool>)
    ensures |r| == |m| + 32
  {
    Plus(BitsOfWord(c, 32) + Zeros(|m|), m + Zeros(32))
  }

  lemma WideHalves(b: bv8)
    ensures (Low(Wide(b)) <==> b & 1 == 1) && Half(Wide(b)) == Wide(b >> 1)
  {
  }

  lemma {:induction false} WideBits(b: bv8, n: nat)
    ensures BitsOfWord(Wide(b), n) == BitsOfByte(b, n)
    decreases n
  {
    hide Wide, Low, Half;
    if n > 0 {
      WideHalves(b);
      WideBits(b >> 1, n - 1);
    }
  }

  lemma ByteBits(b: bv8)
    ensures BitsOfWord(Wide(b), 32) == BitsOfByte(b, 8) + Zeros(24)
  {
    hide Low, Half, Halves, Wide;
    WideBits(b, 8);
    SplitBits(Wide(b), 8, 24);
    WideGone(b);
    ZeroBits(24);
  }

  lemma WideGone(b: bv8)
    ensures Halves(Wide(b), 8) == 0
  {
    hide Halves;
    FourAtOnce(Wide(b));
    FourAtOnce(Wide(b) >> 4);
    HalvesAdd(Wide(b), 4, 4);
  }

  lemma {:induction false} ZeroBits(n: nat)
    ensures BitsOfWord(0, n) == Zeros(n)
    decreases n
  {
    if n > 0 {
      assert !Low(0) && Half(0) == 0;
      ZeroBits(n - 1);
      assert Zeros(n) == [false] + Zeros(n - 1);
    }
  }

  /** Eight steps of the division take one byte of the message into the register. */
  lemma ByteEnters(c: bv32, b: bv8, m: seq<bool>)
    ensures Steps(Entry(c, BitsOfByte(b, 8) + m), 8) == Entry(ByteStep(c, b), m)
  {
    hide BitsOfWord, BitsOfByte, Steps, BitSteps, Xor, Wide;
    var x := Xor(c, Wide(b));
    var front := BitsOfWord(x, 32) + Zeros(8 + |m|);
    var rest := Zeros(8) + (m + Zeros(32));
    XorBits(c, Wide(b), 32);
    ByteBits(b);
    assert Entry(c, BitsOfByte(b, 8) + m) == Plus(front, rest);
    StepsPlus(front, rest, 8);
    StepsRegister(x, 8, |m|);
    StepsZeros(m + Zeros(32), 8);
  }

  lemma {:induction false} UpdateDivides(c: bv32, bytes: seq<bv8>)
    ensures Remainder(Entry(c, MessageBits(bytes))) == BitsOfWord(Update(c, bytes), 32)
    decreases |bytes|
  {
    hide BitsOfWord, BitsOfByte, Steps, ByteStep;
    var m := MessageBits(bytes);
    if bytes == [] {
      assert Entry(c, m) == BitsOfWord(c, 32);
    } else {
      var c1 := ByteStep(c, bytes[0]);
      ByteEnters(c, bytes[0], MessageBits(bytes[1..]));
      RemainderOfSteps(Entry(c, m), 8);
      UpdateDivides(c1, bytes[1..]);
    }
  }

  lemma OnesBits()
    ensures BitsOfWord(ONES, 32) == seq(32, i => true)
  {
    hide BitsOfWord;
    Nibble(0xFFFFFFFF, 28);
    Nibble(0xFFFFFFF, 24);
    Nibble(0xFFFFFF, 20);
    Nibble(0xFFFFF, 16);
    Nibble(0xFFFF, 12);
    Nibble(0xFFF, 8);
    Nibble(0xFF, 4);
    Nibble(0xF, 0);
    NoBits(0);
  }

  /** The code's checksum is the standard's: bit `i` of the word is the coefficient of x^(31-i) of the complemented
      remainder, for every string of bytes. */
  lemma Crc32IsRemainder(bytes: seq<bv8>)
    ensures BitsOfWord(Crc32(bytes), 32) == Check(bytes)
  {
    hide BitsOfWord, Update, Xor, MessageBits, Remainder;
    var m := MessageBits(bytes);
    OnesBits();
    assert Complemented(m + Zeros(32), 32) == Entry(ONES, m);
    UpdateDivides(ONES, bytes);
    XorBits(Update(ONES, bytes), ONES, 32);
  }

  // ----- the checksum as a number

  function Power(n: nat): nat { if n == 0 then 1 else 2 * Power(n - 1) }

  lemma {:induction false} NumberConcat(a: seq<bool>, b: seq<bool>)
    ensures Number(a + b) == Number(a) + Power(|a|) * Number(b)
    decreases |a|
  {
    if a == [] {
      assert a + b == b;
    } else {
      var rest := Number(a[1..] + b);
      NumberConcat(a[1..], b);
      Distributes(Number(a[1..]), Power(|a| - 1), Number(b));
      assert (a + b)[1..] == a[1..] + b && (a + b)[0] == a[0];
      assert Number(a + b) == (if a[0] then 1 else 0) + 2 * rest;
    }
  }

  lemma Distributes(x: nat, p: nat, n: nat)
    ensures 2 * (x + p * n) == 2 * x + (2 * p) * n
  {
  }

  lemma ByteHalves(b: bv8)
    ensures b as int == (if b & 1 == 1 then 1 else 0) + 2 * ((b >> 1) as int)
  {
    assert (b >> 1) as int == b as int / 2;
    assert b as int % 2 == 1 <==> b & 1 == 1;
  }

  lemma {:induction false} ByteNumber(b: bv8, n: nat)
    requires b as int < Power(n)
    ensures Number(BitsOfByte(b, n)) == b as int
    decreases n
  {
    ByteHalves(b);
    if n > 0 { ByteNumber(b >> 1, n - 1); }
  }

  /** The low byte of a word. */
  function LowByte(c: bv32): bv8 { (c & 0xFF) as bv8 }

  lemma LowByteBits(c: bv32)
    ensures BitsOfWord(c, 8) == BitsOfByte(LowByte(c), 8)
  {
    hide BitsOfWord, BitsOfByte;
    Nibble(c, 4);
    Nibble(c >> 4, 0);
    Nibble(c & 0xFF, 4);
    Nibble((c & 0xFF) >> 4, 0);
    NoBits((c >> 4) >> 4);
    NoBits(((c & 0xFF) >> 4) >> 4);
    SameLowBits(c);
    WideBits(LowByte(c), 8);
    LowByteIsWide(c);
  }

  lemma LowByteIsWide(c: bv32)
    ensures Wide(LowByte(c)) == c & 0xFF
  {
  }

  lemma SameLowBits(c: bv32)
    ensures var d := c & 0xFF;
            && (d & 1 == c & 1) && (d >> 1) & 1 == (c >> 1) & 1 && (d >> 2) & 1 == (c >> 2) & 1
                && (d >> 3) & 1 == (c >> 3) & 1
            && (d >> 4) & 1 == (c >> 4) & 1 && ((d >> 4) >> 1) & 1 == ((c >> 4) >> 1) & 1
            && ((d >> 4) >> 2) & 1 == ((c >> 4) >> 2) & 1 && ((d >> 4) >> 3) & 1 == ((c >> 4) >> 3) & 1
  {
  }

  lemma LowByteNumber(c: bv32)
    ensures Number(BitsOfWord(c, 8)) == LowByte(c) as int
  {
    hide BitsOfWord, BitsOfByte, LowByte;
    LowByteBits(c);
    assert Power(8) == 256;
    ByteNumber(LowByte(c), 8);
  }

  function ByteDown(c: bv32): bv32 { c >> 8 }

  /** A word's four bytes, as numbers, make up the number its bits stand for. */
  lemma WordNumber(c: bv32)
    ensures var d := ByteDown(c); var e := ByteDown(d); var f := ByteDown(e);
            Number(BitsOfWord(c, 32)) ==
            LowByte(c) as int + 0x100 * (LowByte(d) as int) + 0x1_0000 * (LowByte(e) as int)
              + 0x100_0000 * (LowByte(f) as int)
  {
    hide BitsOfWord, LowByte, Number, ByteDown;
    var d, e, f := ByteDown(c), ByteDown(ByteDown(c)), ByteDown(ByteDown(ByteDown(c)));
    TakeByte(c, 24);
    TakeByte(d, 16);
    TakeByte(e, 8);
    LowByteNumber(f);
    FourDigits(Number(BitsOfWord(c, 32)), LowByte(c) as int, Number(BitsOfWord(d, 24)), LowByte(d) as int,
               Number(BitsOfWord(e, 16)), LowByte(e) as int, LowByte(f) as int);
  }

  lemma FourDigits(n0: nat, b0: nat, n1: nat, b1: nat, n2: nat, b2: nat, b3: nat)
    requires n0 == b0 + 0x100 * n1 && n1 == b1 + 0x100 * n2 && n2 == b2 + 0x100 * b3
    ensures n0 == b0 + 0x100 * b1 + 0x1_0000 * b2 + 0x100_0000 * b3
  {
  }

  lemma TakeByte(c: bv32, n: nat)
    ensures Number(BitsOfWord(c, 8 + n)) == LowByte(c) as int + 0x100 * Number(BitsOfWord(ByteDown(c), n))
  {
    hide BitsOfWord, LowByte, Halves, Number;
    SplitBits(c, 8, n);
    EightAtOnce(c);
    NumberConcat(BitsOfWord(c, 8), BitsOfWord(c >> 8, n));
    assert Power(8) == 256;
    LowByteNumber(c);
  }
}
