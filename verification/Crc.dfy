/** The reflected CRC-32 both the crash record and the PNG writer compute bit by bit. */
module Crc {

  const POLYNOMIAL: bv32 := 0xEDB88320
  const ONES: bv32 := 0xFFFFFFFF

  function Xor(c: bv32, d: bv32): bv32 { c ^ d }

  function Wide(b: bv8): bv32 { b as bv32 }

  /** One step of the shift register: multiplication by x modulo the generator, in reflected bit order. */
  function BitStep(c: bv32): bv32 {
    if c & 1 == 1 then (c >> 1) ^ POLYNOMIAL else c >> 1
  }

  function BitSteps(c: bv32, n: nat): bv32
    decreases n
  {
    if n == 0 then c else BitSteps(BitStep(c), n - 1)
  }

  function ByteStep(c: bv32, b: bv8): bv32 { BitSteps(Xor(c, Wide(b)), 8) }

  function Update(c: bv32, bytes: seq<bv8>): bv32
    decreases |bytes|
  {
    if bytes == [] then c else Update(ByteStep(c, bytes[0]), bytes[1..])
  }

  function Crc32(bytes: seq<bv8>): bv32 { Xor(Update(ONES, bytes), ONES) }

  // ----- the register as the code computes it

  /** The branch-free step: the mask is all ones exactly when the low bit is set. */
  lemma MaskedStep(c: bv32)
    ensures (c >> 1) ^ (POLYNOMIAL & (0 - (c & 1))) == BitStep(c)
  {
    LowBit(c);
    Masks(c >> 1, c & 1);
  }

  lemma LowBit(c: bv32)
    ensures c & 1 == 0 || c & 1 == 1
  {
  }

  lemma Masks(x: bv32, low: bv32)
    requires low == 0 || low == 1
    ensures x ^ (POLYNOMIAL & (0 - low)) == if low == 1 then x ^ POLYNOMIAL else x
  {
    if low == 1 {
      assert 0 - low == ONES && POLYNOMIAL & ONES == POLYNOMIAL;
    } else {
      assert 0 - low == 0 && POLYNOMIAL & 0 == 0 && x ^ 0 == x;
    }
  }

  lemma {:induction false} BitStepsLast(c: bv32, n: nat)
    ensures BitSteps(c, n + 1) == BitStep(BitSteps(c, n))
    decreases n
  {
    if n > 0 { BitStepsLast(BitStep(c), n - 1); }
  }

  lemma {:induction false} UpdateConcat(c: bv32, xs: seq<bv8>, ys: seq<bv8>)
    ensures Update(c, xs + ys) == Update(Update(c, xs), ys)
    decreases |xs|
  {
    if xs == [] {
      assert xs + ys == ys;
    } else {
      assert (xs + ys)[1..] == xs[1..] + ys;
      UpdateConcat(ByteStep(c, xs[0]), xs[1..], ys);
    }
  }

  lemma UpdateLast(c: bv32, xs: seq<bv8>, b: bv8)
    ensures Update(c, xs + [b]) == ByteStep(Update(c, xs), b)
  {
    UpdateConcat(c, xs, [b]);
    assert Update(Update(c, xs), [b]) == Update(ByteStep(Update(c, xs), b), []);
  }

  /** One byte, bit by bit as the code shifts it. */
  method ShiftByte(start: bv32, b: bv8) returns (crc: bv32)
    ensures crc == ByteStep(start, b)
  {
    hide BitStep;
    crc := Xor(start, Wide(b));
    ghost var mixed := crc;
    for bit := 0 to 8
      invariant crc == BitSteps(mixed, bit)
    {
      MaskedStep(crc);
      BitStepsLast(mixed, bit);
      crc := (crc >> 1) ^ (POLYNOMIAL & (0 - (crc & 1)));
    }
  }

  method Compute(bytes: seq<bv8>) returns (crc: bv32)
    ensures crc == Crc32(bytes)
  {
    hide ByteStep;
    crc := ONES;
    for index := 0 to |bytes|
      invariant crc == Update(ONES, bytes[..index])
    {
      UpdateLast(ONES, bytes[..index], bytes[index]);
      assert bytes[..index + 1] == bytes[..index] + [bytes[index]];
      crc := ShiftByte(crc, bytes[index]);
    }
    assert bytes[..|bytes|] == bytes;
    crc := Xor(crc, ONES);
  }

  // ----- the register never forgets

  /** The step is a bijection: the top bit of its result tells which branch was taken. */
  lemma BitStepInjective(c: bv32, d: bv32)
    ensures BitStep(c) == BitStep(d) <==> c == d
  {
  }

  lemma {:induction false} BitStepsInjective(c: bv32, d: bv32, n: nat)
    ensures BitSteps(c, n) == BitSteps(d, n) <==> c == d
    decreases n
  {
    if n > 0 {
      BitStepInjective(c, d);
      BitStepsInjective(BitStep(c), BitStep(d), n - 1);
    }
  }

  lemma XorInjective(c: bv32, d: bv32, x: bv32)
    ensures Xor(c, x) == Xor(d, x) <==> c == d
    ensures Xor(x, c) == Xor(x, d) <==> c == d
  {
  }

  lemma {:induction false} UpdateInjective(c: bv32, d: bv32, bytes: seq<bv8>)
    ensures Update(c, bytes) == Update(d, bytes) <==> c == d
    decreases |bytes|
  {
    hide BitSteps, Xor, Wide;
    if bytes != [] {
      XorInjective(c, d, Wide(bytes[0]));
      BitStepsInjective(Xor(c, Wide(bytes[0])), Xor(d, Wide(bytes[0])), 8);
      UpdateInjective(ByteStep(c, bytes[0]), ByteStep(d, bytes[0]), bytes[1..]);
    }
  }

  // ----- four bytes at once

  lemma XorParts(c: bv32, d: bv32)
    ensures (c ^ d) & 1 == (c & 1) ^ (d & 1) && (c ^ d) >> 1 == (c >> 1) ^ (d >> 1)
    ensures (c & 1 == 0 || c & 1 == 1) && (d & 1 == 0 || d & 1 == 1)
  {
  }

  lemma XorMoves(x: bv32, y: bv32, p: bv32)
    ensures (x ^ p) ^ (y ^ p) == x ^ y && (x ^ p) ^ y == (x ^ y) ^ p && x ^ (y ^ p) == (x ^ y) ^ p
  {
  }

  lemma StepOfXor(c: bv32, d: bv32)
    ensures BitStep(c ^ d) == BitStep(c) ^ BitStep(d)
  {
    XorParts(c, d);
    XorMoves(c >> 1, d >> 1, POLYNOMIAL);
  }

  /** The register is linear: shifting a difference is shifting each side. */
  lemma BitStepLinear(c: bv32, d: bv32)
    ensures BitStep(Xor(c, d)) == Xor(BitStep(c), BitStep(d))
  {
    hide BitStep;
    StepOfXor(c, d);
  }

  lemma {:induction false} BitStepsLinear(c: bv32, d: bv32, n: nat)
    ensures BitSteps(Xor(c, d), n) == Xor(BitSteps(c, n), BitSteps(d, n))
    decreases n
  {
    hide BitStep, Xor;
    if n > 0 {
      BitStepLinear(c, d);
      BitStepsLinear(BitStep(c), BitStep(d), n - 1);
    }
  }

  lemma {:induction false} BitStepsAdd(c: bv32, m: nat, n: nat)
    ensures BitSteps(c, m + n) == BitSteps(BitSteps(c, m), n)
    decreases m
  {
    if m > 0 { BitStepsAdd(BitStep(c), m - 1, n); }
  }

  predicate TopFree(v: bv32) { v & 0xFF00_0000 == 0 }

  function Raised(v: bv32, n: nat): bv32
    requires n <= 8
  {
    if n == 0 then v else if n == 1 then v << 1 else if n == 2 then v << 2 else if n == 3 then v << 3
    else if n == 4 then v << 4 else if n == 5 then v << 5 else if n == 6 then v << 6 else if n == 7 then v << 7
    else v << 8
  }

  function Shl8(v: bv32): bv32 { Raised(v, 8) }

  lemma StepLowers(v: bv32, n: nat)
    requires TopFree(v) && 0 < n <= 8
    ensures BitStep(Raised(v, n)) == Raised(v, n - 1)
  {
    hide BitStep, TopFree;
    if n == 1 { Lower1(v); } else if n == 2 { Lower2(v); } else if n == 3 { Lower3(v); } else if n == 4 { Lower4(v); }
    else if n == 5 { Lower5(v); } else if n == 6 { Lower6(v); } else if n == 7 { Lower7(v); } else { Lower8(v); }
  }

  lemma Lower1(v: bv32)
    requires TopFree(v)
    ensures BitStep(v << 1) == v
  {
  }

  lemma Lower2(v: bv32)
    requires TopFree(v)
    ensures BitStep(v << 2) == v << 1
  {
  }

  lemma Lower3(v: bv32)
    requires TopFree(v)
    ensures BitStep(v << 3) == v << 2
  {
  }

  lemma Lower4(v: bv32)
    requires TopFree(v)
    ensures BitStep(v << 4) == v << 3
  {
  }

  lemma Lower5(v: bv32)
    requires TopFree(v)
    ensures BitStep(v << 5) == v << 4
  {
  }

  lemma Lower6(v: bv32)
    requires TopFree(v)
    ensures BitStep(v << 6) == v << 5
  {
  }

  lemma Lower7(v: bv32)
    requires TopFree(v)
    ensures BitStep(v << 7) == v << 6
  {
  }

  lemma Lower8(v: bv32)
    requires TopFree(v)
    ensures BitStep(v << 8) == v << 7
  {
  }

  /** Bytes that have not reached the low end of the register are only moved down. */
  lemma {:induction false} HighBytesMoveDown(v: bv32, n: nat)
    requires TopFree(v) && n <= 8
    ensures BitSteps(Raised(v, n), n) == v
  {
    if n > 0 {
      StepLowers(v, n);
      HighBytesMoveDown(v, n - 1);
    }
    hide BitStep, TopFree;
  }

  lemma XorAssociative(c: bv32, d: bv32, e: bv32)
    ensures Xor(c, Xor(d, e)) == Xor(Xor(c, d), e)
  {
  }

  /** Shifting out a byte while others wait above it: they are added to what the byte leaves behind. */
  lemma ByteWithMoreAbove(c: bv32, b: bv8, above: bv32)
    requires TopFree(above)
    ensures BitSteps(Xor(c, Xor(Wide(b), Shl8(above))), 8) == Xor(ByteStep(c, b), above)
  {
    hide BitStep, BitSteps, Xor, Raised, TopFree, Wide;
    XorAssociative(c, Wide(b), Shl8(above));
    BitStepsLinear(Xor(c, Wide(b)), Shl8(above), 8);
    HighBytesMoveDown(above, 8);
  }

  /** The four bytes as a little-endian word. */
  function Word(b: seq<bv8>): bv32
    requires |b| == 4
  {
    Xor(Wide(b[0]), Shl8(Xor(Wide(b[1]), Shl8(Xor(Wide(b[2]), Shl8(Wide(b[3])))))))
  }

  lemma WordInjective(a: seq<bv8>, b: seq<bv8>)
    requires |a| == 4 && |b| == 4 && Word(a) == Word(b)
    ensures a == b
  {
    Unpack(a);
    Unpack(b);
  }

  lemma Unpack(b: seq<bv8>)
    requires |b| == 4
    ensures var w := Word(b);
            && (w & 0xFF) as bv8 == b[0] && ((w >> 8) & 0xFF) as bv8 == b[1]
            && ((w >> 16) & 0xFF) as bv8 == b[2] && ((w >> 24) & 0xFF) as bv8 == b[3]
  {
  }

  /** Four byte updates are thirty-two steps on the register xored with the word. */
  lemma FourBytesAtOnce(c: bv32, b: seq<bv8>)
    requires |b| == 4
    ensures Update(c, b) == BitSteps(Xor(c, Word(b)), 32)
  {
    hide BitStep, BitSteps, Xor, Shl8, ByteStep, TopFree, Wide;
    var v3 := Wide(b[3]);
    var v2 := Xor(Wide(b[2]), Shl8(v3));
    var v1 := Xor(Wide(b[1]), Shl8(v2));
    WordParts(b[1], b[2], b[3]);
    var c1 := ByteStep(c, b[0]);
    var c2 := ByteStep(c1, b[1]);
    var c3 := ByteStep(c2, b[2]);
    ByteWithMoreAbove(c, b[0], v1);
    ByteWithMoreAbove(c1, b[1], v2);
    ByteWithMoreAbove(c2, b[2], v3);
    BitStepsAdd(Xor(c, Word(b)), 8, 24);
    BitStepsAdd(Xor(c1, v1), 8, 16);
    BitStepsAdd(Xor(c2, v2), 8, 8);
    FourUpdates(c, b);
    LastByte(c3, b[3]);
  }

  lemma LastByte(c: bv32, b: bv8)
    ensures ByteStep(c, b) == BitSteps(Xor(c, Wide(b)), 8)
  {
  }

  lemma WordParts(b1: bv8, b2: bv8, b3: bv8)
    ensures var v3 := Wide(b3); var v2 := Xor(Wide(b2), Shl8(v3)); var v1 := Xor(Wide(b1), Shl8(v2));
            TopFree(v3) && TopFree(v2) && TopFree(v1)
  {
  }

  lemma FourUpdates(c: bv32, b: seq<bv8>)
    requires |b| == 4
    ensures Update(c, b) == ByteStep(ByteStep(ByteStep(ByteStep(c, b[0]), b[1]), b[2]), b[3])
  {
    hide ByteStep;
    assert b[1..][1..] == b[2..] && b[2..][1..] == b[3..] && b[3..][1..] == [];
    var c1 := ByteStep(c, b[0]);
    var c2 := ByteStep(c1, b[1]);
    var c3 := ByteStep(c2, b[2]);
    assert Update(c, b) == Update(c1, b[1..]);
    assert Update(c1, b[1..]) == Update(c2, b[2..]);
    assert Update(c2, b[2..]) == Update(c3, b[3..]);
    assert Update(c3, b[3..]) == Update(ByteStep(c3, b[3]), []);
  }

  /** `y` is `x` with other bytes at positions `at` to `at + 3` at most. */
  predicate AlteredWithin(x: seq<bv8>, y: seq<bv8>, at: nat) {
    at + 4 <= |x| == |y| && x[..at] == y[..at] && x[at + 4..] == y[at + 4..]
  }

  /** Every alteration confined to four consecutive bytes changes the checksum. */
  lemma BurstChangesCrc(x: seq<bv8>, y: seq<bv8>, at: nat)
    requires AlteredWithin(x, y, at)
    ensures Crc32(x) == Crc32(y) <==> x == y
  {
    var c := Update(ONES, x[..at]);
    var wx, wy := x[at..at + 4], y[at..at + 4];
    assert x == x[..at] + wx + x[at + 4..] && y == y[..at] + wy + y[at + 4..];
    UpdateConcat(ONES, x[..at] + wx, x[at + 4..]);
    UpdateConcat(ONES, x[..at], wx);
    UpdateConcat(ONES, y[..at] + wy, y[at + 4..]);
    UpdateConcat(ONES, y[..at], wy);
    if Crc32(x) == Crc32(y) {
      XorInjective(Update(ONES, x), Update(ONES, y), ONES);
      UpdateInjective(Update(c, wx), Update(c, wy), x[at + 4..]);
      FourBytesAtOnce(c, wx);
      FourBytesAtOnce(c, wy);
      BitStepsInjective(Xor(c, Word(wx)), Xor(c, Word(wy)), 32);
      XorInjective(Word(wx), Word(wy), c);
      WordInjective(wx, wy);
    }
  }

  lemma XorCancels(c: bv32, d: bv32)
    ensures Xor(c, Xor(c, d)) == d
  {
  }

  /** A string followed by four bytes is followed by its own checksum exactly if the register ends in one fixed
      value. */
  lemma ResidueIff(x: seq<bv8>, tail: seq<bv8>)
    requires |tail| == 4
    ensures Word(tail) == Crc32(x) <==> Update(ONES, x + tail) == BitSteps(ONES, 32)
  {
    hide BitSteps, Word, Xor, Update;
    var c := Update(ONES, x);
    UpdateConcat(ONES, x, tail);
    FourBytesAtOnce(c, tail);
    XorCancels(c, ONES);
    BitStepsInjective(Xor(c, Word(tail)), ONES, 32);
    XorInjective(Word(tail), Xor(c, ONES), c);
  }
}
