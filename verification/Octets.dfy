/** Bytes and the multi-byte numbers the encoders write. */
module Octets {

  type byte = x: int | 0 <= x < 256
  type Bytes = seq<byte>

  const WORDS: nat := 0x1_0000_0000

  function Byte(n: int): byte { n % 256 }

  /** A 16-bit value, low byte first. */
  function Short(lo: byte, hi: byte): nat { lo as int + 256 * (hi as int) }

  lemma ShortReads(n: nat)
    requires n < 0x1_0000
    ensures Short(Byte(n), Byte(n / 256)) == n
  {
    assert n / 256 < 256;
  }

  /** A 32-bit value, high byte first. */
  function BigEndian(n: nat): (b: Bytes)
    ensures |b| == 4
  {
    [Byte(n / 0x100_0000), Byte(n / 0x1_0000), Byte(n / 0x100), Byte(n)]
  }

  function ReadBig(b: Bytes): nat
    requires |b| >= 4
  {
    (b[0] as int) * 0x100_0000 + (b[1] as int) * 0x1_0000 + (b[2] as int) * 0x100 + b[3] as int
  }

  /** A 32-bit value, low byte first. */
  function LittleEndian(n: nat): (b: Bytes)
    ensures |b| == 4
  {
    [Byte(n), Byte(n / 0x100), Byte(n / 0x1_0000), Byte(n / 0x100_0000)]
  }

  function ReadLittle(b: Bytes): nat
    requires |b| >= 4
  {
    b[0] as int + (b[1] as int) * 0x100 + (b[2] as int) * 0x1_0000 + (b[3] as int) * 0x100_0000
  }

  lemma WordReads(n: nat)
    requires n < WORDS
    ensures var b := BigEndian(n);
            ReadBig(b) == n ==
              0x100_0000 * (b[0] as int) + 0x1_0000 * (b[1] as int) + 0x100 * (b[2] as int) + b[3] as int
    ensures var b := LittleEndian(n);
            ReadLittle(b) == n
            == b[0] as int + 0x100 * (b[1] as int) + 0x1_0000 * (b[2] as int) + 0x100_0000 * (b[3] as int)
  {
    assert n / 0x100 / 256 == n / 0x1_0000 && n / 0x1_0000 / 256 == n / 0x100_0000;
  }

  lemma ReadsPrefix(s: Bytes, b: Bytes)
    requires |s| >= 4 && |b| == 4 && s[..4] == b
    ensures ReadBig(s) == ReadBig(b) && ReadLittle(s) == ReadLittle(b)
  {
    assert s[0] == s[..4][0] && s[1] == s[..4][1] && s[2] == s[..4][2] && s[3] == s[..4][3];
  }
}
