/** The screenshot writer: stored zlib blocks inside a PNG file, and an independent decoder that reads it back. */
module Png {
  import opened Selection
  import opened Crc
  import Division
  import CrcDivision
  import opened Octets

  /** The checksum of chunk bytes. */
  function ChunkCrc(bytes: Bytes): bv32 { Crc32(Bits(bytes)) }

  function Bits(bytes: Bytes): seq<bv8> { seq(|bytes|, i requires 0 <= i < |bytes| => bytes[i] as bv8) }

  const BLOCK: nat := 65535
  const ADLER: nat := 65521

  const SIGNATURE: Bytes := [0x89, 0x50, 0x4e, 0x47, 0x0d, 0x0a, 0x1a, 0x0a]
  const IHDR: Bytes := [0x49, 0x48, 0x44, 0x52]
  const IDAT: Bytes := [0x49, 0x44, 0x41, 0x54]
  const IEND: Bytes := [0x49, 0x45, 0x4e, 0x44]
  const RGB8: Bytes := [8, 2, 0, 0, 0]  // bit depth, colour type, compression, filter, interlace

  /** A checksum word, high byte first. */
  function WordBytes(c: bv32): (b: Bytes)
    ensures |b| == 4
  {
    [((c >> 24) as bv8) as int, (((c >> 16) & 0xFF) as bv8) as int, (((c >> 8) & 0xFF) as bv8) as int,
     ((c & 0xFF) as bv8) as int]
  }

  // ----- Adler-32, section 8.2 of RFC 1950

  /** One plus the sum of all bytes. */
  function SumOne(data: Bytes): nat {
    if data == [] then 1 else SumOne(data[..|data| - 1]) + data[|data| - 1]
  }

  /** The sum of all values the first sum went through. */
  function SumTwo(data: Bytes): nat {
    if data == [] then 0 else SumTwo(data[..|data| - 1]) + SumOne(data)
  }

  function Adler(data: Bytes): (r: nat)
    ensures r < WORDS
  {
    SumTwo(data) % ADLER * 65536 + SumOne(data) % ADLER
  }

  function Total(data: Bytes): nat { if data == [] then 0 else data[0] + Total(data[1..]) }

  /** Every byte, weighted by how many bytes are left when it is read, itself included. */
  function Weighted(data: Bytes): nat { if data == [] then 0 else |data| * data[0] + Weighted(data[1..]) }

  /** The checksum a reader expects, without running sums. */
  function AdlerNumber(data: Bytes): nat {
    (|data| + Weighted(data)) % 65521 * 0x1_0000 + (1 + Total(data)) % 65521
  }

  /** The running sums of the writer make that number. */
  lemma AdlerIsNumber(data: Bytes)
    ensures Adler(data) == AdlerNumber(data)
  {
    SumsAreTotals(data);
  }

  lemma {:induction false} SumsAreTotals(data: Bytes)
    ensures SumOne(data) == 1 + Total(data) && SumTwo(data) == |data| + Weighted(data)
    decreases |data|
  {
    if data != [] {
      var front, last := data[..|data| - 1], data[|data| - 1];
      SumsAreTotals(front);
      assert data == front + [last];
      TotalsAppend(front, last);
    }
  }

  lemma {:induction false} TotalsAppend(data: Bytes, last: byte)
    ensures Total(data + [last]) == Total(data) + last
    ensures Weighted(data + [last]) == Weighted(data) + Total(data) + last
    decreases |data|
  {
    if data == [] {
      assert [last][1..] == [] && data + [last] == [last];
    } else {
      var rest := data[1..];
      assert (data + [last])[1..] == rest + [last];
      TotalsAppend(rest, last);
      assert (|data| + 1) * data[0] == |data| * data[0] + data[0];
    }
  }

  lemma ModAdd(x: nat, y: nat)
    ensures (x % ADLER + y) % ADLER == (x + y) % ADLER
  {
    assert x == ADLER * (x / ADLER) + x % ADLER;
    var r := (x % ADLER + y) % ADLER;
    var q := (x % ADLER + y) / ADLER;
    assert x + y == ADLER * (x / ADLER + q) + r;
  }

  /** adler32: both sums reduced after every byte. */
  method ComputeAdler(data: Bytes) returns (checksum: nat)
    ensures checksum == Adler(data) == AdlerNumber(data)
  {
    AdlerIsNumber(data);
    hide AdlerNumber;
    var a, b := 1, 0;
    for i := 0 to |data|
      invariant a == SumOne(data[..i]) % ADLER && b == SumTwo(data[..i]) % ADLER
    {
      var front := data[..i + 1];
      assert front[..i] == data[..i];
      ModAdd(SumOne(data[..i]), data[i]);
      a := (a + data[i]) % ADLER;
      ModAdd(SumTwo(data[..i]), SumOne(front) % ADLER);
      ModAdd(SumOne(front), SumTwo(data[..i]));
      b := (b + a) % ADLER;
    }
    assert data[..|data|] == data;
    checksum := b * 65536 + a;
  }

  // ----- stored blocks, section 3.2.4 of RFC 1951

  function Block(data: Bytes, last: bool): Bytes
    requires |data| <= BLOCK
  {
    var n := |data|;
    [if last then 1 else 0, Byte(n), Byte(n / 256), Byte(BLOCK - n), Byte((BLOCK - n) / 256)] + data
  }

  /** Full blocks, then the final one with what is left. */
  function Blocks(data: Bytes): Bytes {
    if |data| <= BLOCK then Block(data, true) else Block(data[..BLOCK], false) + Blocks(data[BLOCK..])
  }

  function BlockCount(n: nat): nat { if n <= BLOCK then 1 else 1 + BlockCount(n - BLOCK) }

  function Zlib(data: Bytes): Bytes { [0x78, 0x01] + Blocks(data) + BigEndian(Adler(data)) }

  /** One five-byte block header per 65535 bytes begun, and one for no bytes at all. */
  lemma {:induction false} ZlibLength(data: Bytes)
    ensures |Blocks(data)| == |data| + 5 * BlockCount(|data|) && |Zlib(data)| == |data| + 5 * BlockCount(|data|) + 6
    ensures BlockCount(|data|) == if |data| == 0 then 1 else (|data| + BLOCK - 1) / BLOCK
    decreases |data|
  {
    if |data| > BLOCK {
      ZlibLength(data[BLOCK..]);
      assert (|data| + BLOCK - 1) / BLOCK == (|data| - BLOCK + BLOCK - 1) / BLOCK + 1;
    }
  }

  method AppendBlock(compressed: Bytes, data: Bytes, last: bool) returns (out: Bytes)
    requires |data| <= BLOCK
    ensures out == compressed + Block(data, last)
  {
    hide Byte;
    var blockSize := |data|;
    out := compressed + [if last then 1 else 0];
    out := out + [Byte(blockSize), Byte(blockSize / 256)];
    var inverse := BLOCK - blockSize;
    out := out + [Byte(inverse), Byte(inverse / 256)];
    out := out + data;
  }

  /** deflateStore. */
  method DeflateStore(data: Bytes) returns (compressed: Bytes)
    ensures compressed == Zlib(data)
  {
    hide Byte, Adler, Block, Blocks, BigEndian;
    compressed := [0x78, 0x01];
    var offset := 0;
    assert data[0..] == data;
    while offset < |data| || offset == 0
      invariant 0 <= offset <= |data| && (offset == |data| ==> offset == 0)
      invariant compressed + Blocks(data[offset..]) == [0x78, 0x01] + Blocks(data)
      decreases |data| - offset
    {
      var remaining := |data| - offset;
      var blockSize := if remaining < BLOCK then remaining else BLOCK;
      var finalBlock := offset + blockSize == |data|;
      BlocksFrom(data, offset, blockSize);
      ghost var before := compressed;
      compressed := AppendBlock(compressed, data[offset..offset + blockSize], finalBlock);
      offset := offset + blockSize;
      if finalBlock {
        assert compressed == [0x78, 0x01] + Blocks(data);
        break;
      }
      assert compressed + Blocks(data[offset..]) ==
               before + (Block(data[offset - blockSize..offset], false) + Blocks(data[offset..]));
    }
    var checksum := ComputeAdler(data);
    compressed := compressed + BigEndian(checksum);
  }

  lemma BlocksFrom(data: Bytes, offset: nat, blockSize: nat)
    requires offset <= |data| && blockSize == if |data| - offset < BLOCK then |data| - offset else BLOCK
    ensures Blocks(data[offset..]) ==
            if offset + blockSize == |data| then Block(data[offset..offset + blockSize], true)
            else Block(data[offset..offset + blockSize], false) + Blocks(data[offset + blockSize..])
  {
    hide Block;
    assert data[offset..][..blockSize] == data[offset..offset + blockSize];
    assert data[offset..][blockSize..] == data[offset + blockSize..];
    if offset + blockSize == |data| { assert data[offset..] == data[offset..offset + blockSize]; }
  }

  /** The block header's final bit. */
  predicate IsFinal(b: byte) { b % 2 == 1 }

  predicate IsStored(b: byte) { b / 2 % 4 == 0 }

  /** Reads blocks up to and including the first final one; what follows it is returned as well. */
  function Inflate(s: Bytes): Option<(Bytes, Bytes)>
    decreases |s|
  {
    if |s| < 5 || !IsStored(s[0]) then None
    else
      var n := Short(s[1], s[2]);
      if n + Short(s[3], s[4]) != 65535 || |s| < 5 + n then None
      else if IsFinal(s[0]) then Some((s[5..5 + n], s[5 + n..]))
      else match Inflate(s[5 + n..])
        case Some((data, rest)) => Some((s[5..5 + n] + data, rest))
        case None => None
  }

  /** The two header bytes of section 2.2 of RFC 1950: deflate, window size, check value, no dictionary. */
  predicate IsZlibHeader(cmf: byte, flg: byte) {
    cmf % 16 == 8 && cmf / 16 <= 7 && (cmf * 256 + flg) % 31 == 0 && flg / 32 % 2 == 0
  }

  /** zlib wrapper, sections 2.2 and 8.2 of RFC 1950. */
  function Unzlib(z: Bytes): Option<Bytes> {
    if |z| < 2 || !IsZlibHeader(z[0], z[1]) then None
    else match Inflate(z[2..])
      case Some((data, rest)) => if |rest| == 4 && ReadBig(rest) == AdlerNumber(data) then Some(data) else None
      case None => None
  }

  lemma BlockReads(data: Bytes, last: bool, tail: Bytes)
    requires |data| <= BLOCK
    ensures last ==> Inflate(Block(data, last) + tail) == Some((data, tail))
    ensures !last && Inflate(tail).Some? ==>
              Inflate(Block(data, last) + tail) == Some((data + Inflate(tail).value.0, Inflate(tail).value.1))
    ensures !last && Inflate(tail).None? ==> Inflate(Block(data, last) + tail) == None
  {
    hide Inflate;
    BlockLayout(data, last, tail);
    InflateStep(Block(data, last) + tail, data, last, tail);
  }

  /** `s` is a block of `data` followed by `tail`. */
  predicate StartsWithBlock(s: Bytes, data: Bytes, last: bool, tail: Bytes) {
    var n := |data|;
    && |s| >= 5 + n && IsStored(s[0]) && (IsFinal(s[0]) <==> last)
    && Short(s[1], s[2]) == n && Short(s[3], s[4]) == BLOCK - n
    && s[5..5 + n] == data && s[5 + n..] == tail
  }

  lemma BlockLayout(data: Bytes, last: bool, tail: Bytes)
    requires |data| <= BLOCK
    ensures StartsWithBlock(Block(data, last) + tail, data, last, tail)
  {
    hide Byte, IsFinal, IsStored;
    var s := Block(data, last) + tail;
    var n := |data|;
    ShortReads(n);
    ShortReads(BLOCK - n);
    FlagByte(last);
    assert s[0] == (if last then 1 else 0) && s[1] == Byte(n) && s[2] == Byte(n / 256);
    assert s[3] == Byte(BLOCK - n) && s[4] == Byte((BLOCK - n) / 256);
    assert s[5..5 + n] == data && s[5 + n..] == tail;
  }

  lemma InflateStep(s: Bytes, data: Bytes, last: bool, tail: Bytes)
    requires StartsWithBlock(s, data, last, tail)
    ensures last ==> Inflate(s) == Some((data, tail))
    ensures !last && Inflate(tail).Some? ==> Inflate(s) == Some((data + Inflate(tail).value.0, Inflate(tail).value.1))
    ensures !last && Inflate(tail).None? ==> Inflate(s) == None
  {
    hide IsFinal, IsStored;
  }

  lemma FlagByte(last: bool)
    ensures var b: byte := if last then 1 else 0; IsStored(b) && (IsFinal(b) <==> last)
  {
  }

  /** The blocks of any data, at every length, hold one final block and it is the last: reading up to the first final
      block yields exactly the data and exactly what was written after the blocks. */
  lemma {:induction false} BlocksRead(data: Bytes, tail: Bytes)
    ensures Inflate(Blocks(data) + tail) == Some((data, tail))
    decreases |data|
  {
    hide Inflate, Block;
    if |data| <= BLOCK {
      BlockReads(data, true, tail);
    } else {
      BlocksRead(data[BLOCK..], tail);
      BlockReads(data[..BLOCK], false, Blocks(data[BLOCK..]) + tail);
      assert Block(data[..BLOCK], false) + Blocks(data[BLOCK..]) + tail ==
               Block(data[..BLOCK], false) + (Blocks(data[BLOCK..]) + tail);
      assert data[..BLOCK] + data[BLOCK..] == data;
    }
  }

  // ----- cut streams

  /** A block that is not there completely is not read. */
  lemma CutBlock(data: Bytes, last: bool, tail: Bytes, p: nat)
    requires |data| <= BLOCK && p < 5 + |data|
    ensures |Block(data, last) + tail| >= 5 + |data| && Inflate((Block(data, last) + tail)[..p]) == None
  {
    BlockLayout(data, last, tail);
    hide Byte, IsFinal, IsStored, Block;
    var s := Block(data, last) + tail;
    if p >= 5 { assert s[..p][1] == s[1] && s[..p][2] == s[2]; }
  }

  /** No proper prefix of the blocks holds a final block. */
  lemma {:induction false} CutBlocks(data: Bytes, p: nat)
    requires p < |Blocks(data)|
    ensures Inflate(Blocks(data)[..p]) == None
    decreases |data|
  {
    hide Inflate, Block;
    var last := |data| <= BLOCK;
    var front := if last then data else data[..BLOCK];
    var rest := if last then [] else Blocks(data[BLOCK..]);
    var block := Block(front, last);
    assert last ==> block + rest == block;
    BlockSize(front, last);
    if p < |block| {
      CutBlock(front, last, rest, p);
    } else {
      assert (block + rest)[..p] == block + rest[..p - |block|];
      CutBlocks(data[BLOCK..], p - |block|);
      BlockReads(front, false, rest[..p - |block|]);
    }
  }

  lemma BlockSize(data: Bytes, last: bool)
    requires |data| <= BLOCK
    ensures |Block(data, last)| == 5 + |data|
  {
  }

  /** No proper prefix of a zlib stream is accepted. */
  lemma CutZlib(data: Bytes, p: nat)
    requires p < |Zlib(data)|
    ensures Unzlib(Zlib(data)[..p]) == None
  {
    hide Inflate, Blocks, Adler, AdlerNumber, ReadBig, IsZlibHeader, Byte;
    var z := Zlib(data)[..p];
    var blocks, sum := Blocks(data), BigEndian(Adler(data));
    if p >= 2 {
      if p - 2 < |blocks| {
        assert z[2..] == blocks[..p - 2];
        CutBlocks(data, p - 2);
      } else {
        assert z[2..] == blocks + sum[..p - 2 - |blocks|];
        BlocksRead(data, sum[..p - 2 - |blocks|]);
      }
    }
  }

  lemma ZlibReads(data: Bytes)
    ensures Unzlib(Zlib(data)) == Some(data)
  {
    ZlibHeader();
    AdlerIsNumber(data);
    hide Inflate, Blocks, Adler, AdlerNumber, ReadBig, IsZlibHeader, Byte;
    var z := Zlib(data);
    assert z[0] == 0x78 && z[1] == 0x01;
    assert z[2..] == Blocks(data) + BigEndian(Adler(data));
    BlocksRead(data, BigEndian(Adler(data)));
    WordReads(Adler(data));
  }

  lemma ZlibHeader()
    ensures IsZlibHeader(0x78, 0x01)
  {
  }

  // ----- chunks, sections 3.2 and 3.4 of RFC 2083

  /** A chunk's length field is the low 32 bits of its size. */
  function Chunk(kind: Bytes, data: Bytes): Bytes {
    BigEndian(|data| % WORDS) + kind + data + WordBytes(ChunkCrc(kind + data))
  }

  /** appendChunk: the checksum is computed over what was just appended. */
  method AppendChunk(png: Bytes, kind: Bytes, data: Bytes) returns (out: Bytes)
    requires |kind| == 4
    ensures out == png + Chunk(kind, data)
  {
    hide Crc32, WordBytes, Bits;
    out := png + BigEndian(|data| % WORDS);
    var typeOffset := |out|;
    out := out + kind;
    out := out + data;
    assert out[typeOffset..typeOffset + 4 + |data|] == kind + data;
    var crc := Compute(Bits(out[typeOffset..typeOffset + 4 + |data|]));
    out := out + WordBytes(crc);
  }

  /** The checksum a reader expects: the standard's, as a number. */
  function Checksum(bytes: Bytes): nat { Division.Number(Division.Check(Bits(bytes))) }

  /** What the writer computes, read high byte first, is that number. */
  lemma WriterComputesChecksum(bytes: Bytes)
    ensures ReadBig(WordBytes(ChunkCrc(bytes))) == Checksum(bytes)
  {
    hide Bits, WordBytes, Crc32, ReadBig;
    var c := ChunkCrc(bytes);
    CrcDivision.Crc32IsRemainder(Bits(bytes));
    WordBytesNumber(c);
  }

  lemma WordBytesNumber(c: bv32)
    ensures ReadBig(WordBytes(c)) == Division.Number(CrcDivision.BitsOfWord(c, 32))
  {
    CrcDivision.WordNumber(c);
    WordByteParts(c);
    hide WordBytes, CrcDivision.LowByte, CrcDivision.ByteDown, CrcDivision.BitsOfWord, Division.Number;
  }

  lemma WordByteParts(c: bv32)
    ensures var d := CrcDivision.ByteDown(c); var e := CrcDivision.ByteDown(d); var f := CrcDivision.ByteDown(e);
            WordBytes(c) == [CrcDivision.LowByte(f) as int, CrcDivision.LowByte(e) as int,
                             CrcDivision.LowByte(d) as int, CrcDivision.LowByte(c) as int]
  {
  }

  function ReadChunk(s: Bytes): Option<(Bytes, Bytes, Bytes)> {
    if |s| < 12 then None
    else
      var n := ReadBig(s);
      if |s| < 12 + n || ReadBig(s[8 + n..12 + n]) != Checksum(s[4..8 + n]) then None
      else Some((s[4..8], s[8..8 + n], s[12 + n..]))
  }

  lemma ChunkParts(kind: Bytes, data: Bytes, tail: Bytes)
    requires |kind| == 4 && |data| < WORDS
    ensures var s := Chunk(kind, data) + tail; var n := |data|;
            && |s| == 12 + n + |tail| && s[4..8] == kind && s[8..8 + n] == data && s[4..8 + n] == kind + data
            && s[8 + n..12 + n] == WordBytes(ChunkCrc(kind + data)) && s[12 + n..] == tail
  {
    hide ChunkCrc, ReadBig, Byte, BigEndian, WordBytes;
    ChunkPieces(BigEndian(|data|), kind, data, WordBytes(ChunkCrc(kind + data)), tail);
  }

  lemma ChunkPieces(size: Bytes, kind: Bytes, data: Bytes, sum: Bytes, tail: Bytes)
    requires |size| == 4 && |kind| == 4 && |sum| == 4
    ensures var s := size + kind + data + sum + tail; var n := |data|;
            && |s| == 12 + n + |tail| && s[4..8] == kind && s[8..8 + n] == data && s[4..8 + n] == kind + data
            && s[8 + n..12 + n] == sum && s[12 + n..] == tail
  {
  }

  lemma ChunkReads(kind: Bytes, data: Bytes, tail: Bytes)
    requires |kind| == 4 && |data| < WORDS
    ensures ReadChunk(Chunk(kind, data) + tail) == Some((kind, data, tail))
  {
    hide ChunkCrc, ReadBig, Byte, WordBytes, Checksum;
    var s := Chunk(kind, data) + tail;
    var n := |data|;
    WordReads(n);
    WriterComputesChecksum(kind + data);
    assert s[..4] == BigEndian(n);
    ReadsPrefix(s, BigEndian(n));
    ChunkParts(kind, data, tail);
  }

  // ----- scanlines and the whole file

  /** Each row behind a filter byte of 0. */
  function Scanlines(rgb: Bytes, stride: nat, rows: nat): Bytes
    requires |rgb| == stride * rows
  {
    if rows == 0 then []
    else
      Cut(rgb, stride, rows);
      [0] + rgb[..stride] + Scanlines(rgb[stride..], stride, rows - 1)
  }

  lemma Cut(rgb: Bytes, stride: nat, rows: nat)
    requires |rgb| == stride * rows && rows > 0
    ensures stride <= |rgb| && |rgb| - stride == stride * (rows - 1)
  {
    assert stride * rows == stride * (rows - 1) + stride;
  }

  function Unfilter(scan: Bytes, stride: nat, rows: nat): Option<Bytes>
    decreases rows
  {
    if rows == 0 then (if scan == [] then Some([]) else None)
    else if |scan| < stride + 1 || scan[0] != 0 then None
    else match Unfilter(scan[stride + 1..], stride, rows - 1)
      case Some(rest) => Some(scan[1..stride + 1] + rest)
      case None => None
  }

  lemma {:induction false} ScanlinesRead(rgb: Bytes, stride: nat, rows: nat)
    requires |rgb| == stride * rows
    ensures Unfilter(Scanlines(rgb, stride, rows), stride, rows) == Some(rgb)
    ensures |Scanlines(rgb, stride, rows)| == |rgb| + rows
    decreases rows
  {
    if rows > 0 {
      Cut(rgb, stride, rows);
      ScanlinesRead(rgb[stride..], stride, rows - 1);
      var scan := Scanlines(rgb, stride, rows);
      assert scan[1..stride + 1] == rgb[..stride] && scan[stride + 1..] == Scanlines(rgb[stride..], stride, rows - 1);
      assert rgb[..stride] + rgb[stride..] == rgb;
    }
  }

  function Header(width: nat, height: nat): Bytes { BigEndian(width) + BigEndian(height) + RGB8 }

  function Image(width: nat, height: nat, rgb: Bytes): Bytes
    requires |rgb| == width * 3 * height
  {
    SIGNATURE + Chunk(IHDR, Header(width, height)) + Chunk(IDAT, Zlib(Scanlines(rgb, width * 3, height)))
      + Chunk(IEND, [])
  }

  /** The row loop of captureFrame. */
  method BuildScanlines(rgb: Bytes, stride: nat, rows: nat) returns (scanlines: Bytes)
    requires |rgb| == stride * rows
    ensures scanlines == Scanlines(rgb, stride, rows)
  {
    scanlines := [];
    var begin := 0;
    ghost var left := rows;
    for y := 0 to rows
      invariant left == rows - y && 0 <= begin <= |rgb| && |rgb| - begin == stride * left
      invariant scanlines + Scanlines(rgb[begin..], stride, left) == Scanlines(rgb, stride, rows)
    {
      RowsFrom(rgb, begin, stride, left);
      left := left - 1;
      ghost var rest := Scanlines(rgb[begin + stride..], stride, left);
      hide Scanlines;
      assert scanlines + ([0] + rgb[begin..begin + stride] + rest) ==
               scanlines + [0] + rgb[begin..begin + stride] + rest;
      scanlines := scanlines + [0];
      scanlines := scanlines + rgb[begin..begin + stride];
      begin := begin + stride;
    }
  }

  lemma RowsFrom(rgb: Bytes, begin: nat, stride: nat, rows: nat)
    requires begin <= |rgb| && |rgb| - begin == stride * rows && rows > 0
    ensures begin + stride <= |rgb| && |rgb| - (begin + stride) == stride * (rows - 1)
    ensures Scanlines(rgb[begin..], stride, rows) ==
            [0] + rgb[begin..begin + stride] + Scanlines(rgb[begin + stride..], stride, rows - 1)
  {
    Cut(rgb[begin..], stride, rows);
    assert rgb[begin..][..stride] == rgb[begin..begin + stride] && rgb[begin..][stride..] == rgb[begin + stride..];
  }

  /** The file captureFrame writes for a display of positive size. */
  method Capture(width: nat, height: nat, rgb: Bytes) returns (png: Bytes)
    requires 0 < width && 0 < height && |rgb| == width * 3 * height
    ensures png == Image(width, height, rgb)
  {
    hide Zlib, Chunk, Scanlines;
    var scanlines := BuildScanlines(rgb, width * 3, height);
    var compressed := DeflateStore(scanlines);
    png := AppendChunk(SIGNATURE, IHDR, Header(width, height));
    png := AppendChunk(png, IDAT, compressed);
    png := AppendChunk(png, IEND, []);
  }

  /** Width, height and pixels of a true-colour PNG with one data chunk, by the numbers of sections 3.1 and 4.1 of
      RFC 2083: the signature and the chunk types as decimal character codes. */
  function Decode(png: Bytes): Option<(nat, nat, Bytes)> {
    if |png| < 8 || png[..8] != [137, 80, 78, 71, 13, 10, 26, 10] then None
    else match ReadChunk(png[8..])
      case None => None
      case Some((kind, header, rest)) =>
        if kind != [73, 72, 68, 82] || |header| != 13 || header[8..] != [8, 2, 0, 0, 0] then None
        else DecodeData(ReadBig(header), ReadBig(header[4..]), rest)
  }

  function DecodeData(width: nat, height: nat, s: Bytes): Option<(nat, nat, Bytes)> {
    match ReadChunk(s)
    case None => None
    case Some((kind, data, rest)) =>
      if kind != [73, 68, 65, 84] || ReadChunk(rest) != Some(([73, 69, 78, 68], [], [])) then None
      else match Unzlib(data)
        case None => None
        case Some(scan) =>
          match Unfilter(scan, width * 3, height)
          case None => None
          case Some(rgb) => Some((width, height, rgb))
  }

  /** An image is read back exactly, all checks passing, if and only if its compressed data fits the 32-bit chunk
      length. */
  lemma ImageReadsIff(width: nat, height: nat, rgb: Bytes)
    requires 0 < width < 0x8000_0000 && 0 < height < 0x8000_0000 && |rgb| == width * 3 * height
    ensures Decode(Image(width, height, rgb)) == Some((width, height, rgb)) <==>
              |rgb| + height + 5 * BlockCount(|rgb| + height) + 6 < 0x1_0000_0000
  {
    hide Zlib, Unzlib, Scanlines, Unfilter, Chunk, ReadChunk, Adler, DecodeData, ReadBig, BigEndian, BlockCount;
    var scan := Scanlines(rgb, width * 3, height);
    var data := Chunk(IDAT, Zlib(scan)) + Chunk(IEND, []);
    var png := Image(width, height, rgb);
    var header := Header(width, height);
    assert png == SIGNATURE + (Chunk(IHDR, header) + data);
    assert png[..8] == SIGNATURE && png[8..] == Chunk(IHDR, header) + data;
    HeaderReads(width, height);
    ChunkReads(IHDR, header, data);
    ScanlinesRead(rgb, width * 3, height);
    ZlibLength(scan);
    if |Zlib(scan)| < WORDS {
      DataReads(width, height, rgb);
    } else {
      LongDataFails(width, height, scan, Chunk(IEND, []));
    }
  }

  lemma DataReads(width: nat, height: nat, rgb: Bytes)
    requires |rgb| == width * 3 * height && |Zlib(Scanlines(rgb, width * 3, height))| < WORDS
    ensures DecodeData(width, height, Chunk(IDAT, Zlib(Scanlines(rgb, width * 3, height))) + Chunk(IEND, [])) ==
            Some((width, height, rgb))
  {
    hide Zlib, Unzlib, Scanlines, Unfilter, Chunk, ReadChunk, BlockCount;
    var scan := Scanlines(rgb, width * 3, height);
    var end := Chunk(IEND, []);
    ScanlinesRead(rgb, width * 3, height);
    ZlibReads(scan);
    ChunkReads(IDAT, Zlib(scan), end);
    ChunkReads(IEND, [], []);
    assert end + [] == end;
  }

  /** Whatever follows, data that does not fit the length field is cut by the reader, and the cut stream refused. */
  lemma LongDataFails(width: nat, height: nat, scan: Bytes, tail: Bytes)
    requires |Zlib(scan)| >= WORDS
    ensures DecodeData(width, height, Chunk(IDAT, Zlib(scan)) + tail) == None
  {
    hide Zlib, Unzlib, Unfilter, Chunk, ReadChunk;
    var z := Zlib(scan);
    LongChunkReads(IDAT, z, tail);
    CutZlib(scan, |z| % WORDS);
  }

  lemma LongChunkReads(kind: Bytes, data: Bytes, tail: Bytes)
    requires |kind| == 4 && |data| >= WORDS
    ensures ReadChunk(Chunk(kind, data) + tail).Some? ==>
              ReadChunk(Chunk(kind, data) + tail).value.1 == data[..|data| % WORDS]
  {
    hide ChunkCrc, ReadBig, Byte;
    var s := Chunk(kind, data) + tail;
    var n := |data| % WORDS;
    WordReads(n);
    assert s[..4] == BigEndian(n);
    ReadsPrefix(s, BigEndian(n));
    assert s[8..8 + n] == data[..n];
  }

  lemma HeaderReads(width: nat, height: nat)
    requires width < WORDS && height < WORDS
    ensures var h := Header(width, height);
            |h| == 13 && ReadBig(h) == width && ReadBig(h[4..]) == height && h[8..] == RGB8
  {
    var h := Header(width, height);
    WordReads(width);
    WordReads(height);
    assert h[..4] == BigEndian(width) && h[4..][..4] == BigEndian(height) && h[8..] == RGB8;
    ReadsPrefix(h, BigEndian(width));
    ReadsPrefix(h[4..], BigEndian(height));
  }
}
