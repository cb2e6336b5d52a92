/** CRC-32 as section 3.4 of RFC 2083 defines it: a remainder of polynomials over GF(2). A polynomial is the sequence of
    its coefficients, the one of the highest power first. */
module Division {

  /** x^32+x^26+x^23+x^22+x^16+x^12+x^11+x^10+x^8+x^7+x^5+x^4+x^2+x+1, without its leading term. */
  const EXPONENTS: seq<nat> := [26, 23, 22, 16, 12, 11, 10, 8, 7, 5, 4, 2, 1, 0]

  /** One step of long division: the leading term is cancelled by the generator, if it is there. */
  function Cancelled(p: seq<bool>): (r: seq<bool>)
    requires |p| > 32
  {
    seq(|p| - 1, i requires 0 <= i < |p| - 1 => p[i + 1] != (p[0] && i < 32 && 31 - i in EXPONENTS))
  }

  /** What long division leaves. */
  function Remainder(p: seq<bool>): seq<bool>
    decreases |p|
  {
    if |p| <= 32 then p else Remainder(Cancelled(p))
  }

  /** The lowest `n` bits of a byte, the least significant first. */
  function BitsOfByte(b: bv8, n: nat): (r: seq<bool>)
    ensures |r| == n
  {
    if n == 0 then [] else [b & 1 == 1] + BitsOfByte(b >> 1, n - 1)
  }

  /** The message as a polynomial: each byte's least significant bit comes first. */
  function MessageBits(bytes: seq<bv8>): seq<bool> {
    if bytes == [] then [] else BitsOfByte(bytes[0], 8) + MessageBits(bytes[1..])
  }

  function Zeros(n: nat): seq<bool> { seq(n, i => false) }

  /** The first `n` coefficients complemented. */
  function Complemented(p: seq<bool>, n: nat): seq<bool> { seq(|p|, i requires 0 <= i < |p| => p[i] != (i < n)) }

  /** The register starts as all ones, that is, the first 32 coefficients of the message shifted by x^32 are
      complemented; the remainder is complemented in the end. */
  function Check(bytes: seq<bv8>): seq<bool> {
    Complemented(Remainder(Complemented(MessageBits(bytes) + Zeros(32), 32)), 32)
  }

  /** As a number: the coefficient of x^31 is the least significant bit. */
  function Number(bits: seq<bool>): nat {
    if bits == [] then 0 else (if bits[0] then 1 else 0) + 2 * Number(bits[1..])
  }
}
