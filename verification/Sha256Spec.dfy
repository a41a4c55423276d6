/** SHA-256 as FIPS 180-4 defines it: the functions of section 4.1.2, the padding of section 5.1.1, the schedule
    and the compression of section 6.2.2. Nothing here comes from the program.

    It is what the program is held to.
*/
module Sha256Spec {
  import opened Words

  /** The eight working variables, and also a hash value H0..H7. */
  datatype Regs = Regs(a: word, b: word, c: word, d: word, e: word, f: word, g: word, h: word)

  // ---- Section 4.1.2: functions on 32-bit words ----

  function Rotr(x: word, n: bv6): word
    requires 0 < n < 32
  {
    (x >> n) | (x << (32 - n))
  }

  function Parity(x: word, y: word, z: word): word {
    x ^ y ^ z
  }

  function Ch(x: word, y: word, z: word): word {
    (x & y) ^ (!x & z)
  }

  function Maj(x: word, y: word, z: word): word {
    (x & y) ^ (x & z) ^ (y & z)
  }

  function BigSigma0(x: word): word {
    Parity(Rotr(x, 2), Rotr(x, 13), Rotr(x, 22))
  }

  function BigSigma1(x: word): word {
    Parity(Rotr(x, 6), Rotr(x, 11), Rotr(x, 25))
  }

  function SmallSigma0(x: word): word {
    Parity(Rotr(x, 7), Rotr(x, 18), x >> 3)
  }

  function SmallSigma1(x: word): word {
    Parity(Rotr(x, 17), Rotr(x, 19), x >> 10)
  }

  // ---- Sections 4.2.2 and 5.3.3: constants ----

  const K: seq<word> :=
    [0x428A2F98, 0x71374491, 0xB5C0FBCF, 0xE9B5DBA5, 0x3956C25B, 0x59F111F1, 0x923F82A4, 0xAB1C5ED5] +
    [0xD807AA98, 0x12835B01, 0x243185BE, 0x550C7DC3, 0x72BE5D74, 0x80DEB1FE, 0x9BDC06A7, 0xC19BF174] +
    [0xE49B69C1, 0xEFBE4786, 0x0FC19DC6, 0x240CA1CC, 0x2DE92C6F, 0x4A7484AA, 0x5CB0A9DC, 0x76F988DA] +
    [0x983E5152, 0xA831C66D, 0xB00327C8, 0xBF597FC7, 0xC6E00BF3, 0xD5A79147, 0x06CA6351, 0x14292967] +
    [0x27B70A85, 0x2E1B2138, 0x4D2C6DFC, 0x53380D13, 0x650A7354, 0x766A0ABB, 0x81C2C92E, 0x92722C85] +
    [0xA2BFE8A1, 0xA81A664B, 0xC24B8B70, 0xC76C51A3, 0xD192E819, 0xD6990624, 0xF40E3585, 0x106AA070] +
    [0x19A4C116, 0x1E376C08, 0x2748774C, 0x34B0BCB5, 0x391C0CB3, 0x4ED8AA4A, 0x5B9CCA4F, 0x682E6FF3] +
    [0x748F82EE, 0x78A5636F, 0x84C87814, 0x8CC70208, 0x90BEFFFA, 0xA4506CEB, 0xBEF9A3F7, 0xC67178F2]

  const H0 := Regs(0x6A09E667, 0xBB67AE85, 0x3C6EF372, 0xA54FF53A, 0x510E527F, 0x9B05688C, 0x1F83D9AB, 0x5BE0CD19)

  // ---- Section 6.2.2: schedule and compression ----

  // Addition modulo 2^32, of two and of four words.

  function Plus(x: word, y: word): word {
    x + y
  }

  function Sum4(x: word, y: word, z: word, u: word): word {
    x + y + z + u
  }

  /** W_t from the four earlier words it is made of. */
  function NextWord(w2: word, w7: word, w15: word, w16: word): word {
    Sum4(SmallSigma1(w2), w7, SmallSigma0(w15), w16)
  }

  /** W_t of the block m. */
  function Schedule(m: seq<word>, t: nat): word
    requires |m| == 16
  {
    if t < 16 then m[t]
    else NextWord(Schedule(m, t - 2), Schedule(m, t - 7), Schedule(m, t - 15), Schedule(m, t - 16))
  }

  /** What round t adds: K_t + W_t. */
  function RoundInput(m: seq<word>, t: nat): word
    requires |m| == 16 && t < 64
  {
    Plus(K[t], Schedule(m, t))
  }

  function T1(s: Regs, kw: word): word {
    Sum4(s.h, BigSigma1(s.e), Ch(s.e, s.f, s.g), kw)
  }

  function T2(s: Regs): word {
    Plus(BigSigma0(s.a), Maj(s.a, s.b, s.c))
  }

  /** One round, given K_t + W_t. */
  function Round(s: Regs, kw: word): Regs {
    Regs(Plus(T1(s, kw), T2(s)), s.a, s.b, s.c, Plus(s.d, T1(s, kw)), s.e, s.f, s.g)
  }

  /** The working variables after rounds 0 .. t-1. */
  function Rounds(s: Regs, m: seq<word>, t: nat): Regs
    requires |m| == 16 && t <= 64
  {
    if t == 0 then s else Round(Rounds(s, m, t - 1), RoundInput(m, t - 1))
  }

  function AddRegs(x: Regs, y: Regs): Regs {
    Regs(Plus(x.a, y.a), Plus(x.b, y.b), Plus(x.c, y.c), Plus(x.d, y.d),
         Plus(x.e, y.e), Plus(x.f, y.f), Plus(x.g, y.g), Plus(x.h, y.h))
  }

  function Compress(h: Regs, m: seq<word>): Regs
    requires |m| == 16
  {
    AddRegs(h, Rounds(h, m, 64))
  }

  // ---- Bytes and words, big-endian ----

  function Word(b0: byte, b1: byte, b2: byte, b3: byte): word {
    ((b0 as word) << 24) | ((b1 as word) << 16) | ((b2 as word) << 8) | (b3 as word)
  }

  function BlockWords(b: seq<byte>): (m: seq<word>)
    requires |b| == 64
    ensures |m| == 16
  {
    seq(16, i requires 0 <= i < 16 => Word(b[4 * i], b[4 * i + 1], b[4 * i + 2], b[4 * i + 3]))
  }

  function WordBytes(w: word): (b: seq<byte>)
    ensures |b| == 4
  {
    [((w >> 24) & 0xFF) as byte, ((w >> 16) & 0xFF) as byte, ((w >> 8) & 0xFF) as byte, (w & 0xFF) as byte]
  }

  function WordsBytes(ws: seq<word>): (b: seq<byte>)
    ensures |b| == 4 * |ws|
  {
    if |ws| == 0 then [] else WordsBytes(ws[..|ws| - 1]) + WordBytes(ws[|ws| - 1])
  }

  function RegsWords(h: Regs): seq<word> {
    [h.a, h.b, h.c, h.d, h.e, h.f, h.g, h.h]
  }

  // ---- Sections 5.1.1, 5.2.1 and 6.2.2: padding and the chain over the blocks ----

  /** n message bytes, the byte 0x80, k zero bytes and the 8-byte length make whole blocks. */
  predicate WholeBlocks(n: nat, k: nat) {
    (n + 1 + k + 8) % 64 == 0
  }

  /** The least number of zero bytes that does. */
  function ZeroBytes(n: nat): (k: nat)
    ensures WholeBlocks(n, k)
    ensures forall j: nat :: j < k ==> !WholeBlocks(n, j)
  {
    (119 - n % 64) % 64
  }

  /** n shifted right by 8 * i bits. */
  function ShiftBytes(n: nat, i: nat): nat {
    if i == 0 then n else ShiftBytes(n / 256, i - 1)
  }

  /** Byte i, most significant first, of the 64-bit length n; section 5.1.1 is stated for n below 2^64. */
  function LengthByte(n: nat, i: nat): byte
    requires i < 8
  {
    (ShiftBytes(n % 0x1_0000_0000_0000_0000, 7 - i) % 256) as byte
  }

  function Length64(n: nat): (b: seq<byte>)
    ensures |b| == 8
  {
    seq(8, i requires 0 <= i < 8 => LengthByte(n, i))
  }

  function Pad(m: seq<byte>): (p: seq<byte>)
    ensures |p| % 64 == 0
  {
    m + [0x80] + seq(ZeroBytes(|m|), i => 0) + Length64(8 * |m|)
  }

  function Chain(h: Regs, p: seq<byte>): Regs
    requires |p| % 64 == 0
    decreases |p|
  {
    if |p| == 0 then h else Chain(Compress(h, BlockWords(p[..64])), p[64..])
  }

  function Sha256(m: seq<byte>): (d: seq<byte>)
    ensures |d| == 32
  {
    WordsBytes(RegsWords(Chain(H0, Pad(m))))
  }
}
