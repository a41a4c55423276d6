/** The S-box that section 5.1.1 of FIPS 197 defines, and that the program's table is that one. */
module SboxSpec {
  import opened AesTables
  import opened Bytes
  import opened GaloisField
  import opened Words

  /** The inverse in GF(2^8), with 0 for 0. */
  predicate IsInverse(x: byte, y: byte) {
    if x == 0 then y == 0 else Mul(x, y) == 1
  }

  /** Bit i of the result is the sum of the bits i, i + 4, i + 5, i + 6 and i + 7 modulo 8 and of bit i of 0x63. */
  function Affine(b: byte): byte {
    b ^ ((b << 1) | (b >> 7)) ^ ((b << 2) | (b >> 6)) ^ ((b << 3) | (b >> 5)) ^ ((b << 4) | (b >> 4)) ^ 0x63
  }

  /** It is undone by another affine map. */
  function InvAffine(z: byte): byte {
    ((z << 1) | (z >> 7)) ^ ((z << 3) | (z >> 5)) ^ ((z << 6) | (z >> 2)) ^ 0x05
  }

  lemma AffineOfInvAffine(z: byte)
    ensures Affine(InvAffine(z)) == z
  {
  }

  // ---- The table holds inverses ----

  lemma Inverses0(x: byte)
    requires 0 < x < 0x40
    ensures Mul(x, InvAffine(Sbox(x))) == 1
  {
  }

  lemma Inverses1(x: byte)
    requires 0x40 <= x < 0x80
    ensures Mul(x, InvAffine(Sbox(x))) == 1
  {
  }

  lemma Inverses2(x: byte)
    requires 0x80 <= x < 0xc0
    ensures Mul(x, InvAffine(Sbox(x))) == 1
  {
  }

  lemma Inverses3(x: byte)
    requires 0xc0 <= x
    ensures Mul(x, InvAffine(Sbox(x))) == 1
  {
  }

  lemma TableHoldsInverses(x: byte)
    ensures IsInverse(x, InvAffine(Sbox(x)))
  {
    if 0 < x < 0x40 {
      Inverses0(x);
    } else if 0x40 <= x < 0x80 {
      Inverses1(x);
    } else if 0x80 <= x < 0xc0 {
      Inverses2(x);
    } else if 0xc0 <= x {
      Inverses3(x);
    }
  }

  // ---- There is one inverse only ----

  /** x^8 is x^4 + x^3 + x + 1. */
  lemma Reduction(a: byte)
    ensures Mul(a, 0x1B) == Mul(XTime(a), 0x80)
  {
  }

  lemma WithoutTopBit(b: byte)
    ensures Fits(b & 0x7f, 7) && ((b & 0x7f) << 1) & 1 == 0 && ((b & 0x7f) << 1) >> 1 == b & 0x7f
    ensures b & 0x80 == 0 ==> b == b & 0x7f && XTime(b) == (b & 0x7f) << 1
    ensures b & 0x80 != 0 ==> b == Xor(b & 0x7f, 0x80) && XTime(b) == Xor((b & 0x7f) << 1, 0x1B)
  {
  }

  /** Multiplication by x may move from one factor to the other. */
  lemma XTimeMoves(a: byte, b: byte)
    ensures Mul(a, XTime(b)) == Mul(XTime(a), b)
  {
    var k, double := b & 0x7f, (b & 0x7f) << 1;
    WithoutTopBit(b);
    MulOfDouble(a, k, double);
    if b & 0x80 != 0 {
      MulBitsAdds(a, double, 0x1B, 8);
      MulBitsAdds(XTime(a), k, 0x80, 8);
      Reduction(a);
    }
  }

  lemma {:induction false} MulBitsAssociates(a: byte, b: byte, c: byte, n: nat)
    ensures MulBits(Mul(a, b), c, n) == Mul(a, MulBits(b, c, n))
    decreases n
  {
    MulZeroOne(a);
    if n > 0 {
      XTimeOfMulBits(a, b, 8);
      XTimeMoves(a, b);
      MulBitsAssociates(a, XTime(b), c >> 1, n - 1);
      MulBitsAdds(a, if c & 1 != 0 then b else 0, MulBits(XTime(b), c >> 1, n - 1), 8);
    }
  }

  lemma MulAssociates(a: byte, b: byte, c: byte)
    ensures Mul(Mul(a, b), c) == Mul(a, Mul(b, c))
  {
    MulBitsAssociates(a, b, c, 8);
  }

  lemma OneTimes(z: byte)
    ensures Mul(1, z) == z
  {
  }

  lemma InverseUnique(x: byte, y: byte, z: byte)
    requires IsInverse(x, y) && IsInverse(x, z)
    ensures y == z
  {
    if x != 0 {
      var w := InvAffine(Sbox(y));
      TableHoldsInverses(y);
      MulZeroOne(x);
      MulZeroOne(y);
      OneTimes(w);
      OneTimes(z);
      MulAssociates(x, y, w);
      MulAssociates(y, x, z);
    }
  }

  // ---- The table is the standard's ----

  /** Every byte has an inverse, and the table holds the affine image of the inverse. */
  lemma SboxIsStandard(x: byte) returns (y: byte)
    ensures IsInverse(x, y)
    ensures forall z :: IsInverse(x, z) ==> z == y && Sbox(x) == Affine(z)
  {
    y := InvAffine(Sbox(x));
    TableHoldsInverses(x);
    AffineOfInvAffine(Sbox(x));
    forall z | IsInverse(x, z) ensures z == y {
      InverseUnique(x, y, z);
    }
  }
}
