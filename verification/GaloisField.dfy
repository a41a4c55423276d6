/** Multiplication in GF(2^8) as section 4.2 of FIPS 197 defines it, and the algebra that inverts MixColumns.

    A product distributes over exclusive or, so that a column multiplied by both matrices is the column multiplied by
    their product, and that is the identity.
*/
module GaloisField {
  import opened Bytes
  import opened Words

  /** Section 4.2.1: multiplication by x. */
  function XTime(a: byte): byte {
    if a & 0x80 != 0 then (a << 1) ^ 0x1B else a << 1
  }

  /** a times the low n bits of b: a where the lowest bit is set, plus xtime(a) times the rest. */
  function MulBits(a: byte, b: byte, n: nat): byte
    decreases n
  {
    if n == 0 then 0 else Xor(if b & 1 != 0 then a else 0, MulBits(XTime(a), b >> 1, n - 1))
  }

  function Mul(a: byte, b: byte): byte {
    MulBits(a, b, 8)
  }

  // ---- Linearity ----

  ghost function OpenXTime(a: byte): byte {
    (a << 1) ^ (a >> 7) ^ ((a >> 7) << 1) ^ ((a >> 7) << 3) ^ ((a >> 7) << 4)
  }

  lemma XTimeOpen(a: byte)
    ensures XTime(a) == OpenXTime(a)
  {
  }

  lemma OpenXTimeLinear(x: byte, y: byte)
    ensures OpenXTime(x ^ y) == Xor(OpenXTime(x), OpenXTime(y))
  {
    assert Xor((x << 1) ^ (x >> 7) ^ ((x >> 7) << 1) ^ ((x >> 7) << 3) ^ ((x >> 7) << 4),
               (y << 1) ^ (y >> 7) ^ ((y >> 7) << 1) ^ ((y >> 7) << 3) ^ ((y >> 7) << 4))
        == ((x ^ y) << 1) ^ ((x ^ y) >> 7) ^ (((x ^ y) >> 7) << 1) ^ (((x ^ y) >> 7) << 3) ^ (((x ^ y) >> 7) << 4);
  }

  lemma XTimeLinear(x: byte, y: byte)
    ensures XTime(Xor(x, y)) == Xor(XTime(x), XTime(y))
  {
    XTimeOpen(x);
    XTimeOpen(y);
    XTimeOpen(x ^ y);
    OpenXTimeLinear(x, y);
  }

  lemma XorPairs(a: byte, b: byte, c: byte, d: byte)
    ensures Xor(Xor(a, b), Xor(c, d)) == Xor(Xor(a, c), Xor(b, d))
  {
    Xor4IsXor(a, b, c, d);
    Xor4IsXor(a, c, b, d);
    assert Xor4(a, b, c, d) == Xor4(a, c, b, d);
  }

  lemma {:induction false} MulBitsLinear(x: byte, y: byte, b: byte, n: nat)
    ensures MulBits(Xor(x, y), b, n) == Xor(MulBits(x, b, n), MulBits(y, b, n))
    decreases n
  {
    if n == 0 {
      XorCancels(0, 0);
    } else {
      XTimeLinear(x, y);
      MulBitsLinear(XTime(x), XTime(y), b >> 1, n - 1);
      var x0, y0 := if b & 1 != 0 then x else 0, if b & 1 != 0 then y else 0;
      assert (if b & 1 != 0 then Xor(x, y) else 0) == Xor(x0, y0) by {
        XorCancels(0, 0);
      }
      XorPairs(x0, y0, MulBits(XTime(x), b >> 1, n - 1), MulBits(XTime(y), b >> 1, n - 1));
    }
  }

  /** Multiplication distributes over addition. */
  lemma MulXor4(p: byte, q: byte, r: byte, s: byte, b: byte)
    ensures Mul(Xor4(p, q, r, s), b) == Xor4(Mul(p, b), Mul(q, b), Mul(r, b), Mul(s, b))
  {
    Xor4IsXor(p, q, r, s);
    MulBitsLinear(Xor(p, q), Xor(r, s), b, 8);
    MulBitsLinear(p, q, b, 8);
    MulBitsLinear(r, s, b, 8);
    Xor4IsXor(Mul(p, b), Mul(q, b), Mul(r, b), Mul(s, b));
  }

  lemma {:induction false} MulBitsAdds(a: byte, p: byte, q: byte, n: nat)
    ensures Xor(MulBits(a, p, n), MulBits(a, q, n)) == MulBits(a, Xor(p, q), n)
    decreases n
  {
    XorCancels(a, 0);
    if n > 0 {
      MulBitsAdds(XTime(a), p >> 1, q >> 1, n - 1);
      var p0, q0 := if p & 1 != 0 then a else 0, if q & 1 != 0 then a else 0;
      XorPairs(p0, MulBits(XTime(a), p >> 1, n - 1), q0, MulBits(XTime(a), q >> 1, n - 1));
      LowBit(p, q);
    }
  }

  lemma LowBit(p: byte, q: byte)
    ensures Xor(p, q) & 1 != 0 <==> (p & 1 != 0) != (q & 1 != 0)
    ensures Xor(p, q) >> 1 == Xor(p >> 1, q >> 1)
  {
  }

  /** The second operands of a sum of products by the same byte add up. */
  lemma MulSum(a: byte, p: byte, q: byte, r: byte, s: byte)
    ensures Xor4(Mul(a, p), Mul(a, q), Mul(a, r), Mul(a, s)) == Mul(a, Xor4(p, q, r, s))
  {
    Xor4IsXor(Mul(a, p), Mul(a, q), Mul(a, r), Mul(a, s));
    MulBitsAdds(a, p, q, 8);
    MulBitsAdds(a, r, s, 8);
    MulBitsAdds(a, Xor(p, q), Xor(r, s), 8);
    Xor4IsXor(p, q, r, s);
  }

  lemma {:induction false} XTimeOfMulBits(a: byte, b: byte, n: nat)
    ensures XTime(MulBits(a, b, n)) == MulBits(XTime(a), b, n)
    decreases n
  {
    if n > 0 {
      XTimeOfMulBits(XTime(a), b >> 1, n - 1);
      XTimeLinear(if b & 1 != 0 then a else 0, MulBits(XTime(a), b >> 1, n - 1));
    }
  }

  lemma {:induction false} MulNothing(a: byte, n: nat)
    ensures MulBits(a, 0, n) == 0
    decreases n
  {
    XorCancels(0, 0);
    if n > 0 {
      MulNothing(XTime(a), n - 1);
    }
  }

  lemma MulUnit(a: byte, n: nat)
    requires n > 0
    ensures MulBits(a, 1, n) == a
  {
    MulNothing(XTime(a), n - 1);
    XorCancels(a, 0);
  }

  lemma MulTwoThree(a: byte)
    ensures Mul(a, 2) == XTime(a) && Mul(a, 3) == Xor(a, XTime(a))
  {
    MulUnit(XTime(a), 7);
    XorCancels(XTime(a), 0);
    assert MulBits(a, 2, 8) == Xor(0, MulBits(XTime(a), 1, 7));
    assert MulBits(a, 3, 8) == Xor(a, MulBits(XTime(a), 1, 7));
  }

  /** With the top bit clear, one bit fewer is enough. */
  lemma {:induction false} MulTopBitClear(a: byte, b: byte, n: nat)
    requires Fits(b, n)
    ensures MulBits(a, b, n + 1) == MulBits(a, b, n)
    decreases n
  {
    if n == 0 {
      MulNothing(a, 1);
    } else {
      MulTopBitClear(XTime(a), b >> 1, n - 1);
    }
  }

  /** b has at most n significant bits. */
  predicate Fits(b: byte, n: nat)
    decreases n
  {
    if n == 0 then b == 0 else Fits(b >> 1, n - 1)
  }

  lemma MulOfDouble(a: byte, k: byte, double: byte)
    requires Fits(k, 7) && double & 1 == 0 && double >> 1 == k
    ensures Mul(XTime(a), k) == Mul(a, double)
  {
    MulTopBitClear(XTime(a), k, 7);
    XorCancels(MulBits(XTime(a), k, 7), 0);
  }

  /** Products with 2 and 3 combine with a second factor of at most 7 bits, in either order. */
  lemma MulCombines(a: byte, k: byte, double: byte, triple: byte)
    requires Fits(k, 7) && double & 1 == 0 && double >> 1 == k && triple == Xor(k, double)
    ensures Mul(Mul(a, 2), k) == Mul(a, double) == Mul(Mul(a, k), 2)
    ensures Mul(Mul(a, 3), k) == Mul(a, triple) == Mul(Mul(a, k), 3)
  {
    MulTwoThree(a);
    MulTwoThree(Mul(a, k));
    MulOfDouble(a, k, double);
    XTimeOfMulBits(a, k, 8);
    MulBitsLinear(a, XTime(a), k, 8);
    MulBitsAdds(a, k, double, 8);
  }

  lemma ConstantsFit()
    ensures Fits(9, 7) && Fits(11, 7) && Fits(13, 7) && Fits(14, 7)
  {
    assert Fits(0, 3);
    assert Fits(1, 4);
    assert Fits(2, 5) && Fits(3, 5);
    assert Fits(4, 6) && Fits(5, 6) && Fits(6, 6) && Fits(7, 6);
  }

  lemma MulZeroOne(a: byte)
    ensures Mul(a, 0) == 0 && Mul(a, 1) == a
  {
    MulNothing(a, 8);
    MulUnit(a, 8);
  }

  // ---- MixColumns and InvMixColumns on one byte of a column (sections 5.1.3 and 5.3.3) ----

  function MixByte(a: byte, b: byte, c: byte, d: byte): byte {
    Xor4(Mul(a, 2), Mul(b, 3), c, d)
  }

  function InvMixByte(a: byte, b: byte, c: byte, d: byte): byte {
    Xor4(Mul(a, 14), Mul(b, 11), Mul(c, 13), Mul(d, 9))
  }

  lemma CombineConstants(a: byte)
    ensures Mul(Mul(a, 2), 14) == Mul(a, 28) == Mul(Mul(a, 14), 2)
            && Mul(Mul(a, 3), 14) == Mul(a, 18) == Mul(Mul(a, 14), 3)
    ensures Mul(Mul(a, 2), 11) == Mul(a, 22) == Mul(Mul(a, 11), 2)
            && Mul(Mul(a, 3), 11) == Mul(a, 29) == Mul(Mul(a, 11), 3)
    ensures Mul(Mul(a, 2), 13) == Mul(a, 26) == Mul(Mul(a, 13), 2)
            && Mul(Mul(a, 3), 13) == Mul(a, 23) == Mul(Mul(a, 13), 3)
    ensures Mul(Mul(a, 2), 9) == Mul(a, 18) == Mul(Mul(a, 9), 2) && Mul(Mul(a, 3), 9) == Mul(a, 27) == Mul(Mul(a, 9), 3)
  {
    ConstantsFit();
    MulCombines(a, 14, 28, 18);
    MulCombines(a, 11, 22, 29);
    MulCombines(a, 13, 26, 23);
    MulCombines(a, 9, 18, 27);
  }

  /** The coefficients of the product of the two matrices, with either one first: 1 on the diagonal, 0 elsewhere. */
  lemma Coefficients(a: byte)
    ensures Xor4(Mul(a, 28), Mul(a, 11), Mul(a, 13), Mul(a, 27)) == a
    ensures Xor4(Mul(a, 18), Mul(a, 22), Mul(a, 13), Mul(a, 9)) == 0
    ensures Xor4(Mul(a, 14), Mul(a, 29), Mul(a, 26), Mul(a, 9)) == 0
    ensures Xor4(Mul(a, 14), Mul(a, 11), Mul(a, 23), Mul(a, 18)) == 0
    ensures Xor4(Mul(a, 28), Mul(a, 27), Mul(a, 13), Mul(a, 11)) == a
    ensures Xor4(Mul(a, 22), Mul(a, 18), Mul(a, 9), Mul(a, 13)) == 0
    ensures Xor4(Mul(a, 26), Mul(a, 29), Mul(a, 14), Mul(a, 9)) == 0
    ensures Xor4(Mul(a, 18), Mul(a, 23), Mul(a, 11), Mul(a, 14)) == 0
  {
    MulZeroOne(a);
    MulSum(a, 28, 11, 13, 27);
    MulSum(a, 18, 22, 13, 9);
    MulSum(a, 14, 29, 26, 9);
    MulSum(a, 14, 11, 23, 18);
    MulSum(a, 28, 27, 13, 11);
    MulSum(a, 22, 18, 9, 13);
    MulSum(a, 26, 29, 14, 9);
    MulSum(a, 18, 23, 11, 14);
  }

  lemma XorOfOne(a: byte)
    ensures Xor4(a, 0, 0, 0) == a
  {
  }

  /** InvMixColumns undoes MixColumns. */
  lemma InvMixOfMix(a: byte, b: byte, c: byte, d: byte)
    ensures InvMixByte(MixByte(a, b, c, d), MixByte(b, c, d, a), MixByte(c, d, a, b), MixByte(d, a, b, c)) == a
  {
    MulXor4(Mul(a, 2), Mul(b, 3), c, d, 14);
    MulXor4(Mul(b, 2), Mul(c, 3), d, a, 11);
    MulXor4(Mul(c, 2), Mul(d, 3), a, b, 13);
    MulXor4(Mul(d, 2), Mul(a, 3), b, c, 9);
    CombineConstants(a);
    CombineConstants(b);
    CombineConstants(c);
    CombineConstants(d);
    Xor4Rotates(Mul(b, 22), Mul(c, 29), Mul(d, 11), Mul(a, 11));
    Xor4Rotates(Mul(c, 26), Mul(d, 23), Mul(a, 13), Mul(b, 13));
    Xor4Rotates(Mul(b, 13), Mul(c, 26), Mul(d, 23), Mul(a, 13));
    Xor4Rotates(Mul(a, 27), Mul(b, 9), Mul(c, 9), Mul(d, 18));
    SumByColumns(a, b, c, d);
  }

  lemma SumByColumns(a: byte, b: byte, c: byte, d: byte)
    ensures Xor4(Xor4(Mul(a, 28), Mul(b, 18), Mul(c, 14), Mul(d, 14)),
                 Xor4(Mul(a, 11), Mul(b, 22), Mul(c, 29), Mul(d, 11)),
                 Xor4(Mul(a, 13), Mul(b, 13), Mul(c, 26), Mul(d, 23)),
                 Xor4(Mul(a, 27), Mul(b, 9), Mul(c, 9), Mul(d, 18))) == a
  {
    XorTranspose(Mul(a, 28), Mul(b, 18), Mul(c, 14), Mul(d, 14), Mul(a, 11), Mul(b, 22), Mul(c, 29), Mul(d, 11),
                 Mul(a, 13), Mul(b, 13), Mul(c, 26), Mul(d, 23), Mul(a, 27), Mul(b, 9), Mul(c, 9), Mul(d, 18));
    Coefficients(a);
    Coefficients(b);
    Coefficients(c);
    Coefficients(d);
    XorOfOne(a);
  }

  /** MixColumns undoes InvMixColumns. */
  lemma MixOfInvMix(a: byte, b: byte, c: byte, d: byte)
    ensures MixByte(InvMixByte(a, b, c, d), InvMixByte(b, c, d, a), InvMixByte(c, d, a, b), InvMixByte(d, a, b, c)) == a
  {
    MulXor4(Mul(a, 14), Mul(b, 11), Mul(c, 13), Mul(d, 9), 2);
    MulXor4(Mul(b, 14), Mul(c, 11), Mul(d, 13), Mul(a, 9), 3);
    CombineConstants(a);
    CombineConstants(b);
    CombineConstants(c);
    CombineConstants(d);
    Xor4Rotates(Mul(b, 18), Mul(c, 29), Mul(d, 23), Mul(a, 27));
    Xor4Rotates(Mul(c, 14), Mul(d, 11), Mul(a, 13), Mul(b, 9));
    Xor4Rotates(Mul(b, 9), Mul(c, 14), Mul(d, 11), Mul(a, 13));
    Xor4Rotates(Mul(a, 11), Mul(b, 13), Mul(c, 9), Mul(d, 14));
    InverseSumByColumns(a, b, c, d);
  }

  lemma InverseSumByColumns(a: byte, b: byte, c: byte, d: byte)
    ensures Xor4(Xor4(Mul(a, 28), Mul(b, 22), Mul(c, 26), Mul(d, 18)),
                 Xor4(Mul(a, 27), Mul(b, 18), Mul(c, 29), Mul(d, 23)),
                 Xor4(Mul(a, 13), Mul(b, 9), Mul(c, 14), Mul(d, 11)),
                 Xor4(Mul(a, 11), Mul(b, 13), Mul(c, 9), Mul(d, 14))) == a
  {
    XorTranspose(Mul(a, 28), Mul(b, 22), Mul(c, 26), Mul(d, 18), Mul(a, 27), Mul(b, 18), Mul(c, 29), Mul(d, 23),
                 Mul(a, 13), Mul(b, 9), Mul(c, 14), Mul(d, 11), Mul(a, 11), Mul(b, 13), Mul(c, 9), Mul(d, 14));
    Coefficients(a);
    Coefficients(b);
    Coefficients(c);
    Coefficients(d);
    XorOfOne(a);
  }
}
