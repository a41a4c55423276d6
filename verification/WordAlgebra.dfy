/** Facts about 32-bit words that the schedule proof needs.

    Both small sigmas are linear over exclusive or, and a sum may be regrouped: with these, what the program folds into
    its constants can be moved back to where the standard has it. Naming an operator lets equal arguments give equal
    results without a search over bits.
*/
module WordAlgebra {
  import opened Sha256Spec
  import opened Words

  function Xor(x: word, y: word): word {
    x ^ y
  }

  ghost function OpenSigma0(x: word): word {
    ((x >> 7) | (x << 25)) ^ ((x >> 18) | (x << 14)) ^ (x >> 3)
  }

  ghost function OpenSigma1(x: word): word {
    ((x >> 17) | (x << 15)) ^ ((x >> 19) | (x << 13)) ^ (x >> 10)
  }

  lemma Sigma0Open(x: word)
    ensures SmallSigma0(x) == OpenSigma0(x)
  {
    assert Rotr(x, 7) == (x >> 7) | (x << 25);
    assert Rotr(x, 18) == (x >> 18) | (x << 14);
    assert SmallSigma0(x) == Parity((x >> 7) | (x << 25), (x >> 18) | (x << 14), x >> 3);
  }

  lemma Sigma1Open(x: word)
    ensures SmallSigma1(x) == OpenSigma1(x)
  {
    assert Rotr(x, 17) == (x >> 17) | (x << 15);
    assert Rotr(x, 19) == (x >> 19) | (x << 13);
    assert SmallSigma1(x) == Parity((x >> 17) | (x << 15), (x >> 19) | (x << 13), x >> 10);
  }

  lemma OpenSigma0Linear(x: word, y: word)
    ensures OpenSigma0(x ^ y) == Xor(OpenSigma0(x), OpenSigma0(y))
  {
    assert Xor(((x >> 7) | (x << 25)) ^ ((x >> 18) | (x << 14)) ^ (x >> 3),
               ((y >> 7) | (y << 25)) ^ ((y >> 18) | (y << 14)) ^ (y >> 3))
        == (((x ^ y) >> 7) | ((x ^ y) << 25)) ^ (((x ^ y) >> 18) | ((x ^ y) << 14)) ^ ((x ^ y) >> 3);
  }

  lemma OpenSigma1Linear(x: word, y: word)
    ensures OpenSigma1(x ^ y) == Xor(OpenSigma1(x), OpenSigma1(y))
  {
    assert Xor(((x >> 17) | (x << 15)) ^ ((x >> 19) | (x << 13)) ^ (x >> 10),
               ((y >> 17) | (y << 15)) ^ ((y >> 19) | (y << 13)) ^ (y >> 10))
        == (((x ^ y) >> 17) | ((x ^ y) << 15)) ^ (((x ^ y) >> 19) | ((x ^ y) << 13)) ^ ((x ^ y) >> 10);
  }

  lemma Sigma0Linear(x: word, y: word)
    ensures SmallSigma0(x ^ y) == Xor(SmallSigma0(x), SmallSigma0(y))
  {
    Sigma0Open(x);
    Sigma0Open(y);
    Sigma0Open(x ^ y);
    OpenSigma0Linear(x, y);
  }

  lemma Sigma1Linear(x: word, y: word)
    ensures SmallSigma1(x ^ y) == Xor(SmallSigma1(x), SmallSigma1(y))
  {
    Sigma1Open(x);
    Sigma1Open(y);
    Sigma1Open(x ^ y);
    OpenSigma1Linear(x, y);
  }

  /** A top byte added, or combined by exclusive or, to a word below 2^24. */
  lemma TopByte(d0: byte, d1: byte, d2: byte)
    ensures ((0x2E as word) << 24) | ((d0 as word) << 16) | ((d1 as word) << 8) | (d2 as word)
            == (((d0 as word) << 16) | ((d1 as word) << 8) | (d2 as word)) ^ 0x2E000000
    ensures ((0x2E as word) << 24) | ((d0 as word) << 16) | ((d1 as word) << 8) | (d2 as word)
            == (((d0 as word) << 16) | ((d1 as word) << 8) | (d2 as word)) + 0x2E000000
  {
  }

  lemma PlusIsSum(x: word, y: word)
    ensures Plus(x, y) == x + y
  {
  }

  lemma PlusCommutes(x: word, y: word)
    ensures Plus(x, y) == Plus(y, x)
  {
  }

  lemma PlusLeft(x: word, y: word, z: word)
    ensures Plus(Plus(x, y), z) == x + y + z
  {
    assert Plus(Plus(x, y), z) == Plus(x + y, z);
  }

  lemma PlusRight(x: word, y: word, z: word)
    ensures Plus(x, Plus(y, z)) == x + y + z
  {
    assert Plus(x, Plus(y, z)) == Plus(x, y + z);
  }

  lemma PlusAC(x: word, y: word, z: word)
    ensures Plus(x, y) == Plus(y, x)
    ensures Plus(Plus(x, y), z) == Plus(x, Plus(y, z))
  {
    PlusCommutes(x, y);
    PlusLeft(x, y, z);
    PlusRight(x, y, z);
  }

  lemma PlusFourth(x: word, y: word, z: word, u: word, k: word)
    requires k == x + y + z
    ensures Plus(k, u) == Sum4(x, y, z, u)
  {
    assert Plus(k, u) == Plus(x + y + z, u);
  }

  lemma Sum4IsPlus(x: word, y: word, z: word, u: word)
    ensures Sum4(x, y, z, u) == Plus(Plus(Plus(x, y), z), u)
  {
    PlusLeft(x, y, z);
    PlusFourth(x, y, z, u, Plus(Plus(x, y), z));
  }

  // Sums with their constant terms collected in k.

  lemma CollectThree(x: word, y: word, z: word, u: word, k: word)
    requires k == Plus(Plus(y, z), u)
    ensures Sum4(x, y, z, u) == Plus(k, x)
  {
    Sum4IsPlus(x, y, z, u);
    PlusAC(x, y, z);
    PlusAC(x, Plus(y, z), u);
    PlusAC(x, k, k);
  }

  lemma CollectTwo(x: word, y: word, z: word, u: word, k: word)
    requires k == Plus(z, u)
    ensures Sum4(x, y, z, u) == Plus(Plus(k, x), y)
  {
    Sum4IsPlus(x, y, z, u);
    PlusAC(Plus(x, y), z, u);
    PlusAC(Plus(x, y), k, k);
    PlusAC(k, x, y);
  }

  lemma CollectOne(x: word, y: word, z: word, u: word)
    ensures Sum4(x, y, z, u) == Plus(Plus(Plus(u, x), y), z)
  {
    Sum4IsPlus(x, y, z, u);
    PlusAC(Plus(Plus(x, y), z), u, u);
    PlusAC(u, Plus(x, y), z);
    PlusAC(u, x, y);
  }

  /** A constant moved from one operand to the other. */
  lemma MoveConstant(x: word, c: word, k: word)
    ensures Plus(Plus(k, c), x) == Plus(k, Plus(x, c))
  {
    PlusAC(k, c, x);
    PlusAC(c, x, x);
  }

  lemma SumFive(x: word, y: word, z: word, u: word, v: word)
    ensures x + y + z + u + v == Sum4(x, y, z, Plus(u, v))
  {
    assert Sum4(x, y, z, Plus(u, v)) == Sum4(x, y, z, u + v);
  }

  function Minus(x: word, y: word): word {
    x - y
  }

  lemma MinusLast(v: word, q: word, k: word, top: word)
    requires v == q + k + top
    ensures Minus(v, k) == Plus(q, top)
  {
    assert Minus(v, k) == Minus(q + k + top, k);
  }

  lemma CancelConstant(q: word, adjusted: word, k: word, top: word)
    requires adjusted == Plus(k, top)
    ensures Minus(Plus(q, adjusted), k) == Plus(q, top)
  {
    PlusRight(q, k, top);
    MinusLast(Plus(q, adjusted), q, k, top);
  }
}
