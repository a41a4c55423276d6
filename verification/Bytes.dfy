/** Octets, and the exclusive or of octets.

    Naming the operator lets equal arguments give equal results without a search over bits, and associativity and
    commutativity are then stated once.
    Base64, the field and the cipher are all written over these.
*/
module Bytes {
  import opened Words

  function Xor(x: byte, y: byte): byte {
    x ^ y
  }

  function Xor4(x: byte, y: byte, z: byte, w: byte): byte {
    x ^ y ^ z ^ w
  }

  lemma XorAC(x: byte, y: byte, z: byte)
    ensures Xor(x, y) == Xor(y, x)
    ensures Xor(Xor(x, y), z) == Xor(x, Xor(y, z))
  {
    assert Xor(Xor(x, y), z) == Xor(x ^ y, z);
    assert Xor(x, Xor(y, z)) == Xor(x, y ^ z);
  }

  lemma XorCancels(x: byte, y: byte)
    ensures Xor(Xor(x, y), y) == x
    ensures Xor(x, 0) == x && Xor(0, x) == x && Xor(x, x) == 0
  {
    assert Xor(Xor(x, y), y) == Xor(x ^ y, y);
  }

  lemma Xor4IsXor(x: byte, y: byte, z: byte, w: byte)
    ensures Xor4(x, y, z, w) == Xor(Xor(x, y), Xor(z, w))
  {
    assert Xor(Xor(x, y), Xor(z, w)) == Xor(x ^ y, z ^ w);
  }

  /** The sum of a four by four table by rows is its sum by columns. */
  lemma XorTranspose(a: byte, b: byte, c: byte, d: byte, e: byte, f: byte, g: byte, h: byte,
                     i: byte, j: byte, k: byte, l: byte, m: byte, n: byte, o: byte, p: byte)
    ensures Xor4(Xor4(a, b, c, d), Xor4(e, f, g, h), Xor4(i, j, k, l), Xor4(m, n, o, p)) ==
            Xor4(Xor4(a, e, i, m), Xor4(b, f, j, n), Xor4(c, g, k, o), Xor4(d, h, l, p))
  {
    assert Xor4(Xor4(a, b, c, d), Xor4(e, f, g, h), Xor4(i, j, k, l), Xor4(m, n, o, p)) ==
           Xor4(a ^ b ^ c ^ d, e ^ f ^ g ^ h, i ^ j ^ k ^ l, m ^ n ^ o ^ p);
    assert Xor4(Xor4(a, e, i, m), Xor4(b, f, j, n), Xor4(c, g, k, o), Xor4(d, h, l, p)) ==
           Xor4(a ^ e ^ i ^ m, b ^ f ^ j ^ n, c ^ g ^ k ^ o, d ^ h ^ l ^ p);
  }

  lemma Xor4Rotates(x: byte, y: byte, z: byte, w: byte)
    ensures Xor4(x, y, z, w) == Xor4(w, x, y, z)
  {
  }
}
