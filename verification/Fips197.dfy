/** AES-128 as FIPS 197 defines it, on the 16 bytes of a state in the order of section 3.4: byte r + 4c is row r of
    column c.

    The program has only the inverse cipher; the forward cipher here is what it must undo.
*/
module Fips197 {
  import opened Bytes
  import opened GaloisField
  import opened AesTables
  import opened Words

  type State = s: seq<byte> | |s| == 16 witness [0, 0, 0, 0, 0, 0, 0, 0] + [0, 0, 0, 0, 0, 0, 0, 0]

  // ---- Section 5.1: the four transformations, and section 5.3: their inverses ----

  function SubBytes(s: State): State {
    seq(16, i requires 0 <= i < 16 => Sbox(s[i]))
  }

  function InvSubBytes(s: State): State {
    seq(16, i requires 0 <= i < 16 => InvSbox(s[i]))
  }

  /** The place of row r in column c, columns counted cyclically. */
  function Place(r: nat, c: nat): (i: nat)
    requires r < 4
    ensures i < 16 && i % 4 == r && i / 4 == c % 4
  {
    c % 4 * 4 + r
  }

  /** Where byte i comes from when row r moves r places to the left. */
  function LeftSource(i: nat): (j: nat)
    requires i < 16
    ensures j < 16
  {
    Place(i % 4, i / 4 + i % 4)
  }

  /** Where byte i comes from when row r moves r places to the right. */
  function RightSource(i: nat): (j: nat)
    requires i < 16
    ensures j < 16
  {
    Place(i % 4, i / 4 + 4 - i % 4)
  }

  lemma CyclicColumns(c: nat, r: nat)
    requires c < 4 && r < 4
    ensures ((c + r) % 4 + 4 - r) % 4 == c && ((c + 4 - r) % 4 + r) % 4 == c
  {
  }

  lemma SourcesInverse(i: nat)
    requires i < 16
    ensures LeftSource(RightSource(i)) == i && RightSource(LeftSource(i)) == i
  {
    CyclicColumns(i / 4, i % 4);
  }

  function ShiftRows(s: State): State {
    seq(16, i requires 0 <= i < 16 => s[LeftSource(i)])
  }

  function InvShiftRows(s: State): State {
    seq(16, i requires 0 <= i < 16 => s[RightSource(i)])
  }

  function MixColumn(a: byte, b: byte, c: byte, d: byte): (m: seq<byte>)
    ensures |m| == 4
  {
    [MixByte(a, b, c, d), MixByte(b, c, d, a), MixByte(c, d, a, b), MixByte(d, a, b, c)]
  }

  function InvMixColumn(a: byte, b: byte, c: byte, d: byte): (m: seq<byte>)
    ensures |m| == 4
  {
    [InvMixByte(a, b, c, d), InvMixByte(b, c, d, a), InvMixByte(c, d, a, b), InvMixByte(d, a, b, c)]
  }

  function MixColumns(s: State): State {
    MixColumn(s[0], s[1], s[2], s[3]) + MixColumn(s[4], s[5], s[6], s[7]) +
    MixColumn(s[8], s[9], s[10], s[11]) + MixColumn(s[12], s[13], s[14], s[15])
  }

  function InvMixColumns(s: State): State {
    InvMixColumn(s[0], s[1], s[2], s[3]) + InvMixColumn(s[4], s[5], s[6], s[7]) +
    InvMixColumn(s[8], s[9], s[10], s[11]) + InvMixColumn(s[12], s[13], s[14], s[15])
  }

  /** Round key number round is bytes 16 * round .. 16 * round + 15 of the expanded key. */
  function AddRoundKey(s: State, w: seq<byte>, round: nat): State
    requires |w| == 176 && round <= 10
  {
    seq(16, i requires 0 <= i < 16 => Xor(s[i], w[16 * round + i]))
  }

  lemma SubBytesInverse(s: State)
    ensures InvSubBytes(SubBytes(s)) == s
    ensures SubBytes(InvSubBytes(s)) == s
  {
    forall i | 0 <= i < 16
      ensures InvSubBytes(SubBytes(s))[i] == s[i] && SubBytes(InvSubBytes(s))[i] == s[i]
    {
      TablesAreInverse(s[i]);
    }
  }

  lemma ShiftRowsInverse(s: State)
    ensures InvShiftRows(ShiftRows(s)) == s
    ensures ShiftRows(InvShiftRows(s)) == s
  {
    forall i | 0 <= i < 16
      ensures InvShiftRows(ShiftRows(s))[i] == s[i] && ShiftRows(InvShiftRows(s))[i] == s[i]
    {
      SourcesInverse(i);
    }
  }

  lemma MixColumnInverse(a: byte, b: byte, c: byte, d: byte)
    ensures var m := MixColumn(a, b, c, d); InvMixColumn(m[0], m[1], m[2], m[3]) == [a, b, c, d]
    ensures var m := InvMixColumn(a, b, c, d); MixColumn(m[0], m[1], m[2], m[3]) == [a, b, c, d]
  {
    InvMixOfMix(a, b, c, d);
    InvMixOfMix(b, c, d, a);
    InvMixOfMix(c, d, a, b);
    InvMixOfMix(d, a, b, c);
    MixOfInvMix(a, b, c, d);
    MixOfInvMix(b, c, d, a);
    MixOfInvMix(c, d, a, b);
    MixOfInvMix(d, a, b, c);
  }

  /** A state as its four columns. */
  lemma ColumnBytes(p: seq<byte>, q: seq<byte>, r: seq<byte>, t: seq<byte>)
    requires |p| == |q| == |r| == |t| == 4
    ensures var s := p + q + r + t;
            && s[0] == p[0] && s[1] == p[1] && s[2] == p[2] && s[3] == p[3]
            && s[4] == q[0] && s[5] == q[1] && s[6] == q[2] && s[7] == q[3]
            && s[8] == r[0] && s[9] == r[1] && s[10] == r[2] && s[11] == r[3]
            && s[12] == t[0] && s[13] == t[1] && s[14] == t[2] && s[15] == t[3]
  {
  }

  lemma StateIsColumns(s: State)
    ensures s == [s[0], s[1], s[2], s[3]] + [s[4], s[5], s[6], s[7]] +
                 [s[8], s[9], s[10], s[11]] + [s[12], s[13], s[14], s[15]]
  {
  }

  lemma InvMixColumnsOfMixColumns(s: State)
    ensures InvMixColumns(MixColumns(s)) == s
  {
    hide MixByte, InvMixByte;
    ColumnBytes(MixColumn(s[0], s[1], s[2], s[3]), MixColumn(s[4], s[5], s[6], s[7]),
                MixColumn(s[8], s[9], s[10], s[11]), MixColumn(s[12], s[13], s[14], s[15]));
    MixColumnInverse(s[0], s[1], s[2], s[3]);
    MixColumnInverse(s[4], s[5], s[6], s[7]);
    MixColumnInverse(s[8], s[9], s[10], s[11]);
    MixColumnInverse(s[12], s[13], s[14], s[15]);
    StateIsColumns(s);
  }

  lemma MixColumnsOfInvMixColumns(s: State)
    ensures MixColumns(InvMixColumns(s)) == s
  {
    hide MixByte, InvMixByte;
    ColumnBytes(InvMixColumn(s[0], s[1], s[2], s[3]), InvMixColumn(s[4], s[5], s[6], s[7]),
                InvMixColumn(s[8], s[9], s[10], s[11]), InvMixColumn(s[12], s[13], s[14], s[15]));
    MixColumnInverse(s[0], s[1], s[2], s[3]);
    MixColumnInverse(s[4], s[5], s[6], s[7]);
    MixColumnInverse(s[8], s[9], s[10], s[11]);
    MixColumnInverse(s[12], s[13], s[14], s[15]);
    StateIsColumns(s);
  }

  lemma AddRoundKeyInverse(s: State, w: seq<byte>, round: nat)
    requires |w| == 176 && round <= 10
    ensures AddRoundKey(AddRoundKey(s, w, round), w, round) == s
  {
    forall i | 0 <= i < 16 ensures AddRoundKey(AddRoundKey(s, w, round), w, round)[i] == s[i] {
      XorCancels(s[i], w[16 * round + i]);
    }
  }

  // ---- Section 5.2: key expansion ----

  /** x to the power n in the field. */
  function PowerOfX(n: nat): byte {
    if n == 0 then 1 else XTime(PowerOfX(n - 1))
  }

  /** Byte j of word i of the expanded key. */
  function KeyByte(key: State, i: nat, j: nat): byte
    requires i < 44 && j < 4
    decreases i
  {
    if i < 4 then key[4 * i + j]
    else if i % 4 == 0 then
      Xor(KeyByte(key, i - 4, j),
          Xor(Sbox(KeyByte(key, i - 1, (j + 1) % 4)), if j == 0 then PowerOfX(i / 4 - 1) else 0))
    else Xor(KeyByte(key, i - 4, j), KeyByte(key, i - 1, j))
  }

  function ExpandedKey(key: State): (w: seq<byte>)
    ensures |w| == 176
  {
    seq(176, k requires 0 <= k < 176 => KeyByte(key, k / 4, k % 4))
  }

  // ---- Section 5.1: the cipher, and section 5.3: the inverse cipher ----

  /** The state after the initial key addition and r full rounds. */
  function EncryptRounds(input: State, w: seq<byte>, r: nat): State
    requires |w| == 176 && r <= 9
  {
    if r == 0 then AddRoundKey(input, w, 0)
    else AddRoundKey(MixColumns(ShiftRows(SubBytes(EncryptRounds(input, w, r - 1)))), w, r)
  }

  function Cipher(input: State, w: seq<byte>): State
    requires |w| == 176
  {
    AddRoundKey(ShiftRows(SubBytes(EncryptRounds(input, w, 9))), w, 10)
  }

  /** The state of the inverse cipher after the initial key addition and n full inverse rounds. */
  function DecryptRounds(input: State, w: seq<byte>, n: nat): State
    requires |w| == 176 && n <= 9
  {
    if n == 0 then AddRoundKey(input, w, 10)
    else InvMixColumns(AddRoundKey(InvSubBytes(InvShiftRows(DecryptRounds(input, w, n - 1))), w, 10 - n))
  }

  function InvCipher(input: State, w: seq<byte>): State
    requires |w| == 176
  {
    AddRoundKey(InvSubBytes(InvShiftRows(DecryptRounds(input, w, 9))), w, 0)
  }

  // ---- The two are inverse, round by round ----

  /** One inverse round undoes one round. */
  lemma InverseRound(e: State, w: seq<byte>, r: nat)
    requires |w| == 176 && r <= 10
    ensures var full := AddRoundKey(MixColumns(e), w, r);
            InvMixColumns(AddRoundKey(InvSubBytes(InvShiftRows(ShiftRows(SubBytes(full)))), w, r)) == e
  {
    hide SubBytes, InvSubBytes, ShiftRows, InvShiftRows, MixColumns, InvMixColumns, AddRoundKey;
    var full := AddRoundKey(MixColumns(e), w, r);
    ShiftRowsInverse(SubBytes(full));
    SubBytesInverse(full);
    AddRoundKeyInverse(MixColumns(e), w, r);
    InvMixColumnsOfMixColumns(e);
  }

  /** One round undoes one inverse round. */
  lemma ForwardRound(x: State, w: seq<byte>, r: nat)
    requires |w| == 176 && r <= 10
    ensures var inverse := InvMixColumns(AddRoundKey(x, w, r));
            AddRoundKey(MixColumns(ShiftRows(SubBytes(InvSubBytes(InvShiftRows(inverse))))), w, r) == x
  {
    hide SubBytes, InvSubBytes, ShiftRows, InvShiftRows, MixColumns, InvMixColumns, AddRoundKey;
    var inverse := InvMixColumns(AddRoundKey(x, w, r));
    SubBytesInverse(InvShiftRows(inverse));
    ShiftRowsInverse(inverse);
    MixColumnsOfInvMixColumns(AddRoundKey(x, w, r));
    AddRoundKeyInverse(x, w, r);
  }

  lemma {:induction false} DecryptUnwindsEncrypt(p: State, w: seq<byte>, n: nat)
    requires |w| == 176 && n <= 9
    ensures DecryptRounds(Cipher(p, w), w, n) == ShiftRows(SubBytes(EncryptRounds(p, w, 9 - n)))
  {
    hide SubBytes, InvSubBytes, ShiftRows, InvShiftRows, MixColumns, InvMixColumns, AddRoundKey;
    if n == 0 {
      AddRoundKeyInverse(ShiftRows(SubBytes(EncryptRounds(p, w, 9))), w, 10);
    } else {
      DecryptUnwindsEncrypt(p, w, n - 1);
      InverseRound(ShiftRows(SubBytes(EncryptRounds(p, w, 9 - n))), w, 10 - n);
    }
  }

  /** Decrypting a block that was encrypted with the same expanded key gives the block back. */
  lemma InvCipherOfCipher(p: State, w: seq<byte>)
    requires |w| == 176
    ensures InvCipher(Cipher(p, w), w) == p
  {
    hide SubBytes, InvSubBytes, ShiftRows, InvShiftRows, MixColumns, InvMixColumns, AddRoundKey;
    DecryptUnwindsEncrypt(p, w, 9);
    ShiftRowsInverse(SubBytes(EncryptRounds(p, w, 0)));
    SubBytesInverse(EncryptRounds(p, w, 0));
    AddRoundKeyInverse(p, w, 0);
  }

  lemma {:induction false} EncryptUnwindsDecrypt(c: State, w: seq<byte>, r: nat)
    requires |w| == 176 && r <= 9
    ensures EncryptRounds(InvCipher(c, w), w, r) == InvSubBytes(InvShiftRows(DecryptRounds(c, w, 9 - r)))
  {
    hide SubBytes, InvSubBytes, ShiftRows, InvShiftRows, MixColumns, InvMixColumns, AddRoundKey;
    if r == 0 {
      AddRoundKeyInverse(InvSubBytes(InvShiftRows(DecryptRounds(c, w, 9))), w, 0);
    } else {
      EncryptUnwindsDecrypt(c, w, r - 1);
      ForwardRound(InvSubBytes(InvShiftRows(DecryptRounds(c, w, 9 - r))), w, r);
    }
  }

  /** Every block is the encryption of its decryption. */
  lemma CipherOfInvCipher(c: State, w: seq<byte>)
    requires |w| == 176
    ensures Cipher(InvCipher(c, w), w) == c
  {
    hide SubBytes, InvSubBytes, ShiftRows, InvShiftRows, MixColumns, InvMixColumns, AddRoundKey;
    EncryptUnwindsDecrypt(c, w, 9);
    var start := AddRoundKey(c, w, 10);
    SubBytesInverse(InvShiftRows(start));
    ShiftRowsInverse(start);
    AddRoundKeyInverse(c, w, 10);
  }
}
