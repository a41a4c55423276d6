/** The key expansion as section 5.2 of FIPS 197 writes it, over words, and that the expansion by bytes is the same. */
module KeySchedule {
  import opened Bytes
  import opened AesTables
  import opened Fips197
  import opened Words

  type Word = w: seq<byte> | |w| == 4 witness [0, 0, 0, 0]

  /** [a0, a1, a2, a3] becomes [a1, a2, a3, a0]. */
  function RotWord(w: Word): Word {
    w[1..] + w[..1]
  }

  function SubWord(w: Word): Word {
    [Sbox(w[0]), Sbox(w[1]), Sbox(w[2]), Sbox(w[3])]
  }

  function XorWords(v: Word, w: Word): Word {
    [Xor(v[0], w[0]), Xor(v[1], w[1]), Xor(v[2], w[2]), Xor(v[3], w[3])]
  }

  /** [x^(i - 1), 0, 0, 0], as Appendix A.1 lists it. */
  function Rcon(i: nat): Word
    requires 1 <= i <= 10
  {
    match i
    case 1 => [0x01, 0, 0, 0]
    case 2 => [0x02, 0, 0, 0]
    case 3 => [0x04, 0, 0, 0]
    case 4 => [0x08, 0, 0, 0]
    case 5 => [0x10, 0, 0, 0]
    case 6 => [0x20, 0, 0, 0]
    case 7 => [0x40, 0, 0, 0]
    case 8 => [0x80, 0, 0, 0]
    case 9 => [0x1B, 0, 0, 0]
    case _ => [0x36, 0, 0, 0]
  }

  /** What is added to word i - 4 to make word i. */
  function Temp(prev: Word, i: nat): Word
    requires 4 <= i < 44
  {
    if i % 4 == 0 then XorWords(SubWord(RotWord(prev)), Rcon(i / 4)) else prev
  }

  /** Word i of the key schedule. */
  function KeyWord(key: State, i: nat): Word
    requires i < 44
  {
    if i < 4 then key[4 * i..4 * i + 4] else XorWords(KeyWord(key, i - 4), Temp(KeyWord(key, i - 1), i))
  }

  lemma {:induction false} PowersOfX(n: nat)
    requires 1 <= n <= 10
    ensures Rcon(n)[0] == PowerOfX(n - 1)
  {
    if n > 1 {
      PowersOfX(n - 1);
    }
    match n {
      case 1 => case 2 => case 3 => case 4 => case 5 => case 6 => case 7 => case 8 => case 9 => case _ =>
    }
  }

  lemma RotatedByte(w: Word, j: nat)
    requires j < 4
    ensures RotWord(w)[j] == w[(j + 1) % 4]
  {
  }

  lemma SubstitutedByte(w: Word, j: nat)
    requires j < 4
    ensures SubWord(w)[j] == Sbox(w[j])
  {
    hide Sbox;
  }

  lemma AddedByte(v: Word, w: Word, j: nat)
    requires j < 4
    ensures XorWords(v, w)[j] == Xor(v[j], w[j])
  {
    hide Xor;
  }

  lemma RconByte(n: nat, j: nat)
    requires 1 <= n <= 10 && j < 4
    ensures Rcon(n)[j] == if j == 0 then PowerOfX(n - 1) else 0
  {
    PowersOfX(n);
    hide PowerOfX;
  }

  lemma TempByte(prev: Word, i: nat, j: nat)
    requires 4 <= i < 44 && j < 4 && i % 4 == 0
    ensures Temp(prev, i)[j] == Xor(Sbox(prev[(j + 1) % 4]), if j == 0 then PowerOfX(i / 4 - 1) else 0)
  {
    hide Sbox, Rcon, RotWord, SubWord, XorWords, Xor, PowerOfX;
    var rotated := RotWord(prev);
    var substituted := SubWord(rotated);
    RotatedByte(prev, j);
    SubstitutedByte(rotated, j);
    AddedByte(substituted, Rcon(i / 4), j);
    assert Temp(prev, i) == XorWords(substituted, Rcon(i / 4));
    hide Temp;
    RconByte(i / 4, j);
  }

  lemma WordStep(key: State, i: nat, j: nat)
    requires 4 <= i < 44 && j < 4
    ensures KeyWord(key, i)[j] == Xor(KeyWord(key, i - 4)[j], Temp(KeyWord(key, i - 1), i)[j])
  {
    AddedByte(KeyWord(key, i - 4), Temp(KeyWord(key, i - 1), i), j);
    hide XorWords, Temp;
  }

  lemma ByteStep(key: State, i: nat, j: nat)
    requires 4 <= i < 44 && j < 4
    ensures KeyByte(key, i, j) ==
            Xor(KeyByte(key, i - 4, j),
                if i % 4 != 0 then KeyByte(key, i - 1, j)
                else Xor(Sbox(KeyByte(key, i - 1, (j + 1) % 4)), if j == 0 then PowerOfX(i / 4 - 1) else 0))
  {
    hide Sbox, Xor, PowerOfX;
  }

  lemma RotatedCase(key: State, i: nat, j: nat)
    requires 4 <= i < 44 && j < 4 && i % 4 == 0
    requires KeyByte(key, i - 4, j) == KeyWord(key, i - 4)[j]
    requires KeyByte(key, i - 1, (j + 1) % 4) == KeyWord(key, i - 1)[(j + 1) % 4]
    ensures KeyByte(key, i, j) == KeyWord(key, i)[j]
  {
    hide Sbox, KeyWord, PowerOfX, Xor, KeyByte, Temp;
    WordStep(key, i, j);
    ByteStep(key, i, j);
    TempByte(KeyWord(key, i - 1), i, j);
  }

  lemma PlainCase(key: State, i: nat, j: nat)
    requires 4 <= i < 44 && j < 4 && i % 4 != 0
    requires KeyByte(key, i - 4, j) == KeyWord(key, i - 4)[j] && KeyByte(key, i - 1, j) == KeyWord(key, i - 1)[j]
    ensures KeyByte(key, i, j) == KeyWord(key, i)[j]
  {
    hide Sbox, KeyWord, PowerOfX, Xor, KeyByte;
    WordStep(key, i, j);
    ByteStep(key, i, j);
  }

  /** Byte j of a word of the schedule. */
  lemma {:induction false} KeyByteIsWord(key: State, i: nat, j: nat)
    requires i < 44 && j < 4
    ensures KeyByte(key, i, j) == KeyWord(key, i)[j]
    decreases i
  {
    if i < 4 {
      FirstWords(key, i, j);
    } else {
      hide KeyWord, KeyByte;
      KeyByteIsWord(key, i - 4, j);
      if i % 4 == 0 {
        KeyByteIsWord(key, i - 1, (j + 1) % 4);
        RotatedCase(key, i, j);
      } else {
        KeyByteIsWord(key, i - 1, j);
        PlainCase(key, i, j);
      }
    }
  }

  lemma FirstWords(key: State, i: nat, j: nat)
    requires i < 4 && j < 4
    ensures KeyByte(key, i, j) == KeyWord(key, i)[j] == key[4 * i + j]
  {
  }

  /** The expanded key is the schedule, word by word. */
  lemma ExpansionIsStandard(key: State, i: nat)
    requires i < 44
    ensures ExpandedKey(key)[4 * i..4 * i + 4] == KeyWord(key, i)
  {
    forall j | 0 <= j < 4 ensures ExpandedKey(key)[4 * i + j] == KeyWord(key, i)[j] {
      assert (4 * i + j) / 4 == i && (4 * i + j) % 4 == j;
      KeyByteIsWord(key, i, j);
    }
    hide KeyWord, KeyByte;
  }
}
