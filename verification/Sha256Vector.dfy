/** SHA-256 of the two-block example of FIPS 180-4: the function of module Sha256Spec gives the published digest.

    The message is "abcdbcdecdefdefgefghfghighijhijkijkljklmklmnlmnomnopnopq". The example fixes what laws about the
    function itself leave open: the order of bytes and words, the padding, the length, and how one block leads to the
    next.
*/
module Sha256Vector {
  import opened Sha256Spec
  import opened Words

  const MESSAGE: seq<byte> :=
    [0x61, 0x62, 0x63, 0x64, 0x62, 0x63, 0x64, 0x65] +
    [0x63, 0x64, 0x65, 0x66, 0x64, 0x65, 0x66, 0x67] +
    [0x65, 0x66, 0x67, 0x68, 0x66, 0x67, 0x68, 0x69] +
    [0x67, 0x68, 0x69, 0x6A, 0x68, 0x69, 0x6A, 0x6B] +
    [0x69, 0x6A, 0x6B, 0x6C, 0x6A, 0x6B, 0x6C, 0x6D] +
    [0x6B, 0x6C, 0x6D, 0x6E, 0x6C, 0x6D, 0x6E, 0x6F] +
    [0x6D, 0x6E, 0x6F, 0x70, 0x6E, 0x6F, 0x70, 0x71]

  const DIGEST: seq<byte> :=
    [0x24, 0x8D, 0x6A, 0x61, 0xD2, 0x06, 0x38, 0xB8] +
    [0xE5, 0xC0, 0x26, 0x93, 0x0C, 0x3E, 0x60, 0x39] +
    [0xA3, 0x3C, 0xE4, 0x59, 0x64, 0xFF, 0x21, 0x67] +
    [0xF6, 0xEC, 0xED, 0xD4, 0x19, 0xDB, 0x06, 0xC1]

  const BLOCKA: seq<word> :=
    [0x61626364, 0x62636465, 0x63646566, 0x64656667, 0x65666768, 0x66676869, 0x6768696A, 0x68696A6B] +
    [0x696A6B6C, 0x6A6B6C6D, 0x6B6C6D6E, 0x6C6D6E6F, 0x6D6E6F70, 0x6E6F7071, 0x80000000, 0x00000000]

  const BLOCKB: seq<word> :=
    [0x00000000, 0x00000000, 0x00000000, 0x00000000, 0x00000000, 0x00000000, 0x00000000, 0x00000000] +
    [0x00000000, 0x00000000, 0x00000000, 0x00000000, 0x00000000, 0x00000000, 0x00000000, 0x000001C0]

  /** The hash value between the blocks, and the last one. */
  const BETWEEN :=
    Regs(0x85E655D6, 0x417A1795, 0x3363376A, 0x624CDE5C, 0x76E09589, 0xCAC5F811, 0xCC4B32C1, 0xF20E533A)
  const LAST :=
    Regs(0x248D6A61, 0xD20638B8, 0xE5C02693, 0x0C3E6039, 0xA33CE459, 0x64FF2167, 0xF6ECEDD4, 0x19DB06C1)

  // ---- The padded message ----

  lemma {:induction false} ShiftedZero(i: nat)
    ensures ShiftBytes(0, i) == 0
  {
    if i > 0 {
      ShiftedZero(i - 1);
    }
  }

  lemma Shifted448(k: nat)
    ensures ShiftBytes(448, k) == if k == 0 then 448 else if k == 1 then 1 else 0
  {
    if k > 0 {
      assert ShiftBytes(448, k) == ShiftBytes(1, k - 1);
    }
    if k > 1 {
      assert ShiftBytes(1, k - 1) == ShiftBytes(0, k - 2);
      ShiftedZero(k - 2);
    }
  }

  lemma LengthBytes(i: nat)
    requires i < 8
    ensures LengthByte(448, i) == if i == 7 then 0xC0 else if i == 6 then 0x01 else 0x00
  {
    Shifted448(7 - i);
    hide ShiftBytes;
    if i == 7 {
      assert 448 % 256 == 192;
    } else if i == 6 {
      assert 1 % 256 == 1;
    } else {
      assert 0 % 256 == 0;
    }
  }

  function PadByte(i: nat): byte {
    if i < 56 then MESSAGE[i] else if i == 56 then 0x80 else if i == 126 then 0x01 else if i == 127 then 0xC0 else 0x00
  }

  lemma Padded(i: nat)
    requires i < 128
    ensures |Pad(MESSAGE)| == 128
    ensures Pad(MESSAGE)[i] == PadByte(i)
  {
    assert ZeroBytes(56) == 63;
    if i >= 120 {
      LengthBytes(i - 120);
    }
    hide LengthByte;
  }

  lemma BlockAWordAt(i: nat)
    requires i < 16
    ensures |Pad(MESSAGE)| == 128
    ensures BLOCKA[i] == Word(Pad(MESSAGE)[4 * i], Pad(MESSAGE)[4 * i + 1],
                              Pad(MESSAGE)[4 * i + 2], Pad(MESSAGE)[4 * i + 3])
  {
    Padded(4 * i);
    Padded(4 * i + 1);
    Padded(4 * i + 2);
    Padded(4 * i + 3);
    hide Pad, Word, BLOCKA, MESSAGE;
    BlockAWord(i);
  }

  lemma BlockAWords()
    ensures |Pad(MESSAGE)| == 128 && BlockWords(Pad(MESSAGE)[..64]) == BLOCKA
  {
    BlockAWordAt(0);
    assert |BLOCKA| == 16;
    var p, block := Pad(MESSAGE), Pad(MESSAGE)[..64];
    hide Pad, Word, BLOCKA, MESSAGE;
    forall i | 0 <= i < 16 ensures BlockWords(block)[i] == BLOCKA[i] {
      BlockAWordAt(i);
      assert block[4 * i] == p[4 * i] && block[4 * i + 1] == p[4 * i + 1];
      assert block[4 * i + 2] == p[4 * i + 2] && block[4 * i + 3] == p[4 * i + 3];
    }
  }

  lemma BlockAWord(i: nat)
    requires i < 16
    ensures BLOCKA[i] == Word(PadByte(4 * i), PadByte(4 * i + 1), PadByte(4 * i + 2), PadByte(4 * i + 3))
  {
    match i {
      case 0 => assert MESSAGE[0] == 0x61 && MESSAGE[1] == 0x62 && MESSAGE[2] == 0x63 && MESSAGE[3] == 0x64;
      case 1 => assert MESSAGE[4] == 0x62 && MESSAGE[5] == 0x63 && MESSAGE[6] == 0x64 && MESSAGE[7] == 0x65;
      case 2 => assert MESSAGE[8] == 0x63 && MESSAGE[9] == 0x64 && MESSAGE[10] == 0x65 && MESSAGE[11] == 0x66;
      case 3 => assert MESSAGE[12] == 0x64 && MESSAGE[13] == 0x65 && MESSAGE[14] == 0x66 && MESSAGE[15] == 0x67;
      case 4 => assert MESSAGE[16] == 0x65 && MESSAGE[17] == 0x66 && MESSAGE[18] == 0x67 && MESSAGE[19] == 0x68;
      case 5 => assert MESSAGE[20] == 0x66 && MESSAGE[21] == 0x67 && MESSAGE[22] == 0x68 && MESSAGE[23] == 0x69;
      case 6 => assert MESSAGE[24] == 0x67 && MESSAGE[25] == 0x68 && MESSAGE[26] == 0x69 && MESSAGE[27] == 0x6A;
      case 7 => assert MESSAGE[28] == 0x68 && MESSAGE[29] == 0x69 && MESSAGE[30] == 0x6A && MESSAGE[31] == 0x6B;
      case 8 => assert MESSAGE[32] == 0x69 && MESSAGE[33] == 0x6A && MESSAGE[34] == 0x6B && MESSAGE[35] == 0x6C;
      case 9 => assert MESSAGE[36] == 0x6A && MESSAGE[37] == 0x6B && MESSAGE[38] == 0x6C && MESSAGE[39] == 0x6D;
      case 10 => assert MESSAGE[40] == 0x6B && MESSAGE[41] == 0x6C && MESSAGE[42] == 0x6D && MESSAGE[43] == 0x6E;
      case 11 => assert MESSAGE[44] == 0x6C && MESSAGE[45] == 0x6D && MESSAGE[46] == 0x6E && MESSAGE[47] == 0x6F;
      case 12 => assert MESSAGE[48] == 0x6D && MESSAGE[49] == 0x6E && MESSAGE[50] == 0x6F && MESSAGE[51] == 0x70;
      case 13 => assert MESSAGE[52] == 0x6E && MESSAGE[53] == 0x6F && MESSAGE[54] == 0x70 && MESSAGE[55] == 0x71;
      case 14 =>
      case 15 =>
    }
  }

  lemma BlockBWordAt(i: nat)
    requires i < 16
    ensures |Pad(MESSAGE)| == 128
    ensures BLOCKB[i] == Word(Pad(MESSAGE)[64 + 4 * i], Pad(MESSAGE)[64 + 4 * i + 1],
                              Pad(MESSAGE)[64 + 4 * i + 2], Pad(MESSAGE)[64 + 4 * i + 3])
  {
    Padded(64 + 4 * i);
    Padded(64 + 4 * i + 1);
    Padded(64 + 4 * i + 2);
    Padded(64 + 4 * i + 3);
    hide Pad, Word, BLOCKB, MESSAGE;
    BlockBWord(i);
  }

  lemma BlockBWords()
    ensures |Pad(MESSAGE)| == 128 && BlockWords(Pad(MESSAGE)[64..128]) == BLOCKB
  {
    BlockBWordAt(0);
    assert |BLOCKB| == 16;
    var p, block := Pad(MESSAGE), Pad(MESSAGE)[64..128];
    hide Pad, Word, BLOCKB, MESSAGE;
    forall i | 0 <= i < 16 ensures BlockWords(block)[i] == BLOCKB[i] {
      BlockBWordAt(i);
      assert block[4 * i] == p[64 + 4 * i] && block[4 * i + 1] == p[64 + 4 * i + 1];
      assert block[4 * i + 2] == p[64 + 4 * i + 2] && block[4 * i + 3] == p[64 + 4 * i + 3];
    }
  }

  lemma BlockBWord(i: nat)
    requires i < 16
    ensures BLOCKB[i] == Word(PadByte(64 + 4 * i), PadByte(64 + 4 * i + 1),
                              PadByte(64 + 4 * i + 2), PadByte(64 + 4 * i + 3))
  {
    match i {
      case 0 => case 1 => case 2 => case 3 => case 4 => case 5 => case 6 => case 7 =>
      case 8 => case 9 => case 10 => case 11 => case 12 => case 13 => case 14 => case 15 =>
    }
  }

  // ---- The schedules and the rounds ----

  /** The round constants, one by one. */
  ghost function Constant(t: nat): word
    requires t < 64
  {
    match t
    case 0 => 0x428A2F98 case 1 => 0x71374491 case 2 => 0xB5C0FBCF case 3 => 0xE9B5DBA5
    case 4 => 0x3956C25B case 5 => 0x59F111F1 case 6 => 0x923F82A4 case 7 => 0xAB1C5ED5
    case 8 => 0xD807AA98 case 9 => 0x12835B01 case 10 => 0x243185BE case 11 => 0x550C7DC3
    case 12 => 0x72BE5D74 case 13 => 0x80DEB1FE case 14 => 0x9BDC06A7 case 15 => 0xC19BF174
    case 16 => 0xE49B69C1 case 17 => 0xEFBE4786 case 18 => 0x0FC19DC6 case 19 => 0x240CA1CC
    case 20 => 0x2DE92C6F case 21 => 0x4A7484AA case 22 => 0x5CB0A9DC case 23 => 0x76F988DA
    case 24 => 0x983E5152 case 25 => 0xA831C66D case 26 => 0xB00327C8 case 27 => 0xBF597FC7
    case 28 => 0xC6E00BF3 case 29 => 0xD5A79147 case 30 => 0x06CA6351 case 31 => 0x14292967
    case 32 => 0x27B70A85 case 33 => 0x2E1B2138 case 34 => 0x4D2C6DFC case 35 => 0x53380D13
    case 36 => 0x650A7354 case 37 => 0x766A0ABB case 38 => 0x81C2C92E case 39 => 0x92722C85
    case 40 => 0xA2BFE8A1 case 41 => 0xA81A664B case 42 => 0xC24B8B70 case 43 => 0xC76C51A3
    case 44 => 0xD192E819 case 45 => 0xD6990624 case 46 => 0xF40E3585 case 47 => 0x106AA070
    case 48 => 0x19A4C116 case 49 => 0x1E376C08 case 50 => 0x2748774C case 51 => 0x34B0BCB5
    case 52 => 0x391C0CB3 case 53 => 0x4ED8AA4A case 54 => 0x5B9CCA4F case 55 => 0x682E6FF3
    case 56 => 0x748F82EE case 57 => 0x78A5636F case 58 => 0x84C87814 case 59 => 0x8CC70208
    case 60 => 0x90BEFFFA case 61 => 0xA4506CEB case 62 => 0xBEF9A3F7 case _ => 0xC67178F2
  }

  lemma Constants0(t: nat)
    requires 0 <= t < 16
    ensures K[t] == Constant(t)
  {
    match t {
      case 0 => case 1 => case 2 => case 3 => case 4 => case 5 => case 6 => case 7 =>
      case 8 => case 9 => case 10 => case 11 => case 12 => case 13 => case 14 => case 15 =>
    }
  }

  lemma Constants1(t: nat)
    requires 16 <= t < 32
    ensures K[t] == Constant(t)
  {
    match t {
      case 16 => case 17 => case 18 => case 19 => case 20 => case 21 => case 22 => case 23 =>
      case 24 => case 25 => case 26 => case 27 => case 28 => case 29 => case 30 => case 31 =>
    }
  }

  lemma Constants2(t: nat)
    requires 32 <= t < 48
    ensures K[t] == Constant(t)
  {
    match t {
      case 32 => case 33 => case 34 => case 35 => case 36 => case 37 => case 38 => case 39 =>
      case 40 => case 41 => case 42 => case 43 => case 44 => case 45 => case 46 => case 47 =>
    }
  }

  lemma Constants3(t: nat)
    requires 48 <= t < 64
    ensures K[t] == Constant(t)
  {
    match t {
      case 48 => case 49 => case 50 => case 51 => case 52 => case 53 => case 54 => case 55 =>
      case 56 => case 57 => case 58 => case 59 => case 60 => case 61 => case 62 => case 63 =>
    }
  }

  ghost function WordsA(t: nat): word
    requires t < 64
  {
    match t
    case 0 => 0x61626364 case 1 => 0x62636465 case 2 => 0x63646566 case 3 => 0x64656667
    case 4 => 0x65666768 case 5 => 0x66676869 case 6 => 0x6768696A case 7 => 0x68696A6B
    case 8 => 0x696A6B6C case 9 => 0x6A6B6C6D case 10 => 0x6B6C6D6E case 11 => 0x6C6D6E6F
    case 12 => 0x6D6E6F70 case 13 => 0x6E6F7071 case 14 => 0x80000000 case 15 => 0x00000000
    case 16 => 0xEB8012AD case 17 => 0xA7C3AE92 case 18 => 0x76E93BA2 case 19 => 0xBA42E743
    case 20 => 0x92A92204 case 21 => 0xD847E75E case 22 => 0x9E160036 case 23 => 0xB280A7CB
    case 24 => 0xDDEB1516 case 25 => 0xF36586F4 case 26 => 0x969CD048 case 27 => 0xE959D99D
    case 28 => 0x6ACCC0EC case 29 => 0xF54CB098 case 30 => 0x2AF1B2DA case 31 => 0xEE59C4C9
    case 32 => 0xA835E16A case 33 => 0x1DFF4429 case 34 => 0xD6E15959 case 35 => 0xC397CD6E
    case 36 => 0x6F1801CA case 37 => 0x21574205 case 38 => 0x35FF7A84 case 39 => 0x9743EE78
    case 40 => 0xE44183E7 case 41 => 0x0D09F00D case 42 => 0x9C89AF54 case 43 => 0x042D5BEF
    case 44 => 0x71F134D0 case 45 => 0x0F94F463 case 46 => 0x7E49DC63 case 47 => 0x6F65C997
    case 48 => 0x0B706583 case 49 => 0x179312CA case 50 => 0x503054E9 case 51 => 0xBA125C39
    case 52 => 0x7E9392C9 case 53 => 0xD5CBAA1E case 54 => 0x78E0585D case 55 => 0xF6E7611C
    case 56 => 0x8AC830CE case 57 => 0x8B47A303 case 58 => 0xFD6E627F case 59 => 0x8C6E2C6A
    case 60 => 0x4001ADF1 case 61 => 0x1A3DD097 case 62 => 0xA9DF6F62 case _ => 0x6AA60A39
  }

  lemma ScheduleA0(t: nat)
    requires t < 16
    ensures BLOCKA[t] == WordsA(t)
  {
    match t {
      case 0 => case 1 => case 2 => case 3 => case 4 => case 5 => case 6 => case 7 =>
      case 8 => case 9 => case 10 => case 11 => case 12 => case 13 => case 14 => case 15 =>
    }
  }

  lemma ScheduleA1(t: nat)
    requires 16 <= t < 32
    ensures WordsA(t) == NextWord(WordsA(t - 2), WordsA(t - 7), WordsA(t - 15), WordsA(t - 16))
  {
    match t {
      case 16 => case 17 => case 18 => case 19 => case 20 => case 21 => case 22 => case 23 =>
      case 24 => case 25 => case 26 => case 27 => case 28 => case 29 => case 30 => case 31 =>
    }
  }

  lemma ScheduleA2(t: nat)
    requires 32 <= t < 48
    ensures WordsA(t) == NextWord(WordsA(t - 2), WordsA(t - 7), WordsA(t - 15), WordsA(t - 16))
  {
    match t {
      case 32 => case 33 => case 34 => case 35 => case 36 => case 37 => case 38 => case 39 =>
      case 40 => case 41 => case 42 => case 43 => case 44 => case 45 => case 46 => case 47 =>
    }
  }

  lemma ScheduleA3(t: nat)
    requires 48 <= t < 64
    ensures WordsA(t) == NextWord(WordsA(t - 2), WordsA(t - 7), WordsA(t - 15), WordsA(t - 16))
  {
    match t {
      case 48 => case 49 => case 50 => case 51 => case 52 => case 53 => case 54 => case 55 =>
      case 56 => case 57 => case 58 => case 59 => case 60 => case 61 => case 62 => case 63 =>
    }
  }

  lemma {:induction false} ScheduleA(t: nat)
    requires t < 64
    ensures Schedule(BLOCKA, t) == WordsA(t)
  {
    hide WordsA, NextWord, BLOCKA;
    if t < 16 {
      ScheduleA0(t);
    } else {
      ScheduleA(t - 2);
      ScheduleA(t - 7);
      ScheduleA(t - 15);
      ScheduleA(t - 16);
      if t < 32 {
        ScheduleA1(t);
      } else if t < 48 {
        ScheduleA2(t);
      } else {
        ScheduleA3(t);
      }
    }
  }

  /** The working variables after t rounds. */
  ghost function StateA(t: nat): Regs
    requires t <= 64
  {
    match t
    case 0 => Regs(0x6A09E667, 0xBB67AE85, 0x3C6EF372, 0xA54FF53A, 0x510E527F, 0x9B05688C, 0x1F83D9AB, 0x5BE0CD19)
    case 1 => Regs(0x5D6AEBB1, 0x6A09E667, 0xBB67AE85, 0x3C6EF372, 0xFA2A4606, 0x510E527F, 0x9B05688C, 0x1F83D9AB)
    case 2 => Regs(0x2F2D5FCF, 0x5D6AEBB1, 0x6A09E667, 0xBB67AE85, 0x4EB1CFCE, 0xFA2A4606, 0x510E527F, 0x9B05688C)
    case 3 => Regs(0x97651825, 0x2F2D5FCF, 0x5D6AEBB1, 0x6A09E667, 0x62D5C49E, 0x4EB1CFCE, 0xFA2A4606, 0x510E527F)
    case 4 => Regs(0x4A8D64D5, 0x97651825, 0x2F2D5FCF, 0x5D6AEBB1, 0x6494841B, 0x62D5C49E, 0x4EB1CFCE, 0xFA2A4606)
    case 5 => Regs(0xF921C212, 0x4A8D64D5, 0x97651825, 0x2F2D5FCF, 0x05C4F88A, 0x6494841B, 0x62D5C49E, 0x4EB1CFCE)
    case 6 => Regs(0x55C8EF48, 0xF921C212, 0x4A8D64D5, 0x97651825, 0x7FF91C94, 0x05C4F88A, 0x6494841B, 0x62D5C49E)
    case 7 => Regs(0x485835B7, 0x55C8EF48, 0xF921C212, 0x4A8D64D5, 0x39A5B2CA, 0x7FF91C94, 0x05C4F88A, 0x6494841B)
    case 8 => Regs(0xD237E6DB, 0x485835B7, 0x55C8EF48, 0xF921C212, 0xA401D211, 0x39A5B2CA, 0x7FF91C94, 0x05C4F88A)
    case 9 => Regs(0x359F2BCE, 0xD237E6DB, 0x485835B7, 0x55C8EF48, 0xC09FFEC4, 0xA401D211, 0x39A5B2CA, 0x7FF91C94)
    case 10 => Regs(0x3A474B2B, 0x359F2BCE, 0xD237E6DB, 0x485835B7, 0x9037B3B8, 0xC09FFEC4, 0xA401D211, 0x39A5B2CA)
    case 11 => Regs(0xB8E2B4CB, 0x3A474B2B, 0x359F2BCE, 0xD237E6DB, 0x443ED29E, 0x9037B3B8, 0xC09FFEC4, 0xA401D211)
    case 12 => Regs(0x1762215C, 0xB8E2B4CB, 0x3A474B2B, 0x359F2BCE, 0xEE1C97A8, 0x443ED29E, 0x9037B3B8, 0xC09FFEC4)
    case 13 => Regs(0x101A4861, 0x1762215C, 0xB8E2B4CB, 0x3A474B2B, 0x839A0FC9, 0xEE1C97A8, 0x443ED29E, 0x9037B3B8)
    case 14 => Regs(0xD68E6457, 0x101A4861, 0x1762215C, 0xB8E2B4CB, 0x9243F8AF, 0x839A0FC9, 0xEE1C97A8, 0x443ED29E)
    case 15 => Regs(0xDD16CBB3, 0xD68E6457, 0x101A4861, 0x1762215C, 0x9162ADED, 0x9243F8AF, 0x839A0FC9, 0xEE1C97A8)
    case 16 => Regs(0xC3486194, 0xDD16CBB3, 0xD68E6457, 0x101A4861, 0x1496A54F, 0x9162ADED, 0x9243F8AF, 0x839A0FC9)
    case 17 => Regs(0xB9DCACB1, 0xC3486194, 0xDD16CBB3, 0xD68E6457, 0xD4F64250, 0x1496A54F, 0x9162ADED, 0x9243F8AF)
    case 18 => Regs(0x046A193E, 0xB9DCACB1, 0xC3486194, 0xDD16CBB3, 0x885370B6, 0xD4F64250, 0x1496A54F, 0x9162ADED)
    case 19 => Regs(0xF402F058, 0x046A193E, 0xB9DCACB1, 0xC3486194, 0x6F433549, 0x885370B6, 0xD4F64250, 0x1496A54F)
    case 20 => Regs(0x2139187B, 0xF402F058, 0x046A193E, 0xB9DCACB1, 0x7C304206, 0x6F433549, 0x885370B6, 0xD4F64250)
    case 21 => Regs(0xD70AC17D, 0x2139187B, 0xF402F058, 0x046A193E, 0x7CC6B262, 0x7C304206, 0x6F433549, 0x885370B6)
    case 22 => Regs(0x1B2B66B8, 0xD70AC17D, 0x2139187B, 0xF402F058, 0xD560B028, 0x7CC6B262, 0x7C304206, 0x6F433549)
    case 23 => Regs(0xAE2E2D4F, 0x1B2B66B8, 0xD70AC17D, 0x2139187B, 0xF074FC95, 0xD560B028, 0x7CC6B262, 0x7C304206)
    case 24 => Regs(0x59FCE6B9, 0xAE2E2D4F, 0x1B2B66B8, 0xD70AC17D, 0xA2C7D51D, 0xF074FC95, 0xD560B028, 0x7CC6B262)
    case 25 => Regs(0x4A885065, 0x59FCE6B9, 0xAE2E2D4F, 0x1B2B66B8, 0x763597FB, 0xA2C7D51D, 0xF074FC95, 0xD560B028)
    case 26 => Regs(0x573221DA, 0x4A885065, 0x59FCE6B9, 0xAE2E2D4F, 0x36E74EB4, 0x763597FB, 0xA2C7D51D, 0xF074FC95)
    case 27 => Regs(0x128661DA, 0x573221DA, 0x4A885065, 0x59FCE6B9, 0x1162D575, 0x36E74EB4, 0x763597FB, 0xA2C7D51D)
    case 28 => Regs(0x73F858AF, 0x128661DA, 0x573221DA, 0x4A885065, 0xE77C797F, 0x1162D575, 0x36E74EB4, 0x763597FB)
    case 29 => Regs(0x74BCF468, 0x73F858AF, 0x128661DA, 0x573221DA, 0x72ABAECD, 0xE77C797F, 0x1162D575, 0x36E74EB4)
    case 30 => Regs(0xDF7151A0, 0x74BCF468, 0x73F858AF, 0x128661DA, 0x7629C961, 0x72ABAECD, 0xE77C797F, 0x1162D575)
    case 31 => Regs(0xEB43F3ED, 0xDF7151A0, 0x74BCF468, 0x73F858AF, 0x0635D880, 0x7629C961, 0x72ABAECD, 0xE77C797F)
    case 32 => Regs(0x5581AB07, 0xEB43F3ED, 0xDF7151A0, 0x74BCF468, 0xDF980085, 0x0635D880, 0x7629C961, 0x72ABAECD)
    case 33 => Regs(0x9FC905C8, 0x5581AB07, 0xEB43F3ED, 0xDF7151A0, 0xA94D2AF1, 0xDF980085, 0x0635D880, 0x7629C961)
    case 34 => Regs(0x9CE5A62F, 0x9FC905C8, 0x5581AB07, 0xEB43F3ED, 0x6EF3B6BD, 0xA94D2AF1, 0xDF980085, 0x0635D880)
    case 35 => Regs(0x1DF8E885, 0x9CE5A62F, 0x9FC905C8, 0x5581AB07, 0x2A9E048E, 0x6EF3B6BD, 0xA94D2AF1, 0xDF980085)
    case 36 => Regs(0x0786DCE8, 0x1DF8E885, 0x9CE5A62F, 0x9FC905C8, 0xDE2A21D1, 0x2A9E048E, 0x6EF3B6BD, 0xA94D2AF1)
    case 37 => Regs(0x2C55D3A6, 0x0786DCE8, 0x1DF8E885, 0x9CE5A62F, 0xB067C1AF, 0xDE2A21D1, 0x2A9E048E, 0x6EF3B6BD)
    case 38 => Regs(0xA985B4BE, 0x2C55D3A6, 0x0786DCE8, 0x1DF8E885, 0xF72BF353, 0xB067C1AF, 0xDE2A21D1, 0x2A9E048E)
    case 39 => Regs(0x91AC9D5D, 0xA985B4BE, 0x2C55D3A6, 0x0786DCE8, 0x68D8D590, 0xF72BF353, 0xB067C1AF, 0xDE2A21D1)
    case 40 => Regs(0x7E4D30B8, 0x91AC9D5D, 0xA985B4BE, 0x2C55D3A6, 0x9F5B9B6D, 0x68D8D590, 0xF72BF353, 0xB067C1AF)
    case 41 => Regs(0x7E056794, 0x7E4D30B8, 0x91AC9D5D, 0xA985B4BE, 0x423B26C0, 0x9F5B9B6D, 0x68D8D590, 0xF72BF353)
    case 42 => Regs(0x508A16AB, 0x7E056794, 0x7E4D30B8, 0x91AC9D5D, 0x45459D97, 0x423B26C0, 0x9F5B9B6D, 0x68D8D590)
    case 43 => Regs(0xB62C7013, 0x508A16AB, 0x7E056794, 0x7E4D30B8, 0x80A92A00, 0x45459D97, 0x423B26C0, 0x9F5B9B6D)
    case 44 => Regs(0x167361DE, 0xB62C7013, 0x508A16AB, 0x7E056794, 0x41DD3844, 0x80A92A00, 0x45459D97, 0x423B26C0)
    case 45 => Regs(0xDE71E2F2, 0x167361DE, 0xB62C7013, 0x508A16AB, 0xFF61C636, 0x41DD3844, 0x80A92A00, 0x45459D97)
    case 46 => Regs(0x18F0D19D, 0xDE71E2F2, 0x167361DE, 0xB62C7013, 0x6B88472C, 0xFF61C636, 0x41DD3844, 0x80A92A00)
    case 47 => Regs(0x165BE9CD, 0x18F0D19D, 0xDE71E2F2, 0x167361DE, 0xA483F080, 0x6B88472C, 0xFF61C636, 0x41DD3844)
    case 48 => Regs(0x13D82741, 0x165BE9CD, 0x18F0D19D, 0xDE71E2F2, 0xA7802A4D, 0xA483F080, 0x6B88472C, 0xFF61C636)
    case 49 => Regs(0x017B9D99, 0x13D82741, 0x165BE9CD, 0x18F0D19D, 0xAEB10B60, 0xA7802A4D, 0xA483F080, 0x6B88472C)
    case 50 => Regs(0x543C99A1, 0x017B9D99, 0x13D82741, 0x165BE9CD, 0x16F134B6, 0xAEB10B60, 0xA7802A4D, 0xA483F080)
    case 51 => Regs(0x758CA97A, 0x543C99A1, 0x017B9D99, 0x13D82741, 0x100CF2EA, 0x16F134B6, 0xAEB10B60, 0xA7802A4D)
    case 52 => Regs(0x81C1CDE0, 0x758CA97A, 0x543C99A1, 0x017B9D99, 0x5C47EB7B, 0x100CF2EA, 0x16F134B6, 0xAEB10B60)
    case 53 => Regs(0xB8D55619, 0x81C1CDE0, 0x758CA97A, 0x543C99A1, 0x1C806A61, 0x5C47EB7B, 0x100CF2EA, 0x16F134B6)
    case 54 => Regs(0x1D6DE87A, 0xB8D55619, 0x81C1CDE0, 0x758CA97A, 0x3443BED4, 0x1C806A61, 0x5C47EB7B, 0x100CF2EA)
    case 55 => Regs(0xF907B313, 0x1D6DE87A, 0xB8D55619, 0x81C1CDE0, 0x61A41711, 0x3443BED4, 0x1C806A61, 0x5C47EB7B)
    case 56 => Regs(0x9E57C4A0, 0xF907B313, 0x1D6DE87A, 0xB8D55619, 0xEEC13548, 0x61A41711, 0x3443BED4, 0x1C806A61)
    case 57 => Regs(0x71629856, 0x9E57C4A0, 0xF907B313, 0x1D6DE87A, 0x2F6C8C4E, 0xEEC13548, 0x61A41711, 0x3443BED4)
    case 58 => Regs(0x7C015A2C, 0x71629856, 0x9E57C4A0, 0xF907B313, 0xCB9D3DD0, 0x2F6C8C4E, 0xEEC13548, 0x61A41711)
    case 59 => Regs(0x921FCCB6, 0x7C015A2C, 0x71629856, 0x9E57C4A0, 0x43D8A034, 0xCB9D3DD0, 0x2F6C8C4E, 0xEEC13548)
    case 60 => Regs(0xE18F259A, 0x921FCCB6, 0x7C015A2C, 0x71629856, 0x51E15869, 0x43D8A034, 0xCB9D3DD0, 0x2F6C8C4E)
    case 61 => Regs(0xBCFCE922, 0xE18F259A, 0x921FCCB6, 0x7C015A2C, 0x962D8621, 0x51E15869, 0x43D8A034, 0xCB9D3DD0)
    case 62 => Regs(0xF6F443F8, 0xBCFCE922, 0xE18F259A, 0x921FCCB6, 0xACC75916, 0x962D8621, 0x51E15869, 0x43D8A034)
    case 63 => Regs(0x86126910, 0xF6F443F8, 0xBCFCE922, 0xE18F259A, 0x2FC08F85, 0xACC75916, 0x962D8621, 0x51E15869)
    case _ => Regs(0x1BDC6F6F, 0x86126910, 0xF6F443F8, 0xBCFCE922, 0x25D2430A, 0x2FC08F85, 0xACC75916, 0x962D8621)
  }

  lemma RoundsA0(t: nat)
    requires 0 <= t < 16
    ensures Round(StateA(t), Plus(Constant(t), WordsA(t))) == StateA(t + 1)
  {
    match t {
      case 0 => case 1 => case 2 => case 3 => case 4 => case 5 => case 6 => case 7 =>
      case 8 => case 9 => case 10 => case 11 => case 12 => case 13 => case 14 => case 15 =>
    }
  }

  lemma RoundsA1(t: nat)
    requires 16 <= t < 32
    ensures Round(StateA(t), Plus(Constant(t), WordsA(t))) == StateA(t + 1)
  {
    match t {
      case 16 => case 17 => case 18 => case 19 => case 20 => case 21 => case 22 => case 23 =>
      case 24 => case 25 => case 26 => case 27 => case 28 => case 29 => case 30 => case 31 =>
    }
  }

  lemma RoundsA2(t: nat)
    requires 32 <= t < 48
    ensures Round(StateA(t), Plus(Constant(t), WordsA(t))) == StateA(t + 1)
  {
    match t {
      case 32 => case 33 => case 34 => case 35 => case 36 => case 37 => case 38 => case 39 =>
      case 40 => case 41 => case 42 => case 43 => case 44 => case 45 => case 46 => case 47 =>
    }
  }

  lemma RoundsA3(t: nat)
    requires 48 <= t < 64
    ensures Round(StateA(t), Plus(Constant(t), WordsA(t))) == StateA(t + 1)
  {
    match t {
      case 48 => case 49 => case 50 => case 51 => case 52 => case 53 => case 54 => case 55 =>
      case 56 => case 57 => case 58 => case 59 => case 60 => case 61 => case 62 => case 63 =>
    }
  }

  lemma {:induction false} RoundsA(t: nat)
    requires t <= 64
    ensures Rounds(H0, BLOCKA, t) == StateA(t)
  {
    if t > 0 {
      RoundsA(t - 1);
      ScheduleA(t - 1);
      hide StateA, WordsA, Constant, Round, Schedule;
      if t <= 16 {
        RoundsA0(t - 1);
        Constants0(t - 1);
      } else if t <= 32 {
        RoundsA1(t - 1);
        Constants1(t - 1);
      } else if t <= 48 {
        RoundsA2(t - 1);
        Constants2(t - 1);
      } else {
        RoundsA3(t - 1);
        Constants3(t - 1);
      }
    }
  }

  ghost function WordsB(t: nat): word
    requires t < 64
  {
    match t
    case 0 => 0x00000000 case 1 => 0x00000000 case 2 => 0x00000000 case 3 => 0x00000000
    case 4 => 0x00000000 case 5 => 0x00000000 case 6 => 0x00000000 case 7 => 0x00000000
    case 8 => 0x00000000 case 9 => 0x00000000 case 10 => 0x00000000 case 11 => 0x00000000
    case 12 => 0x00000000 case 13 => 0x00000000 case 14 => 0x00000000 case 15 => 0x000001C0
    case 16 => 0x00000000 case 17 => 0x00D80000 case 18 => 0x00000000 case 19 => 0x00003677
    case 20 => 0x00000000 case 21 => 0x1DF5600D case 22 => 0x000001C0 case 23 => 0x1C00501C
    case 24 => 0x01B00000 case 25 => 0x220A8D94 case 26 => 0x0000A365 case 27 => 0x177017E7
    case 28 => 0x63D38035 case 29 => 0x090AB713 case 30 => 0x4C7539CA case 31 => 0x0F19A8C9
    case 32 => 0x5DF4B0C4 case 33 => 0xE257036A case 34 => 0xC97BB6F1 case 35 => 0xC5B46F4D
    case 36 => 0xF8253C4E case 37 => 0xA558D189 case 38 => 0x78696285 case 39 => 0xED07117F
    case 40 => 0x107358F6 case 41 => 0x390AE496 case 42 => 0x565010A2 case 43 => 0xC51D7D44
    case 44 => 0x9E74C972 case 45 => 0x6614B561 case 46 => 0x30FC129D case 47 => 0x9AC684A8
    case 48 => 0x2B658DBD case 49 => 0xE290F793 case 50 => 0x9EEBB24C case 51 => 0x9713B5DE
    case 52 => 0x41061AB7 case 53 => 0xE022E23B case 54 => 0x0772079E case 55 => 0x7DE22D9C
    case 56 => 0xC8B83778 case 57 => 0x75A79849 case 58 => 0xD93DBDDB case 59 => 0x0A036C9D
    case 60 => 0xCB4F6AC6 case 61 => 0x823F97E2 case 62 => 0xEA2F2A7A case _ => 0xB9018B52
  }

  lemma ScheduleB0(t: nat)
    requires t < 16
    ensures BLOCKB[t] == WordsB(t)
  {
    match t {
      case 0 => case 1 => case 2 => case 3 => case 4 => case 5 => case 6 => case 7 =>
      case 8 => case 9 => case 10 => case 11 => case 12 => case 13 => case 14 => case 15 =>
    }
  }

  lemma ScheduleB1(t: nat)
    requires 16 <= t < 32
    ensures WordsB(t) == NextWord(WordsB(t - 2), WordsB(t - 7), WordsB(t - 15), WordsB(t - 16))
  {
    match t {
      case 16 => case 17 => case 18 => case 19 => case 20 => case 21 => case 22 => case 23 =>
      case 24 => case 25 => case 26 => case 27 => case 28 => case 29 => case 30 => case 31 =>
    }
  }

  lemma ScheduleB2(t: nat)
    requires 32 <= t < 48
    ensures WordsB(t) == NextWord(WordsB(t - 2), WordsB(t - 7), WordsB(t - 15), WordsB(t - 16))
  {
    match t {
      case 32 => case 33 => case 34 => case 35 => case 36 => case 37 => case 38 => case 39 =>
      case 40 => case 41 => case 42 => case 43 => case 44 => case 45 => case 46 => case 47 =>
    }
  }

  lemma ScheduleB3(t: nat)
    requires 48 <= t < 64
    ensures WordsB(t) == NextWord(WordsB(t - 2), WordsB(t - 7), WordsB(t - 15), WordsB(t - 16))
  {
    match t {
      case 48 => case 49 => case 50 => case 51 => case 52 => case 53 => case 54 => case 55 =>
      case 56 => case 57 => case 58 => case 59 => case 60 => case 61 => case 62 => case 63 =>
    }
  }

  lemma {:induction false} ScheduleB(t: nat)
    requires t < 64
    ensures Schedule(BLOCKB, t) == WordsB(t)
  {
    hide WordsB, NextWord, BLOCKB;
    if t < 16 {
      ScheduleB0(t);
    } else {
      ScheduleB(t - 2);
      ScheduleB(t - 7);
      ScheduleB(t - 15);
      ScheduleB(t - 16);
      if t < 32 {
        ScheduleB1(t);
      } else if t < 48 {
        ScheduleB2(t);
      } else {
        ScheduleB3(t);
      }
    }
  }

  /** The working variables after t rounds. */
  ghost function StateB(t: nat): Regs
    requires t <= 64
  {
    match t
    case 0 => Regs(0x85E655D6, 0x417A1795, 0x3363376A, 0x624CDE5C, 0x76E09589, 0xCAC5F811, 0xCC4B32C1, 0xF20E533A)
    case 1 => Regs(0x7C20C838, 0x85E655D6, 0x417A1795, 0x3363376A, 0x4670AE6E, 0x76E09589, 0xCAC5F811, 0xCC4B32C1)
    case 2 => Regs(0x7C3C0F86, 0x7C20C838, 0x85E655D6, 0x417A1795, 0x8C51BE64, 0x4670AE6E, 0x76E09589, 0xCAC5F811)
    case 3 => Regs(0xFD1EEBDC, 0x7C3C0F86, 0x7C20C838, 0x85E655D6, 0xAF71B9EA, 0x8C51BE64, 0x4670AE6E, 0x76E09589)
    case 4 => Regs(0xF268FAA9, 0xFD1EEBDC, 0x7C3C0F86, 0x7C20C838, 0xE20362EF, 0xAF71B9EA, 0x8C51BE64, 0x4670AE6E)
    case 5 => Regs(0x185A5D79, 0xF268FAA9, 0xFD1EEBDC, 0x7C3C0F86, 0x8DFF3001, 0xE20362EF, 0xAF71B9EA, 0x8C51BE64)
    case 6 => Regs(0x3EEB6C06, 0x185A5D79, 0xF268FAA9, 0xFD1EEBDC, 0xFE20CDA6, 0x8DFF3001, 0xE20362EF, 0xAF71B9EA)
    case 7 => Regs(0x89BBA3F1, 0x3EEB6C06, 0x185A5D79, 0xF268FAA9, 0x0A34DF03, 0xFE20CDA6, 0x8DFF3001, 0xE20362EF)
    case 8 => Regs(0xBF9A93A0, 0x89BBA3F1, 0x3EEB6C06, 0x185A5D79, 0x059ABDD1, 0x0A34DF03, 0xFE20CDA6, 0x8DFF3001)
    case 9 => Regs(0x2C096744, 0xBF9A93A0, 0x89BBA3F1, 0x3EEB6C06, 0xABFA465B, 0x059ABDD1, 0x0A34DF03, 0xFE20CDA6)
    case 10 => Regs(0x2D964E86, 0x2C096744, 0xBF9A93A0, 0x89BBA3F1, 0xAA27ED82, 0xABFA465B, 0x059ABDD1, 0x0A34DF03)
    case 11 => Regs(0x5B35025B, 0x2D964E86, 0x2C096744, 0xBF9A93A0, 0x10E77723, 0xAA27ED82, 0xABFA465B, 0x059ABDD1)
    case 12 => Regs(0x5EB4EC40, 0x5B35025B, 0x2D964E86, 0x2C096744, 0xE11B4548, 0x10E77723, 0xAA27ED82, 0xABFA465B)
    case 13 => Regs(0x35EE996D, 0x5EB4EC40, 0x5B35025B, 0x2D964E86, 0x5C24E2A2, 0xE11B4548, 0x10E77723, 0xAA27ED82)
    case 14 => Regs(0xD74080FA, 0x35EE996D, 0x5EB4EC40, 0x5B35025B, 0x68AA893F, 0x5C24E2A2, 0xE11B4548, 0x10E77723)
    case 15 => Regs(0x0CEA5CBC, 0xD74080FA, 0x35EE996D, 0x5EB4EC40, 0x60356548, 0x68AA893F, 0x5C24E2A2, 0xE11B4548)
    case 16 => Regs(0x16A8CC79, 0x0CEA5CBC, 0xD74080FA, 0x35EE996D, 0x0FCB1F6F, 0x60356548, 0x68AA893F, 0x5C24E2A2)
    case 17 => Regs(0xF16F634E, 0x16A8CC79, 0x0CEA5CBC, 0xD74080FA, 0x8B21CDC1, 0x0FCB1F6F, 0x60356548, 0x68AA893F)
    case 18 => Regs(0x23DCB6C2, 0xF16F634E, 0x16A8CC79, 0x0CEA5CBC, 0xCA9182D3, 0x8B21CDC1, 0x0FCB1F6F, 0x60356548)
    case 19 => Regs(0xDCFF40FD, 0x23DCB6C2, 0xF16F634E, 0x16A8CC79, 0x69BF7B95, 0xCA9182D3, 0x8B21CDC1, 0x0FCB1F6F)
    case 20 => Regs(0x76F1A2BC, 0xDCFF40FD, 0x23DCB6C2, 0xF16F634E, 0x0DC84BB1, 0x69BF7B95, 0xCA9182D3, 0x8B21CDC1)
    case 21 => Regs(0x20AAD899, 0x76F1A2BC, 0xDCFF40FD, 0x23DCB6C2, 0xCC4769F2, 0x0DC84BB1, 0x69BF7B95, 0xCA9182D3)
    case 22 => Regs(0xD44DC81A, 0x20AAD899, 0x76F1A2BC, 0xDCFF40FD, 0x5BACE62D, 0xCC4769F2, 0x0DC84BB1, 0x69BF7B95)
    case 23 => Regs(0xF13AE55B, 0xD44DC81A, 0x20AAD899, 0x76F1A2BC, 0x966AA287, 0x5BACE62D, 0xCC4769F2, 0x0DC84BB1)
    case 24 => Regs(0xA4195B91, 0xF13AE55B, 0xD44DC81A, 0x20AAD899, 0xEDDBD6ED, 0x966AA287, 0x5BACE62D, 0xCC4769F2)
    case 25 => Regs(0x4984FA79, 0xA4195B91, 0xF13AE55B, 0xD44DC81A, 0xA530D939, 0xEDDBD6ED, 0x966AA287, 0x5BACE62D)
    case 26 => Regs(0xAA6CB982, 0x4984FA79, 0xA4195B91, 0xF13AE55B, 0x0B5EEEA4, 0xA530D939, 0xEDDBD6ED, 0x966AA287)
    case 27 => Regs(0x9450FBBC, 0xAA6CB982, 0x4984FA79, 0xA4195B91, 0x09166DDA, 0x0B5EEEA4, 0xA530D939, 0xEDDBD6ED)
    case 28 => Regs(0x0D936BAB, 0x9450FBBC, 0xAA6CB982, 0x4984FA79, 0x6E495D4B, 0x09166DDA, 0x0B5EEEA4, 0xA530D939)
    case 29 => Regs(0xD958B529, 0x0D936BAB, 0x9450FBBC, 0xAA6CB982, 0xC2FA99B1, 0x6E495D4B, 0x09166DDA, 0x0B5EEEA4)
    case 30 => Regs(0x1CFA5EB0, 0xD958B529, 0x0D936BAB, 0x9450FBBC, 0x6C49DB9F, 0xC2FA99B1, 0x6E495D4B, 0x09166DDA)
    case 31 => Regs(0x02EF3A5F, 0x1CFA5EB0, 0xD958B529, 0x0D936BAB, 0x5DA10665, 0x6C49DB9F, 0xC2FA99B1, 0x6E495D4B)
    case 32 => Regs(0xB0EAB1C5, 0x02EF3A5F, 0x1CFA5EB0, 0xD958B529, 0xF6D93952, 0x5DA10665, 0x6C49DB9F, 0xC2FA99B1)
    case 33 => Regs(0x0BFBA73C, 0xB0EAB1C5, 0x02EF3A5F, 0x1CFA5EB0, 0x8B99E3A9, 0xF6D93952, 0x5DA10665, 0x6C49DB9F)
    case 34 => Regs(0x4BD1DF96, 0x0BFBA73C, 0xB0EAB1C5, 0x02EF3A5F, 0x905E44AC, 0x8B99E3A9, 0xF6D93952, 0x5DA10665)
    case 35 => Regs(0x9907F1B6, 0x4BD1DF96, 0x0BFBA73C, 0xB0EAB1C5, 0x66C3043D, 0x905E44AC, 0x8B99E3A9, 0xF6D93952)
    case 36 => Regs(0xECDE4E0D, 0x9907F1B6, 0x4BD1DF96, 0x0BFBA73C, 0x5DC119E6, 0x66C3043D, 0x905E44AC, 0x8B99E3A9)
    case 37 => Regs(0x2F11C939, 0xECDE4E0D, 0x9907F1B6, 0x4BD1DF96, 0xFED4CE1D, 0x5DC119E6, 0x66C3043D, 0x905E44AC)
    case 38 => Regs(0xD949682B, 0x2F11C939, 0xECDE4E0D, 0x9907F1B6, 0x32D99008, 0xFED4CE1D, 0x5DC119E6, 0x66C3043D)
    case 39 => Regs(0xADCA7A96, 0xD949682B, 0x2F11C939, 0xECDE4E0D, 0xC6CCE4FF, 0x32D99008, 0xFED4CE1D, 0x5DC119E6)
    case 40 => Regs(0x221B8A5A, 0xADCA7A96, 0xD949682B, 0x2F11C939, 0x0B82C5EB, 0xC6CCE4FF, 0x32D99008, 0xFED4CE1D)
    case 41 => Regs(0x12D97845, 0x221B8A5A, 0xADCA7A96, 0xD949682B, 0xE4213CA2, 0x0B82C5EB, 0xC6CCE4FF, 0x32D99008)
    case 42 => Regs(0x2C794876, 0x12D97845, 0x221B8A5A, 0xADCA7A96, 0xFF6759BA, 0xE4213CA2, 0x0B82C5EB, 0xC6CCE4FF)
    case 43 => Regs(0x8300FCA2, 0x2C794876, 0x12D97845, 0x221B8A5A, 0xE0E3457C, 0xFF6759BA, 0xE4213CA2, 0x0B82C5EB)
    case 44 => Regs(0xF2AD6322, 0x8300FCA2, 0x2C794876, 0x12D97845, 0xCC48C7F3, 0xE0E3457C, 0xFF6759BA, 0xE4213CA2)
    case 45 => Regs(0x0F154E11, 0xF2AD6322, 0x8300FCA2, 0x2C794876, 0x6F9517CB, 0xCC48C7F3, 0xE0E3457C, 0xFF6759BA)
    case 46 => Regs(0x104A7DB4, 0x0F154E11, 0xF2AD6322, 0x8300FCA2, 0x5348E8F6, 0x6F9517CB, 0xCC48C7F3, 0xE0E3457C)
    case 47 => Regs(0x0B3303A7, 0x104A7DB4, 0x0F154E11, 0xF2AD6322, 0xBBE1C39A, 0x5348E8F6, 0x6F9517CB, 0xCC48C7F3)
    case 48 => Regs(0xD7354D5B, 0x0B3303A7, 0x104A7DB4, 0x0F154E11, 0xAAD55B6B, 0xBBE1C39A, 0x5348E8F6, 0x6F9517CB)
    case 49 => Regs(0xB736D7A6, 0xD7354D5B, 0x0B3303A7, 0x104A7DB4, 0x68F25260, 0xAAD55B6B, 0xBBE1C39A, 0x5348E8F6)
    case 50 => Regs(0x2748E5EC, 0xB736D7A6, 0xD7354D5B, 0x0B3303A7, 0xD4B58576, 0x68F25260, 0xAAD55B6B, 0xBBE1C39A)
    case 51 => Regs(0xD8AABCF9, 0x2748E5EC, 0xB736D7A6, 0xD7354D5B, 0x27844711, 0xD4B58576, 0x68F25260, 0xAAD55B6B)
    case 52 => Regs(0x1A6BCF6A, 0xD8AABCF9, 0x2748E5EC, 0xB736D7A6, 0xFF5E99D0, 0x27844711, 0xD4B58576, 0x68F25260)
    case 53 => Regs(0x4ECA6FA0, 0x1A6BCF6A, 0xD8AABCF9, 0x2748E5EC, 0x989ED071, 0xFF5E99D0, 0x27844711, 0xD4B58576)
    case 54 => Regs(0xEC02560A, 0x4ECA6FA0, 0x1A6BCF6A, 0xD8AABCF9, 0x7151DF8E, 0x989ED071, 0xFF5E99D0, 0x27844711)
    case 55 => Regs(0xD9F0C115, 0xEC02560A, 0x4ECA6FA0, 0x1A6BCF6A, 0x624150C4, 0x7151DF8E, 0x989ED071, 0xFF5E99D0)
    case 56 => Regs(0x92952710, 0xD9F0C115, 0xEC02560A, 0x4ECA6FA0, 0x226806D6, 0x624150C4, 0x7151DF8E, 0x989ED071)
    case 57 => Regs(0x20D4D0E4, 0x92952710, 0xD9F0C115, 0xEC02560A, 0x4E515A4D, 0x226806D6, 0x624150C4, 0x7151DF8E)
    case 58 => Regs(0x4348EB1F, 0x20D4D0E4, 0x92952710, 0xD9F0C115, 0xC21EDDF9, 0x4E515A4D, 0x226806D6, 0x624150C4)
    case 59 => Regs(0x286FE5F0, 0x4348EB1F, 0x20D4D0E4, 0x92952710, 0x54076664, 0xC21EDDF9, 0x4E515A4D, 0x226806D6)
    case 60 => Regs(0x1C4CDDD9, 0x286FE5F0, 0x4348EB1F, 0x20D4D0E4, 0xF487A853, 0x54076664, 0xC21EDDF9, 0x4E515A4D)
    case 61 => Regs(0xA9F181DD, 0x1C4CDDD9, 0x286FE5F0, 0x4348EB1F, 0x27CCB387, 0xF487A853, 0x54076664, 0xC21EDDF9)
    case 62 => Regs(0xB25CEF29, 0xA9F181DD, 0x1C4CDDD9, 0x286FE5F0, 0x2AA1BB13, 0x27CCB387, 0xF487A853, 0x54076664)
    case 63 => Regs(0x908C2123, 0xB25CEF29, 0xA9F181DD, 0x1C4CDDD9, 0x9A392956, 0x2AA1BB13, 0x27CCB387, 0xF487A853)
    case _ => Regs(0x9EA7148B, 0x908C2123, 0xB25CEF29, 0xA9F181DD, 0x2C5C4ED0, 0x9A392956, 0x2AA1BB13, 0x27CCB387)
  }

  lemma RoundsB0(t: nat)
    requires 0 <= t < 16
    ensures Round(StateB(t), Plus(Constant(t), WordsB(t))) == StateB(t + 1)
  {
    match t {
      case 0 => case 1 => case 2 => case 3 => case 4 => case 5 => case 6 => case 7 =>
      case 8 => case 9 => case 10 => case 11 => case 12 => case 13 => case 14 => case 15 =>
    }
  }

  lemma RoundsB1(t: nat)
    requires 16 <= t < 32
    ensures Round(StateB(t), Plus(Constant(t), WordsB(t))) == StateB(t + 1)
  {
    match t {
      case 16 => case 17 => case 18 => case 19 => case 20 => case 21 => case 22 => case 23 =>
      case 24 => case 25 => case 26 => case 27 => case 28 => case 29 => case 30 => case 31 =>
    }
  }

  lemma RoundsB2(t: nat)
    requires 32 <= t < 48
    ensures Round(StateB(t), Plus(Constant(t), WordsB(t))) == StateB(t + 1)
  {
    match t {
      case 32 => case 33 => case 34 => case 35 => case 36 => case 37 => case 38 => case 39 =>
      case 40 => case 41 => case 42 => case 43 => case 44 => case 45 => case 46 => case 47 =>
    }
  }

  lemma RoundsB3(t: nat)
    requires 48 <= t < 64
    ensures Round(StateB(t), Plus(Constant(t), WordsB(t))) == StateB(t + 1)
  {
    match t {
      case 48 => case 49 => case 50 => case 51 => case 52 => case 53 => case 54 => case 55 =>
      case 56 => case 57 => case 58 => case 59 => case 60 => case 61 => case 62 => case 63 =>
    }
  }

  lemma {:induction false} RoundsB(t: nat)
    requires t <= 64
    ensures Rounds(BETWEEN, BLOCKB, t) == StateB(t)
  {
    if t > 0 {
      RoundsB(t - 1);
      ScheduleB(t - 1);
      hide StateB, WordsB, Constant, Round, Schedule;
      if t <= 16 {
        RoundsB0(t - 1);
        Constants0(t - 1);
      } else if t <= 32 {
        RoundsB1(t - 1);
        Constants1(t - 1);
      } else if t <= 48 {
        RoundsB2(t - 1);
        Constants2(t - 1);
      } else {
        RoundsB3(t - 1);
        Constants3(t - 1);
      }
    }
  }

  // ---- The digest ----


  const ENDA :=
    Regs(0x1BDC6F6F, 0x86126910, 0xF6F443F8, 0xBCFCE922, 0x25D2430A, 0x2FC08F85, 0xACC75916, 0x962D8621)

  lemma AfterA()
    ensures StateA(64) == ENDA && AddRegs(H0, ENDA) == BETWEEN
  {
  }

  lemma CompressA()
    ensures Compress(H0, BLOCKA) == BETWEEN
  {
    RoundsA(64);
    AfterA();
    hide Rounds, BLOCKA, StateA, AddRegs, ENDA;
  }

  const ENDB :=
    Regs(0x9EA7148B, 0x908C2123, 0xB25CEF29, 0xA9F181DD, 0x2C5C4ED0, 0x9A392956, 0x2AA1BB13, 0x27CCB387)

  lemma AfterB()
    ensures StateB(64) == ENDB && AddRegs(BETWEEN, ENDB) == LAST
  {
  }

  lemma CompressB()
    ensures Compress(BETWEEN, BLOCKB) == LAST
  {
    RoundsB(64);
    AfterB();
    hide Rounds, BLOCKB, StateB, AddRegs, ENDB;
  }

  lemma ChainOfTwo(h: Regs, p: seq<byte>)
    requires |p| == 128
    ensures Chain(h, p) == Compress(Compress(h, BlockWords(p[..64])), BlockWords(p[64..128]))
  {
    hide Compress, BlockWords;
    var q := p[64..];
    assert q[..64] == p[64..128] && q[64..] == [];
    assert Chain(Compress(Compress(h, BlockWords(p[..64])), BlockWords(q[..64])), []) ==
           Compress(Compress(h, BlockWords(p[..64])), BlockWords(q[..64]));
  }

  lemma DigestWord(i: nat)
    requires i < 8
    ensures WordBytes(RegsWords(LAST)[i]) == DIGEST[4 * i..4 * i + 4]
  {
    match i {

      case 0 => assert WordBytes(0x248D6A61) == [0x24, 0x8D, 0x6A, 0x61] == DIGEST[0..4];
      case 1 => assert WordBytes(0xD20638B8) == [0xD2, 0x06, 0x38, 0xB8] == DIGEST[4..8];
      case 2 => assert WordBytes(0xE5C02693) == [0xE5, 0xC0, 0x26, 0x93] == DIGEST[8..12];
      case 3 => assert WordBytes(0x0C3E6039) == [0x0C, 0x3E, 0x60, 0x39] == DIGEST[12..16];
      case 4 => assert WordBytes(0xA33CE459) == [0xA3, 0x3C, 0xE4, 0x59] == DIGEST[16..20];
      case 5 => assert WordBytes(0x64FF2167) == [0x64, 0xFF, 0x21, 0x67] == DIGEST[20..24];
      case 6 => assert WordBytes(0xF6ECEDD4) == [0xF6, 0xEC, 0xED, 0xD4] == DIGEST[24..28];
      case 7 => assert WordBytes(0x19DB06C1) == [0x19, 0xDB, 0x06, 0xC1] == DIGEST[28..32];
    }
  }

  lemma {:induction false} DigestBytes(n: nat)
    requires n <= 8
    ensures WordsBytes(RegsWords(LAST)[..n]) == DIGEST[..4 * n]
  {
    var ws := RegsWords(LAST);
    if n > 0 {
      DigestBytes(n - 1);
      DigestWord(n - 1);
      assert ws[..n][..n - 1] == ws[..n - 1] && ws[..n][n - 1] == ws[n - 1];
      hide DIGEST, LAST, WordBytes, RegsWords;
      assert DIGEST[..4 * n] == DIGEST[..4 * n - 4] + DIGEST[4 * n - 4..4 * n];
    }
  }

  lemma LastBytes()
    ensures WordsBytes(RegsWords(LAST)) == DIGEST
  {
    DigestBytes(8);
    assert |DIGEST| == 32;
    hide WordsBytes, LAST;
    assert RegsWords(LAST)[..8] == RegsWords(LAST);
    assert DIGEST[..32] == DIGEST;
  }

  /** The published digest. */
  lemma TwoBlockExample()
    ensures Sha256(MESSAGE) == DIGEST
  {
    BlockAWords();
    BlockBWords();
    CompressA();
    CompressB();
    ChainOfTwo(H0, Pad(MESSAGE));
    LastBytes();
    hide Chain, Compress, BlockWords, Pad, WordsBytes, BLOCKA, BLOCKB;
  }
}
