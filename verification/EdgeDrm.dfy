/** The SHA-256 of the Edge token code (qlappcom/edgedrm.cpp): of a hidden 57-byte prefix followed by the data. */
module EdgeDrm {
  // The first 14 rounds of the first block are run in advance, and the last prefix byte is folded into constants.

  import opened Sha256Spec
  import opened WordAlgebra
  import opened Words

  // ---- The program's constants (edgedrm.cpp:32-66) ----

  const SHA256_STATE: seq<word> := [
    0xFD9FBEA2, 0x91243CE7, 0xBE499094, 0xCD2E1E0A, 0x6C006F49, 0x04BD35AB, 0xFEB0A7E4, 0x03EFFBD2]

  const SHA256_SCHEDULE: seq<word> := [
    0xEB24BF9E, 0x1558691F, 0xA0C09EE2, 0x0CFA32BA, 0xA622EE8C, 0xD1DD9491, 0xC0DD25A0, 0xF9E70AB6,
    0xF0C31573, 0x7058CE4E, 0x7188E606, 0x00E5AB33, 0xD258B060, 0x72766564]

  const SHA256_ADJUSTMENT: word := 0xC9DC06A7
  const SIGMA0_ADJUSTMENT: word := 0x059C0B80
  const SIGMA1_ADJUSTMENT: word := 0x000B92C0

  // ---- The hidden prefix ----

  /** Words 0 .. 13 of the first block: the prefix without its final full stop. */
  const PREFIX_WORDS: seq<word> := [
    0x436F7079, 0x72696768, 0x74202843, 0x29204D69, 0x63726F73, 0x6F667420, 0x436F7270,
    0x6F726174, 0x696F6E2E, 0x20416C6C, 0x20726967, 0x68747320, 0x72657365, 0x72766564]

  /** "Copyright (C) Microsoft Corporation. All rights reserved." in ASCII. */
  const PREFIX: seq<byte> :=
    [0x43, 0x6F, 0x70, 0x79, 0x72, 0x69, 0x67, 0x68] +
    [0x74, 0x20, 0x28, 0x43, 0x29, 0x20, 0x4D, 0x69] +
    [0x63, 0x72, 0x6F, 0x73, 0x6F, 0x66, 0x74, 0x20] +
    [0x43, 0x6F, 0x72, 0x70, 0x6F, 0x72, 0x61, 0x74] +
    [0x69, 0x6F, 0x6E, 0x2E, 0x20, 0x41, 0x6C, 0x6C] +
    [0x20, 0x72, 0x69, 0x67, 0x68, 0x74, 0x73, 0x20] +
    [0x72, 0x65, 0x73, 0x65, 0x72, 0x76, 0x65, 0x64] +
    [0x2E]

  /** The 16 words of the first block: the prefix words, then the full stop and the first 7 data bytes. */
  function FirstBlock(data7: seq<byte>): (m: seq<word>)
    requires |data7| == 7
    ensures |m| == 16
  {
    PREFIX_WORDS + [Word(0x2E, data7[0], data7[1], data7[2]), Word(data7[3], data7[4], data7[5], data7[6])]
  }

  lemma BlockWordAt(p: seq<byte>, data7: seq<byte>, i: nat)
    requires |p| == 57 && |data7| == 7 && i < 16
    ensures BlockWords(p + data7)[i] ==
            if i < 14 then Word(p[4 * i], p[4 * i + 1], p[4 * i + 2], p[4 * i + 3])
            else if i == 14 then Word(p[56], data7[0], data7[1], data7[2])
            else Word(data7[3], data7[4], data7[5], data7[6])
  {
  }

  /** The 64 bytes of the first block are the prefix and the first 7 data bytes. */
  lemma FirstBlockIsPrefixThenData(data7: seq<byte>)
    requires |data7| == 7
    ensures |PREFIX + data7| == 64 && BlockWords(PREFIX + data7) == FirstBlock(data7)
  {
    forall i | 0 <= i < 16 ensures BlockWords(PREFIX + data7)[i] == FirstBlock(data7)[i] {
      BlockWordAt(PREFIX, data7, i);
      if i < 14 {
        PrefixWord(i);
      }
    }
  }

  lemma PrefixWord(i: nat)
    requires i < 14
    ensures Word(PREFIX[4 * i], PREFIX[4 * i + 1], PREFIX[4 * i + 2], PREFIX[4 * i + 3]) == PREFIX_WORDS[i]
  {
    match i {
      case 0 => assert PREFIX[0] == 0x43 && PREFIX[1] == 0x6F && PREFIX[2] == 0x70 && PREFIX[3] == 0x79;
      case 1 => assert PREFIX[4] == 0x72 && PREFIX[5] == 0x69 && PREFIX[6] == 0x67 && PREFIX[7] == 0x68;
      case 2 => assert PREFIX[8] == 0x74 && PREFIX[9] == 0x20 && PREFIX[10] == 0x28 && PREFIX[11] == 0x43;
      case 3 => assert PREFIX[12] == 0x29 && PREFIX[13] == 0x20 && PREFIX[14] == 0x4D && PREFIX[15] == 0x69;
      case 4 => assert PREFIX[16] == 0x63 && PREFIX[17] == 0x72 && PREFIX[18] == 0x6F && PREFIX[19] == 0x73;
      case 5 => assert PREFIX[20] == 0x6F && PREFIX[21] == 0x66 && PREFIX[22] == 0x74 && PREFIX[23] == 0x20;
      case 6 => assert PREFIX[24] == 0x43 && PREFIX[25] == 0x6F && PREFIX[26] == 0x72 && PREFIX[27] == 0x70;
      case 7 => assert PREFIX[28] == 0x6F && PREFIX[29] == 0x72 && PREFIX[30] == 0x61 && PREFIX[31] == 0x74;
      case 8 => assert PREFIX[32] == 0x69 && PREFIX[33] == 0x6F && PREFIX[34] == 0x6E && PREFIX[35] == 0x2E;
      case 9 => assert PREFIX[36] == 0x20 && PREFIX[37] == 0x41 && PREFIX[38] == 0x6C && PREFIX[39] == 0x6C;
      case 10 => assert PREFIX[40] == 0x20 && PREFIX[41] == 0x72 && PREFIX[42] == 0x69 && PREFIX[43] == 0x67;
      case 11 => assert PREFIX[44] == 0x68 && PREFIX[45] == 0x74 && PREFIX[46] == 0x73 && PREFIX[47] == 0x20;
      case 12 => assert PREFIX[48] == 0x72 && PREFIX[49] == 0x65 && PREFIX[50] == 0x73 && PREFIX[51] == 0x65;
      case 13 => assert PREFIX[52] == 0x72 && PREFIX[53] == 0x76 && PREFIX[54] == 0x65 && PREFIX[55] == 0x64;
    }
  }

  // ---- The rounds run in advance ----

  /** The working variables after t rounds over the prefix. */
  ghost function PrerunState(t: nat): Regs
    requires t <= 14
  {
    match t
    case 0 => Regs(0x6A09E667, 0xBB67AE85, 0x3C6EF372, 0xA54FF53A, 0x510E527F, 0x9B05688C, 0x1F83D9AB, 0x5BE0CD19)
    case 1 => Regs(0x3F77F8C6, 0x6A09E667, 0xBB67AE85, 0x3C6EF372, 0xDC37531B, 0x510E527F, 0x9B05688C, 0x1F83D9AB)
    case 2 => Regs(0x3F44E2C5, 0x3F77F8C6, 0x6A09E667, 0xBB67AE85, 0xAA3CC9FD, 0xDC37531B, 0x510E527F, 0x9B05688C)
    case 3 => Regs(0xFF4FE356, 0x3F44E2C5, 0x3F77F8C6, 0x6A09E667, 0x30FDD8A9, 0xAA3CC9FD, 0xDC37531B, 0x510E527F)
    case 4 => Regs(0xF95E3FA6, 0xFF4FE356, 0x3F44E2C5, 0x3F77F8C6, 0x8936E9F0, 0x30FDD8A9, 0xAA3CC9FD, 0xDC37531B)
    case 5 => Regs(0x3D6C1597, 0xF95E3FA6, 0xFF4FE356, 0x3F44E2C5, 0x41F64B9A, 0x8936E9F0, 0x30FDD8A9, 0xAA3CC9FD)
    case 6 => Regs(0x57413F0C, 0x3D6C1597, 0xF95E3FA6, 0xFF4FE356, 0xC583374B, 0x41F64B9A, 0x8936E9F0, 0x30FDD8A9)
    case 7 => Regs(0xBEF3B6ED, 0x57413F0C, 0x3D6C1597, 0xF95E3FA6, 0x57A89626, 0xC583374B, 0x41F64B9A, 0x8936E9F0)
    case 8 => Regs(0xC8E7329E, 0xBEF3B6ED, 0x57413F0C, 0x3D6C1597, 0x6CD98DDA, 0x57A89626, 0xC583374B, 0x41F64B9A)
    case 9 => Regs(0xA01951DC, 0xC8E7329E, 0xBEF3B6ED, 0x57413F0C, 0x449C402A, 0x6CD98DDA, 0x57A89626, 0xC583374B)
    case 10 => Regs(0x9F12E589, 0xA01951DC, 0xC8E7329E, 0xBEF3B6ED, 0x89BCCB7C, 0x449C402A, 0x6CD98DDA, 0x57A89626)
    case 11 => Regs(0xCD2E1E0A, 0x9F12E589, 0xA01951DC, 0xC8E7329E, 0x03EFFBD2, 0x89BCCB7C, 0x449C402A, 0x6CD98DDA)
    case 12 => Regs(0xBE499094, 0xCD2E1E0A, 0x9F12E589, 0xA01951DC, 0xFEB0A7E4, 0x03EFFBD2, 0x89BCCB7C, 0x449C402A)
    case 13 => Regs(0x91243CE7, 0xBE499094, 0xCD2E1E0A, 0x9F12E589, 0x04BD35AB, 0xFEB0A7E4, 0x03EFFBD2, 0x89BCCB7C)
    case _ => Regs(0xFD9FBEA2, 0x91243CE7, 0xBE499094, 0xCD2E1E0A, 0x6C006F49, 0x04BD35AB, 0xFEB0A7E4, 0x03EFFBD2)
  }

  /** K_t + W_t for the prefix. */
  ghost function PrerunInput(t: nat): word
    requires t < 14
  {
    match t
    case 0 => 0x85F9A011
    case 1 => 0xE3A0ABF9
    case 2 => 0x29E12412
    case 3 => 0x12D6290E
    case 4 => 0x9CC931CE
    case 5 => 0xC9578611
    case 6 => 0xD5AEF514
    case 7 => 0x1A8EC049
    case 8 => 0x417718C6
    case 9 => 0x32C4C76D
    case 10 => 0x44A3EF25
    case 11 => 0xBD80F0E3
    case 12 => 0xE523D0D9
    case _ => 0xF3551762
  }

  lemma PrerunRound(t: nat)
    requires t < 14
    ensures Round(PrerunState(t), PrerunInput(t)) == PrerunState(t + 1)
  {
    match t {
      case 0 =>
      case 1 =>
      case 2 =>
      case 3 =>
      case 4 =>
      case 5 =>
      case 6 =>
      case 7 =>
      case 8 =>
      case 9 =>
      case 10 =>
      case 11 =>
      case 12 =>
      case 13 =>
    }
  }

  lemma PrerunInputIsRoundInput(m: seq<word>, t: nat)
    requires |m| == 16 && m[..14] == PREFIX_WORDS && t < 14
    ensures RoundInput(m, t) == PrerunInput(t)
  {
    assert m[t] == m[..14][t];
    match t {
      case 0 => assert K[0] == 0x428A2F98 && PREFIX_WORDS[0] == 0x436F7079;
      case 1 => assert K[1] == 0x71374491 && PREFIX_WORDS[1] == 0x72696768;
      case 2 => assert K[2] == 0xB5C0FBCF && PREFIX_WORDS[2] == 0x74202843;
      case 3 => assert K[3] == 0xE9B5DBA5 && PREFIX_WORDS[3] == 0x29204D69;
      case 4 => assert K[4] == 0x3956C25B && PREFIX_WORDS[4] == 0x63726F73;
      case 5 => assert K[5] == 0x59F111F1 && PREFIX_WORDS[5] == 0x6F667420;
      case 6 => assert K[6] == 0x923F82A4 && PREFIX_WORDS[6] == 0x436F7270;
      case 7 => assert K[7] == 0xAB1C5ED5 && PREFIX_WORDS[7] == 0x6F726174;
      case 8 => assert K[8] == 0xD807AA98 && PREFIX_WORDS[8] == 0x696F6E2E;
      case 9 => assert K[9] == 0x12835B01 && PREFIX_WORDS[9] == 0x20416C6C;
      case 10 => assert K[10] == 0x243185BE && PREFIX_WORDS[10] == 0x20726967;
      case 11 => assert K[11] == 0x550C7DC3 && PREFIX_WORDS[11] == 0x68747320;
      case 12 => assert K[12] == 0x72BE5D74 && PREFIX_WORDS[12] == 0x72657365;
      case 13 => assert K[13] == 0x80DEB1FE && PREFIX_WORDS[13] == 0x72766564;
    }
  }

  lemma {:induction false} Prerun(m: seq<word>, t: nat)
    requires |m| == 16 && m[..14] == PREFIX_WORDS && t <= 14
    ensures Rounds(H0, m, t) == PrerunState(t)
  {
    if t > 0 {
      Prerun(m, t - 1);
      PrerunInputIsRoundInput(m, t - 1);
      PrerunRound(t - 1);
    }
  }

  /** Rounds 0 .. 13 over the prefix leave exactly the stored state. */
  lemma MidstateIsFourteenRounds(m: seq<word>)
    requires |m| == 16 && m[..14] == PREFIX_WORDS
    ensures Rounds(H0, m, 14) == RegsOf(SHA256_STATE)
  {
    Prerun(m, 14);
  }

  function RegsOf(s: seq<word>): Regs
    requires |s| == 8
  {
    Regs(s[0], s[1], s[2], s[3], s[4], s[5], s[6], s[7])
  }

  // ---- The schedule of the first block ----

  const TOP: word := 0x2E000000

  /** Word 14 as the program stores it: without its top byte. */
  function LowWord(data7: seq<byte>): word
    requires |data7| == 7
  {
    ((data7[0] as word) << 16) | ((data7[1] as word) << 8) | (data7[2] as word)
  }

  lemma WordFourteen(data7: seq<byte>)
    requires |data7| == 7
    ensures Schedule(FirstBlock(data7), 14) == Xor(LowWord(data7), TOP) == Plus(LowWord(data7), TOP)
  {
    TopByte(data7[0], data7[1], data7[2]);
  }

  /** The stored entries are the constant terms of W_16 .. W_29, with the missing top byte added at 21. */
  lemma ScheduleConstant(i: nat)
    requires 16 <= i <= 29
    ensures SHA256_SCHEDULE[i - 16] ==
            if i < 21 then Plus(Plus(PREFIX_WORDS[i - 7], SmallSigma0(PREFIX_WORDS[i - 15])), PREFIX_WORDS[i - 16])
            else if i == 21 then Plus(Plus(SmallSigma0(PREFIX_WORDS[6]), PREFIX_WORDS[5]), TOP)
            else if i < 29 then Plus(SmallSigma0(PREFIX_WORDS[i - 15]), PREFIX_WORDS[i - 16])
            else PREFIX_WORDS[13]
  {
    match i {
      case 16 => case 17 => case 18 => case 19 => case 20 => case 21 => case 22 =>
      case 23 => case 24 => case 25 => case 26 => case 27 => case 28 => case 29 =>
    }
  }

  lemma Adjustments()
    ensures SmallSigma0(TOP) == SIGMA0_ADJUSTMENT
    ensures SmallSigma1(TOP) == SIGMA1_ADJUSTMENT
    ensures SHA256_ADJUSTMENT == K[14] + TOP
  {
    assert K[14] == 0x9BDC06A7;
  }

  /** The array holds the schedule of the first block from word 15 up to word n, and the short word 14. */
  ghost predicate Filled(data7: seq<byte>, w: seq<word>, n: nat)
    requires |data7| == 7
  {
    && |w| == 64
    && w[14] == LowWord(data7)
    && forall j :: 15 <= j < n && j < 64 ==> w[j] == Schedule(FirstBlock(data7), j)
  }

  /** What the program adds up for entry i. */
  ghost function EntryValue(w: seq<word>, i: nat): word
    requires |w| == 64 && 16 <= i <= 29
  {
    var s1 := if i == 16 then Xor(SmallSigma1(w[i - 2]), SIGMA1_ADJUSTMENT) else SmallSigma1(w[i - 2]);
    var v1 := Plus(SHA256_SCHEDULE[i - 16], s1);
    var v2 := if i >= 21 then Plus(v1, w[i - 7]) else v1;
    if i == 29 then Plus(v2, Xor(SmallSigma0(w[i - 15]), SIGMA0_ADJUSTMENT)) else v2
  }

  lemma EntryLow(data7: seq<byte>, w: seq<word>, i: nat)
    requires |data7| == 7 && 16 <= i < 21 && Filled(data7, w, i)
    ensures Schedule(FirstBlock(data7), i) == EntryValue(w, i)
  {
    var m := FirstBlock(data7);
    var s1 := SmallSigma1(Schedule(m, i - 2));
    assert s1 == if i == 16 then Xor(SmallSigma1(w[i - 2]), SIGMA1_ADJUSTMENT) else SmallSigma1(w[i - 2]) by {
      WordFourteen(data7);
      Sigma1Linear(LowWord(data7), TOP);
      Adjustments();
    }
    ScheduleConstant(i);
    assert m[i - 7] == PREFIX_WORDS[i - 7] && m[i - 15] == PREFIX_WORDS[i - 15] && m[i - 16] == PREFIX_WORDS[i - 16];
    CollectThree(s1, m[i - 7], SmallSigma0(m[i - 15]), m[i - 16], SHA256_SCHEDULE[i - 16]);
  }

  lemma EntryTwentyOne(data7: seq<byte>, w: seq<word>)
    requires |data7| == 7 && Filled(data7, w, 21)
    ensures Schedule(FirstBlock(data7), 21) == EntryValue(w, 21)
  {
    var m := FirstBlock(data7);
    var s1 := SmallSigma1(Schedule(m, 19));
    ScheduleConstant(21);
    WordFourteen(data7);
    assert m[6] == PREFIX_WORDS[6] && m[5] == PREFIX_WORDS[5];
    var k := Plus(SmallSigma0(m[6]), m[5]);
    CollectTwo(s1, Schedule(m, 14), SmallSigma0(m[6]), m[5], k);
    MoveConstant(LowWord(data7), TOP, Plus(k, s1));
    PlusAC(k, s1, TOP);
    PlusAC(s1, TOP, TOP);
    PlusAC(k, TOP, s1);
  }

  lemma EntryMiddle(data7: seq<byte>, w: seq<word>, i: nat)
    requires |data7| == 7 && 21 < i < 29 && Filled(data7, w, i)
    ensures Schedule(FirstBlock(data7), i) == EntryValue(w, i)
  {
    var m := FirstBlock(data7);
    ScheduleConstant(i);
    assert m[i - 15] == PREFIX_WORDS[i - 15] && m[i - 16] == PREFIX_WORDS[i - 16];
    CollectTwo(SmallSigma1(Schedule(m, i - 2)), Schedule(m, i - 7), SmallSigma0(m[i - 15]), m[i - 16],
               SHA256_SCHEDULE[i - 16]);
  }

  lemma EntryTwentyNine(data7: seq<byte>, w: seq<word>)
    requires |data7| == 7 && Filled(data7, w, 29)
    ensures Schedule(FirstBlock(data7), 29) == EntryValue(w, 29)
  {
    var m := FirstBlock(data7);
    ScheduleConstant(29);
    assert SmallSigma0(Schedule(m, 14)) == Xor(SmallSigma0(w[14]), SIGMA0_ADJUSTMENT) by {
      WordFourteen(data7);
      Sigma0Linear(LowWord(data7), TOP);
      Adjustments();
    }
    assert m[13] == PREFIX_WORDS[13];
    CollectOne(SmallSigma1(Schedule(m, 27)), Schedule(m, 22), SmallSigma0(Schedule(m, 14)), m[13]);
  }

  /** Entries 16 .. 29 are the standard schedule although word 14 lacks its top byte. */
  lemma EntryIsSchedule(data7: seq<byte>, w: seq<word>, i: nat)
    requires |data7| == 7 && 16 <= i <= 29 && Filled(data7, w, i)
    ensures Schedule(FirstBlock(data7), i) == EntryValue(w, i)
  {
    if i < 21 {
      EntryLow(data7, w, i);
    } else if i == 21 {
      EntryTwentyOne(data7, w);
    } else if i < 29 {
      EntryMiddle(data7, w, i);
    } else {
      EntryTwentyNine(data7, w);
    }
  }

  /** The sum stored at word 30. */
  function WordThirty(s1: word, w23: word, s0: word, w14: word): word {
    Minus(Plus(Plus(Plus(Plus(s1, w23), s0), w14), SHA256_ADJUSTMENT), K[14])
  }

  /** The adjusted constant of round 14 less the standard one puts the missing top byte back. */
  lemma WordThirtyIsSum(s1: word, w23: word, s0: word, w14: word)
    ensures WordThirty(s1, w23, s0, w14) == Sum4(s1, w23, s0, Plus(w14, TOP))
  {
    assert SHA256_ADJUSTMENT == Plus(K[14], TOP) by {
      Adjustments();
    }
    var sum := Plus(Plus(s1, w23), s0);
    CancelConstant(Plus(sum, w14), SHA256_ADJUSTMENT, K[14], TOP);
    PlusAC(sum, w14, TOP);
    Sum4IsPlus(s1, w23, s0, Plus(w14, TOP));
  }

  lemma EntryThirty(data7: seq<byte>, w: seq<word>)
    requires |data7| == 7 && Filled(data7, w, 30)
    ensures Schedule(FirstBlock(data7), 30) == WordThirty(SmallSigma1(w[28]), w[23], SmallSigma0(w[15]), w[14])
  {
    WordThirtyIsSum(SmallSigma1(w[28]), w[23], SmallSigma0(w[15]), w[14]);
    assert Schedule(FirstBlock(data7), 14) == Plus(w[14], TOP) by {
      WordFourteen(data7);
    }
  }

  // ---- The program ----

  /** The rounds from i0 up to i with given constants and words: what edgedrm.cpp:77-93 computes. */
  ghost function RunRounds(s: Regs, consts: seq<word>, words: seq<word>, i0: nat, i: nat): Regs
    requires i0 <= i <= |consts| && i <= |words|
  {
    if i == i0 then s else Round(RunRounds(s, consts, words, i0, i - 1), Plus(consts[i - 1], words[i - 1]))
  }

  lemma FirstSum(s: Regs, h: word, k: word, w: word, s1: word, ch: word)
    requires h == s.h && s1 == BigSigma1(s.e) && ch == Ch(s.e, s.f, s.g)
    ensures h + s1 + ch + k + w == T1(s, Plus(k, w))
  {
    SumFive(h, s1, ch, k, w);
  }

  /** The eight registers after one pass of the loop are one round. */
  lemma RoundOnLocals(s: Regs, k: word, w: word, d: word, h: word, s1: word, ch: word, s0: word, maj: word,
                      t1: word, t2: word)
    requires s.d == d && s.h == h && s1 == BigSigma1(s.e) && ch == Ch(s.e, s.f, s.g)
    requires s0 == BigSigma0(s.a) && maj == Maj(s.a, s.b, s.c)
    requires t1 == h + s1 + ch + k + w && t2 == s0 + maj
    ensures Round(s, Plus(k, w)) == Regs(t1 + t2, s.a, s.b, s.c, d + t1, s.e, s.f, s.g)
  {
    FirstSum(s, h, k, w, s1, ch);
    PlusIsSum(s0, maj);
    PlusIsSum(t1, t2);
    PlusIsSum(d, t1);
  }

  /** The body of the round loop: the two registers it computes; the other six only move along. */
  method RoundSums(a: word, b: word, c: word, d: word, e: word, f: word, g: word, h: word, k: word, w: word)
    returns (newA: word, newE: word)
    ensures Round(Regs(a, b, c, d, e, f, g, h), Plus(k, w)) == Regs(newA, a, b, c, newE, e, f, g)
  {
    var s1 := Parity(Rotr(e, 6), Rotr(e, 11), Rotr(e, 25));
    var ch := Ch(e, f, g);
    var t1 := h + s1 + ch + k + w;
    var s0 := Parity(Rotr(a, 2), Rotr(a, 13), Rotr(a, 22));
    var maj := Maj(a, b, c);
    var t2 := s0 + maj;
    newE := d + t1;
    newA := t1 + t2;
    RoundOnLocals(Regs(a, b, c, d, e, f, g, h), k, w, d, h, s1, ch, s0, maj, t1, t2);
  }

  method StoreRegs(out: array<word>, a: word, b: word, c: word, d: word, e: word, f: word, g: word, h: word)
    requires out.Length == 8
    modifies out
    ensures RegsOf(out[..]) == Regs(a, b, c, d, e, f, g, h)
  {
    out[0], out[1], out[2], out[3] := a, b, c, d;
    out[4], out[5], out[6], out[7] := e, f, g, h;
  }

  method Sha256Rounds(input: seq<word>, words: array<word>, consts: seq<word>, firstRound: nat, out: array<word>)
    requires |input| == 8 && words.Length == 64 && |consts| == 64 && out.Length == 8
    requires firstRound <= 64 && out != words
    modifies out
    ensures RegsOf(out[..]) == RunRounds(RegsOf(input), consts, old(words[..]), firstRound, 64)
  {
    var a, b, c, d := input[0], input[1], input[2], input[3];
    var e, f, g, h := input[4], input[5], input[6], input[7];
    for i := firstRound to 64
      invariant Regs(a, b, c, d, e, f, g, h) == RunRounds(RegsOf(input), consts, words[..], firstRound, i)
    {
      var newA, newE := RoundSums(a, b, c, d, e, f, g, h, consts[i], words[i]);
      h, g, f, e := g, f, e, newE;
      d, c, b, a := c, b, a, newA;
    }
    StoreRegs(out, a, b, c, d, e, f, g, h);
  }

  method ExpandSchedule(words: array<word>, first: nat, ghost m: seq<word>)
    requires words.Length == 64 && 16 <= first <= 64 && |m| == 16
    requires forall j :: first - 16 <= j < first ==> words[j] == Schedule(m, j)
    modifies words
    ensures forall j :: 0 <= j < first ==> words[j] == old(words[j])
    ensures forall j :: first <= j < 64 ==> words[j] == Schedule(m, j)
  {
    for i := first to 64
      invariant forall j :: 0 <= j < first ==> words[j] == old(words[j])
      invariant forall j :: first - 16 <= j < i ==> words[j] == Schedule(m, j)
    {
      var x := words[i - 2];
      var y := words[i - 15];
      ghost var sum := Sum4(SmallSigma1(x), words[i - 7], SmallSigma0(y), words[i - 16]);
      assert sum == Schedule(m, i);
      words[i] := SmallSigma1(x) + words[i - 7] + SmallSigma0(y) + words[i - 16];
    }
  }

  /** Rounds run with inputs equal to K_t + W_t are the standard rounds. */
  lemma {:induction false} RunIsRounds(s: Regs, start: Regs, m: seq<word>, consts: seq<word>, words: seq<word>,
                                       i0: nat, i: nat)
    requires |m| == 16 && |consts| == 64 && |words| == 64 && i0 <= i <= 64
    requires start == Rounds(s, m, i0)
    requires forall j :: i0 <= j < i ==> Plus(consts[j], words[j]) == RoundInput(m, j)
    ensures RunRounds(start, consts, words, i0, i) == Rounds(s, m, i)
  {
    if i > i0 {
      RunIsRounds(s, start, m, consts, words, i0, i - 1);
      assert Plus(consts[i - 1], words[i - 1]) == RoundInput(m, i - 1);
    }
  }

  /** Round 14 takes the same input although both its constant and its word are adjusted. */
  lemma RoundFourteenInput(data7: seq<byte>)
    requires |data7| == 7
    ensures Plus(SHA256_ADJUSTMENT, LowWord(data7)) == RoundInput(FirstBlock(data7), 14)
  {
    WordFourteen(data7);
    assert SHA256_ADJUSTMENT == Plus(K[14], TOP) by {
      Adjustments();
    }
    MoveConstant(LowWord(data7), TOP, K[14]);
  }

  method AddInto(out: array<word>, base: seq<word>, working: array<word>)
    requires out.Length == 8 && working.Length == 8 && |base| == 8 && out != working
    modifies out
    ensures RegsOf(out[..]) == AddRegs(RegsOf(base), RegsOf(working[..]))
  {
    for i := 0 to 8
      invariant forall j :: 0 <= j < i ==> out[j] == Plus(base[j], working[j])
    {
      out[i] := Plus(base[i], working[i]);
    }
  }

  const SHA256_INITIAL: seq<word> := [
    0x6A09E667, 0xBB67AE85, 0x3C6EF372, 0xA54FF53A, 0x510E527F, 0x9B05688C, 0x1F83D9AB, 0x5BE0CD19]

  /** Entries 16 .. 29 from the stored table (edgedrm.cpp:111-123). */
  method ScheduleEntries(words: array<word>, ghost data7: seq<byte>)
    requires |data7| == 7 && words.Length == 64 && Filled(data7, words[..], 16)
    modifies words
    ensures Filled(data7, words[..], 30)
  {
    for index := 16 to 30
      invariant Filled(data7, words[..], index)
    {
      EntryIsSchedule(data7, words[..], index);
      var value := SHA256_SCHEDULE[index - 16];
      var s1 := SmallSigma1(words[index - 2]);
      if index == 16 {
        s1 := Xor(s1, SIGMA1_ADJUSTMENT);
      }
      value := Plus(value, s1);
      if index - 7 >= 14 {
        value := Plus(value, words[index - 7]);
      }
      if index - 15 >= 14 {
        var s0 := SmallSigma0(words[index - 15]);
        if index == 29 {
          s0 := Xor(s0, SIGMA0_ADJUSTMENT);
        }
        value := Plus(value, s0);
      }
      words[index] := value;
    }
  }

  /** The schedule of the first block: words 15 .. 63 standard, word 14 short of its top byte. */
  method FirstSchedule(data7: seq<byte>, words: array<word>)
    requires |data7| == 7 && words.Length == 64
    modifies words
    ensures Filled(data7, words[..], 64)
  {
    for i := 0 to 14 {
      words[i] := 0;
    }
    words[14] := ((data7[0] as word) << 16) | ((data7[1] as word) << 8) | (data7[2] as word);
    words[15] := Word(data7[3], data7[4], data7[5], data7[6]);
    ScheduleEntries(words, data7);
    EntryThirty(data7, words[..]);
    words[30] := WordThirty(SmallSigma1(words[28]), words[23], SmallSigma0(words[15]), words[14]);
    ExpandSchedule(words, 31, FirstBlock(data7));
  }

  /** The round constants with that of round 14 adjusted (edgedrm.cpp:129-131). */
  method BlockConstants() returns (c: array<word>)
    ensures fresh(c) && c[..] == K[14 := SHA256_ADJUSTMENT]
  {
    c := new word[64];
    for i := 0 to 64
      invariant forall j :: 0 <= j < i ==> c[j] == K[j]
    {
      c[i] := K[i];
    }
    c[14] := SHA256_ADJUSTMENT;
  }

  lemma FirstBlockInputs(data7: seq<byte>, words: seq<word>, j: nat)
    requires |data7| == 7 && Filled(data7, words, 64) && 14 <= j < 64
    ensures Plus(K[14 := SHA256_ADJUSTMENT][j], words[j]) == RoundInput(FirstBlock(data7), j)
  {
    if j == 14 {
      RoundFourteenInput(data7);
    }
  }

  /** Rounds 14 .. 63 from the stored state with the adjusted constants and words are all 64 standard rounds. */
  lemma FirstBlockRounds(data7: seq<byte>, words: seq<word>)
    requires |data7| == 7 && Filled(data7, words, 64)
    ensures RunRounds(RegsOf(SHA256_STATE), K[14 := SHA256_ADJUSTMENT], words, 14, 64) ==
            Rounds(H0, FirstBlock(data7), 64)
  {
    var m := FirstBlock(data7);
    assert m[..14] == PREFIX_WORDS;
    MidstateIsFourteenRounds(m);
    forall j | 14 <= j < 64 ensures Plus(K[14 := SHA256_ADJUSTMENT][j], words[j]) == RoundInput(m, j) {
      FirstBlockInputs(data7, words, j);
    }
    RunIsRounds(H0, RegsOf(SHA256_STATE), m, K[14 := SHA256_ADJUSTMENT], words, 14, 64);
  }

  /** The custom initial state is the standard hash value after the block prefix + data7. */
  method Sha256Init(data7: seq<byte>, out: array<word>)
    requires |data7| == 7 && out.Length == 8
    modifies out
    ensures RegsOf(out[..]) == Compress(H0, BlockWords(PREFIX + data7))
  {
    var words := new word[64];
    FirstSchedule(data7, words);
    var blockConstants := BlockConstants();
    var working := new word[8];
    Sha256Rounds(SHA256_STATE, words, blockConstants[..], 14, working);
    AddInto(out, SHA256_INITIAL, working);
    FirstBlockRounds(data7, words[..]);
    FirstBlockIsPrefixThenData(data7);
  }

  // ---- The digest ----

  /** The remainder of truncating division: it takes the sign of the dividend. */
  function TruncMod(x: int, y: nat): int
    requires y > 0
  {
    if x >= 0 then x % y else -((-x) % y)
  }

  /** The padded data after its first 7 bytes; the length counts the prefix. */
  ghost function PaddedTail(data: seq<byte>): seq<byte>
    requires |data| >= 7
  {
    data[7..] + [0x80] + seq(ZeroBytes(57 + |data|), i => 0) + Length64(8 * (57 + |data|))
  }

  lemma PadSplits(data: seq<byte>)
    requires |data| >= 7
    ensures Pad(PREFIX + data) == (PREFIX + data[..7]) + PaddedTail(data)
  {
    var p, n := PREFIX, Length64(8 * (57 + |data|));
    var zeros := seq<byte>(ZeroBytes(57 + |data|), i => 0);
    assert |p + data| == 57 + |data|;
    assert data == data[..7] + data[7..];
  }

  /** The length in bits, most significant byte first (edgedrm.cpp:152-155). */
  method LengthBytes(length: nat) returns (b: seq<byte>)
    ensures b == Length64(8 * length)
  {
    b := [];
    var bits := (length * 8) % 0x1_0000_0000_0000_0000;
    for i := 8 downto 0
      invariant b == Length64(8 * length)[..8 - i]
    {
      b := b + [(ShiftBytes(bits, i) % 256) as byte];
    }
  }

  /** Taken up by 64 when negative, the truncating remainder is the Euclidean one. */
  lemma TruncModCorrected(x: int)
    ensures x % 64 == if TruncMod(x, 64) < 0 then TruncMod(x, 64) + 64 else TruncMod(x, 64)
  {
    if x < 0 {
      var q, r := (-x) / 64, (-x) % 64;
      RemainderOf(x, if r == 0 then -q else -q - 1, if r == 0 then 0 else 64 - r);
    }
  }

  lemma RemainderOf(x: int, q: int, r: int)
    requires x == 64 * q + r && 0 <= r < 64
    ensures x % 64 == r
  {
  }

  lemma ZeroBytesIsRemainder(n: nat)
    ensures (55 - n) % 64 == (119 - n % 64) % 64
  {
    var q, r := n / 64, n % 64;
    if r <= 55 {
      RemainderOf(55 - n, -q, 55 - r);
      RemainderOf(119 - r, 1, 55 - r);
    } else {
      RemainderOf(55 - n, -q - 1, 119 - r);
      RemainderOf(119 - r, 0, 119 - r);
    }
  }

  /** The zero bytes before the length (edgedrm.cpp:147-149). */
  method ZeroCount(length: nat) returns (z: int)
    ensures z == (119 - length % 64) % 64
  {
    TruncModCorrected(55 - length);
    ZeroBytesIsRemainder(length);
    hide TruncMod;
    z := TruncMod(55 - length, 64);
    if z < 0 {
      z := z + 64;
    }
  }

  method PadTail(data: seq<byte>) returns (padded: seq<byte>)
    requires |data| >= 7
    ensures padded == PaddedTail(data)
  {
    var length := 57 + |data|;
    padded := data[7..] + [0x80];
    var z := ZeroCount(length);
    padded := padded + seq(z, i => 0);
    var bits := LengthBytes(length);
    padded := padded + bits;
  }

  /** 16 words in big-endian order (edgedrm.cpp:162-166). */
  method LoadWords(words: array<word>, padded: seq<byte>, off: nat)
    requires words.Length == 64 && off + 64 <= |padded|
    modifies words
    ensures forall j :: 0 <= j < 16 ==> words[j] == BlockWords(padded[off..off + 64])[j]
  {
    for i := 0 to 16
      invariant forall j :: 0 <= j < i ==> words[j] == BlockWords(padded[off..off + 64])[j]
    {
      words[i] := Word(padded[off + i * 4], padded[off + i * 4 + 1], padded[off + i * 4 + 2], padded[off + i * 4 + 3]);
    }
  }

  lemma StandardRounds(s: Regs, m: seq<word>, words: seq<word>)
    requires |m| == 16 && |words| == 64
    requires forall j :: 0 <= j < 64 ==> words[j] == Schedule(m, j)
    ensures RunRounds(s, K, words, 0, 64) == Rounds(s, m, 64)
  {
    RunIsRounds(s, s, m, K, words, 0, 64);
  }

  /** The compression of one block, without the final addition. */
  method BlockRounds(state: seq<word>, padded: seq<byte>, off: nat, working: array<word>)
    requires |state| == 8 && off + 64 <= |padded| && working.Length == 8
    modifies working
    ensures RegsOf(working[..]) == Rounds(RegsOf(state), BlockWords(padded[off..off + 64]), 64)
  {
    ghost var m := BlockWords(padded[off..off + 64]);
    var words := new word[64];
    LoadWords(words, padded, off);
    ExpandSchedule(words, 16, m);
    StandardRounds(RegsOf(state), m, words[..]);
    Sha256Rounds(state, words, K, 0, working);
  }

  /** One pass of the block loop: the state after it is the next hash value. */
  method AbsorbBlock(state: array<word>, padded: seq<byte>, off: nat)
    requires state.Length == 8 && off + 64 <= |padded|
    modifies state
    ensures RegsOf(state[..]) == Compress(RegsOf(old(state[..])), BlockWords(padded[off..off + 64]))
  {
    var working := new word[8];
    BlockRounds(state[..], padded, off, working);
    AddInto(state, state[..], working);
  }

  lemma FirstBlockOfChain(first: seq<byte>, tail: seq<byte>)
    requires |first| == 64 && |tail| % 64 == 0
    ensures Chain(H0, first + tail) == Chain(Compress(H0, BlockWords(first)), tail)
  {
    assert (first + tail)[..64] == first && (first + tail)[64..] == tail;
  }

  /** The block loop (edgedrm.cpp:160-171). */
  method AbsorbBlocks(state: array<word>, padded: seq<byte>)
    requires state.Length == 8 && |padded| % 64 == 0
    modifies state
    ensures RegsOf(state[..]) == Chain(RegsOf(old(state[..])), padded)
  {
    var off := 0;
    while off < |padded|
      invariant 0 <= off <= |padded| && off % 64 == 0
      invariant Chain(RegsOf(state[..]), padded[off..]) == Chain(RegsOf(old(state[..])), padded)
    {
      assert padded[off..][..64] == padded[off..off + 64] && padded[off..][64..] == padded[off + 64..];
      AbsorbBlock(state, padded, off);
      off := off + 64;
    }
  }

  lemma RegsWordsOf(ws: seq<word>)
    requires |ws| == 8
    ensures RegsWords(RegsOf(ws)) == ws
  {
  }

  /** Each word, most significant byte first (edgedrm.cpp:172-177). */
  method DigestBytes(state: array<word>) returns (out: seq<byte>)
    requires state.Length == 8
    ensures out == WordsBytes(RegsWords(RegsOf(state[..])))
  {
    out := [];
    for i := 0 to 8
      invariant out == WordsBytes(state[..i])
    {
      assert state[..i + 1][..i] == state[..i];
      out := out + WordBytes(state[i]);
    }
    assert state[..8] == state[..];
    RegsWordsOf(state[..]);
  }

  /** For data of at least 7 bytes the digest is the SHA-256 of the hidden prefix followed by the data. */
  method Sha256Digest(data: seq<byte>) returns (ok: bool, out: seq<byte>)
    ensures ok <==> |data| >= 7
    ensures ok ==> out == Sha256(PREFIX + data)
  {
    if |data| < 7 {
      return false, [];
    }
    var padded := PadTail(data);
    PadSplits(data);
    FirstBlockOfChain(PREFIX + data[..7], padded);
    var state := new word[8];
    Sha256Init(data[..7], state);
    AbsorbBlocks(state, padded);
    ok := true;
    out := DigestBytes(state);
  }
}
