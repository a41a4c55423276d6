/** The examples of FIPS 197: the key expansion of Appendix A.1 and the cipher of Appendix B.

    They fix what the inverse theorems leave open: the expansion itself, the direction in which rows move, the matrix of
    the columns and the order of the round keys.
*/
module AesVector {
  import opened Bytes
  import opened AesTables
  import opened GaloisField
  import opened Fips197
  import opened KeySchedule
  import opened Words

  const KEY: State := [0x2b, 0x7e, 0x15, 0x16, 0x28, 0xae, 0xd2, 0xa6] +
    [0xab, 0xf7, 0x15, 0x88, 0x09, 0xcf, 0x4f, 0x3c]
  const INPUT: State := [0x32, 0x43, 0xf6, 0xa8, 0x88, 0x5a, 0x30, 0x8d] +
    [0x31, 0x31, 0x98, 0xa2, 0xe0, 0x37, 0x07, 0x34]
  const OUTPUT: State := [0x39, 0x25, 0x84, 0x1d, 0x02, 0xdc, 0x09, 0xfb] +
    [0xdc, 0x11, 0x85, 0x97, 0x19, 0x6a, 0x0b, 0x32]

  // ---- Appendix A.1 ----

  /** One pass of the schedule over four words. */
  lemma FourWords(key: State, n: nat, a: Word, b: Word, c: Word, d: Word, t: Word)
    requires 1 <= n <= 10 && t == XorWords(SubWord(RotWord(d)), Rcon(n))
    requires KeyWord(key, 4 * n - 4) == a && KeyWord(key, 4 * n - 3) == b
    requires KeyWord(key, 4 * n - 2) == c && KeyWord(key, 4 * n - 1) == d
    ensures KeyWord(key, 4 * n) == XorWords(a, t)
    ensures KeyWord(key, 4 * n + 1) == XorWords(b, KeyWord(key, 4 * n))
    ensures KeyWord(key, 4 * n + 2) == XorWords(c, KeyWord(key, 4 * n + 1))
    ensures KeyWord(key, 4 * n + 3) == XorWords(d, KeyWord(key, 4 * n + 2))
  {
    hide XorWords, SubWord, RotWord, Rcon;
  }

  lemma Words0()
    ensures KeyWord(KEY, 0) == [0x2b, 0x7e, 0x15, 0x16] && KeyWord(KEY, 1) == [0x28, 0xae, 0xd2, 0xa6]
    ensures KeyWord(KEY, 2) == [0xab, 0xf7, 0x15, 0x88] && KeyWord(KEY, 3) == [0x09, 0xcf, 0x4f, 0x3c]
  {
  }

  lemma Substituted1()
    ensures SubWord(RotWord([0x09, 0xcf, 0x4f, 0x3c])) == [0x8a, 0x84, 0xeb, 0x01]
  {
  }

  lemma Words1()
    ensures KeyWord(KEY, 4) == [0xa0, 0xfa, 0xfe, 0x17] && KeyWord(KEY, 5) == [0x88, 0x54, 0x2c, 0xb1]
    ensures KeyWord(KEY, 6) == [0x23, 0xa3, 0x39, 0x39] && KeyWord(KEY, 7) == [0x2a, 0x6c, 0x76, 0x05]
  {
    hide KeyWord, KEY, SubWord, RotWord;
    Substituted1();
    assert XorWords([0x8a, 0x84, 0xeb, 0x01], Rcon(1)) == [0x8b, 0x84, 0xeb, 0x01];
    assert XorWords([0x2b, 0x7e, 0x15, 0x16], [0x8b, 0x84, 0xeb, 0x01]) == [0xa0, 0xfa, 0xfe, 0x17];
    assert XorWords([0x28, 0xae, 0xd2, 0xa6], [0xa0, 0xfa, 0xfe, 0x17]) == [0x88, 0x54, 0x2c, 0xb1];
    assert XorWords([0xab, 0xf7, 0x15, 0x88], [0x88, 0x54, 0x2c, 0xb1]) == [0x23, 0xa3, 0x39, 0x39];
    assert XorWords([0x09, 0xcf, 0x4f, 0x3c], [0x23, 0xa3, 0x39, 0x39]) == [0x2a, 0x6c, 0x76, 0x05];
    hide XorWords, Rcon;
    Words0();
    FourWords(KEY, 1, [0x2b, 0x7e, 0x15, 0x16], [0x28, 0xae, 0xd2, 0xa6],
              [0xab, 0xf7, 0x15, 0x88], [0x09, 0xcf, 0x4f, 0x3c], [0x8b, 0x84, 0xeb, 0x01]);
  }

  lemma Substituted2()
    ensures SubWord(RotWord([0x2a, 0x6c, 0x76, 0x05])) == [0x50, 0x38, 0x6b, 0xe5]
  {
  }

  lemma Words2()
    ensures KeyWord(KEY, 8) == [0xf2, 0xc2, 0x95, 0xf2] && KeyWord(KEY, 9) == [0x7a, 0x96, 0xb9, 0x43]
    ensures KeyWord(KEY, 10) == [0x59, 0x35, 0x80, 0x7a] && KeyWord(KEY, 11) == [0x73, 0x59, 0xf6, 0x7f]
  {
    hide KeyWord, KEY, SubWord, RotWord;
    Substituted2();
    assert XorWords([0x50, 0x38, 0x6b, 0xe5], Rcon(2)) == [0x52, 0x38, 0x6b, 0xe5];
    assert XorWords([0xa0, 0xfa, 0xfe, 0x17], [0x52, 0x38, 0x6b, 0xe5]) == [0xf2, 0xc2, 0x95, 0xf2];
    assert XorWords([0x88, 0x54, 0x2c, 0xb1], [0xf2, 0xc2, 0x95, 0xf2]) == [0x7a, 0x96, 0xb9, 0x43];
    assert XorWords([0x23, 0xa3, 0x39, 0x39], [0x7a, 0x96, 0xb9, 0x43]) == [0x59, 0x35, 0x80, 0x7a];
    assert XorWords([0x2a, 0x6c, 0x76, 0x05], [0x59, 0x35, 0x80, 0x7a]) == [0x73, 0x59, 0xf6, 0x7f];
    hide XorWords, Rcon;
    Words1();
    FourWords(KEY, 2, [0xa0, 0xfa, 0xfe, 0x17], [0x88, 0x54, 0x2c, 0xb1],
              [0x23, 0xa3, 0x39, 0x39], [0x2a, 0x6c, 0x76, 0x05], [0x52, 0x38, 0x6b, 0xe5]);
  }

  lemma Substituted3()
    ensures SubWord(RotWord([0x73, 0x59, 0xf6, 0x7f])) == [0xcb, 0x42, 0xd2, 0x8f]
  {
  }

  lemma Words3()
    ensures KeyWord(KEY, 12) == [0x3d, 0x80, 0x47, 0x7d] && KeyWord(KEY, 13) == [0x47, 0x16, 0xfe, 0x3e]
    ensures KeyWord(KEY, 14) == [0x1e, 0x23, 0x7e, 0x44] && KeyWord(KEY, 15) == [0x6d, 0x7a, 0x88, 0x3b]
  {
    hide KeyWord, KEY, SubWord, RotWord;
    Substituted3();
    assert XorWords([0xcb, 0x42, 0xd2, 0x8f], Rcon(3)) == [0xcf, 0x42, 0xd2, 0x8f];
    assert XorWords([0xf2, 0xc2, 0x95, 0xf2], [0xcf, 0x42, 0xd2, 0x8f]) == [0x3d, 0x80, 0x47, 0x7d];
    assert XorWords([0x7a, 0x96, 0xb9, 0x43], [0x3d, 0x80, 0x47, 0x7d]) == [0x47, 0x16, 0xfe, 0x3e];
    assert XorWords([0x59, 0x35, 0x80, 0x7a], [0x47, 0x16, 0xfe, 0x3e]) == [0x1e, 0x23, 0x7e, 0x44];
    assert XorWords([0x73, 0x59, 0xf6, 0x7f], [0x1e, 0x23, 0x7e, 0x44]) == [0x6d, 0x7a, 0x88, 0x3b];
    hide XorWords, Rcon;
    Words2();
    FourWords(KEY, 3, [0xf2, 0xc2, 0x95, 0xf2], [0x7a, 0x96, 0xb9, 0x43],
              [0x59, 0x35, 0x80, 0x7a], [0x73, 0x59, 0xf6, 0x7f], [0xcf, 0x42, 0xd2, 0x8f]);
  }

  lemma Substituted4()
    ensures SubWord(RotWord([0x6d, 0x7a, 0x88, 0x3b])) == [0xda, 0xc4, 0xe2, 0x3c]
  {
  }

  lemma Words4()
    ensures KeyWord(KEY, 16) == [0xef, 0x44, 0xa5, 0x41] && KeyWord(KEY, 17) == [0xa8, 0x52, 0x5b, 0x7f]
    ensures KeyWord(KEY, 18) == [0xb6, 0x71, 0x25, 0x3b] && KeyWord(KEY, 19) == [0xdb, 0x0b, 0xad, 0x00]
  {
    hide KeyWord, KEY, SubWord, RotWord;
    Substituted4();
    assert XorWords([0xda, 0xc4, 0xe2, 0x3c], Rcon(4)) == [0xd2, 0xc4, 0xe2, 0x3c];
    assert XorWords([0x3d, 0x80, 0x47, 0x7d], [0xd2, 0xc4, 0xe2, 0x3c]) == [0xef, 0x44, 0xa5, 0x41];
    assert XorWords([0x47, 0x16, 0xfe, 0x3e], [0xef, 0x44, 0xa5, 0x41]) == [0xa8, 0x52, 0x5b, 0x7f];
    assert XorWords([0x1e, 0x23, 0x7e, 0x44], [0xa8, 0x52, 0x5b, 0x7f]) == [0xb6, 0x71, 0x25, 0x3b];
    assert XorWords([0x6d, 0x7a, 0x88, 0x3b], [0xb6, 0x71, 0x25, 0x3b]) == [0xdb, 0x0b, 0xad, 0x00];
    hide XorWords, Rcon;
    Words3();
    FourWords(KEY, 4, [0x3d, 0x80, 0x47, 0x7d], [0x47, 0x16, 0xfe, 0x3e],
              [0x1e, 0x23, 0x7e, 0x44], [0x6d, 0x7a, 0x88, 0x3b], [0xd2, 0xc4, 0xe2, 0x3c]);
  }

  lemma Substituted5()
    ensures SubWord(RotWord([0xdb, 0x0b, 0xad, 0x00])) == [0x2b, 0x95, 0x63, 0xb9]
  {
  }

  lemma Words5()
    ensures KeyWord(KEY, 20) == [0xd4, 0xd1, 0xc6, 0xf8] && KeyWord(KEY, 21) == [0x7c, 0x83, 0x9d, 0x87]
    ensures KeyWord(KEY, 22) == [0xca, 0xf2, 0xb8, 0xbc] && KeyWord(KEY, 23) == [0x11, 0xf9, 0x15, 0xbc]
  {
    hide KeyWord, KEY, SubWord, RotWord;
    Substituted5();
    assert XorWords([0x2b, 0x95, 0x63, 0xb9], Rcon(5)) == [0x3b, 0x95, 0x63, 0xb9];
    assert XorWords([0xef, 0x44, 0xa5, 0x41], [0x3b, 0x95, 0x63, 0xb9]) == [0xd4, 0xd1, 0xc6, 0xf8];
    assert XorWords([0xa8, 0x52, 0x5b, 0x7f], [0xd4, 0xd1, 0xc6, 0xf8]) == [0x7c, 0x83, 0x9d, 0x87];
    assert XorWords([0xb6, 0x71, 0x25, 0x3b], [0x7c, 0x83, 0x9d, 0x87]) == [0xca, 0xf2, 0xb8, 0xbc];
    assert XorWords([0xdb, 0x0b, 0xad, 0x00], [0xca, 0xf2, 0xb8, 0xbc]) == [0x11, 0xf9, 0x15, 0xbc];
    hide XorWords, Rcon;
    Words4();
    FourWords(KEY, 5, [0xef, 0x44, 0xa5, 0x41], [0xa8, 0x52, 0x5b, 0x7f],
              [0xb6, 0x71, 0x25, 0x3b], [0xdb, 0x0b, 0xad, 0x00], [0x3b, 0x95, 0x63, 0xb9]);
  }

  lemma Substituted6()
    ensures SubWord(RotWord([0x11, 0xf9, 0x15, 0xbc])) == [0x99, 0x59, 0x65, 0x82]
  {
  }

  lemma Words6()
    ensures KeyWord(KEY, 24) == [0x6d, 0x88, 0xa3, 0x7a] && KeyWord(KEY, 25) == [0x11, 0x0b, 0x3e, 0xfd]
    ensures KeyWord(KEY, 26) == [0xdb, 0xf9, 0x86, 0x41] && KeyWord(KEY, 27) == [0xca, 0x00, 0x93, 0xfd]
  {
    hide KeyWord, KEY, SubWord, RotWord;
    Substituted6();
    assert XorWords([0x99, 0x59, 0x65, 0x82], Rcon(6)) == [0xb9, 0x59, 0x65, 0x82];
    assert XorWords([0xd4, 0xd1, 0xc6, 0xf8], [0xb9, 0x59, 0x65, 0x82]) == [0x6d, 0x88, 0xa3, 0x7a];
    assert XorWords([0x7c, 0x83, 0x9d, 0x87], [0x6d, 0x88, 0xa3, 0x7a]) == [0x11, 0x0b, 0x3e, 0xfd];
    assert XorWords([0xca, 0xf2, 0xb8, 0xbc], [0x11, 0x0b, 0x3e, 0xfd]) == [0xdb, 0xf9, 0x86, 0x41];
    assert XorWords([0x11, 0xf9, 0x15, 0xbc], [0xdb, 0xf9, 0x86, 0x41]) == [0xca, 0x00, 0x93, 0xfd];
    hide XorWords, Rcon;
    Words5();
    FourWords(KEY, 6, [0xd4, 0xd1, 0xc6, 0xf8], [0x7c, 0x83, 0x9d, 0x87],
              [0xca, 0xf2, 0xb8, 0xbc], [0x11, 0xf9, 0x15, 0xbc], [0xb9, 0x59, 0x65, 0x82]);
  }

  lemma Substituted7()
    ensures SubWord(RotWord([0xca, 0x00, 0x93, 0xfd])) == [0x63, 0xdc, 0x54, 0x74]
  {
  }

  lemma Words7()
    ensures KeyWord(KEY, 28) == [0x4e, 0x54, 0xf7, 0x0e] && KeyWord(KEY, 29) == [0x5f, 0x5f, 0xc9, 0xf3]
    ensures KeyWord(KEY, 30) == [0x84, 0xa6, 0x4f, 0xb2] && KeyWord(KEY, 31) == [0x4e, 0xa6, 0xdc, 0x4f]
  {
    hide KeyWord, KEY, SubWord, RotWord;
    Substituted7();
    assert XorWords([0x63, 0xdc, 0x54, 0x74], Rcon(7)) == [0x23, 0xdc, 0x54, 0x74];
    assert XorWords([0x6d, 0x88, 0xa3, 0x7a], [0x23, 0xdc, 0x54, 0x74]) == [0x4e, 0x54, 0xf7, 0x0e];
    assert XorWords([0x11, 0x0b, 0x3e, 0xfd], [0x4e, 0x54, 0xf7, 0x0e]) == [0x5f, 0x5f, 0xc9, 0xf3];
    assert XorWords([0xdb, 0xf9, 0x86, 0x41], [0x5f, 0x5f, 0xc9, 0xf3]) == [0x84, 0xa6, 0x4f, 0xb2];
    assert XorWords([0xca, 0x00, 0x93, 0xfd], [0x84, 0xa6, 0x4f, 0xb2]) == [0x4e, 0xa6, 0xdc, 0x4f];
    hide XorWords, Rcon;
    Words6();
    FourWords(KEY, 7, [0x6d, 0x88, 0xa3, 0x7a], [0x11, 0x0b, 0x3e, 0xfd],
              [0xdb, 0xf9, 0x86, 0x41], [0xca, 0x00, 0x93, 0xfd], [0x23, 0xdc, 0x54, 0x74]);
  }

  lemma Substituted8()
    ensures SubWord(RotWord([0x4e, 0xa6, 0xdc, 0x4f])) == [0x24, 0x86, 0x84, 0x2f]
  {
  }

  lemma Words8()
    ensures KeyWord(KEY, 32) == [0xea, 0xd2, 0x73, 0x21] && KeyWord(KEY, 33) == [0xb5, 0x8d, 0xba, 0xd2]
    ensures KeyWord(KEY, 34) == [0x31, 0x2b, 0xf5, 0x60] && KeyWord(KEY, 35) == [0x7f, 0x8d, 0x29, 0x2f]
  {
    hide KeyWord, KEY, SubWord, RotWord;
    Substituted8();
    assert XorWords([0x24, 0x86, 0x84, 0x2f], Rcon(8)) == [0xa4, 0x86, 0x84, 0x2f];
    assert XorWords([0x4e, 0x54, 0xf7, 0x0e], [0xa4, 0x86, 0x84, 0x2f]) == [0xea, 0xd2, 0x73, 0x21];
    assert XorWords([0x5f, 0x5f, 0xc9, 0xf3], [0xea, 0xd2, 0x73, 0x21]) == [0xb5, 0x8d, 0xba, 0xd2];
    assert XorWords([0x84, 0xa6, 0x4f, 0xb2], [0xb5, 0x8d, 0xba, 0xd2]) == [0x31, 0x2b, 0xf5, 0x60];
    assert XorWords([0x4e, 0xa6, 0xdc, 0x4f], [0x31, 0x2b, 0xf5, 0x60]) == [0x7f, 0x8d, 0x29, 0x2f];
    hide XorWords, Rcon;
    Words7();
    FourWords(KEY, 8, [0x4e, 0x54, 0xf7, 0x0e], [0x5f, 0x5f, 0xc9, 0xf3],
              [0x84, 0xa6, 0x4f, 0xb2], [0x4e, 0xa6, 0xdc, 0x4f], [0xa4, 0x86, 0x84, 0x2f]);
  }

  lemma Substituted9()
    ensures SubWord(RotWord([0x7f, 0x8d, 0x29, 0x2f])) == [0x5d, 0xa5, 0x15, 0xd2]
  {
  }

  lemma Words9()
    ensures KeyWord(KEY, 36) == [0xac, 0x77, 0x66, 0xf3] && KeyWord(KEY, 37) == [0x19, 0xfa, 0xdc, 0x21]
    ensures KeyWord(KEY, 38) == [0x28, 0xd1, 0x29, 0x41] && KeyWord(KEY, 39) == [0x57, 0x5c, 0x00, 0x6e]
  {
    hide KeyWord, KEY, SubWord, RotWord;
    Substituted9();
    assert XorWords([0x5d, 0xa5, 0x15, 0xd2], Rcon(9)) == [0x46, 0xa5, 0x15, 0xd2];
    assert XorWords([0xea, 0xd2, 0x73, 0x21], [0x46, 0xa5, 0x15, 0xd2]) == [0xac, 0x77, 0x66, 0xf3];
    assert XorWords([0xb5, 0x8d, 0xba, 0xd2], [0xac, 0x77, 0x66, 0xf3]) == [0x19, 0xfa, 0xdc, 0x21];
    assert XorWords([0x31, 0x2b, 0xf5, 0x60], [0x19, 0xfa, 0xdc, 0x21]) == [0x28, 0xd1, 0x29, 0x41];
    assert XorWords([0x7f, 0x8d, 0x29, 0x2f], [0x28, 0xd1, 0x29, 0x41]) == [0x57, 0x5c, 0x00, 0x6e];
    hide XorWords, Rcon;
    Words8();
    FourWords(KEY, 9, [0xea, 0xd2, 0x73, 0x21], [0xb5, 0x8d, 0xba, 0xd2],
              [0x31, 0x2b, 0xf5, 0x60], [0x7f, 0x8d, 0x29, 0x2f], [0x46, 0xa5, 0x15, 0xd2]);
  }

  lemma Substituted10()
    ensures SubWord(RotWord([0x57, 0x5c, 0x00, 0x6e])) == [0x4a, 0x63, 0x9f, 0x5b]
  {
  }

  lemma Words10()
    ensures KeyWord(KEY, 40) == [0xd0, 0x14, 0xf9, 0xa8] && KeyWord(KEY, 41) == [0xc9, 0xee, 0x25, 0x89]
    ensures KeyWord(KEY, 42) == [0xe1, 0x3f, 0x0c, 0xc8] && KeyWord(KEY, 43) == [0xb6, 0x63, 0x0c, 0xa6]
  {
    hide KeyWord, KEY, SubWord, RotWord;
    Substituted10();
    assert XorWords([0x4a, 0x63, 0x9f, 0x5b], Rcon(10)) == [0x7c, 0x63, 0x9f, 0x5b];
    assert XorWords([0xac, 0x77, 0x66, 0xf3], [0x7c, 0x63, 0x9f, 0x5b]) == [0xd0, 0x14, 0xf9, 0xa8];
    assert XorWords([0x19, 0xfa, 0xdc, 0x21], [0xd0, 0x14, 0xf9, 0xa8]) == [0xc9, 0xee, 0x25, 0x89];
    assert XorWords([0x28, 0xd1, 0x29, 0x41], [0xc9, 0xee, 0x25, 0x89]) == [0xe1, 0x3f, 0x0c, 0xc8];
    assert XorWords([0x57, 0x5c, 0x00, 0x6e], [0xe1, 0x3f, 0x0c, 0xc8]) == [0xb6, 0x63, 0x0c, 0xa6];
    hide XorWords, Rcon;
    Words9();
    FourWords(KEY, 10, [0xac, 0x77, 0x66, 0xf3], [0x19, 0xfa, 0xdc, 0x21],
              [0x28, 0xd1, 0x29, 0x41], [0x57, 0x5c, 0x00, 0x6e], [0x7c, 0x63, 0x9f, 0x5b]);
  }

  // ---- Appendix B ----

  /** One full round. */
  function NextState(s: State, w: seq<byte>, r: nat): State
    requires |w| == 176 && r <= 10
  {
    AddRoundKey(MixColumns(ShiftRows(SubBytes(s))), w, r)
  }

  function RoundKey(w: seq<byte>, r: nat): (k: State)
    requires |w| == 176 && r <= 10
    ensures forall i :: 0 <= i < 16 ==> k[i] == w[16 * r + i]
  {
    w[16 * r..16 * r + 16]
  }

  /** A byte of the next state, from the four that the rows bring into its column, from its own row on, and a byte of
      the round key. */
  function NextByte(a: byte, b: byte, c: byte, d: byte, k: byte): byte {
    Xor(Xor4(XTime(Sbox(a)), Xor(Sbox(b), XTime(Sbox(b))), Sbox(c), Sbox(d)), k)
  }

  lemma Added(s: State, w: seq<byte>, r: nat, i: nat)
    requires |w| == 176 && r <= 10 && i < 16
    ensures AddRoundKey(s, w, r)[i] == Xor(s[i], RoundKey(w, r)[i])
  {
    hide Xor;
  }


  /** Section 5.1.2: row r moves r places to the left. */
  lemma RowsMoveLeft(s: State, r: nat, c: nat)
    requires r < 4 && c < 4
    ensures ShiftRows(s)[4 * c + r] == s[4 * ((c + r) % 4) + r]
  {
    assert (4 * c + r) % 4 == r && (4 * c + r) / 4 == c;
    hide Place;
    PlaceOf(r, c + r);
  }

  lemma PlaceOf(r: nat, c: nat)
    requires r < 4
    ensures Place(r, c) == 4 * (c % 4) + r
  {
  }

  lemma ShiftedBytes(s: State)
    ensures var t := ShiftRows(SubBytes(s));
            && t[0] == Sbox(s[0]) && t[1] == Sbox(s[5]) && t[2] == Sbox(s[10]) && t[3] == Sbox(s[15])
            && t[4] == Sbox(s[4]) && t[5] == Sbox(s[9]) && t[6] == Sbox(s[14]) && t[7] == Sbox(s[3])
            && t[8] == Sbox(s[8]) && t[9] == Sbox(s[13]) && t[10] == Sbox(s[2]) && t[11] == Sbox(s[7])
            && t[12] == Sbox(s[12]) && t[13] == Sbox(s[1]) && t[14] == Sbox(s[6]) && t[15] == Sbox(s[11])
  {
    hide Sbox, ShiftRows, LeftSource;
    var u := SubBytes(s);
    RowsMoveLeft(u, 0, 0); RowsMoveLeft(u, 1, 0); RowsMoveLeft(u, 2, 0); RowsMoveLeft(u, 3, 0);
    RowsMoveLeft(u, 0, 1); RowsMoveLeft(u, 1, 1); RowsMoveLeft(u, 2, 1); RowsMoveLeft(u, 3, 1);
    RowsMoveLeft(u, 0, 2); RowsMoveLeft(u, 1, 2); RowsMoveLeft(u, 2, 2); RowsMoveLeft(u, 3, 2);
    RowsMoveLeft(u, 0, 3); RowsMoveLeft(u, 1, 3); RowsMoveLeft(u, 2, 3); RowsMoveLeft(u, 3, 3);
  }

  lemma MixedBytes(t: State)
    ensures var m := MixColumns(t);
            && [m[0], m[1], m[2], m[3]] == MixColumn(t[0], t[1], t[2], t[3])
            && [m[4], m[5], m[6], m[7]] == MixColumn(t[4], t[5], t[6], t[7])
            && [m[8], m[9], m[10], m[11]] == MixColumn(t[8], t[9], t[10], t[11])
            && [m[12], m[13], m[14], m[15]] == MixColumn(t[12], t[13], t[14], t[15])
  {
    hide MixByte;
    ColumnBytes(MixColumn(t[0], t[1], t[2], t[3]), MixColumn(t[4], t[5], t[6], t[7]),
                MixColumn(t[8], t[9], t[10], t[11]), MixColumn(t[12], t[13], t[14], t[15]));
  }

  /** A column of the next state, from the bytes that the rows bring into it. */
  lemma NextColumn(a: byte, b: byte, c: byte, d: byte, m: seq<byte>)
    requires m == MixColumn(Sbox(a), Sbox(b), Sbox(c), Sbox(d))
    ensures forall k :: Xor(m[0], k) == NextByte(a, b, c, d, k) && Xor(m[1], k) == NextByte(b, c, d, a, k)
    ensures forall k :: Xor(m[2], k) == NextByte(c, d, a, b, k) && Xor(m[3], k) == NextByte(d, a, b, c, k)
  {
    MulTwoThree(Sbox(a));
    MulTwoThree(Sbox(b));
    MulTwoThree(Sbox(c));
    MulTwoThree(Sbox(d));
    hide Sbox, Mul, XTime, Xor, Xor4;
  }

  /** The bytes of a state, in order. */
  predicate Is(s: State, b0: byte, b1: byte, b2: byte, b3: byte, b4: byte, b5: byte, b6: byte, b7: byte,
               b8: byte, b9: byte, b10: byte, b11: byte, b12: byte, b13: byte, b14: byte, b15: byte)
  {
    && s[0] == b0 && s[1] == b1 && s[2] == b2 && s[3] == b3 && s[4] == b4 && s[5] == b5 && s[6] == b6 && s[7] == b7
    && s[8] == b8 && s[9] == b9 && s[10] == b10 && s[11] == b11 && s[12] == b12 && s[13] == b13 && s[14] == b14
    && s[15] == b15
  }

  /** t is the state after s, under round key k. */
  predicate Follows(s: State, k: State, t: State) {
    && t[0] == NextByte(s[0], s[5], s[10], s[15], k[0])
    && t[1] == NextByte(s[5], s[10], s[15], s[0], k[1])
    && t[2] == NextByte(s[10], s[15], s[0], s[5], k[2])
    && t[3] == NextByte(s[15], s[0], s[5], s[10], k[3])
    && t[4] == NextByte(s[4], s[9], s[14], s[3], k[4])
    && t[5] == NextByte(s[9], s[14], s[3], s[4], k[5])
    && t[6] == NextByte(s[14], s[3], s[4], s[9], k[6])
    && t[7] == NextByte(s[3], s[4], s[9], s[14], k[7])
    && t[8] == NextByte(s[8], s[13], s[2], s[7], k[8])
    && t[9] == NextByte(s[13], s[2], s[7], s[8], k[9])
    && t[10] == NextByte(s[2], s[7], s[8], s[13], k[10])
    && t[11] == NextByte(s[7], s[8], s[13], s[2], k[11])
    && t[12] == NextByte(s[12], s[1], s[6], s[11], k[12])
    && t[13] == NextByte(s[1], s[6], s[11], s[12], k[13])
    && t[14] == NextByte(s[6], s[11], s[12], s[1], k[14])
    && t[15] == NextByte(s[11], s[12], s[1], s[6], k[15])
  }

  lemma FollowsColumn0(s: State, w: seq<byte>, r: nat)
    requires |w| == 176 && r <= 10
    ensures var k, t := RoundKey(w, r), NextState(s, w, r);
            && t[0] == NextByte(s[0], s[5], s[10], s[15], k[0])
            && t[1] == NextByte(s[5], s[10], s[15], s[0], k[1])
            && t[2] == NextByte(s[10], s[15], s[0], s[5], k[2])
            && t[3] == NextByte(s[15], s[0], s[5], s[10], k[3])
  {
    hide SubBytes, ShiftRows, MixColumns, MixColumn, AddRoundKey, RoundKey, Sbox, Xor, NextByte;
    var t := ShiftRows(SubBytes(s));
    var m := MixColumns(t);
    ShiftedBytes(s);
    MixedBytes(t);
    NextColumn(s[0], s[5], s[10], s[15], [m[0], m[1], m[2], m[3]]);
    Added(m, w, r, 0);
    Added(m, w, r, 1);
    Added(m, w, r, 2);
    Added(m, w, r, 3);
  }

  lemma FollowsColumn1(s: State, w: seq<byte>, r: nat)
    requires |w| == 176 && r <= 10
    ensures var k, t := RoundKey(w, r), NextState(s, w, r);
            && t[4] == NextByte(s[4], s[9], s[14], s[3], k[4])
            && t[5] == NextByte(s[9], s[14], s[3], s[4], k[5])
            && t[6] == NextByte(s[14], s[3], s[4], s[9], k[6])
            && t[7] == NextByte(s[3], s[4], s[9], s[14], k[7])
  {
    hide SubBytes, ShiftRows, MixColumns, MixColumn, AddRoundKey, RoundKey, Sbox, Xor, NextByte;
    var t := ShiftRows(SubBytes(s));
    var m := MixColumns(t);
    ShiftedBytes(s);
    MixedBytes(t);
    NextColumn(s[4], s[9], s[14], s[3], [m[4], m[5], m[6], m[7]]);
    Added(m, w, r, 4);
    Added(m, w, r, 5);
    Added(m, w, r, 6);
    Added(m, w, r, 7);
  }

  lemma FollowsColumn2(s: State, w: seq<byte>, r: nat)
    requires |w| == 176 && r <= 10
    ensures var k, t := RoundKey(w, r), NextState(s, w, r);
            && t[8] == NextByte(s[8], s[13], s[2], s[7], k[8])
            && t[9] == NextByte(s[13], s[2], s[7], s[8], k[9])
            && t[10] == NextByte(s[2], s[7], s[8], s[13], k[10])
            && t[11] == NextByte(s[7], s[8], s[13], s[2], k[11])
  {
    hide SubBytes, ShiftRows, MixColumns, MixColumn, AddRoundKey, RoundKey, Sbox, Xor, NextByte;
    var t := ShiftRows(SubBytes(s));
    var m := MixColumns(t);
    ShiftedBytes(s);
    MixedBytes(t);
    NextColumn(s[8], s[13], s[2], s[7], [m[8], m[9], m[10], m[11]]);
    Added(m, w, r, 8);
    Added(m, w, r, 9);
    Added(m, w, r, 10);
    Added(m, w, r, 11);
  }

  lemma FollowsColumn3(s: State, w: seq<byte>, r: nat)
    requires |w| == 176 && r <= 10
    ensures var k, t := RoundKey(w, r), NextState(s, w, r);
            && t[12] == NextByte(s[12], s[1], s[6], s[11], k[12])
            && t[13] == NextByte(s[1], s[6], s[11], s[12], k[13])
            && t[14] == NextByte(s[6], s[11], s[12], s[1], k[14])
            && t[15] == NextByte(s[11], s[12], s[1], s[6], k[15])
  {
    hide SubBytes, ShiftRows, MixColumns, MixColumn, AddRoundKey, RoundKey, Sbox, Xor, NextByte;
    var t := ShiftRows(SubBytes(s));
    var m := MixColumns(t);
    ShiftedBytes(s);
    MixedBytes(t);
    NextColumn(s[12], s[1], s[6], s[11], [m[12], m[13], m[14], m[15]]);
    Added(m, w, r, 12);
    Added(m, w, r, 13);
    Added(m, w, r, 14);
    Added(m, w, r, 15);
  }

  lemma NextFollows(s: State, w: seq<byte>, r: nat)
    requires |w| == 176 && r <= 10
    ensures Follows(s, RoundKey(w, r), NextState(s, w, r))
  {
    hide NextState, NextByte;
    FollowsColumn0(s, w, r);
    FollowsColumn1(s, w, r);
    FollowsColumn2(s, w, r);
    FollowsColumn3(s, w, r);
  }

  lemma Evaluated1a()
    ensures NextByte(0x19, 0xf4, 0x8d, 0x08, 0xa0) == 0xa4 && NextByte(0xf4, 0x8d, 0x08, 0x19, 0xfa) == 0x9c
    ensures NextByte(0x8d, 0x08, 0x19, 0xf4, 0xfe) == 0x7f && NextByte(0x08, 0x19, 0xf4, 0x8d, 0x17) == 0xf2
    ensures NextByte(0xa0, 0xc6, 0x48, 0xbe, 0x88) == 0x68 && NextByte(0xc6, 0x48, 0xbe, 0xa0, 0x54) == 0x9f
    ensures NextByte(0x48, 0xbe, 0xa0, 0xc6, 0x2c) == 0x35 && NextByte(0xbe, 0xa0, 0xc6, 0x48, 0xb1) == 0x2b
  {
    assert Sbox(0x19) == 0xd4 && Sbox(0xf4) == 0xbf && Sbox(0x8d) == 0x5d && Sbox(0x08) == 0x30;
    assert Sbox(0xa0) == 0xe0 && Sbox(0xc6) == 0xb4 && Sbox(0x48) == 0x52 && Sbox(0xbe) == 0xae;
    hide Sbox;
  }

  lemma Evaluated1b()
    ensures NextByte(0x9a, 0xf8, 0xe3, 0x2b, 0x23) == 0x6b && NextByte(0xf8, 0xe3, 0x2b, 0x9a, 0xa3) == 0x5b
    ensures NextByte(0xe3, 0x2b, 0x9a, 0xf8, 0x39) == 0xea && NextByte(0x2b, 0x9a, 0xf8, 0xe3, 0x39) == 0x43
    ensures NextByte(0xe9, 0x3d, 0xe2, 0x2a, 0x2a) == 0x02 && NextByte(0x3d, 0xe2, 0x2a, 0xe9, 0x6c) == 0x6a
    ensures NextByte(0xe2, 0x2a, 0xe9, 0x3d, 0x76) == 0x50 && NextByte(0x2a, 0xe9, 0x3d, 0xe2, 0x05) == 0x49
  {
    assert Sbox(0x9a) == 0xb8 && Sbox(0xf8) == 0x41 && Sbox(0xe3) == 0x11 && Sbox(0x2b) == 0xf1;
    assert Sbox(0xe9) == 0x1e && Sbox(0x3d) == 0x27 && Sbox(0xe2) == 0x98 && Sbox(0x2a) == 0xe5;
    hide Sbox;
  }

  lemma Round1(s: State, k: State, t: State)
    requires Is(s, 0x19, 0x3d, 0xe3, 0xbe, 0xa0, 0xf4, 0xe2, 0x2b,
                0x9a, 0xc6, 0x8d, 0x2a, 0xe9, 0xf8, 0x48, 0x08)
    requires Is(k, 0xa0, 0xfa, 0xfe, 0x17, 0x88, 0x54, 0x2c, 0xb1,
                0x23, 0xa3, 0x39, 0x39, 0x2a, 0x6c, 0x76, 0x05)
    requires Follows(s, k, t)
    ensures Is(t, 0xa4, 0x9c, 0x7f, 0xf2, 0x68, 0x9f, 0x35, 0x2b,
               0x6b, 0x5b, 0xea, 0x43, 0x02, 0x6a, 0x50, 0x49)
  {
    Evaluated1a();
    Evaluated1b();
    hide NextByte;
  }

  lemma Evaluated2a()
    ensures NextByte(0xa4, 0x9f, 0xea, 0x49, 0xf2) == 0xaa && NextByte(0x9f, 0xea, 0x49, 0xa4, 0xc2) == 0x8f
    ensures NextByte(0xea, 0x49, 0xa4, 0x9f, 0x95) == 0x5f && NextByte(0x49, 0xa4, 0x9f, 0xea, 0xf2) == 0x03
    ensures NextByte(0x68, 0x5b, 0x50, 0xf2, 0x7a) == 0x61 && NextByte(0x5b, 0x50, 0xf2, 0x68, 0x96) == 0xdd
    ensures NextByte(0x50, 0xf2, 0x68, 0x5b, 0xb9) == 0xe3 && NextByte(0xf2, 0x68, 0x5b, 0x50, 0x43) == 0xef
  {
    assert Sbox(0xa4) == 0x49 && Sbox(0x9f) == 0xdb && Sbox(0xea) == 0x87 && Sbox(0x49) == 0x3b;
    assert Sbox(0x68) == 0x45 && Sbox(0x5b) == 0x39 && Sbox(0x50) == 0x53 && Sbox(0xf2) == 0x89;
    hide Sbox;
  }

  lemma Evaluated2b()
    ensures NextByte(0x6b, 0x6a, 0x7f, 0x2b, 0x59) == 0x82 && NextByte(0x6a, 0x7f, 0x2b, 0x6b, 0x35) == 0xd2
    ensures NextByte(0x7f, 0x2b, 0x6b, 0x6a, 0x80) == 0x4a && NextByte(0x2b, 0x6b, 0x6a, 0x7f, 0x7a) == 0xd2
    ensures NextByte(0x02, 0x9c, 0x35, 0x43, 0x73) == 0x68 && NextByte(0x9c, 0x35, 0x43, 0x02, 0x59) == 0x32
    ensures NextByte(0x35, 0x43, 0x02, 0x9c, 0xf6) == 0x46 && NextByte(0x43, 0x02, 0x9c, 0x35, 0x7f) == 0x9a
  {
    assert Sbox(0x6b) == 0x7f && Sbox(0x6a) == 0x02 && Sbox(0x7f) == 0xd2 && Sbox(0x2b) == 0xf1;
    assert Sbox(0x02) == 0x77 && Sbox(0x9c) == 0xde && Sbox(0x35) == 0x96 && Sbox(0x43) == 0x1a;
    hide Sbox;
  }

  lemma Round2(s: State, k: State, t: State)
    requires Is(s, 0xa4, 0x9c, 0x7f, 0xf2, 0x68, 0x9f, 0x35, 0x2b,
                0x6b, 0x5b, 0xea, 0x43, 0x02, 0x6a, 0x50, 0x49)
    requires Is(k, 0xf2, 0xc2, 0x95, 0xf2, 0x7a, 0x96, 0xb9, 0x43,
                0x59, 0x35, 0x80, 0x7a, 0x73, 0x59, 0xf6, 0x7f)
    requires Follows(s, k, t)
    ensures Is(t, 0xaa, 0x8f, 0x5f, 0x03, 0x61, 0xdd, 0xe3, 0xef,
               0x82, 0xd2, 0x4a, 0xd2, 0x68, 0x32, 0x46, 0x9a)
  {
    Evaluated2a();
    Evaluated2b();
    hide NextByte;
  }

  lemma Evaluated3a()
    ensures NextByte(0xaa, 0xdd, 0x4a, 0x9a, 0x3d) == 0x48 && NextByte(0xdd, 0x4a, 0x9a, 0xaa, 0x80) == 0x6c
    ensures NextByte(0x4a, 0x9a, 0xaa, 0xdd, 0x47) == 0x4e && NextByte(0x9a, 0xaa, 0xdd, 0x4a, 0x7d) == 0xee
    ensures NextByte(0x61, 0xd2, 0x46, 0x03, 0x47) == 0x67 && NextByte(0xd2, 0x46, 0x03, 0x61, 0x16) == 0x1d
    ensures NextByte(0x46, 0x03, 0x61, 0xd2, 0xfe) == 0x9d && NextByte(0x03, 0x61, 0xd2, 0x46, 0x3e) == 0x0d
  {
    assert Sbox(0xaa) == 0xac && Sbox(0xdd) == 0xc1 && Sbox(0x4a) == 0xd6 && Sbox(0x9a) == 0xb8;
    assert Sbox(0x61) == 0xef && Sbox(0xd2) == 0xb5 && Sbox(0x46) == 0x5a && Sbox(0x03) == 0x7b;
    hide Sbox;
  }

  lemma Evaluated3b()
    ensures NextByte(0x82, 0x32, 0x5f, 0xef, 0x1e) == 0x4d && NextByte(0x32, 0x5f, 0xef, 0x82, 0x23) == 0xe3
    ensures NextByte(0x5f, 0xef, 0x82, 0x32, 0x7e) == 0xb1 && NextByte(0xef, 0x82, 0x32, 0x5f, 0x44) == 0x38
    ensures NextByte(0x68, 0x8f, 0xe3, 0xd2, 0x6d) == 0xd6 && NextByte(0x8f, 0xe3, 0xd2, 0x68, 0x7a) == 0x5f
    ensures NextByte(0xe3, 0xd2, 0x68, 0x8f, 0x88) == 0x58 && NextByte(0xd2, 0x68, 0x8f, 0xe3, 0x3b) == 0xe7
  {
    assert Sbox(0x82) == 0x13 && Sbox(0x32) == 0x23 && Sbox(0x5f) == 0xcf && Sbox(0xef) == 0xdf;
    assert Sbox(0x68) == 0x45 && Sbox(0x8f) == 0x73 && Sbox(0xe3) == 0x11 && Sbox(0xd2) == 0xb5;
    hide Sbox;
  }

  lemma Round3(s: State, k: State, t: State)
    requires Is(s, 0xaa, 0x8f, 0x5f, 0x03, 0x61, 0xdd, 0xe3, 0xef,
                0x82, 0xd2, 0x4a, 0xd2, 0x68, 0x32, 0x46, 0x9a)
    requires Is(k, 0x3d, 0x80, 0x47, 0x7d, 0x47, 0x16, 0xfe, 0x3e,
                0x1e, 0x23, 0x7e, 0x44, 0x6d, 0x7a, 0x88, 0x3b)
    requires Follows(s, k, t)
    ensures Is(t, 0x48, 0x6c, 0x4e, 0xee, 0x67, 0x1d, 0x9d, 0x0d,
               0x4d, 0xe3, 0xb1, 0x38, 0xd6, 0x5f, 0x58, 0xe7)
  {
    Evaluated3a();
    Evaluated3b();
    hide NextByte;
  }

  lemma Evaluated4a()
    ensures NextByte(0x48, 0x1d, 0xb1, 0xe7, 0xef) == 0xe0 && NextByte(0x1d, 0xb1, 0xe7, 0x48, 0x44) == 0x92
    ensures NextByte(0xb1, 0xe7, 0x48, 0x1d, 0xa5) == 0x7f && NextByte(0xe7, 0x48, 0x1d, 0xb1, 0x41) == 0xe8
    ensures NextByte(0x67, 0xe3, 0x58, 0xee, 0xa8) == 0xc8 && NextByte(0xe3, 0x58, 0xee, 0x67, 0x52) == 0x63
    ensures NextByte(0x58, 0xee, 0x67, 0xe3, 0x5b) == 0x63 && NextByte(0xee, 0x67, 0xe3, 0x58, 0x7f) == 0xc0
  {
    assert Sbox(0x48) == 0x52 && Sbox(0x1d) == 0xa4 && Sbox(0xb1) == 0xc8 && Sbox(0xe7) == 0x94;
    assert Sbox(0x67) == 0x85 && Sbox(0xe3) == 0x11 && Sbox(0x58) == 0x6a && Sbox(0xee) == 0x28;
    hide Sbox;
  }

  lemma Evaluated4b()
    ensures NextByte(0x4d, 0x5f, 0x4e, 0x0d, 0xb6) == 0xd9 && NextByte(0x5f, 0x4e, 0x0d, 0x4d, 0x71) == 0xb1
    ensures NextByte(0x4e, 0x0d, 0x4d, 0x5f, 0x25) == 0x35 && NextByte(0x0d, 0x4d, 0x5f, 0x4e, 0x3b) == 0x50
    ensures NextByte(0xd6, 0x6c, 0x9d, 0x38, 0xdb) == 0x85 && NextByte(0x6c, 0x9d, 0x38, 0xd6, 0x0b) == 0xb8
    ensures NextByte(0x9d, 0x38, 0xd6, 0x6c, 0xad) == 0xbe && NextByte(0x38, 0xd6, 0x6c, 0x9d, 0x00) == 0x01
  {
    assert Sbox(0x4d) == 0xe3 && Sbox(0x5f) == 0xcf && Sbox(0x4e) == 0x2f && Sbox(0x0d) == 0xd7;
    assert Sbox(0xd6) == 0xf6 && Sbox(0x6c) == 0x50 && Sbox(0x9d) == 0x5e && Sbox(0x38) == 0x07;
    hide Sbox;
  }

  lemma Round4(s: State, k: State, t: State)
    requires Is(s, 0x48, 0x6c, 0x4e, 0xee, 0x67, 0x1d, 0x9d, 0x0d,
                0x4d, 0xe3, 0xb1, 0x38, 0xd6, 0x5f, 0x58, 0xe7)
    requires Is(k, 0xef, 0x44, 0xa5, 0x41, 0xa8, 0x52, 0x5b, 0x7f,
                0xb6, 0x71, 0x25, 0x3b, 0xdb, 0x0b, 0xad, 0x00)
    requires Follows(s, k, t)
    ensures Is(t, 0xe0, 0x92, 0x7f, 0xe8, 0xc8, 0x63, 0x63, 0xc0,
               0xd9, 0xb1, 0x35, 0x50, 0x85, 0xb8, 0xbe, 0x01)
  {
    Evaluated4a();
    Evaluated4b();
    hide NextByte;
  }

  lemma Evaluated5a()
    ensures NextByte(0xe0, 0x63, 0x35, 0x01, 0xd4) == 0xf1 && NextByte(0x63, 0x35, 0x01, 0xe0, 0xd1) == 0x00
    ensures NextByte(0x35, 0x01, 0xe0, 0x63, 0xc6) == 0x6f && NextByte(0x01, 0xe0, 0x63, 0x35, 0xf8) == 0x55
    ensures NextByte(0xc8, 0xb1, 0xbe, 0xe8, 0x7c) == 0xc1 && NextByte(0xb1, 0xbe, 0xe8, 0xc8, 0x83) == 0x92
    ensures NextByte(0xbe, 0xe8, 0xc8, 0xb1, 0x9d) == 0x4c && NextByte(0xe8, 0xc8, 0xb1, 0xbe, 0x87) == 0xef
  {
    assert Sbox(0xe0) == 0xe1 && Sbox(0x63) == 0xfb && Sbox(0x35) == 0x96 && Sbox(0x01) == 0x7c;
    assert Sbox(0xc8) == 0xe8 && Sbox(0xb1) == 0xc8 && Sbox(0xbe) == 0xae && Sbox(0xe8) == 0x9b;
    hide Sbox;
  }

  lemma Evaluated5b()
    ensures NextByte(0xd9, 0xb8, 0x7f, 0xc0, 0xca) == 0x7c && NextByte(0xb8, 0x7f, 0xc0, 0xd9, 0xf2) == 0xc8
    ensures NextByte(0x7f, 0xc0, 0xd9, 0xb8, 0xb8) == 0x8b && NextByte(0xc0, 0xd9, 0xb8, 0x7f, 0xbc) == 0x32
    ensures NextByte(0x85, 0x92, 0x63, 0x50, 0x11) == 0x5d && NextByte(0x92, 0x63, 0x50, 0x85, 0xf9) == 0xb5
    ensures NextByte(0x63, 0x50, 0x85, 0x92, 0x15) == 0xd5 && NextByte(0x50, 0x85, 0x92, 0x63, 0xbc) == 0x0c
  {
    assert Sbox(0xd9) == 0x35 && Sbox(0xb8) == 0x6c && Sbox(0x7f) == 0xd2 && Sbox(0xc0) == 0xba;
    assert Sbox(0x85) == 0x97 && Sbox(0x92) == 0x4f && Sbox(0x63) == 0xfb && Sbox(0x50) == 0x53;
    hide Sbox;
  }

  lemma Round5(s: State, k: State, t: State)
    requires Is(s, 0xe0, 0x92, 0x7f, 0xe8, 0xc8, 0x63, 0x63, 0xc0,
                0xd9, 0xb1, 0x35, 0x50, 0x85, 0xb8, 0xbe, 0x01)
    requires Is(k, 0xd4, 0xd1, 0xc6, 0xf8, 0x7c, 0x83, 0x9d, 0x87,
                0xca, 0xf2, 0xb8, 0xbc, 0x11, 0xf9, 0x15, 0xbc)
    requires Follows(s, k, t)
    ensures Is(t, 0xf1, 0x00, 0x6f, 0x55, 0xc1, 0x92, 0x4c, 0xef,
               0x7c, 0xc8, 0x8b, 0x32, 0x5d, 0xb5, 0xd5, 0x0c)
  {
    Evaluated5a();
    Evaluated5b();
    hide NextByte;
  }

  lemma Evaluated6a()
    ensures NextByte(0xf1, 0x92, 0x8b, 0x0c, 0x6d) == 0x26 && NextByte(0x92, 0x8b, 0x0c, 0xf1, 0x88) == 0x0e
    ensures NextByte(0x8b, 0x0c, 0xf1, 0x92, 0xa3) == 0x2e && NextByte(0x0c, 0xf1, 0x92, 0x8b, 0x7a) == 0x17
    ensures NextByte(0xc1, 0xc8, 0xd5, 0x55, 0x11) == 0x3d && NextByte(0xc8, 0xd5, 0x55, 0xc1, 0x0b) == 0x41
    ensures NextByte(0xd5, 0x55, 0xc1, 0xc8, 0x3e) == 0xb7 && NextByte(0x55, 0xc1, 0xc8, 0xd5, 0xfd) == 0x7d
  {
    assert Sbox(0xf1) == 0xa1 && Sbox(0x92) == 0x4f && Sbox(0x8b) == 0x3d && Sbox(0x0c) == 0xfe;
    assert Sbox(0xc1) == 0x78 && Sbox(0xc8) == 0xe8 && Sbox(0xd5) == 0x03 && Sbox(0x55) == 0xfc;
    hide Sbox;
  }

  lemma Evaluated6b()
    ensures NextByte(0x7c, 0xb5, 0x6f, 0xef, 0xdb) == 0xe8 && NextByte(0xb5, 0x6f, 0xef, 0x7c, 0xf9) == 0x64
    ensures NextByte(0x6f, 0xef, 0x7c, 0xb5, 0x86) == 0x72 && NextByte(0xef, 0x7c, 0xb5, 0x6f, 0x41) == 0xa9
    ensures NextByte(0x5d, 0x00, 0x4c, 0x32, 0xca) == 0xfd && NextByte(0x00, 0x4c, 0x32, 0x5d, 0x00) == 0xd2
    ensures NextByte(0x4c, 0x32, 0x5d, 0x00, 0x93) == 0x8b && NextByte(0x32, 0x5d, 0x00, 0x4c, 0xfd) == 0x25
  {
    assert Sbox(0x7c) == 0x10 && Sbox(0xb5) == 0xd5 && Sbox(0x6f) == 0xa8 && Sbox(0xef) == 0xdf;
    assert Sbox(0x5d) == 0x4c && Sbox(0x00) == 0x63 && Sbox(0x4c) == 0x29 && Sbox(0x32) == 0x23;
    hide Sbox;
  }

  lemma Round6(s: State, k: State, t: State)
    requires Is(s, 0xf1, 0x00, 0x6f, 0x55, 0xc1, 0x92, 0x4c, 0xef,
                0x7c, 0xc8, 0x8b, 0x32, 0x5d, 0xb5, 0xd5, 0x0c)
    requires Is(k, 0x6d, 0x88, 0xa3, 0x7a, 0x11, 0x0b, 0x3e, 0xfd,
                0xdb, 0xf9, 0x86, 0x41, 0xca, 0x00, 0x93, 0xfd)
    requires Follows(s, k, t)
    ensures Is(t, 0x26, 0x0e, 0x2e, 0x17, 0x3d, 0x41, 0xb7, 0x7d,
               0xe8, 0x64, 0x72, 0xa9, 0xfd, 0xd2, 0x8b, 0x25)
  {
    Evaluated6a();
    Evaluated6b();
    hide NextByte;
  }

  lemma Evaluated7a()
    ensures NextByte(0x26, 0x41, 0x72, 0x25, 0x4e) == 0x5a && NextByte(0x41, 0x72, 0x25, 0x26, 0x54) == 0x41
    ensures NextByte(0x72, 0x25, 0x26, 0x41, 0xf7) == 0x42 && NextByte(0x25, 0x26, 0x41, 0x72, 0x0e) == 0xb1
    ensures NextByte(0x3d, 0x64, 0x8b, 0x17, 0x5f) == 0x19 && NextByte(0x64, 0x8b, 0x17, 0x3d, 0x5f) == 0x49
    ensures NextByte(0x8b, 0x17, 0x3d, 0x64, 0xc9) == 0xdc && NextByte(0x17, 0x3d, 0x64, 0x8b, 0xf3) == 0x1f
  {
    assert Sbox(0x26) == 0xf7 && Sbox(0x41) == 0x83 && Sbox(0x72) == 0x40 && Sbox(0x25) == 0x3f;
    assert Sbox(0x3d) == 0x27 && Sbox(0x64) == 0x43 && Sbox(0x8b) == 0x3d && Sbox(0x17) == 0xf0;
    hide Sbox;
  }

  lemma Evaluated7b()
    ensures NextByte(0xe8, 0xd2, 0x2e, 0x7d, 0x84) == 0xa3 && NextByte(0xd2, 0x2e, 0x7d, 0xe8, 0xa6) == 0xe0
    ensures NextByte(0x2e, 0x7d, 0xe8, 0xd2, 0x4f) == 0x19 && NextByte(0x7d, 0xe8, 0xd2, 0x2e, 0xb2) == 0x65
    ensures NextByte(0xfd, 0x0e, 0xb7, 0xa9, 0x4e) == 0x7a && NextByte(0x0e, 0xb7, 0xa9, 0xfd, 0xa6) == 0x8c
    ensures NextByte(0xb7, 0xa9, 0xfd, 0x0e, 0xdc) == 0x04 && NextByte(0xa9, 0xfd, 0x0e, 0xb7, 0x4f) == 0x0c
  {
    assert Sbox(0xe8) == 0x9b && Sbox(0xd2) == 0xb5 && Sbox(0x2e) == 0x31 && Sbox(0x7d) == 0xff;
    assert Sbox(0xfd) == 0x54 && Sbox(0x0e) == 0xab && Sbox(0xb7) == 0xa9 && Sbox(0xa9) == 0xd3;
    hide Sbox;
  }

  lemma Round7(s: State, k: State, t: State)
    requires Is(s, 0x26, 0x0e, 0x2e, 0x17, 0x3d, 0x41, 0xb7, 0x7d,
                0xe8, 0x64, 0x72, 0xa9, 0xfd, 0xd2, 0x8b, 0x25)
    requires Is(k, 0x4e, 0x54, 0xf7, 0x0e, 0x5f, 0x5f, 0xc9, 0xf3,
                0x84, 0xa6, 0x4f, 0xb2, 0x4e, 0xa6, 0xdc, 0x4f)
    requires Follows(s, k, t)
    ensures Is(t, 0x5a, 0x41, 0x42, 0xb1, 0x19, 0x49, 0xdc, 0x1f,
               0xa3, 0xe0, 0x19, 0x65, 0x7a, 0x8c, 0x04, 0x0c)
  {
    Evaluated7a();
    Evaluated7b();
    hide NextByte;
  }

  lemma Evaluated8a()
    ensures NextByte(0x5a, 0x49, 0x19, 0x0c, 0xea) == 0xea && NextByte(0x49, 0x19, 0x0c, 0x5a, 0xd2) == 0x83
    ensures NextByte(0x19, 0x0c, 0x5a, 0x49, 0x73) == 0x5c && NextByte(0x0c, 0x5a, 0x49, 0x19, 0x21) == 0xf0
    ensures NextByte(0x19, 0xe0, 0x04, 0xb1, 0xb5) == 0x04 && NextByte(0xe0, 0x04, 0xb1, 0x19, 0x8d) == 0x45
    ensures NextByte(0x04, 0xb1, 0x19, 0xe0, 0xba) == 0x33 && NextByte(0xb1, 0x19, 0xe0, 0x04, 0xd2) == 0x2d
  {
    assert Sbox(0x5a) == 0xbe && Sbox(0x49) == 0x3b && Sbox(0x19) == 0xd4 && Sbox(0x0c) == 0xfe;
    assert Sbox(0x19) == 0xd4 && Sbox(0xe0) == 0xe1 && Sbox(0x04) == 0xf2 && Sbox(0xb1) == 0xc8;
    hide Sbox;
  }

  lemma Evaluated8b()
    ensures NextByte(0xa3, 0x8c, 0x42, 0x1f, 0x31) == 0x65 && NextByte(0x8c, 0x42, 0x1f, 0xa3, 0x2b) == 0x5d
    ensures NextByte(0x42, 0x1f, 0xa3, 0x8c, 0xf5) == 0x98 && NextByte(0x1f, 0xa3, 0x8c, 0x42, 0x60) == 0xad
    ensures NextByte(0x7a, 0x41, 0xdc, 0x65, 0x7f) == 0x85 && NextByte(0x41, 0xdc, 0x65, 0x7a, 0x8d) == 0x96
    ensures NextByte(0xdc, 0x65, 0x7a, 0x41, 0x29) == 0xb0 && NextByte(0x65, 0x7a, 0x41, 0xdc, 0x2f) == 0xc5
  {
    assert Sbox(0xa3) == 0x0a && Sbox(0x8c) == 0x64 && Sbox(0x42) == 0x2c && Sbox(0x1f) == 0xc0;
    assert Sbox(0x7a) == 0xda && Sbox(0x41) == 0x83 && Sbox(0xdc) == 0x86 && Sbox(0x65) == 0x4d;
    hide Sbox;
  }

  lemma Round8(s: State, k: State, t: State)
    requires Is(s, 0x5a, 0x41, 0x42, 0xb1, 0x19, 0x49, 0xdc, 0x1f,
                0xa3, 0xe0, 0x19, 0x65, 0x7a, 0x8c, 0x04, 0x0c)
    requires Is(k, 0xea, 0xd2, 0x73, 0x21, 0xb5, 0x8d, 0xba, 0xd2,
                0x31, 0x2b, 0xf5, 0x60, 0x7f, 0x8d, 0x29, 0x2f)
    requires Follows(s, k, t)
    ensures Is(t, 0xea, 0x83, 0x5c, 0xf0, 0x04, 0x45, 0x33, 0x2d,
               0x65, 0x5d, 0x98, 0xad, 0x85, 0x96, 0xb0, 0xc5)
  {
    Evaluated8a();
    Evaluated8b();
    hide NextByte;
  }

  lemma Evaluated9a()
    ensures NextByte(0xea, 0x45, 0x98, 0xc5, 0xac) == 0xeb && NextByte(0x45, 0x98, 0xc5, 0xea, 0x77) == 0x40
    ensures NextByte(0x98, 0xc5, 0xea, 0x45, 0x66) == 0xf2 && NextByte(0xc5, 0xea, 0x45, 0x98, 0xf3) == 0x1e
    ensures NextByte(0x04, 0x5d, 0xb0, 0xf0, 0x19) == 0x59 && NextByte(0x5d, 0xb0, 0xf0, 0x04, 0xfa) == 0x2e
    ensures NextByte(0xb0, 0xf0, 0x04, 0x5d, 0xdc) == 0x38 && NextByte(0xf0, 0x04, 0x5d, 0xb0, 0x21) == 0x84
  {
    assert Sbox(0xea) == 0x87 && Sbox(0x45) == 0x6e && Sbox(0x98) == 0x46 && Sbox(0xc5) == 0xa6;
    assert Sbox(0x04) == 0xf2 && Sbox(0x5d) == 0x4c && Sbox(0xb0) == 0xe7 && Sbox(0xf0) == 0x8c;
    hide Sbox;
  }

  lemma Evaluated9b()
    ensures NextByte(0x65, 0x96, 0x5c, 0x2d, 0x28) == 0x8b && NextByte(0x96, 0x5c, 0x2d, 0x65, 0xd1) == 0xa1
    ensures NextByte(0x5c, 0x2d, 0x65, 0x96, 0x29) == 0x13 && NextByte(0x2d, 0x65, 0x96, 0x5c, 0x41) == 0xe7
    ensures NextByte(0x85, 0x83, 0x33, 0xad, 0x57) == 0x1b && NextByte(0x83, 0x33, 0xad, 0x85, 0x5c) == 0xc3
    ensures NextByte(0x33, 0xad, 0x85, 0x83, 0x00) == 0x42 && NextByte(0xad, 0x85, 0x83, 0x33, 0x6e) == 0xd2
  {
    assert Sbox(0x65) == 0x4d && Sbox(0x96) == 0x90 && Sbox(0x5c) == 0x4a && Sbox(0x2d) == 0xd8;
    assert Sbox(0x85) == 0x97 && Sbox(0x83) == 0xec && Sbox(0x33) == 0xc3 && Sbox(0xad) == 0x95;
    hide Sbox;
  }

  lemma Round9(s: State, k: State, t: State)
    requires Is(s, 0xea, 0x83, 0x5c, 0xf0, 0x04, 0x45, 0x33, 0x2d,
                0x65, 0x5d, 0x98, 0xad, 0x85, 0x96, 0xb0, 0xc5)
    requires Is(k, 0xac, 0x77, 0x66, 0xf3, 0x19, 0xfa, 0xdc, 0x21,
                0x28, 0xd1, 0x29, 0x41, 0x57, 0x5c, 0x00, 0x6e)
    requires Follows(s, k, t)
    ensures Is(t, 0xeb, 0x40, 0xf2, 0x1e, 0x59, 0x2e, 0x38, 0x84,
               0x8b, 0xa1, 0x13, 0xe7, 0x1b, 0xc3, 0x42, 0xd2)
  {
    Evaluated9a();
    Evaluated9b();
    hide NextByte;
  }

  lemma RoundKey0()
    ensures Is(RoundKey(ExpandedKey(KEY), 0), 0x2b, 0x7e, 0x15, 0x16, 0x28, 0xae, 0xd2, 0xa6,
               0xab, 0xf7, 0x15, 0x88, 0x09, 0xcf, 0x4f, 0x3c)
  {
    Words0();
    hide KeyWord, ExpandedKey, KEY, RoundKey;
    RoundKeyColumn(0, 0);
    RoundKeyColumn(0, 1);
    RoundKeyColumn(0, 2);
    RoundKeyColumn(0, 3);
  }

  lemma RoundKey1()
    ensures Is(RoundKey(ExpandedKey(KEY), 1), 0xa0, 0xfa, 0xfe, 0x17, 0x88, 0x54, 0x2c, 0xb1,
               0x23, 0xa3, 0x39, 0x39, 0x2a, 0x6c, 0x76, 0x05)
  {
    Words1();
    hide KeyWord, ExpandedKey, KEY, RoundKey;
    RoundKeyColumn(1, 0);
    RoundKeyColumn(1, 1);
    RoundKeyColumn(1, 2);
    RoundKeyColumn(1, 3);
  }

  lemma RoundKey2()
    ensures Is(RoundKey(ExpandedKey(KEY), 2), 0xf2, 0xc2, 0x95, 0xf2, 0x7a, 0x96, 0xb9, 0x43,
               0x59, 0x35, 0x80, 0x7a, 0x73, 0x59, 0xf6, 0x7f)
  {
    Words2();
    hide KeyWord, ExpandedKey, KEY, RoundKey;
    RoundKeyColumn(2, 0);
    RoundKeyColumn(2, 1);
    RoundKeyColumn(2, 2);
    RoundKeyColumn(2, 3);
  }

  lemma RoundKey3()
    ensures Is(RoundKey(ExpandedKey(KEY), 3), 0x3d, 0x80, 0x47, 0x7d, 0x47, 0x16, 0xfe, 0x3e,
               0x1e, 0x23, 0x7e, 0x44, 0x6d, 0x7a, 0x88, 0x3b)
  {
    Words3();
    hide KeyWord, ExpandedKey, KEY, RoundKey;
    RoundKeyColumn(3, 0);
    RoundKeyColumn(3, 1);
    RoundKeyColumn(3, 2);
    RoundKeyColumn(3, 3);
  }

  lemma RoundKey4()
    ensures Is(RoundKey(ExpandedKey(KEY), 4), 0xef, 0x44, 0xa5, 0x41, 0xa8, 0x52, 0x5b, 0x7f,
               0xb6, 0x71, 0x25, 0x3b, 0xdb, 0x0b, 0xad, 0x00)
  {
    Words4();
    hide KeyWord, ExpandedKey, KEY, RoundKey;
    RoundKeyColumn(4, 0);
    RoundKeyColumn(4, 1);
    RoundKeyColumn(4, 2);
    RoundKeyColumn(4, 3);
  }

  lemma RoundKey5()
    ensures Is(RoundKey(ExpandedKey(KEY), 5), 0xd4, 0xd1, 0xc6, 0xf8, 0x7c, 0x83, 0x9d, 0x87,
               0xca, 0xf2, 0xb8, 0xbc, 0x11, 0xf9, 0x15, 0xbc)
  {
    Words5();
    hide KeyWord, ExpandedKey, KEY, RoundKey;
    RoundKeyColumn(5, 0);
    RoundKeyColumn(5, 1);
    RoundKeyColumn(5, 2);
    RoundKeyColumn(5, 3);
  }

  lemma RoundKey6()
    ensures Is(RoundKey(ExpandedKey(KEY), 6), 0x6d, 0x88, 0xa3, 0x7a, 0x11, 0x0b, 0x3e, 0xfd,
               0xdb, 0xf9, 0x86, 0x41, 0xca, 0x00, 0x93, 0xfd)
  {
    Words6();
    hide KeyWord, ExpandedKey, KEY, RoundKey;
    RoundKeyColumn(6, 0);
    RoundKeyColumn(6, 1);
    RoundKeyColumn(6, 2);
    RoundKeyColumn(6, 3);
  }

  lemma RoundKey7()
    ensures Is(RoundKey(ExpandedKey(KEY), 7), 0x4e, 0x54, 0xf7, 0x0e, 0x5f, 0x5f, 0xc9, 0xf3,
               0x84, 0xa6, 0x4f, 0xb2, 0x4e, 0xa6, 0xdc, 0x4f)
  {
    Words7();
    hide KeyWord, ExpandedKey, KEY, RoundKey;
    RoundKeyColumn(7, 0);
    RoundKeyColumn(7, 1);
    RoundKeyColumn(7, 2);
    RoundKeyColumn(7, 3);
  }

  lemma RoundKey8()
    ensures Is(RoundKey(ExpandedKey(KEY), 8), 0xea, 0xd2, 0x73, 0x21, 0xb5, 0x8d, 0xba, 0xd2,
               0x31, 0x2b, 0xf5, 0x60, 0x7f, 0x8d, 0x29, 0x2f)
  {
    Words8();
    hide KeyWord, ExpandedKey, KEY, RoundKey;
    RoundKeyColumn(8, 0);
    RoundKeyColumn(8, 1);
    RoundKeyColumn(8, 2);
    RoundKeyColumn(8, 3);
  }

  lemma RoundKey9()
    ensures Is(RoundKey(ExpandedKey(KEY), 9), 0xac, 0x77, 0x66, 0xf3, 0x19, 0xfa, 0xdc, 0x21,
               0x28, 0xd1, 0x29, 0x41, 0x57, 0x5c, 0x00, 0x6e)
  {
    Words9();
    hide KeyWord, ExpandedKey, KEY, RoundKey;
    RoundKeyColumn(9, 0);
    RoundKeyColumn(9, 1);
    RoundKeyColumn(9, 2);
    RoundKeyColumn(9, 3);
  }

  lemma RoundKey10()
    ensures Is(RoundKey(ExpandedKey(KEY), 10), 0xd0, 0x14, 0xf9, 0xa8, 0xc9, 0xee, 0x25, 0x89,
               0xe1, 0x3f, 0x0c, 0xc8, 0xb6, 0x63, 0x0c, 0xa6)
  {
    Words10();
    hide KeyWord, ExpandedKey, KEY, RoundKey;
    RoundKeyColumn(10, 0);
    RoundKeyColumn(10, 1);
    RoundKeyColumn(10, 2);
    RoundKeyColumn(10, 3);
  }

  lemma SliceBytes(w: seq<byte>, r: nat, c: nat, i: nat, word: seq<byte>)
    requires |w| == 176 && r <= 10 && c < 4 && i == 4 * r + c && |word| == 4 && w[4 * i..4 * i + 4] == word
    ensures var k := RoundKey(w, r);
            && k[4 * c] == word[0] && k[4 * c + 1] == word[1] && k[4 * c + 2] == word[2] && k[4 * c + 3] == word[3]
  {
    assert word[0] == w[4 * i] && word[1] == w[4 * i + 1] && word[2] == w[4 * i + 2] && word[3] == w[4 * i + 3];
  }

  lemma RoundKeyColumn(r: nat, c: nat)
    requires r <= 10 && c < 4
    ensures var k, word := RoundKey(ExpandedKey(KEY), r), KeyWord(KEY, 4 * r + c);
            && k[4 * c] == word[0] && k[4 * c + 1] == word[1] && k[4 * c + 2] == word[2] && k[4 * c + 3] == word[3]
  {
    hide KeyWord, ExpandedKey, KEY, RoundKey;
    ExpansionIsStandard(KEY, 4 * r + c);
    SliceBytes(ExpandedKey(KEY), r, c, 4 * r + c, KeyWord(KEY, 4 * r + c));
  }


  lemma InputBytes()
    ensures Is(INPUT, 0x32, 0x43, 0xf6, 0xa8, 0x88, 0x5a, 0x30, 0x8d,
               0x31, 0x31, 0x98, 0xa2, 0xe0, 0x37, 0x07, 0x34)
  {
  }

  lemma Start()
    ensures Is(EncryptRounds(INPUT, ExpandedKey(KEY), 0), 0x19, 0x3d, 0xe3, 0xbe, 0xa0, 0xf4, 0xe2, 0x2b,
               0x9a, 0xc6, 0x8d, 0x2a, 0xe9, 0xf8, 0x48, 0x08)
  {
    hide ExpandedKey, INPUT, KEY, AddRoundKey, RoundKey, Xor;
    RoundKey0();
    InputBytes();
    StartBytes();
    var s, w := INPUT, ExpandedKey(KEY);
    forall i | 0 <= i < 16 ensures AddRoundKey(s, w, 0)[i] == Xor(s[i], RoundKey(w, 0)[i]) {
      Added(s, w, 0, i);
    }
  }

  lemma StartBytes()
    ensures Xor(0x32, 0x2b) == 0x19 && Xor(0x43, 0x7e) == 0x3d
    ensures Xor(0xf6, 0x15) == 0xe3 && Xor(0xa8, 0x16) == 0xbe
    ensures Xor(0x88, 0x28) == 0xa0 && Xor(0x5a, 0xae) == 0xf4
    ensures Xor(0x30, 0xd2) == 0xe2 && Xor(0x8d, 0xa6) == 0x2b
    ensures Xor(0x31, 0xab) == 0x9a && Xor(0x31, 0xf7) == 0xc6
    ensures Xor(0x98, 0x15) == 0x8d && Xor(0xa2, 0x88) == 0x2a
    ensures Xor(0xe0, 0x09) == 0xe9 && Xor(0x37, 0xcf) == 0xf8
    ensures Xor(0x07, 0x4f) == 0x48 && Xor(0x34, 0x3c) == 0x08
  {
  }

  lemma EndBytes()
    ensures Xor(Sbox(0xeb), 0xd0) == 0x39
    ensures Xor(Sbox(0x2e), 0x14) == 0x25
    ensures Xor(Sbox(0x13), 0xf9) == 0x84
    ensures Xor(Sbox(0xd2), 0xa8) == 0x1d
    ensures Xor(Sbox(0x59), 0xc9) == 0x02
    ensures Xor(Sbox(0xa1), 0xee) == 0xdc
    ensures Xor(Sbox(0x42), 0x25) == 0x09
    ensures Xor(Sbox(0x1e), 0x89) == 0xfb
    ensures Xor(Sbox(0x8b), 0xe1) == 0xdc
    ensures Xor(Sbox(0xc3), 0x3f) == 0x11
    ensures Xor(Sbox(0xf2), 0x0c) == 0x85
    ensures Xor(Sbox(0x84), 0xc8) == 0x97
    ensures Xor(Sbox(0x1b), 0xb6) == 0x19
    ensures Xor(Sbox(0x40), 0x63) == 0x6a
    ensures Xor(Sbox(0x38), 0x0c) == 0x0b
    ensures Xor(Sbox(0xe7), 0xa6) == 0x32
  {
  }

  /** t is the last state after s, under round key k. */
  predicate Ends(s: State, k: State, t: State) {
    && t[0] == Xor(Sbox(s[0]), k[0]) && t[1] == Xor(Sbox(s[5]), k[1])
    && t[2] == Xor(Sbox(s[10]), k[2]) && t[3] == Xor(Sbox(s[15]), k[3])
    && t[4] == Xor(Sbox(s[4]), k[4]) && t[5] == Xor(Sbox(s[9]), k[5])
    && t[6] == Xor(Sbox(s[14]), k[6]) && t[7] == Xor(Sbox(s[3]), k[7])
    && t[8] == Xor(Sbox(s[8]), k[8]) && t[9] == Xor(Sbox(s[13]), k[9])
    && t[10] == Xor(Sbox(s[2]), k[10]) && t[11] == Xor(Sbox(s[7]), k[11])
    && t[12] == Xor(Sbox(s[12]), k[12]) && t[13] == Xor(Sbox(s[1]), k[13])
    && t[14] == Xor(Sbox(s[6]), k[14]) && t[15] == Xor(Sbox(s[11]), k[15])
  }

  lemma LastEnds(s: State, w: seq<byte>)
    requires |w| == 176
    ensures Ends(s, RoundKey(w, 10), AddRoundKey(ShiftRows(SubBytes(s)), w, 10))
  {
    hide Sbox, Xor, AddRoundKey, ShiftRows, SubBytes, RoundKey;
    ShiftedBytes(s);
    var t := ShiftRows(SubBytes(s));
    forall i | 0 <= i < 16 ensures AddRoundKey(t, w, 10)[i] == Xor(t[i], RoundKey(w, 10)[i]) {
      Added(t, w, 10, i);
    }
  }

  lemma End(s: State)
    requires Is(s, 0xeb, 0x40, 0xf2, 0x1e, 0x59, 0x2e, 0x38, 0x84,
                0x8b, 0xa1, 0x13, 0xe7, 0x1b, 0xc3, 0x42, 0xd2)
    ensures Is(AddRoundKey(ShiftRows(SubBytes(s)), ExpandedKey(KEY), 10),
               0x39, 0x25, 0x84, 0x1d, 0x02, 0xdc, 0x09, 0xfb,
               0xdc, 0x11, 0x85, 0x97, 0x19, 0x6a, 0x0b, 0x32)
  {
    RoundKey10();
    LastEnds(s, ExpandedKey(KEY));
    EndBytes();
    hide ExpandedKey, KEY, AddRoundKey, ShiftRows, SubBytes, Sbox, Xor, RoundKey;
  }

  lemma OutputBytes(t: State)
    requires Is(t, 0x39, 0x25, 0x84, 0x1d, 0x02, 0xdc, 0x09, 0xfb,
                0xdc, 0x11, 0x85, 0x97, 0x19, 0x6a, 0x0b, 0x32)
    ensures t == OUTPUT
  {
    forall i | 0 <= i < 16 ensures t[i] == OUTPUT[i] {
    }
  }

  lemma OneMore(input: State, w: seq<byte>, r: nat)
    requires |w| == 176 && 1 <= r <= 9
    ensures EncryptRounds(input, w, r) == NextState(EncryptRounds(input, w, r - 1), w, r)
    ensures Follows(EncryptRounds(input, w, r - 1), RoundKey(w, r), EncryptRounds(input, w, r))
  {
    NextFollows(EncryptRounds(input, w, r - 1), w, r);
    hide AddRoundKey, MixColumns, ShiftRows, SubBytes, Follows;
  }

  /** The ciphertext of Appendix B. */
  lemma CipherExample()
    ensures Cipher(INPUT, ExpandedKey(KEY)) == OUTPUT
  {
    var w := ExpandedKey(KEY);
    Start();
    hide EncryptRounds, Follows, ExpandedKey, INPUT, KEY, OUTPUT, AddRoundKey, ShiftRows, SubBytes, MixColumns,
      NextState;
    hide Is;
    RoundKey1();
    OneMore(INPUT, w, 1);
    Round1(EncryptRounds(INPUT, w, 0), RoundKey(w, 1), EncryptRounds(INPUT, w, 1));
    RoundKey2();
    OneMore(INPUT, w, 2);
    Round2(EncryptRounds(INPUT, w, 1), RoundKey(w, 2), EncryptRounds(INPUT, w, 2));
    RoundKey3();
    OneMore(INPUT, w, 3);
    Round3(EncryptRounds(INPUT, w, 2), RoundKey(w, 3), EncryptRounds(INPUT, w, 3));
    RoundKey4();
    OneMore(INPUT, w, 4);
    Round4(EncryptRounds(INPUT, w, 3), RoundKey(w, 4), EncryptRounds(INPUT, w, 4));
    RoundKey5();
    OneMore(INPUT, w, 5);
    Round5(EncryptRounds(INPUT, w, 4), RoundKey(w, 5), EncryptRounds(INPUT, w, 5));
    RoundKey6();
    OneMore(INPUT, w, 6);
    Round6(EncryptRounds(INPUT, w, 5), RoundKey(w, 6), EncryptRounds(INPUT, w, 6));
    RoundKey7();
    OneMore(INPUT, w, 7);
    Round7(EncryptRounds(INPUT, w, 6), RoundKey(w, 7), EncryptRounds(INPUT, w, 7));
    RoundKey8();
    OneMore(INPUT, w, 8);
    Round8(EncryptRounds(INPUT, w, 7), RoundKey(w, 8), EncryptRounds(INPUT, w, 8));
    RoundKey9();
    OneMore(INPUT, w, 9);
    Round9(EncryptRounds(INPUT, w, 8), RoundKey(w, 9), EncryptRounds(INPUT, w, 9));
    End(EncryptRounds(INPUT, w, 9));
    OutputBytes(Cipher(INPUT, w));
  }

  /** What the program computes of that ciphertext: the plaintext of Appendix B. */
  lemma InverseExample()
    ensures InvCipher(OUTPUT, ExpandedKey(KEY)) == INPUT
  {
    hide Cipher, InvCipher, ExpandedKey, INPUT, KEY, OUTPUT;
    CipherExample();
    InvCipherOfCipher(INPUT, ExpandedKey(KEY));
  }
}
