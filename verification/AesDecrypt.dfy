/** AES-128-CBC decryption as qlappcom/fanyibot.cpp:582-685 computes it, in place on arrays, held to FIPS 197 and to
    CBC mode (NIST SP 800-38A, section 6.2) with the padding of RFC 5652, section 6.3. */
module AesDecrypt {
  import opened Bytes
  import opened GaloisField
  import opened AesTables
  import opened Fips197
  import opened Words

  /** Shift and add, eight times. */
  method AesMul(a: byte, b: byte) returns (p: byte)
    ensures p == Mul(a, b)
  {
    hide Xor;
    p := 0;
    var x, y := a, b;
    XorCancels(Mul(a, b), 0);
    for i := 0 to 8
      invariant Xor(p, MulBits(x, y, 8 - i)) == Mul(a, b)
    {
      var rest := MulBits(XTime(x), y >> 1, 7 - i);
      XorAC(p, if y & 1 != 0 then x else 0, rest);
      XorCancels(p, 0);
      if y & 1 != 0 {
        p := Xor(p, x);
      }
      var hi := x & 0x80 != 0;
      x := x << 1;
      if hi {
        x := x ^ 0x1B;
      }
      y := y >> 1;
    }
    XorCancels(p, 0);
  }

  const RCON: seq<byte> := [0x00, 0x01, 0x02, 0x04, 0x08, 0x10, 0x20, 0x40, 0x80, 0x1B, 0x36]

  lemma RconIsPowers(n: nat)
    requires 1 <= n <= 10
    ensures RCON[n] == PowerOfX(n - 1)
  {
    if n > 1 {
      RconIsPowers(n - 1);
    }
    match n {
      case 1 => case 2 => case 3 => case 4 => case 5 => case 6 => case 7 => case 8 => case 9 => case _ =>
    }
  }

  lemma ExpandedByte(key: State, i: nat, j: nat)
    requires i < 44 && j < 4
    ensures ExpandedKey(key)[4 * i + j] == KeyByte(key, i, j)
  {
    assert (4 * i + j) / 4 == i && (4 * i + j) % 4 == j;
  }

  /** Byte j of what is added to word i - 4 to make word i, from the bytes prev of word i - 1. */
  function KeyTemp(prev: seq<byte>, i: nat, j: nat): byte
    requires |prev| == 4 && 4 <= i < 44 && j < 4
  {
    if i % 4 == 0 then (if j == 0 then Xor(Sbox(prev[1]), RCON[i / 4]) else Sbox(prev[(j + 1) % 4]))
    else prev[j]
  }

  lemma KeyTempIsExpansion(key: State, prev: seq<byte>, i: nat, j: nat)
    requires |prev| == 4 && 4 <= i < 44 && j < 4
    requires prev[j] == KeyByte(key, i - 1, j) && prev[(j + 1) % 4] == KeyByte(key, i - 1, (j + 1) % 4)
    ensures KeyByte(key, i, j) == Xor(KeyByte(key, i - 4, j), KeyTemp(prev, i, j))
  {
    hide Sbox;
    if i % 4 == 0 {
      RconIsPowers(i / 4);
      XorCancels(Sbox(prev[(j + 1) % 4]), 0);
    }
  }

  /** rk holds the expanded key up to byte n. */
  ghost predicate Expanded(key: State, rk: seq<byte>, n: nat) {
    |rk| == 176 && n <= 176 && rk[..n] == ExpandedKey(key)[..n]
  }

  lemma ExpandedStep(key: State, rk: seq<byte>, i: nat, j: nat, prev: seq<byte>, last: byte, next: byte)
    requires 4 <= i < 44 && j < 4 && Expanded(key, rk, 4 * i + j)
    requires |prev| == 4 && forall k :: 0 <= k < 4 ==> prev[k] == KeyByte(key, i - 1, k)
    requires last == rk[4 * (i - 4) + j] && next == Xor(last, KeyTemp(prev, i, j))
    ensures Expanded(key, rk[4 * i + j := next], 4 * i + j + 1)
  {
    hide KeyTemp, KeyByte, ExpandedKey, Xor;
    assert rk[..4 * i + j][4 * (i - 4) + j] == ExpandedKey(key)[4 * (i - 4) + j];
    ExpandedByte(key, i - 4, j);
    ExpandedByte(key, i, j);
    KeyTempIsExpansion(key, prev, i, j);
    var w := ExpandedKey(key);
    assert rk[4 * i + j := next][..4 * i + j + 1] == rk[..4 * i + j] + [next];
    assert w[..4 * i + j + 1] == w[..4 * i + j] + [w[4 * i + j]];
  }

  /** The bytes of word i - 1 as the expansion left them. */
  lemma PreviousWord(key: State, rk: seq<byte>, i: nat)
    requires 4 <= i < 44 && Expanded(key, rk, 4 * i)
    ensures rk[4 * i - 4] == KeyByte(key, i - 1, 0) && rk[4 * i - 3] == KeyByte(key, i - 1, 1)
    ensures rk[4 * i - 2] == KeyByte(key, i - 1, 2) && rk[4 * i - 1] == KeyByte(key, i - 1, 3)
  {
    hide KeyByte, ExpandedKey;
    assert forall k :: 0 <= k < 4 * i ==> rk[..4 * i][k] == ExpandedKey(key)[k];
    ExpandedByte(key, i - 1, 0);
    ExpandedByte(key, i - 1, 1);
    ExpandedByte(key, i - 1, 2);
    ExpandedByte(key, i - 1, 3);
  }

  lemma KeyBytesExpanded(key: State, rk: seq<byte>)
    requires |rk| == 176 && rk[..16] == key
    ensures Expanded(key, rk, 16)
  {
    forall k | 0 <= k < 16 ensures ExpandedKey(key)[k] == key[k] {
      ExpandedByte(key, k / 4, k % 4);
    }
  }

  method AesExpandKey(key: State, rk: array<byte>)
    requires rk.Length == 176
    modifies rk
    ensures rk[..] == ExpandedKey(key)
  {
    for i := 0 to 16
      invariant rk[..i] == key[..i]
    {
      rk[i] := key[i];
    }
    KeyBytesExpanded(key, rk[..]);
    for i := 4 to 44
      invariant Expanded(key, rk[..], 4 * i)
    {
      ExpandWord(key, rk, i);
    }
  }

  /** One pass of the expansion loop (fanyibot.cpp:599-610). */
  method ExpandWord(ghost key: State, rk: array<byte>, i: nat)
    requires rk.Length == 176 && 4 <= i < 44 && Expanded(key, rk[..], 4 * i)
    modifies rk
    ensures Expanded(key, rk[..], 4 * i + 4)
  {
    hide Sbox, Xor, KeyByte, ExpandedKey;
    PreviousWord(key, rk[..], i);
    var t := [rk[(i - 1) * 4], rk[(i - 1) * 4 + 1], rk[(i - 1) * 4 + 2], rk[(i - 1) * 4 + 3]];
    for j := 0 to 4
      invariant Expanded(key, rk[..], 4 * i + j)
    {
      var next := Xor(rk[(i - 4) * 4 + j], KeyTemp(t, i, j));
      ExpandedStep(key, rk[..], i, j, t, rk[(i - 4) * 4 + j], next);
      rk[i * 4 + j] := next;
    }
  }

  method AesAddRoundKey(s: array<byte>, rk: array<byte>, round: nat)
    requires s.Length == 16 && rk.Length == 176 && round <= 10 && s != rk
    modifies s
    ensures s[..] == AddRoundKey(old(s[..]), rk[..], round)
  {
    for i := 0 to 16
      invariant forall j :: 0 <= j < i ==> s[j] == AddRoundKey(old(s[..]), rk[..], round)[j]
      invariant forall j :: i <= j < 16 ==> s[j] == old(s[j])
    {
      s[i] := Xor(s[i], rk[round * 16 + i]);
    }
  }

  lemma PlaceInLoop(r: nat, c: nat)
    requires r < 4 && c < 4
    ensures Place(r, c) == c * 4 + r && RightSource(Place(r, c)) == ((c + 4 - r) % 4) * 4 + r
  {
  }

  method AesInvShiftRows(s: array<byte>)
    requires s.Length == 16
    modifies s
    ensures s[..] == InvShiftRows(old(s[..]))
  {
    hide Place, RightSource;
    ghost var shifted := InvShiftRows(s[..]);
    var tmp := new byte[16];
    for r := 0 to 4
      modifies tmp
      invariant forall q, c :: 0 <= q < r && 0 <= c < 4 ==> tmp[Place(q, c)] == s[RightSource(Place(q, c))]
    {
      for c := 0 to 4
        modifies tmp
        invariant forall q, p :: 0 <= q < r && 0 <= p < 4 ==> tmp[Place(q, p)] == s[RightSource(Place(q, p))]
        invariant forall p :: 0 <= p < c ==> tmp[Place(r, p)] == s[RightSource(Place(r, p))]
      {
        PlaceInLoop(r, c);
        tmp[c * 4 + r] := s[((c + 4 - r) % 4) * 4 + r];
      }
    }
    forall i | 0 <= i < 16 ensures tmp[i] == shifted[i] {
      PlaceInLoop(i % 4, i / 4);
      assert tmp[Place(i % 4, i / 4)] == s[RightSource(i)];
      assert shifted[i] == s[..][RightSource(i)];
    }
    forall i | 0 <= i < 16 {
      s[i] := tmp[i];
    }
  }

  method AesInvSubBytes(s: array<byte>)
    requires s.Length == 16
    modifies s
    ensures s[..] == InvSubBytes(old(s[..]))
  {
    hide InvSbox;
    for i := 0 to 16
      invariant forall j :: 0 <= j < i ==> s[j] == InvSubBytes(old(s[..]))[j]
      invariant forall j :: i <= j < 16 ==> s[j] == old(s[j])
    {
      s[i] := InvSbox(s[i]);
    }
  }

  /** One column of the loop: four products and sums for each of its four bytes (fanyibot.cpp:632-636). */
  method InvMixOneColumn(a: byte, b: byte, e: byte, d: byte) returns (m: seq<byte>)
    ensures m == InvMixColumn(a, b, e, d)
  {
    hide InvMixByte;
    var m0 := InvMixOneByte(a, b, e, d);
    var m1 := InvMixOneByte(b, e, d, a);
    var m2 := InvMixOneByte(e, d, a, b);
    var m3 := InvMixOneByte(d, a, b, e);
    m := [m0, m1, m2, m3];
  }

  method InvMixOneByte(a: byte, b: byte, c: byte, d: byte) returns (m: byte)
    ensures m == InvMixByte(a, b, c, d)
  {
    hide Mul;
    var p := AesMul(a, 14);
    var q := AesMul(b, 11);
    var r := AesMul(c, 13);
    var t := AesMul(d, 9);
    m := Xor4(p, q, r, t);
  }

  /** Column c of the state s, mixed. */
  function MixedColumn(s: State, c: nat): (m: seq<byte>)
    requires c < 4
    ensures |m| == 4
  {
    InvMixColumn(s[4 * c], s[4 * c + 1], s[4 * c + 2], s[4 * c + 3])
  }

  lemma ConcatenationAt(p: seq<byte>, q: seq<byte>, r: seq<byte>, t: seq<byte>, m: seq<byte>, c: nat)
    requires c < 4 && |p| == |q| == |r| == |t| == 4
    requires m == if c == 0 then p else if c == 1 then q else if c == 2 then r else t
    ensures (p + q + r + t)[4 * c..4 * c + 4] == m
  {
    var all := p + q + r + t;
    if c == 0 {
      assert all[0..4] == p;
    } else if c == 1 {
      assert all[4..8] == q;
    } else if c == 2 {
      assert all[8..12] == r;
    } else {
      assert all[12..16] == t;
    }
  }

  lemma InvMixColumnsAt(s: State, c: nat)
    requires c < 4
    ensures forall k :: 0 <= k < 4 ==> InvMixColumns(s)[4 * c + k] == MixedColumn(s, c)[k]
  {
    hide InvMixColumn;
    var p, q, r, t := MixedColumn(s, 0), MixedColumn(s, 1), MixedColumn(s, 2), MixedColumn(s, 3);
    ConcatenationAt(p, q, r, t, MixedColumn(s, c), c);
    forall k | 0 <= k < 4 ensures InvMixColumns(s)[4 * c + k] == MixedColumn(s, c)[k] {
      assert InvMixColumns(s)[4 * c + k] == InvMixColumns(s)[4 * c..4 * c + 4][k];
    }
  }

  /** Column c alone is replaced by its mixture. */
  method AesInvMixColumnAt(s: array<byte>, c: nat)
    requires s.Length == 16 && c < 4
    modifies s
    ensures forall k :: 0 <= k < 4 ==> s[4 * c + k] == MixedColumn(old(s[..]), c)[k]
    ensures forall k :: 0 <= k < 16 && !(4 * c <= k < 4 * c + 4) ==> s[k] == old(s[k])
  {
    hide InvMixColumn;
    var o := 4 * c;
    var m := InvMixOneColumn(s[o], s[o + 1], s[o + 2], s[o + 3]);
    s[o], s[o + 1], s[o + 2], s[o + 3] := m[0], m[1], m[2], m[3];
  }

  method AesInvMixColumns(s: array<byte>)
    requires s.Length == 16
    modifies s
    ensures s[..] == InvMixColumns(old(s[..]))
  {
    hide InvMixColumns, InvMixColumn;
    ghost var before, mixed := s[..], InvMixColumns(s[..]);
    for c := 0 to 4
      invariant forall k :: 0 <= k < 4 * c ==> s[k] == mixed[k]
      invariant forall k :: 4 * c <= k < 16 ==> s[k] == before[k]
    {
      InvMixColumnsAt(before, c);
      assert MixedColumn(s[..], c) == MixedColumn(before, c);
      ghost var halfway := s[..];
      AesInvMixColumnAt(s, c);
      forall k | 0 <= k < 4 * c + 4 ensures s[k] == mixed[k] {
        if k >= 4 * c {
          assert s[4 * c + (k - 4 * c)] == MixedColumn(before, c)[k - 4 * c];
        } else {
          assert s[k] == halfway[k];
        }
      }
    }
  }

  method AesDecryptBlock(key: State, input: State) returns (out: State)
    ensures out == InvCipher(input, ExpandedKey(key))
  {
    hide AddRoundKey, InvMixColumns, InvSubBytes, InvShiftRows, ExpandedKey;
    var rk := new byte[176];
    AesExpandKey(key, rk);
    var s := new byte[16](i requires 0 <= i < 16 => input[i]);
    assert s[..] == input;
    AesAddRoundKey(s, rk, 10);
    for round := 10 downto 1
      invariant rk[..] == ExpandedKey(key)
      invariant s[..] == DecryptRounds(input, ExpandedKey(key), 10 - round)
    {
      AesInvShiftRows(s);
      AesInvSubBytes(s);
      AesAddRoundKey(s, rk, round);
      AesInvMixColumns(s);
    }
    AesInvShiftRows(s);
    AesInvSubBytes(s);
    AesAddRoundKey(s, rk, 0);
    out := s[..];
  }
}
