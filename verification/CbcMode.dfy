/** CBC mode (section 6.2 of NIST SP 800-38A) over the cipher of FIPS 197, the padding of section 6.3 of RFC 5652, and
    aes128CbcDecrypt (qlappcom/fanyibot.cpp:658-685), which undoes both. */
module CbcMode {
  import opened Bytes
  import opened Fips197
  import AesDecrypt
  import Base64
  import opened Words

  function XorBlock(x: State, y: State): State {
    seq(16, i requires 0 <= i < 16 => Xor(x[i], y[i]))
  }

  lemma XorBlockCancels(x: State, y: State)
    ensures XorBlock(XorBlock(x, y), y) == x
  {
    forall i | 0 <= i < 16 ensures XorBlock(XorBlock(x, y), y)[i] == x[i] {
      XorCancels(x[i], y[i]);
    }
  }

  // ---- The mode, over any block cipher and its inverse ----

  function CbcEncrypt(cipher: State -> State, iv: State, p: seq<byte>): (c: seq<byte>)
    requires |p| % 16 == 0
    ensures |c| == |p|
    decreases |p|
  {
    if |p| == 0 then []
    else
      var block: seq<byte> := cipher(XorBlock(p[..16], iv));
      block + CbcEncrypt(cipher, block, p[16..])
  }

  function CbcDecrypt(inverse: State -> State, iv: State, c: seq<byte>): (p: seq<byte>)
    requires |c| % 16 == 0
    ensures |p| == |c|
    decreases |c|
  {
    if |c| == 0 then []
    else
      var block: seq<byte> := XorBlock(inverse(c[..16]), iv);
      block + CbcDecrypt(inverse, c[..16], c[16..])
  }

  lemma {:induction false} CbcDecryptOfEncrypt(cipher: State -> State, inverse: State -> State, iv: State, p: seq<byte>)
    requires |p| % 16 == 0 && forall x :: inverse(cipher(x)) == x
    ensures CbcDecrypt(inverse, iv, CbcEncrypt(cipher, iv, p)) == p
    decreases |p|
  {
    hide XorBlock;
    if |p| > 0 {
      var x := XorBlock(p[..16], iv);
      var block: seq<byte> := cipher(x);
      var rest := CbcEncrypt(cipher, block, p[16..]);
      assert (block + rest)[..16] == block && (block + rest)[16..] == rest;
      XorBlockCancels(p[..16], iv);
      CbcDecryptOfEncrypt(cipher, inverse, block, p[16..]);
      assert p == p[..16] + p[16..];
    }
  }

  lemma {:induction false} CbcEncryptOfDecrypt(cipher: State -> State, inverse: State -> State, iv: State, c: seq<byte>)
    requires |c| % 16 == 0 && forall x :: cipher(inverse(x)) == x
    ensures CbcEncrypt(cipher, iv, CbcDecrypt(inverse, iv, c)) == c
    decreases |c|
  {
    hide XorBlock;
    if |c| > 0 {
      var x := inverse(c[..16]);
      var first: seq<byte>, rest := XorBlock(x, iv), CbcDecrypt(inverse, c[..16], c[16..]);
      assert (first + rest)[..16] == first && (first + rest)[16..] == rest;
      XorBlockCancels(x, iv);
      CbcEncryptOfDecrypt(cipher, inverse, c[..16], c[16..]);
      assert c == c[..16] + c[16..];
    }
  }

  function Block(s: seq<byte>, i: nat): (b: seq<byte>)
    requires 16 * i + 16 <= |s|
    ensures |b| == 16
  {
    s[16 * i..16 * i + 16]
  }

  /** The two equations of section 6.2: each block of ciphertext is the cipher of the exclusive or of its plaintext with
      the block of ciphertext before it, the first with the initialization vector. */
  lemma {:induction false} BlocksAreChained(cipher: State -> State, iv: State, p: seq<byte>, i: nat)
    requires |p| % 16 == 0 && 16 * i < |p|
    ensures var c := CbcEncrypt(cipher, iv, p);
            Block(c, i) == cipher(XorBlock(Block(p, i), if i == 0 then iv else Block(c, i - 1)))
    decreases i
  {
    hide XorBlock;
    var first: seq<byte> := cipher(XorBlock(p[..16], iv));
    var c, rest := CbcEncrypt(cipher, iv, p), CbcEncrypt(cipher, first, p[16..]);
    assert c == first + rest;
    if i == 0 {
      assert Block(p, 0) == p[..16] && Block(c, 0) == first;
    } else {
      BlocksAreChained(cipher, first, p[16..], i - 1);
      assert Block(p[16..], i - 1) == Block(p, i) && Block(rest, i - 1) == Block(c, i);
      assert i > 1 ==> Block(rest, i - 2) == Block(c, i - 1);
      assert i == 1 ==> Block(c, 0) == first;
    }
  }

  // ---- Padding ----

  /** The number of padding bytes, 1 .. 16, which is also the value of each. */
  function PadLength(n: nat): (k: nat)
    ensures 1 <= k <= 16 && (n + k) % 16 == 0
  {
    16 - n % 16
  }

  function PadByte(n: nat): byte
    requires n <= 16
  {
    n as byte
  }

  function Pad(p: seq<byte>): (q: seq<byte>)
    ensures |q| % 16 == 0 && |q| > 0
  {
    p + seq(PadLength(|p|), i => PadByte(PadLength(|p|)))
  }

  /** Section 6.3: k bytes of value k, and no more than needed. */
  lemma PadIsStandard(p: seq<byte>)
    ensures var q, k := Pad(p), |Pad(p)| - |p|;
            && q[..|p|] == p && 1 <= k <= 16
            && forall i :: |p| <= i < |q| ==> q[i] as nat == k
  {
    SmallByte(PadLength(|p|));
  }

  /** The last n bytes, 1 <= n <= 16, all have the value n. */
  predicate WellPadded(p: seq<byte>, n: nat) {
    1 <= n <= 16 && n <= |p| && forall i :: |p| - n <= i < |p| ==> p[i] == PadByte(n)
  }

  /** The padded bytes without their padding, and nothing when they are not well padded. */
  function Unpad(p: seq<byte>): seq<byte>
    requires |p| > 0
  {
    var n := p[|p| - 1] as nat;
    if WellPadded(p, n) then p[..|p| - n] else []
  }

  lemma SmallByte(n: nat)
    requires n <= 16
    ensures PadByte(n) as nat == n
  {
  }

  lemma UnpadOfPad(p: seq<byte>)
    ensures Unpad(Pad(p)) == p
  {
    SmallByte(PadLength(|p|));
  }

  lemma PadOfUnpad(q: seq<byte>)
    requires |q| > 0 && |q| % 16 == 0 && Unpad(q) != []
    ensures Pad(Unpad(q)) == q
  {
    hide PadByte;
    var n := q[|q| - 1] as nat;
    assert PadLength(|q| - n) == n;
  }

  // ---- The cipher with a fixed key ----

  function Encipher(key: State): State -> State {
    x => Cipher(x, ExpandedKey(key))
  }

  function Decipher(key: State): State -> State {
    x => InvCipher(x, ExpandedKey(key))
  }

  lemma CiphersInverse(key: State)
    ensures forall x :: Decipher(key)(Encipher(key)(x)) == x
    ensures forall x :: Encipher(key)(Decipher(key)(x)) == x
  {
    hide Cipher, InvCipher, ExpandedKey;
    forall x: State
      ensures Decipher(key)(Encipher(key)(x)) == x && Encipher(key)(Decipher(key)(x)) == x
    {
      InvCipherOfCipher(x, ExpandedKey(key));
      CipherOfInvCipher(x, ExpandedKey(key));
    }
  }

  // ---- The program ----

  /** What aes128CbcDecrypt returns. */
  function Decrypted(key: seq<byte>, iv: seq<byte>, data: seq<byte>): seq<byte> {
    if |key| != 16 || |iv| != 16 || |data| == 0 || |data| % 16 != 0 then []
    else Unpad(CbcDecrypt(Decipher(key), iv, data))
  }

  method DecryptBlocks(key: State, iv: State, data: seq<byte>) returns (out: seq<byte>)
    requires |data| % 16 == 0
    ensures out == CbcDecrypt(Decipher(key), iv, data)
  {
    hide InvCipher, ExpandedKey, XorBlock;
    out := [];
    var prev: State := iv;
    var off := 0;
    while off < |data|
      invariant off <= |data| && off % 16 == 0
      invariant out + CbcDecrypt(Decipher(key), prev, data[off..]) == CbcDecrypt(Decipher(key), iv, data)
    {
      assert off + 16 <= |data|;
      var input: State := data[off..off + 16];
      assert data[off..][..16] == input && data[off..][16..] == data[off + 16..];
      var blk: State := AesDecrypt.AesDecryptBlock(key, input);
      assert blk == Decipher(key)(input);
      blk := XorPrevious(blk, prev);
      prev := input;
      out := out + blk;
      off := off + 16;
    }
  }

  /** The exclusive or of the block with the previous ciphertext block, byte by byte (fanyibot.cpp:671-674). */
  method XorPrevious(blk: State, prev: State) returns (x: State)
    ensures x == XorBlock(blk, prev)
  {
    var a := new byte[16](i requires 0 <= i < 16 => blk[i]);
    for i := 0 to 16
      invariant forall j :: 0 <= j < i ==> a[j] == Xor(blk[j], prev[j])
      invariant forall j :: i <= j < 16 ==> a[j] == blk[j]
    {
      a[i] := Xor(a[i], prev[i]);
    }
    x := a[..];
  }

  /** Removal of the padding (fanyibot.cpp:678-684). */
  method RemovePadding(out: seq<byte>) returns (r: seq<byte>)
    requires |out| >= 16
    ensures r == Unpad(out)
  {
    var pad := out[|out| - 1] as nat;
    if pad < 1 || pad > 16 {
      return [];
    }
    for i := 0 to pad
      invariant forall j :: |out| - i <= j < |out| ==> out[j] == PadByte(pad)
    {
      if out[|out| - 1 - i] != PadByte(pad) {
        return [];
      }
    }
    r := out[..|out| - pad];
  }

  method Aes128CbcDecrypt(key: seq<byte>, iv: seq<byte>, data: seq<byte>) returns (out: seq<byte>)
    ensures out == Decrypted(key, iv, data)
  {
    if |key| != 16 || |iv| != 16 || |data| == 0 || |data| % 16 != 0 {
      return [];
    }
    out := DecryptBlocks(key, iv, data);
    out := RemovePadding(out);
  }

  /** Decryption returns every plaintext, of any length, that was padded and encrypted under the same key and vector. */
  lemma DecryptedRoundTrip(key: State, iv: State, p: seq<byte>)
    ensures Decrypted(key, iv, CbcEncrypt(Encipher(key), iv, Pad(p))) == p
  {
    hide Encipher, Decipher, Pad, Unpad;
    CiphersInverse(key);
    CbcDecryptOfEncrypt(Encipher(key), Decipher(key), iv, Pad(p));
    UnpadOfPad(p);
  }

  /** A non-empty output, padded and encrypted again, is the input; so an input decrypts to a non-empty plaintext
      exactly when it is the encryption of that plaintext. */
  lemma NonEmptyOutputReencrypts(key: State, iv: State, data: seq<byte>, p: seq<byte>)
    requires p != []
    ensures Decrypted(key, iv, data) == p <==> data == CbcEncrypt(Encipher(key), iv, Pad(p))
  {
    hide Encipher, Decipher, Pad, Unpad;
    DecryptedRoundTrip(key, iv, p);
    if Decrypted(key, iv, data) == p {
      CiphersInverse(key);
      CbcEncryptOfDecrypt(Encipher(key), Decipher(key), iv, data);
      PadOfUnpad(CbcDecrypt(Decipher(key), iv, data));
    }
  }

  /** A server reply: plaintext padded, encrypted and sent in the URL alphabet of RFC 4648, with or without its padding
      characters. What onDone does with the body (fanyibot.cpp:998-1000) gives the plaintext back. */
  lemma ReplyRoundTrip(key: State, iv: State, p: seq<byte>)
    ensures var sent := Base64.Encoded(CbcEncrypt(Encipher(key), iv, Pad(p)));
            && Decrypted(key, iv, Base64.Merge(Base64.Values(Base64.UrlAlphabet(sent)))) == p
            && Decrypted(key, iv, Base64.Merge(Base64.Values(Base64.UrlAlphabet(Base64.StripPadding(sent))))) == p
  {
    hide Decrypted, Pad, CbcEncrypt;
    Base64.AllVariantsRoundTrip(CbcEncrypt(Encipher(key), iv, Pad(p)));
    DecryptedRoundTrip(key, iv, p);
  }
}
