/** The constants of SHA-256 are what sections 4.2.2 and 5.3.3 of FIPS 180-4 say they are.

    They are the first 32 bits of the fractional parts of the cube roots of the first 64 primes, and of the square roots
    of the first eight.
*/
module Sha256Constants {
  import opened Sha256Spec
  import opened Words

  // ---- The first 64 primes ----

  function Times(d: nat, e: nat): nat {
    d * e
  }

  ghost predicate IsPrime(n: nat) {
    n >= 2 && forall d, e :: d >= 2 && e >= 2 ==> Times(d, e) != n
  }

  /** Primes 8 * r to 8 * r + 7, counted from 0. */
  function PrimeRow(r: nat): (ps: seq<nat>)
    requires r < 8
    ensures |ps| == 8
  {
    match r
    case 0 => [2, 3, 5, 7, 11, 13, 17, 19]
    case 1 => [23, 29, 31, 37, 41, 43, 47, 53]
    case 2 => [59, 61, 67, 71, 73, 79, 83, 89]
    case 3 => [97, 101, 103, 107, 109, 113, 127, 131]
    case 4 => [137, 139, 149, 151, 157, 163, 167, 173]
    case 5 => [179, 181, 191, 193, 197, 199, 211, 223]
    case 6 => [227, 229, 233, 239, 241, 251, 257, 263]
    case _ => [269, 271, 277, 281, 283, 293, 307, 311]
  }

  function Prime(t: nat): nat
    requires t < 64
  {
    PrimeRow(t / 8)[t % 8]
  }

  /** No prime up to 17 divides n, but n itself. */
  predicate Unsieved(n: nat) {
    && (n % 2 != 0 || n == 2) && (n % 3 != 0 || n == 3) && (n % 5 != 0 || n == 5) && (n % 7 != 0 || n == 7)
    && (n % 11 != 0 || n == 11) && (n % 13 != 0 || n == 13) && (n % 17 != 0 || n == 17)
  }


  lemma Factor2(x: nat)
    requires x >= 2
    ensures !Unsieved(2 * x)
  {
    assert (2 * x) % 2 == 0;
  }

  lemma Factor3(x: nat)
    requires x >= 2
    ensures !Unsieved(3 * x)
  {
    assert (3 * x) % 3 == 0;
  }

  lemma Factor5(x: nat)
    requires x >= 2
    ensures !Unsieved(5 * x)
  {
    assert (5 * x) % 5 == 0;
  }

  lemma Factor7(x: nat)
    requires x >= 2
    ensures !Unsieved(7 * x)
  {
    assert (7 * x) % 7 == 0;
  }

  lemma Factor11(x: nat)
    requires x >= 2
    ensures !Unsieved(11 * x)
  {
    assert (11 * x) % 11 == 0;
  }

  lemma Factor13(x: nat)
    requires x >= 2
    ensures !Unsieved(13 * x)
  {
    assert (13 * x) % 13 == 0;
  }

  lemma Factor17(x: nat)
    requires x >= 2
    ensures !Unsieved(17 * x)
  {
    assert (17 * x) % 17 == 0;
  }

  lemma SmallFactor(d: nat, e: nat)
    requires 2 <= d <= 17 && e >= 2
    ensures !Unsieved(Times(d, e))
  {
    hide Unsieved;
    match d {
      case 2 => Factor2(e);
      case 3 => Factor3(e);
      case 4 => Factor2(2 * e);
      case 5 => Factor5(e);
      case 6 => Factor2(3 * e);
      case 7 => Factor7(e);
      case 8 => Factor2(4 * e);
      case 9 => Factor3(3 * e);
      case 10 => Factor2(5 * e);
      case 11 => Factor11(e);
      case 12 => Factor2(6 * e);
      case 13 => Factor13(e);
      case 14 => Factor2(7 * e);
      case 15 => Factor3(5 * e);
      case 16 => Factor2(8 * e);
      case 17 => Factor17(e);
    }
  }

  lemma Swapped(d: nat, e: nat)
    ensures Times(d, e) == Times(e, d)
  {
  }

  lemma LargeFactors(d: nat, e: nat)
    requires d >= 18 && e >= 18
    ensures Times(d, e) >= 324
  {
  }

  lemma SieveIsExact(n: nat)
    requires 2 <= n < 324
    ensures IsPrime(n) <==> Unsieved(n)
  {
    assert Times(2, n / 2) == n || n % 2 != 0;
    assert Times(3, n / 3) == n || n % 3 != 0;
    assert Times(5, n / 5) == n || n % 5 != 0;
    assert Times(7, n / 7) == n || n % 7 != 0;
    assert Times(11, n / 11) == n || n % 11 != 0;
    assert Times(13, n / 13) == n || n % 13 != 0;
    assert Times(17, n / 17) == n || n % 17 != 0;
    hide Times;
    forall d, e | d >= 2 && e >= 2 && Times(d, e) == n ensures !Unsieved(n) {
      if d <= 17 {
        SmallFactor(d, e);
      } else if e <= 17 {
        Swapped(d, e);
        SmallFactor(e, d);
      } else {
        LargeFactors(d, e);
      }
    }
  }

  lemma Sieve2To10(n: nat)
    requires 2 <= n <= 10
    ensures Unsieved(n) <==> n in PrimeRow(0)
  {
  }

  lemma Sieve11To19(n: nat)
    requires 11 <= n <= 19
    ensures Unsieved(n) <==> n in PrimeRow(0)
  {
  }

  lemma Sieve20To31(n: nat)
    requires 20 <= n <= 31
    ensures Unsieved(n) <==> n in PrimeRow(1)
  {
  }

  lemma Sieve32To43(n: nat)
    requires 32 <= n <= 43
    ensures Unsieved(n) <==> n in PrimeRow(1)
  {
  }

  lemma Sieve44To53(n: nat)
    requires 44 <= n <= 53
    ensures Unsieved(n) <==> n in PrimeRow(1)
  {
  }

  lemma Sieve54To65(n: nat)
    requires 54 <= n <= 65
    ensures Unsieved(n) <==> n in PrimeRow(2)
  {
  }

  lemma Sieve66To77(n: nat)
    requires 66 <= n <= 77
    ensures Unsieved(n) <==> n in PrimeRow(2)
  {
  }

  lemma Sieve78To89(n: nat)
    requires 78 <= n <= 89
    ensures Unsieved(n) <==> n in PrimeRow(2)
  {
  }

  lemma Sieve90To100(n: nat)
    requires 90 <= n <= 100
    ensures Unsieved(n) <==> n in PrimeRow(3)
  {
  }

  lemma Sieve101To111(n: nat)
    requires 101 <= n <= 111
    ensures Unsieved(n) <==> n in PrimeRow(3)
  {
  }

  lemma Sieve112To122(n: nat)
    requires 112 <= n <= 122
    ensures Unsieved(n) <==> n in PrimeRow(3)
  {
  }

  lemma Sieve123To131(n: nat)
    requires 123 <= n <= 131
    ensures Unsieved(n) <==> n in PrimeRow(3)
  {
  }

  lemma Sieve132To142(n: nat)
    requires 132 <= n <= 142
    ensures Unsieved(n) <==> n in PrimeRow(4)
  {
  }

  lemma Sieve143To153(n: nat)
    requires 143 <= n <= 153
    ensures Unsieved(n) <==> n in PrimeRow(4)
  {
  }

  lemma Sieve154To164(n: nat)
    requires 154 <= n <= 164
    ensures Unsieved(n) <==> n in PrimeRow(4)
  {
  }

  lemma Sieve165To173(n: nat)
    requires 165 <= n <= 173
    ensures Unsieved(n) <==> n in PrimeRow(4)
  {
  }

  lemma Sieve174To183(n: nat)
    requires 174 <= n <= 183
    ensures Unsieved(n) <==> n in PrimeRow(5)
  {
  }

  lemma Sieve184To193(n: nat)
    requires 184 <= n <= 193
    ensures Unsieved(n) <==> n in PrimeRow(5)
  {
  }

  lemma Sieve194To203(n: nat)
    requires 194 <= n <= 203
    ensures Unsieved(n) <==> n in PrimeRow(5)
  {
  }

  lemma Sieve204To213(n: nat)
    requires 204 <= n <= 213
    ensures Unsieved(n) <==> n in PrimeRow(5)
  {
  }

  lemma Sieve214To223(n: nat)
    requires 214 <= n <= 223
    ensures Unsieved(n) <==> n in PrimeRow(5)
  {
  }

  lemma Sieve224To233(n: nat)
    requires 224 <= n <= 233
    ensures Unsieved(n) <==> n in PrimeRow(6)
  {
  }

  lemma Sieve234To243(n: nat)
    requires 234 <= n <= 243
    ensures Unsieved(n) <==> n in PrimeRow(6)
  {
  }

  lemma Sieve244To253(n: nat)
    requires 244 <= n <= 253
    ensures Unsieved(n) <==> n in PrimeRow(6)
  {
  }

  lemma Sieve254To263(n: nat)
    requires 254 <= n <= 263
    ensures Unsieved(n) <==> n in PrimeRow(6)
  {
  }

  lemma Sieve264To275(n: nat)
    requires 264 <= n <= 275
    ensures Unsieved(n) <==> n in PrimeRow(7)
  {
  }

  lemma Sieve276To287(n: nat)
    requires 276 <= n <= 287
    ensures Unsieved(n) <==> n in PrimeRow(7)
  {
  }

  lemma Sieve288To299(n: nat)
    requires 288 <= n <= 299
    ensures Unsieved(n) <==> n in PrimeRow(7)
  {
  }

  lemma Sieve300To311(n: nat)
    requires 300 <= n <= 311
    ensures Unsieved(n) <==> n in PrimeRow(7)
  {
  }

  /** The row that n belongs to. */
  function Row(n: nat): nat {
    if n <= 19 then 0
    else if n <= 53 then 1
    else if n <= 89 then 2
    else if n <= 131 then 3
    else if n <= 173 then 4
    else if n <= 223 then 5
    else if n <= 263 then 6
    else 7
  }

  lemma RowBounds(r: nat, n: nat)
    requires r < 8 && n in PrimeRow(r)
    ensures Row(n) == r && 2 <= n <= 311
  {
  }

  lemma SieveRows(n: nat)
    requires 2 <= n <= 311
    ensures Unsieved(n) <==> n in PrimeRow(Row(n))
  {
    hide Unsieved, PrimeRow;
    if n <= 10 {
      Sieve2To10(n);
    } else if n <= 19 {
      Sieve11To19(n);
    } else if n <= 31 {
      Sieve20To31(n);
    } else if n <= 43 {
      Sieve32To43(n);
    } else if n <= 53 {
      Sieve44To53(n);
    } else if n <= 65 {
      Sieve54To65(n);
    } else if n <= 77 {
      Sieve66To77(n);
    } else if n <= 89 {
      Sieve78To89(n);
    } else if n <= 100 {
      Sieve90To100(n);
    } else if n <= 111 {
      Sieve101To111(n);
    } else if n <= 122 {
      Sieve112To122(n);
    } else if n <= 131 {
      Sieve123To131(n);
    } else if n <= 142 {
      Sieve132To142(n);
    } else if n <= 153 {
      Sieve143To153(n);
    } else if n <= 164 {
      Sieve154To164(n);
    } else if n <= 173 {
      Sieve165To173(n);
    } else if n <= 183 {
      Sieve174To183(n);
    } else if n <= 193 {
      Sieve184To193(n);
    } else if n <= 203 {
      Sieve194To203(n);
    } else if n <= 213 {
      Sieve204To213(n);
    } else if n <= 223 {
      Sieve214To223(n);
    } else if n <= 233 {
      Sieve224To233(n);
    } else if n <= 243 {
      Sieve234To243(n);
    } else if n <= 253 {
      Sieve244To253(n);
    } else if n <= 263 {
      Sieve254To263(n);
    } else if n <= 275 {
      Sieve264To275(n);
    } else if n <= 287 {
      Sieve276To287(n);
    } else if n <= 299 {
      Sieve288To299(n);
    } else {
      Sieve300To311(n);
    }
  }

  lemma RowAscends(r: nat, j: nat)
    requires r < 8 && j < 7
    ensures PrimeRow(r)[j] < PrimeRow(r)[j + 1]
  {
  }

  lemma Ascends(t: nat)
    requires t < 63
    ensures Prime(t) < Prime(t + 1)
  {
    var r, j := t / 8, t % 8;
    if j < 7 {
      assert (t + 1) / 8 == r && (t + 1) % 8 == j + 1;
      RowAscends(r, j);
    } else {
      assert (t + 1) / 8 == r + 1 && (t + 1) % 8 == 0;
      RowBounds(r, Prime(t));
      RowBounds(r + 1, Prime(t + 1));
    }
  }

  /** The list ascends, and up to its last element it holds exactly the primes: it is the first 64 of them. */
  lemma PrimesAreFirst(n: nat)
    requires n <= 311
    ensures IsPrime(n) <==> exists t :: 0 <= t < 64 && Prime(t) == n
    ensures forall t :: 0 <= t < 63 ==> Prime(t) < Prime(t + 1)
  {
    hide PrimeRow, Unsieved, IsPrime;
    forall t | 0 <= t < 63 ensures Prime(t) < Prime(t + 1) {
      Ascends(t);
    }
    forall t | 0 <= t < 64 ensures Prime(t) in PrimeRow(Row(Prime(t))) && 2 <= Prime(t) {
      RowBounds(t / 8, Prime(t));
    }
    if n < 2 {
      assert !IsPrime(n) by { SmallNotPrime(n); }
    } else {
      SieveIsExact(n);
      SieveRows(n);
      hide Row;
      if n in PrimeRow(Row(n)) {
        var j :| 0 <= j < 8 && PrimeRow(Row(n))[j] == n;
        assert (8 * Row(n) + j) / 8 == Row(n) && (8 * Row(n) + j) % 8 == j;
        assert Prime(8 * Row(n) + j) == n;
      }
    }
  }

  lemma SmallNotPrime(n: nat)
    ensures n < 2 ==> !IsPrime(n)
  {
  }

  // ---- Section 4.2.2 ----

  function Cube(x: nat): nat {
    x * x * x
  }

  /** The cube root of p is n and a fraction, and k is the first 32 bits of the fraction. */
  predicate IsCubeRoot(n: nat, k: word, p: nat) {
    Cube(n * 0x1_0000_0000 + k as int) <= p * 0x1_0000_0000_0000_0000_0000_0000
      < Cube(n * 0x1_0000_0000 + k as int + 1)
  }

  predicate FromCubeRoot(k: word, p: nat) {
    exists n :: 0 <= n < 8 && IsCubeRoot(n, k, p)
  }

  lemma CubeRoots0(j: nat)
    requires j < 8
    ensures FromCubeRoot(K[0 + j], PrimeRow(0)[j])
  {
    match j {
      case 0 => assert K[0] == 0x428A2F98 && IsCubeRoot(1, 0x428A2F98, 2);
      case 1 => assert K[1] == 0x71374491 && IsCubeRoot(1, 0x71374491, 3);
      case 2 => assert K[2] == 0xB5C0FBCF && IsCubeRoot(1, 0xB5C0FBCF, 5);
      case 3 => assert K[3] == 0xE9B5DBA5 && IsCubeRoot(1, 0xE9B5DBA5, 7);
      case 4 => assert K[4] == 0x3956C25B && IsCubeRoot(2, 0x3956C25B, 11);
      case 5 => assert K[5] == 0x59F111F1 && IsCubeRoot(2, 0x59F111F1, 13);
      case 6 => assert K[6] == 0x923F82A4 && IsCubeRoot(2, 0x923F82A4, 17);
      case _ => assert K[7] == 0xAB1C5ED5 && IsCubeRoot(2, 0xAB1C5ED5, 19);
    }
  }

  lemma CubeRoots1(j: nat)
    requires j < 8
    ensures FromCubeRoot(K[8 + j], PrimeRow(1)[j])
  {
    match j {
      case 0 => assert K[8] == 0xD807AA98 && IsCubeRoot(2, 0xD807AA98, 23);
      case 1 => assert K[9] == 0x12835B01 && IsCubeRoot(3, 0x12835B01, 29);
      case 2 => assert K[10] == 0x243185BE && IsCubeRoot(3, 0x243185BE, 31);
      case 3 => assert K[11] == 0x550C7DC3 && IsCubeRoot(3, 0x550C7DC3, 37);
      case 4 => assert K[12] == 0x72BE5D74 && IsCubeRoot(3, 0x72BE5D74, 41);
      case 5 => assert K[13] == 0x80DEB1FE && IsCubeRoot(3, 0x80DEB1FE, 43);
      case 6 => assert K[14] == 0x9BDC06A7 && IsCubeRoot(3, 0x9BDC06A7, 47);
      case _ => assert K[15] == 0xC19BF174 && IsCubeRoot(3, 0xC19BF174, 53);
    }
  }

  lemma CubeRoots2(j: nat)
    requires j < 8
    ensures FromCubeRoot(K[16 + j], PrimeRow(2)[j])
  {
    match j {
      case 0 => assert K[16] == 0xE49B69C1 && IsCubeRoot(3, 0xE49B69C1, 59);
      case 1 => assert K[17] == 0xEFBE4786 && IsCubeRoot(3, 0xEFBE4786, 61);
      case 2 => assert K[18] == 0x0FC19DC6 && IsCubeRoot(4, 0x0FC19DC6, 67);
      case 3 => assert K[19] == 0x240CA1CC && IsCubeRoot(4, 0x240CA1CC, 71);
      case 4 => assert K[20] == 0x2DE92C6F && IsCubeRoot(4, 0x2DE92C6F, 73);
      case 5 => assert K[21] == 0x4A7484AA && IsCubeRoot(4, 0x4A7484AA, 79);
      case 6 => assert K[22] == 0x5CB0A9DC && IsCubeRoot(4, 0x5CB0A9DC, 83);
      case _ => assert K[23] == 0x76F988DA && IsCubeRoot(4, 0x76F988DA, 89);
    }
  }

  lemma CubeRoots3(j: nat)
    requires j < 8
    ensures FromCubeRoot(K[24 + j], PrimeRow(3)[j])
  {
    match j {
      case 0 => assert K[24] == 0x983E5152 && IsCubeRoot(4, 0x983E5152, 97);
      case 1 => assert K[25] == 0xA831C66D && IsCubeRoot(4, 0xA831C66D, 101);
      case 2 => assert K[26] == 0xB00327C8 && IsCubeRoot(4, 0xB00327C8, 103);
      case 3 => assert K[27] == 0xBF597FC7 && IsCubeRoot(4, 0xBF597FC7, 107);
      case 4 => assert K[28] == 0xC6E00BF3 && IsCubeRoot(4, 0xC6E00BF3, 109);
      case 5 => assert K[29] == 0xD5A79147 && IsCubeRoot(4, 0xD5A79147, 113);
      case 6 => assert K[30] == 0x06CA6351 && IsCubeRoot(5, 0x06CA6351, 127);
      case _ => assert K[31] == 0x14292967 && IsCubeRoot(5, 0x14292967, 131);
    }
  }

  lemma CubeRoots4(j: nat)
    requires j < 8
    ensures FromCubeRoot(K[32 + j], PrimeRow(4)[j])
  {
    match j {
      case 0 => assert K[32] == 0x27B70A85 && IsCubeRoot(5, 0x27B70A85, 137);
      case 1 => assert K[33] == 0x2E1B2138 && IsCubeRoot(5, 0x2E1B2138, 139);
      case 2 => assert K[34] == 0x4D2C6DFC && IsCubeRoot(5, 0x4D2C6DFC, 149);
      case 3 => assert K[35] == 0x53380D13 && IsCubeRoot(5, 0x53380D13, 151);
      case 4 => assert K[36] == 0x650A7354 && IsCubeRoot(5, 0x650A7354, 157);
      case 5 => assert K[37] == 0x766A0ABB && IsCubeRoot(5, 0x766A0ABB, 163);
      case 6 => assert K[38] == 0x81C2C92E && IsCubeRoot(5, 0x81C2C92E, 167);
      case _ => assert K[39] == 0x92722C85 && IsCubeRoot(5, 0x92722C85, 173);
    }
  }

  lemma CubeRoots5(j: nat)
    requires j < 8
    ensures FromCubeRoot(K[40 + j], PrimeRow(5)[j])
  {
    match j {
      case 0 => assert K[40] == 0xA2BFE8A1 && IsCubeRoot(5, 0xA2BFE8A1, 179);
      case 1 => assert K[41] == 0xA81A664B && IsCubeRoot(5, 0xA81A664B, 181);
      case 2 => assert K[42] == 0xC24B8B70 && IsCubeRoot(5, 0xC24B8B70, 191);
      case 3 => assert K[43] == 0xC76C51A3 && IsCubeRoot(5, 0xC76C51A3, 193);
      case 4 => assert K[44] == 0xD192E819 && IsCubeRoot(5, 0xD192E819, 197);
      case 5 => assert K[45] == 0xD6990624 && IsCubeRoot(5, 0xD6990624, 199);
      case 6 => assert K[46] == 0xF40E3585 && IsCubeRoot(5, 0xF40E3585, 211);
      case _ => assert K[47] == 0x106AA070 && IsCubeRoot(6, 0x106AA070, 223);
    }
  }

  lemma CubeRoots6(j: nat)
    requires j < 8
    ensures FromCubeRoot(K[48 + j], PrimeRow(6)[j])
  {
    match j {
      case 0 => assert K[48] == 0x19A4C116 && IsCubeRoot(6, 0x19A4C116, 227);
      case 1 => assert K[49] == 0x1E376C08 && IsCubeRoot(6, 0x1E376C08, 229);
      case 2 => assert K[50] == 0x2748774C && IsCubeRoot(6, 0x2748774C, 233);
      case 3 => assert K[51] == 0x34B0BCB5 && IsCubeRoot(6, 0x34B0BCB5, 239);
      case 4 => assert K[52] == 0x391C0CB3 && IsCubeRoot(6, 0x391C0CB3, 241);
      case 5 => assert K[53] == 0x4ED8AA4A && IsCubeRoot(6, 0x4ED8AA4A, 251);
      case 6 => assert K[54] == 0x5B9CCA4F && IsCubeRoot(6, 0x5B9CCA4F, 257);
      case _ => assert K[55] == 0x682E6FF3 && IsCubeRoot(6, 0x682E6FF3, 263);
    }
  }

  lemma CubeRoots7(j: nat)
    requires j < 8
    ensures FromCubeRoot(K[56 + j], PrimeRow(7)[j])
  {
    match j {
      case 0 => assert K[56] == 0x748F82EE && IsCubeRoot(6, 0x748F82EE, 269);
      case 1 => assert K[57] == 0x78A5636F && IsCubeRoot(6, 0x78A5636F, 271);
      case 2 => assert K[58] == 0x84C87814 && IsCubeRoot(6, 0x84C87814, 277);
      case 3 => assert K[59] == 0x8CC70208 && IsCubeRoot(6, 0x8CC70208, 281);
      case 4 => assert K[60] == 0x90BEFFFA && IsCubeRoot(6, 0x90BEFFFA, 283);
      case 5 => assert K[61] == 0xA4506CEB && IsCubeRoot(6, 0xA4506CEB, 293);
      case 6 => assert K[62] == 0xBEF9A3F7 && IsCubeRoot(6, 0xBEF9A3F7, 307);
      case _ => assert K[63] == 0xC67178F2 && IsCubeRoot(6, 0xC67178F2, 311);
    }
  }

  /** Round constant t is made of the cube root of the t-th prime, for all 64 of them. */
  lemma ConstantsAreCubeRoots(t: nat)
    requires t < 64
    ensures FromCubeRoot(K[t], Prime(t))
  {
    hide PrimeRow, K, FromCubeRoot;
    assert t == 8 * (t / 8) + t % 8;
    match t / 8 {
      case 0 => CubeRoots0(t % 8);
      case 1 => CubeRoots1(t % 8);
      case 2 => CubeRoots2(t % 8);
      case 3 => CubeRoots3(t % 8);
      case 4 => CubeRoots4(t % 8);
      case 5 => CubeRoots5(t % 8);
      case 6 => CubeRoots6(t % 8);
      case 7 => CubeRoots7(t % 8);
    }
  }

  // ---- Section 5.3.3 ----

  function Square(x: nat): nat {
    x * x
  }

  predicate IsSquareRoot(n: nat, k: word, p: nat) {
    Square(n * 0x1_0000_0000 + k as int) <= p * 0x1_0000_0000_0000_0000 < Square(n * 0x1_0000_0000 + k as int + 1)
  }

  predicate FromSquareRoot(k: word, p: nat) {
    exists n :: 0 <= n < 8 && IsSquareRoot(n, k, p)
  }

  /** The initial hash value is made of the square roots of the first eight primes. */
  lemma InitialValueIsSquareRoots(i: nat)
    requires i < 8
    ensures FromSquareRoot(RegsWords(H0)[i], Prime(i))
  {
    match i {

      case 0 => assert IsSquareRoot(1, 0x6A09E667, 2);
      case 1 => assert IsSquareRoot(1, 0xBB67AE85, 3);
      case 2 => assert IsSquareRoot(2, 0x3C6EF372, 5);
      case 3 => assert IsSquareRoot(2, 0xA54FF53A, 7);
      case 4 => assert IsSquareRoot(3, 0x510E527F, 11);
      case 5 => assert IsSquareRoot(3, 0x9B05688C, 13);
      case 6 => assert IsSquareRoot(4, 0x1F83D9AB, 17);
      case 7 => assert IsSquareRoot(4, 0x5BE0CD19, 19);
    }
  }}
