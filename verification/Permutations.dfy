/** Sequences without repetition, and their permutations: what a shuffle of candidates may return.

    A bot asked for no engine in particular orders its candidates at random; what it promises must hold of every order
    that may come out.
*/
module Permutations {
  predicate Distinct<T(==)>(s: seq<T>) {
    forall i, j :: 0 <= i < j < |s| ==> s[i] != s[j]
  }

  lemma {:induction false} CountsAtMostOne<T>(s: seq<T>, x: T)
    requires Distinct(s)
    ensures multiset(s)[x] == if x in s then 1 else 0
  {
    if s != [] {
      CountsAtMostOne(s[1..], x);
      assert s == [s[0]] + s[1..];
    }
  }

  lemma {:induction false} DistinctByCount<T>(s: seq<T>)
    requires forall x :: x in s ==> multiset(s)[x] == 1
    ensures Distinct(s)
  {
    if s != [] {
      assert s == [s[0]] + s[1..];
      assert multiset(s) == multiset{s[0]} + multiset(s[1..]);
      forall x | x in s[1..] ensures multiset(s[1..])[x] == 1 && x != s[0] {
        assert x in multiset(s[1..]);
        assert multiset(s)[x] == 1;
      }
      DistinctByCount(s[1..]);
      forall j | 0 < j < |s| ensures s[j] != s[0] {
        assert s[j] == s[1..][j - 1];
        assert s[j] in s[1..];
      }
      assert forall i, j :: 0 < i < j < |s| ==> s[i] == s[1..][i - 1] && s[j] == s[1..][j - 1];
    }
  }

  lemma PermutationOfDistinct<T>(s: seq<T>, t: seq<T>)
    requires Distinct(s) && multiset(t) == multiset(s)
    ensures Distinct(t) && forall x :: x in t <==> x in s
  {
    forall x: T ensures x in t <==> x in s {
      assert x in t <==> x in multiset(t);
      assert x in s <==> x in multiset(s);
    }
    forall x | x in t ensures multiset(t)[x] == 1 {
      CountsAtMostOne(s, x);
    }
    DistinctByCount(t);
  }

  /** Two sequences without repetition that have the same elements are permutations of each other. */
  lemma SameElements<T>(s: seq<T>, t: seq<T>)
    requires Distinct(s) && Distinct(t) && forall x :: x in s <==> x in t
    ensures multiset(s) == multiset(t)
  {
    forall x: T ensures multiset(s)[x] == multiset(t)[x] {
      CountsAtMostOne(s, x);
      CountsAtMostOne(t, x);
    }
  }

  lemma WithoutPlace<C>(t: seq<C>, j: nat)
    requires j < |t|
    ensures multiset(t[..j] + t[j + 1..]) == multiset(t) - multiset{t[j]}
  {
    assert t == (t[..j] + [t[j]]) + t[j + 1..];
  }

  lemma PlaceOf<C>(t: seq<C>, c: C) returns (j: nat)
    requires c in multiset(t)
    ensures j < |t| && t[j] == c
  {
    j :| j < |t| && t[j] == c;
  }
}
