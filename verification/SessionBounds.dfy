/** How many callbacks the sessions of a bot may still handle, all together.

    Each live session may handle as many as its weight, which module Failover proves to fall with each of them; the load
    of a bot is their sum. A start adds no more than the bounds of its candidates to it, and a callback takes at least
    one away, whatever becomes of its session.
*/
module SessionBounds {
  import opened Failover
  import opened Sessions

  function Sum(ns: seq<nat>): nat {
    if ns == [] then 0 else ns[0] + Sum(ns[1..])
  }

  lemma {:induction false} SumSnoc(ns: seq<nat>, x: nat)
    ensures Sum(ns + [x]) == Sum(ns) + x
  {
    if ns == [] {
      assert [] + [x] == [x] && [x][1..] == [];
    } else {
      assert (ns + [x])[1..] == ns[1..] + [x];
      SumSnoc(ns[1..], x);
    }
  }

  lemma {:induction false} SumUpdate(ns: seq<nat>, i: nat, x: nat)
    requires i < |ns|
    ensures Sum(ns[i := x]) + ns[i] == Sum(ns) + x
  {
    if i == 0 {
      assert ns[0 := x][1..] == ns[1..];
    } else {
      assert ns[i := x][1..] == ns[1..][i - 1 := x];
      SumUpdate(ns[1..], i - 1, x);
    }
  }

  function WeightOf<C, L>(bound: C -> nat, cost: (C, L) -> nat, b: Bot<C, L>, n: nat): nat {
    if n in b.live && b.live[n].session.index < |b.live[n].session.cands| then Weight(bound, cost, b.live[n].session)
    else 0
  }

  /** By session, the first one first. */
  function Weights<C, L>(bound: C -> nat, cost: (C, L) -> nat, b: Bot<C, L>): (ns: seq<nat>)
    ensures |ns| == b.started
  {
    seq(b.started, i requires 0 <= i < b.started => WeightOf(bound, cost, b, i + 1))
  }

  /** The callbacks that the live sessions may still handle. */
  function Load<C, L>(bound: C -> nat, cost: (C, L) -> nat, b: Bot<C, L>): nat {
    Sum(Weights(bound, cost, b))
  }

  /** From b to c only session n changes. */
  ghost predicate OnlyChanges<C, L>(b: Bot<C, L>, c: Bot<C, L>, n: nat) {
    forall k :: k != n ==> (k in c.live <==> k in b.live) && (k in c.live ==> c.live[k] == b.live[k])
  }

  lemma OldLoad<C, L>(bound: C -> nat, cost: (C, L) -> nat, b: Bot<C, L>, c: Bot<C, L>, n: nat)
    requires OnlyChanges(b, c, n) && 1 <= n <= b.started == c.started
    ensures Load(bound, cost, c) + WeightOf(bound, cost, b, n) == Load(bound, cost, b) + WeightOf(bound, cost, c, n)
  {
    hide Weight;
    var ns, x := Weights(bound, cost, b), WeightOf(bound, cost, c, n);
    assert Weights(bound, cost, c) == ns[n - 1 := x];
    hide WeightOf, OnlyChanges;
    SumUpdate(ns, n - 1, x);
  }

  lemma NewLoad<C, L>(bound: C -> nat, cost: (C, L) -> nat, b: Bot<C, L>, c: Bot<C, L>)
    requires OnlyChanges(b, c, b.started + 1) && c.started == b.started + 1
    ensures Load(bound, cost, c) == Load(bound, cost, b) + WeightOf(bound, cost, c, c.started)
  {
    hide Weight;
    var ns, x := Weights(bound, cost, b), WeightOf(bound, cost, c, c.started);
    assert Weights(bound, cost, c) == ns + [x];
    hide WeightOf, OnlyChanges;
    SumSnoc(ns, x);
  }

  lemma StartChanges<C, L, R, W>(p: Protocol<C, L, R, W>, b: Bot<C, L>, message: Message, cands: seq<C>, w: W)
    ensures var c := Start(p, b, message, cands, w);
            && c.started == b.started + 1 && OnlyChanges(b, c, c.started)
            && (c.started in c.live && c.started !in b.live ==>
                  StartNext(p, cands, 0, [], w) == Waiting(c.live[c.started].session))
  {
    hide StartNext;
  }

  /** A start adds no more than the bounds of its candidates. */
  lemma StartLoad<C(!new), L(!new), R(!new), W(!new)>(
      p: Protocol<C, L, R, W>, b: Bot<C, L>, message: Message, cands: seq<C>, w: W, bound: C -> nat,
      cost: (C, L) -> nat)
    requires Bounded(p, bound, cost) && Consistent(b)
    ensures Load(bound, cost, Start(p, b, message, cands, w)) <= Load(bound, cost, b) + SumOfBounds(bound, cands)
  {
    var c := Start(p, b, message, cands, w);
    assert b.started + 1 !in b.live;
    assert cands[..0] == [] && cands[0..] == cands;
    hide Bounded, Consistent, StartNext, Start;
    StartNextBounded(p, cands, 0, w, bound, cost);
    StartChanges(p, b, message, cands, w);
    hide Load, OnlyChanges, SumOfBounds, Sound;
    NewLoad(bound, cost, b, c);
  }

  lemma CompleteChanges<C, L, R, W>(p: Protocol<C, L, R, W>, b: Bot<C, L>, n: nat, r: R, w: W)
    requires n in b.live && b.live[n].session.index < |b.live[n].session.cands|
    ensures var c := Complete(p, b, n, r, w);
            && c.started == b.started && OnlyChanges(b, c, n)
            && (n in c.live ==> OnDone(p, b.live[n].session, r, w) == Silent
                                || OnDone(p, b.live[n].session, r, w) == Waiting(c.live[n].session))
  {
    hide OnDone, IsOutdated;
  }

  /** A callback takes at least one away. */
  lemma CompleteLoad<C(!new), L(!new), R(!new), W(!new)>(
      p: Protocol<C, L, R, W>, b: Bot<C, L>, n: nat, r: R, w: W, bound: C -> nat, cost: (C, L) -> nat)
    requires Bounded(p, bound, cost) && Consistent(b) && n in b.outstanding
    ensures n in b.live && b.live[n].session.index < |b.live[n].session.cands|
    ensures NeverSilent(p, b.live[n].session.cands) ==>
              Load(bound, cost, Complete(p, b, n, r, w)) < Load(bound, cost, b)
  {
    Taken(b, n);
    var s, c := b.live[n].session, Complete(p, b, n, r, w);
    assert 1 <= n <= b.started && s.index < |s.cands|;
    if NeverSilent(p, s.cands) {
      hide Bounded, Consistent, OnDone, InHand, Complete, NeverSilent;
      OnDoneBounded(p, s, r, w, bound, cost);
      OnDoneSpeaks(p, s, r, w);
      CompleteChanges(p, b, n, r, w);
      hide Load, OnlyChanges, Sound, SumOfBounds;
      OldLoad(bound, cost, b, c, n);
    }
  }

  lemma NewBotLoad<C, L>(bound: C -> nat, cost: (C, L) -> nat)
    ensures Load(bound, cost, NewBot<C, L>()) == 0
  {
  }
}
