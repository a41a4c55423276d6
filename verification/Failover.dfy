/** The protocol that the bots share: a session walks through its candidates, one HTTP request at a time. */
module Failover {
  // It is driven by completions. fanyibot.cpp, aigptbot.cpp and pasteuploader.cpp are instances of Protocol.

  import opened Options
  import opened Permutations

  /** What a candidate does next: hand the session to the poller with a request, succeed, give way to the next
      candidate, end the session at once, or return without any of these. */
  datatype Move<L> = Ask(local: L) | Win(text: string) | Lose | Quit | Nothing

  /** C: candidates. L: what the session keeps about the current candidate. R: a completion. W: the world (credentials,
      caches) as it is while a completion is handled. */
  datatype Protocol<!C, !L, !R, !W> = Protocol(begin: (C, W) -> Move<L>, react: (C, L, R, W) -> Move<L>)

  datatype Session<C, L> = Session(cands: seq<C>, index: nat, local: L, tried: seq<C>)

  datatype Outcome<C, L> =
    | Waiting(session: Session<C, L>)
    | Succeeded(text: string, used: C)
    | Failed(tried: seq<C>)
    | Rejected(used: C)
    | Silent

  // ---- The session driven by callbacks ----

  function StartNext<C, L, R, W>(p: Protocol<C, L, R, W>, cands: seq<C>, index: nat, tried: seq<C>, w: W): Outcome<C, L>
    requires index <= |cands|
    decreases |cands| - index
  {
    if index == |cands| then Failed(tried)
    else
      match p.begin(cands[index], w)
      case Ask(l) => Waiting(Session(cands, index, l, tried + [cands[index]]))
      case Win(text) => Succeeded(text, cands[index])
      case Lose => StartNext(p, cands, index + 1, tried + [cands[index]], w)
      case Quit => Rejected(cands[index])
      case Nothing => Silent
  }

  /** The session goes on with a move of candidate index; tried includes that candidate. */
  function Follow<C, L, R, W>(p: Protocol<C, L, R, W>, cands: seq<C>, index: nat, tried: seq<C>, m: Move<L>, w: W)
    : Outcome<C, L>
    requires index < |cands|
  {
    match m
    case Ask(l) => Waiting(Session(cands, index, l, tried))
    case Win(text) => Succeeded(text, cands[index])
    case Lose => StartNext(p, cands, index + 1, tried, w)
    case Quit => Rejected(cands[index])
    case Nothing => Silent
  }

  function OnDone<C, L, R, W>(p: Protocol<C, L, R, W>, s: Session<C, L>, r: R, w: W): Outcome<C, L>
    requires s.index < |s.cands|
  {
    Follow(p, s.cands, s.index, s.tried, p.react(s.cands[s.index], s.local, r, w), w)
  }

  /** A session between two completions: the tried candidates are those up to the current one. */
  predicate Sound<C(==), L(==)>(o: Outcome<C, L>, cands: seq<C>) {
    match o
    case Waiting(s) => s.cands == cands && s.index < |cands| && s.tried == cands[..s.index + 1]
    case Succeeded(_, used) => used in cands
    case Failed(tried) => tried == cands
    case Rejected(used) => used in cands
    case Silent => true
  }

  lemma {:induction false} StartNextSound<C, L, R, W>(p: Protocol<C, L, R, W>, cands: seq<C>, index: nat, w: W)
    requires index <= |cands|
    ensures Sound(StartNext(p, cands, index, cands[..index], w), cands)
    decreases |cands| - index
  {
    if index < |cands| {
      assert cands[..index] + [cands[index]] == cands[..index + 1];
      if p.begin(cands[index], w).Lose? {
        StartNextSound(p, cands, index + 1, w);
      }
    } else {
      assert cands[..index] == cands;
    }
  }

  lemma OnDoneSound<C, L, R, W>(p: Protocol<C, L, R, W>, s: Session<C, L>, r: R, w: W)
    requires Sound(Waiting(s), s.cands)
    ensures Sound(OnDone(p, s, r, w), s.cands)
  {
    StartNextSound(p, s.cands, s.index + 1, w);
  }

  /** The completions one after the other, as long as the session waits for one. */
  function Drive<C(==), L(==), R, W>(p: Protocol<C, L, R, W>, o: Outcome<C, L>, inputs: seq<(R, W)>): Outcome<C, L>
    requires o.Waiting? ==> Sound(o, o.session.cands)
    decreases |inputs|
  {
    if !o.Waiting? || inputs == [] then o
    else
      OnDoneSound(p, o.session, inputs[0].0, inputs[0].1);
      Drive(p, OnDone(p, o.session, inputs[0].0, inputs[0].1), inputs[1..])
  }

  /** Completions may come in two parts: those that the poller delivers before addRequest returns, and later ones. */
  lemma {:induction false} DriveInParts<C, L, R, W>(p: Protocol<C, L, R, W>, o: Outcome<C, L>, now: seq<(R, W)>,
                                                   later: seq<(R, W)>)
    requires o.Waiting? ==> Sound(o, o.session.cands)
    ensures var half := Drive(p, o, now);
            (half.Waiting? ==> Sound(half, half.session.cands)) && Drive(p, o, now + later) == Drive(p, half, later)
    decreases |now|
  {
    if now == [] {
      assert now + later == later;
    } else if o.Waiting? {
      OnDoneSound(p, o.session, now[0].0, now[0].1);
      assert (now + later)[1..] == now[1..] + later;
      DriveInParts(p, OnDone(p, o.session, now[0].0, now[0].1), now[1..], later);
    }
  }

  /** The session from candidate index on, with the completions that come in at once. */
  function Begun<C(==), L(==), R, W>(p: Protocol<C, L, R, W>, cands: seq<C>, index: nat, inputs: seq<(R, W)>,
                                     w: W): Outcome<C, L>
    requires index <= |cands|
  {
    StartNextSound(p, cands, index, w);
    Drive(p, StartNext(p, cands, index, cands[..index], w), inputs)
  }

  /** The same after a move of candidate index. */
  function Followed<C(==), L(==), R, W>(p: Protocol<C, L, R, W>, cands: seq<C>, index: nat, m: Move<L>,
                                        inputs: seq<(R, W)>, w: W)
    : Outcome<C, L>
    requires index < |cands|
  {
    StartNextSound(p, cands, index + 1, w);
    Drive(p, Follow(p, cands, index, cands[..index + 1], m, w), inputs)
  }

  lemma BegunStep<C, L, R, W>(p: Protocol<C, L, R, W>, cands: seq<C>, index: nat, inputs: seq<(R, W)>, w: W)
    requires index <= |cands|
    ensures Begun(p, cands, index, inputs, w) ==
            if index == |cands| then Failed(cands) else Followed(p, cands, index, p.begin(cands[index], w), inputs, w)
  {
    if index == |cands| {
      assert cands[..index] == cands;
    } else {
      assert cands[..index] + [cands[index]] == cands[..index + 1];
    }
  }

  lemma FollowedStep<C, L, R, W>(p: Protocol<C, L, R, W>, cands: seq<C>, index: nat, m: Move<L>,
                                 inputs: seq<(R, W)>, w: W)
    requires index < |cands|
    ensures Followed(p, cands, index, m, inputs, w) ==
            match m {
              case Ask(l) =>
                if inputs == [] then Waiting(Session(cands, index, l, cands[..index + 1]))
                else Followed(p, cands, index, p.react(cands[index], l, inputs[0].0, inputs[0].1), inputs[1..],
                              inputs[0].1)
              case Win(text) => Succeeded(text, cands[index])
              case Lose => Begun(p, cands, index + 1, inputs, w)
              case Quit => Rejected(cands[index])
              case Nothing => Silent
            }
  {
  }

  // ---- The sequential reading: try the candidates in turn ----

  /** How the script of a single candidate ends: with a text, with a failure that leaves inputs for the next one,
      with the end of the session, or not yet. */
  datatype Verdict<L, R, W> = Won(text: string) | Lost(rest: seq<(R, W)>, world: W) | Ended(quit: bool) | Open(local: L)

  function Script<C, L, R, W>(p: Protocol<C, L, R, W>, c: C, m: Move<L>, inputs: seq<(R, W)>, w: W): Verdict<L, R, W>
    decreases |inputs|
  {
    match m
    case Win(text) => Won(text)
    case Lose => Lost(inputs, w)
    case Quit => Ended(true)
    case Nothing => Ended(false)
    case Ask(l) =>
      if inputs == [] then Open(l)
      else Script(p, c, p.react(c, l, inputs[0].0, inputs[0].1), inputs[1..], inputs[0].1)
  }

  function WholeScript<C, L, R, W>(p: Protocol<C, L, R, W>, c: C, inputs: seq<(R, W)>, w: W): Verdict<L, R, W> {
    Script(p, c, p.begin(c, w), inputs, w)
  }

  /** What is left for candidate k once all before it have failed, each on what the one before left. */
  function AfterLosses<C, L, R, W>(p: Protocol<C, L, R, W>, cands: seq<C>, k: nat, inputs: seq<(R, W)>, w: W)
    : Option<(seq<(R, W)>, W)>
    requires k <= |cands|
  {
    if k == 0 then Some((inputs, w))
    else
      match AfterLosses(p, cands, k - 1, inputs, w)
      case None => None
      case Some((rest, v)) =>
        match WholeScript(p, cands[k - 1], rest, v)
        case Lost(left, u) => Some((left, u))
        case _ => None
  }

  /** Candidate by candidate, from number k on. */
  function FirstThatSucceeds<C, L, R, W>(p: Protocol<C, L, R, W>, cands: seq<C>, k: nat, inputs: seq<(R, W)>, w: W)
    : Outcome<C, L>
    requires k <= |cands|
    decreases |cands| - k
  {
    if k == |cands| then Failed(cands)
    else
      match WholeScript(p, cands[k], inputs, w)
      case Won(text) => Succeeded(text, cands[k])
      case Lost(rest, v) => FirstThatSucceeds(p, cands, k + 1, rest, v)
      case Ended(quit) => if quit then Rejected(cands[k]) else Silent
      case Open(local) => Waiting(Session(cands, k, local, cands[..k + 1]))
  }

  /** A waiting session goes on as the script of its candidate does, and then as the session does from the next one. */
  lemma {:induction false} DriveIsScript<C, L, R, W>(p: Protocol<C, L, R, W>, cands: seq<C>, index: nat, l: L,
                                                     inputs: seq<(R, W)>, w: W)
    requires index < |cands|
    ensures var o := Waiting(Session(cands, index, l, cands[..index + 1]));
            match Script(p, cands[index], Ask(l), inputs, w) {
              case Won(text) => Drive(p, o, inputs) == Succeeded(text, cands[index])
              case Lost(rest, v) =>
                var next := StartNext(p, cands, index + 1, cands[..index + 1], v);
                (next.Waiting? ==> Sound(next, cands)) && Drive(p, o, inputs) == Drive(p, next, rest)
              case Ended(quit) => Drive(p, o, inputs) == if quit then Rejected(cands[index]) else Silent
              case Open(local) => Drive(p, o, inputs) == Waiting(Session(cands, index, local, cands[..index + 1]))
            }
    decreases |inputs|
  {
    StartNextSound(p, cands, index + 1, if inputs == [] then w else inputs[0].1);
    if inputs != [] {
      var c := cands[index];
      var m := p.react(c, l, inputs[0].0, inputs[0].1);
      if m.Ask? {
        DriveIsScript(p, cands, index, m.local, inputs[1..], inputs[0].1);
      }
    }
  }

  /** The session driven by callbacks is the sequential reading, for any candidates and any completions. */
  lemma {:induction false} DriveIsSequential<C, L, R, W>(p: Protocol<C, L, R, W>, cands: seq<C>, k: nat,
                                                         inputs: seq<(R, W)>, w: W)
    requires k <= |cands|
    ensures var o := StartNext(p, cands, k, cands[..k], w);
            (o.Waiting? ==> Sound(o, cands)) && Drive(p, o, inputs) == FirstThatSucceeds(p, cands, k, inputs, w)
    decreases |cands| - k
  {
    StartNextSound(p, cands, k, w);
    if k < |cands| {
      assert cands[..k] + [cands[k]] == cands[..k + 1];
      var m := p.begin(cands[k], w);
      if m.Ask? {
        DriveIsScript(p, cands, k, m.local, inputs, w);
      }
      var v := WholeScript(p, cands[k], inputs, w);
      if v.Lost? {
        DriveIsSequential(p, cands, k + 1, v.rest, v.world);
      }
    } else {
      assert cands[..k] == cands;
    }
  }

  lemma {:induction false} LossesLeadOn<C, L, R, W>(p: Protocol<C, L, R, W>, cands: seq<C>, k: nat,
                                                    inputs: seq<(R, W)>, w: W)
    requires k <= |cands|
    ensures var left := AfterLosses(p, cands, k, inputs, w);
            left.Some? ==>
              FirstThatSucceeds(p, cands, 0, inputs, w) == FirstThatSucceeds(p, cands, k, left.value.0, left.value.1)
  {
    if k > 0 {
      LossesLeadOn(p, cands, k - 1, inputs, w);
    }
  }

  /** The whole script of candidate k, run after all before it have failed. */
  predicate Wins<C, L(==), R, W>(p: Protocol<C, L, R, W>, cands: seq<C>, k: nat, inputs: seq<(R, W)>, w: W,
                                 text: string)
  {
    && k < |cands| && AfterLosses(p, cands, k, inputs, w).Some?
    && var (rest, v) := AfterLosses(p, cands, k, inputs, w).value;
       WholeScript(p, cands[k], rest, v) == Won(text)
  }

  lemma {:induction false} SomeWins<C, L, R, W>(p: Protocol<C, L, R, W>, cands: seq<C>, k: nat, inputs: seq<(R, W)>,
                                                w: W, rest: seq<(R, W)>, v: W) returns (i: nat)
    requires k <= |cands| && AfterLosses(p, cands, k, inputs, w) == Some((rest, v))
    ensures var o := FirstThatSucceeds(p, cands, k, rest, v);
            && (o.Succeeded? ==> Wins(p, cands, i, inputs, w, o.text) && o.used == cands[i])
            && (o.Failed? ==> AfterLosses(p, cands, |cands|, inputs, w).Some?)
    decreases |cands| - k
  {
    i := k;
    if k < |cands| {
      var verdict := WholeScript(p, cands[k], rest, v);
      if verdict.Lost? {
        i := SomeWins(p, cands, k + 1, inputs, w, verdict.rest, verdict.world);
      }
    }
  }

  /** A session succeeds exactly with the first candidate whose whole script succeeds, after all earlier ones failed. It
      fails exactly when all fail, and then those tried are the candidates in order. */
  lemma SucceedsExactlyWithFirst<C, L, R, W>(p: Protocol<C, L, R, W>, cands: seq<C>, inputs: seq<(R, W)>, w: W)
    ensures var o := StartNext(p, cands, 0, [], w);
            && (o.Waiting? ==> Sound(o, cands))
            && var end := Drive(p, o, inputs);
               && (forall k: nat, text :: Wins(p, cands, k, inputs, w, text) ==> end == Succeeded(text, cands[k]))
               && (end.Succeeded? ==> exists k: nat :: Wins(p, cands, k, inputs, w, end.text) && end.used == cands[k])
               && (end.Failed? <==> AfterLosses(p, cands, |cands|, inputs, w).Some?)
               && (end.Failed? ==> end.tried == cands)
  {
    assert cands[..0] == [];
    DriveIsSequential(p, cands, 0, inputs, w);
    forall k: nat, text | Wins(p, cands, k, inputs, w, text)
      ensures FirstThatSucceeds(p, cands, 0, inputs, w) == Succeeded(text, cands[k])
    {
      LossesLeadOn(p, cands, k, inputs, w);
    }
    LossesLeadOn(p, cands, |cands|, inputs, w);
    FailedWithAll(p, cands, 0, inputs, w);
    var i := SomeWins(p, cands, 0, inputs, w, inputs, w);
  }

  lemma {:induction false} FailedWithAll<C, L, R, W>(p: Protocol<C, L, R, W>, cands: seq<C>, k: nat,
                                                     inputs: seq<(R, W)>, w: W)
    requires k <= |cands|
    ensures var o := FirstThatSucceeds(p, cands, k, inputs, w); o.Failed? ==> o.tried == cands
    decreases |cands| - k
  {
    if k < |cands| {
      var verdict := WholeScript(p, cands[k], inputs, w);
      if verdict.Lost? {
        FailedWithAll(p, cands, k + 1, verdict.rest, verdict.world);
      }
    }
  }

  // ---- How many requests a session makes ----

  /** The requests handed to the poller while these completions come in. */
  function Requests<C(==), L(==), R, W>(p: Protocol<C, L, R, W>, o: Outcome<C, L>, inputs: seq<(R, W)>): nat
    requires o.Waiting? ==> Sound(o, o.session.cands)
    decreases |inputs|
  {
    if !o.Waiting? then 0
    else if inputs == [] then 1
    else
      OnDoneSound(p, o.session, inputs[0].0, inputs[0].1);
      1 + Requests(p, OnDone(p, o.session, inputs[0].0, inputs[0].1), inputs[1..])
  }

  /** A candidate that asks again makes one request more. */
  lemma RequestsStep<C, L, R, W>(p: Protocol<C, L, R, W>, s: Session<C, L>, r: R, w: W, rest: seq<(R, W)>, l: L)
    requires Sound(Waiting(s), s.cands) && p.react(s.cands[s.index], s.local, r, w) == Ask(l)
    ensures Requests(p, Waiting(s), [(r, w)] + rest) == 1 + Requests(p, Waiting(s.(local := l)), rest)
  {
    assert ([(r, w)] + rest)[1..] == rest;
  }

  /** cost bounds what may follow the request being waited for, bound all requests of one candidate. */
  ghost predicate Bounded<C(!new), L(!new), R(!new), W(!new)>(p: Protocol<C, L, R, W>, bound: C -> nat,
                                                              cost: (C, L) -> nat)
  {
    && (forall c, w :: p.begin(c, w).Ask? ==> cost(c, p.begin(c, w).local) < bound(c))
    && (forall c, l, r, w :: p.react(c, l, r, w).Ask? ==> cost(c, p.react(c, l, r, w).local) < cost(c, l))
  }

  function SumOfBounds<C>(bound: C -> nat, cands: seq<C>): nat {
    if cands == [] then 0 else bound(cands[0]) + SumOfBounds(bound, cands[1..])
  }

  lemma {:induction false} StartNextBounded<C(!new), L(!new), R(!new), W(!new)>(
      p: Protocol<C, L, R, W>, cands: seq<C>, index: nat, w: W, bound: C -> nat, cost: (C, L) -> nat)
    requires Bounded(p, bound, cost) && index <= |cands|
    ensures var o := StartNext(p, cands, index, cands[..index], w);
            o.Waiting? ==> Sound(o, cands) && index <= o.session.index
                           && 1 + cost(cands[o.session.index], o.session.local) +
                             SumOfBounds(bound, cands[o.session.index + 1..])
                              <= SumOfBounds(bound, cands[index..])
    decreases |cands| - index
  {
    StartNextSound(p, cands, index, w);
    if index < |cands| {
      assert cands[index..][1..] == cands[index + 1..];
      assert cands[..index] + [cands[index]] == cands[..index + 1];
      if p.begin(cands[index], w).Lose? {
        StartNextBounded(p, cands, index + 1, w, bound, cost);
      }
    }
  }

  /** A bound on all requests of a waiting session from the present one on. */
  function Weight<C, L>(bound: C -> nat, cost: (C, L) -> nat, s: Session<C, L>): nat
    requires s.index < |s.cands|
  {
    1 + cost(s.cands[s.index], s.local) + SumOfBounds(bound, s.cands[s.index + 1..])
  }

  lemma OnDoneBounded<C(!new), L(!new), R(!new), W(!new)>(p: Protocol<C, L, R, W>, s: Session<C, L>, r: R, w: W,
                                                         bound: C -> nat, cost: (C, L) -> nat)
    requires Bounded(p, bound, cost) && Sound(Waiting(s), s.cands)
    ensures var o := OnDone(p, s, r, w);
            o.Waiting? ==> Sound(o, s.cands) && Weight(bound, cost, o.session) < Weight(bound, cost, s)
  {
    OnDoneSound(p, s, r, w);
    var m := p.react(s.cands[s.index], s.local, r, w);
    if m.Lose? {
      StartNextBounded(p, s.cands, s.index + 1, w, bound, cost);
    }
  }

  lemma {:induction false} WaitingBounded<C(!new), L(!new), R(!new), W(!new)>(
    p: Protocol<C, L, R, W>, s: Session<C, L>, inputs: seq<(R, W)>, bound: C -> nat, cost: (C, L) -> nat)
    requires Bounded(p, bound, cost) && Sound(Waiting(s), s.cands)
    ensures Requests(p, Waiting(s), inputs) <= Weight(bound, cost, s)
    decreases |inputs|
  {
    if inputs != [] {
      OnDoneBounded(p, s, inputs[0].0, inputs[0].1, bound, cost);
      hide Weight, OnDone, Bounded;
      var o := OnDone(p, s, inputs[0].0, inputs[0].1);
      if o.Waiting? {
        WaitingBounded(p, o.session, inputs[1..], bound, cost);
      }
    }
  }

  /** Whatever completions come in, a session makes at most the sum of its candidates' bounds in requests; so it
      ends. */
  lemma RequestsBounded<C(!new), L(!new), R(!new), W(!new)>(
      p: Protocol<C, L, R, W>, cands: seq<C>, inputs: seq<(R, W)>, w: W, bound: C -> nat, cost: (C, L) -> nat)
    requires Bounded(p, bound, cost)
    ensures var o := StartNext(p, cands, 0, [], w);
            (o.Waiting? ==> Sound(o, cands)) && Requests(p, o, inputs) <= SumOfBounds(bound, cands)
  {
    assert cands[..0] == [] && cands[0..] == cands;
    StartNextBounded(p, cands, 0, w, bound, cost);
    var o := StartNext(p, cands, 0, [], w);
    if o.Waiting? {
      WaitingBounded(p, o.session, inputs, bound, cost);
    }
  }

  /** While the session waits, every completion so far answered one request. */
  lemma {:induction false} RequestsCount<C, L, R, W>(p: Protocol<C, L, R, W>, o: Outcome<C, L>, inputs: seq<(R, W)>)
    requires o.Waiting? ==> Sound(o, o.session.cands)
    ensures Requests(p, o, inputs) <= |inputs| + 1
    ensures Drive(p, o, inputs).Waiting? <==> Requests(p, o, inputs) == |inputs| + 1
    decreases |inputs|
  {
    if o.Waiting? && inputs != [] {
      OnDoneSound(p, o.session, inputs[0].0, inputs[0].1);
      RequestsCount(p, OnDone(p, o.session, inputs[0].0, inputs[0].1), inputs[1..]);
    }
  }

  /** After as many completions as the bounds allow requests, the session is over. */
  lemma SessionEnds<C(!new), L(!new), R(!new), W(!new)>(
      p: Protocol<C, L, R, W>, cands: seq<C>, inputs: seq<(R, W)>, w: W, bound: C -> nat, cost: (C, L) -> nat)
    requires Bounded(p, bound, cost) && |inputs| >= SumOfBounds(bound, cands)
    ensures var o := StartNext(p, cands, 0, [], w);
            (o.Waiting? ==> Sound(o, cands)) && !Drive(p, o, inputs).Waiting?
  {
    RequestsBounded(p, cands, inputs, w, bound, cost);
    RequestsCount(p, StartNext(p, cands, 0, [], w), inputs);
  }

  // ---- The sum of the bounds does not depend on the order of the candidates ----

  lemma {:induction false} SumInParts<C>(bound: C -> nat, s: seq<C>, t: seq<C>)
    ensures SumOfBounds(bound, s + t) == SumOfBounds(bound, s) + SumOfBounds(bound, t)
  {
    if s == [] {
      assert s + t == t;
    } else {
      assert (s + t)[1..] == s[1..] + t;
      SumInParts(bound, s[1..], t);
    }
  }

  lemma SumOfNone<C>(bound: C -> nat)
    ensures SumOfBounds(bound, []) == 0
  {
  }

  lemma SumOfOne<C>(bound: C -> nat, c: C)
    ensures SumOfBounds(bound, [c]) == bound(c)
  {
    assert [c][1..] == [];
  }

  lemma SumWithoutPlace<C>(bound: C -> nat, t: seq<C>, j: nat)
    requires j < |t|
    ensures SumOfBounds(bound, t) == SumOfBounds(bound, t[..j] + t[j + 1..]) + bound(t[j])
  {
    hide SumOfBounds;
    assert t == (t[..j] + [t[j]]) + t[j + 1..];
    SumInParts(bound, t[..j] + [t[j]], t[j + 1..]);
    SumInParts(bound, t[..j], [t[j]]);
    SumInParts(bound, t[..j], t[j + 1..]);
    SumOfOne(bound, t[j]);
  }

  lemma {:induction false} SumOfPermutation<C>(bound: C -> nat, s: seq<C>, t: seq<C>)
    requires multiset(s) == multiset(t)
    ensures SumOfBounds(bound, s) == SumOfBounds(bound, t)
  {
    if s == [] {
      assert |t| == |multiset(t)| == 0;
    } else {
      assert s[0] in multiset(s);
      var j := PlaceOf(t, s[0]);
      WithoutPlace(t, j);
      WithoutPlace(s, 0);
      SumWithoutPlace(bound, t, j);
      SumWithoutPlace(bound, s, 0);
      hide SumOfBounds;
      var rest, left := t[..j] + t[j + 1..], s[..0] + s[1..];
      SumOfPermutation(bound, left, rest);
    }
  }
}
