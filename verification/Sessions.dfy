/** All sessions of a bot together: the list of live ones, the requests in the poller that carry them, and the
    results. */
module Sessions {
  // The list, removal and the test for a newer session are the same in fanyibot.cpp:260-306, aigptbot.cpp:267-313 and
  // pasteuploader.cpp:210-253.

  import opened Options
  import opened Failover

  /** The message a session answers: chat, kind of chat, place in it. */
  datatype Message = Message(chatId: int, chatType: string, localId: int)

  datatype Entry<C, L> = Entry(message: Message, session: Session<C, L>)

  /** live: by sequence number. outstanding: the sessions that requests in the poller refer to. started: the last
      sequence number. posted and discarded: what became of the sessions that are over, in order. */
  datatype Bot<C, L> = Bot(live: map<nat, Entry<C, L>>, outstanding: multiset<nat>, started: nat,
                           posted: seq<(nat, Outcome<C, L>)>, discarded: seq<nat>)

  /** A newer session for the same message is live. */
  predicate IsOutdated<C, L>(b: Bot<C, L>, n: nat)
    requires n in b.live
  {
    exists o :: o in b.live && o > n && b.live[o].message == b.live[n].message
  }

  /** After a session has run until it waits or is over: its request is with the poller, or its result is posted. */
  function Settle<C, L>(b: Bot<C, L>, n: nat, message: Message, o: Outcome<C, L>): Bot<C, L> {
    match o
    case Waiting(s) => b.(live := b.live[n := Entry(message, s)], outstanding := b.outstanding + multiset{n})
    case Silent => b
    case _ => b.(live := b.live - {n}, posted := b.posted + [(n, o)])
  }

  function Start<C, L, R, W>(p: Protocol<C, L, R, W>, b: Bot<C, L>, message: Message, cands: seq<C>, w: W): Bot<C, L> {
    Settle(b.(started := b.started + 1), b.started + 1, message, StartNext(p, cands, 0, [], w))
  }

  /** The completion of a request that carries session n. */
  function Complete<C, L, R, W>(p: Protocol<C, L, R, W>, b: Bot<C, L>, n: nat, r: R, w: W): Bot<C, L>
    requires n in b.live && b.live[n].session.index < |b.live[n].session.cands|
  {
    var answered := b.(outstanding := b.outstanding - multiset{n});
    if IsOutdated(b, n) then answered.(live := b.live - {n}, discarded := b.discarded + [n])
    else Settle(answered, n, b.live[n].message, OnDone(p, b.live[n].session, r, w))
  }

  function Numbers<C, L>(posted: seq<(nat, Outcome<C, L>)>): (ns: seq<nat>)
    ensures |ns| == |posted|
  {
    seq(|posted|, i requires 0 <= i < |posted| => posted[i].0)
  }

  /** How often session n is over, with a result or discarded. */
  function TimesOver<C, L>(b: Bot<C, L>, n: nat): nat {
    multiset(Numbers(b.posted))[n] + multiset(b.discarded)[n]
  }

  /** The sessions of the list stand at one of their candidates. */
  ghost predicate Standing<C, L>(live: map<nat, Entry<C, L>>, started: nat) {
    forall n :: n in live ==> 1 <= n <= started && Sound(Waiting(live[n].session), live[n].session.cands)
  }

  /** Of the sessions started, those not in keys are over exactly once, and no others. */
  ghost predicate OverOnce<C, L>(b: Bot<C, L>, keys: set<nat>) {
    forall n: nat :: TimesOver(b, n) == if 1 <= n <= b.started && n !in keys then 1 else 0
  }

  /** Each live session is carried by exactly one request and stands at a candidate; each session started is live, or
      over exactly once. */
  ghost predicate Consistent<C, L>(b: Bot<C, L>) {
    b.outstanding == multiset(b.live.Keys) && Standing(b.live, b.started) && OverOnce(b, b.live.Keys)
  }

  function NewBot<C, L>(): Bot<C, L> {
    Bot(map[], multiset{}, 0, [], [])
  }

  /** Session n has no request at the moment; all the rest is consistent. */
  ghost predicate InHand<C, L>(b: Bot<C, L>, n: nat) {
    && 1 <= n <= b.started && b.outstanding == multiset(b.live.Keys - {n})
    && Standing(b.live - {n}, b.started) && OverOnce(b, b.live.Keys + {n})
  }

  lemma Posts<C, L>(b: Bot<C, L>, n: nat, o: Outcome<C, L>)
    requires InHand(b, n)
    ensures Consistent(b.(live := b.live - {n}, posted := b.posted + [(n, o)]))
  {
    hide Standing;
    var c := b.(live := b.live - {n}, posted := b.posted + [(n, o)]);
    assert Numbers(c.posted) == Numbers(b.posted) + [n];
    forall k: nat ensures TimesOver(c, k) == TimesOver(b, k) + if k == n then 1 else 0 {
    }
    assert c.live.Keys == b.live.Keys - {n};
  }

  lemma Discards<C, L>(b: Bot<C, L>, n: nat)
    requires InHand(b, n)
    ensures Consistent(b.(live := b.live - {n}, discarded := b.discarded + [n]))
  {
    hide Standing;
    var c := b.(live := b.live - {n}, discarded := b.discarded + [n]);
    forall k: nat ensures TimesOver(c, k) == TimesOver(b, k) + if k == n then 1 else 0 {
    }
    assert c.live.Keys == b.live.Keys - {n};
  }

  lemma Waits<C, L>(b: Bot<C, L>, n: nat, e: Entry<C, L>)
    requires InHand(b, n) && Sound(Waiting(e.session), e.session.cands)
    ensures Consistent(b.(live := b.live[n := e], outstanding := b.outstanding + multiset{n}))
  {
    var c := b.(live := b.live[n := e], outstanding := b.outstanding + multiset{n});
    StandingWith(b.live, n, e, b.started);
    hide Standing;
    assert c.live.Keys == b.live.Keys + {n} == (b.live.Keys - {n}) + {n};
    KeysWith(b.live.Keys - {n}, n);
    assert forall k: nat :: TimesOver(c, k) == TimesOver(b, k);
  }

  lemma StandingWith<C, L>(live: map<nat, Entry<C, L>>, n: nat, e: Entry<C, L>, started: nat)
    requires Standing(live - {n}, started) && 1 <= n <= started && Sound(Waiting(e.session), e.session.cands)
    ensures Standing(live[n := e], started)
  {
    hide Sound;
    forall k | k in live && k != n ensures (live - {n})[k] == live[n := e][k] {
      assert k in live - {n};
    }
  }

  lemma KeysWith(keys: set<nat>, n: nat)
    requires n !in keys
    ensures multiset(keys) + multiset{n} == multiset(keys + {n})
  {
  }

  /** A session just created, or taken from its request, settles. */
  lemma SettleConsistent<C, L>(b: Bot<C, L>, n: nat, message: Message, o: Outcome<C, L>, cands: seq<C>)
    requires InHand(b, n) && !o.Silent? && Sound(o, cands)
    ensures Consistent(Settle(b, n, message, o))
  {
    hide InHand, Consistent;
    match o
    case Waiting(s) => Waits(b, n, Entry(message, s));
    case _ => Posts(b, n, o);
  }

  /** No candidate returns without a request and without a result. */
  ghost predicate NeverSilent<C(!new), L(!new), R(!new), W(!new)>(p: Protocol<C, L, R, W>, cands: seq<C>) {
    && (forall c, w :: c in cands ==> !p.begin(c, w).Nothing?)
    && (forall c, l, r, w :: c in cands ==> !p.react(c, l, r, w).Nothing?)
  }

  lemma {:induction false} StartNextSpeaks<C(!new), L(!new), R(!new), W(!new)>(p: Protocol<C, L, R, W>, cands: seq<C>,
                                                                              index: nat, tried: seq<C>, w: W)
    requires NeverSilent(p, cands) && index <= |cands|
    ensures !StartNext(p, cands, index, tried, w).Silent?
    decreases |cands| - index
  {
    if index < |cands| {
      assert cands[index] in cands;
      if p.begin(cands[index], w).Lose? {
        StartNextSpeaks(p, cands, index + 1, tried + [cands[index]], w);
      }
    }
  }

  lemma OnDoneSpeaks<C(!new), L(!new), R(!new), W(!new)>(p: Protocol<C, L, R, W>, s: Session<C, L>, r: R, w: W)
    requires NeverSilent(p, s.cands) && Sound(Waiting(s), s.cands)
    ensures !OnDone(p, s, r, w).Silent? && Sound(OnDone(p, s, r, w), s.cands)
    ensures OnDone(p, s, r, w).Waiting? ==> OnDone(p, s, r, w).session.cands == s.cands
  {
    OnDoneSound(p, s, r, w);
    assert s.cands[s.index] in s.cands;
    StartNextSpeaks(p, s.cands, s.index + 1, s.tried, w);
  }

  lemma StartConsistent<C(!new), L(!new), R(!new), W(!new)>(p: Protocol<C, L, R, W>, b: Bot<C, L>, message: Message,
                                                           cands: seq<C>, w: W)
    requires Consistent(b) && NeverSilent(p, cands)
    ensures Consistent(Start(p, b, message, cands, w))
  {
    assert cands[..0] == [];
    StartNextSound(p, cands, 0, w);
    StartNextSpeaks(p, cands, 0, [], w);
    Created(b);
    hide InHand, Consistent, Sound, NeverSilent;
    SettleConsistent(b.(started := b.started + 1), b.started + 1, message, StartNext(p, cands, 0, [], w), cands);
  }

  lemma Created<C, L>(b: Bot<C, L>)
    requires Consistent(b)
    ensures InHand(b.(started := b.started + 1), b.started + 1)
  {
    hide Sound;
    var c, n := b.(started := b.started + 1), b.started + 1;
    assert n !in b.live;
    assert c.live.Keys - {n} == c.live.Keys && c.live - {n} == c.live;
    assert forall k: nat :: TimesOver(c, k) == TimesOver(b, k);
  }

  lemma Taken<C, L>(b: Bot<C, L>, n: nat)
    requires Consistent(b) && n in b.outstanding
    ensures n in b.live && Sound(Waiting(b.live[n].session), b.live[n].session.cands) && n !in b.discarded
    ensures InHand(b.(outstanding := b.outstanding - multiset{n}), n)
  {
    assert n in multiset(b.live.Keys);
    var c := b.(outstanding := b.outstanding - multiset{n});
    assert TimesOver(b, n) == 0;
    hide Sound;
    assert c.live.Keys + {n} == c.live.Keys;
    assert forall k: nat :: TimesOver(c, k) == TimesOver(b, k);
  }

  /** A completion finds its session standing at a candidate, so the removals for an index out of range are unreachable,
      and all stays consistent. */
  lemma CompleteConsistent<C(!new), L(!new), R(!new), W(!new)>(
      p: Protocol<C, L, R, W>, b: Bot<C, L>, n: nat, r: R, w: W)
    requires Consistent(b) && n in b.outstanding
    ensures n in b.live && b.live[n].session.index < |b.live[n].session.cands|
    ensures NeverSilent(p, b.live[n].session.cands) ==> Consistent(Complete(p, b, n, r, w))
  {
    Taken(b, n);
    var s := b.live[n].session;
    if NeverSilent(p, s.cands) {
      OnDoneSpeaks(p, s, r, w);
      hide InHand, Consistent, NeverSilent, OnDone;
      var taken := b.(outstanding := b.outstanding - multiset{n});
      Discards(taken, n);
      SettleConsistent(taken, n, b.live[n].message, OnDone(p, s, r, w), s.cands);
    }
  }

  /** It is discarded exactly when a newer session for the same message is live; no other session is touched. */
  lemma DiscardedExactly<C(!new), L(!new), R(!new), W(!new)>(p: Protocol<C, L, R, W>, b: Bot<C, L>, n: nat, r: R, w: W)
    requires Consistent(b) && n in b.outstanding
    ensures n in b.live && b.live[n].session.index < |b.live[n].session.cands|
    ensures var c := Complete(p, b, n, r, w);
            && (n in c.discarded <==> IsOutdated(b, n))
            && forall k :: k != n ==> (k in c.live <==> k in b.live) && (k in c.live ==> c.live[k] == b.live[k])
  {
    Taken(b, n);
    hide InHand, Consistent, OnDone, IsOutdated;
  }

  /** A start adds its session to what is outstanding exactly when it waits. */
  lemma StartOutstanding<C(!new), L(!new), R(!new), W(!new)>(p: Protocol<C, L, R, W>, b: Bot<C, L>, message: Message,
                                                            cands: seq<C>, w: W)
    requires Consistent(b) && NeverSilent(p, cands)
    ensures var c, n := Start(p, b, message, cands, w), b.started + 1;
            c.outstanding == b.outstanding + if n in c.live then multiset{n} else multiset{}
  {
    StartNextSpeaks(p, cands, 0, [], w);
    hide Sound, NeverSilent, StartNext;
  }

  /** So does a completion, which takes it out first. */
  lemma CompleteOutstanding<C(!new), L(!new), R(!new), W(!new)>(
      p: Protocol<C, L, R, W>, b: Bot<C, L>, n: nat, r: R, w: W)
    requires Consistent(b) && n in b.outstanding
    ensures n in b.live && b.live[n].session.index < |b.live[n].session.cands|
    ensures NeverSilent(p, b.live[n].session.cands) ==>
              var c := Complete(p, b, n, r, w);
              b.outstanding == multiset{n} + (c.outstanding - if n in c.live then multiset{n} else multiset{})
              && (n in c.live ==> n in c.outstanding)
  {
    Taken(b, n);
    if NeverSilent(p, b.live[n].session.cands) {
      OnDoneSpeaks(p, b.live[n].session, r, w);
      hide Sound, NeverSilent, OnDone, IsOutdated, InHand, Consistent;
    }
  }

  // ---- Runs ----

  datatype Event<C, R, W> = Opening(message: Message, cands: seq<C>, w: W) | Arrive(n: nat, r: R, w: W)

  function Step<C, L, R, W>(p: Protocol<C, L, R, W>, b: Bot<C, L>, e: Event<C, R, W>): Bot<C, L>
    requires e.Arrive? ==> e.n in b.live && b.live[e.n].session.index < |b.live[e.n].session.cands|
  {
    match e
    case Opening(message, cands, w) => Start(p, b, message, cands, w)
    case Arrive(n, r, w) => Complete(p, b, n, r, w)
  }

  /** Completions arrive only for requests that are outstanding, and candidates are never silent. */
  ghost predicate Possible<C(!new), L(!new), R(!new), W(!new)>(
      p: Protocol<C, L, R, W>, b: Bot<C, L>, es: seq<Event<C, R, W>>)
    decreases |es|
  {
    |es| == 0 ||
    (match es[0] {
       case Opening(_, cands, _) => NeverSilent(p, cands)
       case Arrive(n, _, _) =>
         && n in b.outstanding && n in b.live && b.live[n].session.index < |b.live[n].session.cands|
         && NeverSilent(p, b.live[n].session.cands)
     } && Possible(p, Step(p, b, es[0]), es[1..]))
  }

  function Run<C(!new), L(!new), R(!new), W(!new)>(
      p: Protocol<C, L, R, W>, b: Bot<C, L>, es: seq<Event<C, R, W>>): Bot<C, L>
    requires Possible(p, b, es)
    decreases |es|
  {
    if |es| == 0 then b else Run(p, Step(p, b, es[0]), es[1..])
  }

  /** In every state that any interleaving of starts and completions reaches, each live session is carried by exactly
      one outstanding request, and each start has led to one result or one discard exactly when its session is not
      live. */
  lemma {:induction false} RunConsistent<C(!new), L(!new), R(!new), W(!new)>(p: Protocol<C, L, R, W>, b: Bot<C, L>,
                                                                            es: seq<Event<C, R, W>>)
    requires Consistent(b) && Possible(p, b, es)
    ensures Consistent(Run(p, b, es))
    decreases |es|
  {
    hide Consistent, Start, Complete, NeverSilent;
    if |es| > 0 {
      match es[0] {
        case Opening(message, cands, w) => StartConsistent(p, b, message, cands, w);
        case Arrive(n, r, w) => CompleteConsistent(p, b, n, r, w);
      }
      RunConsistent(p, Step(p, b, es[0]), es[1..]);
    }
  }

  // ---- What becomes of a message ----

  /** The messages of all starts, in order: session n answers the n-th of them. */
  function Messages<C, R, W>(es: seq<Event<C, R, W>>): seq<Message> {
    if |es| == 0 then [] else (if es[0].Opening? then [es[0].message] else []) + Messages(es[1..])
  }

  /** Session n answers a message that a later start answers as well. */
  ghost predicate Superseded(ms: seq<Message>, n: nat) {
    1 <= n <= |ms| && exists o :: n <= o < |ms| && ms[o] == ms[n - 1]
  }

  ghost predicate Recorded<C, L>(b: Bot<C, L>, ms: seq<Message>) {
    && |ms| == b.started
    && (forall n :: n in b.live ==> 1 <= n <= |ms| && b.live[n].message == ms[n - 1])
    && (forall n :: n in b.discarded ==> Superseded(ms, n))
  }

  lemma StartRecorded<C, L, R, W>(p: Protocol<C, L, R, W>, b: Bot<C, L>, message: Message, cands: seq<C>, w: W,
                                  ms: seq<Message>)
    requires Recorded(b, ms)
    ensures Recorded(Start(p, b, message, cands, w), ms + [message])
  {
    hide StartNext;
    forall n | n in b.discarded ensures Superseded(ms + [message], n) {
      var o :| n <= o < |ms| && ms[o] == ms[n - 1];
      assert (ms + [message])[o] == (ms + [message])[n - 1];
    }
  }

  lemma CompleteRecorded<C, L, R, W>(p: Protocol<C, L, R, W>, b: Bot<C, L>, n: nat, r: R, w: W, ms: seq<Message>)
    requires n in b.live && b.live[n].session.index < |b.live[n].session.cands| && Recorded(b, ms)
    ensures Recorded(Complete(p, b, n, r, w), ms)
  {
    hide OnDone;
    if IsOutdated(b, n) {
      var o :| o in b.live && o > n && b.live[o].message == b.live[n].message;
      assert ms[o - 1] == ms[n - 1];
    }
  }

  lemma {:induction false} RunRecorded<C(!new), L(!new), R(!new), W(!new)>(p: Protocol<C, L, R, W>, b: Bot<C, L>,
                                                                          es: seq<Event<C, R, W>>, ms: seq<Message>)
    requires Possible(p, b, es) && Recorded(b, ms)
    ensures Recorded(Run(p, b, es), ms + Messages(es))
    decreases |es|
  {
    hide Recorded, Start, Complete, NeverSilent;
    if |es| == 0 {
      assert ms + Messages(es) == ms;
    } else {
      match es[0] {
        case Opening(message, cands, w) =>
          StartRecorded(p, b, message, cands, w, ms);
          RunRecorded(p, Step(p, b, es[0]), es[1..], ms + [message]);
          assert (ms + [message]) + Messages(es[1..]) == ms + Messages(es);
        case Arrive(n, r, w) =>
          CompleteRecorded(p, b, n, r, w, ms);
          RunRecorded(p, Step(p, b, es[0]), es[1..], ms);
          assert Messages(es) == Messages(es[1..]);
      }
    }
  }

  /** Over every run: each start is live, or over exactly once, and it is discarded only for a later start that
      answers the same message. So the last start for a message always leads to a result. */
  lemma DiscardedForLater<C(!new), L(!new), R(!new), W(!new)>(p: Protocol<C, L, R, W>, es: seq<Event<C, R, W>>, n: nat)
    requires Possible(p, NewBot<C, L>(), es)
    ensures var b := Run(p, NewBot<C, L>(), es);
            && b.started == |Messages(es)|
            && (n in b.discarded ==> Superseded(Messages(es), n))
            && (1 <= n <= b.started && !Superseded(Messages(es), n) ==> (n in b.live <==> n !in Numbers(b.posted)))
  {
    var b := NewBot<C, L>();
    NewBotConsistent<C, L>();
    assert [] + Messages(es) == Messages(es);
    RunRecorded(p, b, es, []);
    RunConsistent(p, b, es);
    hide Run, Messages, Superseded, Consistent, Possible;
    OverOrLive(Run(p, b, es), n);
  }

  lemma {:induction false} DiscardedStay<C(!new), L(!new), R(!new), W(!new)>(
      p: Protocol<C, L, R, W>, b: Bot<C, L>, es: seq<Event<C, R, W>>)
    requires Possible(p, b, es)
    ensures b.discarded <= Run(p, b, es).discarded
    decreases |es|
  {
    hide StartNext, OnDone, IsOutdated, NeverSilent;
    if |es| > 0 {
      DiscardedStay(p, Step(p, b, es[0]), es[1..]);
    }
  }

  lemma OverOnceIs<C, L>(b: Bot<C, L>, n: nat)
    requires Consistent(b) && n in b.discarded
    ensures n !in Numbers(b.posted) && n !in b.live
  {
    hide Standing;
    assert TimesOver(b, n) == if 1 <= n <= b.started && n !in b.live then 1 else 0;
    assert multiset(b.discarded)[n] > 0;
    assert n in Numbers(b.posted) <==> multiset(Numbers(b.posted))[n] > 0;
  }

  /** A start after that of session n answers the same message, and its session is live. */
  ghost predicate Overtaken(live: set<nat>, ms: seq<Message>, n: nat) {
    1 <= n <= |ms| && exists o :: o in live && n < o <= |ms| && ms[o - 1] == ms[n - 1]
  }

  /** Over every run, by the messages of the starts: a completion is discarded exactly when a later start for the same
      message is live; its session is then over, and no result of it is ever posted, whatever follows. */
  lemma DiscardedForLive<C(!new), L(!new), R(!new), W(!new)>(
      p: Protocol<C, L, R, W>, es: seq<Event<C, R, W>>, n: nat, r: R, w: W, later: seq<Event<C, R, W>>)
    requires Possible(p, NewBot<C, L>(), es) && n in Run(p, NewBot<C, L>(), es).outstanding
    ensures var b := Run(p, NewBot<C, L>(), es);
            && n in b.live && b.live[n].session.index < |b.live[n].session.cands|
            && var c := Complete(p, b, n, r, w);
            && (n in c.discarded <==> Overtaken(b.live.Keys, Messages(es), n))
            && (n in c.discarded && NeverSilent(p, b.live[n].session.cands) && Possible(p, c, later) ==>
                  var e := Run(p, c, later);
                  n in e.discarded && n !in Numbers(e.posted) && n !in e.live)
  {
    var b := Run(p, NewBot<C, L>(), es);
    NewBotConsistent<C, L>();
    assert [] + Messages(es) == Messages(es);
    RunRecorded(p, NewBot<C, L>(), es, []);
    RunConsistent(p, NewBot<C, L>(), es);
    OutdatedIsOvertaken(b, Messages(es), n);
    hide Run, Messages, Overtaken, Consistent, Possible, Recorded, NeverSilent, IsOutdated, OnDone;
    Taken(b, n);
    var c := Complete(p, b, n, r, w);
    DiscardedExactly(p, b, n, r, w);
    if n in c.discarded && NeverSilent(p, b.live[n].session.cands) && Possible(p, c, later) {
      hide Complete, InHand;
      CompleteConsistent(p, b, n, r, w);
      RunConsistent(p, c, later);
      DiscardedStay(p, c, later);
      OverOnceIs(Run(p, c, later), n);
    }
  }

  lemma OutdatedIsOvertaken<C, L>(b: Bot<C, L>, ms: seq<Message>, n: nat)
    requires Recorded(b, ms)
    ensures n in b.live ==> (IsOutdated(b, n) <==> Overtaken(b.live.Keys, ms, n))
  {
  }

  lemma OverOrLive<C, L>(b: Bot<C, L>, n: nat)
    requires Consistent(b)
    ensures 1 <= n <= b.started && n !in b.discarded ==> (n in b.live <==> n !in Numbers(b.posted))
  {
    hide Standing;
    assert TimesOver(b, n) == if 1 <= n <= b.started && n !in b.live then 1 else 0;
  }

  lemma NewBotConsistent<C, L>()
    ensures Consistent(NewBot<C, L>())
  {
    var b := NewBot<C, L>();
    assert forall n: nat :: TimesOver(b, n) == 0;
  }
}
