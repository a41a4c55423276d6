/** The translation bot (qlappcom/fanyibot.cpp:687-1059, 1091-1115): which requests each engine makes, when it starts
    over, and the session as an object whose fields the callbacks change. */
module Fanyibot {
  import opened Options
  import opened Failover
  import opened Permutations
  import opened Sessions

  datatype Engine = Msedge | Google | Youdao | Yandex | Deepl | DeeplWeb

  const ALL: seq<Engine> := [Msedge, Google, Youdao, Yandex, Deepl, DeeplWeb]
  const KEY_PAIRS: seq<string> := ["webfanyi-key-getter-2025", "webfanyi-key-getter"]
  const MAX_RETRY := 1

  predicate Unsupported(e: Engine) {
    e == Google || e == Deepl
  }

  /** The fields that failEngine resets. key: both parts of youdao's key are known. sid: yandex's SID is known. */
  datatype Local = Local(step: nat, credRetry: nat, ydPair: nat, key: bool, sid: bool)

  const FRESH := Local(0, 0, 0, false, false)

  /** What a completion carries: whether the status is 2xx without a transport error, the text that the engine's parser
      makes of the body (none if empty), whether a key or an SID is found in it, youdao's result code. */
  datatype Reply = Reply(ok: bool, text: string, key: bool, sid: bool, code: int, hasBody: bool)

  /** The engines that have a code for the target language, and what the files in the temporary directory hold when they
      are looked up, and when they are looked up after their removal. */
  datatype World = World(speaks: set<Engine>, keyFile: bool, sidFile: bool, keyFileAgain: bool, sidFileAgain: bool)

  // ---- The engines as scripts ----

  function Send(e: Engine, l: Local, w: World, keyFile: bool, sidFile: bool): Move<Local> {
    if e !in w.speaks then Lose
    else
      match e
      case Youdao =>
        if l.step == 0 then (if l.key || keyFile then Ask(l.(step := 1, key := true)) else Ask(l))
        else if l.step == 1 then Ask(l)
        else Lose
      case Yandex => if l.step == 0 && (l.sid || sidFile) then Ask(l.(step := 1, sid := true)) else Ask(l)
      case Deepl => Lose
      case _ => Ask(l)
  }

  function Begin(e: Engine, w: World): Move<Local> {
    Send(e, FRESH, w, w.keyFile, w.sidFile)
  }

  function ReactYoudao(l: Local, r: Reply, w: World): Move<Local> {
    var again := Send(Youdao, l.(step := 0, credRetry := l.credRetry + 1, key := false), w, w.keyFileAgain, false);
    if !r.ok then Lose
    else if l.step == 0 then
      if r.key then Send(Youdao, l.(step := 1, key := true), w, false, false)
      else if l.ydPair + 1 < |KEY_PAIRS| then Send(Youdao, l.(ydPair := l.ydPair + 1), w, w.keyFile, false)
      else Lose
    else if l.step == 1 then
      if r.code == 40 || r.code == 50 then (if l.credRetry < MAX_RETRY then again else Lose)
      else if r.code != 0 || !r.hasBody then Lose
      else if r.text != "" then Win(r.text)
      else if l.credRetry < MAX_RETRY then again
      else Lose
    else Lose
  }

  function ReactYandex(l: Local, r: Reply, w: World): Move<Local> {
    if l.step == 0 then
      if r.ok && r.sid then Send(Yandex, l.(step := 1, sid := true), w, false, false) else Lose
    else if !r.ok then Lose
    else if r.text != "" then Win(r.text)
    else if l.credRetry < MAX_RETRY then
      Send(Yandex, l.(step := 0, credRetry := l.credRetry + 1, sid := false), w, false, w.sidFileAgain)
    else Lose
  }

  function React(e: Engine, l: Local, r: Reply, w: World): Move<Local> {
    match e
    case Youdao => ReactYoudao(l, r, w)
    case Yandex => ReactYandex(l, r, w)
    case Deepl => Lose
    case _ => if r.ok && r.text != "" then Win(r.text) else Lose
  }

  function Engines(): Protocol<Engine, Local, Reply, World> {
    Protocol((e, w) => Begin(e, w), (e, l, r, w) => React(e, l, r, w))
  }

  // ---- What a reply leads to ----

  /** A reply is the translation exactly when it comes without an error, is not empty, and, with youdao and yandex, is
      the answer to the request that carries the text, youdao's with code 0; deepl has no requests. */
  lemma WinsExactly(e: Engine, l: Local, r: Reply, w: World, text: string)
    ensures React(e, l, r, w) == Win(text) <==>
            && text == r.text && text != "" && r.ok && e != Deepl
            && (e == Youdao ==> l.step == 1 && r.code == 0 && r.hasBody) && (e == Yandex ==> l.step > 0)
  {
  }

  /** Youdao starts over once in a session: when its key is refused with code 40 or 50, or the answer is empty. Then the
      key is asked for again, unless it is found in its file. */
  lemma YoudaoStartsOver(l: Local, r: Reply, w: World)
    requires l.step == 1
    ensures React(Youdao, l, r, w).Ask? <==>
            && r.ok && l.credRetry == 0 && Youdao in w.speaks
            && (r.code in {40, 50} || (r.code == 0 && r.hasBody && r.text == ""))
    ensures React(Youdao, l, r, w).Ask? ==>
              React(Youdao, l, r, w).local ==
              if w.keyFileAgain then Local(1, 1, l.ydPair, true, l.sid) else Local(0, 1, l.ydPair, false, l.sid)
  {
  }

  /** The answer to its request for a key leads to the translation when it holds a key, and otherwise to the second pair
      of key names, if it was the first. */
  lemma YoudaoAsksForKey(l: Local, r: Reply, w: World)
    requires l.step == 0 && Youdao in w.speaks && !l.key
    ensures React(Youdao, l, r, w) ==
            if !r.ok then Lose
            else if r.key then Ask(l.(step := 1, key := true))
            else if l.ydPair > 0 then Lose
            else if w.keyFile then Ask(l.(ydPair := 1, step := 1, key := true))
            else Ask(l.(ydPair := 1))
  {
  }

  /** The first request of an engine that speaks the language: the text at once, or, with youdao and yandex, unless the
      key or the SID is in its file, what it needs for that. */
  lemma BeginsExactly(e: Engine, w: World)
    ensures Begin(e, w) ==
            if e !in w.speaks || e == Deepl then Lose
            else if e == Youdao && w.keyFile then Ask(Local(1, 0, 0, true, false))
            else if e == Yandex && w.sidFile then Ask(Local(1, 0, 0, false, true))
            else Ask(Local(0, 0, 0, false, false))
  {
  }

  /** Yandex starts over once: when the answer is empty. */
  lemma YandexStartsOver(l: Local, r: Reply, w: World)
    requires l.step > 0
    ensures React(Yandex, l, r, w).Ask? <==> r.ok && r.text == "" && l.credRetry == 0 && Yandex in w.speaks
    ensures React(Yandex, l, r, w).Ask? ==>
              React(Yandex, l, r, w).local ==
              if w.sidFileAgain then Local(1, 1, l.ydPair, l.key, true) else Local(0, 1, l.ydPair, l.key, false)
  {
  }

  /** A session with one engine, which speaks the language and answers well, ends with the text of the last reply. */
  lemma GoodRepliesTranslate(e: Engine, w: World, first: Reply, last: Reply)
    requires e in w.speaks && !Unsupported(e) && !w.keyFile && !w.sidFile
    requires first.ok && first.key && first.sid && last.ok && last.code == 0 && last.hasBody && last.text != ""
    ensures e in {Youdao, Yandex} ==>
              Drive(Engines(), Failover.StartNext(Engines(), [e], 0, [], w), [(first, w)] + [(last, w)])
              == Succeeded(last.text, e)
    ensures e !in {Youdao, Yandex} ==>
              Drive(Engines(), Failover.StartNext(Engines(), [e], 0, [], w), [(last, w)]) == Succeeded(last.text, e)
  {
    var s := Session([e], 0, FRESH, [e]);
    assert Failover.StartNext(Engines(), [e], 0, [], w) == Waiting(s);
    var more := [(first, w)] + [(last, w)];
    assert more[0] == (first, w) && more[1..] == [(last, w)] && [(last, w)][1..] == [];
    if e in {Youdao, Yandex} {
      var t := s.(local := if e == Youdao then FRESH.(step := 1, key := true) else FRESH.(step := 1, sid := true));
      assert OnDone(Engines(), s, first, w) == Waiting(t);
      assert OnDone(Engines(), t, last, w) == Succeeded(last.text, e);
      assert Drive(Engines(), Waiting(t), [(last, w)]) == Succeeded(last.text, e);
    } else {
      assert OnDone(Engines(), s, last, w) == Succeeded(last.text, e);
    }
  }

  // ---- How many requests ----

  function Bound(e: Engine): nat {
    match e
    case Youdao => 5
    case Yandex => 4
    case _ => 1
  }

  function PairsLeft(l: Local): nat {
    if l.ydPair + 1 < |KEY_PAIRS| then |KEY_PAIRS| - 1 - l.ydPair else 0
  }

  function RetriesLeft(l: Local): nat {
    if l.credRetry < MAX_RETRY then MAX_RETRY - l.credRetry else 0
  }

  /** How many requests may follow the one that is waited for. */
  function Cost(e: Engine, l: Local): nat {
    match e
    case Youdao =>
      if l.step == 0 then PairsLeft(l) + 1 + 2 * RetriesLeft(l)
      else if l.step == 1 then RetriesLeft(l) * (2 + PairsLeft(l))
      else 0
    case Yandex => if l.step == 0 then 1 + 2 * RetriesLeft(l) else 2 * RetriesLeft(l)
    case _ => 0
  }

  /** Youdao makes at most 5 requests in a session, yandex 4, the others one. */
  lemma EnginesBounded()
    ensures Bounded(Engines(), Bound, Cost)
  {
    forall e, l, r, w | React(e, l, r, w).Ask?
      ensures Cost(e, React(e, l, r, w).local) < Cost(e, l)
    {
    }
  }

  /** No engine is ever silent, so RunConsistent of module Sessions holds of this bot. */
  lemma EnginesNeverSilent(cands: seq<Engine>)
    ensures NeverSilent(Engines(), cands)
  {
    forall e, l, r, w ensures !Engines().begin(e, w).Nothing? && !Engines().react(e, l, r, w).Nothing? {
    }
  }

  // The bounds are reached: youdao's by a first key that is refused and a key that turns out stale once, yandex's by an
  // SID that turns out stale once.

  const NOTHING_CACHED := World({Youdao, Yandex}, false, false, false, false)
  const REFUSED := Reply(true, "", false, false, 0, true)
  const FOUND := Reply(true, "", true, true, 0, true)
  const STALE := Reply(true, "", false, false, 40, true)

  lemma YoudaoBoundReached()
    ensures Requests(Engines(), StartNext(Engines(), [Youdao], 0, [], NOTHING_CACHED),
                     [(REFUSED, NOTHING_CACHED)] + ([(FOUND, NOTHING_CACHED)] + ([(STALE, NOTHING_CACHED)] +
                     ([(FOUND, NOTHING_CACHED)] + [])))) == Bound(Youdao)
  {
    var w, s := NOTHING_CACHED, Session([Youdao], 0, FRESH, [Youdao]);
    assert StartNext(Engines(), [Youdao], 0, [], w) == Waiting(s);
    var l1, l2, l3, l4 := Local(0, 0, 1, false, false), Local(1, 0, 1, true, false), Local(0, 1, 1, false, false),
                          Local(1, 1, 1, true, false);
    var i3 := [(FOUND, w)] + [];
    var i2 := [(STALE, w)] + i3;
    var i1 := [(FOUND, w)] + i2;
    RequestsStep(Engines(), s, REFUSED, w, i1, l1);
    RequestsStep(Engines(), s.(local := l1), FOUND, w, i2, l2);
    RequestsStep(Engines(), s.(local := l2), STALE, w, i3, l3);
    RequestsStep(Engines(), s.(local := l3), FOUND, w, [], l4);
  }

  lemma YandexBoundReached()
    ensures Requests(Engines(), StartNext(Engines(), [Yandex], 0, [], NOTHING_CACHED),
                     [(FOUND, NOTHING_CACHED)] + ([(REFUSED, NOTHING_CACHED)] + ([(FOUND, NOTHING_CACHED)] + [])))
            == Bound(Yandex)
  {
    var w, s := NOTHING_CACHED, Session([Yandex], 0, FRESH, [Yandex]);
    assert StartNext(Engines(), [Yandex], 0, [], w) == Waiting(s);
    var l1, l2, l3 := Local(1, 0, 0, false, true), Local(0, 1, 0, false, false), Local(1, 1, 0, false, true);
    var i2 := [(FOUND, w)] + [];
    var i1 := [(REFUSED, w)] + i2;
    RequestsStep(Engines(), s, FOUND, w, i1, l1);
    RequestsStep(Engines(), s.(local := l1), REFUSED, w, i2, l2);
    RequestsStep(Engines(), s.(local := l2), FOUND, w, [], l3);
  }

  // ---- The candidates ----

  function Supported(es: seq<Engine>): seq<Engine> {
    if es == [] then []
    else if Unsupported(es[0]) then Supported(es[1..])
    else [es[0]] + Supported(es[1..])
  }

  /** What a request names: all engines, one, or one that does not exist. */
  datatype Choice = Any | Named(engine: Engine) | Unknown

  /** The candidates of a request: all engines that can be used in some order, or the one named if it can be used. */
  predicate AreCandidates(choice: Choice, es: seq<Engine>) {
    match choice
    case Any => Distinct(es) && forall e :: e in es <==> !Unsupported(e)
    case Named(e) => es == if Unsupported(e) then [] else [e]
    case Unknown => es == []
  }

  lemma {:induction false} SupportedDistinct(es: seq<Engine>)
    requires Distinct(es)
    ensures Distinct(Supported(es)) && forall e :: e in Supported(es) <==> e in es && !Unsupported(e)
  {
    hide Unsupported;
    if es != [] {
      SupportedDistinct(es[1..]);
      assert forall e :: e in es <==> e == es[0] || e in es[1..];
    }
  }

  lemma AllEngines(e: Engine)
    ensures Distinct(ALL) && e in ALL
  {
    assert [ALL[0], ALL[1], ALL[2], ALL[3], ALL[4], ALL[5]] == [Msedge, Google, Youdao, Yandex, Deepl, DeeplWeb];
  }

  method SupportedEngines() returns (out: seq<Engine>)
    ensures out == Supported(ALL)
  {
    hide Unsupported, ALL;
    out := [];
    for i := 0 to |ALL|
      invariant out + Supported(ALL[i..]) == Supported(ALL)
    {
      assert ALL[i..][1..] == ALL[i + 1..];
      if !Unsupported(ALL[i]) {
        out := out + [ALL[i]];
      }
    }
  }

  /** The shuffle is up to the environment: a permutation of the engines that can be used. */
  method BuildCandidates(choice: Choice, shuffle: seq<Engine> -> seq<Engine>) returns (out: seq<Engine>)
    requires forall es :: multiset(shuffle(es)) == multiset(es)
    ensures AreCandidates(choice, out) && Distinct(out)
  {
    hide Unsupported, Supported;
    match choice
    case Any =>
      var usable := SupportedEngines();
      forall e: Engine ensures e in ALL {
        AllEngines(e);
      }
      AllEngines(Msedge);
      SupportedDistinct(ALL);
      out := shuffle(usable);
      PermutationOfDistinct(usable, out);
    case Named(e) => out := if Unsupported(e) then [] else [e];
    case Unknown => out := [];
  }

  /** Whatever the request names and whatever comes back, a session makes at most eleven requests and is over then. */
  lemma AtMostElevenRequests(choice: Choice, cands: seq<Engine>, inputs: seq<(Reply, World)>, w: World)
    requires AreCandidates(choice, cands)
    ensures var o := Failover.StartNext(Engines(), cands, 0, [], w);
            (o.Waiting? ==> Sound(o, cands)) && Requests(Engines(), o, inputs) <= 11
    ensures |inputs| >= 11 ==> !Drive(Engines(), Failover.StartNext(Engines(), cands, 0, [], w), inputs).Waiting?
  {
    hide Begin, React, AreCandidates;
    BoundsOfCandidates(choice, cands);
    EnginesBounded();
    RequestsBounded(Engines(), cands, inputs, w, Bound, Cost);
    if |inputs| >= 11 {
      SessionEnds(Engines(), cands, inputs, w, Bound, Cost);
    }
  }

  lemma SumOfFour(a: Engine, b: Engine, c: Engine, d: Engine)
    ensures SumOfBounds(Bound, [a, b, c, d]) == Bound(a) + Bound(b) + Bound(c) + Bound(d)
  {
    hide SumOfBounds, Bound;
    assert [a, b, c, d] == ([a] + [b]) + ([c] + [d]);
    SumInParts(Bound, [a] + [b], [c] + [d]);
    SumInParts(Bound, [a], [b]);
    SumInParts(Bound, [c], [d]);
    SumOfOne(Bound, a);
    SumOfOne(Bound, b);
    SumOfOne(Bound, c);
    SumOfOne(Bound, d);
  }

  lemma BoundsOfCandidates(choice: Choice, cands: seq<Engine>)
    requires AreCandidates(choice, cands)
    ensures SumOfBounds(Bound, cands) <= 11
  {
    assert Bound(Msedge) + Bound(Youdao) + Bound(Yandex) + Bound(DeeplWeb) == 11 && forall e :: Bound(e) <= 11;
    hide SumOfBounds, Bound;
    match choice
    case Any =>
      SameElements(cands, [Msedge, Youdao, Yandex, DeeplWeb]);
      SumOfPermutation(Bound, cands, [Msedge, Youdao, Yandex, DeeplWeb]);
      SumOfFour(Msedge, Youdao, Yandex, DeeplWeb);
    case Named(e) =>
      SumOfOne(Bound, e);
      SumOfNone(Bound);
    case Unknown => SumOfNone(Bound);
  }

  // ---- The session ----

  class FanyibotSession {
    const cands: seq<Engine>
    var index: nat
    var step: nat
    var credRetry: nat
    var ydPair: nat
    var ydKey: bool
    var cred: bool
    var tried: seq<Engine>
    var handedOver: bool
    var result: Option<Outcome<Engine, Local>>
    /** The completions that addRequest will deliver before it returns: the poller is not ready, or no handle is to
        be had. */
    var immediate: seq<(Reply, World)>

    /** In hand: the session runs, it has no request with the poller and no result yet. */
    predicate InHand()
      reads this
    {
      && Distinct(cands) && !handedOver && result.None? && index <= |cands| && tried == cands[..index]
      && ydPair < |KEY_PAIRS|
    }

    /** Settled: it waits for the one request it has with the poller, or it is over. */
    predicate Settled()
      reads this
    {
      && Distinct(cands) && (handedOver <==> result.None?)
      && (handedOver ==> index < |cands| && tried == cands[..index] && ydPair < |KEY_PAIRS|)
    }

    function CurrentLocal(): Local
      reads this
    {
      Local(step, credRetry, ydPair, ydKey, cred)
    }

    function Now(): Outcome<Engine, Local>
      reads this
      requires Settled()
    {
      if result.Some? then result.value else Waiting(Session(cands, index, CurrentLocal(), cands[..index + 1]))
    }

    /** A session is made with its candidates and starts with the first. */
    constructor (cands: seq<Engine>, immediate: seq<(Reply, World)>)
      requires Distinct(cands)
      ensures InHand() && this.cands == cands && this.immediate == immediate && index == 0 && CurrentLocal() == FRESH
    {
      this.cands, this.immediate := cands, immediate;
      index, step, credRetry, ydPair, ydKey, cred := 0, 0, 0, 0, false, false;
      tried, handedOver, result := [], false, None;
    }

    /** The session now belongs to the request. The poller may call back before it returns. */
    method SendHttp(ghost w: World)
      requires InHand() && index < |cands|
      modifies this
      ensures Settled()
      ensures Now() == Followed(Engines(), cands, old(index), Ask(old(CurrentLocal())), old(immediate), w)
      decreases |immediate|, |cands| - index, 0
    {
      FollowedStep(Engines(), cands, index, Ask(CurrentLocal()), immediate, w);
      hide Followed;
      handedOver := true;
      if immediate != [] {
        var (r, v) := immediate[0];
        immediate := immediate[1..];
        OnDone(r, v);
      }
    }

    method PostResult(o: Outcome<Engine, Local>)
      requires InHand() && !o.Waiting?
      modifies `result
      ensures Settled() && result == Some(o)
    {
      result := Some(o);
    }

    method StartNext(w: World)
      requires InHand() && CurrentLocal() == FRESH
      modifies this
      ensures Settled() && Now() == Begun(Engines(), cands, old(index), old(immediate), w)
      decreases |immediate|, |cands| - index, 3
    {
      BegunStep(Engines(), cands, index, immediate, w);
      hide Begun, Followed;
      if index < |cands| {
        SendEngine(cands[index], w, w.keyFile, w.sidFile);
        return;
      }
      assert cands[..index] == cands;
      PostResult(Failed(tried));
    }

    method FailEngine(e: Engine, w: World)
      requires InHand() && index < |cands| && e == cands[index]
      modifies this
      ensures Settled() && Now() == Followed(Engines(), cands, old(index), Lose, old(immediate), w)
      decreases |immediate|, |cands| - index, 0
    {
      FollowedStep(Engines(), cands, index, Lose, immediate, w);
      hide Begun, Followed;
      if tried == [] || tried[|tried| - 1] != e {
        tried := tried + [e];
      }
      assert tried == cands[..index + 1];
      step, credRetry, ydPair, ydKey, cred := 0, 0, 0, false, false;
      index := index + 1;
      StartNext(w);
    }

    /** keyFile and sidFile: what the temporary files hold at this moment. */
    method SendEngine(e: Engine, w: World, keyFile: bool, sidFile: bool)
      requires InHand() && index < |cands| && e == cands[index]
      modifies this
      ensures Settled()
      ensures Now() == Followed(Engines(), cands, old(index), Send(e, old(CurrentLocal()), w, keyFile, sidFile),
                                old(immediate), w)
      decreases |immediate|, |cands| - index, if step == 0 then 2 else 1
    {
      hide Followed;
      if e !in w.speaks {
        FailEngine(e, w);
        return;
      }
      if e == Youdao {
        if step == 0 {
          if !ydKey && keyFile {
            ydKey := true;
          }
          if ydKey {
            step := 1;
            SendEngine(e, w, keyFile, sidFile);
            return;
          }
          SendHttp(w);
          return;
        }
        if step == 1 {
          SendHttp(w);
          return;
        }
        FailEngine(e, w);
        return;
      }
      if e == Yandex {
        if step == 0 {
          if !cred && sidFile {
            cred := true;
          }
          if cred {
            step := 1;
            SendEngine(e, w, keyFile, sidFile);
            return;
          }
        }
        SendHttp(w);
        return;
      }
      if e == Deepl {
        FailEngine(e, w);
        return;
      }
      SendHttp(w);
    }

    /** A completion, for the one request that the session has with the poller. */
    method OnDone(r: Reply, w: World)
      requires Settled() && handedOver
      modifies this
      ensures Settled()
      ensures Now() == Followed(Engines(), cands, old(index), React(cands[old(index)], old(CurrentLocal()), r, w),
                                old(immediate), w)
      decreases |immediate|, |cands| - index, 5
    {
      hide Followed, ReactYoudao, ReactYandex;
      handedOver := false;
      var e := cands[index];
      match e
      case Youdao => OnYoudaoDone(r, w);
      case Yandex => OnYandexDone(r, w);
      case Deepl => FailEngine(e, w);
      case _ =>
        if r.ok {
          if r.text != "" {
            FollowedStep(Engines(), cands, index, Win(r.text), immediate, w);
            PostResult(Succeeded(r.text, e));
            return;
          }
        }
        FailEngine(e, w);
    }

    method OnYoudaoDone(r: Reply, w: World)
      requires InHand() && index < |cands| && cands[index] == Youdao
      modifies this
      ensures Settled()
      ensures Now() == Followed(Engines(), cands, old(index), ReactYoudao(old(CurrentLocal()), r, w), old(immediate), w)
      decreases |immediate|, |cands| - index, 4
    {
      hide Followed, Send;
      if r.ok && step == 0 {
        if r.key {
          ydKey := true;
          step := 1;
          SendEngine(Youdao, w, false, false);
          return;
        }
        if ydPair < |KEY_PAIRS| - 1 {
          ydPair := ydPair + 1;
          SendEngine(Youdao, w, w.keyFile, false);
          return;
        }
        FailEngine(Youdao, w);
        return;
      }
      if r.ok && step == 1 {
        if r.code == 40 || r.code == 50 {
          if credRetry < MAX_RETRY {
            credRetry := credRetry + 1;
            ydKey := false;
            step := 0;
            SendEngine(Youdao, w, w.keyFileAgain, false);
            return;
          }
          FailEngine(Youdao, w);
          return;
        }
        if r.code != 0 {
          FailEngine(Youdao, w);
          return;
        }
        if r.hasBody {
          if r.text != "" {
            FollowedStep(Engines(), cands, index, Win(r.text), immediate, w);
            PostResult(Succeeded(r.text, Youdao));
            return;
          }
          if credRetry < MAX_RETRY {
            credRetry := credRetry + 1;
            ydKey := false;
            step := 0;
            SendEngine(Youdao, w, w.keyFileAgain, false);
            return;
          }
        }
      }
      FailEngine(Youdao, w);
    }

    method OnYandexDone(r: Reply, w: World)
      requires InHand() && index < |cands| && cands[index] == Yandex
      modifies this
      ensures Settled()
      ensures Now() == Followed(Engines(), cands, old(index), ReactYandex(old(CurrentLocal()), r, w), old(immediate), w)
      decreases |immediate|, |cands| - index, 4
    {
      hide Followed, Send;
      if step == 0 {
        if r.ok && r.sid {
          cred := true;
          step := 1;
          SendEngine(Yandex, w, false, false);
          return;
        }
        FailEngine(Yandex, w);
        return;
      }
      if r.ok {
        if r.text != "" {
          FollowedStep(Engines(), cands, index, Win(r.text), immediate, w);
          PostResult(Succeeded(r.text, Yandex));
          return;
        }
        if credRetry < MAX_RETRY {
          credRetry := credRetry + 1;
          step := 0;
          cred := false;
          SendEngine(Yandex, w, false, w.sidFileAgain);
          return;
        }
      }
      FailEngine(Yandex, w);
    }
  }
}
