/** The chat bot (qlappcom/aigptbot.cpp:403-518, 1013-1256, 1515-1615, 1751-1817, 1928-2110, 2202-2512, 2539-2563): the
    request scripts of its providers and the session as an object whose fields the callbacks change. */
module Aigptbot {
  import opened Options
  import opened Failover
  import opened Permutations
  import opened Sessions

  datatype WebKind = NotWeb | Deepseek | Gemini | Grok | Chatgpt | Meta

  datatype Provider = Provider(name: string, web: WebKind, aiHorde: bool, needsKey: bool)

  /** step and wv["ds_retried"] of a session at a web provider. */
  datatype Local = Local(step: nat, retried: bool)

  const FRESH := Local(0, false)

  /** What a completion carries. readable: the body is the JSON that the step expects. found: it has the token,
      challenge or identifier that the step looks for. solved: the proof of work asked for is found. refused: it
      names an error. parsed: it holds a reply. reuse: a conversation may be continued. full: the conversation is
      full. text: the reply. */
  datatype Reply = Reply(status: int, readable: bool, found: bool, solved: bool, refused: bool, parsed: bool,
                         reuse: bool, full: bool, text: string)

  /** The names of the web providers whose credential can be had. */
  datatype World = World(creds: set<string>)

  // ---- The providers as scripts ----

  /** The number of steps of a web provider; none is sent beyond. */
  function Steps(kind: WebKind): nat {
    match kind
    case NotWeb => 0
    case Deepseek => 4
    case Gemini => 2
    case Grok => 1
    case Chatgpt => 3
    case Meta => 3
  }

  function SendWeb(kind: WebKind, l: Local): Move<Local> {
    if l.step < Steps(kind) then Ask(l) else Lose
  }

  function Begin(p: Provider, w: World): Move<Local> {
    if p.web != NotWeb then (if p.name in w.creds then SendWeb(p.web, FRESH) else Lose)
    else if p.aiHorde then Quit
    else Ask(FRESH)
  }

  /** What a step of a provider asks of a body that came with status 200. */
  predicate Passes(kind: WebKind, step: nat, r: Reply) {
    match kind
    case NotWeb => false
    case Deepseek =>
      if step == 3 then r.parsed else r.readable && r.found && (step == 1 ==> r.solved)
    case Gemini => if step == 0 then r.found else r.parsed
    case Grok => r.parsed
    case Chatgpt =>
      if step == 0 then r.readable && r.found && r.solved
      else if step == 1 then r.readable && !r.refused
      else r.parsed
    case Meta => if step < 2 then r.found else r.parsed
  }

  function ReactDeepseek(l: Local, r: Reply): Move<Local> {
    if r.status != 200 || l.step >= Steps(Deepseek) then Lose
    else if Passes(Deepseek, l.step, r) then
      if l.step == 3 then Win(r.text)
      else if l.step == 1 then SendWeb(Deepseek, l.(step := if r.reuse then 3 else 2))
      else SendWeb(Deepseek, l.(step := l.step + 1))
    else if l.step == 3 && r.full && !l.retried then SendWeb(Deepseek, l.(step := 2, retried := true))
    else Lose
  }

  /** The other web providers: every step but the last leads to the next one. */
  function ReactInTurn(kind: WebKind, l: Local, r: Reply): Move<Local> {
    if r.status != 200 || l.step >= Steps(kind) || !Passes(kind, l.step, r) then Lose
    else if l.step + 1 == Steps(kind) then Win(r.text)
    else SendWeb(kind, l.(step := l.step + 1))
  }

  function React(p: Provider, l: Local, r: Reply, w: World): Move<Local> {
    match p.web
    case NotWeb => if 200 <= r.status < 300 && r.text != "" then Win(r.text) else Lose
    case Deepseek => ReactDeepseek(l, r)
    case _ => ReactInTurn(p.web, l, r)
  }

  function Providers(): Protocol<Provider, Local, Reply, World> {
    Protocol((p, w) => Begin(p, w), (p, l, r, w) => React(p, l, r, w))
  }

  // ---- What a reply leads to ----

  /** A reply is the answer exactly when it comes with the right status and a text, and, from a web provider, is the one
      to the last of its requests: the fourth of deepseek, the third of chatgpt and meta, the second of gemini. */
  lemma WinsExactly(p: Provider, l: Local, r: Reply, w: World, text: string)
    ensures React(p, l, r, w) == Win(text) <==>
            && text == r.text
            && (p.web == NotWeb ==> 200 <= r.status < 300 && text != "")
            && (p.web != NotWeb ==> r.status == 200 && r.parsed)
            && (p.web == Grok ==> l.step == 0) && (p.web == Gemini ==> l.step == 1)
            && (p.web in {Chatgpt, Meta} ==> l.step == 2) && (p.web == Deepseek ==> l.step == 3)
  {
  }

  /** The first request needs the credential of a web provider; AI Horde is turned down at once. */
  lemma BeginsExactly(p: Provider, w: World)
    ensures Begin(p, w) ==
            if p.web == NotWeb then (if p.aiHorde then Quit else Ask(Local(0, false)))
            else if p.name in w.creds then Ask(Local(0, false))
            else Lose
  {
  }

  /** Which replies lead to a further request, and to which step. Deepseek: a token; a challenge that is solved, with
      the conversation continued or not; a conversation; and, once, a full conversation, which is replaced. Gemini: the
      token. Chatgpt: the fields with a proof of work that is solved; an answer that refuses nothing. Meta: two
      tokens. */
  lemma AsksExactly(p: Provider, l: Local, r: Reply, w: World, next: Local)
    ensures React(p, l, r, w) == Ask(next) <==>
            && r.status == 200
            && (match p.web
                case NotWeb => false
                case Grok => false
                case Deepseek =>
                  if l.step == 0 then r.readable && r.found && next == Local(1, l.retried)
                  else if l.step == 1 then
                    r.readable && r.found && r.solved && next == Local(if r.reuse then 3 else 2, l.retried)
                  else if l.step == 2 then r.readable && r.found && next == Local(3, l.retried)
                  else l.step == 3 && !r.parsed && r.full && !l.retried && next == Local(2, true)
                case Gemini => l.step == 0 && r.found && next == Local(1, l.retried)
                case Chatgpt =>
                  (l.step == 0 && r.readable && r.found && r.solved && next == Local(1, l.retried)) ||
                  (l.step == 1 && r.readable && !r.refused && next == Local(2, l.retried))
                case Meta => l.step < 2 && r.found && next == Local(l.step + 1, l.retried))
  {
  }

  /** A session with one provider whose credential is there, and which answers well, ends with the text of the reply to
      the last request. */
  lemma {:induction false} GoodRepliesAnswer(p: Provider, l: Local, r: Reply, inputs: seq<(Reply, World)>)
    requires p.web in {Gemini, Grok, Chatgpt, Meta} && l.step + |inputs| == Steps(p.web) && |inputs| > 0
    requires r.status == 200 && r.readable && r.found && r.solved && !r.refused && r.parsed
    requires forall i :: 0 <= i < |inputs| ==> inputs[i].0 == r
    ensures Drive(Providers(), Waiting(Session([p], 0, l, [p])), inputs) == Succeeded(r.text, p)
    decreases |inputs|
  {
    var s := Session([p], 0, l, [p]);
    var (_, w) := inputs[0];
    assert inputs[0].0 == r;
    if |inputs| == 1 {
      assert OnDone(Providers(), s, r, w) == Succeeded(r.text, p);
      assert inputs[1..] == [];
    } else {
      var next := l.(step := l.step + 1);
      assert OnDone(Providers(), s, r, w) == Waiting(s.(local := next));
      GoodRepliesAnswer(p, next, r, inputs[1..]);
    }
  }

  // ---- How many requests ----

  function Bound(p: Provider): nat {
    match p.web
    case NotWeb => 1
    case Deepseek => 6
    case Gemini => 2
    case Grok => 1
    case Chatgpt => 3
    case Meta => 3
  }

  function Cost(p: Provider, l: Local): nat {
    var again := if l.retried then 0 else 2;
    match p.web
    case NotWeb => 0
    case Deepseek => if l.step < 4 then 3 - l.step + again else 0
    case _ => if l.step < Steps(p.web) then Steps(p.web) - 1 - l.step else 0
  }

  /** Deepseek makes at most 6 requests in a session, chatgpt and meta 3, gemini 2, the others one. */
  lemma ProvidersBounded()
    ensures Bounded(Providers(), Bound, Cost)
  {
    forall p, l, r, w | React(p, l, r, w).Ask?
      ensures Cost(p, React(p, l, r, w).local) < Cost(p, l)
    {
    }
  }

  /** No provider is ever silent, so RunConsistent of module Sessions holds of this bot. */
  lemma ProvidersNeverSilent(cands: seq<Provider>)
    ensures NeverSilent(Providers(), cands)
  {
    forall p, l, r, w ensures !Providers().begin(p, w).Nothing? && !Providers().react(p, l, r, w).Nothing? {
    }
  }

  const GOOD := Reply(200, true, true, true, false, true, false, false, "")
  const FULL := Reply(200, true, false, false, false, false, false, true, "")

  /** Deepseek's bound is reached by a conversation that turns out full. */
  lemma DeepseekBoundReached(p: Provider, w: World)
    requires p.web == Deepseek && p.name in w.creds
    ensures Requests(Providers(), StartNext(Providers(), [p], 0, [], w),
                     [(GOOD, w)] + ([(GOOD, w)] + ([(GOOD, w)] + ([(FULL, w)] + ([(GOOD, w)] + []))))) == Bound(p)
  {
    var s := Session([p], 0, FRESH, [p]);
    assert StartNext(Providers(), [p], 0, [], w) == Waiting(s);
    var i4 := [(GOOD, w)] + [];
    var i3 := [(FULL, w)] + i4;
    var i2 := [(GOOD, w)] + i3;
    var i1 := [(GOOD, w)] + i2;
    RequestsStep(Providers(), s, GOOD, w, i1, Local(1, false));
    RequestsStep(Providers(), s.(local := Local(1, false)), GOOD, w, i2, Local(2, false));
    RequestsStep(Providers(), s.(local := Local(2, false)), GOOD, w, i3, Local(3, false));
    RequestsStep(Providers(), s.(local := Local(3, false)), FULL, w, i4, Local(2, true));
    RequestsStep(Providers(), s.(local := Local(2, true)), GOOD, w, [], Local(3, true));
  }

  /** The bounds of the providers that go step by step are reached by going through with good answers. */
  lemma {:induction false} InTurnBoundReached(p: Provider, w: World, step: nat) returns (inputs: seq<(Reply, World)>)
    requires p.web in {Gemini, Chatgpt, Meta} && step < Steps(p.web)
    ensures Requests(Providers(), Waiting(Session([p], 0, Local(step, false), [p])), inputs) == Steps(p.web) - step
    ensures step == 0 && p.name in w.creds ==>
              StartNext(Providers(), [p], 0, [], w) == Waiting(Session([p], 0, Local(step, false), [p]))
              && Requests(Providers(), StartNext(Providers(), [p], 0, [], w), inputs) == Bound(p)
    decreases Steps(p.web) - step
  {
    if step + 1 == Steps(p.web) {
      inputs := [];
    } else {
      inputs := InTurnBoundReached(p, w, step + 1);
      RequestsStep(Providers(), Session([p], 0, Local(step, false), [p]), GOOD, w, inputs, Local(step + 1, false));
      inputs := [(GOOD, w)] + inputs;
    }
  }

  // ---- The candidates ----

  /** ready: the credential of a web provider, or the key of another one, can be had. */
  predicate Usable(p: Provider, ready: Provider -> bool) {
    !p.aiHorde && (p.web != NotWeb || p.needsKey ==> ready(p))
  }

  function UsableOnes(table: seq<Provider>, ready: Provider -> bool): seq<Provider> {
    if table == [] then []
    else if Usable(table[0], ready) then [table[0]] + UsableOnes(table[1..], ready)
    else UsableOnes(table[1..], ready)
  }

  lemma {:induction false} UsableElements(table: seq<Provider>, ready: Provider -> bool)
    ensures forall p :: p in UsableOnes(table, ready) <==> p in table && Usable(p, ready)
    ensures Distinct(table) ==> Distinct(UsableOnes(table, ready))
  {
    hide Usable;
    if table != [] {
      UsableElements(table[1..], ready);
      assert forall p :: p in table <==> p == table[0] || p in table[1..];
    }
  }

  /** us are the elements of the table at the places ks, which ascend. */
  predicate AreAt(table: seq<Provider>, us: seq<Provider>, ks: seq<nat>) {
    && |ks| == |us| && (forall i :: 0 <= i < |ks| ==> ks[i] < |table| && table[ks[i]] == us[i])
    && forall i, j :: 0 <= i < j < |ks| ==> ks[i] < ks[j]
  }

  lemma OneFurther(p: Provider, table: seq<Provider>, us: seq<Provider>, ks: seq<nat>) returns (js: seq<nat>)
    requires AreAt(table, us, ks)
    ensures AreAt([p] + table, us, js) && AreAt([p] + table, [p] + us, [0] + js)
  {
    js := seq(|ks|, i requires 0 <= i < |ks| => ks[i] + 1);
    forall i | 0 <= i < |js| ensures js[i] < |[p] + table| && ([p] + table)[js[i]] == us[i] && 0 < js[i] {
      assert js[i] == ks[i] + 1;
    }
  }

  lemma {:induction false} UsablePlaces(table: seq<Provider>, ready: Provider -> bool) returns (ks: seq<nat>)
    ensures AreAt(table, UsableOnes(table, ready), ks)
  {
    hide Usable;
    if table == [] {
      ks := [];
    } else {
      var rest := UsablePlaces(table[1..], ready);
      hide AreAt;
      ks := OneFurther(table[0], table[1..], UsableOnes(table[1..], ready), rest);
      assert [table[0]] + table[1..] == table;
      if Usable(table[0], ready) {
        ks := [0] + ks;
      }
    }
  }

  /** The usable ones are those that are not AI Horde and whose credential or key, if they need one, can be had; they
      keep the order of the table. */
  lemma UsableInOrder(table: seq<Provider>, ready: Provider -> bool) returns (ks: seq<nat>)
    ensures AreAt(table, UsableOnes(table, ready), ks)
    ensures forall p :: p in UsableOnes(table, ready) <==>
              p in table && !p.aiHorde && ((p.web == NotWeb && !p.needsKey) || ready(p))
  {
    UsableElements(table, ready);
    ks := UsablePlaces(table, ready);
    hide UsableOnes, AreAt;
  }

  /** "all" in the order of the table, "any" in some order, or a name. */
  datatype Choice = All | Any | Named(name: string)

  method FilterTable(table: seq<Provider>, ready: Provider -> bool) returns (out: seq<Provider>)
    ensures out == UsableOnes(table, ready)
  {
    hide Usable;
    out := [];
    for i := 0 to |table|
      invariant out + UsableOnes(table[i..], ready) == UsableOnes(table, ready)
    {
      assert table[i..][1..] == table[i + 1..];
      if Usable(table[i], ready) {
        out := out + [table[i]];
      }
    }
  }

  /** A provider named directly is a candidate whether it can be used or not, AI Horde included. */
  method BuildCandidates(table: seq<Provider>, choice: Choice, ready: Provider -> bool,
                         shuffle: seq<Provider> -> seq<Provider>)
    returns (out: seq<Provider>)
    requires forall ps :: multiset(shuffle(ps)) == multiset(ps)
    ensures choice.All? ==> out == UsableOnes(table, ready)
    ensures choice.Any? ==> multiset(out) == multiset(UsableOnes(table, ready))
    ensures choice.Named? ==> |out| <= 1 && (out == [] <==> forall p :: p in table ==> p.name != choice.name)
    ensures choice.Named? && out != [] ==> out[0] in table && out[0].name == choice.name
    ensures |out| > 1 ==> forall p :: p in out ==> !p.aiHorde
  {
    if choice.Named? {
      out := [];
      for i := 0 to |table|
        invariant forall j :: 0 <= j < i ==> table[j].name != choice.name
      {
        if choice.name == table[i].name {
          return [table[i]];
        }
      }
      return;
    }
    out := FilterTable(table, ready);
    UsableElements(table, ready);
    if choice.Any? {
      var usable := out;
      out := shuffle(usable);
      forall p | p in out ensures p in usable {
        assert p in multiset(out);
      }
    }
  }

  predicate IsHorde(p: Provider) {
    p.web == NotWeb && p.aiHorde
  }

  /** Whatever comes in, a session is rejected exactly when AI Horde is its only candidate, and then at once: only a
      direct choice makes it a candidate. All other sessions end with a text or with all candidates tried. */
  lemma RejectedExactly(cands: seq<Provider>, inputs: seq<(Reply, World)>, w: World)
    requires |cands| > 1 ==> forall p :: p in cands ==> !p.aiHorde
    ensures var o := StartNext(Providers(), cands, 0, [], w);
            && (o.Waiting? ==> Sound(o, cands))
            && (Drive(Providers(), o, inputs).Rejected? <==> |cands| == 1 && IsHorde(cands[0]))
            && (|cands| == 1 && IsHorde(cands[0]) ==> o == Rejected(cands[0]))
  {
    assert cands[..0] == [];
    StartNextSound(Providers(), cands, 0, w);
    if !(|cands| == 1 && IsHorde(cands[0])) {
      assert forall p :: p in cands ==> !IsHorde(p) by {
        assert |cands| == 1 ==> cands == [cands[0]];
      }
      StartNextNeverRejects(cands, 0, [], w);
      NeverRejected(cands, StartNext(Providers(), cands, 0, [], w), inputs);
    }
  }

  lemma {:induction false} NeverRejected(cands: seq<Provider>, o: Outcome<Provider, Local>, inputs: seq<(Reply, World)>)
    requires forall p :: p in cands ==> !IsHorde(p)
    requires Sound(o, cands) && !o.Rejected?
    ensures !Drive(Providers(), o, inputs).Rejected?
    decreases |inputs|
  {
    if o.Waiting? && inputs != [] {
      var (r, w) := inputs[0];
      OnDoneSound(Providers(), o.session, r, w);
      StartNextNeverRejects(cands, o.session.index + 1, o.session.tried, w);
      NeverRejected(cands, OnDone(Providers(), o.session, r, w), inputs[1..]);
    }
  }

  lemma {:induction false} StartNextNeverRejects(cands: seq<Provider>, index: nat, tried: seq<Provider>, w: World)
    requires index <= |cands| && forall p :: p in cands ==> !IsHorde(p)
    ensures !StartNext(Providers(), cands, index, tried, w).Rejected?
    decreases |cands| - index
  {
    if index < |cands| {
      assert cands[index] in cands;
      StartNextNeverRejects(cands, index + 1, tried + [cands[index]], w);
    }
  }

  // ---- The session ----

  class AigptSession {
    const cands: seq<Provider>
    var index: nat
    var step: nat
    var dsRetried: bool
    var tried: seq<Provider>
    var handedOver: bool
    /** Which of the two callbacks the request carries. */
    var viaWeb: bool
    var result: Option<Outcome<Provider, Local>>
    /** The completions that addRequest will deliver before it returns. */
    var immediate: seq<(Reply, World)>

    /** In hand, with the candidate at index tried already or not yet. */
    predicate InHand(begun: bool)
      reads this
    {
      && !handedOver && result.None? && index <= |cands| && (begun ==> index < |cands|)
      && tried == cands[..if begun then index + 1 else index]
    }

    predicate Settled()
      reads this
    {
      && (handedOver <==> result.None?)
      && (handedOver ==> index < |cands| && tried == cands[..index + 1] && viaWeb == (cands[index].web != NotWeb))
    }

    /** step is left over from an earlier candidate at one that is not a web provider. */
    function CurrentLocal(): Local
      reads this
      requires index < |cands|
    {
      if cands[index].web == NotWeb then FRESH else Local(step, dsRetried)
    }

    function Now(): Outcome<Provider, Local>
      reads this
      requires Settled()
    {
      if result.Some? then result.value else Waiting(Session(cands, index, CurrentLocal(), tried))
    }

    constructor (cands: seq<Provider>, immediate: seq<(Reply, World)>)
      ensures InHand(false) && this.cands == cands && this.immediate == immediate && index == 0
    {
      this.cands, this.immediate := cands, immediate;
      index, step, dsRetried, viaWeb := 0, 0, false, false;
      tried, handedOver, result := [], false, None;
    }

    /** sendHttp and sendWebHttp: the session now belongs to the request. The poller may call back before it returns. */
    method Send(web: bool, ghost w: World)
      requires InHand(true) && web == (cands[index].web != NotWeb)
      modifies this
      ensures Settled()
      ensures Now() == Followed(Providers(), cands, old(index), Ask(old(CurrentLocal())), old(immediate), w)
      decreases |immediate|, |cands| - index, 0
    {
      FollowedStep(Providers(), cands, index, Ask(CurrentLocal()), immediate, w);
      hide Followed;
      handedOver := true;
      viaWeb := web;
      if immediate != [] {
        var (r, v) := immediate[0];
        immediate := immediate[1..];
        if viaWeb {
          OnWebDone(r, v);
        } else {
          OnDone(r, v);
        }
      }
    }

    method PostResult(o: Outcome<Provider, Local>)
      requires !handedOver && result.None? && !o.Waiting?
      modifies `result
      ensures Settled() && result == Some(o)
    {
      result := Some(o);
    }

    method StartNext(w: World)
      requires InHand(false)
      modifies this
      ensures Settled() && Now() == Begun(Providers(), cands, old(index), old(immediate), w)
      decreases |immediate|, |cands| - index, 3
    {
      BegunStep(Providers(), cands, index, immediate, w);
      hide Begun, Followed;
      if index < |cands| {
        SendHost(cands[index], w);
        return;
      }
      assert cands[..index] == cands;
      PostResult(Failed(tried));
    }

    /** webFail, and the end of onDone: the next candidate. */
    method Fail(w: World)
      requires InHand(true)
      modifies this
      ensures Settled() && Now() == Followed(Providers(), cands, old(index), Lose, old(immediate), w)
      decreases |immediate|, |cands| - index, 0
    {
      FollowedStep(Providers(), cands, index, Lose, immediate, w);
      hide Begun, Followed;
      index := index + 1;
      StartNext(w);
    }

    method Succeed(text: string, ghost w: World)
      requires InHand(true)
      modifies `result
      ensures Settled() && Now() == Followed(Providers(), cands, index, Win(text), immediate, w)
    {
      FollowedStep(Providers(), cands, index, Win(text), immediate, w);
      hide Followed;
      PostResult(Succeeded(text, cands[index]));
    }

    method SendHost(p: Provider, w: World)
      requires InHand(false) && index < |cands| && p == cands[index]
      modifies this
      ensures Settled() && Now() == Followed(Providers(), cands, old(index), Begin(p, w), old(immediate), w)
      decreases |immediate|, |cands| - index, 2
    {
      hide Followed;
      assert cands[..index] + [p] == cands[..index + 1];
      tried := tried + [p];
      if p.web != NotWeb {
        if p.name !in w.creds {
          Fail(w);
          return;
        }
        step := 0;
        dsRetried := false;
        SendWebHost(w);
        return;
      }
      if p.aiHorde {
        FollowedStep(Providers(), cands, index, Quit, immediate, w);
        PostResult(Rejected(p));
        return;
      }
      Send(false, w);
    }

    /** sendDeepseek, sendGemini, sendGrok, sendChatgpt, sendMetaWeb: the request of the current step. */
    method SendWebHost(w: World)
      requires InHand(true) && cands[index].web != NotWeb
      modifies this
      ensures Settled()
      ensures Now() == Followed(Providers(), cands, old(index), SendWeb(cands[old(index)].web, old(CurrentLocal())),
                                old(immediate), w)
      decreases |immediate|, |cands| - index, 1
    {
      hide Followed;
      if step < Steps(cands[index].web) {
        Send(true, w);
      } else {
        Fail(w);
      }
    }

    method OnWebDone(r: Reply, w: World)
      requires Settled() && handedOver && viaWeb
      modifies this
      ensures Settled()
      ensures Now() == Followed(Providers(), cands, old(index), React(cands[old(index)], old(CurrentLocal()), r, w),
                                old(immediate), w)
      decreases |immediate|, |cands| - index, 5
    {
      hide Followed, ReactDeepseek, ReactInTurn;
      handedOver := false;
      match cands[index].web
      case Deepseek => DsOnDone(r, w);
      case Gemini => GemOnDone(r, w);
      case Grok => GrokOnDone(r, w);
      case Chatgpt => CgptOnDone(r, w);
      case Meta => MetaOnDone(r, w);
    }

    method DsOnDone(r: Reply, w: World)
      requires InHand(true) && cands[index].web == Deepseek
      modifies this
      ensures Settled()
      ensures Now() == Followed(Providers(), cands, old(index), ReactDeepseek(old(CurrentLocal()), r), old(immediate),
                                w)
      decreases |immediate|, |cands| - index, 4
    {
      hide Followed, SendWeb;
      if step == 0 {
        if r.status != 200 || !r.readable || !r.found {
          Fail(w);
          return;
        }
        step := step + 1;
        SendWebHost(w);
        return;
      }
      if step == 1 {
        if r.status != 200 || !r.readable || !r.found || !r.solved {
          Fail(w);
          return;
        }
        if r.reuse {
          step := 3;
        } else {
          step := 2;
        }
        SendWebHost(w);
        return;
      }
      if step == 2 {
        if r.status != 200 || !r.readable || !r.found {
          Fail(w);
          return;
        }
        step := 3;
        SendWebHost(w);
        return;
      }
      if step == 3 {
        if r.status != 200 {
          Fail(w);
          return;
        }
        if !r.parsed {
          if r.full && !dsRetried {
            dsRetried := true;
            step := 2;
            SendWebHost(w);
            return;
          }
          Fail(w);
          return;
        }
        Succeed(r.text, w);
        return;
      }
      Fail(w);
    }

    method GemOnDone(r: Reply, w: World)
      requires InHand(true) && cands[index].web == Gemini
      modifies this
      ensures Settled()
      ensures Now() == Followed(Providers(), cands, old(index), ReactInTurn(Gemini, old(CurrentLocal()), r),
                                old(immediate), w)
      decreases |immediate|, |cands| - index, 4
    {
      hide Followed, SendWeb;
      if step == 0 {
        if r.status != 200 || !r.found {
          Fail(w);
          return;
        }
        step := step + 1;
        SendWebHost(w);
        return;
      }
      if step == 1 {
        if r.status != 200 || !r.parsed {
          Fail(w);
          return;
        }
        Succeed(r.text, w);
        return;
      }
      Fail(w);
    }

    method GrokOnDone(r: Reply, w: World)
      requires InHand(true) && cands[index].web == Grok
      modifies this
      ensures Settled()
      ensures Now() == Followed(Providers(), cands, old(index), ReactInTurn(Grok, old(CurrentLocal()), r),
                                old(immediate), w)
      decreases |immediate|, |cands| - index, 4
    {
      hide Followed, SendWeb;
      if step != 0 {
        Fail(w);
        return;
      }
      if r.status == 401 || r.status == 403 || r.status == 429 {
        Fail(w);
        return;
      }
      if r.status != 200 || !r.parsed {
        Fail(w);
        return;
      }
      Succeed(r.text, w);
    }

    method CgptOnDone(r: Reply, w: World)
      requires InHand(true) && cands[index].web == Chatgpt
      modifies this
      ensures Settled()
      ensures Now() == Followed(Providers(), cands, old(index), ReactInTurn(Chatgpt, old(CurrentLocal()), r),
                                old(immediate), w)
      decreases |immediate|, |cands| - index, 4
    {
      hide Followed, SendWeb;
      if step == 0 {
        if r.status != 200 || !r.readable || !r.found {
          Fail(w);
          return;
        }
        if !r.solved {
          Fail(w);
          return;
        }
        step := step + 1;
        SendWebHost(w);
        return;
      }
      if step == 1 {
        if r.status != 200 || !r.readable {
          Fail(w);
          return;
        }
        if r.refused {
          Fail(w);
          return;
        }
        step := step + 1;
        SendWebHost(w);
        return;
      }
      if step == 2 {
        if r.status != 200 || !r.parsed {
          Fail(w);
          return;
        }
        Succeed(r.text, w);
        return;
      }
      Fail(w);
    }

    method MetaOnDone(r: Reply, w: World)
      requires InHand(true) && cands[index].web == Meta
      modifies this
      ensures Settled()
      ensures Now() == Followed(Providers(), cands, old(index), ReactInTurn(Meta, old(CurrentLocal()), r),
                                old(immediate), w)
      decreases |immediate|, |cands| - index, 4
    {
      hide Followed, SendWeb;
      if step == 0 || step == 1 {
        if r.status != 200 || !r.found {
          Fail(w);
          return;
        }
        step := step + 1;
        SendWebHost(w);
        return;
      }
      if step == 2 {
        if r.status != 200 || !r.parsed {
          Fail(w);
          return;
        }
        Succeed(r.text, w);
        return;
      }
      Fail(w);
    }

    method OnDone(r: Reply, w: World)
      requires Settled() && handedOver && !viaWeb
      modifies this
      ensures Settled()
      ensures Now() == Followed(Providers(), cands, old(index), React(cands[old(index)], old(CurrentLocal()), r, w),
                                old(immediate), w)
      decreases |immediate|, |cands| - index, 5
    {
      hide Followed;
      handedOver := false;
      if 200 <= r.status < 300 {
        if r.text != "" {
          Succeed(r.text, w);
          return;
        }
      }
      Fail(w);
    }
  }
}
