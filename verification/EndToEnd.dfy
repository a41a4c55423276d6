/** The shared pump and the three bots together: each live session is carried by exactly one request of the pump, or
    by the one callback that is about to run, whoever else uses the pump. */
module EndToEnd {
  // Requests carry their session's number. What a bot's callback asks for is a step of its own; what the callbacks of
  // other users ask for is written into their requests.

  import opened PumpSpec
  import opened PumpLaws
  import opened PumpUsers
  import F = Failover
  import S = Sessions
  import T = Fanyibot
  import A = Aigptbot
  import P = PasteUploader
  import B = SessionBounds

  // ---- One bot beside the pump ----

  /** due: the sessions whose callbacks the pump has called and that have yet to handle them, in order. */
  datatype Side<C, L> = Side(bot: S.Bot<C, L>, due: seq<nat>)

  /** No candidate of a live session is ever silent. */
  ghost predicate Speaks<C(!new), L(!new), R(!new), W(!new)>(p: F.Protocol<C, L, R, W>, live: map<nat, S.Entry<C, L>>) {
    forall n :: n in live ==> S.NeverSilent(p, live[n].session.cands)
  }

  /** What is outstanding for the bot is in flight in the pump, or due. */
  ghost predicate Linked<C(!new), L(!new), R(!new), W(!new)>(
      p: F.Protocol<C, L, R, W>, pump: Pump, side: Side<C, L>, u: User)
  {
    && S.Consistent(side.bot) && Speaks(p, side.bot.live)
    && side.bot.outstanding == multiset(IdsOf(Flight(pump), u)) + multiset(side.due)
  }

  /** The same while session n, if it is to wait, has no request yet. */
  ghost predicate AlmostLinked<C(!new), L(!new), R(!new), W(!new)>(
      p: F.Protocol<C, L, R, W>, pump: Pump, side: Side<C, L>, u: User, n: nat)
  {
    && S.Consistent(side.bot) && Speaks(p, side.bot.live)
    && side.bot.outstanding == multiset(IdsOf(Flight(pump), u)) + multiset(side.due) +
                               (if n in side.bot.live then multiset{n} else multiset{})
  }

  lemma DueInParts(a: seq<nat>, b: seq<nat>)
    ensures multiset(a + b) == multiset(a) + multiset(b)
  {
  }

  lemma Regroup(flight: multiset<nat>, due: multiset<nat>, n: multiset<nat>, after: multiset<nat>, newly: multiset<nat>)
    requires flight + n == after + newly
    ensures flight + due + n == after + (newly + due)
  {
    assert flight + due + n == (flight + n) + due;
  }

  /** The callbacks that the pump calls between p and q become due. */
  function Notified<C, L>(side: Side<C, L>, p: Pump, q: Pump, u: User): Side<C, L>
    requires p.done <= q.done
  {
    side.(due := side.due + NewlyDone(p, q, u))
  }

  /** A step of the pump in which the bot asks for nothing. */
  lemma NotifiedLinked<C(!new), L(!new), R(!new), W(!new)>(
      proto: F.Protocol<C, L, R, W>, p: Pump, q: Pump, side: Side<C, L>, u: User)
    requires Valid(p) && Valid(q) && p.done <= q.done && Linked(proto, p, side, u)
    requires multiset(IdsOf(Flight(p), u)) == multiset(IdsOf(Flight(q), u)) + multiset(NewlyDone(p, q, u))
    ensures Linked(proto, q, Notified(side, p, q, u), u)
  {
    hide Valid, Flight, NewlyDone, IdsOf, Speaks, S.Consistent;
    DueInParts(side.due, NewlyDone(p, q, u));
    Regroup(multiset(IdsOf(Flight(p), u)), multiset(side.due), multiset{}, multiset(IdsOf(Flight(q), u)),
            multiset(NewlyDone(p, q, u)));
  }

  /** The pump after session n is handed to it, if it waits, with a request that is the given one otherwise. */
  function HandedTo(pump: Pump, waits: bool, n: nat, carrier: Request, u: User, now: int): Pump {
    if waits then Add(pump, carrier.(owner := u, id := n), now) else pump
  }

  lemma HandedLaw(pump: Pump, waits: bool, n: nat, carrier: Request, u: User, now: int)
    requires Valid(pump) && AllTame(pump.asked) && u != Others && carrier.followUps == []
    ensures var q := HandedTo(pump, waits, n, carrier, u, now);
            && Valid(q) && AllTame(q.asked) && pump.done <= q.done
            && q.asked == pump.asked + if waits then [carrier.(owner := u, id := n)] else []
  {
    hide Valid, AllTame;
    AddOfBot(pump, carrier.(owner := u, id := n), now);
  }

  /** A callback that runs before addRequest returns comes first. */
  function HandedOver<C, L>(side: Side<C, L>, p: Pump, q: Pump, u: User): Side<C, L>
    requires p.done <= q.done
  {
    side.(due := NewlyDone(p, q, u) + side.due)
  }

  lemma HandedMoves(p: Pump, q: Pump, waits: bool, n: nat, carrier: Request, u: User, v: User)
    requires Valid(p) && Valid(q) && p.done <= q.done
    requires q.asked == p.asked + if waits then [carrier.(owner := u, id := n)] else []
    ensures multiset(IdsOf(Flight(p), v)) + (if waits && u == v then multiset{n} else multiset{}) ==
            multiset(IdsOf(Flight(q), v)) + multiset(NewlyDone(p, q, v))
  {
    hide Valid, Flight, NewlyDone;
    var more := if waits then [carrier.(owner := u, id := n)] else [];
    FlightMoves(p, q, more, v);
    IdsOfOne(carrier.(owner := u, id := n), v);
    assert multiset([n]) == multiset{n};
  }

  lemma HandedOverLinked<C(!new), L(!new), R(!new), W(!new)>(
      proto: F.Protocol<C, L, R, W>, p: Pump, side: Side<C, L>, n: nat, carrier: Request, u: User, now: int)
    requires Valid(p) && AllTame(p.asked) && u != Others && carrier.followUps == []
             && AlmostLinked(proto, p, side, u, n)
    ensures var q := HandedTo(p, n in side.bot.live, n, carrier, u, now);
            p.done <= q.done && Linked(proto, q, HandedOver(side, p, q, u), u)
  {
    hide Valid, Flight, NewlyDone, IdsOf, Speaks, S.Consistent, HandedTo, AllTame;
    var waits := n in side.bot.live;
    var q := HandedTo(p, waits, n, carrier, u, now);
    HandedLaw(p, waits, n, carrier, u, now);
    HandedMoves(p, q, waits, n, carrier, u, u);
    DueInParts(NewlyDone(p, q, u), side.due);
    Regroup(multiset(IdsOf(Flight(p), u)), multiset(side.due), if waits then multiset{n} else multiset{},
            multiset(IdsOf(Flight(q), u)), multiset(NewlyDone(p, q, u)));
  }

  /** Another bot's hand-over. */
  lemma HandedOverElsewhere<C(!new), L(!new), R(!new), W(!new)>(
      proto: F.Protocol<C, L, R, W>, p: Pump, side: Side<C, L>, v: User, waits: bool, n: nat, carrier: Request,
      u: User, now: int)
    requires Valid(p) && AllTame(p.asked) && u != Others && u != v && carrier.followUps == []
             && Linked(proto, p, side, v)
    ensures var q := HandedTo(p, waits, n, carrier, u, now);
            p.done <= q.done && Linked(proto, q, Notified(side, p, q, v), v)
  {
    hide Valid, Flight, NewlyDone, IdsOf, Linked, HandedTo, AllTame, Notified;
    var q := HandedTo(p, waits, n, carrier, u, now);
    HandedLaw(p, waits, n, carrier, u, now);
    HandedMoves(p, q, waits, n, carrier, u, v);
    NotifiedLinked(proto, p, q, side, v);
  }

  // ---- A start and a callback ----

  function Begun<C, L, R, W>(p: F.Protocol<C, L, R, W>, side: Side<C, L>, message: S.Message, cands: seq<C>,
                             w: W): Side<C, L>
  {
    side.(bot := S.Start(p, side.bot, message, cands, w))
  }

  lemma SpeaksSettled<C(!new), L(!new), R(!new), W(!new)>(
      p: F.Protocol<C, L, R, W>, b: S.Bot<C, L>, n: nat, message: S.Message, o: F.Outcome<C, L>, cands: seq<C>)
    requires Speaks(p, b.live) && S.NeverSilent(p, cands) && (o.Waiting? ==> o.session.cands == cands)
    ensures Speaks(p, S.Settle(b, n, message, o).live) && Speaks(p, b.live - {n})
  {
    hide S.NeverSilent;
  }

  lemma BegunLinked<C(!new), L(!new), R(!new), W(!new)>(
      p: F.Protocol<C, L, R, W>, pump: Pump, side: Side<C, L>, u: User, message: S.Message, cands: seq<C>, w: W)
    requires Linked(p, pump, side, u) && S.NeverSilent(p, cands)
    ensures AlmostLinked(p, pump, Begun(p, side, message, cands, w), u, side.bot.started + 1)
  {
    hide Flight, IdsOf, S.Consistent, S.NeverSilent, Speaks;
    S.StartConsistent(p, side.bot, message, cands, w);
    S.StartOutstanding(p, side.bot, message, cands, w);
    assert cands[..0] == [];
    F.StartNextSound(p, cands, 0, w);
    SpeaksSettled(p, side.bot.(started := side.bot.started + 1), side.bot.started + 1, message,
                  F.StartNext(p, cands, 0, [], w), cands);
    hide S.Settle, F.StartNext;
  }

  /** Every callback finds its session live and standing at a candidate. */
  lemma DueIsLive<C(!new), L(!new), R(!new), W(!new)>(p: F.Protocol<C, L, R, W>, pump: Pump, side: Side<C, L>, u: User)
    requires Linked(p, pump, side, u)
    ensures forall n :: n in side.due ==>
              && n in side.bot.outstanding && n in side.bot.live
              && side.bot.live[n].session.index < |side.bot.live[n].session.cands|
  {
    hide Flight, IdsOf, S.Consistent, Speaks;
    forall n | n in side.due
      ensures n in side.bot.outstanding && n in side.bot.live
      ensures side.bot.live[n].session.index < |side.bot.live[n].session.cands|
    {
      assert n in multiset(side.due);
      S.Taken(side.bot, n);
    }
  }

  /** The first callback due. */
  function Answered<C, L, R, W>(p: F.Protocol<C, L, R, W>, side: Side<C, L>, r: R, w: W): Side<C, L>
    requires side.due != [] && side.due[0] in side.bot.live
    requires side.bot.live[side.due[0]].session.index < |side.bot.live[side.due[0]].session.cands|
  {
    Side(S.Complete(p, side.bot, side.due[0], r, w), side.due[1..])
  }

  /** What is taken from the callbacks due, and outstanding again when the session waits. */
  lemma TakenDue(outstanding: multiset<nat>, flight: multiset<nat>, n: multiset<nat>, rest: multiset<nat>,
                 after: multiset<nat>, again: multiset<nat>)
    requires outstanding == flight + (n + rest) && outstanding == n + (after - again) && again <= after
    ensures after == flight + rest + again
  {
    assert after - again == flight + rest by {
      assert after - again == outstanding - n;
    }
    assert after == (after - again) + again;
  }

  lemma FirstDue(due: seq<nat>)
    requires due != []
    ensures multiset(due) == multiset{due[0]} + multiset(due[1..])
  {
    assert due == [due[0]] + due[1..];
  }

  lemma CompleteSpeaks<C(!new), L(!new), R(!new), W(!new)>(
      p: F.Protocol<C, L, R, W>, b: S.Bot<C, L>, n: nat, r: R, w: W)
    requires S.Consistent(b) && Speaks(p, b.live) && n in b.outstanding
    ensures n in b.live && b.live[n].session.index < |b.live[n].session.cands|
    ensures S.NeverSilent(p, b.live[n].session.cands) && Speaks(p, S.Complete(p, b, n, r, w).live)
  {
    hide S.Consistent, S.InHand, S.NeverSilent, F.OnDone, S.IsOutdated;
    S.Taken(b, n);
    var s := b.live[n].session;
    assert s.index < |s.cands| && S.NeverSilent(p, s.cands);
    S.OnDoneSpeaks(p, s, r, w);
    hide Speaks, F.Sound;
    SpeaksSettled(p, b.(outstanding := b.outstanding - multiset{n}), n, b.live[n].message, F.OnDone(p, s, r, w),
                  s.cands);
    hide S.Settle;
  }

  lemma AnsweredLinked<C(!new), L(!new), R(!new), W(!new)>(
      p: F.Protocol<C, L, R, W>, pump: Pump, side: Side<C, L>, u: User, r: R, w: W)
    requires Linked(p, pump, side, u) && side.due != []
    ensures side.due[0] in side.bot.live
    ensures side.bot.live[side.due[0]].session.index < |side.bot.live[side.due[0]].session.cands|
    ensures AlmostLinked(p, pump, Answered(p, side, r, w), u, side.due[0])
  {
    DueIsLive(p, pump, side, u);
    var n := side.due[0];
    hide Flight, IdsOf, S.Consistent, Speaks, S.NeverSilent;
    CompleteSpeaks(p, side.bot, n, r, w);
    S.CompleteConsistent(p, side.bot, n, r, w);
    S.CompleteOutstanding(p, side.bot, n, r, w);
    FirstDue(side.due);
    hide S.Complete;
    var c := S.Complete(p, side.bot, n, r, w);
    TakenDue(side.bot.outstanding, multiset(IdsOf(Flight(pump), u)), multiset{n}, multiset(side.due[1..]),
             c.outstanding, if n in c.live then multiset{n} else multiset{});
  }

  // ---- The three bots over one pump ----

  datatype System = System(pump: Pump, translator: Side<T.Engine, T.Local>, chat: Side<A.Provider, A.Local>,
                           uploader: Side<P.HostId, nat>)

  ghost predicate Sound(s: System) {
    && Valid(s.pump) && AllTame(s.pump.asked)
    && Linked(T.Engines(), s.pump, s.translator, Translator) && Linked(A.Providers(), s.pump, s.chat, Chat)
    && Linked(P.Uploads(), s.pump, s.uploader, Uploader)
  }

  /** carrier: what libcurl does with the request that a step hands over, and how long it is delayed. */
  datatype Act =
    | Pumps(a: PumpAct, now: int)
    | Foreigner(r: Request, now: int)
    | Translate(message: S.Message, engines: seq<T.Engine>, tw: T.World, carrier: Request, now: int)
    | Translation(tr: T.Reply, tw: T.World, carrier: Request, now: int)
    | Prompt(message: S.Message, providers: seq<A.Provider>, aw: A.World, carrier: Request, now: int)
    | Answer(ar: A.Reply, aw: A.World, carrier: Request, now: int)
    | Upload(message: S.Message, choice: P.Choice, kind: P.Kind, expiry: string, hosts: seq<P.HostId>, carrier: Request,
             now: int)
    | Uploaded(pr: P.Reply, carrier: Request, now: int)

  /** Callbacks run only when they are due, and an upload goes to candidates that its bot has picked. */
  predicate Possible(s: System, act: Act) {
    match act
    case Pumps(a, _) => CanAct(s.pump, a)
    case Foreigner(r, _) => Foreign(r)
    case Translate(_, _, _, carrier, _) => carrier.followUps == []
    case Translation(_, _, carrier, _) => carrier.followUps == [] && s.translator.due != []
    case Prompt(_, _, _, carrier, _) => carrier.followUps == []
    case Answer(_, _, carrier, _) => carrier.followUps == [] && s.chat.due != []
    case Upload(_, choice, kind, expiry, hosts, carrier, _) =>
      carrier.followUps == [] && P.AreCandidates(choice, kind, expiry, hosts)
    case Uploaded(_, carrier, _) => carrier.followUps == [] && s.uploader.due != []
  }

  /** All bots learn what the pump did. */
  function Pumped(s: System, q: Pump): System
    requires s.pump.done <= q.done
  {
    System(q, Notified(s.translator, s.pump, q, Translator), Notified(s.chat, s.pump, q, Chat),
           Notified(s.uploader, s.pump, q, Uploader))
  }

  lemma PumpedSound(s: System, q: Pump)
    requires Sound(s) && Valid(q) && AllTame(q.asked) && s.pump.done <= q.done && AsksForeign(s.pump, q)
    ensures Sound(Pumped(s, q))
  {
    hide Valid, AllTame, AsksForeign, Linked, Notified, Flight, T.Engines, A.Providers, P.Uploads;
    BotFlightMoves(s.pump, q, Translator);
    NotifiedLinked(T.Engines(), s.pump, q, s.translator, Translator);
    BotFlightMoves(s.pump, q, Chat);
    NotifiedLinked(A.Providers(), s.pump, q, s.chat, Chat);
    BotFlightMoves(s.pump, q, Uploader);
    NotifiedLinked(P.Uploads(), s.pump, q, s.uploader, Uploader);
  }

  // A bot's session n, in the state side, is handed to the pump if it is to wait.

  function TranslatorHands(s: System, side: Side<T.Engine, T.Local>, n: nat, carrier: Request, now: int): System
    requires Valid(s.pump) && AllTame(s.pump.asked) && carrier.followUps == []
  {
    HandedLaw(s.pump, n in side.bot.live, n, carrier, Translator, now);
    var q := HandedTo(s.pump, n in side.bot.live, n, carrier, Translator, now);
    System(q, HandedOver(side, s.pump, q, Translator), Notified(s.chat, s.pump, q, Chat),
           Notified(s.uploader, s.pump, q, Uploader))
  }

  function ChatHands(s: System, side: Side<A.Provider, A.Local>, n: nat, carrier: Request, now: int): System
    requires Valid(s.pump) && AllTame(s.pump.asked) && carrier.followUps == []
  {
    HandedLaw(s.pump, n in side.bot.live, n, carrier, Chat, now);
    var q := HandedTo(s.pump, n in side.bot.live, n, carrier, Chat, now);
    System(q, Notified(s.translator, s.pump, q, Translator), HandedOver(side, s.pump, q, Chat),
           Notified(s.uploader, s.pump, q, Uploader))
  }

  function UploaderHands(s: System, side: Side<P.HostId, nat>, n: nat, carrier: Request, now: int): System
    requires Valid(s.pump) && AllTame(s.pump.asked) && carrier.followUps == []
  {
    HandedLaw(s.pump, n in side.bot.live, n, carrier, Uploader, now);
    var q := HandedTo(s.pump, n in side.bot.live, n, carrier, Uploader, now);
    System(q, Notified(s.translator, s.pump, q, Translator), Notified(s.chat, s.pump, q, Chat),
           HandedOver(side, s.pump, q, Uploader))
  }

  lemma TranslatorHandsSound(s: System, side: Side<T.Engine, T.Local>, n: nat, carrier: Request, now: int)
    requires Sound(s) && carrier.followUps == [] && AlmostLinked(T.Engines(), s.pump, side, Translator, n)
    ensures Sound(TranslatorHands(s, side, n, carrier, now))
  {
    var waits := n in side.bot.live;
    hide Valid, AllTame, Linked, AlmostLinked, Notified, HandedOver, HandedTo, T.Engines, A.Providers, P.Uploads;
    HandedLaw(s.pump, waits, n, carrier, Translator, now);
    HandedOverLinked(T.Engines(), s.pump, side, n, carrier, Translator, now);
    HandedOverElsewhere(A.Providers(), s.pump, s.chat, Chat, waits, n, carrier, Translator, now);
    HandedOverElsewhere(P.Uploads(), s.pump, s.uploader, Uploader, waits, n, carrier, Translator, now);
  }

  lemma ChatHandsSound(s: System, side: Side<A.Provider, A.Local>, n: nat, carrier: Request, now: int)
    requires Sound(s) && carrier.followUps == [] && AlmostLinked(A.Providers(), s.pump, side, Chat, n)
    ensures Sound(ChatHands(s, side, n, carrier, now))
  {
    var waits := n in side.bot.live;
    hide Valid, AllTame, Linked, AlmostLinked, Notified, HandedOver, HandedTo, T.Engines, A.Providers, P.Uploads;
    HandedLaw(s.pump, waits, n, carrier, Chat, now);
    HandedOverElsewhere(T.Engines(), s.pump, s.translator, Translator, waits, n, carrier, Chat, now);
    HandedOverLinked(A.Providers(), s.pump, side, n, carrier, Chat, now);
    HandedOverElsewhere(P.Uploads(), s.pump, s.uploader, Uploader, waits, n, carrier, Chat, now);
  }

  lemma UploaderHandsSound(s: System, side: Side<P.HostId, nat>, n: nat, carrier: Request, now: int)
    requires Sound(s) && carrier.followUps == [] && AlmostLinked(P.Uploads(), s.pump, side, Uploader, n)
    ensures Sound(UploaderHands(s, side, n, carrier, now))
  {
    var waits := n in side.bot.live;
    hide Valid, AllTame, Linked, AlmostLinked, Notified, HandedOver, HandedTo, T.Engines, A.Providers, P.Uploads;
    HandedLaw(s.pump, waits, n, carrier, Uploader, now);
    HandedOverElsewhere(T.Engines(), s.pump, s.translator, Translator, waits, n, carrier, Uploader, now);
    HandedOverElsewhere(A.Providers(), s.pump, s.chat, Chat, waits, n, carrier, Uploader, now);
    HandedOverLinked(P.Uploads(), s.pump, side, n, carrier, Uploader, now);
  }

  function Acts(s: System, a: PumpAct, now: int): System
    requires Sound(s) && CanAct(s.pump, a)
  {
    ActedLaw(s.pump, a, now);
    Pumped(s, Acted(s.pump, a, now))
  }

  function Intrudes(s: System, r: Request, now: int): System
    requires Sound(s) && Foreign(r)
  {
    AddOfOthers(s.pump, r, now);
    Pumped(s, Add(s.pump, r, now))
  }

  function TranslatorBegins(s: System, message: S.Message, cands: seq<T.Engine>, w: T.World, carrier: Request,
                            now: int): System
    requires Sound(s) && carrier.followUps == []
  {
    TranslatorHands(s, Begun(T.Engines(), s.translator, message, cands, w), s.translator.bot.started + 1, carrier, now)
  }

  function ChatBegins(s: System, message: S.Message, cands: seq<A.Provider>, w: A.World, carrier: Request,
                      now: int): System
    requires Sound(s) && carrier.followUps == []
  {
    ChatHands(s, Begun(A.Providers(), s.chat, message, cands, w), s.chat.bot.started + 1, carrier, now)
  }

  function UploaderBegins(s: System, message: S.Message, cands: seq<P.HostId>, carrier: Request, now: int): System
    requires Sound(s) && carrier.followUps == []
  {
    UploaderHands(s, Begun(P.Uploads(), s.uploader, message, cands, ()), s.uploader.bot.started + 1, carrier, now)
  }

  function TranslatorAnswered(s: System, r: T.Reply, w: T.World, carrier: Request, now: int): System
    requires Sound(s) && carrier.followUps == [] && s.translator.due != []
  {
    DueIsLive(T.Engines(), s.pump, s.translator, Translator);
    TranslatorHands(s, Answered(T.Engines(), s.translator, r, w), s.translator.due[0], carrier, now)
  }

  function ChatAnswered(s: System, r: A.Reply, w: A.World, carrier: Request, now: int): System
    requires Sound(s) && carrier.followUps == [] && s.chat.due != []
  {
    DueIsLive(A.Providers(), s.pump, s.chat, Chat);
    ChatHands(s, Answered(A.Providers(), s.chat, r, w), s.chat.due[0], carrier, now)
  }

  function UploaderAnswered(s: System, r: P.Reply, carrier: Request, now: int): System
    requires Sound(s) && carrier.followUps == [] && s.uploader.due != []
  {
    DueIsLive(P.Uploads(), s.pump, s.uploader, Uploader);
    UploaderHands(s, Answered(P.Uploads(), s.uploader, r, ()), s.uploader.due[0], carrier, now)
  }

  function Step(s: System, act: Act): System
    requires Sound(s) && Possible(s, act)
  {
    match act
    case Pumps(a, now) => Acts(s, a, now)
    case Foreigner(r, now) => Intrudes(s, r, now)
    case Translate(message, cands, w, carrier, now) => TranslatorBegins(s, message, cands, w, carrier, now)
    case Translation(r, w, carrier, now) => TranslatorAnswered(s, r, w, carrier, now)
    case Prompt(message, cands, w, carrier, now) => ChatBegins(s, message, cands, w, carrier, now)
    case Answer(r, w, carrier, now) => ChatAnswered(s, r, w, carrier, now)
    case Upload(message, _, _, _, cands, carrier, now) => UploaderBegins(s, message, cands, carrier, now)
    case Uploaded(r, carrier, now) => UploaderAnswered(s, r, carrier, now)
  }

  /** Every step, whoever takes it, keeps the sessions of all bots linked to their requests. */
  lemma StepSound(s: System, act: Act)
    requires Sound(s) && Possible(s, act)
    ensures Sound(Step(s, act))
  {
    hide Valid, AllTame, AsksForeign, Linked, AlmostLinked, Pumped, Acted, Add, TranslatorHands, ChatHands,
      UploaderHands;
    hide T.Engines, A.Providers, P.Uploads, Begun, Answered, S.NeverSilent, P.AreCandidates;
    match act
    case Pumps(a, now) =>
      ActedLaw(s.pump, a, now);
      PumpedSound(s, Acted(s.pump, a, now));
    case Foreigner(r, now) =>
      AddOfOthers(s.pump, r, now);
      PumpedSound(s, Add(s.pump, r, now));
    case Translate(message, cands, w, carrier, now) =>
      T.EnginesNeverSilent(cands);
      BegunLinked(T.Engines(), s.pump, s.translator, Translator, message, cands, w);
      TranslatorHandsSound(s, Begun(T.Engines(), s.translator, message, cands, w), s.translator.bot.started + 1,
                           carrier, now);
    case Translation(r, w, carrier, now) =>
      AnsweredLinked(T.Engines(), s.pump, s.translator, Translator, r, w);
      TranslatorHandsSound(s, Answered(T.Engines(), s.translator, r, w), s.translator.due[0], carrier, now);
    case Prompt(message, cands, w, carrier, now) =>
      A.ProvidersNeverSilent(cands);
      BegunLinked(A.Providers(), s.pump, s.chat, Chat, message, cands, w);
      ChatHandsSound(s, Begun(A.Providers(), s.chat, message, cands, w), s.chat.bot.started + 1, carrier, now);
    case Answer(r, w, carrier, now) =>
      AnsweredLinked(A.Providers(), s.pump, s.chat, Chat, r, w);
      ChatHandsSound(s, Answered(A.Providers(), s.chat, r, w), s.chat.due[0], carrier, now);
    case Upload(message, choice, kind, expiry, cands, carrier, now) =>
      P.CandidatesNeverPastebin(choice, kind, expiry, cands);
      P.SilentExactlyPastebin(cands);
      BegunLinked(P.Uploads(), s.pump, s.uploader, Uploader, message, cands, ());
      UploaderHandsSound(s, Begun(P.Uploads(), s.uploader, message, cands, ()), s.uploader.bot.started + 1, carrier,
                         now);
    case Uploaded(r, carrier, now) =>
      AnsweredLinked(P.Uploads(), s.pump, s.uploader, Uploader, r, ());
      UploaderHandsSound(s, Answered(P.Uploads(), s.uploader, r, ()), s.uploader.due[0], carrier, now);
  }

  // ---- Runs ----

  ghost predicate AllPossible(s: System, acts: seq<Act>)
    requires Sound(s)
    decreases |acts|
  {
    |acts| == 0 || (Possible(s, acts[0]) && (StepSound(s, acts[0]); AllPossible(Step(s, acts[0]), acts[1..])))
  }

  ghost function Run(s: System, acts: seq<Act>): (t: System)
    requires Sound(s) && AllPossible(s, acts)
    ensures Sound(t)
    decreases |acts|
  {
    if |acts| == 0 then s
    else
      StepSound(s, acts[0]);
      Run(Step(s, acts[0]), acts[1..])
  }

  const NEW := System(START, Side(S.NewBot<T.Engine, T.Local>(), []), Side(S.NewBot<A.Provider, A.Local>(), []),
                      Side(S.NewBot<P.HostId, nat>(), []))

  lemma NewSideLinked<C(!new), L(!new), R(!new), W(!new)>(p: F.Protocol<C, L, R, W>, u: User)
    ensures Linked(p, START, Side(S.NewBot<C, L>(), []), u)
  {
    S.NewBotConsistent<C, L>();
    assert Flight(START) == [];
  }

  lemma NewSound()
    ensures Sound(NEW)
  {
    assert Valid(START);
    NewSideLinked(T.Engines(), Translator);
    NewSideLinked(A.Providers(), Chat);
    NewSideLinked(P.Uploads(), Uploader);
    hide Linked, T.Engines, A.Providers, P.Uploads;
  }

  /** Session n of a bot: the requests in flight and the callbacks due that carry it are one if it is live and none
      otherwise; and if it was started, it is live, or over exactly once, with a result or discarded. */
  ghost predicate CarriedOnce<C, L>(pump: Pump, side: Side<C, L>, u: User, n: nat) {
    && multiset(IdsOf(Flight(pump), u))[n] + multiset(side.due)[n] == (if n in side.bot.live then 1 else 0)
    && S.TimesOver(side.bot, n) == (if 1 <= n <= side.bot.started && n !in side.bot.live then 1 else 0)
  }

  lemma LinkedCarries<C(!new), L(!new), R(!new), W(!new)>(
      p: F.Protocol<C, L, R, W>, pump: Pump, side: Side<C, L>, u: User, n: nat)
    requires Linked(p, pump, side, u)
    ensures CarriedOnce(pump, side, u, n)
  {
    hide Flight, IdsOf, Speaks;
    assert side.bot.outstanding[n] == multiset(side.bot.live.Keys)[n];
  }

  /** In every state that any run of the pump, the three bots and other users reaches, from the start (NewSound) or
      from any sound state, every session of every bot is carried and over exactly as often as it should be. */
  lemma CarriedExactlyOnce(s: System, acts: seq<Act>, n: nat)
    requires Sound(s) && AllPossible(s, acts)
    ensures var t := Run(s, acts);
            && CarriedOnce(t.pump, t.translator, Translator, n) && CarriedOnce(t.pump, t.chat, Chat, n)
            && CarriedOnce(t.pump, t.uploader, Uploader, n)
  {
    var t := Run(s, acts);
    hide Valid, AllTame, Linked, CarriedOnce, T.Engines, A.Providers, P.Uploads, Run, AllPossible;
    LinkedCarries(T.Engines(), t.pump, t.translator, Translator, n);
    LinkedCarries(A.Providers(), t.pump, t.chat, Chat, n);
    LinkedCarries(P.Uploads(), t.pump, t.uploader, Uploader, n);
  }

  // ---- Every start comes to an end ----

  /** A bot's callbacks that a step handles, and the requests that the candidates of a start may make at most. */
  function Handled(act: Act, u: User): nat {
    match act
    case Translation(_, _, _, _) => if u == Translator then 1 else 0
    case Answer(_, _, _, _) => if u == Chat then 1 else 0
    case Uploaded(_, _, _) => if u == Uploader then 1 else 0
    case _ => 0
  }

  function Granted(act: Act, u: User): nat {
    match act
    case Translate(_, cands, _, _, _) => if u == Translator then F.SumOfBounds(T.Bound, cands) else 0
    case Prompt(_, cands, _, _, _) => if u == Chat then F.SumOfBounds(A.Bound, cands) else 0
    case Upload(_, _, _, _, cands, _, _) => if u == Uploader then F.SumOfBounds(P.Bound, cands) else 0
    case _ => 0
  }

  function AllHandled(acts: seq<Act>, u: User): nat {
    if |acts| == 0 then 0 else Handled(acts[0], u) + AllHandled(acts[1..], u)
  }

  function AllGranted(acts: seq<Act>, u: User): nat {
    if |acts| == 0 then 0 else Granted(acts[0], u) + AllGranted(acts[1..], u)
  }

  /** What the live sessions of a bot may still handle. */
  function LoadOf(s: System, u: User): nat {
    match u
    case Translator => B.Load(T.Bound, T.Cost, s.translator.bot)
    case Chat => B.Load(A.Bound, A.Cost, s.chat.bot)
    case Uploader => B.Load(P.Bound, P.Cost, s.uploader.bot)
    case Others => 0
  }

  lemma AnsweredLoad<C(!new), L(!new), R(!new), W(!new)>(
      p: F.Protocol<C, L, R, W>, pump: Pump, side: Side<C, L>, u: User, r: R, w: W, bound: C -> nat,
        cost: (C, L) -> nat)
    requires Linked(p, pump, side, u) && side.due != [] && F.Bounded(p, bound, cost)
    ensures side.due[0] in side.bot.live
    ensures side.bot.live[side.due[0]].session.index < |side.bot.live[side.due[0]].session.cands|
    ensures B.Load(bound, cost, Answered(p, side, r, w).bot) < B.Load(bound, cost, side.bot)
  {
    DueIsLive(p, pump, side, u);
    hide Flight, IdsOf, S.Consistent, S.NeverSilent, F.Bounded, B.Load;
    B.CompleteLoad(p, side.bot, side.due[0], r, w, bound, cost);
  }

  lemma BegunLoad<C(!new), L(!new), R(!new), W(!new)>(
      p: F.Protocol<C, L, R, W>, pump: Pump, side: Side<C, L>, u: User, message: S.Message, cands: seq<C>, w: W,
      bound: C -> nat, cost: (C, L) -> nat)
    requires Linked(p, pump, side, u) && F.Bounded(p, bound, cost)
    ensures B.Load(bound, cost, Begun(p, side, message, cands, w).bot) <=
            B.Load(bound, cost, side.bot) + F.SumOfBounds(bound, cands)
  {
    hide Flight, IdsOf, S.Consistent, F.Bounded, B.Load;
    B.StartLoad(p, side.bot, message, cands, w, bound, cost);
  }

  lemma TranslatorStepLoad(s: System, act: Act)
    requires Sound(s) && Possible(s, act)
    ensures LoadOf(Step(s, act), Translator) + Handled(act, Translator) <=
            LoadOf(s, Translator) + Granted(act, Translator)
  {
    T.EnginesBounded();
    hide Valid, AllTame, Linked, T.Engines, T.Bound, T.Cost, F.Bounded, B.Load, F.SumOfBounds, Begun, Answered;
    hide P.AreCandidates, Acted, Add;
    match act
    case Translate(message, cands, w, _, _) =>
      BegunLoad(T.Engines(), s.pump, s.translator, Translator, message, cands, w, T.Bound, T.Cost);
    case Translation(r, w, _, _) =>
      AnsweredLoad(T.Engines(), s.pump, s.translator, Translator, r, w, T.Bound, T.Cost);
    case _ =>
  }

  lemma ChatStepLoad(s: System, act: Act)
    requires Sound(s) && Possible(s, act)
    ensures LoadOf(Step(s, act), Chat) + Handled(act, Chat) <= LoadOf(s, Chat) + Granted(act, Chat)
  {
    A.ProvidersBounded();
    hide Valid, AllTame, Linked, A.Providers, A.Bound, A.Cost, F.Bounded, B.Load, F.SumOfBounds, Begun, Answered;
    hide P.AreCandidates, Acted, Add;
    match act
    case Prompt(message, cands, w, _, _) =>
      BegunLoad(A.Providers(), s.pump, s.chat, Chat, message, cands, w, A.Bound, A.Cost);
    case Answer(r, w, _, _) => AnsweredLoad(A.Providers(), s.pump, s.chat, Chat, r, w, A.Bound, A.Cost);
    case _ =>
  }

  lemma UploaderStepLoad(s: System, act: Act)
    requires Sound(s) && Possible(s, act)
    ensures LoadOf(Step(s, act), Uploader) + Handled(act, Uploader) <= LoadOf(s, Uploader) + Granted(act, Uploader)
  {
    P.UploadsBounded();
    hide Valid, AllTame, Linked, P.Uploads, P.Bound, P.Cost, F.Bounded, B.Load, F.SumOfBounds, Begun, Answered;
    hide P.AreCandidates, Acted, Add;
    match act
    case Upload(message, _, _, _, cands, _, _) =>
      BegunLoad(P.Uploads(), s.pump, s.uploader, Uploader, message, cands, (), P.Bound, P.Cost);
    case Uploaded(r, _, _) => AnsweredLoad(P.Uploads(), s.pump, s.uploader, Uploader, r, (), P.Bound, P.Cost);
    case _ =>
  }

  /** Over every run, the callbacks that a bot handles, and those that its live sessions may still handle, are at
      most what the candidates of all its starts are bounded by, and of the sessions that were live before. */
  lemma {:induction false} CallbacksBounded(s: System, acts: seq<Act>, u: User)
    requires Sound(s) && AllPossible(s, acts)
    ensures AllHandled(acts, u) + LoadOf(Run(s, acts), u) <= LoadOf(s, u) + AllGranted(acts, u)
    decreases |acts|
  {
    hide Sound, Possible, Step, LoadOf, Handled, Granted;
    if |acts| > 0 {
      StepSound(s, acts[0]);
      match u {
        case Translator => TranslatorStepLoad(s, acts[0]);
        case Chat => ChatStepLoad(s, acts[0]);
        case Uploader => UploaderStepLoad(s, acts[0]);
        case Others => NothingOfOthers(s, acts[0]);
      }
      CallbacksBounded(Step(s, acts[0]), acts[1..], u);
    }
  }

  lemma NothingOfOthers(s: System, act: Act)
    requires Sound(s) && Possible(s, act)
    ensures LoadOf(Step(s, act), Others) + Handled(act, Others) <= LoadOf(s, Others) + Granted(act, Others)
  {
    hide Sound, Possible, Step;
  }

  lemma NewLoads(u: User)
    ensures LoadOf(NEW, u) == 0
  {
    B.NewBotLoad<T.Engine, T.Local>(T.Bound, T.Cost);
    B.NewBotLoad<A.Provider, A.Local>(A.Bound, A.Cost);
    B.NewBotLoad<P.HostId, nat>(P.Bound, P.Cost);
    hide B.Load;
  }

  /** From the start on, a bot handles at most as many callbacks as the candidates of its starts are bounded by,
      however the bots and other users take turns: every session comes to an end. */
  lemma EveryStartEnds(acts: seq<Act>, u: User)
    requires Sound(NEW) && AllPossible(NEW, acts)
    ensures AllHandled(acts, u) + LoadOf(Run(NEW, acts), u) <= AllGranted(acts, u)
  {
    hide Sound, Run, LoadOf, AllPossible;
    NewLoads(u);
    CallbacksBounded(NEW, acts, u);
  }
}
