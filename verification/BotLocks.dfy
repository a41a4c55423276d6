/** Which requests of the bots bring the pump to a halt at its own lock. */
module BotLocks {
  // In module EndToEnd what a bot's callback asks for is a step of its own. Here it is put back into the request, as
  // module PumpLocks has it: the callback of a request that fails under the lock goes on at once.

  import opened Options
  import opened PumpSpec
  import opened PumpLaws
  import opened PumpLocks
  import F = Failover
  import S = Sessions
  import T = Fanyibot
  import A = Aigptbot
  import P = PasteUploader
  import E = EndToEnd
  import U = PumpUsers

  // ---- Which callbacks go on with a request ----

  /** The callback of session n, given a reply, hands the session to the poller again. */
  predicate GoesOn<C(==), L(==), R, W>(p: F.Protocol<C, L, R, W>, b: S.Bot<C, L>, n: nat, r: R, w: W) {
    && n in b.live && b.live[n].session.index < |b.live[n].session.cands| && !S.IsOutdated(b, n)
    && F.OnDone(p, b.live[n].session, r, w).Waiting?
  }

  /** It does so exactly when the session is outstanding again afterwards. */
  lemma GoesOnExactly<C(!new), L(!new), R(!new), W(!new)>(p: F.Protocol<C, L, R, W>, b: S.Bot<C, L>, n: nat, r: R, w: W)
    requires S.Consistent(b) && n in b.outstanding
    ensures n in b.live && b.live[n].session.index < |b.live[n].session.cands|
    ensures S.NeverSilent(p, b.live[n].session.cands) ==>
              (GoesOn(p, b, n, r, w) <==> n in S.Complete(p, b, n, r, w).live)
  {
    S.Taken(b, n);
    S.DiscardedExactly(p, b, n, r, w);
    if S.NeverSilent(p, b.live[n].session.cands) {
      S.OnDoneSpeaks(p, b.live[n].session, r, w);
    }
    hide S.Consistent, S.InHand, S.NeverSilent, F.OnDone, S.IsOutdated, F.Sound;
  }

  /** After a failed reply the next candidate that can ask does: whatever is passed over in between gives way at
      once. */
  lemma {:induction false} NextCandidateAsks<C, L, R, W>(
      p: F.Protocol<C, L, R, W>, cands: seq<C>, index: nat, tried: seq<C>, w: W, next: nat)
    requires index <= next < |cands| && p.begin(cands[next], w).Ask?
    requires forall i :: index <= i < next ==> p.begin(cands[i], w).Lose?
    ensures F.StartNext(p, cands, index, tried, w).Waiting?
    decreases next - index
  {
    if index < next {
      NextCandidateAsks(p, cands, index + 1, tried + [cands[index]], w, next);
    }
  }

  /** So with each of the three bots, a reply that fails for want of a connection leads on to the next candidate that
      can ask, say candidate m. */
  lemma FailedRepliesLeadOn(
      s: F.Session<T.Engine, T.Local>, tr: T.Reply, tw: T.World, a: F.Session<A.Provider, A.Local>, ar: A.Reply,
      aw: A.World, u: F.Session<P.HostId, nat>, pr: P.Reply, m: nat)
    requires !tr.ok && ar.status == 0 && !pr.ok
    ensures s.index < m < |s.cands| && T.Begin(s.cands[m], tw).Ask?
            && (forall i :: s.index < i < m ==> T.Begin(s.cands[i], tw).Lose?) ==>
              F.OnDone(T.Engines(), s, tr, tw).Waiting?
    ensures a.index < m < |a.cands| && A.Begin(a.cands[m], aw).Ask?
            && (forall i :: a.index < i < m ==> A.Begin(a.cands[i], aw).Lose?) ==>
              F.OnDone(A.Providers(), a, ar, aw).Waiting?
    ensures u.index < m < |u.cands| && P.Begin(u.cands[m]).Ask?
            && (forall i :: u.index < i < m ==> P.Begin(u.cands[i]).Lose?) ==>
              F.OnDone(P.Uploads(), u, pr, ()).Waiting?
  {
    if s.index < m < |s.cands| && T.Begin(s.cands[m], tw).Ask?
       && (forall i :: s.index < i < m ==> T.Begin(s.cands[i], tw).Lose?) {
      assert T.React(s.cands[s.index], s.local, tr, tw).Lose?;
      NextCandidateAsks(T.Engines(), s.cands, s.index + 1, s.tried, tw, m);
    }
    if a.index < m < |a.cands| && A.Begin(a.cands[m], aw).Ask?
       && (forall i :: a.index < i < m ==> A.Begin(a.cands[i], aw).Lose?) {
      assert A.React(a.cands[a.index], a.local, ar, aw).Lose?;
      NextCandidateAsks(A.Providers(), a.cands, a.index + 1, a.tried, aw, m);
    }
    if u.index < m < |u.cands| && P.Begin(u.cands[m]).Ask?
       && (forall i :: u.index < i < m ==> P.Begin(u.cands[i]).Lose?) {
      assert P.React(u.cands[u.index], u.local, pr).Lose?;
      NextCandidateAsks(P.Uploads(), u.cands, u.index + 1, u.tried, (), m);
    }
  }

  // ---- The pump, with what the callbacks would ask for ----

  /** What a failed request comes back with, and what the bots find when they handle it. */
  datatype Failure = Failure(tr: T.Reply, tw: T.World, ar: A.Reply, aw: A.World, pr: P.Reply)

  /** The callback of a request that comes back failed asks for another. */
  predicate AsksOnFailure(s: E.System, r: Request, x: Failure) {
    match r.owner
    case Translator => GoesOn(T.Engines(), s.translator.bot, r.id, x.tr, x.tw)
    case Chat => GoesOn(A.Providers(), s.chat.bot, r.id, x.ar, x.aw)
    case Uploader => GoesOn(P.Uploads(), s.uploader.bot, r.id, x.pr, ())
    case Others => r.followUps != []
  }

  function Failed<C(==), L(==), R, W>(p: F.Protocol<C, L, R, W>, b: S.Bot<C, L>, n: nat, r: R, w: W): S.Bot<C, L> {
    if n in b.live && b.live[n].session.index < |b.live[n].session.cands| then S.Complete(p, b, n, r, w) else b
  }

  /** What such a callback does to the sessions. */
  function AfterFailure(s: E.System, r: Request, x: Failure): E.System {
    match r.owner
    case Translator =>
      s.(translator := s.translator.(bot := Failed(T.Engines(), s.translator.bot, r.id, x.tr, x.tw)))
    case Chat => s.(chat := s.chat.(bot := Failed(A.Providers(), s.chat.bot, r.id, x.ar, x.aw)))
    case Uploader => s.(uploader := s.uploader.(bot := Failed(P.Uploads(), s.uploader.bot, r.id, x.pr, ())))
    case Others => s
  }

  function AfterFailures(s: E.System, rs: seq<Request>, x: Request -> Failure): E.System
    decreases |rs|
  {
    if rs == [] then s else AfterFailures(AfterFailure(s, rs[0], x(rs[0])), rs[1..], x)
  }

  /** The callback of request r asks for another, after those of the requests before it. */
  predicate AsksAfter(s: E.System, before: seq<Request>, r: Request, x: Request -> Failure) {
    AsksOnFailure(AfterFailures(s, before, x), r, x(r))
  }

  /** next: some request that the callback asks for; which one does not matter here. */
  function Told(r: Request, asks: bool, next: Request): Request {
    r.(followUps := if asks then [next] else [])
  }

  /** The requests whose callbacks an admission calls before that of delayed request i, if that fails. */
  function BeforeDue(p: Pump, now: int, i: nat): seq<Request>
    requires i < Due(p.delayed, now)
  {
    var due := DueRequests(p.delayed, now);
    if !due[i].builds then Those(due[..i], Unbuilt)
    else Those(due, Unbuilt) + Those(Requests(p.pending), Unattached) + Those(due[..i], BuiltUnattached)
  }

  /** The same for pending request i. */
  function BeforePending(p: Pump, now: int, i: nat): seq<Request>
    requires i < |p.pending|
  {
    Those(DueRequests(p.delayed, now), Unbuilt) + Those(Requests(p.pending)[..i], Unattached)
  }

  predicate AsksAtDue(s: E.System, now: int, x: Request -> Failure, i: nat) {
    i < Due(s.pump.delayed, now) && AsksAfter(s, BeforeDue(s.pump, now, i), s.pump.delayed[i].req, x)
  }

  predicate AsksAtPending(s: E.System, now: int, x: Request -> Failure, i: nat)
    requires i < |s.pump.pending|
  {
    AsksAfter(s, BeforePending(s.pump, now, i), s.pump.pending[i].req, x)
  }

  /** The pump when each request that is due or pending brings with it what its callback will ask for. */
  function ToldPump(s: E.System, now: int, x: Request -> Failure, next: Request): (q: Pump)
    ensures |q.delayed| == |s.pump.delayed| && |q.pending| == |s.pump.pending|
  {
    var p := s.pump;
    p.(delayed := seq(|p.delayed|, i requires 0 <= i < |p.delayed| =>
                    p.delayed[i].(req := Told(p.delayed[i].req, AsksAtDue(s, now, x, i), next))),
       pending := seq(|p.pending|, i requires 0 <= i < |p.pending| =>
                    p.pending[i].(req := Told(p.pending[i].req, AsksAtPending(s, now, x, i), next))))
  }

  lemma {:induction false} SameDue(ds: seq<Delayed>, es: seq<Delayed>, now: int)
    requires |ds| == |es| && forall i :: 0 <= i < |ds| ==> ds[i].readyAt == es[i].readyAt
    ensures Due(ds, now) == Due(es, now)
  {
    if ds != [] {
      SameDue(ds[1..], es[1..], now);
    }
  }

  /** A due request cannot be built or attached, and its callback goes on. */
  predicate HaltsAtDue(s: E.System, now: int, x: Request -> Failure, i: nat)
    requires i < |s.pump.delayed|
  {
    var r := s.pump.delayed[i].req;
    (!r.builds || !r.attaches) && AsksAtDue(s, now, x, i)
  }

  /** A pending one cannot be attached. */
  predicate HaltsAtPending(s: E.System, now: int, x: Request -> Failure, i: nat)
    requires i < |s.pump.pending|
  {
    !s.pump.pending[i].req.attaches && AsksAtPending(s, now, x, i)
  }

  lemma HaltsAtPlace(s: E.System, now: int, x: Request -> Failure, next: Request)
    ensures AdmitLocking(ToldPump(s, now, x, next), now) == None <==>
            s.pump.ready &&
            ((exists i :: 0 <= i < Due(s.pump.delayed, now) && HaltsAtDue(s, now, x, i)) ||
             (exists i :: 0 <= i < |s.pump.pending| && HaltsAtPending(s, now, x, i)))
  {
    hide AsksAtDue, AsksAtPending, Admit, AdmitLocking;
    var p, q := s.pump, ToldPump(s, now, x, next);
    AdmitBlocksExactly(q, now);
    SameDue(p.delayed, q.delayed, now);
    var k := Due(p.delayed, now);
    assert forall i :: 0 <= i < |p.delayed| ==>
                         q.delayed[i].req == Told(p.delayed[i].req, AsksAtDue(s, now, x, i), next);
    assert forall i :: 0 <= i < |p.pending| ==>
                         q.pending[i].req == Told(p.pending[i].req, AsksAtPending(s, now, x, i), next);
    hide ToldPump, Due;
    forall i | 0 <= i < k
      ensures HaltsAtDue(s, now, x, i) <==>
              DueFailsToBuild()(q.delayed[i].req) || DueFailsToAttach()(q.delayed[i].req)
    {
    }
    forall i | 0 <= i < |p.pending| ensures HaltsAtPending(s, now, x, i) <==> FailsToAttach(q.pending[i].req) {
    }
    hide HaltsAtDue, HaltsAtPending, FailsToAttach, FailsToBuild;
    if exists i :: 0 <= i < k && HaltsAtDue(s, now, x, i) {
      var i :| 0 <= i < k && HaltsAtDue(s, now, x, i);
      assert DueFailsToBuild()(q.delayed[i].req) || DueFailsToAttach()(q.delayed[i].req);
    }
    if exists i :: 0 <= i < |p.pending| && HaltsAtPending(s, now, x, i) {
      var i :| 0 <= i < |p.pending| && HaltsAtPending(s, now, x, i);
      assert FailsToAttach(q.pending[i].req);
    }
  }

  // ---- In the order of the callbacks ----

  lemma AtPlace(rs: seq<Request>, f: Request -> bool, i: nat)
    requires i < |rs| && f(rs[i])
    ensures Those(rs, f) == Those(rs[..i], f) + [rs[i]] + Those(rs[i + 1..], f)
  {
    assert rs == (rs[..i] + [rs[i]]) + rs[i + 1..];
    ThoseInParts(rs[..i] + [rs[i]], rs[i + 1..], f);
    ThoseInParts(rs[..i], [rs[i]], f);
    assert [rs[i]][1..] == [];
  }

  lemma {:induction false} PlaceOfThose(rs: seq<Request>, f: Request -> bool, k: nat) returns (i: nat)
    requires k < |Those(rs, f)|
    ensures i < |rs| && f(rs[i]) && rs[i] == Those(rs, f)[k] && Those(rs[..i], f) == Those(rs, f)[..k]
    decreases |rs|
  {
    if f(rs[0]) && k == 0 {
      i := 0;
    } else {
      var first: seq<Request> := if f(rs[0]) then [rs[0]] else [];
      var j := PlaceOfThose(rs[1..], f, k - |first|);
      i := j + 1;
      assert rs[..i] == [rs[0]] + rs[1..][..j];
      assert rs[..i][1..] == rs[1..][..j] && rs[..i][0] == rs[0];
      assert Those(rs, f) == first + Those(rs[1..], f);
    }
  }

  /** The callback of the k-th request called under the lock goes on, after those before it. */
  predicate GoesOnAt(s: E.System, called: seq<Request>, x: Request -> Failure, k: nat)
    requires k < |called|
  {
    AsksAfter(s, called[..k], called[k], x)
  }

  predicate AdmissionHalts(s: E.System, now: int, x: Request -> Failure) {
    && s.pump.ready
    && exists k :: 0 <= k < |CalledUnderLock(s.pump, now)| && GoesOnAt(s, CalledUnderLock(s.pump, now), x, k)
  }

  lemma DueIsCalled(p: Pump, now: int, i: nat) returns (k: nat)
    requires i < Due(p.delayed, now) && (!p.delayed[i].req.builds || !p.delayed[i].req.attaches)
    ensures var called := CalledUnderLock(p, now);
            k < |called| && called[k] == p.delayed[i].req && called[..k] == BeforeDue(p, now, i)
  {
    var due := DueRequests(p.delayed, now);
    assert due[i] == p.delayed[i].req;
    k := |BeforeDue(p, now, i)|;
    if !due[i].builds {
      AtPlace(due, Unbuilt, i);
    } else {
      AtPlace(due, BuiltUnattached, i);
    }
    hide Those, DueRequests;
  }

  lemma PendingIsCalled(p: Pump, now: int, i: nat) returns (k: nat)
    requires i < |p.pending| && !p.pending[i].req.attaches
    ensures var called := CalledUnderLock(p, now);
            k < |called| && called[k] == p.pending[i].req && called[..k] == BeforePending(p, now, i)
  {
    var waiting := Requests(p.pending);
    assert waiting[i] == p.pending[i].req;
    k := |BeforePending(p, now, i)|;
    AtPlace(waiting, Unattached, i);
    hide Those, DueRequests, Requests;
  }

  /** Every one of them has such a place. */
  lemma CalledIsThere(p: Pump, now: int, k: nat) returns (due: bool, i: nat)
    requires k < |CalledUnderLock(p, now)|
    ensures var called := CalledUnderLock(p, now);
            if due
            then i < Due(p.delayed, now) && (!p.delayed[i].req.builds || !p.delayed[i].req.attaches)
                 && called[k] == p.delayed[i].req && called[..k] == BeforeDue(p, now, i)
            else i < |p.pending| && !p.pending[i].req.attaches
                 && called[k] == p.pending[i].req && called[..k] == BeforePending(p, now, i)
  {
    var rs, waiting := DueRequests(p.delayed, now), Requests(p.pending);
    assert |rs| == Due(p.delayed, now) && forall j :: 0 <= j < |rs| ==> rs[j] == p.delayed[j].req;
    assert forall j :: 0 <= j < |waiting| ==> waiting[j] == p.pending[j].req;
    var first, second := Those(rs, Unbuilt), Those(waiting, Unattached);
    hide Those, DueRequests, Requests;
    if k < |first| {
      due := true;
      i := PlaceOfThose(rs, Unbuilt, k);
    } else if k < |first| + |second| {
      due := false;
      i := PlaceOfThose(waiting, Unattached, k - |first|);
    } else {
      due := true;
      i := PlaceOfThose(rs, BuiltUnattached, k - |first| - |second|);
    }
  }

  /** An admission halts the whole system exactly when one of the callbacks that it calls under the lock goes on: that
      of another user that asks for more, or that of a bot whose session is not outdated by then and reacts to the
      failure by asking again or by going on to a candidate that asks. */
  lemma AdmissionHaltsExactly(s: E.System, now: int, x: Request -> Failure, next: Request)
    ensures AdmitLocking(ToldPump(s, now, x, next), now) == None <==> AdmissionHalts(s, now, x)
  {
    hide AdmitLocking, ToldPump, AsksAfter;
    HaltsAtPlace(s, now, x, next);
    var p, called := s.pump, CalledUnderLock(s.pump, now);
    forall i | 0 <= i < Due(p.delayed, now) && HaltsAtDue(s, now, x, i)
      ensures exists k :: 0 <= k < |called| && GoesOnAt(s, called, x, k)
    {
      var k := DueIsCalled(p, now, i);
      assert GoesOnAt(s, called, x, k);
    }
    forall i | 0 <= i < |p.pending| && HaltsAtPending(s, now, x, i)
      ensures exists k :: 0 <= k < |called| && GoesOnAt(s, called, x, k)
    {
      var k := PendingIsCalled(p, now, i);
      assert GoesOnAt(s, called, x, k);
    }
    if k :| 0 <= k < |called| && GoesOnAt(s, called, x, k) {
      var due, i := CalledIsThere(p, now, k);
      assert if due then HaltsAtDue(s, now, x, i) else HaltsAtPending(s, now, x, i);
    }
  }

  // ---- Steps and runs ----

  /** What the pump does by itself, as an event of module PumpLaws. */
  function EventOf(a: U.PumpAct, now: int): Option<Event> {
    match a
    case Recovers(renewed) => Some(RecoverAt(renewed, now))
    case Watches => Some(WatchAt(now))
    case Completes(i) => Some(Message(i, now))
    case Receives(i) => Some(Bytes(i, now))
    case Drains => Some(StopAt(now))
    case _ => None
  }

  /** The session that a step of a bot hands to the pump if it waits, with the request that carries it, and the
      system in which that request's callback would run. */
  datatype Handing = Handing(s: E.System, waits: bool, r: Request, now: int)

  function TranslatorHanding(s: E.System, side: E.Side<T.Engine, T.Local>, n: nat, carrier: Request,
                             now: int): Handing {
    Handing(s.(translator := side), n in side.bot.live, carrier.(owner := Translator, id := n), now)
  }

  function ChatHanding(s: E.System, side: E.Side<A.Provider, A.Local>, n: nat, carrier: Request, now: int): Handing {
    Handing(s.(chat := side), n in side.bot.live, carrier.(owner := Chat, id := n), now)
  }

  function UploaderHanding(s: E.System, side: E.Side<P.HostId, nat>, n: nat, carrier: Request, now: int): Handing {
    Handing(s.(uploader := side), n in side.bot.live, carrier.(owner := Uploader, id := n), now)
  }

  function TranslatorAnswers(s: E.System, r: T.Reply, w: T.World): E.Side<T.Engine, T.Local>
    requires E.Sound(s) && s.translator.due != []
  {
    E.DueIsLive(T.Engines(), s.pump, s.translator, Translator);
    E.Answered(T.Engines(), s.translator, r, w)
  }

  function ChatAnswers(s: E.System, r: A.Reply, w: A.World): E.Side<A.Provider, A.Local>
    requires E.Sound(s) && s.chat.due != []
  {
    E.DueIsLive(A.Providers(), s.pump, s.chat, Chat);
    E.Answered(A.Providers(), s.chat, r, w)
  }

  function UploaderAnswers(s: E.System, r: P.Reply): E.Side<P.HostId, nat>
    requires E.Sound(s) && s.uploader.due != []
  {
    E.DueIsLive(P.Uploads(), s.pump, s.uploader, Uploader);
    E.Answered(P.Uploads(), s.uploader, r, ())
  }

  function StartHanding(s: E.System, act: E.Act): Option<Handing> {
    match act
    case Translate(message, cands, w, carrier, now) =>
      Some(TranslatorHanding(s, E.Begun(T.Engines(), s.translator, message, cands, w), s.translator.bot.started + 1,
                             carrier, now))
    case Prompt(message, cands, w, carrier, now) =>
      Some(ChatHanding(s, E.Begun(A.Providers(), s.chat, message, cands, w), s.chat.bot.started + 1, carrier, now))
    case Upload(message, _, _, _, cands, carrier, now) =>
      Some(UploaderHanding(s, E.Begun(P.Uploads(), s.uploader, message, cands, ()), s.uploader.bot.started + 1,
                           carrier, now))
    case _ => None
  }

  /** A callback needs a session that is due. */
  predicate IsDueFor(s: E.System, act: E.Act) {
    && (act.Translation? ==> s.translator.due != []) && (act.Answer? ==> s.chat.due != [])
    && (act.Uploaded? ==> s.uploader.due != [])
  }

  function HandingOf(s: E.System, act: E.Act): Option<Handing>
    requires E.Sound(s) && IsDueFor(s, act)
  {
    match act
    case Translation(r, w, carrier, now) =>
      Some(TranslatorHanding(s, TranslatorAnswers(s, r, w), s.translator.due[0], carrier, now))
    case Answer(r, w, carrier, now) => Some(ChatHanding(s, ChatAnswers(s, r, w), s.chat.due[0], carrier, now))
    case Uploaded(r, carrier, now) =>
      Some(UploaderHanding(s, UploaderAnswers(s, r), s.uploader.due[0], carrier, now))
    case _ => StartHanding(s, act)
  }

  /** The step waits for a lock that it holds: what the pump of module PumpLocks does with it is nothing. */
  predicate Waits(s: E.System, act: E.Act, x: Request -> Failure, next: Request)
    requires E.Sound(s) && E.Possible(s, act)
  {
    match act
    case Pumps(a, now) =>
      if a.Admits? then AdmitLocking(ToldPump(s, now, x, next), now) == None
      else if EventOf(a, now).Some? then StepLocking(s.pump, EventOf(a, now).value) == None
      else false
    case Foreigner(r, now) => StepLocking(s.pump, Ask(r, now)) == None
    case _ =>
      var h := HandingOf(s, act).value;
      h.waits && AddLocking(h.s.pump, Told(h.r, AsksOnFailure(h.s, h.r, x(h.r)), next), false, h.now) == None
  }

  /** The same by what the requests and the sessions are: an admission as above; a callback of another user; or a
      bot's request that cannot be built, is not delayed, and whose session reacts to that by asking again or by
      going on to a candidate that asks. */
  predicate Halts(s: E.System, act: E.Act, x: Request -> Failure)
    requires E.Sound(s) && E.Possible(s, act)
  {
    match act
    case Pumps(a, now) =>
      if a.Admits? then AdmissionHalts(s, now, x)
      else EventOf(a, now).Some? && Blocks(s.pump, EventOf(a, now).value)
    case Foreigner(r, now) => Blocks(s.pump, Ask(r, now))
    case _ =>
      var h := HandingOf(s, act).value;
      h.waits && s.pump.ready && h.r.delayMs <= 0 && !h.r.builds && AsksOnFailure(h.s, h.r, x(h.r))
  }

  lemma HandingsHaltExactly(h: Handing, x: Request -> Failure, next: Request)
    ensures AddLocking(h.s.pump, Told(h.r, AsksOnFailure(h.s, h.r, x(h.r)), next), false, h.now) == None <==>
            h.s.pump.ready && h.r.delayMs <= 0 && !h.r.builds && AsksOnFailure(h.s, h.r, x(h.r))
  {
    hide AsksOnFailure, Add, AddLocking;
    AddBlocksExactly(h.s.pump, Told(h.r, AsksOnFailure(h.s, h.r, x(h.r)), next), false, h.now);
  }

  lemma HandingKeepsPump(s: E.System, act: E.Act)
    requires E.Sound(s) && E.Possible(s, act)
    ensures HandingOf(s, act).Some? <==> !act.Pumps? && !act.Foreigner?
    ensures HandingOf(s, act).Some? ==> HandingOf(s, act).value.s.pump == s.pump
  {
    hide E.Sound, E.Possible, E.Begun, E.Answered;
  }

  lemma PumpHaltsExactly(s: E.System, a: U.PumpAct, now: int, x: Request -> Failure, next: Request)
    requires Valid(s.pump) && U.CanAct(s.pump, a) && EventOf(a, now).Some?
    ensures StepLocking(s.pump, EventOf(a, now).value) == None <==> Blocks(s.pump, EventOf(a, now).value)
  {
    hide Valid, StepLocking, Blocks, Step;
    StepBlocksExactly(s.pump, EventOf(a, now).value);
  }

  lemma ForeignHaltsExactly(s: E.System, r: Request, now: int)
    requires Valid(s.pump)
    ensures StepLocking(s.pump, Ask(r, now)) == None <==> Blocks(s.pump, Ask(r, now))
  {
    hide Valid, StepLocking, Blocks, Step;
    StepBlocksExactly(s.pump, Ask(r, now));
  }

  /** A step waits for its own lock exactly when it halts. */
  lemma StepHaltsExactly(s: E.System, act: E.Act, x: Request -> Failure, next: Request)
    requires E.Sound(s) && E.Possible(s, act)
    ensures Waits(s, act, x, next) <==> Halts(s, act, x)
  {
    hide Valid, E.Linked, U.AllTame, ToldPump, AdmitLocking, StepLocking, AddLocking, HandingOf, AsksOnFailure, Blocks;
    hide AdmissionHalts, P.AreCandidates, Told, U.Foreign;
    match act {
      case Pumps(a, now) =>
        if a.Admits? {
          AdmissionHaltsExactly(s, now, x, next);
        } else if EventOf(a, now).Some? {
          PumpHaltsExactly(s, a, now, x, next);
        }
      case Foreigner(r, now) => ForeignHaltsExactly(s, r, now);
      case _ =>
        HandingKeepsPump(s, act);
        HandingsHaltExactly(HandingOf(s, act).value, x, next);
    }
  }

  /** A run with the lock in view; the failures are what failed requests come back with at each step. */
  ghost function RunWaiting(s: E.System, acts: seq<(E.Act, Request -> Failure)>, next: Request): Option<E.System>
    requires E.Sound(s) && E.AllPossible(s, Acts(acts))
    decreases |acts|
  {
    if |acts| == 0 then Some(s)
    else if Waits(s, acts[0].0, acts[0].1, next) then None
    else
      E.StepSound(s, acts[0].0);
      RunWaiting(E.Step(s, acts[0].0), acts[1..], next)
  }

  function Acts(acts: seq<(E.Act, Request -> Failure)>): (es: seq<E.Act>)
    ensures |es| == |acts|
    ensures |acts| > 0 ==> es[0] == acts[0].0 && es[1..] == Acts(acts[1..])
  {
    if |acts| == 0 then [] else [acts[0].0] + Acts(acts[1..])
  }

  ghost predicate SomeStepHalts(s: E.System, acts: seq<(E.Act, Request -> Failure)>)
    requires E.Sound(s) && E.AllPossible(s, Acts(acts))
    decreases |acts|
  {
    && |acts| > 0
    && (Halts(s, acts[0].0, acts[0].1) ||
        (E.StepSound(s, acts[0].0); SomeStepHalts(E.Step(s, acts[0].0), acts[1..])))
  }

  /** Over every run of the pump, the three bots and other users: it comes to a halt exactly when a step of it halts,
      and all that is said of runs without a lock holds of the others. */
  lemma {:induction false} RunHaltsExactly(s: E.System, acts: seq<(E.Act, Request -> Failure)>, next: Request)
    requires E.Sound(s) && E.AllPossible(s, Acts(acts))
    ensures RunWaiting(s, acts, next) == if SomeStepHalts(s, acts) then None else Some(E.Run(s, Acts(acts)))
    decreases |acts|
  {
    hide E.Sound, E.Possible, E.Step, Waits, Halts;
    if |acts| > 0 {
      StepHaltsExactly(s, acts[0].0, acts[0].1, next);
      E.StepSound(s, acts[0].0);
      RunHaltsExactly(E.Step(s, acts[0].0), acts[1..], next);
    }
  }
}
